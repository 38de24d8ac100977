/** Detach requests: how a batch is signed off chain, and what finalising one writes. */
module DetachDesk {
  import opened Basics
  import opened Messages

  datatype Request = Request(hash: Bytes32, chain: TargetChain, account: Bytes)

  type Signature = b: Bytes | |b| == 65 witness seq(65, _ => 0)

  /** What the worker's node holds: whether it has an authority's key, and the hash and signature functions. */
  datatype Worker = Worker(hasKey: bool, keccak: Bytes -> Bytes32, sign: Bytes32 -> Option<Signature>)

  /** The unsigned transaction sent for a signed request. */
  datatype Announcement = Announcement(hash: Bytes32, chain: TargetChain, account: Bytes, signature: Signature,
                                       nonce: Nonce)

  datatype Export = Export(chain: TargetChain, owner: Bytes, nonce: Nonce)

  type Nonces = map<(Bytes, TargetChain), Nonce>

  /** `requests` waits on chain for the end of the block, `queue` off chain for the worker. */
  datatype Desk = Desk(requests: seq<Request>, queue: Option<seq<Request>>, nonces: Nonces,
                       detached: map<Bytes32, Export>)

  /** How a pass over a batch ends: through all of it, by giving up, or by the overflow of a nonce. */
  datatype End = Through | Failed | Panicked

  datatype Pass = Pass(sent: seq<Announcement>, end: End)

  /** Who owns which proto, as the protos pallet answers. */
  type Owners = map<Bytes32, ProtoOwner>

  datatype Error = ProtoNotFound | Unauthorized | Detached

  /** `detach`: the owning account asks, while the proto is attached. Nothing is asked of the target account. */
  function Requested(d: Desk, owners: Owners, who: AccountId, r: Request): Result<Desk, Error> {
    if r.hash !in owners then Err(ProtoNotFound)
    else if owners[r.hash] != User(who) then Err(Unauthorized)
    else if r.hash in d.detached then Err(Detached)
    else Ok(d.(requests := d.requests + [r]))
  }

  /** One more than the nonce stored for the account, or 1; none if that overflows. */
  function NextNonce(nonces: Nonces, r: Request): Option<Nonce> {
    if (r.account, r.chain) !in nonces then Some(1)
    else if nonces[(r.account, r.chain)] + 1 < U64 then Some(nonces[(r.account, r.chain)] + 1)
    else None
  }

  /** The last byte is moved to where Ethereum expects it, in a u8. */
  function ForEthereum(s: Signature): Signature {
    s[64 := ((s[64] as int + 27) % 256) as Byte]
  }

  function Signed(w: Worker, payload: Bytes): Option<Signature> {
    var s := w.sign(w.keccak(Wrapped(w.keccak(payload))));
    if s.None? then None else Some(ForEthereum(s.value))
  }

  /** One request after those before it. A missing key or signature is only logged. */
  function Next(w: Worker, nonces: Nonces, pass: Pass, r: Request): Pass {
    if !pass.end.Through? || !w.hasKey then pass
    else if |r.account| != 20 then pass.(end := Failed)
    else
      var nonce := NextNonce(nonces, r);
      if nonce.None? then pass.(end := Panicked)
      else
        var s := Signed(w, Payload(Detaching(r.hash, r.chain, r.account, nonce.value)));
        if s.None? then pass
        else pass.(sent := pass.sent + [Announcement(r.hash, r.chain, r.account, s.value, nonce.value)])
  }

  function Processed(w: Worker, nonces: Nonces, batch: seq<Request>): Pass {
    if batch == [] then Pass([], Through)
    else Next(w, nonces, Processed(w, nonces, batch[..|batch| - 1]), batch[|batch| - 1])
  }

  function Finalized(d: Desk, a: Announcement): Desk {
    d.(nonces := d.nonces[(a.account, a.chain) := a.nonce],
       detached := d.detached[a.hash := Export(a.chain, a.account, a.nonce)])
  }

  /** At the end of a block the requests made in it replace the batch off chain, worked off or not. */
  function BlockEnded(d: Desk): Desk {
    d.(requests := [], queue := if d.requests == [] then d.queue else Some(d.requests))
  }

  // ---- Batches --------------------------------------------------------------------------------

  /** A request that can be signed for: an Ethereum address, and a nonce left. */
  predicate Serviceable(nonces: Nonces, r: Request) {
    |r.account| == 20 && ((r.account, r.chain) in nonces ==> nonces[(r.account, r.chain)] < U64 - 1)
  }

  /** The owning account may ask, while the proto is attached; each error comes exactly in its case. */
  lemma RequestAnswers(d: Desk, owners: Owners, who: AccountId, r: Request)
    ensures var asked := Requested(d, owners, who, r);
      && (asked.Ok? <==> r.hash in owners && owners[r.hash] == User(who) && r.hash !in d.detached)
      && (asked.Ok? ==> asked.value == d.(requests := d.requests + [r]))
      && (asked.Err? ==>
            match asked.error
            case ProtoNotFound => r.hash !in owners
            case Unauthorized => r.hash in owners && owners[r.hash] != User(who)
            case Detached => r.hash in owners && owners[r.hash] == User(who) && r.hash in d.detached)
  {
  }

  /** A batch is worked off, and so taken off the queue, exactly if there is no key or every request in it is
      serviceable: one that is not blocks all others. */
  lemma {:induction false} WorkedOffIff(w: Worker, nonces: Nonces, batch: seq<Request>)
    ensures Processed(w, nonces, batch).end.Through? <==> !w.hasKey || forall r :: r in batch ==> Serviceable(nonces, r)
  {
    if batch != [] {
      var (before, r) := (batch[..|batch| - 1], batch[|batch| - 1]);
      assert batch == before + [r];
      WorkedOffIff(w, nonces, before);
      hide Serviceable;
      assert (forall x :: x in batch ==> Serviceable(nonces, x)) <==>
             (forall x :: x in before ==> Serviceable(nonces, x)) && Serviceable(nonces, r);
      WorkedOffStep(w, nonces, before, r);
    }
  }

  lemma WorkedOffStep(w: Worker, nonces: Nonces, before: seq<Request>, r: Request)
    ensures Processed(w, nonces, before + [r]).end.Through? <==>
              Processed(w, nonces, before).end.Through? && (!w.hasKey || Serviceable(nonces, r))
  {
  }

  /** Past an unserviceable request nothing of the batch is ever sent: the first one gives the batch up if its account
      is no Ethereum address, and panics if its nonce is spent. */
  lemma {:induction false} NothingSentPast(w: Worker, nonces: Nonces, before: seq<Request>, r: Request,
                                           rest: seq<Request>)
    requires w.hasKey && !Serviceable(nonces, r)
    ensures Processed(w, nonces, before + [r] + rest).sent == Processed(w, nonces, before).sent
    ensures !Processed(w, nonces, before + [r] + rest).end.Through?
    ensures (forall x :: x in before ==> Serviceable(nonces, x)) ==>
              Processed(w, nonces, before + [r] + rest).end == if |r.account| != 20 then Failed else Panicked
  {
    if rest == [] {
      assert before + [r] + rest == before + [r] && (before + [r])[..|before|] == before;
      WorkedOffIff(w, nonces, before);
    } else {
      var (rest', last) := (rest[..|rest| - 1], rest[|rest| - 1]);
      var batch := before + [r] + rest;
      assert batch[..|batch| - 1] == before + [r] + rest' && batch[|batch| - 1] == last;
      NothingSentPast(w, nonces, before, r, rest');
    }
  }

  /** The signature is a raw one, of the EIP-191 message of the payload's hash, with 27 added to its last byte in u8 and
      its other 64 bytes as they are. */
  predicate SignedFor(w: Worker, p: Bytes, signature: Signature) {
    match w.sign(w.keccak(Eip191E(w.keccak(p))))
    case None => false
    case Some(raw) => signature[..64] == raw[..64] && signature[64] as int == (raw[64] as int + 27) % 256
  }

  lemma SignedIsSignedFor(w: Worker, p: Bytes)
    ensures Signed(w, p).Some? <==> w.sign(w.keccak(Eip191E(w.keccak(p)))).Some?
    ensures Signed(w, p).Some? ==> SignedFor(w, p, Signed(w, p).value)
  {
    WrappedIsEip191(w.keccak(p));
    hide Wrapped, Eip191E;
  }

  /** What an announcement says is what was signed: its signature is on a payload that decodes to its own fields. */
  ghost predicate Genuine(w: Worker, nonces: Nonces, a: Announcement) {
    exists p :: Announces(w, nonces, a, p)
  }

  ghost predicate Announces(w: Worker, nonces: Nonces, a: Announcement, p: Bytes) {
    && |a.account| == 20
    && DecodePayload(p) == Some(Detaching(a.hash, a.chain, a.account, a.nonce))
    && SignedFor(w, p, a.signature)
    && var stored: nat := if (a.account, a.chain) in nonces then nonces[(a.account, a.chain)] else 0;
       a.nonce == stored + 1
  }

  lemma {:induction false} AnnouncementsAreGenuine(w: Worker, nonces: Nonces, batch: seq<Request>)
    ensures forall a :: a in Processed(w, nonces, batch).sent ==> Genuine(w, nonces, a)
    ensures forall a :: a in Processed(w, nonces, batch).sent ==> Request(a.hash, a.chain, a.account) in batch
  {
    if batch != [] {
      var (before, r) := (batch[..|batch| - 1], batch[|batch| - 1]);
      assert batch == before + [r];
      AnnouncementsAreGenuine(w, nonces, before);
      if |r.account| == 20 && NextNonce(nonces, r).Some? {
        var d := Detaching(r.hash, r.chain, r.account, NextNonce(nonces, r).value);
        PayloadRoundTrip(d);
        SignedIsSignedFor(w, Payload(d));
        hide Payload, DecodePayload, Signed, SignedFor;
        var s := Signed(w, Payload(d));
        if s.Some? {
          var a := Announcement(r.hash, r.chain, r.account, s.value, d.nonce);
          assert Announces(w, nonces, a, Payload(d));
        }
      }
    }
  }

  /** The key yields a signature for the request: on its payload with the next nonce. */
  predicate Signable(w: Worker, nonces: Nonces, r: Request)
    requires Serviceable(nonces, r)
  {
    w.sign(w.keccak(Eip191E(w.keccak(NextPayload(nonces, r))))).Some?
  }

  /** What would be signed for a request now. */
  function NextPayload(nonces: Nonces, r: Request): Bytes
    requires Serviceable(nonces, r)
  {
    var nonce := if (r.account, r.chain) in nonces then nonces[(r.account, r.chain)] + 1 else 1;
    Payload(Detaching(r.hash, r.chain, r.account, nonce))
  }

  function SignableOnly(w: Worker, nonces: Nonces, batch: seq<Request>): seq<Request>
    requires forall r :: r in batch ==> Serviceable(nonces, r)
  {
    if batch == [] then []
    else
      var (before, r) := (batch[..|batch| - 1], batch[|batch| - 1]);
      SignableOnly(w, nonces, before) + (if Signable(w, nonces, r) then [r] else [])
  }

  function Announcing(sent: seq<Announcement>): seq<Request> {
    seq(|sent|, i requires 0 <= i < |sent| => Request(sent[i].hash, sent[i].chain, sent[i].account))
  }

  /** A batch worked off yields one announcement for each request that can be signed, in order, and the others none; all
      of them if everything can be signed, and none without a key. */
  lemma {:induction false} EveryRequestAnnounced(w: Worker, nonces: Nonces, batch: seq<Request>)
    requires forall r :: r in batch ==> Serviceable(nonces, r)
    ensures var sent := Processed(w, nonces, batch).sent;
      && Announcing(sent) == (if w.hasKey then SignableOnly(w, nonces, batch) else [])
      && (w.hasKey && (forall h :: w.sign(h).Some?) ==> Announcing(sent) == batch)
  {
    WorkedOffIff(w, nonces, batch);
    if batch != [] {
      var (before, r) := (batch[..|batch| - 1], batch[|batch| - 1]);
      assert batch == before + [r];
      assert Serviceable(nonces, r);
      WorkedOffIff(w, nonces, before);
      EveryRequestAnnounced(w, nonces, before);
      SignedIsSignedFor(w, NextPayload(nonces, r));
      hide SignedFor, Signed, Payload, Eip191E;
    }
  }

  // ---- Nonces ---------------------------------------------------------------------------------

  function FinalizedAll(d: Desk, as_: seq<Announcement>): Desk {
    if as_ == [] then d else Finalized(FinalizedAll(d, as_[..|as_| - 1]), as_[|as_| - 1])
  }

  /** Each nonce written is no lower than the one it replaces. */
  ghost predicate Forward(d: Desk, as_: seq<Announcement>) {
    forall i :: 0 <= i < |as_| ==> NotBack(FinalizedAll(d, as_[..i]).nonces, as_[i])
  }

  ghost predicate NotBack(nonces: Nonces, a: Announcement) {
    (a.account, a.chain) in nonces ==> nonces[(a.account, a.chain)] <= a.nonce
  }

  lemma {:induction false} NoncesKnown(d: Desk, as_: seq<Announcement>, a: Announcement)
    requires a in as_
    ensures (a.account, a.chain) in FinalizedAll(d, as_).nonces
  {
    var (before, last) := (as_[..|as_| - 1], as_[|as_| - 1]);
    assert as_ == before + [last];
    if a != last {
      NoncesKnown(d, before, a);
    }
  }

  /** The payload of a finalised detach is signed again exactly for the same request, when the nonce then stored is one
      below the one it was finalised with. */
  lemma PayloadRepeatsIff(d: Desk, as_: seq<Announcement>, a: Announcement, r: Request)
    requires a in as_ && |a.account| == 20 && Serviceable(FinalizedAll(d, as_).nonces, r)
    ensures var nonces := FinalizedAll(d, as_).nonces;
      && (a.account, a.chain) in nonces
      && (NextPayload(nonces, r) == Payload(Detaching(a.hash, a.chain, a.account, a.nonce)) <==>
            r == Request(a.hash, a.chain, a.account) && nonces[(a.account, a.chain)] + 1 == a.nonce)
  {
    NoncesKnown(d, as_, a);
    var nonces := FinalizedAll(d, as_).nonces;
    var nonce := if (r.account, r.chain) in nonces then nonces[(r.account, r.chain)] + 1 else 1;
    PayloadRoundTrip(Detaching(r.hash, r.chain, r.account, nonce));
    PayloadRoundTrip(Detaching(a.hash, a.chain, a.account, a.nonce));
    hide Payload, DecodePayload, FinalizedAll;
  }

  lemma {:induction false} NoncesPass(d: Desk, as_: seq<Announcement>, a: Announcement)
    requires Forward(d, as_) && a in as_
    ensures a.nonce <= (if (a.account, a.chain) in FinalizedAll(d, as_).nonces
                        then FinalizedAll(d, as_).nonces[(a.account, a.chain)] else 0)
  {
    var (before, last) := (as_[..|as_| - 1], as_[|as_| - 1]);
    assert as_ == before + [last];
    assert NotBack(FinalizedAll(d, before).nonces, last);
    if a != last {
      forall i | 0 <= i < |before| ensures NotBack(FinalizedAll(d, before[..i]).nonces, before[i]) {
        assert before[..i] == as_[..i];
        assert NotBack(FinalizedAll(d, as_[..i]).nonces, as_[i]);
      }
      NoncesPass(d, before, a);
      NoncesKnown(d, before, a);
    }
  }

  /** So as long as no nonce is set back, it is never signed again, for any request. */
  lemma NoPayloadTwice(d: Desk, as_: seq<Announcement>, a: Announcement, r: Request)
    requires Forward(d, as_) && a in as_ && |a.account| == 20 && Serviceable(FinalizedAll(d, as_).nonces, r)
    ensures NextPayload(FinalizedAll(d, as_).nonces, r) != Payload(Detaching(a.hash, a.chain, a.account, a.nonce))
  {
    NoncesPass(d, as_, a);
    PayloadRepeatsIff(d, as_, a, r);
    hide Payload, FinalizedAll, Forward, NextPayload;
  }
}
