/** From a request to a detached proto, over every run of requests, block ends, worker passes and finalisations. */
module DetachRuns {
  import opened Basics
  import opened Messages
  import opened DetachDesk

  datatype Call =
    | Detach(who: AccountId, r: Request, owners: Owners)
    | EndBlock
    | Work(w: Worker)
    | Finalize(a: Announcement)

  /** The desk, and a record of what happened: the requests accepted, the last batch put off chain, the announcements
      sent. */
  datatype Yard = Yard(desk: Desk, asked: set<Request>, latest: seq<Request>, sent: set<Announcement>)

  function Opening(): Yard {
    Yard(Desk([], None, map[], map[]), {}, [], {})
  }

  function Worked(d: Desk, w: Worker): Desk {
    if d.queue.Some? && Processed(w, d.nonces, d.queue.value).end.Through? then d.(queue := Some([])) else d
  }

  function SentNow(d: Desk, w: Worker): seq<Announcement> {
    if d.queue.Some? then Processed(w, d.nonces, d.queue.value).sent else []
  }

  /** Only what a worker has announced is finalised. */
  function Apply(y: Yard, call: Call): Yard {
    match call
    case Detach(who, r, owners) =>
      var asked := Requested(y.desk, owners, who, r);
      if asked.Err? then y else y.(desk := asked.value, asked := y.asked + {r})
    case EndBlock =>
      y.(desk := BlockEnded(y.desk), latest := if y.desk.requests == [] then y.latest else y.desk.requests)
    case Work(w) => y.(desk := Worked(y.desk, w), sent := y.sent + Elems(SentNow(y.desk, w)))
    case Finalize(a) => if a in y.sent then y.(desk := Finalized(y.desk, a)) else y
  }

  function Run(y: Yard, calls: seq<Call>): Yard {
    if calls == [] then y else Apply(Run(y, calls[..|calls| - 1]), calls[|calls| - 1])
  }

  function Elems<T>(s: seq<T>): set<T> { set x | x in s }

  function RequestOf(a: Announcement): Request {
    Request(a.hash, a.chain, a.account)
  }

  ghost predicate Exported(detached: map<Bytes32, Export>, sent: set<Announcement>, h: Bytes32)
    requires h in detached
  {
    exists a :: a in sent && a.hash == h && detached[h] == Export(a.chain, a.account, a.nonce)
  }

  ghost predicate Inv(y: Yard) {
    && (forall r :: r in y.desk.requests || r in y.latest ==> r in y.asked)
    && (y.desk.queue.None? ==> y.latest == [])
    && (y.desk.queue.Some? ==> y.desk.queue.value == y.latest || y.desk.queue.value == [])
    && (forall a :: a in y.sent ==> RequestOf(a) in y.asked && |a.account| == 20)
    && (forall h :: h in y.desk.detached ==> Exported(y.desk.detached, y.sent, h))
  }

  lemma WorkKeepsInv(y: Yard, w: Worker)
    requires Inv(y)
    ensures Inv(Apply(y, Work(w)))
  {
    var d := y.desk;
    if d.queue.Some? {
      AnnouncementsAreGenuine(w, d.nonces, d.queue.value);
      forall a | a in SentNow(d, w) ensures RequestOf(a) in y.asked && |a.account| == 20 {
        assert Genuine(w, d.nonces, a);
        assert RequestOf(a) in d.queue.value;
      }
    }
    var y' := Apply(y, Work(w));
    forall h | h in y'.desk.detached ensures Exported(y'.desk.detached, y'.sent, h) {
      assert Exported(d.detached, y.sent, h);
    }
  }

  lemma FinalizeKeepsInv(y: Yard, a: Announcement)
    requires Inv(y)
    ensures Inv(Apply(y, Finalize(a)))
  {
    var y' := Apply(y, Finalize(a));
    forall h | h in y'.desk.detached ensures Exported(y'.desk.detached, y'.sent, h) {
      if h in y.desk.detached { assert Exported(y.desk.detached, y.sent, h); }
    }
  }

  lemma StepKeepsInv(y: Yard, call: Call)
    requires Inv(y)
    ensures Inv(Apply(y, call))
  {
    match call
    case Detach(_, _, _) =>
    case EndBlock =>
    case Work(w) => WorkKeepsInv(y, w);
    case Finalize(a) => FinalizeKeepsInv(y, a);
  }

  /** Over any run: the queue off chain is the last batch or has been worked off; what is announced was requested; what
      is detached was announced. */
  lemma {:induction false} RunKeepsInv(calls: seq<Call>)
    ensures Inv(Run(Opening(), calls))
  {
    if calls != [] {
      hide Inv, Apply;
      RunKeepsInv(calls[..|calls| - 1]);
      StepKeepsInv(Run(Opening(), calls[..|calls| - 1]), calls[|calls| - 1]);
    }
  }

  /** The run accepts a request for the detachment of proto h, by its owner. */
  predicate Accepts(calls: seq<Call>, h: Bytes32, e: Export) {
    calls != [] &&
    var (before, last) := (calls[..|calls| - 1], calls[|calls| - 1]);
    Accepts(before, h, e)
    || (last.Detach? && last.r == Request(h, e.chain, e.owner) && h in last.owners && last.owners[h] == User(last.who)
        && h !in Run(Opening(), before).desk.detached)
  }

  lemma {:induction false} AskedWasAccepted(calls: seq<Call>, r: Request, nonce: Nonce)
    ensures r in Run(Opening(), calls).asked <==> Accepts(calls, r.hash, Export(r.chain, r.account, nonce))
  {
    if calls != [] {
      AskedWasAccepted(calls[..|calls| - 1], r, nonce);
    }
  }

  /** A proto is detached only after its owner asked for it while it was attached, and exactly to the chain and the
      account asked for, which is an Ethereum address. */
  lemma DetachedWasAsked(calls: seq<Call>, h: Bytes32)
    requires h in Run(Opening(), calls).desk.detached
    ensures var e := Run(Opening(), calls).desk.detached[h]; Accepts(calls, h, e) && |e.owner| == 20
  {
    RunKeepsInv(calls);
    var y := Run(Opening(), calls);
    assert Exported(y.desk.detached, y.sent, h);
    var a :| a in y.sent && a.hash == h && y.desk.detached[h] == Export(a.chain, a.account, a.nonce);
    AskedWasAccepted(calls, RequestOf(a), a.nonce);
  }

  // ---- What is stored -------------------------------------------------------------------------

  /** The requests accepted in this block, in order. */
  function AskedNow(calls: seq<Call>): seq<Request> {
    if calls == [] then []
    else
      var (before, last) := (calls[..|calls| - 1], calls[|calls| - 1]);
      match last
      case EndBlock => []
      case Detach(who, r, owners) =>
        if r.hash in owners && owners[r.hash] == User(who) && r.hash !in Run(Opening(), before).desk.detached
        then AskedNow(before) + [r] else AskedNow(before)
      case _ => AskedNow(before)
  }

  /** The requests of the last block that had any, or none once a worker got through them. */
  function Queued(calls: seq<Call>): Option<seq<Request>> {
    if calls == [] then None
    else
      var (before, last) := (calls[..|calls| - 1], calls[|calls| - 1]);
      var was := Queued(before);
      match last
      case EndBlock => if AskedNow(before) == [] then was else Some(AskedNow(before))
      case Work(w) =>
        var nonces := Run(Opening(), before).desk.nonces;
        if was.Some? && (!w.hasKey || forall r :: r in was.value ==> Serviceable(nonces, r)) then Some([]) else was
      case _ => was
  }

  /** The nonce of the last announcement finalised for the account and chain, and the last export of a proto. */
  function LastNonce(calls: seq<Call>, k: (Bytes, TargetChain)): Option<Nonce> {
    if calls == [] then None
    else
      var (before, last) := (calls[..|calls| - 1], calls[|calls| - 1]);
      if last.Finalize? && last.a in Run(Opening(), before).sent && (last.a.account, last.a.chain) == k
      then Some(last.a.nonce) else LastNonce(before, k)
  }

  function LastExport(calls: seq<Call>, h: Bytes32): Option<Export> {
    if calls == [] then None
    else
      var (before, last) := (calls[..|calls| - 1], calls[|calls| - 1]);
      if last.Finalize? && last.a in Run(Opening(), before).sent && last.a.hash == h
      then Some(Export(last.a.chain, last.a.account, last.a.nonce)) else LastExport(before, h)
  }

  function Find<K, V>(m: map<K, V>, k: K): Option<V> {
    if k in m then Some(m[k]) else None
  }

  /** After any run the requests waiting are those accepted in this block; the queue off chain holds those of the last
      block that had any, unless a worker got through them; and nonces and exports are those last finalised. */
  lemma {:induction false} RunRemembers(calls: seq<Call>, k: (Bytes, TargetChain), h: Bytes32)
    ensures var d := Run(Opening(), calls).desk;
      && d.requests == AskedNow(calls) && d.queue == Queued(calls)
      && Find(d.nonces, k) == LastNonce(calls, k) && Find(d.detached, h) == LastExport(calls, h)
  {
    if calls != [] {
      var (before, last) := (calls[..|calls| - 1], calls[|calls| - 1]);
      RunRemembers(before, k, h);
      var d := Run(Opening(), before).desk;
      if last.Work? && d.queue.Some? { WorkedOffIff(last.w, d.nonces, d.queue.value); }
      hide Processed, Serviceable;
    }
  }

  // ---- Batches that are lost ------------------------------------------------------------------

  /** Neither waiting on chain nor off chain. */
  predicate Forgotten(d: Desk, r: Request) {
    r !in d.requests && (d.queue.Some? ==> r !in d.queue.value)
  }

  /** A request of the batch off chain is forgotten at the end of a block exactly if other requests were made in it. */
  lemma ForgottenIff(d: Desk, r: Request)
    requires d.queue.Some? && r in d.queue.value
    ensures Forgotten(BlockEnded(d), r) <==> d.requests != [] && r !in d.requests
  {
  }

  predicate AsksFor(call: Call, r: Request) {
    call.Detach? && call.r == r
  }

  lemma StepStaysForgotten(y: Yard, call: Call, r: Request)
    requires Forgotten(y.desk, r) && !AsksFor(call, r)
    ensures Forgotten(Apply(y, call).desk, r)
    ensures forall a :: RequestOf(a) == r ==> (a in Apply(y, call).sent <==> a in y.sent)
  {
    if call.Work? && y.desk.queue.Some? {
      AnnouncementsAreGenuine(call.w, y.desk.nonces, y.desk.queue.value);
      hide Processed, Genuine;
    }
  }

  /** A forgotten request is never announced, over any run, unless it is made again: worked off or not, a batch replaced
      is lost. */
  lemma {:induction false} ForgottenForGood(y: Yard, calls: seq<Call>, r: Request)
    requires Forgotten(y.desk, r) && forall i :: 0 <= i < |calls| ==> !AsksFor(calls[i], r)
    ensures Forgotten(Run(y, calls).desk, r)
    ensures forall a :: RequestOf(a) == r ==> (a in Run(y, calls).sent <==> a in y.sent)
  {
    hide Apply, Forgotten;
    if calls != [] {
      ForgottenForGood(y, calls[..|calls| - 1], r);
      StepStaysForgotten(Run(y, calls[..|calls| - 1]), calls[|calls| - 1], r);
    }
  }

  lemma {:induction false} RunOn(y: Yard, first: seq<Call>, then_: seq<Call>)
    ensures Run(y, first + then_) == Run(Run(y, first), then_)
  {
    hide Apply;
    if then_ == [] {
      assert first + then_ == first;
    } else {
      var (rest, last) := (then_[..|then_| - 1], then_[|then_| - 1]);
      assert (first + then_)[..|first + then_| - 1] == first + rest;
      RunOn(y, first, rest);
    }
  }

  /** A request, and another one in the next block. */
  function TwoBlocks(who: AccountId, r: Request, who': AccountId, r': Request, owners: Owners): seq<Call> {
    [Detach(who, r, owners), EndBlock, Detach(who', r', owners), EndBlock]
  }

  lemma RunOfFour(y: Yard, calls: seq<Call>)
    requires |calls| == 4
    ensures Run(y, calls) == Apply(Apply(Apply(Apply(y, calls[0]), calls[1]), calls[2]), calls[3])
  {
    hide Apply;
    assert calls[..3][..2] == calls[..2] && calls[..2][..1] == calls[..1] && calls[..1][..0] == [];
    assert Run(y, calls[..1]) == Apply(y, calls[0]);
    assert Run(y, calls[..2]) == Apply(Run(y, calls[..1]), calls[1]);
    assert Run(y, calls[..3]) == Apply(Run(y, calls[..2]), calls[2]);
  }

  lemma TwoBlocksForget(who: AccountId, r: Request, who': AccountId, r': Request, owners: Owners)
    requires r.hash in owners && owners[r.hash] == User(who) && r'.hash in owners && owners[r'.hash] == User(who')
    requires r != r'
    ensures var y := Run(Opening(), TwoBlocks(who, r, who', r', owners));
      r in y.asked && Forgotten(y.desk, r) && y.sent == {}
  {
    var y1 := Yard(Desk([r], None, map[], map[]), {r}, [], {});
    assert Apply(Opening(), Detach(who, r, owners)) == y1;
    var y2 := Yard(Desk([], Some([r]), map[], map[]), {r}, [r], {});
    assert Apply(y1, EndBlock) == y2;
    var y3 := Yard(Desk([r'], Some([r]), map[], map[]), {r, r'}, [r], {});
    assert Apply(y2, Detach(who', r', owners)) == y3;
    var y4 := Yard(Desk([], Some([r']), map[], map[]), {r, r'}, [r'], {});
    assert Apply(y3, EndBlock) == y4;
    ForgottenIff(y3.desk, r);
    hide Apply;
    RunOfFour(Opening(), TwoBlocks(who, r, who', r', owners));
  }

  /** So it happens that a request the owner made and the chain accepted is never announced, whatever follows: two
      blocks with a request each, and no worker in between. */
  lemma BatchIsLost(who: AccountId, r: Request, who': AccountId, r': Request, owners: Owners, calls: seq<Call>)
    requires r.hash in owners && owners[r.hash] == User(who) && r'.hash in owners && owners[r'.hash] == User(who')
    requires r != r' && forall i :: 0 <= i < |calls| ==> !AsksFor(calls[i], r)
    ensures var y := Run(Opening(), TwoBlocks(who, r, who', r', owners) + calls);
      r in Run(Opening(), TwoBlocks(who, r, who', r', owners)).asked
      && forall a :: a in y.sent ==> RequestOf(a) != r
  {
    var first := TwoBlocks(who, r, who', r', owners);
    TwoBlocksForget(who, r, who', r', owners);
    RunOn(Opening(), first, calls);
    hide Run, Forgotten, TwoBlocks;
    ForgottenForGood(Run(Opening(), first), calls, r);
  }

  // ---- A payload signed twice -----------------------------------------------------------------

  /** What a worker that can sign announces for a request with a nonce. */
  function Announced(w: Worker, r: Request, nonce: Nonce): Announcement
    requires |r.account| == 20 && w.sign(SigningHash(w, r, nonce)).Some?
  {
    Announcement(r.hash, r.chain, r.account, ForEthereum(w.sign(SigningHash(w, r, nonce)).value), nonce)
  }

  function SigningHash(w: Worker, r: Request, nonce: Nonce): Bytes32
    requires |r.account| == 20
  {
    w.keccak(Wrapped(w.keccak(Payload(Detaching(r.hash, r.chain, r.account, nonce)))))
  }

  lemma OneServed(w: Worker, nonces: Nonces, r: Request)
    requires w.hasKey && (forall h :: w.sign(h).Some?) && Serviceable(nonces, r)
    ensures Processed(w, nonces, [r]) == Pass([Announced(w, r, NextNonce(nonces, r).value)], Through)
  {
    hide Payload, ForEthereum, Wrapped;
    assert [r][..0] == [];
    assert Processed(w, nonces, [r]) == Next(w, nonces, Pass([], Through), r);
  }

  /** A batch of one good request and one that blocks it. */
  lemma BlockedPass(w: Worker, y: Yard, r: Request, bad: Request)
    requires w.hasKey && (forall h :: w.sign(h).Some?) && Serviceable(y.desk.nonces, r) && |bad.account| != 20
    requires y.desk.queue == Some([r, bad])
    ensures Apply(y, Work(w)) == y.(sent := y.sent + {Announced(w, r, NextNonce(y.desk.nonces, r).value)})
  {
    NothingSentPast(w, y.desk.nonces, [r], bad, []);
    OneServed(w, y.desk.nonces, r);
    assert [r] + [bad] + [] == [r, bad];
    hide Processed, Announced, Serviceable, NextNonce;
    assert SentNow(y.desk, w) == Processed(w, y.desk.nonces, [r]).sent;
  }

  /** The owner asks twice in a block, the second time with no account. The worker announces the first request with
      nonce 1, and, the batch being blocked, again with nonce 2; then 1, 2 and once more 1 are finalised. */
  function Repeating(w: Worker, who: AccountId, r: Request, owners: Owners): seq<Call>
    requires |r.account| == 20 && forall h :: w.sign(h).Some?
  {
    [Detach(who, r, owners), Detach(who, r.(account := []), owners), EndBlock, Work(w),
     Finalize(Announced(w, r, 1)), Work(w), Finalize(Announced(w, r, 2)), Finalize(Announced(w, r, 1))]
  }

  /** The state with the batch blocked, after a nonce and announcements. */
  predicate Blocked(y: Yard, r: Request, nonce: Option<Nonce>, sent: set<Announcement>) {
    && y.desk.queue == Some([r, r.(account := [])]) && y.sent == sent
    && y.desk.nonces == if nonce.Some? then map[(r.account, r.chain) := nonce.value] else map[]
  }

  lemma BlockedFirst(w: Worker, who: AccountId, r: Request, owners: Owners)
    requires r.hash in owners && owners[r.hash] == User(who)
    ensures Blocked(Run(Opening(), [Detach(who, r, owners), Detach(who, r.(account := []), owners), EndBlock]), r, None,
                    {})
  {
    var calls := [Detach(who, r, owners), Detach(who, r.(account := []), owners), EndBlock];
    assert calls[..2][..1] == calls[..1] && calls[..1][..0] == [];
    assert Run(Opening(), calls[..1]).desk == Desk([r], None, map[], map[]);
    assert Run(Opening(), calls[..2]).desk == Desk([r, r.(account := [])], None, map[], map[]);
  }

  lemma BlockedWork(w: Worker, y: Yard, r: Request, nonce: Option<Nonce>, sent: set<Announcement>)
    requires w.hasKey && (forall h :: w.sign(h).Some?) && |r.account| == 20
    requires Blocked(y, r, nonce, sent) && (nonce.Some? ==> nonce.value + 1 < U64)
    ensures var next: Nonce := if nonce.Some? then nonce.value + 1 else 1;
      Blocked(Apply(y, Work(w)), r, nonce, sent + {Announced(w, r, next)})
  {
    BlockedPass(w, y, r, r.(account := []));
    hide Announced, Apply;
  }

  lemma BlockedFinalize(y: Yard, r: Request, nonce: Option<Nonce>, sent: set<Announcement>, a: Announcement)
    requires Blocked(y, r, nonce, sent) && a in sent && RequestOf(a) == r
    ensures Blocked(Apply(y, Finalize(a)), r, Some(a.nonce), sent)
  {
  }

  lemma BlockedNext(y: Yard, r: Request, sent: set<Announcement>)
    requires Blocked(y, r, Some(1), sent) && |r.account| == 20
    ensures y.desk.queue.Some? && r in y.desk.queue.value && Serviceable(y.desk.nonces, r)
    ensures NextPayload(y.desk.nonces, r) == Payload(Detaching(r.hash, r.chain, r.account, 2))
  {
    hide Payload;
  }

  lemma RunOne(y: Yard, calls: seq<Call>, call: Call)
    ensures Run(y, calls + [call]) == Apply(Run(y, calls), call)
  {
    assert (calls + [call])[..|calls|] == calls;
    hide Apply;
  }

  /** It does get there: after that run the payload the worker signs next for the request, still in its queue, is the
      very one it was finalised with under nonce 2. */
  lemma PayloadRepeats(w: Worker, who: AccountId, r: Request, owners: Owners)
    requires w.hasKey && (forall h :: w.sign(h).Some?) && |r.account| == 20
    requires r.hash in owners && owners[r.hash] == User(who)
    ensures var y := Run(Opening(), Repeating(w, who, r, owners));
      && y.desk.queue.Some? && r in y.desk.queue.value && Serviceable(y.desk.nonces, r)
      && NextPayload(y.desk.nonces, r) == Payload(Detaching(r.hash, r.chain, r.account, 2))
  {
    var c0 := [Detach(who, r, owners), Detach(who, r.(account := []), owners), EndBlock];
    var (a1, a2) := (Announced(w, r, 1), Announced(w, r, 2));
    assert RequestOf(a1) == r && RequestOf(a2) == r && a1.nonce == 1 && a2.nonce == 2;
    hide Announced, Apply, Payload, Blocked;
    BlockedFirst(w, who, r, owners);
    BlockedWork(w, Run(Opening(), c0), r, None, {});
    RunOne(Opening(), c0, Work(w));
    var (c1, s1) := (c0 + [Work(w)], {} + {a1});
    BlockedFinalize(Run(Opening(), c1), r, None, s1, a1);
    RunOne(Opening(), c1, Finalize(a1));
    var c2 := c1 + [Finalize(a1)];
    BlockedWork(w, Run(Opening(), c2), r, Some(1), s1);
    RunOne(Opening(), c2, Work(w));
    var (c3, s2) := (c2 + [Work(w)], s1 + {a2});
    BlockedFinalize(Run(Opening(), c3), r, Some(1), s2, a2);
    RunOne(Opening(), c3, Finalize(a2));
    var c4 := c3 + [Finalize(a2)];
    BlockedFinalize(Run(Opening(), c4), r, Some(2), s2, a1);
    RunOne(Opening(), c4, Finalize(a1));
    assert c4 + [Finalize(a1)] == Repeating(w, who, r, owners);
    BlockedNext(Run(Opening(), c4 + [Finalize(a1)]), r, s2);
    hide Run;
  }

  // ---- Exported more than once ----------------------------------------------------------------

  /** How often the run finalises a detachment of proto h. */
  function Exports(calls: seq<Call>, h: Bytes32): nat {
    if calls == [] then 0
    else
      var (before, last) := (calls[..|calls| - 1], calls[|calls| - 1]);
      Exports(before, h) + (if Exporting(Run(Opening(), before), last, h) then 1 else 0)
  }

  predicate Exporting(y: Yard, call: Call, h: Bytes32) {
    call.Finalize? && call.a.hash == h && call.a in y.sent
  }

  /** At no point of the run a detachment of h is finalised that is detached already. */
  predicate NeverAgain(calls: seq<Call>, h: Bytes32) {
    calls != [] ==>
      var (before, last) := (calls[..|calls| - 1], calls[|calls| - 1]);
      var y := Run(Opening(), before);
      NeverAgain(before, h) && !(Exporting(y, last, h) && h in y.desk.detached)
  }

  /** A proto is detached exactly if it was exported, and exported more than once exactly if it was detached already
      when it was finalised: nothing else stands in the way, not even who owns it by then. */
  lemma {:induction false} ExportedOnceIff(calls: seq<Call>, h: Bytes32)
    ensures h in Run(Opening(), calls).desk.detached <==> 0 < Exports(calls, h)
    ensures Exports(calls, h) <= 1 <==> NeverAgain(calls, h)
  {
    if calls != [] {
      ExportedOnceIff(calls[..|calls| - 1], h);
      hide Requested, Processed;
    }
  }

  /** The same call n times. */
  function Times(n: nat, call: Call): seq<Call> {
    seq(n, _ => call)
  }

  lemma OneMoreTime(calls: seq<Call>, n: nat, call: Call)
    ensures calls + Times(0, call) == calls
    ensures calls + Times(n + 1, call) == calls + Times(n, call) + [call]
  {
  }

  lemma FinalizedOnce(calls: seq<Call>, a: Announcement, h: Bytes32)
    ensures Run(Opening(), calls + [Finalize(a)]).sent == Run(Opening(), calls).sent
    ensures Exports(calls + [Finalize(a)], h) ==
              Exports(calls, h) + if a in Run(Opening(), calls).sent && a.hash == h then 1 else 0
  {
    var all := calls + [Finalize(a)];
    assert all[..|all| - 1] == calls && all[|all| - 1] == Finalize(a);
    hide Finalized;
  }

  /** Finalising n times over adds n exports of a proto if it was announced so, and none otherwise. */
  lemma {:induction false} FinalizedTimes(calls: seq<Call>, a: Announcement, h: Bytes32, n: nat)
    ensures Run(Opening(), calls + Times(n, Finalize(a))).sent == Run(Opening(), calls).sent
    ensures Exports(calls + Times(n, Finalize(a)), h) ==
              Exports(calls, h) + if a in Run(Opening(), calls).sent && a.hash == h then n else 0
  {
    hide Times, Exports, Run;
    OneMoreTime(calls, SaturatingSub(n, 1), Finalize(a));
    if n != 0 {
      FinalizedTimes(calls, a, h, n - 1);
      FinalizedOnce(calls + Times(n - 1, Finalize(a)), a, h);
    }
  }

  /** After any run, and whatever was exported before, a proto can be exported any number of times more exactly if a
      detachment of it was announced; so every detached proto can. */
  lemma ExportableIff(calls: seq<Call>, h: Bytes32, n: nat)
    requires 0 < n
    ensures (exists a :: Exports(calls + Times(n, Finalize(a)), h) == Exports(calls, h) + n) <==>
              exists a :: a in Run(Opening(), calls).sent && a.hash == h
    ensures h in Run(Opening(), calls).desk.detached ==> exists a :: a in Run(Opening(), calls).sent && a.hash == h
  {
    var y := Run(Opening(), calls);
    RunKeepsInv(calls);
    if h in y.desk.detached {
      assert Exported(y.desk.detached, y.sent, h);
    }
    hide Inv, Run, Exports;
    forall a ensures a in y.sent && a.hash == h <==>
                       Exports(calls + Times(n, Finalize(a)), h) == Exports(calls, h) + n {
      FinalizedTimes(calls, a, h, n);
    }
  }

  /** Two accounts ask for the same proto in a block, each while it owns it; both are served; the first is finalised
      last. */
  function HandedOver(w: Worker, who: AccountId, r: Request, owners: Owners, who': AccountId, r': Request,
                      owners': Owners)
      : seq<Call>
    requires |r.account| == 20 && |r'.account| == 20 && forall h :: w.sign(h).Some?
  {
    [Detach(who, r, owners), Detach(who', r', owners'), EndBlock, Work(w),
     Finalize(Announced(w, r', 1)), Finalize(Announced(w, r, 1))]
  }

  lemma BothServed(w: Worker, r: Request, r': Request)
    requires w.hasKey && (forall h :: w.sign(h).Some?) && |r.account| == 20 && |r'.account| == 20
    ensures Processed(w, map[], [r, r']) == Pass([Announced(w, r, 1), Announced(w, r', 1)], Through)
  {
    OneServed(w, map[], r);
    hide Payload, ForEthereum, Wrapped;
    assert [r, r'][..1] == [r];
    assert Processed(w, map[], [r, r']) == Next(w, map[], Processed(w, map[], [r]), r');
    assert [Announced(w, r, 1)] + [Announced(w, r', 1)] == [Announced(w, r, 1), Announced(w, r', 1)];
  }

  /** A request outlives a transfer of its proto: asked for by its first owner, handed over, asked for by its second,
      and exported twice, the proto may end up at the account the first owner named. */
  lemma FirstOwnerMayGetIt(w: Worker, who: AccountId, r: Request, owners: Owners, who': AccountId, r': Request,
                           owners': Owners)
    requires w.hasKey && (forall h :: w.sign(h).Some?) && |r.account| == 20 && |r'.account| == 20 && r.hash == r'.hash
    requires r.hash in owners && owners[r.hash] == User(who) && r'.hash in owners' && owners'[r'.hash] == User(who')
    ensures var calls := HandedOver(w, who, r, owners, who', r', owners');
      && Exports(calls, r.hash) == 2
      && r.hash in Run(Opening(), calls).desk.detached
      && Run(Opening(), calls).desk.detached[r.hash] == Export(r.chain, r.account, 1)
  {
    var (a, a') := (Announced(w, r, 1), Announced(w, r', 1));
    assert RequestOf(a) == r && RequestOf(a') == r' && a.nonce == 1;
    var c4 := [Detach(who, r, owners), Detach(who', r', owners'), EndBlock, Work(w)];
    BothAnnounced(w, who, r, owners, who', r', owners');
    hide Announced;
    var y4 := Run(Opening(), c4);
    var y5 := Apply(y4, Finalize(a'));
    assert Apply(y5, Finalize(a)).desk.detached[r.hash] == Export(r.chain, r.account, 1);
    RunOne(Opening(), c4, Finalize(a'));
    RunOne(Opening(), c4 + [Finalize(a')], Finalize(a));
    assert c4 + [Finalize(a')] + [Finalize(a)] == HandedOver(w, who, r, owners, who', r', owners');
    LastTwoExport(c4, Finalize(a'), Finalize(a), r.hash);
    hide Apply, Run, Exports;
  }

  lemma BothAnnounced(w: Worker, who: AccountId, r: Request, owners: Owners, who': AccountId, r': Request,
                      owners': Owners)
    requires w.hasKey && (forall h :: w.sign(h).Some?) && |r.account| == 20 && |r'.account| == 20
    requires r.hash in owners && owners[r.hash] == User(who) && r'.hash in owners' && owners'[r'.hash] == User(who')
    ensures var y := Run(Opening(), [Detach(who, r, owners), Detach(who', r', owners'), EndBlock, Work(w)]);
      y.desk.detached == map[] && Announced(w, r, 1) in y.sent && Announced(w, r', 1) in y.sent
  {
    var (a, a') := (Announced(w, r, 1), Announced(w, r', 1));
    BothServed(w, r, r');
    hide Announced, Processed;
    var y1 := Yard(Desk([r], None, map[], map[]), {r}, [], {});
    assert Apply(Opening(), Detach(who, r, owners)) == y1;
    var y2 := Yard(Desk([r, r'], None, map[], map[]), {r} + {r'}, [], {});
    assert [r] + [r'] == [r, r'] && Apply(y1, Detach(who', r', owners')) == y2;
    var y3 := Yard(Desk([], Some([r, r']), map[], map[]), {r} + {r'}, [r, r'], {});
    assert Apply(y2, EndBlock) == y3;
    var y4 := Apply(y3, Work(w));
    assert a in [a, a'] && a' in [a, a'];
    assert a in y4.sent && a' in y4.sent && y4.desk.detached == map[];
    hide Apply;
    RunOfFour(Opening(), [Detach(who, r, owners), Detach(who', r', owners'), EndBlock, Work(w)]);
  }

  lemma LastTwoExport(calls: seq<Call>, last: Call, last': Call, h: Bytes32)
    requires h !in Run(Opening(), calls).desk.detached
    requires Exporting(Run(Opening(), calls), last, h) && Exporting(Run(Opening(), calls + [last]), last', h)
    ensures Exports(calls + [last] + [last'], h) == 2
  {
    ExportedOnceIff(calls, h);
    assert (calls + [last])[..|calls|] == calls;
    assert (calls + [last] + [last'])[..|calls| + 1] == calls + [last];
    hide Run, Exporting;
  }
}
