/** The detach pallet as it runs: payloads built by extending a buffer, batches worked off in a loop, storage
    written. */
module DetachPallet {
  import opened Basics
  import opened Messages
  import opened DetachDesk

  /** A growing byte vector. */
  class Buffer {
    var bytes: Bytes

    constructor (start: Bytes)
      ensures bytes == start
    {
      bytes := start;
    }

    method Extend(more: Bytes)
      modifies this
      ensures bytes == old(bytes) + more
    {
      bytes := bytes + more;
    }
  }

  method AddChainIdToPayload(r: Request, payload: Buffer)
    modifies payload
    ensures payload.bytes == old(payload.bytes) + BigEndian(ChainId(r.chain), 32)
  {
    var id: nat;
    match r.chain {
      case EthereumMainnet => id := 1;
      case EthereumRinkeby => id := 4;
      case EthereumGoerli => id := 5;
    }
    payload.Extend(BigEndian(id, 32));
  }

  /** The copy into 20 bytes panics on an account of any other length. */
  method AddTargetAccountToPayload(r: Request, payload: Buffer)
    requires |r.account| == 20
    modifies payload
    ensures payload.bytes == old(payload.bytes) + r.account
  {
    payload.Extend(r.account);
  }

  class Pallet {
    var requests: seq<Request>
    var queue: Option<seq<Request>>
    var nonces: Nonces
    var detached: map<Bytes32, Export>

    ghost function View(): Desk
      reads this
    {
      Desk(requests, queue, nonces, detached)
    }

    constructor ()
      ensures View() == Desk([], None, map[], map[])
    {
      requests, queue, nonces, detached := [], None, map[], map[];
    }

    /** No nonce is the panic of `checked_add(1).unwrap()`. */
    method AddNonceToPayload(r: Request, payload: Buffer) returns (nonce: Option<Nonce>)
      modifies payload
      ensures nonce == NextNonce(nonces, r)
      ensures nonce.Some? ==> payload.bytes == old(payload.bytes) + BigEndian(nonce.value, 8)
    {
      if (r.account, r.chain) in nonces {
        var stored := nonces[(r.account, r.chain)];
        if stored + 1 >= U64 {
          return None;
        }
        payload.Extend(BigEndian(stored + 1, 8));
        return Some(stored + 1);
      }
      payload.Extend(BigEndian(1, 8));
      return Some(1);
    }

    /** What goes for signing, built field by field. */
    method BuildPayload(r: Request) returns (payload: Option<Bytes>, nonce: Nonce)
      requires |r.account| == 20
      ensures payload.Some? <==> NextNonce(nonces, r).Some?
      ensures payload.Some? ==> DecodePayload(payload.value) == Some(Detaching(r.hash, r.chain, r.account, nonce))
      ensures payload.Some? ==> payload == Some(Payload(Detaching(r.hash, r.chain, r.account, nonce)))
      ensures payload.Some? ==> NextNonce(nonces, r) == Some(nonce)
    {
      var buffer := new Buffer(r.hash);
      AddChainIdToPayload(r, buffer);
      AddTargetAccountToPayload(r, buffer);
      var next := AddNonceToPayload(r, buffer);
      if next.None? {
        return None, 0;
      }
      payload, nonce := Some(buffer.bytes), next.value;
      PayloadRoundTrip(Detaching(r.hash, r.chain, r.account, nonce));
    }

    /** Work off the queued batch. Only a pass through all of it empties the queue: giving up, or panicking, leaves
        it as it was, though some of it has been sent. */
    method ProcessDetachRequests(w: Worker) returns (sent: seq<Announcement>, end: End)
      modifies `queue
      ensures old(queue).Some? ==> Pass(sent, end) == Processed(w, nonces, old(queue).value)
      ensures old(queue).None? ==> sent == [] && end == Failed
      ensures queue == if old(queue).Some? && end.Through? then Some([]) else old(queue)
    {
      sent := [];
      if queue.None? {
        return [], Failed;
      }
      var batch := queue.value;
      var i := 0;
      while i < |batch|
        invariant 0 <= i <= |batch| && queue == Some(batch)
        invariant Processed(w, nonces, batch[..i]) == Pass(sent, Through)
      {
        var r := batch[i];
        assert batch[..i + 1][..i] == batch[..i];
        i := i + 1;
        if !w.hasKey {
          continue;
        }
        if |r.account| != 20 {
          EndsThere(w, nonces, batch, i);
          return sent, Failed;
        }
        var payload, nonce := BuildPayload(r);
        if payload.None? {
          EndsThere(w, nonces, batch, i);
          return sent, Panicked;
        }
        var signature := w.sign(w.keccak(Wrapped(w.keccak(payload.value))));
        if signature.Some? {
          sent := sent + [Announcement(r.hash, r.chain, r.account, ForEthereum(signature.value), nonce)];
        }
      }
      assert batch[..i] == batch;
      queue := Some([]);
      return sent, Through;
    }

    /** The call is one of the protos pallet. */
    method Detach(owners: Owners, who: AccountId, r: Request) returns (error: Option<Error>)
      modifies `requests
      ensures var d := Requested(old(View()), owners, who, r);
        error == (if d.Err? then Some(d.error) else None) && View() == After(old(View()), d)
    {
      if r.hash !in owners {
        return Some(ProtoNotFound);
      }
      match owners[r.hash] {
        case User(owner) =>
          if owner != who {
            return Some(Unauthorized);
          }
        case ExternalAsset(_) =>
          return Some(Unauthorized);
      }
      if r.hash in detached {
        return Some(Detached);
      }
      requests := requests + [r];
      return None;
    }

    method InternalFinalizeDetach(a: Announcement)
      modifies `nonces, `detached
      ensures View() == Finalized(old(View()), a)
    {
      nonces := nonces[(a.account, a.chain) := a.nonce];
      detached := detached[a.hash := Export(a.chain, a.account, a.nonce)];
    }

    method OnFinalize()
      modifies `requests, `queue
      ensures View() == BlockEnded(old(View()))
    {
      var taken := requests;
      requests := [];
      if taken != [] {
        queue := Some(taken);
      }
    }
  }

  /** A pass that has ended is not changed by what is left of the batch. */
  lemma {:induction false} EndsThere(w: Worker, nonces: Nonces, batch: seq<Request>, i: nat)
    requires i <= |batch| && !Processed(w, nonces, batch[..i]).end.Through?
    ensures Processed(w, nonces, batch) == Processed(w, nonces, batch[..i])
  {
    if i < |batch| {
      var before := batch[..|batch| - 1];
      assert before[..i] == batch[..i];
      EndsThere(w, nonces, before, i);
    } else {
      assert batch[..i] == batch;
    }
  }

  method LockMessageOf(lock: bool, sender: Bytes20, chainId: Nonce, amount: Bytes32) returns (message: Bytes)
    ensures DecodeLock(message) == Some(Locking(lock, sender, chainId, amount))
    ensures message == LockMessage(Locking(lock, sender, chainId, amount))
  {
    var buffer := new Buffer(if lock then Ascii("FragLock") else Ascii("FragUnlock"));
    buffer.Extend(sender);
    buffer.Extend(BigEndian(chainId, 8));
    buffer.Extend(amount);
    message := buffer.bytes;
    LockRoundTrip(Locking(lock, sender, chainId, amount));
    LockMessageInOrder(Locking(lock, sender, chainId, amount));
    hide BigEndian, Ascii, DecodeLock, LockMessage;
  }

  method LinkMessageOf(chainId: Nonce, account: Bytes32) returns (message: Bytes)
    ensures DecodeLink(message) == Some(Linking(chainId, account))
    ensures message == LinkMessage(Linking(chainId, account))
  {
    var buffer := new Buffer(Ascii("EVM2Fragnova"));
    buffer.Extend(BigEndian(chainId, 8));
    buffer.Extend(account);
    message := buffer.bytes;
    LinkRoundTrip(Linking(chainId, account));
    hide BigEndian, Ascii, DecodeLink;
  }
}
