/** The accounts pallet and the staking half of the protos pallet as they run: storage maps updated in place. */
module StakePallets {
  import opened Basics
  import opened StakeLedger
  import opened StakeTheorems

  function ErrorOf<S>(r: Result<S, Error>): Option<Error> {
    if r.Err? then Some(r.error) else None
  }

  class Pallets {
    const p: Params
    var now: nat
    var links: map<AccountId, Address>
    var linksReverse: map<Address, AccountId>
    var usage: map<AccountId, nat>
    var locked: map<Address, EthLock>
    var votes: map<Hash256, nat>
    var closed: map<Hash256, nat>
    var pending: seq<AccountId>
    var stakes: map<(Hash256, AccountId), Stake>
    var accountStakes: map<AccountId, seq<Hash256>>

    ghost function View(): Chain
      reads this
    {
      Chain(now, links, linksReverse, usage, locked, votes, closed, pending, stakes, accountStakes)
    }

    constructor (p: Params, now: nat)
      ensures View() == Genesis(now) && this.p == p
    {
      this.p, this.now := p, now;
      links, linksReverse, usage, locked, votes := map[], map[], map[], map[], map[];
      closed, pending, stakes, accountStakes := map[], [], map[], map[];
    }

    method Link(who: AccountId, signature: Bytes) returns (error: Option<Error>)
      modifies `links, `linksReverse, `usage
      ensures var r := Linked(old(View()), p, who, signature);
        error == ErrorOf(r) && View() == After(old(View()), r)
    {
      var recovered := p.linkSigner(who, signature);
      if recovered.None? {
        return Some(VerificationFailed);
      }
      var key := recovered.value;
      if who in links {
        return Some(AccountAlreadyLinked);
      }
      if key in linksReverse {
        return Some(AccountAlreadyLinked);
      }
      links := links[who := key];
      linksReverse := linksReverse[key := who];
      usage := usage[who := 0];
      return None;
    }

    method UnlinkAccount(who: AccountId, key: Address) returns (error: Option<Error>)
      modifies `links, `linksReverse, `usage, `pending
      ensures var r := Unlinked(old(View()), who, key);
        error == ErrorOf(r) && View() == After(old(View()), r)
    {
      if who !in links {
        return Some(AccountNotLinked);
      }
      if links[who] != key {
        return Some(DifferentAccountLinked);
      }
      if key !in linksReverse {
        return Some(AccountNotLinked);
      }
      if linksReverse[key] != who {
        return Some(DifferentAccountLinked);
      }
      links := links - {who};
      linksReverse := linksReverse - {key};
      usage := usage - {who};
      pending := pending + [who];
      return None;
    }

    /** The checks of `internal_lock_update`, in their order. */
    method CheckUpdate(u: LockUpdate) returns (error: Option<Error>)
      ensures error == Some(LinkAlreadyProcessed) <==> p.eventHash(u) in closed
      ensures error == Some(VerificationFailed) <==>
                p.eventHash(u) !in closed && p.lockSigner(u) != Some(u.sender)
      ensures error == Some(SystematicFailure) <==>
                p.eventHash(u) !in closed && p.lockSigner(u) == Some(u.sender)
                && (U128 <= u.amount || u.lock != (0 < u.amount))
      ensures error.None? <==>
                p.eventHash(u) !in closed && p.lockSigner(u) == Some(u.sender)
                && u.amount < U128 && u.lock == (0 < u.amount)
    {
      if p.eventHash(u) in closed {
        return Some(LinkAlreadyProcessed);
      }
      var recovered := p.lockSigner(u);
      if recovered.None? {
        return Some(VerificationFailed);
      }
      if recovered.value != u.sender {
        return Some(VerificationFailed);
      }
      if u.amount >= U128 {
        return Some(SystematicFailure);
      }
      if !u.lock {
        if u.amount != 0 {
          return Some(SystematicFailure);
        }
      } else if !(u.amount > 0) {
        return Some(SystematicFailure);
      }
      return None;
    }

    /** Count one more vote; `enough` tells whether the event is to be carried out now. */
    method CountVote(d: Hash256) returns (enough: bool)
      modifies `votes
      ensures enough == (p.threshold <= 1 || (d in old(votes) && p.threshold <= old(votes)[d] + 1))
      ensures votes == if !enough then Voted(old(View()), d).votes
                       else if p.threshold <= 1 then old(votes) else old(votes) - {d}
    {
      if p.threshold > 1 {
        if d in votes {
          var current := votes[d];
          if current + 1 < p.threshold {
            votes := votes[d := current + 1];
            return false;
          }
          votes := votes - {d};
        } else {
          votes := votes[d := 1];
          return false;
        }
      }
      return true;
    }

    method Slash(u: LockUpdate)
      modifies `usage, `pending
      ensures View() == Slashed(old(View()), u)
    {
      if u.sender in linksReverse {
        var account := linksReverse[u.sender];
        if account in usage {
          if usage[account] > u.amount {
            usage := usage - {account};
            pending := pending + [account];
          }
        }
      }
    }

    /** The unlinking of an unlock update returns early on an error; with links and reverse links inverse it
        has none. */
    method InternalLockUpdate(u: LockUpdate) returns (error: Option<Error>)
      requires Bijective(links, linksReverse)
      modifies `links, `linksReverse, `usage, `locked, `votes, `closed, `pending
      ensures var r := LockUpdated(old(View()), p, u);
        error == ErrorOf(r) && View() == After(old(View()), r)
    {
      error := CheckUpdate(u);
      assert error == LockRefusal(View(), p, u);
      hide LockRefusal, Slashed, Unlinked;
      if error.Some? {
        return;
      }
      var d := p.eventHash(u);
      ghost var s := View();
      var enough := CountVote(d);
      if !enough {
        return None;
      }
      assert Completes(s, p, u) && View() == VotesSpent(s, p, u);
      if u.lock {
        Slash(u);
      } else {
        ForcedUnlinkNeverFails(View(), u);
        if u.sender in linksReverse {
          error := UnlinkAccount(linksReverse[u.sender], u.sender);
          assert error.None?;
        }
      }
      assert Ok(View()) == Affected(VotesSpent(s, p, u), u);
      locked := locked[u.sender := EthLock(u.amount, now)];
      closed := closed[d := now];
      return None;
    }

    /** The new usage is computed and dropped, as in the source. */
    method StakeOn(caller: AccountId, h: Hash256, amount: nat, protos: set<Hash256>) returns (error: Option<Error>)
      modifies `usage, `stakes, `accountStakes
      ensures var r := Staked(old(View()), p, AsWritten, caller, h, amount, protos);
        error == ErrorOf(r) && View() == After(old(View()), r)
    {
      var who := p.lockedAccount(caller);
      if h !in protos {
        return Some(ProtoNotFound);
      }
      if who !in links {
        return Some(NoFragLink);
      }
      if links[who] !in locked {
        return Some(NoFragLink);
      }
      if who !in usage {
        return Some(NoFragLink);
      }
      var balance := WrappingSub(locked[links[who]].amount, usage[who]);
      if !(balance >= amount) {
        return Some(InsufficientBalance);
      }
      var _ := Min(usage[who] + amount, U128 - 1);
      stakes := stakes[(h, who) := Stake(amount, now)];
      accountStakes := Append(accountStakes, who, h);
      assert usage[who := usage[who]] == usage;
      return None;
    }

    method Unstake(who: AccountId, h: Hash256, protos: set<Hash256>) returns (error: Option<Error>)
      modifies `usage, `stakes, `accountStakes
      ensures var r := Unstaked(old(View()), p, AsWritten, who, h, protos);
        error == ErrorOf(r) && View() == After(old(View()), r)
    {
      if h !in protos {
        return Some(ProtoNotFound);
      }
      if (h, who) !in stakes {
        return Some(StakeNotFound);
      }
      var stake := stakes[(h, who)];
      if !(now > stake.since + p.lockup) {
        return Some(StakeLocked);
      }
      if who !in usage {
        return Some(Panic);
      }
      var _ := SaturatingSub(usage[who], stake.amount);
      stakes := stakes - {(h, who)};
      accountStakes := Retain(accountStakes, who, h);
      assert usage[who := usage[who]] == usage;
      return None;
    }

    /** Drain the pending unlinks and, with each, the stakes its account lists. */
    method OnFinalize()
      requires StakesListed(stakes, accountStakes)
      modifies `pending, `stakes, `accountStakes
      ensures View() == Cleaned(old(View()))
    {
      ghost var (stakes0, lists0) := (stakes, accountStakes);
      var unlinks := pending;
      pending := [];
      var i := 0;
      while i < |unlinks|
        invariant 0 <= i <= |unlinks| && pending == []
        invariant stakes == StakesWithout(stakes0, unlinks[..i])
        invariant accountStakes == ListsWithout(lists0, unlinks[..i])
        invariant StakesListed(stakes, accountStakes)
      {
        assert unlinks[..i + 1] == unlinks[..i] + [unlinks[i]];
        TakeStakes(unlinks[i]);
        i := i + 1;
      }
      assert unlinks[..i] == unlinks;
    }

    method TakeStakes(who: AccountId)
      requires StakesListed(stakes, accountStakes)
      modifies `stakes, `accountStakes
      ensures stakes == (map k | k in old(stakes) && k.1 != who :: old(stakes)[k])
      ensures accountStakes == old(accountStakes) - {who}
      ensures StakesListed(stakes, accountStakes)
    {
      ghost var (stakes0, lists0) := (stakes, accountStakes);
      if who in accountStakes {
        var mine := accountStakes[who];
        accountStakes := accountStakes - {who};
        var j := 0;
        while j < |mine|
          invariant 0 <= j <= |mine| && accountStakes == lists0 - {who}
          invariant stakes == map k | k in stakes0 && !(k.1 == who && k.0 in mine[..j]) :: stakes0[k]
        {
          stakes := stakes - {(mine[j], who)};
          j := j + 1;
        }
      }
      assert accountStakes == lists0 - {who};
      forall k | k in stakes0 && k.1 == who ensures Lists(lists0, who, k.0) {
        assert (k.0, who) == k;
      }
      forall h: Hash256, a: AccountId ensures (h, a) in stakes <==> Lists(accountStakes, a, h) {
        assert (h, a) in stakes0 <==> Lists(lists0, a, h);
      }
    }
  }

  ghost function StakesWithout(m: map<(Hash256, AccountId), Stake>, who: seq<AccountId>)
      : map<(Hash256, AccountId), Stake>
  {
    map k | k in m && k.1 !in who :: m[k]
  }

  ghost function ListsWithout(m: map<AccountId, seq<Hash256>>, who: seq<AccountId>): map<AccountId, seq<Hash256>> {
    map a | a in m && a !in who :: m[a]
  }
}
