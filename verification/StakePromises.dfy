/** What links, locks and stakes promise, where the code keeps the promise and exactly where it does not. */
module StakePromises {
  import opened Basics
  import opened StakeLedger
  import opened StakeTheorems

  // ---- Clean-up -------------------------------------------------------------------------------

  /** After the end of any block every stake belongs to a linked account. */
  lemma StakersAreLinked(now: nat, p: Params, mode: Mode, calls: seq<Call>, h: Hash256, a: AccountId)
    ensures var s := Apply(Run(Genesis(now), p, mode, calls), p, mode, EndBlock);
      (h, a) in s.stakes ==> a in s.usage && a in s.links
  {
    RunKeepsInv(now, p, mode, calls);
    hide Run, Bijective, StakesListed, LocksFit;
  }

  /** The unwrap in `unstake` fails exactly when a matured stake is taken back by an account without a usage entry,
      and such an account is waiting for its clean-up. */
  lemma UnstakePanicsIff(s: Chain, p: Params, mode: Mode, a: AccountId, h: Hash256, protos: set<Hash256>)
    requires Inv(s)
    ensures Unstaked(s, p, mode, a, h, protos) == Err(Panic) <==>
              h in protos && (h, a) in s.stakes && s.stakes[(h, a)].since + p.lockup < s.now && a !in s.usage
    ensures Unstaked(s, p, mode, a, h, protos) == Err(Panic) ==> a in s.pending
  {
  }

  /** It can happen: any linked account with a matured stake that unlinks and unstakes in the same block gets there. */
  lemma UnlinkThenUnstakePanics(s: Chain, p: Params, mode: Mode, a: AccountId, h: Hash256, protos: set<Hash256>)
    requires Inv(s) && a in s.links && (h, a) in s.stakes && h in protos
    requires s.stakes[(h, a)].since + p.lockup < s.now
    ensures Unlinked(s, a, s.links[a]).Ok?
    ensures Unstaked(Unlinked(s, a, s.links[a]).value, p, mode, a, h, protos) == Err(Panic)
  {
    assert LinksTo(s.links, a, s.links[a]);
    hide StakesListed, WithinBudget, LocksFit;
  }

  // ---- Undoing --------------------------------------------------------------------------------

  /** Unlinking undoes a link, but for the clean-up it asks for. */
  lemma UnlinkUndoesLink(s: Chain, p: Params, who: AccountId, signature: Bytes)
    requires Inv(s) && Linked(s, p, who, signature).Ok?
    ensures Unlinked(Linked(s, p, who, signature).value, who, p.linkSigner(who, signature).value) ==
              Ok(s.(pending := s.pending + [who]))
  {
    var key := p.linkSigner(who, signature).value;
    assert who !in s.usage;
    assert s.links[who := key] - {who} == s.links;
    assert s.linksReverse[key := who] - {key} == s.linksReverse;
    assert s.usage[who := 0] - {who} == s.usage;
    hide Inv;
  }

  /** Unstaking a first stake after its lock-up, by the account it was made for, undoes it in both modes: stakes, lists
      and usage are as before, the list perhaps empty where there was none. */
  lemma UnstakeUndoesStake(s: Chain, p: Params, mode: Mode, who: AccountId, h: Hash256, amount: nat,
                           protos: set<Hash256>,
                           later: nat)
    requires Inv(s) && Staked(s, p, mode, who, h, amount, protos).Ok?
    requires (h, p.lockedAccount(who)) !in s.stakes && s.now + p.lockup < later
    ensures var (a, staked) := (p.lockedAccount(who), Staked(s, p, mode, who, h, amount, protos).value);
      var r := Unstaked(staked.(now := later), p, mode, a, h, protos);
      r == Ok(s.(now := later, accountStakes := s.accountStakes[a := Lookup(s.accountStakes, a)]))
  {
    var a := p.lockedAccount(who);
    var list := Lookup(s.accountStakes, a);
    var staked := Staked(s, p, mode, who, h, amount, protos).value;
    StakeNeverUnderflows(s, a);
    assert h !in list by {
      assert (h, a) in s.stakes <==> Lists(s.accountStakes, a, h);
    }
    WithoutLast(list, h);
    assert s.usage[a] + amount < U128 by { hide Bijective, StakesListed, StakersKnown; }
    hide Inv;
    assert staked.stakes - {(h, a)} == s.stakes;
    assert Retain(staked.accountStakes, a, h) == s.accountStakes[a := list];
    var used := if mode.AsWritten? then s.usage[a] else s.usage[a] + amount;
    assert staked.usage == s.usage[a := used];
    assert staked.usage[a := s.usage[a]] == s.usage;
  }

  lemma {:induction false} WithoutLast<T>(list: seq<T>, x: T)
    requires x !in list
    ensures Without(list + [x], x) == list
  {
    if list == [] {
      assert ([x])[1..] == [];
    } else {
      assert list == [list[0]] + list[1..];
      assert (list + [x])[1..] == list[1..] + [x];
      WithoutLast(list[1..], x);
    }
  }

  // ---- Usage as written -----------------------------------------------------------------------

  ghost predicate UsageZero(s: Chain) {
    forall a :: a in s.usage ==> s.usage[a] == 0
  }

  /** A lock update can only take links and usage entries away, and add accounts to be cleaned up. */
  ghost predicate Shrinks(s: Chain, s': Chain) {
    && (forall a :: a in s'.links ==> a in s.links && s'.links[a] == s.links[a])
    && (forall a :: a in s'.usage ==> a in s.usage && s'.usage[a] == s.usage[a])
    && (forall a :: a in s.pending ==> a in s'.pending)
    && s'.stakes == s.stakes
  }

  lemma EffectShrinks(s: Chain, u: LockUpdate)
    ensures Shrinks(s, After(s, Affected(s, u)))
  {
  }

  lemma CarryingOutShrinks(s: Chain, p: Params, u: LockUpdate)
    ensures Shrinks(s, After(s, CarriedOut(s, p, u)))
  {
    hide Affected, VotesSpent;
    SpentFrame(s, p, u);
    EffectShrinks(VotesSpent(s, p, u), u);
  }

  lemma UpdateShrinks(s: Chain, p: Params, u: LockUpdate)
    ensures Shrinks(s, After(s, LockUpdated(s, p, u)))
  {
    hide LockRefusal, Completes, CarriedOut;
    CarryingOutShrinks(s, p, u);
  }

  lemma {:induction false} UsageStaysZero(now: nat, p: Params, calls: seq<Call>)
    ensures UsageZero(Run(Genesis(now), p, AsWritten, calls))
  {
    if calls != [] {
      UsageStaysZero(now, p, calls[..|calls| - 1]);
      StepKeepsUsageZero(Run(Genesis(now), p, AsWritten, calls[..|calls| - 1]), p, calls[|calls| - 1]);
      hide UsageZero, Apply;
    }
  }

  lemma StepKeepsUsageZero(s: Chain, p: Params, call: Call)
    requires UsageZero(s)
    ensures UsageZero(Apply(s, p, AsWritten, call))
  {
    hide LockUpdated;
    if call.Update? {
      UpdateShrinks(s, p, call.u);
    }
  }

  /** As written, a lock update never slashes, whatever the account has staked. */
  lemma NeverSlashed(now: nat, p: Params, calls: seq<Call>, u: LockUpdate)
    ensures var s := Run(Genesis(now), p, AsWritten, calls); Slashed(s, u) == s
  {
    UsageStaysZero(now, p, calls);
    hide Run;
  }

  /** Stake the same amount on one proto after another. */
  function StakeEach(who: AccountId, hs: seq<Hash256>, amount: nat, protos: set<Hash256>): seq<Call> {
    seq(|hs|, i requires 0 <= i < |hs| => StakeOn(who, hs[i], amount, protos))
  }

  /** The account could stake all its lock: it is linked, its lock is known, and its usage reads zero. */
  ghost predicate Unspent(s: Chain, a: AccountId) {
    a in s.usage && s.usage[a] == 0 && a in s.links && s.links[a] in s.locked
  }

  lemma StakingLeavesUnspent(s: Chain, p: Params, who: AccountId, h: Hash256, protos: set<Hash256>)
    requires var a := p.lockedAccount(who); Unspent(s, a) && h in protos
    ensures var a := p.lockedAccount(who);
      var lock := s.locked[s.links[a]].amount;
      Apply(s, p, AsWritten, StakeOn(who, h, lock, protos)) ==
        s.(stakes := s.stakes[(h, a) := Stake(lock, s.now)], accountStakes := Append(s.accountStakes, a, h))
  {
  }

  /** So, as written, an account may stake its whole lock on every proto there is. */
  lemma {:induction false} OverStaking(s: Chain, p: Params, who: AccountId, hs: seq<Hash256>, protos: set<Hash256>)
    requires Unspent(s, p.lockedAccount(who)) && forall h :: h in hs ==> h in protos
    ensures var (a, lock) := (p.lockedAccount(who), s.locked[s.links[p.lockedAccount(who)]].amount);
      var s' := Run(s, p, AsWritten, StakeEach(who, hs, lock, protos));
      && s'.usage == s.usage && s'.links == s.links && s'.locked == s.locked && s'.now == s.now
      && (forall k :: k in s'.stakes <==> k in s.stakes || (k.0 in hs && k.1 == a))
      && forall h :: h in hs ==> s'.stakes[(h, a)] == Stake(lock, s.now)
  {
    hide Apply;
    var (a, lock) := (p.lockedAccount(who), s.locked[s.links[p.lockedAccount(who)]].amount);
    if hs != [] {
      var (before, h) := (hs[..|hs| - 1], hs[|hs| - 1]);
      assert hs == before + [h];
      var calls := StakeEach(who, hs, lock, protos);
      assert calls[..|calls| - 1] == StakeEach(who, before, lock, protos);
      OverStaking(s, p, who, before, protos);
      StakingLeavesUnspent(Run(s, p, AsWritten, calls[..|calls| - 1]), p, who, h, protos);
    }
  }
}
