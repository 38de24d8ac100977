/** The budget the stakes are meant to keep: with the new usage written back, no account ever stakes more than it has
    locked. The code as written does not write it back (StakePromises.OverStaking). */
module StakeBudget {
  import opened Basics
  import opened StakeLedger
  import opened StakeTheorems
  import opened VoteTheorems
  import opened StakePromises

  type Stakes = map<(Hash256, AccountId), Stake>

  ghost function SumOver(ks: set<(Hash256, AccountId)>, m: Stakes): nat
    requires ks <= m.Keys
  {
    if ks == {} then 0 else
      var k :| k in ks;
      m[k].amount + SumOver(ks - {k}, m)
  }

  /** The stakes of one account. */
  ghost function Mine(m: Stakes, a: AccountId): set<(Hash256, AccountId)> {
    set k | k in m.Keys && k.1 == a
  }

  ghost function StakedBy(m: Stakes, a: AccountId): nat {
    SumOver(Mine(m, a), m)
  }

  lemma {:induction false} SumTakes(ks: set<(Hash256, AccountId)>, m: Stakes, k: (Hash256, AccountId))
    requires ks <= m.Keys && k in ks
    ensures SumOver(ks, m) == m[k].amount + SumOver(ks - {k}, m)
    decreases |ks|
  {
    var j :| j in ks && SumOver(ks, m) == m[j].amount + SumOver(ks - {j}, m);
    if j != k {
      SumTakes(ks - {j}, m, k);
      SumTakes(ks - {k}, m, j);
      assert ks - {j} - {k} == ks - {k} - {j};
    }
  }

  lemma {:induction false} SumAgrees(ks: set<(Hash256, AccountId)>, m: Stakes, m': Stakes)
    requires ks <= m.Keys && ks <= m'.Keys && forall k :: k in ks ==> m[k] == m'[k]
    ensures SumOver(ks, m) == SumOver(ks, m')
    decreases |ks|
  {
    if ks != {} {
      var k :| k in ks;
      SumTakes(ks, m, k);
      SumTakes(ks, m', k);
      SumAgrees(ks - {k}, m, m');
    }
  }

  lemma RemovalTakes(m: Stakes, k: (Hash256, AccountId))
    requires k in m
    ensures StakedBy(m, k.1) == m[k].amount + StakedBy(m - {k}, k.1)
  {
    SumTakes(Mine(m, k.1), m, k);
    assert Mine(m - {k}, k.1) == Mine(m, k.1) - {k};
    SumAgrees(Mine(m - {k}, k.1), m, m - {k});
  }

  lemma OthersKeep(m: Stakes, m': Stakes, a: AccountId)
    requires forall k: (Hash256, AccountId) :: k.1 == a ==> (k in m <==> k in m') && (k in m ==> m[k] == m'[k])
    ensures StakedBy(m, a) == StakedBy(m', a)
  {
    assert Mine(m, a) == Mine(m', a);
    SumAgrees(Mine(m, a), m, m');
  }

  /** A stake replaces the account's earlier stake on the proto, so it adds at most its amount. */
  lemma AdditionAdds(m: Stakes, k: (Hash256, AccountId), stake: Stake)
    ensures StakedBy(m[k := stake], k.1) <= StakedBy(m, k.1) + stake.amount
  {
    var m' := m[k := stake];
    RemovalTakes(m', k);
    OthersKeep(m' - {k}, m - {k}, k.1);
    if k in m {
      RemovalTakes(m, k);
    } else {
      OthersKeep(m - {k}, m, k.1);
    }
  }

  /** An account with a usage entry, unless it awaits clean-up, uses at least what it has staked. */
  ghost predicate Covered(s: Chain) {
    forall a :: a in s.usage && a !in s.pending ==> StakedBy(s.stakes, a) <= s.usage[a]
  }

  lemma LinkCovers(s: Chain, p: Params, who: AccountId, signature: Bytes)
    requires Inv(s) && Covered(s)
    ensures Covered(After(s, Linked(s, p, who, signature)))
  {
  }

  lemma StakeCovers(s: Chain, p: Params, who: AccountId, h: Hash256, amount: nat, protos: set<Hash256>)
    requires Inv(s) && Covered(s)
    ensures Covered(After(s, Staked(s, p, Intended, who, h, amount, protos)))
  {
    var r := Staked(s, p, Intended, who, h, amount, protos);
    if r.Ok? {
      var a := p.lockedAccount(who);
      StakeNeverUnderflows(s, a);
      AdditionAdds(s.stakes, (h, a), Stake(amount, s.now));
      assert s.usage[a] + amount < U128 by { hide Bijective, StakesListed, StakersKnown; }
      forall b | b in r.value.usage && b !in r.value.pending ensures StakedBy(r.value.stakes, b) <= r.value.usage[b] {
        if b != a { OthersKeep(s.stakes, r.value.stakes, b); }
      }
    }
  }

  lemma UnstakeCovers(s: Chain, p: Params, a: AccountId, h: Hash256, protos: set<Hash256>)
    requires Covered(s)
    ensures Covered(After(s, Unstaked(s, p, Intended, a, h, protos)))
  {
    var r := Unstaked(s, p, Intended, a, h, protos);
    if r.Ok? {
      RemovalTakes(s.stakes, (h, a));
      forall b | b in r.value.usage && b !in r.value.pending ensures StakedBy(r.value.stakes, b) <= r.value.usage[b] {
        if b != a { OthersKeep(s.stakes, r.value.stakes, b); }
      }
    }
  }

  lemma CleanCovers(s: Chain)
    requires Covered(s)
    ensures Covered(Cleaned(s).(now := s.now + 1))
  {
    var s' := Cleaned(s);
    forall a | a in s'.usage ensures StakedBy(s'.stakes, a) <= s'.usage[a] {
      if a in s.pending {
        assert Mine(s'.stakes, a) == {};
      } else {
        OthersKeep(s.stakes, s'.stakes, a);
      }
    }
  }

  lemma {:induction false} RunCovers(now: nat, p: Params, calls: seq<Call>)
    ensures Covered(Run(Genesis(now), p, Intended, calls))
  {
    if calls != [] {
      var s := Run(Genesis(now), p, Intended, calls[..|calls| - 1]);
      RunCovers(now, p, calls[..|calls| - 1]);
      RunKeepsInv(now, p, Intended, calls[..|calls| - 1]);
      StepCovers(s, p, calls[|calls| - 1]);
      hide Apply, Covered, Inv;
    }
  }

  lemma StepCovers(s: Chain, p: Params, call: Call)
    requires Inv(s) && Covered(s)
    ensures Covered(Apply(s, p, Intended, call))
  {
    match call
    case Link(who, signature) => LinkCovers(s, p, who, signature);
    case Unlink(who, key) =>
    case Update(u) =>
      UpdateShrinks(s, p, u);
      hide LockUpdated, Inv;
    case StakeOn(who, h, amount, protos) => StakeCovers(s, p, who, h, amount, protos);
    case Unstake(who, h, protos) => UnstakeCovers(s, p, who, h, protos);
    case EndBlock => CleanCovers(s);
  }

  /** As intended: at the end of any block an account's stakes add up to no more than its Ethereum side has locked. */
  lemma StakesWithinLock(now: nat, p: Params, calls: seq<Call>, a: AccountId)
    ensures var s := Run(Genesis(now), p, Intended, calls + [EndBlock]);
      a in s.links && s.links[a] in s.locked ==> StakedBy(s.stakes, a) <= s.locked[s.links[a]].amount
  {
    var s := Run(Genesis(now), p, Intended, calls + [EndBlock]);
    RunCovers(now, p, calls + [EndBlock]);
    RunKeepsInv(now, p, Intended, calls + [EndBlock]);
    assert (calls + [EndBlock])[..|calls|] == calls;
    assert s.pending == [];
    hide Run, Bijective, StakesListed;
    if a !in s.usage {
      assert Mine(s.stakes, a) == {};
    }
  }

  // ---- Exactly when the stakes fit the lock ---------------------------------------------------

  /** No linked account has more staked than its Ethereum side has locked. */
  ghost predicate InBudget(s: Chain) {
    forall a :: a in s.links && s.links[a] in s.locked ==> BudgetOf(s, a)
  }

  ghost predicate BudgetOf(s: Chain, a: AccountId)
    requires a in s.links && s.links[a] in s.locked
  {
    StakedBy(s.stakes, a) <= s.locked[s.links[a]].amount
  }

  /** The three ways out of the budget: a stake that does not fit beside the account's others, a completed lock of less
      than is staked already, and a link, with stakes left over, to an address that has locked less. */
  ghost predicate Overdraws(s: Chain, p: Params, mode: Mode, call: Call) {
    match call
    case StakeOn(who, h, amount, protos) =>
      var a := p.lockedAccount(who);
      Staked(s, p, mode, who, h, amount, protos).Ok?
      && s.locked[s.links[a]].amount < StakedBy(s.stakes - {(h, a)}, a) + amount
    case Update(u) =>
      Completes(s, p, u) && u.lock && u.sender in s.linksReverse
      && u.amount < StakedBy(s.stakes, s.linksReverse[u.sender])
    case Link(who, signature) =>
      Linked(s, p, who, signature).Ok?
      && p.linkSigner(who, signature).value in s.locked
      && s.locked[p.linkSigner(who, signature).value].amount < StakedBy(s.stakes, who)
    case _ => false
  }

  /** A new stake replaces the account's earlier stake on the proto. */
  lemma ReplacementIsExact(m: Stakes, k: (Hash256, AccountId), stake: Stake)
    ensures StakedBy(m[k := stake], k.1) == StakedBy(m - {k}, k.1) + stake.amount
  {
    assert m[k := stake] == (m - {k})[k := stake];
    AdditionIsExact(m - {k}, k, stake);
  }

  lemma StakeBudgetIff(s: Chain, p: Params, mode: Mode, who: AccountId, h: Hash256, amount: nat, protos: set<Hash256>)
    requires InBudget(s) && Staked(s, p, mode, who, h, amount, protos).Ok?
    ensures var a := p.lockedAccount(who);
      && a in s.links && s.links[a] in s.locked
      && (InBudget(Staked(s, p, mode, who, h, amount, protos).value) <==>
            StakedBy(s.stakes - {(h, a)}, a) + amount <= s.locked[s.links[a]].amount)
  {
    var (a, s') := (p.lockedAccount(who), Staked(s, p, mode, who, h, amount, protos).value);
    ReplacementIsExact(s.stakes, (h, a), Stake(amount, s.now));
    hide StakedBy, Append;
    forall b | b != a && b in s'.links && s'.links[b] in s'.locked ensures BudgetOf(s', b) {
      assert BudgetOf(s, b);
      OthersKeep(s.stakes, s'.stakes, b);
    }
    assert InBudget(s') ==> BudgetOf(s', a);
  }

  lemma LockBudgetIff(s: Chain, p: Params, u: LockUpdate)
    requires Inv(s) && InBudget(s) && Completes(s, p, u)
    ensures LockUpdated(s, p, u).Ok?
    ensures InBudget(LockUpdated(s, p, u).value) <==>
              !(u.lock && u.sender in s.linksReverse && u.amount < StakedBy(s.stakes, s.linksReverse[u.sender]))
  {
    CarryingOut(s, p, u);
    CarriedLinks(s, p, u);
    UpdateShrinks(s, p, u);
    var s' := CarriedOut(s, p, u).value;
    assert LockUpdated(s, p, u) == CarriedOut(s, p, u);
    hide CarriedOut, LockUpdated, Completes, StakedBy, Affected, VotesSpent, StakesListed, StakersKnown, WithinBudget;
    forall a | a in s'.links && s'.links[a] != u.sender && s'.links[a] in s'.locked ensures BudgetOf(s', a) {
      assert BudgetOf(s, a);
    }
    if u.lock && u.sender in s.linksReverse {
      var a := s.linksReverse[u.sender];
      assert LinkedFrom(s.linksReverse, u.sender, a) && LinksTo(s.links, a, u.sender);
      assert InBudget(s') ==> BudgetOf(s', a);
    }
    forall a | a in s'.links && s'.links[a] == u.sender ensures u.lock && LinkedFrom(s.linksReverse, u.sender, a) {
      assert LinksTo(s.links, a, u.sender);
    }
  }

  /** Carrying an event out: a lock keeps the links, an unlock takes the sender's. */
  lemma CarriedLinks(s: Chain, p: Params, u: LockUpdate)
    requires Inv(s) && Completes(s, p, u)
    ensures CarriedOut(s, p, u).Ok?
    ensures var s' := CarriedOut(s, p, u).value;
      && (u.lock ==> s'.links == s.links)
      && (!u.lock ==> forall a :: a in s'.links ==> s'.links[a] != u.sender)
  {
    SpentFrame(s, p, u);
    var v := VotesSpent(s, p, u);
    hide VotesSpent, Completes, StakesListed, StakersKnown, WithinBudget, LocksFit;
    EffectFrame(v, u);
    if !u.lock {
      forall a | a in ForceUnlinked(v, u).value.links ensures ForceUnlinked(v, u).value.links[a] != u.sender {
        assert LinksTo(v.links, a, u.sender) <==> LinkedFrom(v.linksReverse, u.sender, a);
      }
    }
  }

  lemma LinkBudgetIff(s: Chain, p: Params, who: AccountId, signature: Bytes)
    requires InBudget(s) && Linked(s, p, who, signature).Ok?
    ensures var e := p.linkSigner(who, signature).value;
      InBudget(Linked(s, p, who, signature).value) <==>
        (e in s.locked ==> StakedBy(s.stakes, who) <= s.locked[e].amount)
  {
    var (e, s') := (p.linkSigner(who, signature).value, Linked(s, p, who, signature).value);
    hide StakedBy;
    forall a | a != who && a in s'.links && s'.links[a] in s'.locked ensures BudgetOf(s', a) {
      assert BudgetOf(s, a);
    }
    assert InBudget(s') && e in s.locked ==> BudgetOf(s', who);
  }

  /** A step, as written or as intended, keeps every account's stakes within its lock, exactly unless it overdraws. */
  lemma StepKeepsBudgetIff(s: Chain, p: Params, mode: Mode, call: Call)
    requires Inv(s) && InBudget(s)
    ensures InBudget(Apply(s, p, mode, call)) <==> !Overdraws(s, p, mode, call)
  {
    hide Linked, Staked, LockUpdated, Inv, Completes;
    match call
    case Link(who, signature) =>
      if Linked(s, p, who, signature).Ok? {
        LinkBudgetIff(s, p, who, signature);
      }
    case Unlink(who, key) => UnlinkKeepsBudget(s, who, key);
    case Update(u) =>
      if Completes(s, p, u) {
        LockBudgetIff(s, p, u);
      } else {
        OnlyCarryingOutActs(s, p, u);
        hide StakedBy;
      }
    case StakeOn(who, h, amount, protos) =>
      if Staked(s, p, mode, who, h, amount, protos).Ok? {
        StakeBudgetIff(s, p, mode, who, h, amount, protos);
      }
    case Unstake(who, h, protos) => UnstakeKeepsBudget(s, p, mode, who, h, protos);
    case EndBlock => CleanKeepsBudget(s);
  }

  lemma UnlinkKeepsBudget(s: Chain, who: AccountId, key: Address)
    requires InBudget(s)
    ensures InBudget(After(s, Unlinked(s, who, key)))
  {
    hide StakedBy;
    var s' := After(s, Unlinked(s, who, key));
    forall a | a in s'.links && s'.links[a] in s'.locked ensures BudgetOf(s', a) {
      assert BudgetOf(s, a);
    }
  }

  lemma UnstakeKeepsBudget(s: Chain, p: Params, mode: Mode, a: AccountId, h: Hash256, protos: set<Hash256>)
    requires InBudget(s)
    ensures InBudget(After(s, Unstaked(s, p, mode, a, h, protos)))
  {
    var s' := After(s, Unstaked(s, p, mode, a, h, protos));
    if Unstaked(s, p, mode, a, h, protos).Ok? {
      RemovalTakes(s.stakes, (h, a));
      hide StakedBy, Retain;
      forall b | b in s'.links && s'.links[b] in s'.locked ensures BudgetOf(s', b) {
        assert BudgetOf(s, b);
        if b != a { OthersKeep(s.stakes, s'.stakes, b); }
      }
    }
  }

  lemma CleanKeepsBudget(s: Chain)
    requires InBudget(s)
    ensures InBudget(Cleaned(s).(now := s.now + 1))
  {
    var s' := Cleaned(s).(now := s.now + 1);
    forall a | a in s'.links && s'.links[a] in s'.locked ensures BudgetOf(s', a) {
      assert BudgetOf(s, a);
      if a in s.pending {
        assert Mine(s'.stakes, a) == {};
      } else {
        OthersKeep(s.stakes, s'.stakes, a);
      }
    }
  }

  ghost predicate InBudgetThroughout(now: nat, p: Params, mode: Mode, calls: seq<Call>) {
    && InBudget(Run(Genesis(now), p, mode, calls))
    && (calls != [] ==> InBudgetThroughout(now, p, mode, calls[..|calls| - 1]))
  }

  ghost predicate NeverOverdraws(now: nat, p: Params, mode: Mode, calls: seq<Call>) {
    calls != [] ==>
      var before := calls[..|calls| - 1];
      NeverOverdraws(now, p, mode, before)
        && !Overdraws(Run(Genesis(now), p, mode, before), p, mode, calls[|calls| - 1])
  }

  /** Over any run: stakes are within the locks at every point exactly if no step overdraws. */
  lemma {:induction false} RunKeepsBudgetIff(now: nat, p: Params, mode: Mode, calls: seq<Call>)
    ensures InBudgetThroughout(now, p, mode, calls) <==> NeverOverdraws(now, p, mode, calls)
  {
    if calls != [] {
      var before := calls[..|calls| - 1];
      RunKeepsBudgetIff(now, p, mode, before);
      RunKeepsInv(now, p, mode, before);
      hide Apply, InBudget, Overdraws, Inv;
      if NeverOverdraws(now, p, mode, before) {
        assert InBudget(Run(Genesis(now), p, mode, before));
        StepKeepsBudgetIff(Run(Genesis(now), p, mode, before), p, mode, calls[|calls| - 1]);
      }
    }
  }

  // ---- As written ------------------------------------------------------------------------------

  lemma AdditionIsExact(m: Stakes, k: (Hash256, AccountId), stake: Stake)
    requires k !in m
    ensures StakedBy(m[k := stake], k.1) == StakedBy(m, k.1) + stake.amount
  {
    RemovalTakes(m[k := stake], k);
    OthersKeep(m[k := stake] - {k}, m, k.1);
  }

  lemma OneMore(n: nat, x: nat)
    ensures (n + 1) * x == n * x + x
  {
  }

  /** As written: n calls, all accepted, leave an account with n times its lock staked. */
  lemma {:induction false} NoBudgetAsWritten(s: Chain, p: Params, who: AccountId, hs: seq<Hash256>,
                                             protos: set<Hash256>)
    requires Unspent(s, p.lockedAccount(who)) && Mine(s.stakes, p.lockedAccount(who)) == {}
    requires NoDup(hs) && forall h :: h in hs ==> h in protos
    ensures var (a, lock) := (p.lockedAccount(who), s.locked[s.links[p.lockedAccount(who)]].amount);
      StakedBy(Run(s, p, AsWritten, StakeEach(who, hs, lock, protos)).stakes, a) == |hs| * lock
  {
    var (a, lock) := (p.lockedAccount(who), s.locked[s.links[p.lockedAccount(who)]].amount);
    assert StakedBy(s.stakes, a) == 0;
    hide Apply, StakedBy, Append;
    if hs != [] {
      var (before, h) := (hs[..|hs| - 1], hs[|hs| - 1]);
      assert hs == before + [h];
      var calls := StakeEach(who, hs, lock, protos);
      assert calls[..|calls| - 1] == StakeEach(who, before, lock, protos);
      var m := Run(s, p, AsWritten, calls[..|calls| - 1]);
      NoBudgetAsWritten(s, p, who, before, protos);
      OverStaking(s, p, who, before, protos);
      StakingLeavesUnspent(m, p, who, h, protos);
      assert (h, a) !in Mine(s.stakes, a);
      AdditionIsExact(m.stakes, (h, a), Stake(lock, m.now));
      OneMore(|before|, lock);
    }
  }
}
