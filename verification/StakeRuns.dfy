/** Which runs reach a stake, and through it the over-staking and the panic the code allows: exact conditions, with the
    runs that get there. */
module StakeRuns {
  import opened Basics
  import opened StakeLedger
  import opened StakeTheorems
  import opened VoteTheorems
  import opened StakePromises
  import opened StakeBudget

  /** The accounts whose calls can be signed. */
  type Signers = AccountId -> bool

  predicate SignedBy(signers: Signers, call: Call) {
    match call
    case Link(who, _) => signers(who)
    case Unlink(who, _) => signers(who)
    case StakeOn(who, _, _, _) => signers(who)
    case Unstake(who, _, _) => signers(who)
    case Update(_) => true
    case EndBlock => true
  }

  predicate AllSigned(signers: Signers, calls: seq<Call>) {
    forall i :: 0 <= i < |calls| ==> SignedBy(signers, calls[i])
  }

  /** The account can link itself to the address. */
  ghost predicate CanLink(p: Params, signers: Signers, a: AccountId, e: Address) {
    signers(a) && exists signature :: p.linkSigner(a, signature) == Some(e)
  }

  /** An event the update call accepts from its sender. */
  predicate Acceptable(p: Params, u: LockUpdate) {
    p.lockSigner(u) == Some(u.sender) && u.amount < U128 && u.lock == (0 < u.amount)
  }

  ghost predicate CanLock(p: Params, e: Address) {
    exists u: LockUpdate :: Acceptable(p, u) && u.sender == e
  }

  /** Somebody's derived account can sign too, and link itself to an address with an event of its own. */
  ghost predicate CanStake(p: Params, signers: Signers) {
    exists who, e :: signers(who) && CanLink(p, signers, p.lockedAccount(who), e) && CanLock(p, e)
  }

  // ---- What a run needs before it holds a stake -----------------------------------------------

  /** Links, locks and stakes are only where they can be. */
  ghost predicate Warranted(s: Chain, p: Params, signers: Signers) {
    && (forall a, e :: LinksTo(s.links, a, e) ==> CanLink(p, signers, a, e))
    && (forall e :: e in s.locked ==> CanLock(p, e))
    && (s.stakes != map[] ==> CanStake(p, signers))
  }

  lemma UpdateWarranted(s: Chain, p: Params, signers: Signers, u: LockUpdate)
    requires Inv(s) && Warranted(s, p, signers)
    ensures Warranted(After(s, LockUpdated(s, p, u)), p, signers)
  {
    var s' := After(s, LockUpdated(s, p, u));
    UpdateShrinksLinks(s, p, u);
    if Completes(s, p, u) {
      assert LockRefusal(s, p, u).None?;
      assert Acceptable(p, u);
      hide Completes, LockRefusal, Acceptable, CanStake, CanLink;
      SpentFrame(s, p, u);
      CarryingOut(s, p, u);
      assert s'.locked == s.locked[u.sender := EthLock(u.amount, s.now)];
      hide CarriedOut, LockUpdated, Inv;
      assert CanLock(p, u.sender);
    } else {
      OnlyCarryingOutActs(s, p, u);
      hide LockUpdated, CanStake, CanLink, CanLock, Inv;
    }
  }

  lemma UpdateShrinksLinks(s: Chain, p: Params, u: LockUpdate)
    ensures var s' := After(s, LockUpdated(s, p, u));
      s'.stakes == s.stakes && forall a, e :: LinksTo(s'.links, a, e) ==> LinksTo(s.links, a, e)
  {
    UpdateShrinks(s, p, u);
    hide LockUpdated;
  }

  lemma StepWarranted(s: Chain, p: Params, mode: Mode, signers: Signers, call: Call)
    requires Inv(s) && Warranted(s, p, signers) && SignedBy(signers, call)
    ensures Warranted(Apply(s, p, mode, call), p, signers)
  {
    hide CanLink, CanLock, CanStake;
    match call
    case Link(who, signature) => LinkWarranted(s, p, signers, who, signature);
    case Unlink(who, key) =>
    case Update(u) =>
      UpdateWarranted(s, p, signers, u);
      hide LockUpdated, Warranted, Inv;
    case StakeOn(who, h, amount, protos) => StakeWarranted(s, p, mode, signers, who, h, amount, protos);
    case Unstake(who, h, protos) =>
    case EndBlock =>
  }

  lemma LinkWarranted(s: Chain, p: Params, signers: Signers, who: AccountId, signature: Bytes)
    requires Warranted(s, p, signers) && signers(who)
    ensures Warranted(After(s, Linked(s, p, who, signature)), p, signers)
  {
    if Linked(s, p, who, signature).Ok? {
      assert CanLink(p, signers, who, p.linkSigner(who, signature).value);
    }
    hide CanLink, CanLock, CanStake;
  }

  lemma StakeNeeds(s: Chain, p: Params, mode: Mode, signers: Signers, who: AccountId, h: Hash256, amount: nat,
                   protos: set<Hash256>)
    requires Warranted(s, p, signers) && signers(who) && Staked(s, p, mode, who, h, amount, protos).Ok?
    ensures CanStake(p, signers)
  {
    hide CanLink, CanLock;
    var a := p.lockedAccount(who);
    assert LinksTo(s.links, a, s.links[a]);
    assert CanLink(p, signers, a, s.links[a]) && CanLock(p, s.links[a]);
  }

  lemma StakeWarranted(s: Chain, p: Params, mode: Mode, signers: Signers, who: AccountId, h: Hash256, amount: nat,
                       protos: set<Hash256>)
    requires Warranted(s, p, signers) && signers(who)
    ensures Warranted(After(s, Staked(s, p, mode, who, h, amount, protos)), p, signers)
  {
    if Staked(s, p, mode, who, h, amount, protos).Ok? {
      StakeNeeds(s, p, mode, signers, who, h, amount, protos);
    }
    hide CanLink, CanLock, CanStake;
  }

  lemma {:induction false} RunWarranted(now: nat, p: Params, mode: Mode, signers: Signers, calls: seq<Call>)
    requires AllSigned(signers, calls)
    ensures Warranted(Run(Genesis(now), p, mode, calls), p, signers)
  {
    if calls != [] {
      hide Apply, Warranted, Inv;
      var before := calls[..|calls| - 1];
      RunWarranted(now, p, mode, signers, before);
      RunKeepsInv(now, p, mode, before);
      StepWarranted(Run(Genesis(now), p, mode, before), p, mode, signers, calls[|calls| - 1]);
    } else {
      hide CanLink, CanLock, CanStake;
    }
  }

  /** Without that, every `stake` that can be signed is refused, after any run. */
  lemma StakeRefused(now: nat, p: Params, mode: Mode, signers: Signers, calls: seq<Call>, who: AccountId, h: Hash256,
                     amount: nat, protos: set<Hash256>)
    requires AllSigned(signers, calls) && signers(who) && !CanStake(p, signers)
    ensures Staked(Run(Genesis(now), p, mode, calls), p, mode, who, h, amount, protos).Err?
  {
    var s := Run(Genesis(now), p, mode, calls);
    RunWarranted(now, p, mode, signers, calls);
    hide Warranted, CanStake, Run, Staked;
    if Staked(s, p, mode, who, h, amount, protos).Ok? {
      StakeNeeds(s, p, mode, signers, who, h, amount, protos);
    }
  }

  // ---- A run that holds a stake ---------------------------------------------------------------

  lemma {:induction false} RunOn(s: Chain, p: Params, mode: Mode, first: seq<Call>, then_: seq<Call>)
    ensures Run(s, p, mode, first + then_) == Run(Run(s, p, mode, first), p, mode, then_)
  {
    hide Apply;
    if then_ == [] {
      assert first + then_ == first;
    } else {
      var (rest, last) := (then_[..|then_| - 1], then_[|then_| - 1]);
      assert (first + then_)[..|first + then_| - 1] == first + rest;
      RunOn(s, p, mode, first, rest);
    }
  }

  function Times(n: nat, call: Call): seq<Call> {
    seq(n, _ => call)
  }

  lemma TimesMore(n: nat, call: Call)
    ensures Times(n + 1, call)[..n] == Times(n, call) && Times(n + 1, call)[n] == call
  {
  }

  /** An event submitted n times, below the threshold, leaves n votes and nothing else. */
  lemma {:induction false} VotesGather(now: nat, p: Params, mode: Mode, u: LockUpdate, n: nat)
    requires Acceptable(p, u) && n < Needed(p)
    ensures Run(Genesis(now), p, mode, Times(n, Update(u))) ==
              Genesis(now).(votes := if n == 0 then map[] else map[p.eventHash(u) := n])
  {
    if n != 0 {
      VotesGather(now, p, mode, u, n - 1);
      TimesMore(n - 1, Update(u));
      OneVote(now, p, u, n);
      hide Times, LockUpdated, Acceptable;
    }
  }

  lemma OneVote(now: nat, p: Params, u: LockUpdate, n: nat)
    requires Acceptable(p, u) && 0 < n < Needed(p)
    ensures LockUpdated(Genesis(now).(votes := if n == 1 then map[] else map[p.eventHash(u) := n - 1]), p, u) ==
              Ok(Genesis(now).(votes := map[p.eventHash(u) := n]))
  {
    var s := Genesis(now).(votes := if n == 1 then map[] else map[p.eventHash(u) := n - 1]);
    assert LockRefusal(s, p, u).None? && !Completes(s, p, u);
    assert s.votes[p.eventHash(u) := n] == map[p.eventHash(u) := n];
  }

  /** The state in which the event is carried out and nothing else has happened. */
  function Locked(now: nat, p: Params, u: LockUpdate): Chain {
    Genesis(now).(locked := map[u.sender := EthLock(u.amount, now)], closed := map[p.eventHash(u) := now])
  }

  lemma LockReached(now: nat, p: Params, mode: Mode, u: LockUpdate)
    requires Acceptable(p, u)
    ensures Run(Genesis(now), p, mode, Times(Needed(p), Update(u))) == Locked(now, p, u)
  {
    var n := Needed(p) - 1;
    VotesGather(now, p, mode, u, n);
    TimesMore(n, Update(u));
    var s := Run(Genesis(now), p, mode, Times(n, Update(u)));
    LastVote(now, p, u, s);
    hide Times, LockUpdated, Locked;
  }

  lemma LastVote(now: nat, p: Params, u: LockUpdate, s: Chain)
    requires Acceptable(p, u)
    requires s == Genesis(now).(votes := if Needed(p) == 1 then map[] else map[p.eventHash(u) := Needed(p) - 1])
    ensures LockUpdated(s, p, u) == Ok(Locked(now, p, u))
  {
    assert LockRefusal(s, p, u).None? && Completes(s, p, u);
    assert VotesSpent(s, p, u) == Genesis(now);
    assert Affected(Genesis(now), u) == Ok(Genesis(now));
  }

  function LockAndLink(p: Params, u: LockUpdate, a: AccountId, signature: Bytes): seq<Call> {
    Times(Needed(p), Update(u)) + [Link(a, signature)]
  }

  function LinkedUp(now: nat, p: Params, u: LockUpdate, a: AccountId): Chain {
    Locked(now, p, u).(links := map[a := u.sender], linksReverse := map[u.sender := a], usage := map[a := 0])
  }

  lemma RunOne(s: Chain, p: Params, mode: Mode, call: Call)
    ensures Run(s, p, mode, [call]) == Apply(s, p, mode, call)
  {
    hide Apply;
    assert [call][..0] == [];
  }

  /** Enough submissions of an acceptable event, then a link to its sender: the account may stake its whole lock. */
  lemma LinkReached(now: nat, p: Params, mode: Mode, u: LockUpdate, a: AccountId, signature: Bytes)
    requires Acceptable(p, u) && p.linkSigner(a, signature) == Some(u.sender)
    ensures Run(Genesis(now), p, mode, LockAndLink(p, u, a, signature)) == LinkedUp(now, p, u, a)
    ensures Unspent(LinkedUp(now, p, u, a), a)
  {
    LockReached(now, p, mode, u);
    RunOn(Genesis(now), p, mode, Times(Needed(p), Update(u)), [Link(a, signature)]);
    RunOne(Locked(now, p, u), p, mode, Link(a, signature));
    hide Times, Run;
  }

  /** The same with a stake of the whole lock. */
  function LockLinkStake(p: Params, u: LockUpdate, who: AccountId, signature: Bytes, h: Hash256): seq<Call> {
    LockAndLink(p, u, p.lockedAccount(who), signature) + [StakeOn(who, h, u.amount, {h})]
  }

  lemma StakeReached(now: nat, p: Params, mode: Mode, u: LockUpdate, who: AccountId, signature: Bytes, h: Hash256)
    requires Acceptable(p, u) && p.linkSigner(p.lockedAccount(who), signature) == Some(u.sender)
    ensures var (a, s) := (p.lockedAccount(who), Run(Genesis(now), p, mode, LockLinkStake(p, u, who, signature, h)));
      && s.stakes == map[(h, a) := Stake(u.amount, now)] && s.links == map[a := u.sender]
      && s.pending == [] && s.now == now
  {
    var a := p.lockedAccount(who);
    LinkReached(now, p, mode, u, a, signature);
    RunOn(Genesis(now), p, mode, LockAndLink(p, u, a, signature), [StakeOn(who, h, u.amount, {h})]);
    RunOne(LinkedUp(now, p, u, a), p, mode, StakeOn(who, h, u.amount, {h}));
    hide LockAndLink, Run;
  }

  lemma RunSigned(signers: Signers, p: Params, u: LockUpdate, who: AccountId, signature: Bytes, h: Hash256)
    requires signers(who) && signers(p.lockedAccount(who))
    ensures AllSigned(signers, LockLinkStake(p, u, who, signature, h))
  {
  }

  /** Some run whose calls can be signed holds a stake exactly if a derived account can sign, link itself and lock: in
      particular, if derived accounts cannot sign no `stake` is ever accepted. */
  lemma StakingReachableIff(now: nat, p: Params, mode: Mode, signers: Signers, h: Hash256)
    ensures (exists calls :: AllSigned(signers, calls) && Run(Genesis(now), p, mode, calls).stakes != map[]) <==>
              CanStake(p, signers)
  {
    if CanStake(p, signers) {
      var who, e :| signers(who) && CanLink(p, signers, p.lockedAccount(who), e) && CanLock(p, e);
      var signature :| p.linkSigner(p.lockedAccount(who), signature) == Some(e);
      var u: LockUpdate :| Acceptable(p, u) && u.sender == e;
      var calls := LockLinkStake(p, u, who, signature, h);
      StakeReached(now, p, mode, u, who, signature, h);
      RunSigned(signers, p, u, who, signature, h);
      hide LockLinkStake, AllSigned, Run;
      assert (h, p.lockedAccount(who)) in Run(Genesis(now), p, mode, calls).stakes;
    }
    forall calls | AllSigned(signers, calls) && Run(Genesis(now), p, mode, calls).stakes != map[]
      ensures CanStake(p, signers)
    {
      RunWarranted(now, p, mode, signers, calls);
      hide CanStake;
    }
  }

  // ---- From there to over-staking and to the panic --------------------------------------------

  /** With an event for the lock, as written: a run from the start that leaves n times the lock staked, for any n. */
  lemma OverStakingReached(now: nat, p: Params, u: LockUpdate, who: AccountId, signature: Bytes, hs: seq<Hash256>)
    requires Acceptable(p, u) && p.linkSigner(p.lockedAccount(who), signature) == Some(u.sender) && NoDup(hs)
    ensures var a := p.lockedAccount(who);
      var calls := LockAndLink(p, u, a, signature) + StakeEach(who, hs, u.amount, set h | h in hs);
      && StakedBy(Run(Genesis(now), p, AsWritten, calls).stakes, a) == |hs| * u.amount
      && (1 < |hs| && 0 < u.amount ==> !InBudget(Run(Genesis(now), p, AsWritten, calls)))
  {
    var a := p.lockedAccount(who);
    var protos := set h | h in hs;
    LinkReached(now, p, AsWritten, u, a, signature);
    RunOn(Genesis(now), p, AsWritten, LockAndLink(p, u, a, signature), StakeEach(who, hs, u.amount, protos));
    var s := LinkedUp(now, p, u, a);
    assert Mine(s.stakes, a) == {};
    assert s.locked[s.links[a]].amount == u.amount;
    hide Run, StakedBy, LockAndLink;
    NoBudgetAsWritten(s, p, who, hs, protos);
    OverStaking(s, p, who, hs, protos);
    if 1 < |hs| && 0 < u.amount {
      MoreThanOnce(|hs|, u.amount);
      var s' := Run(s, p, AsWritten, StakeEach(who, hs, u.amount, protos));
      assert InBudget(s') ==> BudgetOf(s', a);
    }
  }

  lemma MoreThanOnce(n: nat, x: nat)
    requires 1 < n && 0 < x
    ensures x < n * x
  {
  }

  lemma NothingToClean(s: Chain)
    requires s.pending == []
    ensures Cleaned(s) == s
  {
    assert (map k | k in s.stakes && k.1 !in s.pending :: s.stakes[k]) == s.stakes;
    assert (map a | a in s.accountStakes && a !in s.pending :: s.accountStakes[a]) == s.accountStakes;
  }

  lemma {:induction false} BlocksPass(s: Chain, p: Params, mode: Mode, n: nat)
    requires s.pending == []
    ensures Run(s, p, mode, Times(n, EndBlock)) == s.(now := s.now + n)
  {
    if n != 0 {
      BlocksPass(s, p, mode, n - 1);
      TimesMore(n - 1, EndBlock);
      NothingToClean(s.(now := s.now + n - 1));
      hide Times, Cleaned;
    }
  }

  /** The lock-up passes, the account unlinks, and unstakes in the same block. */
  function UpToUnlink(p: Params, u: LockUpdate, who: AccountId, signature: Bytes, h: Hash256): seq<Call> {
    LockLinkStake(p, u, who, signature, h) + Times(p.lockup + 1, EndBlock) + [Unlink(p.lockedAccount(who), u.sender)]
  }

  lemma PanicReached(now: nat, p: Params, mode: Mode, u: LockUpdate, who: AccountId, signature: Bytes, h: Hash256)
    requires Acceptable(p, u) && p.linkSigner(p.lockedAccount(who), signature) == Some(u.sender)
    ensures var s := Run(Genesis(now), p, mode, UpToUnlink(p, u, who, signature, h));
      Unstaked(s, p, mode, p.lockedAccount(who), h, {h}) == Err(Panic)
  {
    var (a, staking) := (p.lockedAccount(who), LockLinkStake(p, u, who, signature, h));
    var m := StakeMatured(now, p, mode, u, who, signature, h);
    var calls := staking + Times(p.lockup + 1, EndBlock);
    RunOn(Genesis(now), p, mode, calls, [Unlink(a, u.sender)]);
    RunOne(m, p, mode, Unlink(a, u.sender));
    hide Run, LockLinkStake, Times, Inv, Unstaked, Unlinked;
    UnlinkThenUnstakePanics(m, p, mode, a, h, {h});
  }

  lemma StakeMatured(now: nat, p: Params, mode: Mode, u: LockUpdate, who: AccountId, signature: Bytes, h: Hash256)
    returns (m: Chain)
    requires Acceptable(p, u) && p.linkSigner(p.lockedAccount(who), signature) == Some(u.sender)
    ensures m == Run(Genesis(now), p, mode, LockLinkStake(p, u, who, signature, h) + Times(p.lockup + 1, EndBlock))
    ensures var k := (h, p.lockedAccount(who));
      && Inv(m) && k in m.stakes && m.stakes[k].since + p.lockup < m.now
      && k.1 in m.links && m.links[k.1] == u.sender
  {
    var (staking, waiting) := (LockLinkStake(p, u, who, signature, h), Times(p.lockup + 1, EndBlock));
    m := Run(Genesis(now), p, mode, staking + waiting);
    RunKeepsInv(now, p, mode, staking + waiting);
    StakeReached(now, p, mode, u, who, signature, h);
    RunOn(Genesis(now), p, mode, staking, waiting);
    BlocksPass(Run(Genesis(now), p, mode, staking), p, mode, p.lockup + 1);
    hide Run, LockLinkStake, Times, Inv;
  }

  lemma UnlinkSigned(signers: Signers, p: Params, u: LockUpdate, who: AccountId, signature: Bytes, h: Hash256)
    requires signers(who) && signers(p.lockedAccount(who))
    ensures AllSigned(signers, UpToUnlink(p, u, who, signature, h))
  {
    RunSigned(signers, p, u, who, signature, h);
    hide LockLinkStake;
  }

  /** Calls that can be signed, the last one `unstake`, reach the panic under exactly the same condition. */
  lemma PanicReachableIff(now: nat, p: Params, mode: Mode, signers: Signers, h: Hash256)
    ensures (exists calls, a ::
               signers(a) && AllSigned(signers, calls)
                 && Unstaked(Run(Genesis(now), p, mode, calls), p, mode, a, h, {h}) == Err(Panic)) <==>
              CanStake(p, signers)
  {
    if CanStake(p, signers) {
      var who, e :| signers(who) && CanLink(p, signers, p.lockedAccount(who), e) && CanLock(p, e);
      var signature :| p.linkSigner(p.lockedAccount(who), signature) == Some(e);
      var u: LockUpdate :| Acceptable(p, u) && u.sender == e;
      PanicReached(now, p, mode, u, who, signature, h);
      UnlinkSigned(signers, p, u, who, signature, h);
      assert signers(p.lockedAccount(who));
      hide UpToUnlink, AllSigned, Run, Unstaked;
    }
    forall calls, a | AllSigned(signers, calls)
                      && Unstaked(Run(Genesis(now), p, mode, calls), p, mode, a, h, {h}) == Err(Panic)
      ensures CanStake(p, signers)
    {
      RunWarranted(now, p, mode, signers, calls);
      assert (h, a) in Run(Genesis(now), p, mode, calls).stakes;
      hide CanStake;
    }
  }
}
