/** What each call on links, locks and stakes takes to be accepted, and what their storage holds, told from the accepted
    calls alone. */
module StakeStories {
  import opened Basics
  import opened StakeLedger
  import opened StakeTheorems
  import opened VoteTheorems
  import opened StakePromises

  // ---- Accepted or not ------------------------------------------------------------------------

  /** A link is made exactly with an address that signed for it, if neither side is linked. */
  lemma LinkAnswers(s: Chain, p: Params, who: AccountId, signature: Bytes)
    ensures var (r, key) := (Linked(s, p, who, signature), p.linkSigner(who, signature));
      && (r.Ok? <==> key.Some? && who !in s.links && key.value !in s.linksReverse)
      && (r.Err? ==>
            match r.error
            case VerificationFailed => key.None?
            case AccountAlreadyLinked => key.Some? && (who in s.links || key.value in s.linksReverse)
            case _ => false)
  {
  }

  /** And undone exactly by the account with the address it is linked to. */
  lemma UnlinkAnswers(s: Chain, who: AccountId, key: Address)
    requires Bijective(s.links, s.linksReverse)
    ensures var r := Unlinked(s, who, key);
      && (r.Ok? <==> LinksTo(s.links, who, key))
      && (r.Err? ==>
            match r.error
            case AccountNotLinked => who !in s.links
            case DifferentAccountLinked => who in s.links && s.links[who] != key
            case _ => false)
  {
    assert LinksTo(s.links, who, key) <==> LinkedFrom(s.linksReverse, key, who);
  }

  /** A stake is accepted exactly on a stored proto, of an account that is linked to an address with a known lock, and
      within what its usage leaves of that. */
  lemma StakeAnswers(s: Chain, p: Params, mode: Mode, caller: AccountId, h: Hash256, amount: nat, protos: set<Hash256>)
    requires Inv(s)
    ensures var (r, a) := (Staked(s, p, mode, caller, h, amount, protos), p.lockedAccount(caller));
      var known := a in s.links && s.links[a] in s.locked && a in s.usage;
      && (r.Ok? <==> h in protos && known && s.usage[a] + amount <= s.locked[s.links[a]].amount)
      && (r.Err? ==>
            match r.error
            case ProtoNotFound => h !in protos
            case NoFragLink => h in protos && !known
            case InsufficientBalance => h in protos && known && s.locked[s.links[a]].amount < s.usage[a] + amount
            case _ => false)
  {
    var a := p.lockedAccount(caller);
    if a in s.links && s.links[a] in s.locked && a in s.usage {
      StakeNeverUnderflows(s, a);
    }
    hide Inv;
  }

  /** A stake is taken back exactly by the account it is recorded for, once its lock-up is over, while that account has
      a usage entry. */
  lemma UnstakeAnswers(s: Chain, p: Params, mode: Mode, a: AccountId, h: Hash256, protos: set<Hash256>)
    ensures var r := Unstaked(s, p, mode, a, h, protos);
      var staked := h in protos && (h, a) in s.stakes;
      var mature := staked && s.stakes[(h, a)].since + p.lockup < s.now;
      && (r.Ok? <==> mature && a in s.usage)
      && (r.Err? ==>
            match r.error
            case ProtoNotFound => h !in protos
            case StakeNotFound => h in protos && !staked
            case StakeLocked => staked && !mature
            case Panic => mature && a !in s.usage
            case _ => false)
  {
  }

  /** A submission is accepted exactly for an event not yet carried out, signed by its sender, of an amount within u128
      that is something for a lock and nothing for an unlock. */
  lemma UpdateAnswers(s: Chain, p: Params, u: LockUpdate)
    requires Inv(s)
    ensures var r := LockUpdated(s, p, u);
      var (unseen, signed) := (p.eventHash(u) !in s.closed, p.lockSigner(u) == Some(u.sender));
      var fitting := u.amount < U128 && (u.lock <==> 0 < u.amount);
      && (r.Ok? <==> unseen && signed && fitting)
      && (r.Err? ==>
            match r.error
            case LinkAlreadyProcessed => !unseen
            case VerificationFailed => unseen && !signed
            case SystematicFailure => unseen && signed && !fitting
            case _ => false)
  {
    UpdateKeepsInv(s, p, u);
    hide Inv, CarriedOut, Voted, Completes;
  }

  // ---- Links ----------------------------------------------------------------------------------

  /** The call is the last submission needed of an unlock by address e. */
  predicate Unlocks(s: Chain, p: Params, call: Call, e: Address) {
    call.Update? && Completes(s, p, call.u) && !call.u.lock && call.u.sender == e
  }

  /** What a call makes of the address account a is linked to: a refused one nothing. */
  function Relinked(s: Chain, p: Params, mode: Mode, call: Call, a: AccountId, was: Option<Address>)
    : Option<Address>
  {
    if Outcome(s, p, mode, call).Err? then was
    else if call.Link? && call.who == a then p.linkSigner(a, call.signature)
    else if call.Unlink? && call.who == a then None
    else if was.Some? && Unlocks(s, p, call, was.value) then None
    else was
  }

  function LinkStory(now: nat, p: Params, mode: Mode, calls: seq<Call>, a: AccountId): Option<Address> {
    if calls == [] then None
    else
      var (before, last) := (calls[..|calls| - 1], calls[|calls| - 1]);
      Relinked(Run(Genesis(now), p, mode, before), p, mode, last, a, LinkStory(now, p, mode, before, a))
  }

  function LinkOf(s: Chain, a: AccountId): Option<Address> {
    if a in s.links then Some(s.links[a]) else None
  }

  lemma UnlockLinks(s: Chain, u: LockUpdate)
    requires Bijective(s.links, s.linksReverse) && !u.lock
    ensures Affected(s, u).Ok?
    ensures forall a :: LinkOf(Affected(s, u).value, a) ==
                          if a in s.links && s.links[a] == u.sender then None else LinkOf(s, a)
    ensures forall a :: a in Affected(s, u).value.pending <==>
                          a in s.pending || (a in s.links && s.links[a] == u.sender)
  {
    ForcedUnlinkNeverFails(s, u);
    forall a ensures a in s.links && s.links[a] == u.sender <==>
                       u.sender in s.linksReverse && s.linksReverse[u.sender] == a
    {
      assert LinksTo(s.links, a, u.sender) <==> LinkedFrom(s.linksReverse, u.sender, a);
    }
    hide Bijective;
  }

  lemma UpdateLinks(s: Chain, p: Params, mode: Mode, u: LockUpdate, a: AccountId)
    requires Bijective(s.links, s.linksReverse)
    ensures LinkOf(Apply(s, p, mode, Update(u)), a) == Relinked(s, p, mode, Update(u), a, LinkOf(s, a))
  {
    hide LockRefusal;
    if Completes(s, p, u) {
      SpentFrame(s, p, u);
      EffectFrame(VotesSpent(s, p, u), u);
      if !u.lock { UnlockLinks(VotesSpent(s, p, u), u); }
      hide Affected, VotesSpent, Completes;
    } else {
      hide CarriedOut;
    }
  }

  lemma StepLinks(s: Chain, p: Params, mode: Mode, call: Call, a: AccountId)
    requires Bijective(s.links, s.linksReverse)
    ensures LinkOf(Apply(s, p, mode, call), a) == Relinked(s, p, mode, call, a, LinkOf(s, a))
  {
    if call.Update? {
      UpdateLinks(s, p, mode, call.u, a);
      hide Apply, Relinked;
    } else {
      hide LockUpdated, Completes;
    }
  }

  /** After any run an account is linked exactly to the address its last accepted link named, unless it unlinked or that
      address unlocked since; and that address to it. */
  lemma {:induction false} RunLinks(now: nat, p: Params, mode: Mode, calls: seq<Call>, a: AccountId)
    ensures var (s, story) := (Run(Genesis(now), p, mode, calls), LinkStory(now, p, mode, calls, a));
      && (a in s.links <==> story.Some?)
      && (story.Some? ==> s.links[a] == story.value && LinkedFrom(s.linksReverse, story.value, a))
  {
    LinkStoryHolds(now, p, mode, calls, a);
    RunKeepsInv(now, p, mode, calls);
    var s := Run(Genesis(now), p, mode, calls);
    hide Run, LinkStory;
    if a in s.links {
      assert LinksTo(s.links, a, s.links[a]);
    }
  }

  lemma {:induction false} LinkStoryHolds(now: nat, p: Params, mode: Mode, calls: seq<Call>, a: AccountId)
    ensures LinkOf(Run(Genesis(now), p, mode, calls), a) == LinkStory(now, p, mode, calls, a)
  {
    if calls != [] {
      var before := calls[..|calls| - 1];
      LinkStoryHolds(now, p, mode, before, a);
      RunKeepsInv(now, p, mode, before);
      StepLinks(Run(Genesis(now), p, mode, before), p, mode, calls[|calls| - 1], a);
      hide Apply, Relinked, LinkOf, StakesListed, StakersKnown, WithinBudget, LocksFit;
    }
  }

  // ---- Locks ----------------------------------------------------------------------------------

  function Relocked(s: Chain, p: Params, call: Call, e: Address, was: Option<EthLock>): Option<EthLock> {
    if call.Update? && Completes(s, p, call.u) && call.u.sender == e then Some(EthLock(call.u.amount, s.now)) else was
  }

  function LockStory(now: nat, p: Params, mode: Mode, calls: seq<Call>, e: Address): Option<EthLock> {
    if calls == [] then None
    else
      var (before, last) := (calls[..|calls| - 1], calls[|calls| - 1]);
      Relocked(Run(Genesis(now), p, mode, before), p, last, e, LockStory(now, p, mode, before, e))
  }

  function LockOf(s: Chain, e: Address): Option<EthLock> {
    if e in s.locked then Some(s.locked[e]) else None
  }

  lemma StepLocks(s: Chain, p: Params, mode: Mode, call: Call, e: Address)
    requires Bijective(s.links, s.linksReverse)
    ensures LockOf(Apply(s, p, mode, call), e) == Relocked(s, p, call, e, LockOf(s, e))
  {
    if call.Update? && Completes(s, p, call.u) {
      CarryingOut(s, p, call.u);
    }
    hide CarriedOut, Completes, LockRefusal, Bijective;
  }

  /** After any run the lock of an address is the amount and block of the last event of its that was carried out. */
  lemma {:induction false} RunLocks(now: nat, p: Params, mode: Mode, calls: seq<Call>, e: Address)
    ensures LockOf(Run(Genesis(now), p, mode, calls), e) == LockStory(now, p, mode, calls, e)
  {
    if calls != [] {
      var before := calls[..|calls| - 1];
      RunLocks(now, p, mode, before, e);
      RunKeepsInv(now, p, mode, before);
      StepLocks(Run(Genesis(now), p, mode, before), p, mode, calls[|calls| - 1], e);
      hide Apply, Relocked, LockOf, StakesListed, StakersKnown, WithinBudget, LocksFit;
    }
  }

  // ---- Stakes ---------------------------------------------------------------------------------

  /** The call takes from account a its link, or for a lock of less than it uses its usage. */
  predicate Dismisses(s: Chain, p: Params, mode: Mode, call: Call, a: AccountId) {
    && Outcome(s, p, mode, call).Ok?
    && match call
       case Unlink(who, _) => who == a
       case Update(u) =>
         && Completes(s, p, u) && a in s.links && s.links[a] == u.sender
         && (u.lock ==> a in s.usage && u.amount < s.usage[a])
       case _ => false
  }

  /** It was in this block that account a was dismissed. */
  function Leaving(now: nat, p: Params, mode: Mode, calls: seq<Call>, a: AccountId): bool {
    if calls == [] || calls[|calls| - 1].EndBlock? then false
    else
      var (before, last) := (calls[..|calls| - 1], calls[|calls| - 1]);
      Leaving(now, p, mode, before, a) || Dismisses(Run(Genesis(now), p, mode, before), p, mode, last, a)
  }

  lemma UpdatePends(s: Chain, p: Params, mode: Mode, u: LockUpdate, a: AccountId)
    requires Bijective(s.links, s.linksReverse)
    ensures a in Apply(s, p, mode, Update(u)).pending <==> a in s.pending || Dismisses(s, p, mode, Update(u), a)
  {
    hide LockRefusal;
    if Completes(s, p, u) {
      SpentFrame(s, p, u);
      EffectFrame(VotesSpent(s, p, u), u);
      if u.lock { SlashPends(VotesSpent(s, p, u), u, a); } else { UnlockLinks(VotesSpent(s, p, u), u); }
      hide Slashed, ForceUnlinked, VotesSpent, Completes, Bijective;
    } else {
      hide CarriedOut;
    }
  }

  lemma SlashPends(s: Chain, u: LockUpdate, a: AccountId)
    requires Bijective(s.links, s.linksReverse)
    ensures a in Slashed(s, u).pending <==>
              a in s.pending || (a in s.links && s.links[a] == u.sender && a in s.usage && u.amount < s.usage[a])
  {
    assert LinksTo(s.links, a, u.sender) <==> LinkedFrom(s.linksReverse, u.sender, a);
    hide Bijective;
  }

  lemma StepPends(s: Chain, p: Params, mode: Mode, call: Call, a: AccountId)
    requires Bijective(s.links, s.linksReverse)
    ensures a in Apply(s, p, mode, call).pending <==>
              !call.EndBlock? && (a in s.pending || Dismisses(s, p, mode, call, a))
  {
    if call.Update? {
      UpdatePends(s, p, mode, call.u, a);
      hide Apply, Dismisses;
    } else {
      hide LockUpdated, Completes, Bijective;
    }
  }

  /** After any run the accounts whose stakes await the end of the block are those dismissed in it. */
  lemma {:induction false} RunPends(now: nat, p: Params, mode: Mode, calls: seq<Call>, a: AccountId)
    ensures a in Run(Genesis(now), p, mode, calls).pending <==> Leaving(now, p, mode, calls, a)
  {
    if calls != [] {
      var before := calls[..|calls| - 1];
      RunPends(now, p, mode, before, a);
      RunKeepsInv(now, p, mode, before);
      StepPends(Run(Genesis(now), p, mode, before), p, mode, calls[|calls| - 1], a);
      hide Apply, Dismisses, StakesListed, StakersKnown, WithinBudget, LocksFit;
    }
  }

  /** What a call makes of the stake of account a on proto h. */
  function Restaked(s: Chain, p: Params, mode: Mode, call: Call, leaving: bool, h: Hash256, a: AccountId,
                    was: Option<Stake>): Option<Stake>
  {
    if Outcome(s, p, mode, call).Err? then was
    else
      match call
      case StakeOn(who, g, amount, _) => if g == h && p.lockedAccount(who) == a then Some(Stake(amount, s.now)) else was
      case Unstake(who, g, _) => if g == h && who == a then None else was
      case EndBlock => if leaving then None else was
      case _ => was
  }

  function StakeStory(now: nat, p: Params, mode: Mode, calls: seq<Call>, h: Hash256, a: AccountId): Option<Stake> {
    if calls == [] then None
    else
      var (before, last) := (calls[..|calls| - 1], calls[|calls| - 1]);
      Restaked(Run(Genesis(now), p, mode, before), p, mode, last, Leaving(now, p, mode, before, a), h, a,
               StakeStory(now, p, mode, before, h, a))
  }

  function StakeOf(s: Chain, h: Hash256, a: AccountId): Option<Stake> {
    if (h, a) in s.stakes then Some(s.stakes[(h, a)]) else None
  }

  lemma StepStakes(s: Chain, p: Params, mode: Mode, call: Call, h: Hash256, a: AccountId)
    ensures StakeOf(Apply(s, p, mode, call), h, a) == Restaked(s, p, mode, call, a in s.pending, h, a, StakeOf(s, h, a))
  {
    if call.Update? { UpdateShrinks(s, p, call.u); }
    hide LockUpdated;
  }

  /** After any run an account's stake on a proto is the last it was accepted to make there, of that amount at that
      block, unless it took it back, or was dismissed in a block that has ended since. Nobody else's calls matter. */
  lemma {:induction false} RunStakes(now: nat, p: Params, mode: Mode, calls: seq<Call>, h: Hash256, a: AccountId)
    ensures var s := Run(Genesis(now), p, mode, calls);
      && StakeOf(s, h, a) == StakeStory(now, p, mode, calls, h, a)
      && (Lists(s.accountStakes, a, h) <==> StakeStory(now, p, mode, calls, h, a).Some?)
  {
    StakeStoryHolds(now, p, mode, calls, h, a);
    RunKeepsInv(now, p, mode, calls);
    hide Run, StakeStory, Bijective, StakersKnown, WithinBudget, LocksFit;
  }

  lemma {:induction false} StakeStoryHolds(now: nat, p: Params, mode: Mode, calls: seq<Call>, h: Hash256, a: AccountId)
    ensures StakeOf(Run(Genesis(now), p, mode, calls), h, a) == StakeStory(now, p, mode, calls, h, a)
  {
    if calls != [] {
      var before := calls[..|calls| - 1];
      StakeStoryHolds(now, p, mode, before, h, a);
      RunPends(now, p, mode, before, a);
      StepStakes(Run(Genesis(now), p, mode, before), p, mode, calls[|calls| - 1], h, a);
      hide Apply, Restaked, StakeOf, Leaving;
    }
  }

  // ---- Usage as written -----------------------------------------------------------------------

  lemma StepUsage(s: Chain, p: Params, call: Call)
    requires Bijective(s.links, s.linksReverse) && s.usage.Keys == s.links.Keys && UsageZero(s)
    ensures Apply(s, p, AsWritten, call).usage.Keys == Apply(s, p, AsWritten, call).links.Keys
  {
    if call.Update? {
      UpdateUsage(s, p, call.u);
    }
    hide LockUpdated, Bijective;
  }

  lemma UpdateUsage(s: Chain, p: Params, u: LockUpdate)
    requires Bijective(s.links, s.linksReverse) && s.usage.Keys == s.links.Keys && UsageZero(s)
    ensures After(s, LockUpdated(s, p, u)).usage.Keys == After(s, LockUpdated(s, p, u)).links.Keys
  {
    hide LockRefusal;
    if Completes(s, p, u) {
      SpentFrame(s, p, u);
      ForcedUnlinkNeverFails(VotesSpent(s, p, u), u);
      hide VotesSpent, Completes, Bijective;
    } else {
      hide CarriedOut;
    }
  }

  /** As written the accounts with a usage entry are the linked ones; with what is zero of every entry, links are all
      there is to know of usage. */
  lemma {:induction false} UsageIsLinked(now: nat, p: Params, calls: seq<Call>)
    ensures var s := Run(Genesis(now), p, AsWritten, calls); s.usage.Keys == s.links.Keys
  {
    if calls != [] {
      var before := calls[..|calls| - 1];
      UsageIsLinked(now, p, before);
      UsageStaysZero(now, p, before);
      RunKeepsInv(now, p, AsWritten, before);
      StepUsage(Run(Genesis(now), p, AsWritten, before), p, calls[|calls| - 1]);
      hide Apply, UsageZero, StakesListed, StakersKnown, WithinBudget, LocksFit;
    }
  }
}
