/** Threshold voting: an event's effect happens on its last needed submission, once. */
module VoteTheorems {
  import opened Basics
  import opened StakeLedger
  import opened StakeTheorems

  /** Submissions needed: a threshold of zero counts as one. */
  function Needed(p: Params): nat {
    if p.threshold <= 1 then 1 else p.threshold
  }

  /** The call submits event d and returns without error. */
  predicate Accepts(s: Chain, p: Params, mode: Mode, call: Call, d: Hash256) {
    call.Update? && p.eventHash(call.u) == d && Outcome(s, p, mode, call).Ok?
  }

  /** The call carries out event d: it changes the sender's lock and closes the vote. */
  predicate CarriesOut(s: Chain, p: Params, mode: Mode, call: Call, d: Hash256) {
    call.Update? && p.eventHash(call.u) == d && Completes(s, p, call.u)
  }

  /** How many submissions of event d a run accepts, and how often it carries d out. */
  function Accepted(s: Chain, p: Params, mode: Mode, calls: seq<Call>, d: Hash256): nat {
    if calls == [] then 0
    else
      var before := calls[..|calls| - 1];
      Accepted(s, p, mode, before, d)
      + (if Accepts(Run(s, p, mode, before), p, mode, calls[|calls| - 1], d) then 1 else 0)
  }

  function TimesCarriedOut(s: Chain, p: Params, mode: Mode, calls: seq<Call>, d: Hash256): nat {
    if calls == [] then 0
    else
      var before := calls[..|calls| - 1];
      TimesCarriedOut(s, p, mode, before, d)
      + (if CarriesOut(Run(s, p, mode, before), p, mode, calls[|calls| - 1], d) then 1 else 0)
  }

  /** The two vote maps against n accepted submissions of event d. */
  ghost predicate Tallied(s: Chain, p: Params, d: Hash256, n: nat) {
    && n <= Needed(p)
    && (d in s.votes <==> 0 < n < Needed(p))
    && (d in s.votes ==> s.votes[d] == n)
    && (d in s.closed <==> n == Needed(p))
  }

  lemma OtherCallsKeepTally(s: Chain, p: Params, mode: Mode, call: Call, d: Hash256)
    requires !call.Update?
    ensures Apply(s, p, mode, call).votes == s.votes && Apply(s, p, mode, call).closed == s.closed
  {
  }

  ghost predicate SameRecords(s: Chain, s': Chain) {
    && s'.votes == s.votes && s'.closed == s.closed && s'.locked == s.locked && s'.now == s.now
    && s'.stakes == s.stakes && s'.accountStakes == s.accountStakes
  }

  /** The effect never fails, and leaves votes, locks and stakes to the code around it;
      a lock touches no link, and after an unlock the sender has none. */
  lemma EffectFrame(s: Chain, u: LockUpdate)
    requires Bijective(s.links, s.linksReverse)
    ensures Affected(s, u).Ok? && SameRecords(s, Affected(s, u).value)
    ensures u.lock ==> Affected(s, u).value.links == s.links && Affected(s, u).value.linksReverse == s.linksReverse
    ensures !u.lock ==> u.sender !in Affected(s, u).value.linksReverse
  {
    ForcedUnlinkNeverFails(s, u);
    hide Bijective;
  }

  /** Carrying an event out sets the sender's lock to the amount submitted and closes the event at this block. */
  lemma CarryingOut(s: Chain, p: Params, u: LockUpdate)
    requires Bijective(s.links, s.linksReverse)
    ensures CarriedOut(s, p, u).Ok?
    ensures var s' := CarriedOut(s, p, u).value;
      && s'.locked == s.locked[u.sender := EthLock(u.amount, s.now)]
      && s'.closed == s.closed[p.eventHash(u) := s.now]
      && s'.votes == VotesSpent(s, p, u).votes
      && s'.stakes == s.stakes && s'.accountStakes == s.accountStakes
  {
    hide Bijective, Affected, VotesSpent;
    SpentFrame(s, p, u);
    EffectFrame(VotesSpent(s, p, u), u);
  }

  lemma CarryingOutTallies(s: Chain, p: Params, u: LockUpdate, d: Hash256, n: nat)
    requires Bijective(s.links, s.linksReverse) && Tallied(s, p, d, n) && Completes(s, p, u)
    ensures CarriedOut(s, p, u).Ok?
    ensures Tallied(CarriedOut(s, p, u).value, p, d, if p.eventHash(u) == d then n + 1 else n)
    ensures p.eventHash(u) == d ==> n + 1 == Needed(p)
  {
    hide Bijective, CarriedOut;
    CarryingOut(s, p, u);
  }

  lemma VoteTallies(s: Chain, p: Params, u: LockUpdate, d: Hash256, n: nat)
    requires Tallied(s, p, d, n) && LockRefusal(s, p, u).None? && !Completes(s, p, u)
    ensures Tallied(Voted(s, p.eventHash(u)), p, d, if p.eventHash(u) == d then n + 1 else n)
    ensures p.eventHash(u) == d ==> n + 1 < Needed(p)
  {
  }

  lemma UpdateTallies(s: Chain, p: Params, u: LockUpdate, d: Hash256, n: nat)
    requires Bijective(s.links, s.linksReverse) && Tallied(s, p, d, n)
    ensures var (s', mine) := (After(s, LockUpdated(s, p, u)), p.eventHash(u) == d);
      && Tallied(s', p, d, if mine && LockUpdated(s, p, u).Ok? then n + 1 else n)
      && (mine && Completes(s, p, u) <==> mine && LockUpdated(s, p, u).Ok? && n + 1 == Needed(p))
  {
    hide Bijective, CarriedOut, Tallied, LockRefusal, Voted;
    if Completes(s, p, u) {
      CarryingOutTallies(s, p, u, d, n);
    } else if LockRefusal(s, p, u).None? {
      VoteTallies(s, p, u, d, n);
    }
  }

  /** Over any interleaving of submissions for any events: while below the threshold the vote entry of an event is the
      number of its accepted submissions; the submission that reaches it carries the event out; none is accepted after,
      so an event is carried out at most once and is never both open and closed. */
  lemma {:induction false} VotesCountSubmissions(now: nat, p: Params, mode: Mode, calls: seq<Call>, d: Hash256)
    ensures var (s, n) := (Run(Genesis(now), p, mode, calls), Accepted(Genesis(now), p, mode, calls, d));
      && Tallied(s, p, d, n)
      && TimesCarriedOut(Genesis(now), p, mode, calls, d) == if n == Needed(p) then 1 else 0
  {
    if calls != [] {
      var (before, call) := (calls[..|calls| - 1], calls[|calls| - 1]);
      var s := Run(Genesis(now), p, mode, before);
      VotesCountSubmissions(now, p, mode, before, d);
      RunKeepsInv(now, p, mode, before);
      var n := Accepted(Genesis(now), p, mode, before, d);
      hide Inv, Linked, Unlinked, LockUpdated, Completes, Staked, Unstaked, Cleaned;
      if call.Update? {
        UpdateTallies(s, p, call.u, d, n);
      } else {
        OtherCallsKeepTally(s, p, mode, call, d);
      }
    }
  }

  /** An event not yet carried out leaves links, locks, usage and stakes alone, whatever it asks for. */
  lemma OnlyCarryingOutActs(s: Chain, p: Params, u: LockUpdate)
    requires !Completes(s, p, u)
    ensures After(s, LockUpdated(s, p, u)) == s.(votes := After(s, LockUpdated(s, p, u)).votes)
  {
  }
}
