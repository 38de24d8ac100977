/** Links, stakes and budgets over whole runs, for the code as written and for its evident intention. */
module StakeTheorems {
  import opened Basics
  import opened StakeLedger

  /** `EVMLinks` and `EVMLinksReverse` are inverse to each other. */
  ghost predicate Bijective(links: map<AccountId, Address>, reverse: map<Address, AccountId>) {
    forall a: AccountId, e: Address :: LinksTo(links, a, e) <==> LinkedFrom(reverse, e, a)
  }

  ghost predicate LinksTo(links: map<AccountId, Address>, a: AccountId, e: Address) {
    a in links && links[a] == e
  }

  ghost predicate LinkedFrom(reverse: map<Address, AccountId>, e: Address, a: AccountId) {
    e in reverse && reverse[e] == a
  }

  /** A stake is recorded for an account exactly when the account lists its proto. */
  ghost predicate StakesListed(stakes: map<(Hash256, AccountId), Stake>, lists: map<AccountId, seq<Hash256>>) {
    forall h: Hash256, a: AccountId :: (h, a) in stakes <==> Lists(lists, a, h)
  }

  /** A staked account has a usage entry or is about to be cleaned up. */
  ghost predicate StakersKnown(stakes: map<(Hash256, AccountId), Stake>, usage: map<AccountId, nat>,
                               pending: seq<AccountId>) {
    forall k :: k in stakes ==> k.1 in usage || k.1 in pending
  }

  /** No account uses more than its Ethereum side has locked. */
  ghost predicate WithinBudget(usage: map<AccountId, nat>, links: map<AccountId, Address>,
                               locked: map<Address, EthLock>) {
    forall a :: a in usage ==> a in links && (links[a] in locked ==> usage[a] <= locked[links[a]].amount)
  }

  ghost predicate LocksFit(locked: map<Address, EthLock>) {
    forall e :: e in locked ==> locked[e].amount < U128
  }

  ghost predicate Inv(s: Chain) {
    && Bijective(s.links, s.linksReverse)
    && StakesListed(s.stakes, s.accountStakes)
    && StakersKnown(s.stakes, s.usage, s.pending)
    && WithinBudget(s.usage, s.links, s.locked)
    && LocksFit(s.locked)
  }

  // ---- Links ----------------------------------------------------------------------------------

  lemma LinkKeepsInv(s: Chain, p: Params, who: AccountId, signature: Bytes)
    requires Inv(s)
    ensures Inv(After(s, Linked(s, p, who, signature)))
  {
    var r := Linked(s, p, who, signature);
    if r.Ok? {
      var e := p.linkSigner(who, signature).value;
      hide StakesListed;
      forall b, f ensures LinksTo(r.value.links, b, f) <==> LinkedFrom(r.value.linksReverse, f, b) {
        assert LinksTo(s.links, b, f) <==> LinkedFrom(s.linksReverse, f, b);
      }
    }
  }

  /** In a bijection the account a key is linked to can always be unlinked from it. */
  lemma ForcedUnlinkNeverFails(s: Chain, u: LockUpdate)
    requires Bijective(s.links, s.linksReverse)
    ensures ForceUnlinked(s, u).Ok?
  {
    if u.sender in s.linksReverse {
      assert LinkedFrom(s.linksReverse, u.sender, s.linksReverse[u.sender]);
    }
  }

  lemma UnlinkKeepsInv(s: Chain, who: AccountId, e: Address)
    requires Inv(s)
    ensures Inv(After(s, Unlinked(s, who, e)))
  {
    var r := Unlinked(s, who, e);
    if r.Ok? {
      hide StakesListed;
      forall b, f ensures LinksTo(r.value.links, b, f) <==> LinkedFrom(r.value.linksReverse, f, b) {
        assert LinksTo(s.links, b, f) <==> LinkedFrom(s.linksReverse, f, b);
      }
    }
  }

  lemma SpentFrame(s: Chain, p: Params, u: LockUpdate)
    ensures var s' := VotesSpent(s, p, u);
      && s'.now == s.now && s'.links == s.links && s'.linksReverse == s.linksReverse && s'.usage == s.usage
      && s'.locked == s.locked && s'.closed == s.closed && s'.pending == s.pending
      && s'.stakes == s.stakes && s'.accountStakes == s.accountStakes
  {
    var votes := s.votes - {p.eventHash(u)};
    assert VotesSpent(s, p, u) == if p.threshold <= 1 then s else s.(votes := votes);
  }

  // ---- Lock updates ---------------------------------------------------------------------------

  lemma CloseKeepsInv(s: Chain, p: Params, u: LockUpdate)
    requires Inv(s) && u.amount < U128
    requires forall a :: a in s.usage && a in s.links && s.links[a] == u.sender ==> s.usage[a] <= u.amount
    ensures Inv(Closed(s, p, u))
  {
  }

  lemma SlashKeepsInv(s: Chain, u: LockUpdate)
    requires Inv(s)
    ensures Inv(Slashed(s, u))
    ensures var s' := Slashed(s, u);
      forall a :: a in s'.usage && a in s'.links && s'.links[a] == u.sender ==> s'.usage[a] <= u.amount
  {
    hide StakesListed;
    var s' := Slashed(s, u);
    forall a | a in s'.usage && a in s'.links && s'.links[a] == u.sender ensures s'.usage[a] <= u.amount {
      assert LinksTo(s.links, a, u.sender) <==> LinkedFrom(s.linksReverse, u.sender, a);
    }
  }

  lemma ForceUnlinkKeepsInv(s: Chain, u: LockUpdate)
    requires Inv(s)
    ensures ForceUnlinked(s, u).Ok?
    ensures var s' := ForceUnlinked(s, u).value;
      Inv(s') && forall a :: a in s'.usage && a in s'.links ==> s'.links[a] != u.sender
  {
    ForcedUnlinkNeverFails(s, u);
    var s' := ForceUnlinked(s, u).value;
    if u.sender in s.linksReverse {
      UnlinkKeepsInv(s, s.linksReverse[u.sender], u.sender);
    }
    forall a | a in s'.usage && a in s'.links ensures s'.links[a] != u.sender {
      assert LinksTo(s'.links, a, u.sender) <==> LinkedFrom(s'.linksReverse, u.sender, a);
    }
  }

  lemma UpdateKeepsInv(s: Chain, p: Params, u: LockUpdate)
    requires Inv(s)
    ensures Inv(After(s, LockUpdated(s, p, u)))
    ensures LockRefusal(s, p, u).None? ==> LockUpdated(s, p, u).Ok?
  {
    hide Bijective, StakesListed, StakersKnown, WithinBudget, LocksFit, Slashed, ForceUnlinked;
    if Completes(s, p, u) {
      var counted := VotesSpent(s, p, u);
      if u.lock {
        SlashKeepsInv(counted, u);
        CloseKeepsInv(Slashed(counted, u), p, u);
      } else {
        ForceUnlinkKeepsInv(counted, u);
        CloseKeepsInv(ForceUnlinked(counted, u).value, p, u);
      }
    }
  }

  // ---- Stakes ---------------------------------------------------------------------------------

  /** The subtraction in `stake` never wraps, because usage is within the budget. */
  lemma StakeNeverUnderflows(s: Chain, a: AccountId)
    requires Inv(s) && a in s.usage && a in s.links && s.links[a] in s.locked
    ensures s.usage[a] <= s.locked[s.links[a]].amount
    ensures WrappingSub(s.locked[s.links[a]].amount, s.usage[a]) == s.locked[s.links[a]].amount - s.usage[a]
  {
  }

  lemma StakeKeepsInv(s: Chain, p: Params, mode: Mode, who: AccountId, h: Hash256, amount: nat, protos: set<Hash256>)
    requires Inv(s)
    ensures Inv(After(s, Staked(s, p, mode, who, h, amount, protos)))
  {
  }

  lemma UnstakeKeepsInv(s: Chain, p: Params, mode: Mode, a: AccountId, h: Hash256, protos: set<Hash256>)
    requires Inv(s)
    ensures Inv(After(s, Unstaked(s, p, mode, a, h, protos)))
  {
    hide Bijective;
    RetainLists(s.accountStakes, a, h);
  }

  lemma CleanKeepsInv(s: Chain)
    requires Inv(s)
    ensures Inv(Cleaned(s).(now := s.now + 1))
  {
  }

  lemma StepKeepsInv(s: Chain, p: Params, mode: Mode, call: Call)
    requires Inv(s)
    ensures Inv(Apply(s, p, mode, call))
  {
    hide Inv, Linked, Unlinked, LockUpdated, Staked, Unstaked, Cleaned;
    match call
    case Link(who, signature) => LinkKeepsInv(s, p, who, signature);
    case Unlink(who, key) => UnlinkKeepsInv(s, who, key);
    case Update(u) => UpdateKeepsInv(s, p, u);
    case StakeOn(who, h, amount, protos) => StakeKeepsInv(s, p, mode, who, h, amount, protos);
    case Unstake(who, h, protos) => UnstakeKeepsInv(s, p, mode, who, h, protos);
    case EndBlock => CleanKeepsInv(s);
  }

  lemma {:induction false} RunKeepsInv(now: nat, p: Params, mode: Mode, calls: seq<Call>)
    ensures Inv(Run(Genesis(now), p, mode, calls))
  {
    if calls != [] {
      hide Inv, Apply;
      RunKeepsInv(now, p, mode, calls[..|calls| - 1]);
      StepKeepsInv(Run(Genesis(now), p, mode, calls[..|calls| - 1]), p, mode, calls[|calls| - 1]);
    }
  }
}
