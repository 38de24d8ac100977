/** What other people's calls do to an account's list of instances: nothing, and time takes what expires. */
module FragmentLists {
  import opened Basics
  import opened FragmentLedger
  import opened FragmentInvariants
  import opened FragmentTheorems
  import opened FragmentPromises

  /** The ids that are live, in their order. */
  function LiveOnly(list: seq<Id>, c: ClassId, live: set<Key>): seq<Id> {
    if list == [] then []
    else (if KeyOf(c, list[0]) in live then [list[0]] else []) + LiveOnly(list[1..], c, live)
  }

  lemma {:induction false} AllLive(list: seq<Id>, c: ClassId, live: set<Key>)
    requires forall id :: id in list ==> KeyOf(c, id) in live
    ensures LiveOnly(list, c, live) == list
  {
    if list != [] {
      assert list == [list[0]] + list[1..];
      AllLive(list[1..], c, live);
    }
  }

  lemma {:induction false} LiveLater(list: seq<Id>, c: ClassId, then_: set<Key>, later: set<Key>)
    requires forall id :: id in list && KeyOf(c, id) in later ==> KeyOf(c, id) in then_
    ensures LiveOnly(LiveOnly(list, c, then_), c, later) == LiveOnly(list, c, later)
  {
    if list != [] {
      assert list == [list[0]] + list[1..];
      LiveLater(list[1..], c, then_, later);
      var rest := LiveOnly(list[1..], c, then_);
      assert ([list[0]] + rest)[1..] == rest && [] + rest == rest;
      assert LiveOnly(list, c, then_) == if KeyOf(c, list[0]) in then_ then [list[0]] + rest else rest;
      assert [] + LiveOnly(rest, c, later) == LiveOnly(rest, c, later);
    }
  }

  lemma {:induction false} LiveWithout(list: seq<Id>, c: ClassId, live: set<Key>, k: Key)
    ensures LiveOnly(list, c, live - {k}) ==
              if k.class_ == c then Without(LiveOnly(list, c, live), IdOf(k)) else LiveOnly(list, c, live)
  {
    if list != [] {
      LiveWithout(list[1..], c, live, k);
      var rest := LiveOnly(list[1..], c, live);
      assert ([list[0]] + rest)[1..] == rest && [] + rest == rest;
      assert LiveOnly(list, c, live) == if KeyOf(c, list[0]) in live then [list[0]] + rest else rest;
      var rest' := LiveOnly(list[1..], c, live - {k});
      assert [] + rest' == rest';
      assert KeyOf(c, list[0]) == k <==> k.class_ == c && list[0] == IdOf(k);
    }
  }

  /** The account of s may have its list of the class of s changed by the call. */
  predicate Concerns(call: Call, s: (ClassId, AccountId)) {
    match call
    case Mint(who, c, _, _) => (c, who) == s
    case Buy(who, c, _, _) => (c, who) == s
    case Give(who, key, to, _, _) => key.class_ == s.0 && (who == s.1 || to == Some(s.1))
    case _ => false
  }

  /** Same list, nothing gone. */
  ghost predicate Untouched(w: World, w': World, s: (ClassId, AccountId)) {
    Lookup(w'.owners, s) == Lookup(w.owners, s) && w.fragments.Keys <= w'.fragments.Keys
  }

  lemma MintUntouched(w: World, hs: Hashing, to: AccountId, c: ClassId, sale: Option<Sale>, options: BuyOptions,
                      amount: Option<nat>, s: (ClassId, AccountId))
    requires Minted(w, hs, to, c, sale, options, QuantityOf(options), None, amount).Ok? && s != (c, to)
    requires EditionsOf(w, c) + QuantityOf(options) < U64
    ensures Untouched(w, Minted(w, hs, to, c, sale, options, QuantityOf(options), None, amount).value, s)
  {
    MintAdds(w, hs, to, c, sale, options, QuantityOf(options), None, amount, s);
    hide Minted, Lookup, MintedBetween;
  }

  lemma AddCopyUntouched(w: World, to: AccountId, c: ClassId, e: nat, inst: Instance, s: (ClassId, AccountId))
    requires s != (c, to)
    ensures Untouched(w, AddCopy(w, to, c, e, inst), s)
  {
    hide Scheduled;
  }

  lemma MoveUntouched(w: World, who: AccountId, k: Key, to: AccountId, perms: Perms, s: (ClassId, AccountId))
    requires k in w.fragments && s != (k.class_, who) && s != (k.class_, to)
    ensures Untouched(w, Move(w, who, k, to, perms), s)
  {
  }

  lemma GiveUntouched(w: World, who: AccountId, key: Key, to: Option<AccountId>, narrowed: Option<Perms>,
                      expiration: Option<nat>, s: (ClassId, AccountId))
    requires Given(w, who, key, to, narrowed, expiration).Ok?
    requires !(key.class_ == s.0 && (who == s.1 || to == Some(s.1)))
    ensures Untouched(w, Given(w, who, key, to, narrowed, expiration).value, s)
  {
    assert GiveRefusal(w, who, key, to, narrowed, expiration).None?;
    assert key in w.fragments && to.Some?;
    hide GiveRefusal, AddCopy, Move, Untouched;
    var item := w.fragments[key];
    var perms := NarrowedPerms(item, narrowed);
    if COPY in item.permissions {
      AddCopyUntouched(w, to.value, key.class_, key.edition,
                       item.(permissions := perms, expiringAt := CopyExpiry(item, expiration)), s);
    } else {
      MoveUntouched(w, who, key, to.value, perms, s);
    }
  }

  lemma {:induction false} DropAllLists(w: World, ks: seq<Key>, s: (ClassId, AccountId))
    requires forall id :: id in Lookup(w.owners, s) ==> KeyOf(s.0, id) in w.fragments
    ensures Lookup(DropAll(w, ks).owners, s) == LiveOnly(Lookup(w.owners, s), s.0, w.fragments.Keys - Elems(ks))
  {
    var list := Lookup(w.owners, s);
    if ks == [] {
      AllLive(list, s.0, w.fragments.Keys);
      assert w.fragments.Keys - Elems(ks) == w.fragments.Keys;
    } else {
      var (rest, k) := (ks[..|ks| - 1], ks[|ks| - 1]);
      assert ks == rest + [k];
      DropAllLists(w, rest, s);
      LiveWithout(list, s.0, w.fragments.Keys - Elems(rest), k);
      assert w.fragments.Keys - Elems(ks) == w.fragments.Keys - Elems(rest) - {k};
      assert DropAll(w, ks).owners == DropOwners(DropAll(w, rest).owners, k);
      hide DropAll, Elems, LiveOnly;
    }
  }

  lemma ListedIsLive(w: World, s: (ClassId, AccountId))
    requires Inv(w)
    ensures forall id :: id in Lookup(w.owners, s) ==> KeyOf(s.0, id) in w.fragments
  {
    forall id | id in Lookup(w.owners, s) ensures KeyOf(s.0, id) in w.fragments {
      var k := KeyOf(s.0, id);
      assert id == IdOf(k);
      ListsIffHolds(w, s.1, k);
    }
  }

  lemma SweepLists(w: World, s: (ClassId, AccountId))
    requires Inv(w)
    ensures Lookup(NextBlock(w).owners, s) == LiveOnly(Lookup(w.owners, s), s.0, NextBlock(w).fragments.Keys)
  {
    ListedIsLive(w, s);
    hide Inv, DropAll, LiveOnly;
    var (w1, due) := (w.(expirations := w.expirations - {w.now}), Lookup(w.expirations, w.now));
    DropAllLists(w1, due, s);
    DropAllTakes(w1, due);
    assert (w.fragments - Elems(due)).Keys == w.fragments.Keys - Elems(due);
  }

  lemma EndBlockLists(w: World, hs: Hashing, env: ProtoView, order: seq<AccountId>, s: (ClassId, AccountId))
    requires Inv(w)
    ensures var w' := Apply(w, hs, env, EndBlock(order));
      Lookup(w'.owners, s) == LiveOnly(Lookup(w.owners, s), s.0, w'.fragments.Keys)
  {
    InvLists(w);
    BlockEndsSwept(w, hs, env, order);
    SweepLists(w, s);
    hide Apply, NextBlock, Inv, Lookup, LiveOnly;
  }

  lemma StepLists(w: World, hs: Hashing, env: ProtoView, call: Call, s: (ClassId, AccountId))
    requires Inv(w) && !Concerns(call, s) && !(Outcome(w, hs, env, call).Ok? && Overflows(w, call))
    ensures var w' := Apply(w, hs, env, call);
      Lookup(w'.owners, s) == LiveOnly(Lookup(w.owners, s), s.0, w'.fragments.Keys)
  {
    hide Apply, Outcome, Overflows;
    if call.EndBlock? {
      EndBlockLists(w, hs, env, call.order, s);
    } else {
      var w' := Apply(w, hs, env, call);
      OthersUntouched(w, hs, env, call, s);
      ListedIsLive(w, s);
      hide Inv;
      AllLive(Lookup(w.owners, s), s.0, w'.fragments.Keys);
    }
  }

  lemma OthersUntouched(w: World, hs: Hashing, env: ProtoView, call: Call, s: (ClassId, AccountId))
    requires !call.EndBlock? && !Concerns(call, s) && !(Outcome(w, hs, env, call).Ok? && Overflows(w, call))
    ensures Untouched(w, Apply(w, hs, env, call), s)
  {
    hide Minted, Bought, Given, ProtoRefusal, Lookup;
    match call
    case Create(_, _, _, _, _, _, _) =>
    case Publish(_, _, _) =>
    case Unpublish(_, _) =>
    case Mint(who, c, options, amount) =>
      if Outcome(w, hs, env, call).Ok? {
        MintUntouched(w, hs, who, c, None, options, amount, s);
      }
    case Buy(who, c, options, funds) =>
      if Bought(w, hs, who, c, options, funds).Ok? {
        BoughtIsMinted(w, hs, who, c, options, funds);
        MintUntouched(w, hs, who, c, Some(w.publishing[c]), options, w.publishing[c].amount, s);
      }
    case Give(who, key, to, narrowed, expiration) =>
      if Given(w, who, key, to, narrowed, expiration).Ok? {
        GiveUntouched(w, who, key, to, narrowed, expiration, s);
      }
    case Outside(_, _) =>
  }

  /** An account that neither mints, buys, gives nor is given instances of a class during a run ends it with the list it
      had, in order, less what has expired. */
  lemma {:induction false} ListsAreOnesOwn(w: World, hs: Hashing, steps: seq<(ProtoView, Call)>,
                                           s: (ClassId, AccountId))
    requires Inv(w) && Fits(w, hs, steps) && forall i :: 0 <= i < |steps| ==> !Concerns(steps[i].1, s)
    ensures var w' := Run(w, hs, steps);
      Lookup(w'.owners, s) == LiveOnly(Lookup(w.owners, s), s.0, w'.fragments.Keys)
  {
    var list := Lookup(w.owners, s);
    ListedIsLive(w, s);
    if steps == [] {
      AllLive(list, s.0, w.fragments.Keys);
    } else {
      var (before, last) := (steps[..|steps| - 1], steps[|steps| - 1]);
      var (m, w') := (Run(w, hs, before), Run(w, hs, steps));
      ListsAreOnesOwn(w, hs, before, s);
      RunKeepsInv(w, hs, before);
      StepLists(m, hs, last.0, last.1, s);
      hide Apply, Outcome, Overflows;
      forall id | id in list && KeyOf(s.0, id) in w'.fragments ensures KeyOf(s.0, id) in m.fragments {
        LiveBetween(w, hs, steps, KeyOf(s.0, id));
      }
      hide Inv, Run, LiveOnly;
      LiveLater(list, s.0, m.fragments.Keys, w'.fragments.Keys);
    }
  }

  lemma LiveBetween(w: World, hs: Hashing, steps: seq<(ProtoView, Call)>, k: Key)
    requires Inv(w) && steps != [] && Fits(w, hs, steps) && k in w.fragments && k in Run(w, hs, steps).fragments
    ensures k in Run(w, hs, steps[..|steps| - 1]).fragments
  {
    var (before, last) := (steps[..|steps| - 1], steps[|steps| - 1]);
    var (m, w') := (Run(w, hs, before), Run(w, hs, steps));
    RunEvolves(w, hs, before);
    RunKeepsInv(w, hs, before);
    RunKeepsInv(w, hs, steps);
    StepEvolves(m, hs, last.0, last.1);
    hide Run, Apply, Outcome, Overflows, Grows, Tightens, Fits;
    hide OwnedOnce, Dual, Calendar, Counted, Permitted, CopiesPermitted, DataBijective, DataCarried, DefinitionsIndexed;
    LiveThroughout(w, m, w', k);
  }
}
