/** The promises users of fragments rely on, each a consequence of the run theorems: in runs where no counter overflows
    (`Fits`). */
module FragmentPromises {
  import opened Basics
  import opened FragmentLedger
  import opened FragmentInvariants
  import opened FragmentTheorems

  // ---- Ownership ------------------------------------------------------------------------------

  /** A live instance is in exactly one account's lists, at exactly one place; any other id is in none. */
  lemma SingleOwnership(w: World, k: Key)
    requires Inv(w)
    ensures k in w.fragments <==> exists a :: Lists(w.owners, (k.class_, a), IdOf(k))
    ensures forall a, b :: Lists(w.owners, (k.class_, a), IdOf(k)) && Lists(w.owners, (k.class_, b), IdOf(k)) ==> a == b
    ensures forall a :: Lists(w.owners, (k.class_, a), IdOf(k)) <==> Lists(w.inventory, (a, k.class_), IdOf(k))
    ensures forall a, i, j :: (k.class_, a) in w.owners && 0 <= i < j < |w.owners[(k.class_, a)]| ==>
              w.owners[(k.class_, a)][i] != w.owners[(k.class_, a)][j]
  {
    hide Counted, Calendar, Permitted, CopiesPermitted, DataBijective, DataCarried, DefinitionsIndexed, Supplied;
    forall a ensures Lists(w.owners, (k.class_, a), IdOf(k)) <==> Holds(w.book.holder, a, k) {
      var id := IdOf(k);
      assert Lists(w.owners, (k.class_, a), id) <==> Holds(w.book.holder, a, Key(k.class_, id.edition, id.copy));
    }
    if k in w.fragments {
      assert Holds(w.book.holder, w.book.holder[k], k);
      assert Lists(w.owners, (k.class_, w.book.holder[k]), IdOf(k));
    }
    forall a ensures Lists(w.owners, (k.class_, a), IdOf(k)) <==> Lists(w.inventory, (a, k.class_), IdOf(k)) {
      ListedIsHeld(w, a, k);
    }
  }

  /** Instances of a definition without TRANSFER never change hands, over any run. */
  lemma WithoutTransferNeverMoves(w: World, hs: Hashing, steps: seq<(ProtoView, Call)>, k: Key)
    requires Inv(w) && Fits(w, hs, steps) && k in w.fragments && k in Run(w, hs, steps).fragments
    requires k.class_ in w.definitions && TRANSFER !in w.definitions[k.class_].permissions
    ensures k in w.book.holder && k in Run(w, hs, steps).book.holder
    ensures Run(w, hs, steps).book.holder[k] == w.book.holder[k]
  {
    hide Run, OwnedOnce, Dual, Counted, Calendar, CopiesPermitted, DataBijective, DataCarried, DefinitionsIndexed,
      Supplied;
    RunEvolves(w, hs, steps);
  }

  /** An instance is never allowed more, later in a run, than it was. */
  lemma NeverMoreThanBefore(w: World, hs: Hashing, steps: seq<(ProtoView, Call)>, k: Key)
    requires Inv(w) && Fits(w, hs, steps) && k in w.fragments && k in Run(w, hs, steps).fragments
    ensures Run(w, hs, steps).fragments[k].permissions <= w.fragments[k].permissions
  {
    hide Run, Inv;
    RunEvolves(w, hs, steps);
  }

  /** Once expired an id is gone from every map, for good. */
  lemma ExpiredForGood(w: World, hs: Hashing, steps: seq<(ProtoView, Call)>, k: Key)
    requires Inv(w) && Fits(w, hs, steps) && k in w.book.burned
    ensures k !in Run(w, hs, steps).fragments
    ensures forall a :: !Lists(Run(w, hs, steps).owners, (k.class_, a), IdOf(k))
  {
    var w' := Run(w, hs, steps);
    hide Run, OwnedOnce, Dual, Calendar, Permitted, CopiesPermitted, DataBijective, DataCarried, DefinitionsIndexed,
      Supplied;
    RunEvolves(w, hs, steps);
    RunKeepsInv(w, hs, steps);
    assert k !in w'.fragments.Keys;
    SingleOwnership(w', k);
  }

  // ---- Minting --------------------------------------------------------------------------------

  /** First copies of the q editions after n. */
  function FirstCopies(n: nat, q: nat): seq<Id> {
    seq(q, i requires 0 <= i < q => Id(n + i + 1, 1))
  }

  lemma MintOneFields(w: World, to: AccountId, c: ClassId, inst: Instance)
    ensures var (w', e) := (MintOne(w, to, c, inst), EditionsOf(w, c) + 1);
      && w'.fragments == w.fragments[Key(c, e, 1) := inst] && w'.owners == Append(w.owners, (c, to), Id(e, 1))
      && w'.book.holder == w.book.holder[Key(c, e, 1) := to]
  {
  }

  lemma OneMoreFirst(list: seq<Id>, n: nat, q: nat)
    requires 0 < q
    ensures list + FirstCopies(n, q) == list + FirstCopies(n, q - 1) + [Id(n + q, 1)]
  {
  }

  /** f' is f with the first copies of q editions after n, all given v, and nothing else. */
  ghost predicate Adds<V>(f: map<Key, V>, f': map<Key, V>, c: ClassId, n: nat, q: nat, v: V) {
    && (forall k :: k in f' <==> k in f || MintedBetween(k, c, n, q))
    && (forall k :: k in f' ==> f'[k] == if MintedBetween(k, c, n, q) then v else f[k])
  }

  lemma AddsOneMore<V>(f: map<Key, V>, f': map<Key, V>, c: ClassId, n: nat, q: nat, v: V)
    requires Adds(f, f', c, n, q, v)
    ensures Adds(f, f'[Key(c, n + q + 1, 1) := v], c, n, q + 1, v)
  {
    forall k ensures MintedBetween(k, c, n, q + 1) <==> MintedBetween(k, c, n, q) || k == Key(c, n + q + 1, 1) {
      assert k == Key(k.class_, k.edition, k.copy);
    }
  }

  lemma {:induction false} MintedInstances(w: World, to: AccountId, c: ClassId, inst: Instance, q: nat)
    ensures Adds(w.fragments, MintMany(w, to, c, inst, q).fragments, c, EditionsOf(w, c), q, inst)
    ensures Adds(w.book.holder, MintMany(w, to, c, inst, q).book.holder, c, EditionsOf(w, c), q, to)
  {
    hide MintOne, Adds;
    if q == 0 {
      AddsNone(w.fragments, c, EditionsOf(w, c), inst);
      AddsNone(w.book.holder, c, EditionsOf(w, c), to);
    } else {
      MintedInstances(w, to, c, inst, q - 1);
      var (before, n) := (MintMany(w, to, c, inst, q - 1), EditionsOf(w, c));
      assert EditionsOf(before, c) + 1 == n + q by { MintManyFrame(w, to, c, inst, q - 1); }
      MintOneFields(before, to, c, inst);
      AddsOneMore(w.fragments, before.fragments, c, n, q - 1, inst);
      AddsOneMore(w.book.holder, before.book.holder, c, n, q - 1, to);
      hide EditionsOf, Append;
    }
  }

  lemma AddsNone<V>(f: map<Key, V>, c: ClassId, n: nat, v: V)
    ensures Adds(f, f, c, n, 0, v)
  {
  }

  /** They join the end of the buyer's list, in order. */
  lemma {:induction false} MintedLists(w: World, to: AccountId, c: ClassId, inst: Instance, q: nat)
    ensures Lookup(MintMany(w, to, c, inst, q).owners, (c, to)) ==
              Lookup(w.owners, (c, to)) + FirstCopies(EditionsOf(w, c), q)
  {
    hide MintOne;
    if q != 0 {
      MintedLists(w, to, c, inst, q - 1);
      var (before, n) := (MintMany(w, to, c, inst, q - 1), EditionsOf(w, c));
      assert EditionsOf(before, c) + 1 == n + q by { MintManyFrame(w, to, c, inst, q - 1); }
      MintOneFields(before, to, c, inst);
      AppendLooksUp(before.owners, (c, to), Id(n + q, 1));
      OneMoreFirst(Lookup(w.owners, (c, to)), n, q);
      hide Append, Lookup, FirstCopies, EditionsOf;
    }
  }

  /** No other account's list, of any class, changes. */
  lemma {:induction false} OtherListsStay(w: World, to: AccountId, c: ClassId, inst: Instance, q: nat,
                                          s: (ClassId, AccountId))
    requires s != (c, to)
    ensures var m := MintMany(w, to, c, inst, q).owners; Lookup(m, s) == Lookup(w.owners, s)
  {
    hide MintOne;
    if q != 0 {
      OtherListsStay(w, to, c, inst, q - 1, s);
      MintOneFields(MintMany(w, to, c, inst, q - 1), to, c, inst);
    }
  }

  lemma MintedMaps(w: World, hs: Hashing, to: AccountId, c: ClassId, sale: Option<Sale>, options: BuyOptions,
                   quantity: Unit, expiringAt: Option<nat>, amount: Option<nat>)
    requires MintRefusal(w, hs, c, sale, options, quantity, expiringAt).None?
    ensures c in w.definitions
    ensures var w1 := UnitsTaken(w, c, sale, quantity);
      var m := MintMany(w1, to, c, NewInstance(w, hs, c, options, expiringAt, amount),
                        Passes(EditionsOf(w, c), quantity));
      var w' := Minted(w, hs, to, c, sale, options, quantity, expiringAt, amount).value;
      && w'.fragments == m.fragments && w'.owners == m.owners && w'.book.holder == m.book.holder
      && w1.fragments == w.fragments && w1.owners == w.owners && w1.book == w.book
      && EditionsOf(w1, c) == EditionsOf(w, c) && EditionsOf(w', c) == EndOf(EditionsOf(w, c), quantity)
  {
    hide MintMany, EndOf, Passes;
  }

  /** An accepted mint of q adds exactly the first copies of the next q editions, or of none if the count would leave
      u64: with the permissions of the definition, this block, the hash of the data and the amount, held by the
      receiver, at the end of whose list they come in order. No other list changes, and the count is the sum in u64. */
  lemma MintAdds(w: World, hs: Hashing, to: AccountId, c: ClassId, sale: Option<Sale>, options: BuyOptions,
                 quantity: Unit, expiringAt: Option<nat>, amount: Option<nat>, s: (ClassId, AccountId))
    requires Minted(w, hs, to, c, sale, options, quantity, expiringAt, amount).Ok?
    ensures c in w.definitions
    ensures var w' := Minted(w, hs, to, c, sale, options, quantity, expiringAt, amount).value;
      var n := EditionsOf(w, c);
      var q := if n + quantity < U64 then quantity else 0;
      var data := if options.UniqueData? then Some(hs.blake2(options.data)) else None;
      && Adds(w.fragments, w'.fragments, c, n, q,
              Instance(w.definitions[c].permissions, w.now, data, expiringAt, amount))
      && Adds(w.book.holder, w'.book.holder, c, n, q, to)
      && Lookup(w'.owners, s) == Lookup(w.owners, s) + (if s == (c, to) then FirstCopies(n, q) else [])
      && EditionsOf(w', c) == (n + quantity) % U64
  {
    assert MintRefusal(w, hs, c, sale, options, quantity, expiringAt).None?;
    assert c in w.definitions;
    var (w1, inst) := (UnitsTaken(w, c, sale, quantity), NewInstance(w, hs, c, options, expiringAt, amount));
    EndsWhere(EditionsOf(w, c), quantity);
    var q := Passes(EditionsOf(w, c), quantity);
    MintedMaps(w, hs, to, c, sale, options, quantity, expiringAt, amount);
    hide Passes, Minted, UnitsTaken;
    MintedInstances(w1, to, c, inst, q);
    if s == (c, to) {
      MintedLists(w1, to, c, inst, q);
    } else {
      OtherListsStay(w1, to, c, inst, q, s);
    }
    hide MintMany, Adds, FirstCopies, MintRefusal, Lookup;
  }

  predicate MintedBetween(k: Key, c: ClassId, n: nat, q: nat) {
    k.class_ == c && n < k.edition <= n + q && k.copy == 1
  }

  // ---- Giving a copy --------------------------------------------------------------------------

  /** A copy against its source, the permissions asked for and the expiry asked for: exactly those permissions, the
      source's if none were, and the earlier expiry of the two. */
  predicate CopyOf(source: Instance, copy: Instance, asked: Option<Perms>, until: Option<nat>) {
    && copy.permissions == (if asked.Some? then asked.value else source.permissions)
    && copy.permissions <= source.permissions
    && copy.createdAt == source.createdAt && copy.customData == source.customData && copy.amount == source.amount
    && NoLater(copy.expiringAt, source.expiringAt) && NoLater(copy.expiringAt, until)
    && (copy.expiringAt == source.expiringAt || copy.expiringAt == until)
  }

  predicate NoLater(a: Option<nat>, b: Option<nat>) {
    b.Some? ==> a.Some? && a.value <= b.value
  }

  /** Giving a copyable instance hands out one copy under the next copy number of its edition, with exactly what was
      asked for, at the end of the receiver's list; the source stays as and where it is. */
  lemma GivingCopies(w: World, who: AccountId, key: Key, to: AccountId, asked: Option<Perms>, until: Option<nat>,
                     s: (ClassId, AccountId))
    requires Given(w, who, key, Some(to), asked, until).Ok?
    requires key in w.fragments && COPY in w.fragments[key].permissions
    ensures var w' := Given(w, who, key, Some(to), asked, until).value;
      var k := Key(key.class_, key.edition, (CopiesOf(w, key.class_, key.edition) + 1) % U64);
      && k in w'.fragments && CopyOf(w.fragments[key], w'.fragments[k], asked, until)
      && w'.fragments == w.fragments[k := w'.fragments[k]] && w'.book.holder == w.book.holder[k := to]
      && w'.copies == w.copies[(key.class_, key.edition) := k.copy]
      && Lookup(w'.owners, s) == Lookup(w.owners, s) + (if s == (key.class_, to) then [IdOf(k)] else [])
  {
    hide Scheduled;
  }

  /** The id of that copy, if its number fits, was never issued before; and the giver is the holder. */
  lemma CopyIsNew(w: World, who: AccountId, key: Key, to: AccountId, narrowed: Option<Perms>, expiration: Option<nat>)
    requires Inv(w) && GiveRefusal(w, who, key, Some(to), narrowed, expiration).None?
    requires COPY in w.fragments[key].permissions && CopyFits(w, key)
    ensures Holds(w.book.holder, who, key)
    ensures NextCopy(w, key) !in w.fragments && NextCopy(w, key) !in w.book.burned
  {
  }

  /** Giving any other instance makes none: it gets exactly the permissions asked for, or keeps its own, leaves the
      giver's list and comes last in the receiver's. */
  lemma GivingMoves(w: World, who: AccountId, key: Key, to: AccountId, asked: Option<Perms>, until: Option<nat>,
                    s: (ClassId, AccountId))
    requires Given(w, who, key, Some(to), asked, until).Ok?
    requires key in w.fragments && COPY !in w.fragments[key].permissions
    ensures var (w', item) := (Given(w, who, key, Some(to), asked, until).value, w.fragments[key]);
      var perms := if asked.Some? then asked.value else item.permissions;
      var list := Lookup(w.owners, s);
      && perms <= item.permissions && w'.fragments == w.fragments[key := item.(permissions := perms)]
      && w'.book.holder == w.book.holder[key := to] && w'.copies == w.copies
      && Lookup(w'.owners, s) == (if s == (key.class_, who) then Without(list, IdOf(key)) else list)
                                 + (if s == (key.class_, to) then [IdOf(key)] else [])
  {
  }

  // ---- Expiry ---------------------------------------------------------------------------------

  /** The end of block n removes exactly the instances expiring at n, so none survives its expiry. */
  lemma SweepTakesExactlyTheDue(w: World, k: Key)
    requires Calendar(w.now, w.expirations, w.fragments)
    ensures var w' := NextBlock(w);
      && (k in w'.fragments <==> k in w.fragments && w.fragments[k].expiringAt != Some(w.now))
      && (k in w'.fragments ==> w'.fragments[k] == w.fragments[k])
      && (k in w'.fragments && w.fragments[k].expiringAt.Some? ==> w.now < w.fragments[k].expiringAt.value)
  {
    hide DropAll;
    DropAllTakes(w.(expirations := w.expirations - {w.now}), Lookup(w.expirations, w.now));
    assert Lists(w.expirations, w.now, k) <==> Due(w.fragments, w.now, k);
    if k in w.fragments && w.fragments[k].expiringAt.Some? {
      assert Due(w.fragments, w.fragments[k].expiringAt.value, k);
    }
  }

  /** After it, an account's list names an instance iff it did before and the instance was not due. */
  lemma SweepDelistsExactlyTheDue(w: World, a: AccountId, k: Key)
    requires Inv(w)
    ensures Lists(NextBlock(w).owners, (k.class_, a), IdOf(k)) <==>
              Lists(w.owners, (k.class_, a), IdOf(k)) && w.fragments[k].expiringAt != Some(w.now)
  {
    SweepKeepsInv(w);
    SweepTakesExactlyTheDue(w, k);
    SweepEvolves(w);
    DropAllTakes(w.(expirations := w.expirations - {w.now}), Lookup(w.expirations, w.now));
    ListsIffHolds(w, a, k);
    hide Inv, Calendar;
    ListsIffHolds(NextBlock(w), a, k);
  }

  lemma ListsIffHolds(w: World, a: AccountId, k: Key)
    requires Inv(w)
    ensures Lists(w.owners, (k.class_, a), IdOf(k)) <==> Holds(w.book.holder, a, k)
    ensures Holds(w.book.holder, a, k) ==> k in w.fragments
  {
  }

  // ---- Unique data ----------------------------------------------------------------------------

  /** Live instances of a unique class carry the same data exactly when they are copies of the same edition,
      and that data is recorded under the edition number less one. */
  lemma SameDataSameEdition(w: World, k: Key, j: Key)
    requires Inv(w) && k in w.fragments && j in w.fragments && k.class_ == j.class_ && IsUnique(w.definitions, k.class_)
    ensures w.fragments[k].customData.Some?
    ensures MintedAs(w.uniqueData, k.class_, w.fragments[k].customData.value, k.edition - 1)
    ensures w.fragments[k].customData == w.fragments[j].customData <==> k.edition == j.edition
  {
    assert Issued(w.editions, w.copies, k) && Issued(w.editions, w.copies, j);
    hide OwnedOnce, Dual, Calendar, Counted, Permitted, CopiesPermitted, DefinitionsIndexed, Supplied;
    var c := k.class_;
    assert MintedWith(w.book.datum, c, k.edition - 1, w.book.datum[(c, k.edition - 1)]);
    assert MintedWith(w.book.datum, c, j.edition - 1, w.book.datum[(c, j.edition - 1)]);
  }
}
