/** The sweep as the code has it against deleting what is due: exactly when the two are the same. */
module FragmentSweep {
  import opened Basics
  import opened FragmentLedger
  import opened FragmentInvariants
  import opened FragmentAlways

  // ---- Deleting is filtering ------------------------------------------------------------------

  /** The ids that are not gone, in their order. */
  function Purged(list: seq<Id>, c: ClassId, gone: set<Key>): seq<Id> {
    if list == [] then []
    else (if KeyOf(c, list[0]) in gone then [] else [list[0]]) + Purged(list[1..], c, gone)
  }

  function PurgeAll(owners: OwnerLists, gone: set<Key>): OwnerLists {
    map s | s in owners :: Purged(owners[s], s.0, gone)
  }

  lemma {:induction false} PurgedIffAbsent(list: seq<Id>, c: ClassId, gone: set<Key>)
    ensures |Purged(list, c, gone)| <= |list|
    ensures Purged(list, c, gone) == list <==> forall id :: id in list ==> KeyOf(c, id) !in gone
  {
    if list != [] {
      assert list == [list[0]] + list[1..];
      PurgedIffAbsent(list[1..], c, gone);
      var rest := Purged(list[1..], c, gone);
      assert [] + rest == rest && ([list[0]] + rest)[1..] == rest;
    }
  }

  lemma {:induction false} PurgedWithout(list: seq<Id>, c: ClassId, gone: set<Key>, k: Key)
    ensures Purged(list, c, gone + {k}) ==
              if k.class_ == c then Without(Purged(list, c, gone), IdOf(k)) else Purged(list, c, gone)
  {
    if list != [] {
      PurgedWithout(list[1..], c, gone, k);
      var (rest, rest') := (Purged(list[1..], c, gone), Purged(list[1..], c, gone + {k}));
      assert ([list[0]] + rest)[1..] == rest && [] + rest == rest && [] + rest' == rest';
      assert Purged(list, c, gone) == if KeyOf(c, list[0]) in gone then rest else [list[0]] + rest;
      assert KeyOf(c, list[0]) == k <==> k.class_ == c && list[0] == IdOf(k);
    }
  }

  lemma {:induction false} PurgedRemoval(list: seq<Id>, i: nat, c: ClassId, gone: set<Key>)
    requires i < |list| && KeyOf(c, list[i]) in gone
    ensures Purged(RemoveAt(list, i), c, gone) == Purged(list, c, gone)
  {
    if i == 0 {
      assert RemoveAt(list, 0) == list[1..] && [] + Purged(list[1..], c, gone) == Purged(list[1..], c, gone);
    } else {
      PurgedRemoval(list[1..], i - 1, c, gone);
      assert RemoveAt(list, i) == [list[0]] + RemoveAt(list[1..], i - 1);
      assert RemoveAt(list, i)[1..] == RemoveAt(list[1..], i - 1);
    }
  }

  lemma DropPurges(owners: OwnerLists, gone: set<Key>, k: Key)
    ensures DropOwners(PurgeAll(owners, gone), k) == PurgeAll(owners, gone + {k})
  {
    forall s | s in owners ensures DropOwners(PurgeAll(owners, gone), k)[s] == PurgeAll(owners, gone + {k})[s] {
      PurgedWithout(owners[s], s.0, gone, k);
    }
    hide Purged, Without;
  }

  lemma {:induction false} DropAllPurges(w: World, ks: seq<Key>)
    ensures DropAll(w, ks).owners == PurgeAll(w.owners, Elems(ks))
  {
    if ks == [] {
      assert Elems(ks) == {};
      forall s | s in w.owners ensures Purged(w.owners[s], s.0, {}) == w.owners[s] {
        PurgedIffAbsent(w.owners[s], s.0, {});
      }
    } else {
      var (rest, k) := (ks[..|ks| - 1], ks[|ks| - 1]);
      assert ks == rest + [k];
      DropAllPurges(w, rest);
      DropPurges(w.owners, Elems(rest), k);
      assert Elems(ks) == Elems(rest) + {k};
      assert DropAll(w, ks).owners == DropOwners(DropAll(w, rest).owners, k);
    }
  }

  /** Taking listings of what is gone makes no difference to what is left without it. */
  lemma DelistPurges(w: World, k: Key, order: seq<AccountId>, gone: set<Key>)
    requires k in gone
    ensures PurgeAll(Delisted(w, k, order).owners, gone) == PurgeAll(w.owners, gone)
  {
    FoundIsLister(w.owners, k, order);
    var found := FoundLister(w.owners, k, order);
    hide FoundLister;
    if found.Some? {
      var s := (k.class_, found.value);
      var i := Position(w.owners[s], IdOf(k)).value;
      PurgedRemoval(w.owners[s], i, k.class_, gone);
    }
    hide Purged;
  }

  lemma {:induction false} DelistAllPurges(w: World, ks: seq<Key>, order: seq<AccountId>, gone: set<Key>)
    requires Elems(ks) <= gone
    ensures PurgeAll(DelistAll(w, ks, order).owners, gone) == PurgeAll(w.owners, gone)
  {
    if ks != [] {
      var (rest, k) := (ks[..|ks| - 1], ks[|ks| - 1]);
      assert ks == rest + [k];
      assert Elems(ks) == Elems(rest) + {k};
      DelistAllPurges(w, rest, order, gone);
      DelistPurges(DelistAll(w, rest, order), k, order, gone);
      hide PurgeAll, Delisted, Elems;
    }
  }

  // ---- How often an id is listed --------------------------------------------------------------

  ghost function Total(owners: OwnerLists, ss: set<(ClassId, AccountId)>, id: Id): nat
    requires ss <= owners.Keys
  {
    if ss == {} then 0 else
      var s :| s in ss;
      multiset(owners[s])[id] + Total(owners, ss - {s}, id)
  }

  ghost function ListsOf(owners: OwnerLists, c: ClassId): set<(ClassId, AccountId)> {
    set s | s in owners.Keys && s.0 == c
  }

  /** In all lists of its class together. */
  ghost function Listings(owners: OwnerLists, k: Key): nat {
    Total(owners, ListsOf(owners, k.class_), IdOf(k))
  }

  lemma {:induction false} TotalTakes(owners: OwnerLists, ss: set<(ClassId, AccountId)>, id: Id,
                                      s: (ClassId, AccountId))
    requires ss <= owners.Keys && s in ss
    ensures Total(owners, ss, id) == multiset(owners[s])[id] + Total(owners, ss - {s}, id)
    decreases |ss|
  {
    var t :| t in ss && Total(owners, ss, id) == multiset(owners[t])[id] + Total(owners, ss - {t}, id);
    if t != s {
      TotalTakes(owners, ss - {t}, id, s);
      TotalTakes(owners, ss - {s}, id, t);
      assert ss - {t} - {s} == ss - {s} - {t};
    }
  }

  lemma {:induction false} TotalAgrees(owners: OwnerLists, owners': OwnerLists, ss: set<(ClassId, AccountId)>, id: Id)
    requires ss <= owners.Keys && ss <= owners'.Keys
    requires forall s :: s in ss ==> multiset(owners'[s])[id] == multiset(owners[s])[id]
    ensures Total(owners', ss, id) == Total(owners, ss, id)
    decreases |ss|
  {
    if ss != {} {
      var s :| s in ss;
      TotalTakes(owners, ss, id, s);
      TotalTakes(owners', ss, id, s);
      TotalAgrees(owners, owners', ss - {s}, id);
    }
  }

  lemma {:induction false} TotalNone(owners: OwnerLists, ss: set<(ClassId, AccountId)>, id: Id)
    requires ss <= owners.Keys
    ensures Total(owners, ss, id) == 0 <==> forall s :: s in ss ==> id !in owners[s]
    decreases |ss|
  {
    if ss != {} {
      var s :| s in ss;
      TotalTakes(owners, ss, id, s);
      TotalNone(owners, ss - {s}, id);
    }
  }

  lemma ListingsAtLeast(owners: OwnerLists, k: Key, a: AccountId)
    requires (k.class_, a) in owners
    ensures multiset(owners[(k.class_, a)])[IdOf(k)] <= Listings(owners, k)
  {
    TotalTakes(owners, ListsOf(owners, k.class_), IdOf(k), (k.class_, a));
  }

  /** One listing taken: of that id one less, of every other as many. */
  lemma UnlistedCounts(owners: OwnerLists, k: Key, a: AccountId, j: Key)
    requires (k.class_, a) in owners && IdOf(k) in owners[(k.class_, a)]
    ensures Listings(owners, k) > 0
    ensures Listings(Unlisted(owners, (k.class_, a), IdOf(k)), j) == Listings(owners, j) - (if j == k then 1 else 0)
  {
    var s := (k.class_, a);
    var (list, i) := (owners[s], Position(owners[s], IdOf(k)).value);
    var owners' := Unlisted(owners, s, IdOf(k));
    assert list == list[..i] + [list[i]] + list[i + 1..];
    assert owners' == owners[s := RemoveAt(list, i)];
    assert multiset(RemoveAt(list, i)) == multiset(list) - multiset{IdOf(k)};
    hide Unlisted;
    ListingsAtLeast(owners, k, a);
    var (ss, id) := (ListsOf(owners, j.class_), IdOf(j));
    assert ListsOf(owners', j.class_) == ss;
    if j.class_ == k.class_ {
      TotalTakes(owners, ss, id, s);
      TotalTakes(owners', ss, id, s);
      TotalAgrees(owners, owners', ss - {s}, id);
      assert j == k <==> id == IdOf(k);
    } else {
      TotalAgrees(owners, owners', ss, id);
    }
  }

  lemma DelistedCounts(w: World, k: Key, order: seq<AccountId>, j: Key)
    ensures Listings(Delisted(w, k, order).owners, j) ==
              if j == k then SaturatingSub(Listings(w.owners, k), 1) else Listings(w.owners, j)
  {
    FoundIsLister(w.owners, k, order);
    var found := FoundLister(w.owners, k, order);
    hide FoundLister, Unlisted;
    if found.Some? {
      UnlistedCounts(w.owners, k, found.value, j);
    } else {
      TotalNone(w.owners, ListsOf(w.owners, k.class_), IdOf(k));
    }
  }

  lemma {:induction false} DelistAllCounts(w: World, ks: seq<Key>, order: seq<AccountId>, j: Key)
    ensures Listings(DelistAll(w, ks, order).owners, j) == SaturatingSub(Listings(w.owners, j), multiset(ks)[j])
  {
    if ks != [] {
      var (rest, k) := (ks[..|ks| - 1], ks[|ks| - 1]);
      assert ks == rest + [k];
      DelistAllCounts(w, rest, order, j);
      DelistedCounts(DelistAll(w, rest, order), k, order, j);
      hide Delisted, Listings;
    }
  }

  // ---- Exactly when the sweep is the deletion -------------------------------------------------

  lemma PurgedIffUnlisted(owners: OwnerLists, gone: set<Key>)
    ensures PurgeAll(owners, gone) == owners <==> forall k :: k in gone ==> Listings(owners, k) == 0
  {
    forall k ensures Listings(owners, k) == 0 <==>
      forall s :: s in owners && s.0 == k.class_ ==> IdOf(k) !in owners[s] {
      TotalNone(owners, ListsOf(owners, k.class_), IdOf(k));
    }
    forall s | s in owners
      ensures Purged(owners[s], s.0, gone) == owners[s] <==> forall id :: id in owners[s] ==> KeyOf(s.0, id) !in gone
    {
      PurgedIffAbsent(owners[s], s.0, gone);
    }
    hide Purged, Listings;
    if forall k :: k in gone ==> Listings(owners, k) == 0 {
      forall s, id | s in owners && id in owners[s] ensures KeyOf(s.0, id) !in gone {
        assert IdOf(KeyOf(s.0, id)) == id;
      }
    } else {
      var k :| k in gone && Listings(owners, k) != 0;
      var s :| s in owners && s.0 == k.class_ && IdOf(k) in owners[s];
      assert KeyOf(s.0, IdOf(k)) == k;
      assert PurgeAll(owners, gone)[s] != owners[s];
    }
  }

  /** No due id is listed more often than the calendar names it. */
  ghost predicate WithinCalendar(owners: OwnerLists, due: seq<Key>) {
    forall k :: k in due ==> Listings(owners, k) <= multiset(due)[k]
  }

  lemma DelistAllIsDropAllIff(w: World, ks: seq<Key>, order: seq<AccountId>)
    ensures DelistAll(w, ks, order).owners == DropAll(w, ks).owners <==> WithinCalendar(w.owners, ks)
  {
    var owners' := DelistAll(w, ks, order).owners;
    DropAllPurges(w, ks);
    DelistAllPurges(w, ks, order, Elems(ks));
    PurgedIffUnlisted(owners', Elems(ks));
    forall k ensures Listings(owners', k) == SaturatingSub(Listings(w.owners, k), multiset(ks)[k]) {
      DelistAllCounts(w, ks, order, k);
    }
    hide PurgeAll, Listings, DelistAll, DropAll;
  }

  lemma {:induction false} DropAllKeepsDual(w: World, ks: seq<Key>)
    requires Dual(w.owners, w.inventory)
    ensures Dual(DropAll(w, ks).owners, DropAll(w, ks).inventory)
  {
    hide Dual, DropOwners, DropInventory;
    if ks != [] {
      DropAllKeepsDual(w, ks[..|ks| - 1]);
      var m := DropAll(w, ks[..|ks| - 1]);
      DropKeepsDual(m.owners, m.inventory, ks[|ks| - 1]);
    }
  }

  /** One of a pair of maps determines the other. */
  lemma DualDetermines(owners: OwnerLists, inventory: InventoryLists, inventory': InventoryLists)
    requires Dual(owners, inventory) && Dual(owners, inventory')
    ensures inventory == inventory'
  {
    forall t ensures t in inventory <==> t in inventory' {
      assert (t.1, t.0) in owners <==> (t.0, t.1) in inventory;
      assert (t.1, t.0) in owners <==> (t.0, t.1) in inventory';
      assert t == (t.0, t.1);
    }
    forall t | t in inventory ensures inventory[t] == inventory'[t] {
      assert t == (t.0, t.1) && (t.1, t.0) in owners;
    }
  }

  /** Where the two maps are the same lists, as they are in every run, the sweep deletes what is due, from both and in
      whatever order it looks, exactly if no due id is listed more often than the calendar names it. */
  lemma SweepIsDeletionIff(w: World, order: seq<AccountId>)
    requires Dual(w.owners, w.inventory)
    ensures SweptBy(w, order) == Swept(w) <==> WithinCalendar(w.owners, Lookup(w.expirations, w.now))
    ensures SweptBy(w, order).owners == Swept(w).owners <==> SweptBy(w, order).inventory == Swept(w).inventory
  {
    var (w1, due) := (w.(expirations := w.expirations - {w.now}), Lookup(w.expirations, w.now));
    var (s, d) := (DelistAll(w1, due, order), DropAll(w1, due));
    DelistAllIsDropAllIff(w1, due, order);
    DelistAllTakes(w1, due, order);
    DelistAllFrame(w1, due, order);
    DropAllTakes(w1, due);
    DelistAllKeepsDual(w1, due, order);
    DropAllKeepsDual(w1, due);
    hide DelistAll, DropAll, Dual, WithinCalendar;
    if s.owners == d.owners {
      DualDetermines(s.owners, s.inventory, d.inventory);
    }
    if s.inventory == d.inventory {
      DualDeterminesOwners(s.owners, d.owners, s.inventory);
    }
  }

  lemma DualDeterminesOwners(owners: OwnerLists, owners': OwnerLists, inventory: InventoryLists)
    requires Dual(owners, inventory) && Dual(owners', inventory)
    ensures owners == owners'
  {
    forall t ensures t in owners <==> t in owners' {
      assert (t.0, t.1) in owners <==> (t.1, t.0) in inventory;
      assert (t.0, t.1) in owners' <==> (t.1, t.0) in inventory;
      assert t == (t.0, t.1);
    }
    forall t | t in owners ensures owners[t] == owners'[t] {
      assert t == (t.0, t.1) && (t.1, t.0) in inventory;
    }
  }

  /** So at every block end of every run. */
  lemma RunSweepIsDeletionIff(now: nat, hs: Hashing, steps: seq<(ProtoView, Call)>, env: ProtoView,
                              order: seq<AccountId>)
    ensures var w := Run(Genesis(now), hs, steps);
      Apply(w, hs, env, EndBlock(order)) == NextBlock(w) <==>
        WithinCalendar(w.owners, Lookup(w.expirations, w.now))
  {
    var w := Run(Genesis(now), hs, steps);
    Reached(now, hs, steps);
    assert Dual(w.owners, w.inventory);
    SweepIsDeletionIff(w, order);
    BlockEnds(w, hs, env, order);
    SweptByFrame(w, order);
    SweptFrame(w);
    hide Run, Apply, SweptBy, Swept, WithinCalendar, Always;
  }

  lemma SweptFrame(w: World)
    ensures Swept(w).now == w.now
  {
    DropAllTakes(w.(expirations := w.expirations - {w.now}), Lookup(w.expirations, w.now));
    hide DropAll;
  }
}
