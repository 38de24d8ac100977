/** What holds of the fragments pallet in every run, whether or not a counter overflows. */
module FragmentAlways {
  import opened Basics
  import opened FragmentLedger
  import opened FragmentInvariants

  /** No instance is past its expiry, and each that has one is in the calendar under it. */
  ghost predicate Timely(now: nat, expirations: map<nat, seq<Key>>, fragments: map<Key, Instance>) {
    forall k :: k in fragments && fragments[k].expiringAt.Some? ==>
      var b := fragments[k].expiringAt.value; now <= b && Lists(expirations, b, k)
  }

  /** A first copy, or one the definition allows. */
  ghost predicate Copyworthy(definitions: Definitions, k: Key) {
    k.copy == 1 || (k.class_ in definitions && COPY in definitions[k.class_].permissions)
  }

  /** All ids live, expired, or in the calendar are such. */
  ghost predicate AllCopyworthy(definitions: Definitions, fragments: map<Key, Instance>, burned: set<Key>,
                                expirations: map<nat, seq<Key>>)
  {
    && (forall k :: k in fragments ==> Copyworthy(definitions, k))
    && (forall k :: k in burned ==> Copyworthy(definitions, k))
    && (forall b: nat, k: Key :: Lists(expirations, b, k) ==> Copyworthy(definitions, k))
  }

  ghost predicate Always(w: World) {
    && Dual(w.owners, w.inventory)
    && Timely(w.now, w.expirations, w.fragments)
    && Permitted(w.definitions, w.fragments)
    && AllCopyworthy(w.definitions, w.fragments, w.book.burned, w.expirations)
    && DefinitionsIndexed(w.proto2Fragments, w.definitions)
  }

  // ---- An instance stored, over whatever was there --------------------------------------------

  lemma ScheduledLists(expirations: map<nat, seq<Key>>, k: Key, inst: Instance)
    ensures forall b: nat, j: Key ::
              Lists(Scheduled(expirations, k, inst), b, j) <==>
                Lists(expirations, b, j) || (inst.expiringAt == Some(b) && j == k)
  {
    if inst.expiringAt.Some? {
      AppendLists(expirations, inst.expiringAt.value, k);
    }
  }

  lemma StoringKeepsTimely(now: nat, expirations: map<nat, seq<Key>>, fragments: map<Key, Instance>, k: Key,
                           inst: Instance)
    requires Timely(now, expirations, fragments) && (inst.expiringAt.Some? ==> now <= inst.expiringAt.value)
    ensures Timely(now, Scheduled(expirations, k, inst), fragments[k := inst])
  {
    ScheduledLists(expirations, k, inst);
    hide Scheduled, Lists;
  }

  lemma StoringKeepsCopyworthy(definitions: Definitions, fragments: map<Key, Instance>, burned: set<Key>,
                               expirations: map<nat, seq<Key>>, k: Key, inst: Instance)
    requires AllCopyworthy(definitions, fragments, burned, expirations) && Copyworthy(definitions, k)
    ensures AllCopyworthy(definitions, fragments[k := inst], burned, Scheduled(expirations, k, inst))
  {
    ScheduledLists(expirations, k, inst);
    hide Scheduled, Lists, Copyworthy;
  }

  /** The instance may be made under any id its definition allows. */
  ghost predicate Storable(w: World, k: Key, inst: Instance) {
    && k.class_ in w.definitions && inst.permissions <= w.definitions[k.class_].permissions
    && Copyworthy(w.definitions, k)
    && (inst.expiringAt.Some? ==> w.now <= inst.expiringAt.value)
  }

  /** w' is w with an instance stored and listed. */
  ghost predicate Stored(w: World, w': World, to: AccountId, k: Key, inst: Instance) {
    && SameFrame(w, w')
    && w'.fragments == w.fragments[k := inst] && w'.expirations == Scheduled(w.expirations, k, inst)
    && w'.owners == Append(w.owners, (k.class_, to), IdOf(k))
    && w'.inventory == Append(w.inventory, (to, k.class_), IdOf(k))
  }

  lemma StoringKeepsAlways(w: World, w': World, to: AccountId, k: Key, inst: Instance)
    requires Always(w) && Storable(w, k, inst) && Stored(w, w', to, k, inst)
    ensures Always(w')
  {
    hide Dual, Timely, AllCopyworthy, DefinitionsIndexed, Scheduled, Append, Copyworthy;
    GainKeepsDual(w.owners, w.inventory, k.class_, to, IdOf(k));
    StoringKeepsTimely(w.now, w.expirations, w.fragments, k, inst);
    StoringKeepsCopyworthy(w.definitions, w.fragments, w.book.burned, w.expirations, k, inst);
  }

  // ---- mint and buy ---------------------------------------------------------------------------

  lemma MintOneStores(w: World, to: AccountId, c: ClassId, inst: Instance)
    ensures Stored(w, MintOne(w, to, c, inst), to, Key(c, EditionsOf(w, c) + 1, 1), inst)
  {
    hide Append, Scheduled;
  }

  lemma {:induction false} MintManyKeepsAlways(w: World, to: AccountId, c: ClassId, inst: Instance, n: nat)
    requires Always(w) && c in w.definitions && inst.permissions <= w.definitions[c].permissions
    requires inst.expiringAt.Some? ==> w.now <= inst.expiringAt.value
    ensures Always(MintMany(w, to, c, inst, n))
  {
    hide Always, MintOne, Stored;
    if n != 0 {
      MintManyKeepsAlways(w, to, c, inst, n - 1);
      var m := MintMany(w, to, c, inst, n - 1);
      MintManyFrame(w, to, c, inst, n - 1);
      MintOneStores(m, to, c, inst);
      StoringKeepsAlways(m, MintOne(m, to, c, inst), to, Key(c, EditionsOf(m, c) + 1, 1), inst);
    }
  }

  lemma CountsAreApart(w: World, publishing: map<ClassId, Sale>, money: map<Wallet, Balance>)
    requires Always(w)
    ensures Always(w.(publishing := publishing)) && Always(w.(money := money))
  {
    hide Dual, Timely, Permitted, AllCopyworthy, DefinitionsIndexed;
  }

  lemma RecordKeepsAlways(w: World, c: ClassId, data: Option<Hash256>, existing: nat, end: nat)
    requires Always(w)
    ensures Always(Recorded(w, c, data, existing, end))
  {
    hide Dual, Timely, Permitted, AllCopyworthy, DefinitionsIndexed;
  }

  lemma MintKeepsAlways(w: World, hs: Hashing, to: AccountId, c: ClassId, sale: Option<Sale>, options: BuyOptions,
                        quantity: nat, expiringAt: Option<nat>, amount: Option<nat>)
    requires Always(w)
    ensures Always(After(w, Minted(w, hs, to, c, sale, options, quantity, expiringAt, amount)))
  {
    if MintRefusal(w, hs, c, sale, options, quantity, expiringAt).None? {
      NewInstanceMintable(w, hs, c, sale, options, quantity, expiringAt, amount);
      hide MintRefusal, Always, MintMany, Recorded, EndOf, Passes;
      var (n, w1) := (EditionsOf(w, c), UnitsTaken(w, c, sale, quantity));
      var inst := NewInstance(w, hs, c, options, expiringAt, amount);
      CountsAreApart(w, w1.publishing, w.money);
      MintManyKeepsAlways(w1, to, c, inst, Passes(n, quantity));
      RecordKeepsAlways(MintMany(w1, to, c, inst, Passes(n, quantity)), c, inst.customData, n, EndOf(n, quantity));
    }
  }

  lemma BuyKeepsAlways(w: World, hs: Hashing, who: AccountId, c: ClassId, options: BuyOptions, funds: Funds)
    requires Always(w)
    ensures Always(After(w, Bought(w, hs, who, c, options, funds)))
  {
    hide Always, Minted;
    if Bought(w, hs, who, c, options, funds).Ok? {
      BoughtIsMinted(w, hs, who, c, options, funds);
      var sale := w.publishing[c];
      MintKeepsAlways(w, hs, who, c, Some(sale), options, QuantityOf(options), None, sale.amount);
      var m := Minted(w, hs, who, c, Some(sale), options, QuantityOf(options), None, sale.amount).value;
      CountsAreApart(m, m.publishing, Bought(w, hs, who, c, options, funds).value.money);
    }
    hide Bought;
  }

  // ---- give -----------------------------------------------------------------------------------

  lemma AddCopyStores(w: World, to: AccountId, source: Key, inst: Instance)
    ensures Stored(w, AddCopy(w, to, source.class_, source.edition, inst), to, NextCopy(w, source), inst)
  {
    hide Append, Scheduled;
  }

  lemma CopyKeepsAlways(w: World, to: AccountId, source: Key, inst: Instance)
    requires Always(w) && Copyable(w, source, inst)
    ensures Always(AddCopy(w, to, source.class_, source.edition, inst))
  {
    assert Permitted(w.definitions, w.fragments);
    assert Storable(w, NextCopy(w, source), inst);
    hide Always, Storable, Stored, AddCopy, Copyable;
    AddCopyStores(w, to, source, inst);
    StoringKeepsAlways(w, AddCopy(w, to, source.class_, source.edition, inst), to, NextCopy(w, source), inst);
  }

  lemma MoveKeepsAlways(w: World, who: AccountId, k: Key, to: AccountId, perms: Perms)
    requires Always(w) && k in w.fragments && perms <= w.fragments[k].permissions
    ensures Always(Move(w, who, k, to, perms))
  {
    MoveKeepsDual(w.owners, w.inventory, k.class_, who, to, IdOf(k));
    hide Dual, Append, Retain, Copyworthy, DefinitionsIndexed, Lists;
  }

  lemma GiveKeepsAlways(w: World, who: AccountId, key: Key, to: Option<AccountId>, narrowed: Option<Perms>,
                        expiration: Option<nat>)
    requires Always(w)
    ensures Always(After(w, Given(w, who, key, to, narrowed, expiration)))
  {
    if GiveRefusal(w, who, key, to, narrowed, expiration).None? {
      GiveNeedsLive(w, who, key, to, narrowed, expiration);
      var item := w.fragments[key];
      var perms := NarrowedPerms(item, narrowed);
      assert perms <= item.permissions;
      if COPY in item.permissions {
        var inst := item.(permissions := perms, expiringAt := CopyExpiry(item, expiration));
        GivenCopyable(w, who, key, to, narrowed, expiration);
        hide Always, AddCopy, Copyable, GiveRefusal;
        CopyKeepsAlways(w, to.value, key, inst);
      } else {
        hide Always, Move, GiveRefusal;
        MoveKeepsAlways(w, who, key, to.value, perms);
      }
    }
  }

  // ---- The end of a block ---------------------------------------------------------------------

  /** One listing taken from both maps of a pair. */
  lemma UnlistedKeepsDual(owners: OwnerLists, inventory: InventoryLists, c: ClassId, a: AccountId, id: Id)
    requires Dual(owners, inventory)
    ensures Dual(Unlisted(owners, (c, a), id), Unlisted(inventory, (a, c), id))
  {
  }

  lemma DelistedKeepsDual(w: World, k: Key, order: seq<AccountId>)
    requires Dual(w.owners, w.inventory)
    ensures Dual(Delisted(w, k, order).owners, Delisted(w, k, order).inventory)
  {
    var found := FoundLister(w.owners, k, order);
    if found.Some? {
      UnlistedKeepsDual(w.owners, w.inventory, k.class_, found.value, IdOf(k));
    }
    hide Dual, FoundLister, Unlisted;
  }

  lemma {:induction false} DelistAllKeepsDual(w: World, ks: seq<Key>, order: seq<AccountId>)
    requires Dual(w.owners, w.inventory)
    ensures Dual(DelistAll(w, ks, order).owners, DelistAll(w, ks, order).inventory)
  {
    hide Dual, Delisted;
    if ks != [] {
      DelistAllKeepsDual(w, ks[..|ks| - 1], order);
      DelistedKeepsDual(DelistAll(w, ks[..|ks| - 1], order), ks[|ks| - 1], order);
    }
  }

  lemma {:induction false} DelistAllTakes(w: World, ks: seq<Key>, order: seq<AccountId>)
    ensures var w' := DelistAll(w, ks, order);
      && w'.fragments == w.fragments - Elems(ks) && w'.book.burned == w.book.burned + Elems(ks)
      && w'.book.holder == w.book.holder - Elems(ks)
  {
    if ks != [] {
      var (rest, k) := (ks[..|ks| - 1], ks[|ks| - 1]);
      assert ks == rest + [k];
      DelistAllTakes(w, rest, order);
      assert Elems(ks) == Elems(rest) + {k};
      TakenInTurn(w.fragments, Elems(rest), k);
      TakenInTurn(w.book.holder, Elems(rest), k);
      hide Elems, FoundLister, Unlisted;
    }
  }

  lemma SweepKeepsTimely(now: nat, expirations: map<nat, seq<Key>>, fragments: map<Key, Instance>)
    requires Timely(now, expirations, fragments)
    ensures Timely(now + 1, expirations - {now}, fragments - Elems(Lookup(expirations, now)))
  {
  }

  lemma SweepKeepsCopyworthy(definitions: Definitions, now: nat, expirations: map<nat, seq<Key>>,
                             fragments: map<Key, Instance>, burned: set<Key>)
    requires AllCopyworthy(definitions, fragments, burned, expirations)
    ensures var due := Elems(Lookup(expirations, now));
      AllCopyworthy(definitions, fragments - due, burned + due, expirations - {now})
  {
    hide Copyworthy;
    forall k | k in Elems(Lookup(expirations, now)) ensures Copyworthy(definitions, k) {
      assert Lists(expirations, now, k);
    }
    forall b: nat, k: Key | Lists(expirations - {now}, b, k) ensures Copyworthy(definitions, k) {
      assert Lists(expirations, b, k);
    }
  }

  lemma EndBlockKeepsAlways(w: World, hs: Hashing, env: ProtoView, order: seq<AccountId>)
    requires Always(w)
    ensures Always(Apply(w, hs, env, EndBlock(order)))
  {
    BlockEnds(w, hs, env, order);
    var (w1, due) := (w.(expirations := w.expirations - {w.now}), Lookup(w.expirations, w.now));
    hide Dual, Timely, AllCopyworthy, DefinitionsIndexed, Apply, DelistAll, Lookup;
    DelistAllKeepsDual(w1, due, order);
    DelistAllTakes(w1, due, order);
    DelistAllFrame(w1, due, order);
    SweepKeepsTimely(w.now, w.expirations, w.fragments);
    SweepKeepsCopyworthy(w.definitions, w.now, w.expirations, w.fragments, w.book.burned);
  }

  // ---- create, publish, unpublish -------------------------------------------------------------

  lemma CreateKeepsAlways(w: World, hs: Hashing, env: ProtoView, who: AccountId, proto: Hash256, metadata: Metadata,
                          permissions: Perms, unique: Option<UniqueOptions>, maxSupply: Option<Unit>, reserved: bool)
    requires Always(w)
    ensures Always(After(w, Created(w, hs, env, who, proto, metadata, permissions, unique, maxSupply, reserved)))
  {
    var r := Created(w, hs, env, who, proto, metadata, permissions, unique, maxSupply, reserved);
    if r.Ok? {
      var c := hs.classId(proto, metadata);
      NewClassKeepsIndex(w, c, r.value.definitions[c]);
      NewClassKeepsCopyworthy(w.definitions, w.fragments, w.book.burned, w.expirations, c, r.value.definitions[c]);
      hide Dual, Timely, AllCopyworthy, DefinitionsIndexed, Append, ProtoRefusal;
    }
  }

  lemma NewClassKeepsCopyworthy(definitions: Definitions, fragments: map<Key, Instance>, burned: set<Key>,
                                expirations: map<nat, seq<Key>>, c: ClassId, d: Definition)
    requires c !in definitions && AllCopyworthy(definitions, fragments, burned, expirations)
    ensures AllCopyworthy(definitions[c := d], fragments, burned, expirations)
  {
    hide Lists;
  }

  lemma CatalogKeepsAlways(w: World, env: ProtoView, who: AccountId, c: ClassId, sale: Sale)
    requires Always(w)
    ensures Always(After(w, Published(w, env, who, c, sale))) && Always(After(w, Unpublished(w, env, who, c)))
  {
    hide Always, ProtoRefusal;
    CountsAreApart(w, w.publishing[c := sale], w.money);
    CountsAreApart(w, w.publishing - {c}, w.money);
  }

  // ---- Every call, every run ------------------------------------------------------------------

  lemma StepKeepsAlways(w: World, hs: Hashing, env: ProtoView, call: Call)
    requires Always(w)
    ensures Always(Apply(w, hs, env, call))
  {
    hide Always, Created, Published, Unpublished, Minted, Bought, Given, SweptBy, ProtoRefusal;
    match call
    case Create(who, proto, metadata, perms, unique, max, reserved) =>
      CreateKeepsAlways(w, hs, env, who, proto, metadata, perms, unique, max, reserved);
    case Publish(who, c, sale) => CatalogKeepsAlways(w, env, who, c, sale);
    case Unpublish(who, c) => CatalogKeepsAlways(w, env, who, c, Sale(0, None, None, None));
    case Mint(who, c, options, amount) =>
      MintKeepsAlways(w, hs, who, c, None, options, QuantityOf(options), None, amount);
    case Buy(who, c, options, funds) => BuyKeepsAlways(w, hs, who, c, options, funds);
    case Give(who, key, to, narrowed, expiration) => GiveKeepsAlways(w, who, key, to, narrowed, expiration);
    case EndBlock(order) => EndBlockKeepsAlways(w, hs, env, order);
    case Outside(x, balance) => CountsAreApart(w, w.publishing, w.money[x := balance]);
  }

  lemma {:induction false} RunKeepsAlways(w: World, hs: Hashing, steps: seq<(ProtoView, Call)>)
    requires Always(w)
    ensures Always(Run(w, hs, steps))
  {
    hide Always, Apply;
    if steps != [] {
      var (before, last) := (steps[..|steps| - 1], steps[|steps| - 1]);
      RunKeepsAlways(w, hs, before);
      StepKeepsAlways(Run(w, hs, before), hs, last.0, last.1);
    }
  }

  lemma Reached(now: nat, hs: Hashing, steps: seq<(ProtoView, Call)>)
    ensures Always(Run(Genesis(now), hs, steps))
  {
    assert Always(Genesis(now));
    hide Always;
    RunKeepsAlways(Genesis(now), hs, steps);
  }

  /** In every reachable state `Owners` and `Inventory` are the same lists, presence and order included. */
  lemma RunDual(now: nat, hs: Hashing, steps: seq<(ProtoView, Call)>, c: ClassId, a: AccountId)
    ensures var w := Run(Genesis(now), hs, steps);
      && Dual(w.owners, w.inventory)
      && ((c, a) in w.owners <==> (a, c) in w.inventory)
      && ((c, a) in w.owners ==> w.owners[(c, a)] == w.inventory[(a, c)])
  {
    Reached(now, hs, steps);
    hide Run;
  }

  /** In every reachable state no live instance is past its expiry, and each is in the calendar under it. */
  lemma NothingOutlivesItsExpiry(now: nat, hs: Hashing, steps: seq<(ProtoView, Call)>, k: Key)
    ensures var w := Run(Genesis(now), hs, steps);
      k in w.fragments && w.fragments[k].expiringAt.Some? ==>
        w.now <= w.fragments[k].expiringAt.value && Lists(w.expirations, w.fragments[k].expiringAt.value, k)
  {
    Reached(now, hs, steps);
    hide Run;
  }

  /** In every reachable state an instance may do no more than its definition allows. */
  lemma NeverMoreThanDefined(now: nat, hs: Hashing, steps: seq<(ProtoView, Call)>, k: Key)
    ensures var w := Run(Genesis(now), hs, steps);
      k in w.fragments ==>
        k.class_ in w.definitions && w.fragments[k].permissions <= w.definitions[k.class_].permissions
  {
    Reached(now, hs, steps);
    hide Run;
  }

  /** In every reachable state a definition without COPY has first copies only, live or expired. */
  lemma WithoutCopyOnlyFirsts(now: nat, hs: Hashing, steps: seq<(ProtoView, Call)>, k: Key)
    ensures var w := Run(Genesis(now), hs, steps);
      (k in w.fragments || k in w.book.burned) && k.copy != 1 ==>
        k.class_ in w.definitions && COPY in w.definitions[k.class_].permissions
  {
    Reached(now, hs, steps);
    hide Run;
  }

  /** In every reachable state each definition is listed once, under its proto. */
  lemma RunIndexesDefinitions(now: nat, hs: Hashing, steps: seq<(ProtoView, Call)>)
    ensures var w := Run(Genesis(now), hs, steps); DefinitionsIndexed(w.proto2Fragments, w.definitions)
  {
    Reached(now, hs, steps);
    hide Run, DefinitionsIndexed;
  }
}
