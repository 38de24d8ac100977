/** What the storage maps of the fragments pallet agree on, and that every call and every block end keeps it. */
module FragmentInvariants {
  import opened Basics
  import opened FragmentLedger

  type OwnerLists = map<(ClassId, AccountId), seq<Id>>
  type InventoryLists = map<(AccountId, ClassId), seq<Id>>
  type Definitions = map<ClassId, Definition>
  type Counts = map<(ClassId, nat), nat>

  /** `Owners` lists every live instance exactly once, under its one holder, and nothing else. */
  ghost predicate OwnedOnce(owners: OwnerLists, holder: map<Key, AccountId>) {
    && NoDups(owners)
    && forall c: ClassId, a: AccountId, id: Id ::
         Lists(owners, (c, a), id) <==> Holds(holder, a, Key(c, id.edition, id.copy))
  }

  ghost predicate Holds(holder: map<Key, AccountId>, a: AccountId, k: Key) {
    k in holder && holder[k] == a
  }

  /** `Inventory` is `Owners` with its two keys swapped, absent entries and the order of ids included. */
  ghost predicate Dual(owners: OwnerLists, inventory: InventoryLists) {
    forall c, a ::
      && ((c, a) in owners <==> (a, c) in inventory)
      && ((c, a) in owners ==> owners[(c, a)] == inventory[(a, c)])
  }

  /** The counters have issued id k. */
  ghost predicate Issued(editions: map<ClassId, nat>, copies: Counts, k: Key) {
    && 1 <= k.edition <= CountOf(editions, k.class_)
    && (k.class_, k.edition) in copies
    && 1 <= k.copy <= copies[(k.class_, k.edition)]
  }

  /** Every edition issued has a copy count, and every issued id is live or expired, never both; there are no others. */
  ghost predicate Counted(editions: map<ClassId, nat>, copies: Counts, live: set<Key>, burned: set<Key>) {
    && (forall c: ClassId, e: nat :: (c, e) in copies <==> 1 <= e <= CountOf(editions, c))
    && (forall k :: k in live || k in burned <==> Issued(editions, copies, k))
    && live !! burned
  }

  /** `Expirations` lists an id under a block, once, iff the live instance expires there; no such block is past. */
  ghost predicate Calendar(now: nat, expirations: map<nat, seq<Key>>, fragments: map<Key, Instance>) {
    && NoDups(expirations)
    && (forall b: nat :: b in expirations ==> now <= b)
    && forall b: nat, k: Key :: Lists(expirations, b, k) <==> Due(fragments, b, k)
  }

  ghost predicate Due(fragments: map<Key, Instance>, b: nat, k: Key) {
    k in fragments && fragments[k].expiringAt == Some(b)
  }

  /** No instance may do more than its definition allows. */
  ghost predicate Permitted(definitions: Definitions, fragments: map<Key, Instance>) {
    forall k :: k in fragments ==>
      k.class_ in definitions && fragments[k].permissions <= definitions[k.class_].permissions
  }

  /** Only a definition with COPY has second copies. */
  ghost predicate CopiesPermitted(definitions: Definitions, copies: Counts) {
    forall c: ClassId, e: nat :: (c, e) in copies && 1 < copies[(c, e)] ==>
      c in definitions && COPY in definitions[c].permissions
  }

  ghost predicate IsUnique(definitions: Definitions, c: ClassId) {
    c in definitions && definitions[c].unique.Some?
  }

  /** For a unique class, `UniqueData2Edition` and the data of editions 0.. are inverse to each other. */
  ghost predicate DataBijective(definitions: Definitions, editions: map<ClassId, nat>,
                                uniqueData: map<(ClassId, Hash256), nat>, datum: map<(ClassId, nat), Hash256>)
  {
    && (forall c: ClassId, h: Hash256, e: nat :: MintedAs(uniqueData, c, h, e) <==> MintedWith(datum, c, e, h))
    && (forall c: ClassId, e: nat :: (c, e) in datum <==> IsUnique(definitions, c) && e < CountOf(editions, c))
  }

  ghost predicate MintedAs(uniqueData: map<(ClassId, Hash256), nat>, c: ClassId, h: Hash256, e: nat) {
    (c, h) in uniqueData && uniqueData[(c, h)] == e
  }

  ghost predicate MintedWith(datum: map<(ClassId, nat), Hash256>, c: ClassId, e: nat, h: Hash256) {
    (c, e) in datum && datum[(c, e)] == h
  }

  /** A live instance of a unique class carries the data of its edition; other instances carry none. */
  ghost predicate DataCarried(definitions: Definitions, datum: map<(ClassId, nat), Hash256>,
                              fragments: map<Key, Instance>) {
    forall k :: k in fragments ==> fragments[k].customData == RightData(definitions, datum, k)
  }

  ghost function RightData(definitions: Definitions, datum: map<(ClassId, nat), Hash256>, k: Key): Option<Hash256> {
    if IsUnique(definitions, k.class_) && 1 <= k.edition && (k.class_, k.edition - 1) in datum
    then Some(datum[(k.class_, k.edition - 1)]) else None
  }

  /** Sales are of known classes; a scarce class is sold in a limited quantity and never beyond twice its supply. */
  ghost predicate Supplied(definitions: Definitions, editions: map<ClassId, nat>, publishing: map<ClassId, Sale>) {
    && editions.Keys <= definitions.Keys
    && publishing.Keys <= definitions.Keys
    && forall c :: c in definitions && definitions[c].maxSupply.Some? ==>
         && (c in publishing ==> publishing[c].unitsLeft.Some?)
         && SupplyFits(definitions[c].maxSupply.value, CountOf(editions, c), UnitsLeft(publishing, c))
  }

  ghost predicate SupplyFits(max: nat, minted: nat, unitsLeft: nat) {
    unitsLeft <= max && minted + unitsLeft <= 2 * max
  }

  ghost predicate DefinitionsIndexed(p2f: map<Hash256, seq<ClassId>>, definitions: Definitions) {
    && NoDups(p2f)
    && forall p, c :: Lists(p2f, p, c) <==> c in definitions && definitions[c].protoHash == p
  }

  /** All of it but the supply. */
  ghost predicate Core(w: World) {
    && OwnedOnce(w.owners, w.book.holder)
    && w.book.holder.Keys == w.fragments.Keys
    && Dual(w.owners, w.inventory)
    && Counted(w.editions, w.copies, w.fragments.Keys, w.book.burned)
    && Calendar(w.now, w.expirations, w.fragments)
    && Permitted(w.definitions, w.fragments)
    && CopiesPermitted(w.definitions, w.copies)
    && DataBijective(w.definitions, w.editions, w.uniqueData, w.book.datum)
    && DataCarried(w.definitions, w.book.datum, w.fragments)
    && DefinitionsIndexed(w.proto2Fragments, w.definitions)
  }

  ghost predicate Inv(w: World) {
    Core(w) && Supplied(w.definitions, w.editions, w.publishing)
  }

  // ---- One id more ----------------------------------------------------------------------------

  lemma GainKeepsOwned(owners: OwnerLists, holder: map<Key, AccountId>, a: AccountId, k: Key)
    requires OwnedOnce(owners, holder) && k !in holder
    ensures OwnedOnce(Append(owners, (k.class_, a), IdOf(k)), holder[k := a])
  {
  }

  lemma GainKeepsDual(owners: OwnerLists, inventory: InventoryLists, c: ClassId, a: AccountId, id: Id)
    requires Dual(owners, inventory)
    ensures Dual(Append(owners, (c, a), id), Append(inventory, (a, c), id))
  {
  }

  lemma GainKeepsCalendar(now: nat, expirations: map<nat, seq<Key>>, fragments: map<Key, Instance>, k: Key,
                          inst: Instance)
    requires Calendar(now, expirations, fragments) && k !in fragments
    requires inst.expiringAt.Some? ==> now <= inst.expiringAt.value
    ensures Calendar(now, Scheduled(expirations, k, inst), fragments[k := inst])
  {
    var (expirations', fragments') := (Scheduled(expirations, k, inst), fragments[k := inst]);
    if inst.expiringAt.Some? {
      assert !Due(fragments, inst.expiringAt.value, k);
      AppendLists(expirations, inst.expiringAt.value, k);
    }
    forall b, k' ensures Lists(expirations', b, k') <==> Due(fragments', b, k') {
      assert Lists(expirations, b, k') <==> Due(fragments, b, k');
    }
  }

  // ---- MintOne --------------------------------------------------------------------------------

  /** The instance is one the class may start with. */
  ghost predicate Mintable(w: World, c: ClassId, inst: Instance) {
    && c in w.definitions
    && inst.permissions <= w.definitions[c].permissions
    && (inst.expiringAt.Some? ==> w.now < inst.expiringAt.value)
    && (inst.customData.Some? <==> w.definitions[c].unique.Some?)
    && (inst.customData.Some? ==> (c, inst.customData.value) !in w.uniqueData)
  }

  lemma NextEditionCounted(editions: map<ClassId, nat>, copies: Counts, live: set<Key>, burned: set<Key>, c: ClassId)
    requires Counted(editions, copies, live, burned)
    ensures var e := CountOf(editions, c) + 1;
      && Key(c, e, 1) !in live + burned
      && Counted(editions[c := e], copies[(c, e) := 1], live + {Key(c, e, 1)}, burned)
  {
  }

  lemma NextDatumBijective(definitions: Definitions, editions: map<ClassId, nat>,
                           uniqueData: map<(ClassId, Hash256), nat>,
                           datum: map<(ClassId, nat), Hash256>, c: ClassId, data: Option<Hash256>)
    requires DataBijective(definitions, editions, uniqueData, datum)
    requires c in definitions && (data.Some? <==> definitions[c].unique.Some?)
    requires data.Some? ==> (c, data.value) !in uniqueData
    ensures var e := CountOf(editions, c);
      DataBijective(definitions, editions[c := e + 1], DataRecorded(uniqueData, c, data, e),
                    DatumRecorded(datum, c, data, e))
  {
    var e := CountOf(editions, c);
    assert (c, e) !in datum;
    var (uniqueData', datum') := (DataRecorded(uniqueData, c, data, e), DatumRecorded(datum, c, data, e));
    forall d, g, i ensures MintedAs(uniqueData', d, g, i) <==> MintedWith(datum', d, i, g) {
      assert MintedAs(uniqueData, d, g, i) <==> MintedWith(datum, d, i, g);
      assert data.Some? ==> (MintedAs(uniqueData, c, data.value, i) <==> MintedWith(datum, c, i, data.value));
    }
  }

  lemma NextKeyFree(w: World, c: ClassId)
    requires Counted(w.editions, w.copies, w.fragments.Keys, w.book.burned)
    ensures Key(c, EditionsOf(w, c) + 1, 1) !in w.fragments.Keys + w.book.burned
  {
  }

  lemma MintOneKeepsLists(w: World, to: AccountId, c: ClassId, inst: Instance)
    requires OwnedOnce(w.owners, w.book.holder) && Dual(w.owners, w.inventory)
    requires Key(c, EditionsOf(w, c) + 1, 1) !in w.book.holder
    ensures var w' := MintOne(w, to, c, inst);
      OwnedOnce(w'.owners, w'.book.holder) && Dual(w'.owners, w'.inventory)
  {
    hide OwnedOnce, Dual;
    var k := Key(c, EditionsOf(w, c) + 1, 1);
    GainKeepsOwned(w.owners, w.book.holder, to, k);
    GainKeepsDual(w.owners, w.inventory, c, to, IdOf(k));
  }

  lemma MintOneKeepsCounts(w: World, to: AccountId, c: ClassId, inst: Instance)
    requires Counted(w.editions, w.copies, w.fragments.Keys, w.book.burned) && Mintable(w, c, inst)
    requires Calendar(w.now, w.expirations, w.fragments)
    ensures var w' := MintOne(w, to, c, inst);
      && Counted(w'.editions, w'.copies, w'.fragments.Keys, w'.book.burned)
      && Calendar(w'.now, w'.expirations, w'.fragments)
  {
    hide Counted, Calendar;
    var k := Key(c, EditionsOf(w, c) + 1, 1);
    NextEditionCounted(w.editions, w.copies, w.fragments.Keys, w.book.burned, c);
    GainKeepsCalendar(w.now, w.expirations, w.fragments, k, inst);
    assert w.fragments[k := inst].Keys == w.fragments.Keys + {k};
  }

  lemma NextDatumFree(w: World, c: ClassId)
    requires DataBijective(w.definitions, w.editions, w.uniqueData, w.book.datum)
    ensures (c, EditionsOf(w, c)) !in w.book.datum
  {
  }

  lemma MintOneKeepsBijection(w: World, to: AccountId, c: ClassId, inst: Instance)
    requires Mintable(w, c, inst)
    requires DataBijective(w.definitions, w.editions, w.uniqueData, w.book.datum)
    ensures var w' := MintOne(w, to, c, inst);
      DataBijective(w'.definitions, w'.editions, w'.uniqueData, w'.book.datum)
  {
    hide DataBijective;
    NextDatumBijective(w.definitions, w.editions, w.uniqueData, w.book.datum, c, inst.customData);
  }

  lemma MintOneKeepsCarried(w: World, to: AccountId, c: ClassId, inst: Instance)
    requires Counted(w.editions, w.copies, w.fragments.Keys, w.book.burned) && Mintable(w, c, inst)
    requires (c, EditionsOf(w, c)) !in w.book.datum
    requires DataCarried(w.definitions, w.book.datum, w.fragments)
    ensures var w' := MintOne(w, to, c, inst);
      DataCarried(w'.definitions, w'.book.datum, w'.fragments)
  {
  }

  lemma MintOneKeepsPermitted(w: World, to: AccountId, c: ClassId, inst: Instance)
    requires Permitted(w.definitions, w.fragments) && CopiesPermitted(w.definitions, w.copies) && Mintable(w, c, inst)
    requires w.book.holder.Keys == w.fragments.Keys
    ensures var w' := MintOne(w, to, c, inst);
      && Permitted(w'.definitions, w'.fragments) && CopiesPermitted(w'.definitions, w'.copies)
      && w'.book.holder.Keys == w'.fragments.Keys
      && w'.proto2Fragments == w.proto2Fragments && w'.definitions == w.definitions
  {
  }

  lemma MintOneKeepsCore(w: World, to: AccountId, c: ClassId, inst: Instance)
    requires Core(w) && Mintable(w, c, inst)
    ensures Core(MintOne(w, to, c, inst))
  {
    hide MintOne, OwnedOnce, Dual, Calendar, Counted, Permitted, CopiesPermitted, DataBijective, DataCarried,
      DefinitionsIndexed;
    NextKeyFree(w, c);
    NextDatumFree(w, c);
    MintOneKeepsLists(w, to, c, inst);
    MintOneKeepsCounts(w, to, c, inst);
    MintOneKeepsBijection(w, to, c, inst);
    MintOneKeepsCarried(w, to, c, inst);
    MintOneKeepsPermitted(w, to, c, inst);
  }

  // ---- Minted ---------------------------------------------------------------------------------

  /** The fields minting leaves alone. */
  ghost predicate SameFrame(w: World, w': World) {
    && w'.now == w.now && w'.definitions == w.definitions && w'.publishing == w.publishing
    && w'.proto2Fragments == w.proto2Fragments && w'.book.burned == w.book.burned && w'.money == w.money
  }

  lemma MintOneFrame(w: World, to: AccountId, c: ClassId, inst: Instance)
    ensures SameFrame(w, MintOne(w, to, c, inst))
    ensures inst.customData.None? ==> MintOne(w, to, c, inst).uniqueData == w.uniqueData
    ensures MintOne(w, to, c, inst).editions == w.editions[c := EditionsOf(w, c) + 1]
  {
  }

  lemma {:induction false} MintManyFrame(w: World, to: AccountId, c: ClassId, inst: Instance, n: nat)
    ensures SameFrame(w, MintMany(w, to, c, inst, n))
    ensures inst.customData.None? ==> MintMany(w, to, c, inst, n).uniqueData == w.uniqueData
    ensures MintMany(w, to, c, inst, n).editions == if n == 0 then w.editions else w.editions[c := EditionsOf(w, c) + n]
  {
    hide MintOne;
    if n != 0 {
      MintManyFrame(w, to, c, inst, n - 1);
      MintOneFrame(MintMany(w, to, c, inst, n - 1), to, c, inst);
    }
  }

  lemma {:induction false} MintManyKeepsCore(w: World, to: AccountId, c: ClassId, inst: Instance, n: nat)
    requires Core(w) && Mintable(w, c, inst) && (inst.customData.Some? ==> n <= 1)
    ensures Core(MintMany(w, to, c, inst, n))
  {
    hide Core, MintOne;
    if n != 0 {
      MintManyKeepsCore(w, to, c, inst, n - 1);
      MintManyFrame(w, to, c, inst, n - 1);
      MintOneKeepsCore(MintMany(w, to, c, inst, n - 1), to, c, inst);
    }
  }

  /** Whether the count of no editions is written or absent makes no difference. */
  lemma CountTouchedKeepsCore(w: World, c: ClassId)
    requires Core(w)
    ensures Core(CountTouched(w, c))
  {
  }

  lemma SalesKeepCore(w: World, publishing: map<ClassId, Sale>)
    requires Core(w)
    ensures Core(w.(publishing := publishing))
  {
  }

  lemma MoneyIsApart(w: World, money: map<Wallet, Balance>)
    ensures Inv(w.(money := money)) <==> Inv(w)
  {
    hide OwnedOnce, Dual, Calendar, Counted, Permitted, CopiesPermitted, DataBijective, DataCarried, DefinitionsIndexed,
      Supplied;
  }

  // ---- Sums in u64 ----------------------------------------------------------------------------

  /** A sum that fits is the sum; one that does not comes out below what there was. */
  lemma EndsWhere(existing: nat, quantity: Unit)
    ensures existing + quantity < U64 ==>
              EndOf(existing, quantity) == existing + quantity && Passes(existing, quantity) == quantity
    ensures U64 <= existing + quantity ==> EndOf(existing, quantity) < existing && Passes(existing, quantity) == 0
    ensures EndOf(existing, quantity) <= existing + quantity
  {
  }

  lemma RecordedTwice(w: World, to: AccountId, c: ClassId, inst: Instance)
    requires inst.customData.Some?
    ensures var (w', n) := (MintMany(w, to, c, inst, 1), EditionsOf(w, c));
      Recorded(w', c, inst.customData, n, n + 1) == CountTouched(w', c)
  {
    hide Append, Scheduled;
    assert MintMany(w, to, c, inst, 1) == MintOne(MintMany(w, to, c, inst, 0), to, c, inst);
  }

  lemma RecordedIsTouched(w: World, to: AccountId, c: ClassId, inst: Instance, q: nat)
    requires inst.customData.Some? ==> q == 1
    ensures var (w', n) := (MintMany(w, to, c, inst, q), EditionsOf(w, c));
      Recorded(w', c, inst.customData, n, n + q) == CountTouched(w', c)
  {
    if inst.customData.Some? {
      RecordedTwice(w, to, c, inst);
    } else {
      var (w', n) := (MintMany(w, to, c, inst, q), EditionsOf(w, c));
      assert EditionsOf(w', c) == n + q by { MintManyFrame(w, to, c, inst, q); }
      PlainRecorded(w', c, n);
      hide MintMany, Recorded, CountTouched, EditionsOf;
    }
  }

  lemma PlainRecorded(w: World, c: ClassId, existing: nat)
    ensures Recorded(w, c, None, existing, EditionsOf(w, c)) == CountTouched(w, c)
  {
  }

  /** While the count fits, a mint is editions made one by one. */
  lemma MintedWithin(w: World, hs: Hashing, to: AccountId, c: ClassId, sale: Option<Sale>, options: BuyOptions,
                     quantity: Unit, expiringAt: Option<nat>, amount: Option<nat>)
    requires MintRefusal(w, hs, c, sale, options, quantity, expiringAt).None? && EditionsOf(w, c) + quantity < U64
    ensures Minted(w, hs, to, c, sale, options, quantity, expiringAt, amount) ==
              Ok(CountTouched(MintMany(UnitsTaken(w, c, sale, quantity), to, c,
                                       NewInstance(w, hs, c, options, expiringAt, amount), quantity), c))
  {
    hide MintMany, Recorded, CountTouched;
    EndsWhere(EditionsOf(w, c), quantity);
    RecordedIsTouched(UnitsTaken(w, c, sale, quantity), to, c, NewInstance(w, hs, c, options, expiringAt, amount),
                      quantity);
  }

  lemma NewInstanceMintable(w: World, hs: Hashing, c: ClassId, sale: Option<Sale>, options: BuyOptions, quantity: nat,
                            expiringAt: Option<nat>, amount: Option<nat>)
    requires MintRefusal(w, hs, c, sale, options, quantity, expiringAt).None?
    ensures Mintable(UnitsTaken(w, c, sale, quantity), c, NewInstance(w, hs, c, options, expiringAt, amount))
  {
  }

  lemma MintKeepsCore(w: World, hs: Hashing, to: AccountId, c: ClassId, sale: Option<Sale>, options: BuyOptions,
                      quantity: Unit, expiringAt: Option<nat>, amount: Option<nat>)
    requires Core(w) && EditionsOf(w, c) + quantity < U64
    ensures Core(After(w, Minted(w, hs, to, c, sale, options, quantity, expiringAt, amount)))
  {
    hide Core, Mintable, MintMany, CountTouched;
    if MintRefusal(w, hs, c, sale, options, quantity, expiringAt).None? {
      var w1 := UnitsTaken(w, c, sale, quantity);
      SalesKeepCore(w, w1.publishing);
      var inst := NewInstance(w, hs, c, options, expiringAt, amount);
      NewInstanceMintable(w, hs, c, sale, options, quantity, expiringAt, amount);
      MintManyKeepsCore(w1, to, c, inst, quantity);
      CountTouchedKeepsCore(MintMany(w1, to, c, inst, quantity), c);
      MintedWithin(w, hs, to, c, sale, options, quantity, expiringAt, amount);
      hide Minted;
    }
  }

  /** What a mint does to the two counts of a class, and to no other class. */
  lemma MintedCounts(w: World, hs: Hashing, to: AccountId, c: ClassId, sale: Option<Sale>, options: BuyOptions,
                     quantity: nat, expiringAt: Option<nat>, amount: Option<nat>)
    requires MintRefusal(w, hs, c, sale, options, quantity, expiringAt).None?
    ensures var w' := Minted(w, hs, to, c, sale, options, quantity, expiringAt, amount).value;
      && w'.now == w.now && w'.definitions == w.definitions && w'.money == w.money
      && w'.editions == w.editions[c := EndOf(EditionsOf(w, c), quantity)]
      && w'.publishing == UnitsTaken(w, c, sale, quantity).publishing
  {
    hide MintMany, EndOf, Passes, Recorded, NewInstance, MintRefusal;
    var (n, w1) := (EditionsOf(w, c), UnitsTaken(w, c, sale, quantity));
    assert c in w.definitions by { MintWritesSale(w, hs, c, sale, options, quantity, expiringAt); }
    var inst := NewInstance(w, hs, c, options, expiringAt, amount);
    MintManyFrame(w1, to, c, inst, Passes(n, quantity));
    RecordedFrame(MintMany(w1, to, c, inst, Passes(n, quantity)), c, inst.customData, n, EndOf(n, quantity));
  }

  lemma RecordedFrame(w: World, c: ClassId, data: Option<Hash256>, existing: nat, end: nat)
    ensures var w' := Recorded(w, c, data, existing, end);
      && SameFrame(w, w') && w'.editions == w.editions[c := end]
  {
  }

  lemma SuppliedAt(definitions: Definitions, editions: map<ClassId, nat>, publishing: map<ClassId, Sale>, c: ClassId)
    requires Supplied(definitions, editions, publishing) && c in definitions && definitions[c].maxSupply.Some?
    ensures c in publishing ==> publishing[c].unitsLeft.Some?
    ensures SupplyFits(definitions[c].maxSupply.value, CountOf(editions, c), UnitsLeft(publishing, c))
  {
  }

  /** Only one class's count and sale change. */
  lemma ClassKeepsSupplied(definitions: Definitions, editions: map<ClassId, nat>, publishing: map<ClassId, Sale>,
                           c: ClassId, n: nat, publishing': map<ClassId, Sale>)
    requires Supplied(definitions, editions, publishing) && c in definitions
    requires publishing' == publishing
             || (c in publishing && c in publishing' && publishing' == publishing[c := publishing'[c]]
                 && publishing'[c].unitsLeft.Some?)
    requires definitions[c].maxSupply.Some? ==> SupplyFits(definitions[c].maxSupply.value, n, UnitsLeft(publishing', c))
    ensures Supplied(definitions, editions[c := n], publishing')
  {
  }

  /** A scarce class: a sale moves units to the minted, a direct mint stays within the supply. */
  lemma MintedUnits(w: World, hs: Hashing, c: ClassId, sale: Option<Sale>, options: BuyOptions, quantity: nat,
                    expiringAt: Option<nat>)
    requires MintRefusal(w, hs, c, sale, options, quantity, expiringAt).None? && w.definitions[c].maxSupply.Some?
    requires sale.Some? ==> c in w.publishing && w.publishing[c] == sale.value && sale.value.unitsLeft.Some?
    ensures var left := UnitsLeft(UnitsTaken(w, c, sale, quantity).publishing, c);
      if sale.Some? then left + quantity == UnitsLeft(w.publishing, c)
      else left == UnitsLeft(w.publishing, c)
           && (quantity == 0 || EditionsOf(w, c) + quantity <= w.definitions[c].maxSupply.value)
  {
  }

  lemma MintWritesSale(w: World, hs: Hashing, c: ClassId, sale: Option<Sale>, options: BuyOptions, quantity: nat,
                       expiringAt: Option<nat>)
    requires MintRefusal(w, hs, c, sale, options, quantity, expiringAt).None?
    ensures c in w.definitions
    ensures var publishing := UnitsTaken(w, c, sale, quantity).publishing;
      publishing == w.publishing
      || (c in w.publishing && c in publishing && publishing == w.publishing[c := publishing[c]]
          && publishing[c].unitsLeft.Some?)
  {
  }

  lemma MintFitsSupplied(w: World, hs: Hashing, c: ClassId, sale: Option<Sale>, options: BuyOptions, quantity: Unit,
                         expiringAt: Option<nat>)
    requires Supplied(w.definitions, w.editions, w.publishing)
    requires sale.Some? ==> c in w.publishing && w.publishing[c] == sale.value
    requires MintRefusal(w, hs, c, sale, options, quantity, expiringAt).None?
    ensures Supplied(w.definitions, w.editions[c := EndOf(EditionsOf(w, c), quantity)],
                     UnitsTaken(w, c, sale, quantity).publishing)
  {
    hide Supplied, UnitsLeft, CountOf, UnitsTaken, MintRefusal, EndOf, Passes;
    var publishing := UnitsTaken(w, c, sale, quantity).publishing;
    MintWritesSale(w, hs, c, sale, options, quantity, expiringAt);
    EndsWhere(EditionsOf(w, c), quantity);
    if w.definitions[c].maxSupply.Some? {
      SuppliedAt(w.definitions, w.editions, w.publishing, c);
      MintedUnits(w, hs, c, sale, options, quantity, expiringAt);
    }
    ClassKeepsSupplied(w.definitions, w.editions, w.publishing, c, EndOf(EditionsOf(w, c), quantity), publishing);
  }

  /** The supply part is kept by every mint, whether or not the count overflows. */
  lemma MintKeepsSupplied(w: World, hs: Hashing, to: AccountId, c: ClassId, sale: Option<Sale>, options: BuyOptions,
                          quantity: Unit, expiringAt: Option<nat>, amount: Option<nat>)
    requires Supplied(w.definitions, w.editions, w.publishing)
    requires sale.Some? ==> c in w.publishing && w.publishing[c] == sale.value
    ensures var w' := After(w, Minted(w, hs, to, c, sale, options, quantity, expiringAt, amount));
      Supplied(w'.definitions, w'.editions, w'.publishing)
  {
    hide Supplied, MintMany, Recorded, UnitsTaken, NewInstance, MintRefusal, EndOf, Passes;
    if MintRefusal(w, hs, c, sale, options, quantity, expiringAt).None? {
      MintFitsSupplied(w, hs, c, sale, options, quantity, expiringAt);
      MintedCounts(w, hs, to, c, sale, options, quantity, expiringAt, amount);
      hide Minted;
    }
  }

  /** When the count overflows nothing is minted, and editions there are fall out of the count. */
  lemma OverflowUncounts(w: World, hs: Hashing, to: AccountId, c: ClassId, sale: Option<Sale>, options: BuyOptions,
                         quantity: Unit, expiringAt: Option<nat>, amount: Option<nat>)
    requires MintRefusal(w, hs, c, sale, options, quantity, expiringAt).None? && U64 <= EditionsOf(w, c) + quantity
    requires Counted(w.editions, w.copies, w.fragments.Keys, w.book.burned)
    ensures var w' := Minted(w, hs, to, c, sale, options, quantity, expiringAt, amount).value;
      && w'.fragments == w.fragments && w'.copies == w.copies
      && !Counted(w'.editions, w'.copies, w'.fragments.Keys, w'.book.burned)
  {
    EndsWhere(EditionsOf(w, c), quantity);
    assert c in w.definitions;
    hide EndOf, Passes, MintRefusal, NewInstance;
    var (n, w1) := (EditionsOf(w, c), UnitsTaken(w, c, sale, quantity));
    var w' := Minted(w, hs, to, c, sale, options, quantity, expiringAt, amount).value;
    var inst := NewInstance(w, hs, c, options, expiringAt, amount);
    assert MintMany(w1, to, c, inst, 0) == w1;
    assert (c, n) in w.copies;
    assert w'.copies == w.copies && CountOf(w'.editions, c) < n;
  }

  /** A mint, from a sale or direct, keeps everything exactly while the count of editions fits in u64. */
  lemma MintKeepsInvIff(w: World, hs: Hashing, to: AccountId, c: ClassId, sale: Option<Sale>, options: BuyOptions,
                        quantity: Unit, expiringAt: Option<nat>, amount: Option<nat>)
    requires Inv(w) && (sale.Some? ==> c in w.publishing && w.publishing[c] == sale.value)
    requires Minted(w, hs, to, c, sale, options, quantity, expiringAt, amount).Ok?
    ensures Inv(Minted(w, hs, to, c, sale, options, quantity, expiringAt, amount).value) <==>
              EditionsOf(w, c) + quantity < U64
  {
    var w' := Minted(w, hs, to, c, sale, options, quantity, expiringAt, amount).value;
    if EditionsOf(w, c) + quantity < U64 {
      hide Core, Supplied;
      MintKeepsCore(w, hs, to, c, sale, options, quantity, expiringAt, amount);
      MintKeepsSupplied(w, hs, to, c, sale, options, quantity, expiringAt, amount);
      hide Minted;
    } else {
      assert MintRefusal(w, hs, c, sale, options, quantity, expiringAt).None?;
      hide OwnedOnce, Dual, Calendar, Counted, Permitted, CopiesPermitted, DataBijective, DataCarried,
        DefinitionsIndexed,
        Supplied, Minted;
      OverflowUncounts(w, hs, to, c, sale, options, quantity, expiringAt, amount);
    }
  }

  // ---- give -----------------------------------------------------------------------------------

  /** An instance handed out as a copy of a live one. */
  ghost predicate Copyable(w: World, source: Key, inst: Instance) {
    && source in w.fragments && COPY in w.fragments[source].permissions
    && (source.class_, source.edition) in w.copies
    && inst.customData == w.fragments[source].customData
    && inst.permissions <= w.fragments[source].permissions
    && (inst.expiringAt.Some? ==> w.now <= inst.expiringAt.value)
  }

  /** The copy's number still fits in u64. */
  predicate CopyFits(w: World, source: Key) {
    CopiesOf(w, source.class_, source.edition) + 1 < U64
  }

  ghost function NextCopy(w: World, source: Key): Key {
    Key(source.class_, source.edition, (CopiesOf(w, source.class_, source.edition) + 1) % U64)
  }

  lemma NextCopyCounted(editions: map<ClassId, nat>, copies: Counts, live: set<Key>, burned: set<Key>, c: ClassId,
                        e: nat)
    requires Counted(editions, copies, live, burned) && (c, e) in copies
    ensures var n := copies[(c, e)] + 1;
      && Key(c, e, n) !in live + burned
      && Counted(editions, copies[(c, e) := n], live + {Key(c, e, n)}, burned)
  {
  }

  lemma AddCopyFields(w: World, to: AccountId, source: Key, inst: Instance)
    ensures var (w', k) := (AddCopy(w, to, source.class_, source.edition, inst), NextCopy(w, source));
      && w'.fragments == w.fragments[k := inst] && w'.book.holder == w.book.holder[k := to]
      && w'.copies == w.copies[(source.class_, source.edition) := k.copy]
      && w'.editions == w.editions && w'.book.burned == w.book.burned
  {
  }

  lemma AddCopyKeepsCounted(w: World, to: AccountId, source: Key, inst: Instance)
    requires Counted(w.editions, w.copies, w.fragments.Keys, w.book.burned) && Copyable(w, source, inst)
    requires w.book.holder.Keys == w.fragments.Keys && CopyFits(w, source)
    ensures var w' := AddCopy(w, to, source.class_, source.edition, inst);
      && NextCopy(w, source) !in w.fragments
      && w'.book.holder.Keys == w'.fragments.Keys
      && Counted(w'.editions, w'.copies, w'.fragments.Keys, w'.book.burned)
  {
    hide Counted, AddCopy;
    var k := NextCopy(w, source);
    assert (source.class_, source.edition) in w.copies;
    assert k == Key(source.class_, source.edition, w.copies[(source.class_, source.edition)] + 1);
    hide Copyable, NextCopy;
    NextCopyCounted(w.editions, w.copies, w.fragments.Keys, w.book.burned, source.class_, source.edition);
    AddCopyFields(w, to, source, inst);
    assert w.fragments[k := inst].Keys == w.fragments.Keys + {k};
    assert w.book.holder[k := to].Keys == w.book.holder.Keys + {k};
  }

  lemma AddCopyKeepsLists(w: World, to: AccountId, source: Key, inst: Instance)
    requires OwnedOnce(w.owners, w.book.holder) && Dual(w.owners, w.inventory) && NextCopy(w, source) !in w.book.holder
    ensures var w' := AddCopy(w, to, source.class_, source.edition, inst);
      OwnedOnce(w'.owners, w'.book.holder) && Dual(w'.owners, w'.inventory)
  {
  }

  lemma AddCopyKeepsCalendar(w: World, to: AccountId, source: Key, inst: Instance)
    requires Calendar(w.now, w.expirations, w.fragments) && Copyable(w, source, inst)
             && NextCopy(w, source) !in w.fragments
    ensures var w' := AddCopy(w, to, source.class_, source.edition, inst);
      Calendar(w'.now, w'.expirations, w'.fragments)
  {
    hide Calendar;
    GainKeepsCalendar(w.now, w.expirations, w.fragments, NextCopy(w, source), inst);
  }

  lemma AddCopyKeepsPermitted(w: World, to: AccountId, source: Key, inst: Instance)
    requires Permitted(w.definitions, w.fragments) && CopiesPermitted(w.definitions, w.copies)
             && Copyable(w, source, inst)
    requires DataCarried(w.definitions, w.book.datum, w.fragments)
    ensures var w' := AddCopy(w, to, source.class_, source.edition, inst);
      && Permitted(w'.definitions, w'.fragments) && CopiesPermitted(w'.definitions, w'.copies)
      && DataCarried(w'.definitions, w'.book.datum, w'.fragments)
  {
  }

  lemma AddCopyFrame(w: World, to: AccountId, c: ClassId, e: nat, inst: Instance)
    ensures var w' := AddCopy(w, to, c, e, inst);
      && SameFrame(w, w') && w'.editions == w.editions && w'.uniqueData == w.uniqueData
      && w'.book.datum == w.book.datum
  {
  }

  lemma AddCopyKeepsCore(w: World, to: AccountId, source: Key, inst: Instance)
    requires Core(w) && Copyable(w, source, inst) && CopyFits(w, source)
    ensures Core(AddCopy(w, to, source.class_, source.edition, inst))
  {
    hide AddCopy, OwnedOnce, Dual, Calendar, Counted, Permitted, CopiesPermitted, DataBijective, DataCarried,
      DefinitionsIndexed;
    AddCopyKeepsCounted(w, to, source, inst);
    AddCopyKeepsLists(w, to, source, inst);
    AddCopyKeepsCalendar(w, to, source, inst);
    AddCopyKeepsPermitted(w, to, source, inst);
    AddCopyFrame(w, to, source.class_, source.edition, inst);
  }

  lemma MoveKeepsOwned(owners: OwnerLists, holder: map<Key, AccountId>, who: AccountId, k: Key, to: AccountId)
    requires OwnedOnce(owners, holder) && Holds(holder, who, k)
    ensures OwnedOnce(Append(Retain(owners, (k.class_, who), IdOf(k)), (k.class_, to), IdOf(k)), holder[k := to])
  {
    var (c, id) := (k.class_, IdOf(k));
    var mid := Retain(owners, (c, who), id);
    RetainLists(owners, (c, who), id);
    assert !Lists(mid, (c, to), id) by {
      assert Lists(owners, (c, to), id) <==> Holds(holder, to, k);
    }
    AppendLists(mid, (c, to), id);
    var (owners', holder') := (Append(mid, (c, to), id), holder[k := to]);
    forall d, a, i ensures Lists(owners', (d, a), i) <==> Holds(holder', a, Key(d, i.edition, i.copy)) {
      assert Lists(owners, (d, a), i) <==> Holds(holder, a, Key(d, i.edition, i.copy));
    }
  }

  lemma MoveKeepsDual(owners: OwnerLists, inventory: InventoryLists, c: ClassId, who: AccountId, to: AccountId, id: Id)
    requires Dual(owners, inventory)
    ensures Dual(Append(Retain(owners, (c, who), id), (c, to), id),
                 Append(Retain(inventory, (who, c), id), (to, c), id))
  {
  }

  lemma NarrowKeepsCalendar(now: nat, expirations: map<nat, seq<Key>>, fragments: map<Key, Instance>, k: Key,
                            perms: Perms)
    requires Calendar(now, expirations, fragments) && k in fragments
    ensures Calendar(now, expirations, fragments[k := fragments[k].(permissions := perms)])
  {
  }

  lemma MoveKeepsLists(w: World, who: AccountId, k: Key, to: AccountId, perms: Perms)
    requires OwnedOnce(w.owners, w.book.holder) && Dual(w.owners, w.inventory)
    requires Calendar(w.now, w.expirations, w.fragments) && k in w.fragments && Holds(w.book.holder, who, k)
    ensures var w' := Move(w, who, k, to, perms);
      && OwnedOnce(w'.owners, w'.book.holder) && Dual(w'.owners, w'.inventory)
      && Calendar(w'.now, w'.expirations, w'.fragments)
  {
    hide OwnedOnce, Dual, Calendar;
    MoveKeepsOwned(w.owners, w.book.holder, who, k, to);
    MoveKeepsDual(w.owners, w.inventory, k.class_, who, to, IdOf(k));
    NarrowKeepsCalendar(w.now, w.expirations, w.fragments, k, perms);
  }

  lemma MoveKeepsPermitted(w: World, who: AccountId, k: Key, to: AccountId, perms: Perms)
    requires Permitted(w.definitions, w.fragments) && DataCarried(w.definitions, w.book.datum, w.fragments)
    requires k in w.fragments && perms <= w.fragments[k].permissions
    ensures var w' := Move(w, who, k, to, perms);
      Permitted(w'.definitions, w'.fragments) && DataCarried(w'.definitions, w'.book.datum, w'.fragments)
  {
  }

  lemma MoveFrame(w: World, who: AccountId, k: Key, to: AccountId, perms: Perms)
    requires k in w.fragments && w.book.holder.Keys == w.fragments.Keys
    ensures var w' := Move(w, who, k, to, perms);
      && w'.book.holder.Keys == w'.fragments.Keys == w.fragments.Keys
      && SameFrame(w, w') && w'.editions == w.editions && w'.copies == w.copies && w'.uniqueData == w.uniqueData
      && w'.book.datum == w.book.datum
  {
  }

  lemma MoveKeepsCore(w: World, who: AccountId, k: Key, to: AccountId, perms: Perms)
    requires Core(w) && k in w.fragments && Holds(w.book.holder, who, k) && perms <= w.fragments[k].permissions
    ensures Core(Move(w, who, k, to, perms))
  {
    hide Move, OwnedOnce, Dual, Calendar, Counted, Permitted, CopiesPermitted, DataBijective, DataCarried,
      DefinitionsIndexed;
    MoveKeepsLists(w, who, k, to, perms);
    MoveKeepsPermitted(w, who, k, to, perms);
    MoveFrame(w, who, k, to, perms);
  }

  /** The caller's inventory lists the instance exactly when the caller holds it. */
  lemma ListedIsHeld(w: World, who: AccountId, k: Key)
    requires OwnedOnce(w.owners, w.book.holder) && Dual(w.owners, w.inventory)
    ensures Lists(w.inventory, (who, k.class_), IdOf(k)) <==> Holds(w.book.holder, who, k)
  {
  }

  lemma GivenCopyable(w: World, who: AccountId, key: Key, to: Option<AccountId>, narrowed: Option<Perms>,
                      expiration: Option<nat>)
    requires GiveRefusal(w, who, key, to, narrowed, expiration).None? && COPY in w.fragments[key].permissions
    ensures var item := w.fragments[key];
      Copyable(w, key, item.(permissions := NarrowedPerms(item, narrowed), expiringAt := CopyExpiry(item, expiration)))
  {
  }

  /** When the copy count overflows, copies there are fall out of it. */
  lemma OverflowUncountsCopies(w: World, to: AccountId, source: Key, inst: Instance)
    requires Counted(w.editions, w.copies, w.fragments.Keys, w.book.burned) && !CopyFits(w, source)
    ensures var w' := AddCopy(w, to, source.class_, source.edition, inst);
      !Counted(w'.editions, w'.copies, w'.fragments.Keys, w'.book.burned)
  {
    var w' := AddCopy(w, to, source.class_, source.edition, inst);
    var last := Key(source.class_, source.edition, CopiesOf(w, source.class_, source.edition));
    assert Issued(w.editions, w.copies, last);
    assert last in w'.fragments.Keys + w'.book.burned;
    assert !Issued(w'.editions, w'.copies, last);
  }

  lemma CopyKeepsInvIff(w: World, to: AccountId, source: Key, inst: Instance)
    requires Inv(w) && Copyable(w, source, inst)
    ensures Inv(AddCopy(w, to, source.class_, source.edition, inst)) <==> CopyFits(w, source)
  {
    AddCopyFrame(w, to, source.class_, source.edition, inst);
    if CopyFits(w, source) {
      hide Core, Copyable;
      AddCopyKeepsCore(w, to, source, inst);
      hide AddCopy;
    } else {
      hide OwnedOnce, Dual, Calendar, Counted, Permitted, CopiesPermitted, DataBijective, DataCarried,
        DefinitionsIndexed,
        Supplied, AddCopy;
      OverflowUncountsCopies(w, to, source, inst);
    }
  }

  lemma MoveKeepsInv(w: World, who: AccountId, k: Key, to: AccountId, perms: Perms)
    requires Inv(w) && k in w.fragments && Holds(w.book.holder, who, k) && perms <= w.fragments[k].permissions
    ensures Inv(Move(w, who, k, to, perms))
  {
    MoveFrame(w, who, k, to, perms);
    hide Core, Move;
    MoveKeepsCore(w, who, k, to, perms);
  }

  /** Giving keeps everything exactly unless it makes a copy whose number overflows. */
  lemma GiveKeepsInvIff(w: World, who: AccountId, key: Key, to: Option<AccountId>, narrowed: Option<Perms>,
                        expiration: Option<nat>)
    requires Inv(w) && Given(w, who, key, to, narrowed, expiration).Ok?
    ensures key in w.fragments
    ensures Inv(Given(w, who, key, to, narrowed, expiration).value) <==>
              !(COPY in w.fragments[key].permissions && !CopyFits(w, key))
  {
    var item := w.fragments[key];
    var perms := NarrowedPerms(item, narrowed);
    if COPY in item.permissions {
      var inst := item.(permissions := perms, expiringAt := CopyExpiry(item, expiration));
      GivenCopyable(w, who, key, to, narrowed, expiration);
      hide Inv, AddCopy, Copyable;
      CopyKeepsInvIff(w, to.value, key, inst);
    } else {
      ListedIsHeld(w, who, key);
      hide Inv, Move;
      MoveKeepsInv(w, who, key, to.value, perms);
    }
  }

  /** Giving leaves definitions, sales, counts of editions and money alone. */
  lemma GiveFrame(w: World, who: AccountId, key: Key, to: Option<AccountId>, narrowed: Option<Perms>,
                  expiration: Option<nat>)
    ensures var w' := After(w, Given(w, who, key, to, narrowed, expiration));
      SameFrame(w, w') && w'.editions == w.editions
  {
    if GiveRefusal(w, who, key, to, narrowed, expiration).None? {
      GiveNeedsLive(w, who, key, to, narrowed, expiration);
      hide AddCopy, Move, GiveRefusal;
      var item := w.fragments[key];
      var perms := NarrowedPerms(item, narrowed);
      if COPY in item.permissions {
        AddCopyFrame(w, to.value, key.class_, key.edition,
                     item.(permissions := perms, expiringAt := CopyExpiry(item, expiration)));
      } else {
        MoveCounts(w, who, key, to.value, perms);
      }
    }
  }

  lemma MoveCounts(w: World, who: AccountId, k: Key, to: AccountId, perms: Perms)
    requires k in w.fragments
    ensures SameFrame(w, Move(w, who, k, to, perms)) && Move(w, who, k, to, perms).editions == w.editions
  {
  }

  lemma GiveNeedsLive(w: World, who: AccountId, key: Key, to: Option<AccountId>, narrowed: Option<Perms>,
                      expiration: Option<nat>)
    requires GiveRefusal(w, who, key, to, narrowed, expiration).None?
    ensures key in w.fragments && to.Some?
  {
  }

  // ---- The end of a block ---------------------------------------------------------------------

  function Elems<T>(s: seq<T>): set<T> { set x | x in s }

  lemma DropKeepsOwned(owners: OwnerLists, holder: map<Key, AccountId>, k: Key)
    requires OwnedOnce(owners, holder)
    ensures OwnedOnce(DropOwners(owners, k), holder - {k})
  {
    var (owners', holder') := (DropOwners(owners, k), holder - {k});
    forall s | s in owners' ensures NoDup(owners'[s]) {
      WithoutMembers(owners[s], IdOf(k));
    }
    forall c, a, id ensures Lists(owners', (c, a), id) <==> Holds(holder', a, Key(c, id.edition, id.copy)) {
      assert Lists(owners, (c, a), id) <==> Holds(holder, a, Key(c, id.edition, id.copy));
      if (c, a) in owners {
        WithoutMembers(owners[(c, a)], IdOf(k));
      }
    }
  }

  lemma DropKeepsDual(owners: OwnerLists, inventory: InventoryLists, k: Key)
    requires Dual(owners, inventory)
    ensures Dual(DropOwners(owners, k), DropInventory(inventory, k))
  {
  }

  lemma {:induction false} DropAllKeepsLists(w: World, ks: seq<Key>)
    requires OwnedOnce(w.owners, w.book.holder) && Dual(w.owners, w.inventory)
    ensures var w' := DropAll(w, ks); OwnedOnce(w'.owners, w'.book.holder) && Dual(w'.owners, w'.inventory)
  {
    hide OwnedOnce, Dual;
    if ks != [] {
      var (rest, k) := (ks[..|ks| - 1], ks[|ks| - 1]);
      DropAllKeepsLists(w, rest);
      var p := DropAll(w, rest);
      DropKeepsOwned(p.owners, p.book.holder, k);
      DropKeepsDual(p.owners, p.inventory, k);
    }
  }

  /** The sweep takes exactly the ids due, and takes them to the book's expired ones. */
  lemma DropAllTakes(w: World, ks: seq<Key>)
    ensures var w' := DropAll(w, ks);
      && w'.fragments == w.fragments - Elems(ks)
      && w'.book.holder == w.book.holder - Elems(ks)
      && w'.book.burned == w.book.burned + Elems(ks)
      && w' == w.(fragments := w'.fragments, owners := w'.owners, inventory := w'.inventory,
                  book := w.book.(holder := w'.book.holder, burned := w'.book.burned))
  {
    DropAllMaps(w, ks);
    DropAllFrame(w, ks);
  }

  lemma {:induction false} DropAllMaps(w: World, ks: seq<Key>)
    ensures var w' := DropAll(w, ks);
      && w'.fragments == w.fragments - Elems(ks)
      && w'.book.holder == w.book.holder - Elems(ks)
      && w'.book.burned == w.book.burned + Elems(ks)
  {
    if ks != [] {
      var (rest, k) := (ks[..|ks| - 1], ks[|ks| - 1]);
      assert ks == rest + [k];
      DropAllMaps(w, rest);
      assert Elems(ks) == Elems(rest) + {k};
      TakenInTurn(w.fragments, Elems(rest), k);
      TakenInTurn(w.book.holder, Elems(rest), k);
      hide Elems, DropOwners, DropInventory;
    }
  }

  lemma TakenInTurn<K, V>(m: map<K, V>, gone: set<K>, k: K)
    ensures (m - gone) - {k} == m - (gone + {k})
  {
  }

  lemma {:induction false} DropAllFrame(w: World, ks: seq<Key>)
    ensures var w' := DropAll(w, ks);
      w' == w.(fragments := w'.fragments, owners := w'.owners, inventory := w'.inventory,
               book := w.book.(holder := w'.book.holder, burned := w'.book.burned))
  {
    if ks != [] {
      DropAllFrame(w, ks[..|ks| - 1]);
      hide DropOwners, DropInventory;
    }
  }

  lemma SweepKeepsCounted(editions: map<ClassId, nat>, copies: Counts, live: set<Key>, burned: set<Key>, gone: set<Key>)
    requires Counted(editions, copies, live, burned) && gone <= live
    ensures Counted(editions, copies, live - gone, burned + gone)
  {
  }

  lemma SweepKeepsCalendar(now: nat, expirations: map<nat, seq<Key>>, fragments: map<Key, Instance>)
    requires Calendar(now, expirations, fragments)
    ensures Elems(Lookup(expirations, now)) <= fragments.Keys
    ensures Calendar(now + 1, expirations - {now}, fragments - Elems(Lookup(expirations, now)))
  {
    var gone := Elems(Lookup(expirations, now));
    var (expirations', fragments') := (expirations - {now}, fragments - gone);
    forall k | k in gone ensures k in fragments {
      assert Lists(expirations, now, k);
    }
    forall b, k ensures Lists(expirations', b, k) <==> Due(fragments', b, k) {
      assert Lists(expirations, b, k) <==> Due(fragments, b, k);
      assert Lists(expirations, now, k) <==> Due(fragments, now, k);
    }
  }

  lemma SweepKeepsRest(w: World, gone: set<Key>)
    requires Permitted(w.definitions, w.fragments) && DataCarried(w.definitions, w.book.datum, w.fragments)
    ensures Permitted(w.definitions, w.fragments - gone) && DataCarried(w.definitions, w.book.datum, w.fragments - gone)
  {
  }

  lemma FoundOwner(owners: OwnerLists, inventory: InventoryLists, holder: map<Key, AccountId>, key: Key,
                   s: (ClassId, AccountId), i: nat)
    requires OwnedOnce(owners, holder) && Dual(owners, inventory)
    requires s in owners && s.0 == key.class_ && i < |owners[s]| && owners[s][i] == IdOf(key)
    ensures owners[s := RemoveAt(owners[s], i)] == DropOwners(owners, key)
    ensures (s.1, s.0) in inventory && inventory[(s.1, s.0)] == owners[s]
    ensures Position(owners[s], IdOf(key)) == Some(i)
    ensures inventory[(s.1, s.0) := RemoveAt(owners[s], i)] == DropInventory(inventory, key)
  {
    var (c, id) := (key.class_, IdOf(key));
    WithoutIsRemoveAt(owners[s], i);
    assert Lists(owners, (c, s.1), id);
    assert Holds(holder, s.1, Key(c, id.edition, id.copy));
    forall t | t in owners && t.0 == c && t != s ensures Without(owners[t], id) == owners[t] {
      assert Lists(owners, (c, t.1), id) <==> Holds(holder, t.1, Key(c, id.edition, id.copy));
      WithoutAbsent(owners[t], id);
    }
    assert forall a, d :: (a, d) in inventory <==> (d, a) in owners;
  }

  lemma NoOwner(owners: OwnerLists, inventory: InventoryLists, key: Key)
    requires Dual(owners, inventory)
    requires forall s :: s in owners && s.0 == key.class_ ==> IdOf(key) !in owners[s]
    ensures owners == DropOwners(owners, key) && inventory == DropInventory(inventory, key)
  {
    forall t | t in owners && t.0 == key.class_ ensures Without(owners[t], IdOf(key)) == owners[t] {
      WithoutAbsent(owners[t], IdOf(key));
    }
    assert forall a, d :: (a, d) in inventory <==> (d, a) in owners;
  }

  lemma {:induction false} FirstInIsOne(order: seq<AccountId>, among: set<AccountId>)
    ensures FirstIn(order, among).Some? ==> FirstIn(order, among).value in among
    ensures FirstIn(order, among).None? ==> forall a :: a in order ==> a !in among
  {
    if order != [] {
      assert order == [order[0]] + order[1..];
      FirstInIsOne(order[1..], among);
    }
  }

  lemma FoundIsLister(owners: OwnerLists, k: Key, order: seq<AccountId>)
    ensures FoundLister(owners, k, order).Some? ==>
              var s := (k.class_, FoundLister(owners, k, order).value); s in owners && IdOf(k) in owners[s]
    ensures FoundLister(owners, k, order).None? ==>
              forall s :: s in owners && s.0 == k.class_ ==> IdOf(k) !in owners[s]
  {
    FirstInIsOne(order, Listers(owners, k));
    if FoundLister(owners, k, order).None? {
      forall s | s in owners && s.0 == k.class_ ensures IdOf(k) !in owners[s] {
        assert s.1 !in Listers(owners, k);
      }
    }
  }

  /** While each id is listed once, whatever the order, taking one listing of an id is deleting it everywhere. */
  lemma DelistedIsDrop(w: World, k: Key, order: seq<AccountId>)
    requires OwnedOnce(w.owners, w.book.holder) && Dual(w.owners, w.inventory)
    ensures Delisted(w, k, order) == Drop(w, k)
  {
    FoundIsLister(w.owners, k, order);
    var found := FoundLister(w.owners, k, order);
    hide FoundLister;
    if found.Some? {
      var s := (k.class_, found.value);
      FoundOwner(w.owners, w.inventory, w.book.holder, k, s, Position(w.owners[s], IdOf(k)).value);
    } else {
      NoOwner(w.owners, w.inventory, k);
    }
    hide OwnedOnce, Dual, DropOwners, DropInventory;
  }

  lemma {:induction false} DelistAllIsDropAll(w: World, ks: seq<Key>, order: seq<AccountId>)
    requires OwnedOnce(w.owners, w.book.holder) && Dual(w.owners, w.inventory)
    ensures DelistAll(w, ks, order) == DropAll(w, ks)
  {
    hide OwnedOnce, Dual, Delisted, Drop;
    if ks != [] {
      var rest := ks[..|ks| - 1];
      DelistAllIsDropAll(w, rest, order);
      DropAllKeepsLists(w, rest);
      DelistedIsDrop(DropAll(w, rest), ks[|ks| - 1], order);
    }
  }

  /** In any state, a sweep leaves everything but instances, lists and calendar alone. */
  lemma {:induction false} DelistAllFrame(w: World, ks: seq<Key>, order: seq<AccountId>)
    ensures var w' := DelistAll(w, ks, order);
      w' == w.(fragments := w'.fragments, owners := w'.owners, inventory := w'.inventory,
               book := w.book.(holder := w'.book.holder, burned := w'.book.burned))
  {
    if ks != [] {
      DelistAllFrame(w, ks[..|ks| - 1], order);
      hide FoundLister, Unlisted;
    }
  }

  lemma SweptByFrame(w: World, order: seq<AccountId>)
    ensures var w' := SweptBy(w, order);
      && w'.definitions == w.definitions && w'.editions == w.editions && w'.publishing == w.publishing
      && w'.copies == w.copies && w'.money == w.money && w'.now == w.now
  {
    DelistAllFrame(w.(expirations := w.expirations - {w.now}), Lookup(w.expirations, w.now), order);
    hide DelistAll;
  }

  /** The sweep that stops at the first owner found, in any order, is the simple one. */
  lemma SweptByIsSwept(w: World, order: seq<AccountId>)
    requires OwnedOnce(w.owners, w.book.holder) && Dual(w.owners, w.inventory)
    ensures SweptBy(w, order) == Swept(w)
  {
    DelistAllIsDropAll(w.(expirations := w.expirations - {w.now}), Lookup(w.expirations, w.now), order);
  }

  lemma BlockEnds(w: World, hs: Hashing, env: ProtoView, order: seq<AccountId>)
    ensures Apply(w, hs, env, EndBlock(order)) == SweptBy(w, order).(now := w.now + 1)
  {
    hide SweptBy;
  }

  lemma BlockEndsSwept(w: World, hs: Hashing, env: ProtoView, order: seq<AccountId>)
    requires OwnedOnce(w.owners, w.book.holder) && Dual(w.owners, w.inventory)
    ensures Apply(w, hs, env, EndBlock(order)) == NextBlock(w)
  {
    BlockEnds(w, hs, env, order);
    SweptByIsSwept(w, order);
    hide Apply, Swept, SweptBy;
  }

  function NextBlock(w: World): World { var s := Swept(w); s.(now := w.now + 1) }

  lemma SweepKeepsInv(w: World)
    requires Inv(w)
    ensures Inv(NextBlock(w))
  {
    hide OwnedOnce, Dual, Calendar, Counted, Permitted, CopiesPermitted, DataBijective, DataCarried, DefinitionsIndexed,
      Supplied;
    var due := Lookup(w.expirations, w.now);
    var w1 := w.(expirations := w.expirations - {w.now});
    DropAllTakes(w1, due);
    DropAllKeepsLists(w1, due);
    SweepKeepsCalendar(w.now, w.expirations, w.fragments);
    SweepKeepsCounted(w.editions, w.copies, w.fragments.Keys, w.book.burned, Elems(due));
    SweepKeepsRest(w, Elems(due));
    assert (w.fragments - Elems(due)).Keys == w.fragments.Keys - Elems(due);
    assert (w.book.holder - Elems(due)).Keys == w.fragments.Keys - Elems(due);
  }

  // ---- create, publish, unpublish -------------------------------------------------------------

  lemma CreateKeepsInv(w: World, hs: Hashing, env: ProtoView, who: AccountId, proto: Hash256, metadata: Metadata,
                       permissions: Perms, unique: Option<UniqueOptions>, maxSupply: Option<Unit>, reserved: bool)
    requires Inv(w)
    ensures Inv(After(w, Created(w, hs, env, who, proto, metadata, permissions, unique, maxSupply, reserved)))
  {
    var r := Created(w, hs, env, who, proto, metadata, permissions, unique, maxSupply, reserved);
    if r.Ok? {
      hide OwnedOnce, Dual, Calendar, Counted, Permitted, CopiesPermitted, DataBijective, DataCarried,
        DefinitionsIndexed, Supplied;
      var c := hs.classId(proto, metadata);
      NewClassKeepsData(w, c, r.value.definitions[c]);
      NewClassKeepsIndex(w, c, r.value.definitions[c]);
      NewClassKeepsSupplied(w, c, r.value.definitions[c]);
    }
  }

  lemma NewClassKeepsData(w: World, c: ClassId, d: Definition)
    requires c !in w.definitions && Counted(w.editions, w.copies, w.fragments.Keys, w.book.burned)
    requires Permitted(w.definitions, w.fragments) && CopiesPermitted(w.definitions, w.copies)
    requires DataBijective(w.definitions, w.editions, w.uniqueData, w.book.datum)
    requires DataCarried(w.definitions, w.book.datum, w.fragments)
    requires w.editions.Keys <= w.definitions.Keys
    ensures Permitted(w.definitions[c := d], w.fragments) && CopiesPermitted(w.definitions[c := d], w.copies)
    ensures DataBijective(w.definitions[c := d], w.editions, w.uniqueData, w.book.datum)
    ensures DataCarried(w.definitions[c := d], w.book.datum, w.fragments)
  {
  }

  lemma NewClassKeepsIndex(w: World, c: ClassId, d: Definition)
    requires c !in w.definitions && DefinitionsIndexed(w.proto2Fragments, w.definitions)
    ensures DefinitionsIndexed(Append(w.proto2Fragments, d.protoHash, c), w.definitions[c := d])
  {
    AppendLists(w.proto2Fragments, d.protoHash, c);
    assert !Lists(w.proto2Fragments, d.protoHash, c);
  }

  lemma NewClassKeepsSupplied(w: World, c: ClassId, d: Definition)
    requires c !in w.definitions && Supplied(w.definitions, w.editions, w.publishing)
    ensures w.editions.Keys <= w.definitions.Keys
    ensures Supplied(w.definitions[c := d], w.editions, w.publishing)
  {
  }

  lemma SaleOpens(definitions: Definitions, editions: map<ClassId, nat>, publishing: map<ClassId, Sale>, c: ClassId,
                  sale: Sale)
    requires Supplied(definitions, editions, publishing) && c in definitions
    requires definitions[c].maxSupply.Some? ==>
               sale.unitsLeft.Some?
               && SupplyFits(definitions[c].maxSupply.value, CountOf(editions, c), sale.unitsLeft.value)
    ensures Supplied(definitions, editions, publishing[c := sale])
  {
    hide SupplyFits;
  }

  lemma SaleCloses(definitions: Definitions, editions: map<ClassId, nat>, publishing: map<ClassId, Sale>, c: ClassId)
    requires Supplied(definitions, editions, publishing)
    ensures Supplied(definitions, editions, publishing - {c})
  {
    forall d | d in definitions && definitions[d].maxSupply.Some?
      ensures SupplyFits(definitions[d].maxSupply.value, CountOf(editions, d), UnitsLeft(publishing - {c}, d))
    {
      SuppliedAt(definitions, editions, publishing, d);
      assert UnitsLeft(publishing - {c}, d) <= UnitsLeft(publishing, d);
    }
    hide SupplyFits;
  }

  lemma PublishFits(w: World, env: ProtoView, who: AccountId, c: ClassId, sale: Sale)
    requires Published(w, env, who, c, sale).Ok?
    ensures c in w.definitions && Published(w, env, who, c, sale).value == w.(publishing := w.publishing[c := sale])
    ensures w.definitions[c].maxSupply.Some? ==>
              sale.unitsLeft.Some?
              && SupplyFits(w.definitions[c].maxSupply.value, CountOf(w.editions, c), sale.unitsLeft.value)
  {
    hide ProtoRefusal;
  }

  lemma SalesKeepSupplied(w: World, env: ProtoView, who: AccountId, c: ClassId, sale: Sale)
    requires Supplied(w.definitions, w.editions, w.publishing)
    ensures var w' := After(w, Published(w, env, who, c, sale)); Supplied(w'.definitions, w'.editions, w'.publishing)
    ensures var w' := After(w, Unpublished(w, env, who, c)); Supplied(w'.definitions, w'.editions, w'.publishing)
  {
    hide ProtoRefusal, Supplied, SupplyFits;
    if Published(w, env, who, c, sale).Ok? {
      PublishFits(w, env, who, c, sale);
      SaleOpens(w.definitions, w.editions, w.publishing, c, sale);
    }
    SaleCloses(w.definitions, w.editions, w.publishing, c);
    hide Published;
  }

  lemma SalesKeepInv(w: World, env: ProtoView, who: AccountId, c: ClassId, sale: Sale)
    requires Inv(w)
    ensures Inv(After(w, Published(w, env, who, c, sale)))
    ensures Inv(After(w, Unpublished(w, env, who, c)))
  {
    hide Core, Supplied, ProtoRefusal;
    SalesKeepSupplied(w, env, who, c, sale);
    if Published(w, env, who, c, sale).Ok? {
      SalesKeepCore(w, w.publishing[c := sale]);
    }
    if Unpublished(w, env, who, c).Ok? {
      SalesKeepCore(w, w.publishing - {c});
    }
  }

  // ---- Every call, every run ------------------------------------------------------------------

  /** Money apart, a purchase is a mint. */
  lemma BoughtIsMinted(w: World, hs: Hashing, who: AccountId, c: ClassId, options: BuyOptions, funds: Funds)
    requires Bought(w, hs, who, c, options, funds).Ok?
    ensures c in w.publishing
    ensures var r := Minted(w, hs, who, c, Some(w.publishing[c]), options, QuantityOf(options), None,
                            w.publishing[c].amount);
      var w' := Bought(w, hs, who, c, options, funds).value;
      r.Ok? && w' == r.value.(money := w'.money)
  {
    hide Minted, Charge, Paid, BalanceOf;
  }

  lemma BuyKeepsInvIff(w: World, hs: Hashing, who: AccountId, c: ClassId, options: BuyOptions, funds: Funds)
    requires Inv(w)
    ensures Bought(w, hs, who, c, options, funds).Ok? ==>
              (Inv(Bought(w, hs, who, c, options, funds).value) <==>
                 EditionsOf(w, c) + QuantityOf(options) < U64)
  {
    hide Inv, Minted;
    if Bought(w, hs, who, c, options, funds).Ok? {
      BoughtIsMinted(w, hs, who, c, options, funds);
      var sale := w.publishing[c];
      MintKeepsInvIff(w, hs, who, c, Some(sale), options, QuantityOf(options), None, sale.amount);
      MoneyIsApart(Minted(w, hs, who, c, Some(sale), options, QuantityOf(options), None, sale.amount).value,
                   Bought(w, hs, who, c, options, funds).value.money);
    }
    hide Bought;
  }

  lemma MintByOwnerKeepsInvIff(w: World, hs: Hashing, env: ProtoView, who: AccountId, c: ClassId, options: BuyOptions,
                               amount: Option<nat>)
    requires Inv(w) && MintedByOwner(w, hs, env, who, c, options, amount).Ok?
    ensures Inv(MintedByOwner(w, hs, env, who, c, options, amount).value) <==>
              EditionsOf(w, c) + QuantityOf(options) < U64
  {
    hide Inv, Minted;
    MintKeepsInvIff(w, hs, who, c, None, options, QuantityOf(options), None, amount);
  }

  /** Every call keeps everything, exactly unless it is accepted and takes a counter past u64. */
  lemma StepKeepsInvIff(w: World, hs: Hashing, env: ProtoView, call: Call)
    requires Inv(w)
    ensures Inv(Apply(w, hs, env, call)) <==> !(Outcome(w, hs, env, call).Ok? && Overflows(w, call))
  {
    hide Inv, Created, Published, Unpublished, MintedByOwner, Bought, Given, Swept, SweptBy;
    match call
    case Create(who, proto, metadata, perms, unique, max, reserved) =>
      CreateKeepsInv(w, hs, env, who, proto, metadata, perms, unique, max, reserved);
    case Publish(who, c, sale) => SalesKeepInv(w, env, who, c, sale);
    case Unpublish(who, c) => SalesKeepInv(w, env, who, c, Sale(0, None, None, None));
    case Mint(who, c, options, amount) =>
      if MintedByOwner(w, hs, env, who, c, options, amount).Ok? {
        MintByOwnerKeepsInvIff(w, hs, env, who, c, options, amount);
      }
    case Buy(who, c, options, funds) =>
      BuyKeepsInvIff(w, hs, who, c, options, funds);
    case Give(who, key, to, narrowed, expiration) =>
      if Given(w, who, key, to, narrowed, expiration).Ok? {
        GiveKeepsInvIff(w, who, key, to, narrowed, expiration);
      }
    case EndBlock(order) =>
      InvLists(w);
      BlockEndsSwept(w, hs, env, order);
      SweepKeepsInv(w);
    case Outside(x, balance) => MoneyIsApart(w, w.money[x := balance]);
  }

  lemma InvLists(w: World)
    requires Inv(w)
    ensures OwnedOnce(w.owners, w.book.holder) && Dual(w.owners, w.inventory)
  {
  }

  lemma GenesisInv(now: nat)
    ensures Inv(Genesis(now))
  {
  }

  /** The call is accepted and leads from w to w'. */
  ghost predicate Takes(w: World, hs: Hashing, env: ProtoView, call: Call, w': World) {
    Outcome(w, hs, env, call) == Ok(w')
  }

  /** Every call of the run is accepted. */
  ghost predicate AllAccepted(w: World, hs: Hashing, steps: seq<(ProtoView, Call)>) {
    steps != [] ==>
      var (before, last) := (steps[..|steps| - 1], steps[|steps| - 1]);
      AllAccepted(w, hs, before) && Outcome(Run(w, hs, before), hs, last.0, last.1).Ok?
  }

  ghost predicate Leads(w: World, hs: Hashing, steps: seq<(ProtoView, Call)>, w': World) {
    AllAccepted(w, hs, steps) && Run(w, hs, steps) == w'
  }

  lemma LeadsOn(w: World, hs: Hashing, steps: seq<(ProtoView, Call)>, m: World, env: ProtoView, call: Call, w': World)
    requires Leads(w, hs, steps, m) && Takes(m, hs, env, call, w')
    ensures Leads(w, hs, steps + [(env, call)], w')
  {
    hide Outcome;
    assert (steps + [(env, call)])[..|steps|] == steps;
  }

  /** No accepted call of the run takes a counter past u64. */
  ghost predicate Fits(w: World, hs: Hashing, steps: seq<(ProtoView, Call)>) {
    steps != [] ==>
      var (before, last) := (steps[..|steps| - 1], steps[|steps| - 1]);
      var m := Run(w, hs, before);
      Fits(w, hs, before) && !(Outcome(m, hs, last.0, last.1).Ok? && Overflows(m, last.1))
  }

  ghost predicate InvThroughout(w: World, hs: Hashing, steps: seq<(ProtoView, Call)>) {
    Inv(Run(w, hs, steps)) && (steps != [] ==> InvThroughout(w, hs, steps[..|steps| - 1]))
  }

  lemma {:induction false} RunKeepsInv(w: World, hs: Hashing, steps: seq<(ProtoView, Call)>)
    requires Inv(w) && Fits(w, hs, steps)
    ensures Inv(Run(w, hs, steps))
  {
    hide Inv, Apply, Outcome, Overflows;
    if steps != [] {
      var (before, last) := (steps[..|steps| - 1], steps[|steps| - 1]);
      RunKeepsInv(w, hs, before);
      StepKeepsInvIff(Run(w, hs, before), hs, last.0, last.1);
    }
  }

  /** Over any run everything is kept at every point exactly if no accepted call takes a counter past u64. */
  lemma {:induction false} RunKeepsInvIff(w: World, hs: Hashing, steps: seq<(ProtoView, Call)>)
    requires Inv(w)
    ensures InvThroughout(w, hs, steps) <==> Fits(w, hs, steps)
  {
    hide Inv, Apply, Outcome, Overflows;
    if steps != [] {
      var (before, last) := (steps[..|steps| - 1], steps[|steps| - 1]);
      RunKeepsInvIff(w, hs, before);
      if Fits(w, hs, before) {
        RunKeepsInv(w, hs, before);
        StepKeepsInvIff(Run(w, hs, before), hs, last.0, last.1);
      }
    }
  }
}
