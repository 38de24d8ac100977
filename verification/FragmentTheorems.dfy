/** What the invariants of the fragments pallet mean over whole runs. */
module FragmentTheorems {
  import opened Basics
  import opened FragmentLedger
  import opened FragmentInvariants

  // ---- Conservation ---------------------------------------------------------------------------

  function SumCopies(copies: Counts, c: ClassId, e: nat): nat {
    if e == 0 then 0 else SumCopies(copies, c, e - 1) + (if (c, e) in copies then copies[(c, e)] else 0)
  }

  ghost function OfClass(ks: set<Key>, c: ClassId): set<Key> {
    set k | k in ks && k.class_ == c
  }

  ghost function OfEdition(ks: set<Key>, c: ClassId, e: nat): set<Key> {
    set k | k in ks && k.class_ == c && k.edition <= e
  }

  /** n consecutive copies of one edition. */
  ghost function Series(c: ClassId, e: nat, n: nat): set<Key> {
    if n == 0 then {} else Series(c, e, n - 1) + {Key(c, e, n)}
  }

  lemma {:induction false} SeriesSize(c: ClassId, e: nat, n: nat)
    ensures |Series(c, e, n)| == n
    ensures forall k :: k in Series(c, e, n) <==> k.class_ == c && k.edition == e && 1 <= k.copy <= n
  {
    if n != 0 {
      SeriesSize(c, e, n - 1);
    }
  }

  lemma {:induction false} EditionSizes(editions: map<ClassId, nat>, copies: Counts, live: set<Key>, burned: set<Key>,
                                        c: ClassId, e: nat)
    requires Counted(editions, copies, live, burned) && e <= CountOf(editions, c)
    ensures |OfEdition(live + burned, c, e)| == SumCopies(copies, c, e)
  {
    var all := live + burned;
    if e == 0 {
      forall k: Key | k in all && k.class_ == c ensures 1 <= k.edition {
        assert Issued(editions, copies, k);
      }
      assert OfEdition(all, c, 0) == {};
    } else {
      EditionSizes(editions, copies, live, burned, c, e - 1);
      var n := copies[(c, e)];
      SeriesSize(c, e, n);
      forall k ensures k in all && k.class_ == c && k.edition == e <==> k in Series(c, e, n) {
        assert k in all <==> Issued(editions, copies, k);
      }
      assert OfEdition(all, c, e) == OfEdition(all, c, e - 1) + Series(c, e, n);
      assert OfEdition(all, c, e - 1) !! Series(c, e, n);
    }
  }

  /** Live and expired instances of a class add up to the copies its editions have counted, after any run in which no
      counter overflows. */
  lemma RunConserves(now: nat, hs: Hashing, steps: seq<(ProtoView, Call)>, c: ClassId)
    requires Fits(Genesis(now), hs, steps)
    ensures var w := Run(Genesis(now), hs, steps);
      |OfClass(w.fragments.Keys, c)| + |OfClass(w.book.burned, c)| == SumCopies(w.copies, c, EditionsOf(w, c))
  {
    GenesisInv(now);
    RunKeepsInv(Genesis(now), hs, steps);
    hide Run, Inv;
    Conservation(Run(Genesis(now), hs, steps), c);
  }

  lemma Conservation(w: World, c: ClassId)
    requires Inv(w)
    ensures |OfClass(w.fragments.Keys, c)| + |OfClass(w.book.burned, c)| == SumCopies(w.copies, c, EditionsOf(w, c))
  {
    var (live, burned) := (w.fragments.Keys, w.book.burned);
    assert Counted(w.editions, w.copies, live, burned) && live !! burned;
    hide Inv, SumCopies;
    EditionSizes(w.editions, w.copies, live, burned, c, EditionsOf(w, c));
    AllCounted(w.editions, w.copies, live, burned);
    hide Counted, OfClass, OfEdition;
    LiveAndBurned(live, burned, c, EditionsOf(w, c));
  }

  lemma LiveAndBurned(live: set<Key>, burned: set<Key>, c: ClassId, n: nat)
    requires live !! burned && forall k: Key :: (k in live || k in burned) && k.class_ == c ==> k.edition <= n
    ensures |OfEdition(live + burned, c, n)| == |OfClass(live, c)| + |OfClass(burned, c)|
  {
    assert OfEdition(live + burned, c, n) == OfClass(live, c) + OfClass(burned, c);
    assert OfClass(live, c) !! OfClass(burned, c);
  }

  lemma AllCounted(editions: map<ClassId, nat>, copies: Counts, live: set<Key>, burned: set<Key>)
    requires Counted(editions, copies, live, burned)
    ensures forall k: Key :: k in live || k in burned ==> k.edition <= CountOf(editions, k.class_)
  {
    forall k: Key | k in live || k in burned ensures k.edition <= CountOf(editions, k.class_) {
      assert Issued(editions, copies, k);
    }
  }

  // ---- What a run may do to one instance ------------------------------------------------------

  /** An instance that will stay where it is: it may not be transferred, or giving it hands out copies. */
  predicate IsSettled(inst: Instance) {
    TRANSFER !in inst.permissions || COPY in inst.permissions
  }

  /** Fewer permissions, nothing else. */
  predicate NarrowedTo(inst: Instance, inst': Instance) {
    inst'.permissions <= inst.permissions && inst' == inst.(permissions := inst'.permissions)
  }

  ghost predicate Tightens(f: map<Key, Instance>, h: map<Key, AccountId>, f': map<Key, Instance>,
                           h': map<Key, AccountId>) {
    && f.Keys == h.Keys && f'.Keys == h'.Keys
    && forall k :: k in f && k in f' ==> NarrowedTo(f[k], f'[k]) && (IsSettled(f[k]) ==> f'[k] == f[k] && h'[k] == h[k])
  }

  ghost predicate Grows(w: World, w': World) {
    && w.now <= w'.now
    && w.book.burned <= w'.book.burned
    && (forall c :: c in w.definitions ==> c in w'.definitions && w'.definitions[c] == w.definitions[c])
    && (forall k :: Issued(w.editions, w.copies, k) ==> Issued(w'.editions, w'.copies, k))
  }

  ghost predicate Evolves(w: World, w': World) {
    Tightens(w.fragments, w.book.holder, w'.fragments, w'.book.holder) && Grows(w, w')
  }

  /** An id live now and live later was live all along: the expired never return. */
  lemma LiveThroughout(w: World, m: World, w': World, k: Key)
    requires Counted(w.editions, w.copies, w.fragments.Keys, w.book.burned)
    requires Counted(m.editions, m.copies, m.fragments.Keys, m.book.burned)
    requires Counted(w'.editions, w'.copies, w'.fragments.Keys, w'.book.burned)
    requires Grows(w, m) && Grows(m, w') && k in w.fragments && k in w'.fragments
    ensures k in m.fragments
  {
  }

  lemma EvolvesTransitive(w: World, m: World, w': World)
    requires Core(w) && Core(m) && Core(w') && Evolves(w, m) && Evolves(m, w')
    ensures Evolves(w, w')
  {
    hide OwnedOnce, Dual, Calendar, Counted, Permitted, CopiesPermitted, DataBijective, DataCarried, DefinitionsIndexed;
    forall k | k in w.fragments && k in w'.fragments ensures k in m.fragments {
      LiveThroughout(w, m, w', k);
    }
  }

  lemma GainTightens(f: map<Key, Instance>, h: map<Key, AccountId>, k: Key, inst: Instance, to: AccountId)
    requires f.Keys == h.Keys && k !in f
    ensures Tightens(f, h, f[k := inst], h[k := to])
  {
  }

  lemma MintOneGrows(w: World, to: AccountId, c: ClassId, inst: Instance)
    requires forall e :: (c, e) in w.copies ==> e <= EditionsOf(w, c)
    ensures Grows(w, MintOne(w, to, c, inst))
  {
  }

  lemma MintOneEvolves(w: World, to: AccountId, c: ClassId, inst: Instance)
    requires Counted(w.editions, w.copies, w.fragments.Keys, w.book.burned) && w.book.holder.Keys == w.fragments.Keys
    ensures Evolves(w, MintOne(w, to, c, inst))
  {
    hide Tightens, Grows;
    NextKeyFree(w, c);
    MintOneGrows(w, to, c, inst);
    GainTightens(w.fragments, w.book.holder, Key(c, EditionsOf(w, c) + 1, 1), inst, to);
  }

  lemma NothingEvolves(w: World)
    requires w.book.holder.Keys == w.fragments.Keys
    ensures Evolves(w, w)
  {
  }

  lemma {:induction false} MintManyEvolves(w: World, to: AccountId, c: ClassId, inst: Instance, n: nat)
    requires Core(w) && Mintable(w, c, inst) && (inst.customData.Some? ==> n <= 1)
    ensures Evolves(w, MintMany(w, to, c, inst, n))
  {
    hide OwnedOnce, Dual, Calendar, Counted, Permitted, CopiesPermitted, DataBijective, DataCarried, DefinitionsIndexed,
      MintOne, Evolves;
    if n == 0 {
      NothingEvolves(w);
    } else {
      var p := MintMany(w, to, c, inst, n - 1);
      MintManyEvolves(w, to, c, inst, n - 1);
      MintManyKeepsCore(w, to, c, inst, n - 1);
      MintManyKeepsCore(w, to, c, inst, n);
      MintOneEvolves(p, to, c, inst);
      hide Core;
      EvolvesTransitive(w, p, MintMany(w, to, c, inst, n));
    }
  }

  lemma CountTouchedGrows(w: World, c: ClassId)
    ensures Grows(w, CountTouched(w, c))
  {
  }

  lemma MintEvolves(w: World, hs: Hashing, to: AccountId, c: ClassId, sale: Option<Sale>, options: BuyOptions,
                    quantity: Unit, expiringAt: Option<nat>, amount: Option<nat>)
    requires Core(w) && EditionsOf(w, c) + quantity < U64
    ensures Evolves(w, After(w, Minted(w, hs, to, c, sale, options, quantity, expiringAt, amount)))
  {
    hide OwnedOnce, Dual, Calendar, Counted, Permitted, CopiesPermitted, DataBijective, DataCarried, DefinitionsIndexed,
      Mintable, MintMany;
    if MintRefusal(w, hs, c, sale, options, quantity, expiringAt).Some? {
      NothingEvolves(w);
    } else {
      var w1 := UnitsTaken(w, c, sale, quantity);
      var inst := NewInstance(w, hs, c, options, expiringAt, amount);
      NewInstanceMintable(w, hs, c, sale, options, quantity, expiringAt, amount);
      MintManyEvolves(w1, to, c, inst, quantity);
      CountTouchedGrows(MintMany(w1, to, c, inst, quantity), c);
      MintedWithin(w, hs, to, c, sale, options, quantity, expiringAt, amount);
      hide Minted;
    }
  }

  lemma CopyEvolves(w: World, to: AccountId, source: Key, inst: Instance)
    requires Core(w) && Copyable(w, source, inst) && CopyFits(w, source)
    ensures Evolves(w, AddCopy(w, to, source.class_, source.edition, inst))
  {
    hide OwnedOnce, Dual, Calendar, Counted, Permitted, CopiesPermitted, DataBijective, DataCarried, DefinitionsIndexed,
      Tightens;
    AddCopyKeepsCounted(w, to, source, inst);
    GainTightens(w.fragments, w.book.holder, NextCopy(w, source), inst, to);
  }

  lemma MoveEvolves(w: World, who: AccountId, k: Key, to: AccountId, perms: Perms)
    requires w.book.holder.Keys == w.fragments.Keys && k in w.fragments
    requires perms <= w.fragments[k].permissions && !IsSettled(w.fragments[k])
    ensures Evolves(w, Move(w, who, k, to, perms))
  {
  }

  lemma SweepEvolves(w: World)
    requires w.book.holder.Keys == w.fragments.Keys
    ensures Evolves(w, NextBlock(w))
  {
    hide DropAll;
    DropAllTakes(w.(expirations := w.expirations - {w.now}), Lookup(w.expirations, w.now));
  }

  lemma CoreLists(w: World)
    requires Core(w)
    ensures OwnedOnce(w.owners, w.book.holder) && Dual(w.owners, w.inventory)
  {
  }

  lemma CoreKeys(w: World)
    requires Core(w)
    ensures w.book.holder.Keys == w.fragments.Keys
  {
  }

  lemma GiveNarrows(w: World, who: AccountId, key: Key, to: Option<AccountId>, narrowed: Option<Perms>,
                    expiration: Option<nat>)
    requires GiveRefusal(w, who, key, to, narrowed, expiration).None?
    ensures key in w.fragments && to.Some? && TRANSFER in w.fragments[key].permissions
    ensures NarrowedPerms(w.fragments[key], narrowed) <= w.fragments[key].permissions
  {
  }

  lemma GiveEvolves(w: World, who: AccountId, key: Key, to: Option<AccountId>, narrowed: Option<Perms>,
                    expiration: Option<nat>)
    requires Core(w)
    requires key in w.fragments && COPY in w.fragments[key].permissions ==> CopyFits(w, key)
    ensures Evolves(w, After(w, Given(w, who, key, to, narrowed, expiration)))
  {
    CoreKeys(w);
    NothingEvolves(w);
    hide Core, AddCopy, Move, Evolves, Copyable, GiveRefusal;
    if GiveRefusal(w, who, key, to, narrowed, expiration).None? {
      GiveNarrows(w, who, key, to, narrowed, expiration);
      var item := w.fragments[key];
      if COPY in item.permissions {
        GivenCopyable(w, who, key, to, narrowed, expiration);
        CopyEvolves(w, to.value, key,
                    item.(permissions := NarrowedPerms(item, narrowed), expiringAt := CopyExpiry(item, expiration)));
      } else {
        MoveEvolves(w, who, key, to.value, NarrowedPerms(item, narrowed));
      }
    }
  }

  lemma CatalogEvolves(w: World, hs: Hashing, env: ProtoView, call: Call)
    requires w.book.holder.Keys == w.fragments.Keys && (call.Create? || call.Publish? || call.Unpublish?)
    ensures Evolves(w, Apply(w, hs, env, call))
  {
  }

  lemma MintByOwnerEvolves(w: World, hs: Hashing, env: ProtoView, who: AccountId, c: ClassId, options: BuyOptions,
                           amount: Option<nat>)
    requires Core(w) && EditionsOf(w, c) + QuantityOf(options) < U64
    ensures Evolves(w, After(w, MintedByOwner(w, hs, env, who, c, options, amount)))
  {
    CoreKeys(w);
    NothingEvolves(w);
    MintEvolves(w, hs, who, c, None, options, QuantityOf(options), None, amount);
    hide Core, Evolves, Minted, ProtoRefusal;
  }

  lemma BuyEvolves(w: World, hs: Hashing, who: AccountId, c: ClassId, options: BuyOptions, funds: Funds)
    requires Core(w) && EditionsOf(w, c) + QuantityOf(options) < U64
    ensures Evolves(w, After(w, Bought(w, hs, who, c, options, funds)))
  {
    CoreKeys(w);
    NothingEvolves(w);
    if Bought(w, hs, who, c, options, funds).Ok? {
      var sale := w.publishing[c];
      BoughtIsMinted(w, hs, who, c, options, funds);
      MintEvolves(w, hs, who, c, Some(sale), options, QuantityOf(options), None, sale.amount);
      var m := Minted(w, hs, who, c, Some(sale), options, QuantityOf(options), None, sale.amount).value;
      MoneyEvolves(w, m, Bought(w, hs, who, c, options, funds).value.money);
    }
    hide Core, Evolves, Minted, Bought;
  }

  lemma MoneyEvolves(w: World, w': World, money: map<Wallet, Balance>)
    requires Evolves(w, w')
    ensures Evolves(w, w'.(money := money))
  {
  }

  lemma EndBlockEvolves(w: World, hs: Hashing, env: ProtoView, order: seq<AccountId>)
    requires Core(w)
    ensures Evolves(w, Apply(w, hs, env, EndBlock(order)))
  {
    CoreKeys(w);
    CoreLists(w);
    hide Core, Evolves, Apply, NextBlock;
    BlockEndsSwept(w, hs, env, order);
    SweepEvolves(w);
  }

  lemma StepEvolves(w: World, hs: Hashing, env: ProtoView, call: Call)
    requires Core(w) && !(Outcome(w, hs, env, call).Ok? && Overflows(w, call))
    ensures Evolves(w, Apply(w, hs, env, call))
  {
    CoreKeys(w);
    NothingEvolves(w);
    hide Core, Evolves, Created, Published, Unpublished, MintedByOwner, Bought, Given, Swept, SweptBy;
    match call
    case Create(_, _, _, _, _, _, _) => CatalogEvolves(w, hs, env, call);
    case Publish(_, _, _) => CatalogEvolves(w, hs, env, call);
    case Unpublish(_, _) => CatalogEvolves(w, hs, env, call);
    case Mint(who, c, options, amount) =>
      if MintedByOwner(w, hs, env, who, c, options, amount).Ok? {
        MintByOwnerEvolves(w, hs, env, who, c, options, amount);
      }
    case Buy(who, c, options, funds) =>
      if Bought(w, hs, who, c, options, funds).Ok? {
        BuyEvolves(w, hs, who, c, options, funds);
      }
    case Give(who, key, to, narrowed, expiration) =>
      if Given(w, who, key, to, narrowed, expiration).Ok? {
        GiveEvolves(w, who, key, to, narrowed, expiration);
      }
    case EndBlock(order) => EndBlockEvolves(w, hs, env, order);
    case Outside(x, balance) => MoneyEvolves(w, w, w.money[x := balance]);
  }

  /** Over any run in which no counter overflows: permissions only narrow, an instance that is untransferable or
      copyable never changes or moves, expired ids stay expired, definitions stay as created, and counters only grow. */
  lemma {:induction false} RunEvolves(w: World, hs: Hashing, steps: seq<(ProtoView, Call)>)
    requires Inv(w) && Fits(w, hs, steps)
    ensures Evolves(w, Run(w, hs, steps))
  {
    CoreKeys(w);
    NothingEvolves(w);
    hide Core, Apply, Evolves, Outcome, Overflows;
    if steps != [] {
      var (before, last) := (steps[..|steps| - 1], steps[|steps| - 1]);
      var m := Run(w, hs, before);
      RunEvolves(w, hs, before);
      RunKeepsInv(w, hs, before);
      RunKeepsInv(w, hs, steps);
      StepEvolves(m, hs, last.0, last.1);
      EvolvesTransitive(w, m, Run(w, hs, steps));
    }
  }
}
