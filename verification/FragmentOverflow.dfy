/** Where the counters of the fragments pallet leave u64: a run that gets there, and the classes that never do. */
module FragmentOverflow {
  import opened Basics
  import opened FragmentLedger
  import opened FragmentInvariants
  import opened FragmentTheorems
  import opened FragmentPromises
  import opened FragmentSupply
  import opened FragmentSweep

  /** Without a maximal supply nothing limits the quantity of a mint. Make one edition, then as many as take the count
      back to zero, then one more. */
  function Overflowing(who: AccountId, proto: Hash256, c: ClassId, env: ProtoView): seq<(ProtoView, Call)> {
    [(env, Create(who, proto, Metadata([], None), {}, None, None, true)),
     (env, Mint(who, c, Quantity(1), None)),
     (env, Mint(who, c, Quantity(U64 - 1), None)),
     (env, Mint(who, c, Quantity(1), None))]
  }

  /** A class of the signer's, of unlimited supply. */
  predicate Unlimited(w: World, env: ProtoView, who: AccountId, c: ClassId) {
    && c in w.definitions && w.definitions[c].maxSupply.None? && w.definitions[c].unique.None?
    && ProtoRefusal(env, w.definitions[c].protoHash, who).None?
  }

  lemma UnlimitedAccepts(w: World, hs: Hashing, env: ProtoView, who: AccountId, c: ClassId, q: Unit)
    requires Unlimited(w, env, who, c)
    ensures MintRefusal(w, hs, c, None, Quantity(q), q, None).None?
    ensures Minted(w, hs, who, c, None, Quantity(q), q, None, None).Ok?
    ensures Takes(w, hs, env, Mint(who, c, Quantity(q), None),
                  Minted(w, hs, who, c, None, Quantity(q), q, None, None).value)
  {
    assert MintRefusal(w, hs, c, None, Quantity(q), q, None).None?;
    hide ProtoRefusal, MintRefusal;
    assert Minted(w, hs, who, c, None, Quantity(q), q, None, None).Ok?;
    hide Minted;
  }

  /** Any quantity is accepted: it makes what the loop makes and leaves the count modulo 2^64. */
  lemma UnlimitedMint(w: World, hs: Hashing, env: ProtoView, who: AccountId, c: ClassId, q: Unit) returns (w': World)
    requires Unlimited(w, env, who, c)
    ensures Takes(w, hs, env, Mint(who, c, Quantity(q), None), w') && Unlimited(w', env, who, c)
    ensures EditionsOf(w', c) == EndOf(EditionsOf(w, c), q)
    ensures Lookup(w'.owners, (c, who)) ==
              Lookup(w.owners, (c, who)) + FirstCopies(EditionsOf(w, c), Passes(EditionsOf(w, c), q))
    ensures w.fragments.Keys <= w'.fragments.Keys
    ensures 0 < Passes(EditionsOf(w, c), q) ==> Key(c, EditionsOf(w, c) + 1, 1) in w'.fragments
  {
    hide ProtoRefusal, EndOf, Passes;
    UnlimitedAccepts(w, hs, env, who, c, q);
    hide Takes;
    w' := Minted(w, hs, who, c, None, Quantity(q), q, None, None).value;
    var (inst, n) := (NewInstance(w, hs, c, Quantity(q), None, None), EditionsOf(w, c));
    MintedCounts(w, hs, who, c, None, Quantity(q), q, None, None);
    MintedLists(w, who, c, inst, Passes(n, q));
    MintedInstances(w, who, c, inst, Passes(n, q));
    assert w'.owners == MintMany(w, who, c, inst, Passes(n, q)).owners;
    assert w'.fragments == MintMany(w, who, c, inst, Passes(n, q)).fragments;
    assert 0 < Passes(n, q) ==> MintedBetween(Key(c, n + 1, 1), c, n, Passes(n, q));
    hide Minted, MintMany, MintRefusal, NewInstance, FirstCopies, MintedBetween;
  }

  lemma NewUnlimited(now: nat, hs: Hashing, env: ProtoView, who: AccountId, proto: Hash256) returns (w: World)
    requires ProtoRefusal(env, proto, who).None?
    ensures Takes(Genesis(now), hs, env, Create(who, proto, Metadata([], None), {}, None, None, true), w)
    ensures Unlimited(w, env, who, hs.classId(proto, Metadata([], None)))
    ensures w.owners == map[] && EditionsOf(w, hs.classId(proto, Metadata([], None))) == 0
  {
    hide ProtoRefusal;
    w := Created(Genesis(now), hs, env, who, proto, Metadata([], None), {}, None, None, true).value;
  }

  lemma UpAndAround()
    ensures EndOf(0, 1) == 1 && Passes(0, 1) == 1 && EndOf(1, U64 - 1) == 0 && Passes(1, U64 - 1) == 0
    ensures FirstCopies(0, 1) == [Id(1, 1)] && FirstCopies(1, 0) == []
  {
  }

  lemma OverflowingSteps(who: AccountId, proto: Hash256, c: ClassId, env: ProtoView)
    ensures var steps := Overflowing(who, proto, c, env);
      && |steps| == 4
      && Begun(who, proto, c, env) + [(env, Mint(who, c, Quantity(U64 - 1), None))] == steps[..3]
      && steps[..3] + [(env, Mint(who, c, Quantity(1), None))] == steps
  {
  }

  /** The first two calls of that run. */
  function Begun(who: AccountId, proto: Hash256, c: ClassId, env: ProtoView): seq<(ProtoView, Call)> {
    [(env, Create(who, proto, Metadata([], None), {}, None, None, true))] + [(env, Mint(who, c, Quantity(1), None))]
  }

  lemma OverflowBegun(now: nat, hs: Hashing, env: ProtoView, who: AccountId, proto: Hash256, c: ClassId)
    returns (w2: World)
    requires ProtoRefusal(env, proto, who).None? && c == hs.classId(proto, Metadata([], None))
    ensures Leads(Genesis(now), hs, Begun(who, proto, c, env), w2) && Unlimited(w2, env, who, c)
    ensures EditionsOf(w2, c) == 1 && Key(c, 1, 1) in w2.fragments && Lookup(w2.owners, (c, who)) == [Id(1, 1)]
  {
    var create := Create(who, proto, Metadata([], None), {}, None, None, true);
    var mint := Mint(who, c, Quantity(1), None);
    assert Begun(who, proto, c, env) == [(env, create)] + [(env, mint)];
    hide Leads, Takes, Begun, Unlimited, EndOf, Passes, FirstCopies, ProtoRefusal, EditionsOf;
    UpAndAround();
    var w1 := NewUnlimited(now, hs, env, who, proto);
    assert Lookup(w1.owners, (c, who)) == [];
    hide Lookup;
    assert [] + FirstCopies(0, 1) == [Id(1, 1)];
    w2 := UnlimitedMint(w1, hs, env, who, c, 1);
    LeadsFirst(Genesis(now), hs, env, create, w1);
    LeadsOn(Genesis(now), hs, [(env, create)], w1, env, mint, w2);
  }

  lemma LeadsFirst(g: World, hs: Hashing, env: ProtoView, call: Call, w: World)
    requires Takes(g, hs, env, call, w)
    ensures Leads(g, hs, [(env, call)], w)
  {
    assert Leads(g, hs, [], g);
    assert [] + [(env, call)] == [(env, call)];
    hide Leads, Takes;
    LeadsOn(g, hs, [], g, env, call, w);
  }

  /** The states of that run after three calls and after all four. */
  lemma OverflowReached(now: nat, hs: Hashing, env: ProtoView, who: AccountId, proto: Hash256, c: ClassId)
    returns (w3: World, w4: World)
    requires ProtoRefusal(env, proto, who).None? && c == hs.classId(proto, Metadata([], None))
    ensures var steps := Overflowing(who, proto, c, env);
      Leads(Genesis(now), hs, steps[..3], w3) && Leads(Genesis(now), hs, steps, w4)
    ensures EditionsOf(w3, c) == 0 && Key(c, 1, 1) in w3.fragments
    ensures Lookup(w4.owners, (c, who)) == [Id(1, 1), Id(1, 1)]
  {
    OverflowingSteps(who, proto, c, env);
    hide Leads, Takes, Overflowing, Begun, Unlimited, EndOf, Passes, FirstCopies, ProtoRefusal, Lookup, EditionsOf;
    UpAndAround();
    var (g, steps) := (Genesis(now), Overflowing(who, proto, c, env));
    var w2 := OverflowBegun(now, hs, env, who, proto, c);
    w3 := UnlimitedMint(w2, hs, env, who, c, U64 - 1);
    LeadsOn(g, hs, Begun(who, proto, c, env), w2, env, Mint(who, c, Quantity(U64 - 1), None), w3);
    w4 := UnlimitedMint(w3, hs, env, who, c, 1);
    LeadsOn(g, hs, steps[..3], w3, env, Mint(who, c, Quantity(1), None), w4);
  }

  /** Every call of that run is accepted. After the third an instance is live of a class that counts no editions, so
      live and expired instances no longer add up; after the fourth the same id is listed twice. */
  lemma OverflowBreaksTheLedger(now: nat, hs: Hashing, who: AccountId, proto: Hash256)
    ensures var c := hs.classId(proto, Metadata([], None));
      var steps := Overflowing(who, proto, c, ProtoView(map[proto := User(who)], {}));
      var (w3, w4) := (Run(Genesis(now), hs, steps[..3]), Run(Genesis(now), hs, steps));
      && AllAccepted(Genesis(now), hs, steps)
      && |OfClass(w3.fragments.Keys, c)| + |OfClass(w3.book.burned, c)| != SumCopies(w3.copies, c, EditionsOf(w3, c))
      && Lookup(w4.owners, (c, who)) == [Id(1, 1), Id(1, 1)]
      && !Inv(w3) && !Inv(w4)
  {
    var c := hs.classId(proto, Metadata([], None));
    var env := ProtoView(map[proto := User(who)], {});
    var w3, w4 := OverflowReached(now, hs, env, who, proto, c);
    hide Run, AllAccepted, Overflowing, EditionsOf, SumCopies, Inv, Lookup;
    assert Key(c, 1, 1) in OfClass(w3.fragments.Keys, c);
    hide OfClass;
    Uneven(w3, c);
    ListedTwice(w4, (c, who));
  }

  lemma Uneven(w: World, c: ClassId)
    requires EditionsOf(w, c) == 0 && OfClass(w.fragments.Keys, c) != {}
    ensures |OfClass(w.fragments.Keys, c)| + |OfClass(w.book.burned, c)| != SumCopies(w.copies, c, EditionsOf(w, c))
    ensures !Inv(w)
  {
    if Inv(w) { Conservation(w, c); }
  }

  lemma ListedTwice(w: World, s: (ClassId, AccountId))
    requires Lookup(w.owners, s) == [Id(1, 1), Id(1, 1)]
    ensures !Inv(w)
  {
    assert w.owners[s][0] == w.owners[s][1];
  }

  /** A class whose doubled supply fits in u64 never gets there, by any accepted call. */
  lemma ScarceNeverOverflows(w: World, hs: Hashing, env: ProtoView, call: Call)
    requires Supplied(w.definitions, w.editions, w.publishing) && Outcome(w, hs, env, call).Ok?
    requires (call.Mint? || call.Buy?) && Scarce(w, call.c) && 2 * w.definitions[call.c].maxSupply.value < U64
    ensures !Overflows(w, call)
  {
    var c := call.c;
    hide Minted, ProtoRefusal;
    SuppliedAt(w.definitions, w.editions, w.publishing, c);
    if call.Mint? {
      AcceptedMint(w, hs, call.who, c, None, call.options, None, call.amount);
    } else {
      BoughtIsMinted(w, hs, call.who, c, call.options, call.funds);
      AcceptedMint(w, hs, call.who, c, Some(w.publishing[c]), call.options, None, w.publishing[c].amount);
    }
    hide Bought, MintedByOwner, Supplied;
  }

  // ---- The sweep past an overflow --------------------------------------------------------------

  /** A class that may be copied and transferred, so many editions counted, copies of the first, and ids listed by the
      owner, whose first copy of it does not expire. */
  predicate Stage(w: World, env: ProtoView, who: AccountId, c: ClassId, editions: nat, copies: nat, list: seq<Id>,
                  expirations: map<nat, seq<Key>>)
  {
    && Unlimited(w, env, who, c) && w.definitions[c].permissions == {COPY, TRANSFER} && EditionsOf(w, c) == editions
    && CopiesOf(w, c, 1) == copies && (c, 1) in w.copies
    && Lookup(w.owners, (c, who)) == list && (who, c) in w.inventory && w.inventory[(who, c)] == list
    && Key(c, 1, 1) in w.fragments && w.fragments[Key(c, 1, 1)].permissions == {COPY, TRANSFER}
    && w.fragments[Key(c, 1, 1)].expiringAt.None?
    && w.expirations == expirations
  }

  /** A class of which nothing is counted, whatever is listed. */
  predicate Uncounted(w: World, env: ProtoView, who: AccountId, c: ClassId, list: seq<Id>,
                      expirations: map<nat, seq<Key>>)
  {
    && Unlimited(w, env, who, c) && w.definitions[c].permissions == {COPY, TRANSFER} && EditionsOf(w, c) == 0
    && Lookup(w.owners, (c, who)) == list && Lookup(w.inventory, (who, c)) == list && w.expirations == expirations
  }

  lemma StageCreate(now: nat, hs: Hashing, env: ProtoView, who: AccountId, proto: Hash256) returns (w: World)
    requires ProtoRefusal(env, proto, who).None?
    ensures Takes(Genesis(now), hs, env,
                  Create(who, proto, Metadata([], None), {COPY, TRANSFER}, None, None, true), w)
    ensures Uncounted(w, env, who, hs.classId(proto, Metadata([], None)), [], map[]) && w.now == now
  {
    hide ProtoRefusal;
    w := Created(Genesis(now), hs, env, who, proto, Metadata([], None), {COPY, TRANSFER}, None, None, true).value;
  }

  lemma StageOfOne(w: World, env: ProtoView, who: AccountId, c: ClassId, list: seq<Id>,
                   expirations: map<nat, seq<Key>>)
    requires Uncounted(w, env, who, c, list, expirations)
    ensures var w' := Recorded(MintOne(w, who, c, Instance({COPY, TRANSFER}, w.now, None, None, None)), c, None, 0, 1);
      Stage(w', env, who, c, 1, 1, list + [Id(1, 1)], expirations) && w'.now == w.now
  {
    hide ProtoRefusal;
  }

  lemma StageMint(w: World, hs: Hashing, env: ProtoView, who: AccountId, c: ClassId, list: seq<Id>,
                  expirations: map<nat, seq<Key>>) returns (w': World)
    requires Uncounted(w, env, who, c, list, expirations)
    ensures Takes(w, hs, env, Mint(who, c, Quantity(1), None), w')
    ensures Stage(w', env, who, c, 1, 1, list + [Id(1, 1)], expirations) && w'.now == w.now
  {
    hide ProtoRefusal;
    UnlimitedAccepts(w, hs, env, who, c, 1);
    var inst := NewInstance(w, hs, c, Quantity(1), None, None);
    assert EndOf(0, 1) == 1 && Passes(0, 1) == 1;
    hide MintRefusal, Takes;
    assert MintMany(w, who, c, inst, 1) == MintOne(MintMany(w, who, c, inst, 0), who, c, inst);
    w' := Recorded(MintOne(w, who, c, inst), c, None, 0, 1);
    assert inst == Instance({COPY, TRANSFER}, w.now, None, None, None);
    StageOfOne(w, env, who, c, list, expirations);
    hide MintMany, NewInstance, MintOne, Recorded, Uncounted, Stage;
  }

  lemma StageWrap(w: World, hs: Hashing, env: ProtoView, who: AccountId, c: ClassId, copies: nat, list: seq<Id>,
                  expirations: map<nat, seq<Key>>) returns (w': World)
    requires Stage(w, env, who, c, 1, copies, list, expirations)
    ensures Takes(w, hs, env, Mint(who, c, Quantity(U64 - 1), None), w')
    ensures Uncounted(w', env, who, c, list, expirations) && w'.now == w.now
  {
    hide ProtoRefusal;
    UnlimitedAccepts(w, hs, env, who, c, U64 - 1);
    var inst := NewInstance(w, hs, c, Quantity(U64 - 1), None, None);
    assert EndOf(1, U64 - 1) == 0 && Passes(1, U64 - 1) == 0;
    hide MintRefusal, Takes;
    assert MintMany(w, who, c, inst, 0) == w;
    w' := Recorded(w, c, None, 1, 0);
    hide MintMany;
  }

  /** A copy given to oneself, expiring if asked to. */
  lemma StageGive(w: World, hs: Hashing, env: ProtoView, who: AccountId, c: ClassId, list: seq<Id>,
                  expirations: map<nat, seq<Key>>, expiry: Option<nat>) returns (w': World)
    requires Stage(w, env, who, c, 1, 1, list, expirations) && Id(1, 1) in list
    requires expiry.Some? ==> w.now < expiry.value
    ensures Takes(w, hs, env, Give(who, Key(c, 1, 1), Some(who), None, expiry), w')
    ensures var k := Key(c, 1, 2);
      Stage(w', env, who, c, 1, 2, list + [Id(1, 2)],
            if expiry.Some? then Append(expirations, expiry.value, k) else expirations)
    ensures w'.now == w.now
  {
    hide ProtoRefusal;
    var k := Key(c, 1, 1);
    assert GiveRefusal(w, who, k, Some(who), None, expiry).None?;
    hide GiveRefusal;
    w' := AddCopy(w, who, c, 1, w.fragments[k].(expiringAt := CopyExpiry(w.fragments[k], expiry)));
  }

  /** A block ends at which nothing is due. */
  lemma StageWait(w: World, hs: Hashing, env: ProtoView, who: AccountId, c: ClassId, list: seq<Id>,
                  expirations: map<nat, seq<Key>>) returns (w': World)
    requires Stage(w, env, who, c, 1, 2, list, expirations) && w.now !in expirations
    ensures Takes(w, hs, env, EndBlock([who]), w')
    ensures Stage(w', env, who, c, 1, 2, list, expirations) && w'.now == w.now + 1
  {
    w' := w.(now := w.now + 1);
    assert w.expirations - {w.now} == w.expirations;
    assert SweptBy(w, [who]) == w;
  }

  /** A block ends at which a copy is due that the owner lists twice: one listing stays. */
  lemma StageSweep(w: World, hs: Hashing, env: ProtoView, who: AccountId, c: ClassId)
    requires var k := Key(c, 1, 2);
      Stage(w, env, who, c, 1, 2, [Id(1, 1), Id(1, 2), Id(1, 1), Id(1, 2)], map[w.now := [k]])
    ensures var w' := Apply(w, hs, env, EndBlock([who]));
      Key(c, 1, 2) !in w'.fragments && Lookup(w'.owners, (c, who)) == [Id(1, 1), Id(1, 1), Id(1, 2)]
  {
    var (k, w1) := (Key(c, 1, 2), w.(expirations := w.expirations - {w.now}));
    assert Lookup(w.expirations, w.now) == [k];
    assert Lookup(w1.owners, (c, who)) == [Id(1, 1), Id(1, 2), Id(1, 1), Id(1, 2)];
    hide Stage, Lookup;
    SweepOne(w, k, [who]);
    SweepFirst(w1, k, who);
    BlockEnds(w, hs, env, [who]);
    hide Apply, Swept, SweptBy, Drop, Delisted;
  }

  lemma StageSweepDiffers(w: World, env: ProtoView, who: AccountId, c: ClassId)
    requires var k := Key(c, 1, 2);
      Stage(w, env, who, c, 1, 2, [Id(1, 1), Id(1, 2), Id(1, 1), Id(1, 2)], map[w.now := [k]])
    ensures SweptBy(w, [who]).owners != Swept(w).owners
  {
    var (k, w1) := (Key(c, 1, 2), w.(expirations := w.expirations - {w.now}));
    assert IdOf(k) == Id(1, 2) && multiset(w.owners[(c, who)])[IdOf(k)] == 2;
    ListingsAtLeast(w1.owners, k, who);
    assert Lookup(w.expirations, w.now) == [k] && multiset([k])[k] == 1;
    assert !WithinCalendar(w1.owners, [k]);
    DelistAllIsDropAllIff(w1, [k], [who]);
    hide DelistAll, DropAll, WithinCalendar, Stage, Lookup;
  }

  lemma SweepFirst(w: World, k: Key, who: AccountId)
    requires k.edition == 1 && k.copy == 2
    requires Lookup(w.owners, (k.class_, who)) == [Id(1, 1), Id(1, 2), Id(1, 1), Id(1, 2)]
    ensures k !in Delisted(w, k, [who]).fragments
    ensures Lookup(Delisted(w, k, [who]).owners, (k.class_, who)) == [Id(1, 1), Id(1, 1), Id(1, 2)]
  {
    FoundOnly(w.owners, k, who);
    hide FoundLister;
    var list := w.owners[(k.class_, who)];
    SecondOfFour(list);
  }

  lemma SecondOfFour(list: seq<Id>)
    requires list == [Id(1, 1), Id(1, 2), Id(1, 1), Id(1, 2)]
    ensures Position(list, Id(1, 2)) == Some(1) && RemoveAt(list, 1) == [Id(1, 1), Id(1, 1), Id(1, 2)]
  {
    assert list[1..] == [Id(1, 2), Id(1, 1), Id(1, 2)];
  }

  lemma SweepOne(w: World, k: Key, order: seq<AccountId>)
    requires Lookup(w.expirations, w.now) == [k]
    ensures var w1 := w.(expirations := w.expirations - {w.now});
      SweptBy(w, order) == Delisted(w1, k, order) && Swept(w) == Drop(w1, k)
  {
    hide Delisted, Drop;
    var w1 := w.(expirations := w.expirations - {w.now});
    assert [k][..0] == [];
    assert DelistAll(w1, [k], order) == Delisted(DelistAll(w1, [], order), k, order);
    assert DropAll(w1, [k]) == Drop(DropAll(w1, []), k);
  }

  lemma FoundOnly(owners: map<(ClassId, AccountId), seq<Id>>, k: Key, who: AccountId)
    requires (k.class_, who) in owners && IdOf(k) in owners[(k.class_, who)]
    ensures FoundLister(owners, k, [who]) == Some(who)
  {
    assert who in Listers(owners, k);
    assert FirstIn([who], Listers(owners, k)) == Some(who);
  }

  /** Copy an instance with an expiry, overflow the count, make the edition again, copy it again, and wait. */
  function DoubledCopy(who: AccountId, proto: Hash256, c: ClassId, env: ProtoView, now: nat): seq<(ProtoView, Call)> {
    [(env, Create(who, proto, Metadata([], None), {COPY, TRANSFER}, None, None, true)),
     (env, Mint(who, c, Quantity(1), None)),
     (env, Give(who, Key(c, 1, 1), Some(who), None, Some(now + 1))),
     (env, Mint(who, c, Quantity(U64 - 1), None)),
     (env, Mint(who, c, Quantity(1), None)),
     (env, Give(who, Key(c, 1, 1), Some(who), None, None)),
     (env, EndBlock([who]))]
  }

  lemma FirstDue(b: nat, k: Key)
    ensures Append(map[], b, k) == map[b := [k]]
  {
    var none: map<nat, seq<Key>> := map[];
    assert Lookup(none, b) + [k] == [k];
    assert Append(none, b, k) == none[b := [k]];
  }

  /** The first three calls of that run: the copy is due at the next block. */
  lemma FirstCopied(now: nat, hs: Hashing, env: ProtoView, who: AccountId, proto: Hash256, c: ClassId)
    returns (w: World)
    requires ProtoRefusal(env, proto, who).None? && c == hs.classId(proto, Metadata([], None))
    ensures Leads(Genesis(now), hs, DoubledCopy(who, proto, c, env, now)[..3], w)
    ensures Stage(w, env, who, c, 1, 2, [Id(1, 1), Id(1, 2)], map[now + 1 := [Key(c, 1, 2)]]) && w.now == now
  {
    var (a, b, g) := (Id(1, 1), Id(1, 2), Genesis(now));
    assert [] + [a] == [a] && [a] + [b] == [a, b];
    FirstDue(now + 1, Key(c, 1, 2));
    var create := Create(who, proto, Metadata([], None), {COPY, TRANSFER}, None, None, true);
    var (mint, give) := (Mint(who, c, Quantity(1), None), Give(who, Key(c, 1, 1), Some(who), None, Some(now + 1)));
    assert Leads(g, hs, [], g);
    assert [] + [(env, create)] + [(env, mint)] + [(env, give)] == DoubledCopy(who, proto, c, env, now)[..3];
    hide Leads, Takes, DoubledCopy, ProtoRefusal, Stage, Uncounted, Append;
    var w1 := StageCreate(now, hs, env, who, proto);
    LeadsOn(g, hs, [], g, env, create, w1);
    var w2 := StageMint(w1, hs, env, who, c, [], map[]);
    LeadsOn(g, hs, [] + [(env, create)], w1, env, mint, w2);
    w := StageGive(w2, hs, env, who, c, [a], map[], Some(now + 1));
    LeadsOn(g, hs, [] + [(env, create)] + [(env, mint)], w2, env, give, w);
  }

  /** The next three: the count overflows, the edition is made again, and copied again. */
  lemma CopiedAgain(g: World, hs: Hashing, steps: seq<(ProtoView, Call)>, w: World, env: ProtoView, who: AccountId,
                    c: ClassId, due: map<nat, seq<Key>>) returns (w': World)
    requires Leads(g, hs, steps, w) && Stage(w, env, who, c, 1, 2, [Id(1, 1), Id(1, 2)], due)
    ensures Leads(g, hs, steps + Again(who, c, env), w')
    ensures Stage(w', env, who, c, 1, 2, [Id(1, 1), Id(1, 2), Id(1, 1), Id(1, 2)], due) && w'.now == w.now
  {
    var (a, b) := (Id(1, 1), Id(1, 2));
    var (around, one) := (Mint(who, c, Quantity(U64 - 1), None), Mint(who, c, Quantity(1), None));
    var give := Give(who, Key(c, 1, 1), Some(who), None, None);
    assert [a, b] + [a] == [a, b, a] && [a, b, a] + [b] == [a, b, a, b];
    assert steps + [(env, around)] + [(env, one)] + [(env, give)] == steps + Again(who, c, env);
    hide Leads, Takes, Stage, Uncounted, Again;
    var w1 := StageWrap(w, hs, env, who, c, 2, [a, b], due);
    LeadsOn(g, hs, steps, w, env, around, w1);
    var w2 := StageMint(w1, hs, env, who, c, [a, b], due);
    LeadsOn(g, hs, steps + [(env, around)], w1, env, one, w2);
    w' := StageGive(w2, hs, env, who, c, [a, b, a], due, None);
    LeadsOn(g, hs, steps + [(env, around)] + [(env, one)], w2, env, give, w');
  }

  /** The calls of that run after the first three, in two parts. */
  function Again(who: AccountId, c: ClassId, env: ProtoView): seq<(ProtoView, Call)> {
    [(env, Mint(who, c, Quantity(U64 - 1), None)), (env, Mint(who, c, Quantity(1), None)),
     (env, Give(who, Key(c, 1, 1), Some(who), None, None))]
  }

  lemma DoubledCopySteps(who: AccountId, proto: Hash256, c: ClassId, env: ProtoView, now: nat)
    ensures var steps := DoubledCopy(who, proto, c, env, now);
      |steps| == 7 && steps[..3] + Again(who, c, env) + [(env, EndBlock([who]))] == steps
  {
  }

  /** The rest of that run after the first three: what was doubled waits a block. */
  lemma DoubledAndWaited(g: World, hs: Hashing, steps: seq<(ProtoView, Call)>, w: World, env: ProtoView,
                         who: AccountId, c: ClassId) returns (w': World)
    requires Leads(g, hs, steps, w)
    requires Stage(w, env, who, c, 1, 2, [Id(1, 1), Id(1, 2)], map[w.now + 1 := [Key(c, 1, 2)]])
    ensures Leads(g, hs, steps + Again(who, c, env) + [(env, EndBlock([who]))], w')
    ensures Stage(w', env, who, c, 1, 2, [Id(1, 1), Id(1, 2), Id(1, 1), Id(1, 2)], map[w'.now := [Key(c, 1, 2)]])
  {
    hide Leads, Takes, Stage, Again;
    var (due, list) := (map[w.now + 1 := [Key(c, 1, 2)]], [Id(1, 1), Id(1, 2), Id(1, 1), Id(1, 2)]);
    var w6 := CopiedAgain(g, hs, steps, w, env, who, c, due);
    w' := StageWait(w6, hs, env, who, c, list, due);
    LeadsOn(g, hs, steps + Again(who, c, env), w6, env, EndBlock([who]), w');
  }

  lemma DoubledCopyReached(now: nat, hs: Hashing, env: ProtoView, who: AccountId, proto: Hash256, c: ClassId)
    returns (w: World)
    requires ProtoRefusal(env, proto, who).None? && c == hs.classId(proto, Metadata([], None))
    ensures Leads(Genesis(now), hs, DoubledCopy(who, proto, c, env, now), w)
    ensures Stage(w, env, who, c, 1, 2, [Id(1, 1), Id(1, 2), Id(1, 1), Id(1, 2)], map[w.now := [Key(c, 1, 2)]])
  {
    DoubledCopySteps(who, proto, c, env, now);
    hide Leads, Takes, Stage, DoubledCopy, Again;
    var w3 := FirstCopied(now, hs, env, who, proto, c);
    w := DoubledAndWaited(Genesis(now), hs, DoubledCopy(who, proto, c, env, now)[..3], w3, env, who, c);
  }

  /** Past an overflow the sweep is no longer the simple one: there is a run from empty storage at whose next block end
      an expiring id goes from `Fragments` and stays in its owner's list. */
  lemma SweepLeavesOne(now: nat, hs: Hashing, who: AccountId, proto: Hash256)
    ensures var c := hs.classId(proto, Metadata([], None));
      var env := ProtoView(map[proto := User(who)], {});
      var w := Run(Genesis(now), hs, DoubledCopy(who, proto, c, env, now));
      var w' := Apply(w, hs, env, EndBlock([who]));
      && AllAccepted(Genesis(now), hs, DoubledCopy(who, proto, c, env, now))
      && Lookup(w.expirations, w.now) == [Key(c, 1, 2)]
      && SweptBy(w, [who]).owners != Swept(w).owners
      && Key(c, 1, 2) !in w'.fragments && Lookup(w'.owners, (c, who)) == [Id(1, 1), Id(1, 1), Id(1, 2)]
  {
    var c := hs.classId(proto, Metadata([], None));
    var env := ProtoView(map[proto := User(who)], {});
    var w := DoubledCopyReached(now, hs, env, who, proto, c);
    StageSweep(w, hs, env, who, c);
    StageSweepDiffers(w, env, who, c);
    hide Run, AllAccepted, Apply, SweptBy, Swept, DoubledCopy, Unlimited;
  }
}
