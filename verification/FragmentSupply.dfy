/** The supply of a scarce class: what sales and mints promise together, and where they break the promise. */
module FragmentSupply {
  import opened Basics
  import opened FragmentLedger
  import opened FragmentInvariants
  import opened FragmentTheorems

  predicate Scarce(w: World, c: ClassId) {
    c in w.definitions && w.definitions[c].maxSupply.Some?
  }

  /** Editions made plus units an open sale may still sell. */
  function Committed(w: World, c: ClassId): nat {
    EditionsOf(w, c) + UnitsLeft(w.publishing, c)
  }

  predicate WithinSupply(w: World, c: ClassId) {
    Scarce(w, c) ==> Committed(w, c) <= w.definitions[c].maxSupply.value
  }

  predicate CountWithin(w: World, c: ClassId) {
    Scarce(w, c) ==> EditionsOf(w, c) <= w.definitions[c].maxSupply.value
  }

  /** A mint by the owner looks at the editions made but not at the units on sale. */
  predicate Oversells(w: World, call: Call, c: ClassId) {
    call.Mint? && call.c == c && Scarce(w, c)
      && w.definitions[c].maxSupply.value < Committed(w, c) + QuantityOf(call.options)
  }

  /** A purchase that leaves more editions than the supply, counted in u64. */
  predicate Overruns(w: World, call: Call, c: ClassId) {
    call.Buy? && call.c == c && Scarce(w, c)
    && w.definitions[c].maxSupply.value < EditionsOf(w, c) + QuantityOf(call.options) < U64
  }

  /** A purchase turns units on sale into editions, one for one, exactly while the editions fit in u64. */
  lemma BuyKeepsCommittedIff(w: World, hs: Hashing, who: AccountId, c: ClassId, options: BuyOptions, funds: Funds)
    requires Bought(w, hs, who, c, options, funds).Ok? && w.publishing[c].unitsLeft.Some?
    ensures var w' := Bought(w, hs, who, c, options, funds).value;
      && (Committed(w', c) == Committed(w, c) <==> EditionsOf(w, c) + QuantityOf(options) < U64)
      && Committed(w', c) <= Committed(w, c)
      && EditionsOf(w', c) == (EditionsOf(w, c) + QuantityOf(options)) % U64
      && w'.definitions == w.definitions
  {
    hide MintMany, Minted, MintRefusal, Passes;
    BoughtCounts(w, hs, who, c, options, funds);
    SaleCoversQuantity(w, hs, c, options);
    EndsWhere(EditionsOf(w, c), QuantityOf(options));
    hide Bought, EndOf;
  }

  /** What a purchase does to the counts. */
  lemma BoughtCounts(w: World, hs: Hashing, who: AccountId, c: ClassId, options: BuyOptions, funds: Funds)
    requires Bought(w, hs, who, c, options, funds).Ok?
    ensures c in w.publishing
    ensures MintRefusal(w, hs, c, Some(w.publishing[c]), options, QuantityOf(options), None).None?
    ensures var w' := Bought(w, hs, who, c, options, funds).value;
      && w'.definitions == w.definitions
      && w'.editions == w.editions[c := EndOf(EditionsOf(w, c), QuantityOf(options))]
      && w'.publishing == UnitsTaken(w, c, Some(w.publishing[c]), QuantityOf(options)).publishing
  {
    hide Minted, MintRefusal;
    BoughtIsMinted(w, hs, who, c, options, funds);
    var sale := w.publishing[c];
    AcceptedMint(w, hs, who, c, Some(sale), options, None, sale.amount);
    MintedCounts(w, hs, who, c, Some(sale), options, QuantityOf(options), None, sale.amount);
    hide Bought, UnitsTaken, EndOf;
  }

  lemma AcceptedMint(w: World, hs: Hashing, who: AccountId, c: ClassId, sale: Option<Sale>, options: BuyOptions,
                     expiringAt: Option<nat>, amount: Option<nat>)
    requires Minted(w, hs, who, c, sale, options, QuantityOf(options), expiringAt, amount).Ok?
    ensures MintRefusal(w, hs, c, sale, options, QuantityOf(options), expiringAt).None?
  {
  }

  lemma SaleCoversQuantity(w: World, hs: Hashing, c: ClassId, options: BuyOptions)
    requires c in w.publishing && w.publishing[c].unitsLeft.Some?
    requires MintRefusal(w, hs, c, Some(w.publishing[c]), options, QuantityOf(options), None).None?
    ensures QuantityOf(options) <= w.publishing[c].unitsLeft.value
  {
  }

  lemma CatalogKeepsSupply(w: World, hs: Hashing, env: ProtoView, call: Call, c: ClassId)
    requires Supplied(w.definitions, w.editions, w.publishing)
    requires call.Create? || call.Publish? || call.Unpublish?
    ensures WithinSupply(w, c) ==> WithinSupply(Apply(w, hs, env, call), c)
    ensures CountWithin(w, c) ==> CountWithin(Apply(w, hs, env, call), c)
  {
  }

  lemma MintKeepsSupply(w: World, hs: Hashing, env: ProtoView, who: AccountId, d: ClassId, options: BuyOptions,
                        amount: Option<nat>, c: ClassId)
    requires MintedByOwner(w, hs, env, who, d, options, amount).Ok?
    ensures WithinSupply(w, c) ==>
              (WithinSupply(MintedByOwner(w, hs, env, who, d, options, amount).value, c) <==>
                 !Oversells(w, Mint(who, d, options, amount), c))
    ensures CountWithin(w, c) ==> CountWithin(MintedByOwner(w, hs, env, who, d, options, amount).value, c)
  {
    hide ProtoRefusal, Minted;
    AcceptedMint(w, hs, who, d, None, options, None, amount);
    MintedCounts(w, hs, who, d, None, options, QuantityOf(options), None, amount);
    MintWithinLeft(w, hs, d, options);
    hide MintRefusal;
    EndsWhere(EditionsOf(w, d), QuantityOf(options));
    hide EndOf, Passes;
  }

  /** A direct mint of a scarce class within its supply stays within it, and within u64. */
  lemma MintWithinLeft(w: World, hs: Hashing, c: ClassId, options: BuyOptions)
    requires MintRefusal(w, hs, c, None, options, QuantityOf(options), None).None?
    ensures Scarce(w, c) && EditionsOf(w, c) <= w.definitions[c].maxSupply.value ==>
              EditionsOf(w, c) + QuantityOf(options) <= w.definitions[c].maxSupply.value
  {
  }

  lemma BuyKeepsSupply(w: World, hs: Hashing, who: AccountId, d: ClassId, options: BuyOptions, funds: Funds, c: ClassId)
    requires Supplied(w.definitions, w.editions, w.publishing) && Bought(w, hs, who, d, options, funds).Ok?
    ensures WithinSupply(w, c) ==> WithinSupply(Bought(w, hs, who, d, options, funds).value, c)
    ensures CountWithin(w, c) ==>
              (CountWithin(Bought(w, hs, who, d, options, funds).value, c) <==>
                 !(d == c && Scarce(w, c)
                   && w.definitions[c].maxSupply.value < EditionsOf(w, c) + QuantityOf(options) < U64))
  {
    BoughtCounts(w, hs, who, d, options, funds);
    if d == c && Scarce(w, c) {
      SuppliedAt(w.definitions, w.editions, w.publishing, c);
      BuyKeepsCommittedIff(w, hs, who, c, options, funds);
      EndsWhere(EditionsOf(w, c), QuantityOf(options));
    }
    hide Bought, Supplied, MintRefusal, EndOf, Passes;
  }

  /** The one step that can commit a class beyond its supply, and exactly when it does:
      a successful mint of more than what the supply leaves after editions made and units on sale. */
  lemma StepKeepsSupplyIff(w: World, hs: Hashing, env: ProtoView, call: Call, c: ClassId)
    requires Supplied(w.definitions, w.editions, w.publishing) && WithinSupply(w, c)
    ensures WithinSupply(Apply(w, hs, env, call), c) <==> !(Outcome(w, hs, env, call).Ok? && Oversells(w, call, c))
  {
    hide Supplied, MintedByOwner, Bought, Given, SweptBy, Created, Published, Unpublished;
    match call
    case Create(_, _, _, _, _, _, _) => CatalogKeepsSupply(w, hs, env, call, c);
    case Publish(_, _, _) => CatalogKeepsSupply(w, hs, env, call, c);
    case Unpublish(_, _) => CatalogKeepsSupply(w, hs, env, call, c);
    case Mint(who, d, options, amount) =>
      if MintedByOwner(w, hs, env, who, d, options, amount).Ok? {
        MintKeepsSupply(w, hs, env, who, d, options, amount, c);
      }
    case Buy(who, d, options, funds) =>
      if Bought(w, hs, who, d, options, funds).Ok? {
        BuyKeepsSupply(w, hs, who, d, options, funds, c);
      }
    case Give(who, key, to, narrowed, expiration) => GiveFrame(w, who, key, to, narrowed, expiration);
    case EndBlock(order) => SweptByFrame(w, order);
    case Outside(_, _) =>
  }

  /** Editions made, units on sale aside: the one step that takes them beyond the supply, and exactly when. It is a
      purchase, of units put on sale before the owner minted what they were to be made from. */
  lemma StepKeepsCountIff(w: World, hs: Hashing, env: ProtoView, call: Call, c: ClassId)
    requires Supplied(w.definitions, w.editions, w.publishing) && CountWithin(w, c)
    ensures CountWithin(Apply(w, hs, env, call), c) <==> !(Outcome(w, hs, env, call).Ok? && Overruns(w, call, c))
  {
    hide Supplied, MintedByOwner, Bought, Given, SweptBy, Created, Published, Unpublished;
    match call
    case Create(_, _, _, _, _, _, _) => CatalogKeepsSupply(w, hs, env, call, c);
    case Publish(_, _, _) => CatalogKeepsSupply(w, hs, env, call, c);
    case Unpublish(_, _) => CatalogKeepsSupply(w, hs, env, call, c);
    case Mint(who, d, options, amount) =>
      if MintedByOwner(w, hs, env, who, d, options, amount).Ok? {
        MintKeepsSupply(w, hs, env, who, d, options, amount, c);
      }
    case Buy(who, d, options, funds) =>
      if Bought(w, hs, who, d, options, funds).Ok? {
        BuyKeepsSupply(w, hs, who, d, options, funds, c);
      }
    case Give(who, key, to, narrowed, expiration) => GiveFrame(w, who, key, to, narrowed, expiration);
    case EndBlock(order) => SweptByFrame(w, order);
    case Outside(_, _) =>
  }

  lemma CatalogKeepsSupplied(w: World, hs: Hashing, env: ProtoView, call: Call)
    requires Supplied(w.definitions, w.editions, w.publishing)
    requires call.Create? || call.Publish? || call.Unpublish?
    ensures var w' := Apply(w, hs, env, call); Supplied(w'.definitions, w'.editions, w'.publishing)
  {
    match call
    case Create(who, proto, metadata, perms, unique, max, reserved) =>
      var r := Created(w, hs, env, who, proto, metadata, perms, unique, max, reserved);
      hide Supplied;
      if r.Ok? {
        var c := hs.classId(proto, metadata);
        NewClassKeepsSupplied(w, c, r.value.definitions[c]);
      }
    case Publish(who, c, sale) => SalesKeepSupplied(w, env, who, c, sale);
    case Unpublish(who, c) => SalesKeepSupplied(w, env, who, c, Sale(0, None, None, None));
  }

  /** Sales stay of known classes and within their supply in every step, overflowing or not. */
  lemma StepKeepsSupplied(w: World, hs: Hashing, env: ProtoView, call: Call)
    requires Supplied(w.definitions, w.editions, w.publishing)
    ensures var w' := Apply(w, hs, env, call); Supplied(w'.definitions, w'.editions, w'.publishing)
  {
    hide Created, Published, Unpublished;
    match call
    case Create(_, _, _, _, _, _, _) => CatalogKeepsSupplied(w, hs, env, call);
    case Publish(_, _, _) => CatalogKeepsSupplied(w, hs, env, call);
    case Unpublish(_, _) => CatalogKeepsSupplied(w, hs, env, call);
    case Mint(who, c, options, amount) =>
      MintKeepsSupplied(w, hs, who, c, None, options, QuantityOf(options), None, amount);
      hide Supplied, Minted;
    case Buy(who, c, options, funds) =>
      if Bought(w, hs, who, c, options, funds).Ok? {
        BoughtIsMinted(w, hs, who, c, options, funds);
        var sale := w.publishing[c];
        MintKeepsSupplied(w, hs, who, c, Some(sale), options, QuantityOf(options), None, sale.amount);
      }
      hide Supplied, Minted, Bought;
    case Give(who, key, to, narrowed, expiration) =>
      GiveFrame(w, who, key, to, narrowed, expiration);
      hide Supplied, Given;
    case EndBlock(order) =>
      SweptByFrame(w, order);
      hide Supplied, SweptBy;
    case Outside(_, _) =>
  }

  lemma {:induction false} RunKeepsSupplied(w: World, hs: Hashing, steps: seq<(ProtoView, Call)>)
    requires Supplied(w.definitions, w.editions, w.publishing)
    ensures var w' := Run(w, hs, steps); Supplied(w'.definitions, w'.editions, w'.publishing)
  {
    hide Supplied, Apply;
    if steps != [] {
      var (before, last) := (steps[..|steps| - 1], steps[|steps| - 1]);
      RunKeepsSupplied(w, hs, before);
      StepKeepsSupplied(Run(w, hs, before), hs, last.0, last.1);
    }
  }

  /** A class stays within its supply throughout a run; and no accepted call of the run oversells it. */
  ghost predicate WithinThroughout(w: World, hs: Hashing, steps: seq<(ProtoView, Call)>, c: ClassId) {
    WithinSupply(Run(w, hs, steps), c) && (steps != [] ==> WithinThroughout(w, hs, steps[..|steps| - 1], c))
  }

  ghost predicate NeverOversells(w: World, hs: Hashing, steps: seq<(ProtoView, Call)>, c: ClassId) {
    steps != [] ==>
      var (before, last) := (steps[..|steps| - 1], steps[|steps| - 1]);
      var m := Run(w, hs, before);
      NeverOversells(w, hs, before, c) && !(Outcome(m, hs, last.0, last.1).Ok? && Oversells(m, last.1, c))
  }

  /** Over any run editions and units on sale stay within the supply at every point exactly if no accepted mint
      oversells. */
  lemma {:induction false} RunKeepsSupplyIff(w: World, hs: Hashing, steps: seq<(ProtoView, Call)>, c: ClassId)
    requires Supplied(w.definitions, w.editions, w.publishing) && WithinSupply(w, c)
    ensures WithinThroughout(w, hs, steps, c) <==> NeverOversells(w, hs, steps, c)
  {
    hide Supplied, WithinSupply, Apply, Outcome, Oversells;
    if steps != [] {
      var (before, last) := (steps[..|steps| - 1], steps[|steps| - 1]);
      RunKeepsSupplyIff(w, hs, before, c);
      RunKeepsSupplied(w, hs, before);
      if WithinThroughout(w, hs, before, c) {
        StepKeepsSupplyIff(Run(w, hs, before), hs, last.0, last.1, c);
      }
    }
  }

  ghost predicate CountWithinThroughout(w: World, hs: Hashing, steps: seq<(ProtoView, Call)>, c: ClassId) {
    CountWithin(Run(w, hs, steps), c) && (steps != [] ==> CountWithinThroughout(w, hs, steps[..|steps| - 1], c))
  }

  ghost predicate NeverOverruns(w: World, hs: Hashing, steps: seq<(ProtoView, Call)>, c: ClassId) {
    steps != [] ==>
      var (before, last) := (steps[..|steps| - 1], steps[|steps| - 1]);
      var m := Run(w, hs, before);
      NeverOverruns(w, hs, before, c) && !(Outcome(m, hs, last.0, last.1).Ok? && Overruns(m, last.1, c))
  }

  /** And editions alone exactly if no accepted purchase overruns it. */
  lemma {:induction false} RunKeepsCountIff(w: World, hs: Hashing, steps: seq<(ProtoView, Call)>, c: ClassId)
    requires Supplied(w.definitions, w.editions, w.publishing) && CountWithin(w, c)
    ensures CountWithinThroughout(w, hs, steps, c) <==> NeverOverruns(w, hs, steps, c)
  {
    hide Supplied, CountWithin, Apply, Outcome, Overruns;
    if steps != [] {
      var (before, last) := (steps[..|steps| - 1], steps[|steps| - 1]);
      RunKeepsCountIff(w, hs, before, c);
      RunKeepsSupplied(w, hs, before);
      if CountWithinThroughout(w, hs, before, c) {
        StepKeepsCountIff(Run(w, hs, before), hs, last.0, last.1, c);
      }
    }
  }

  /** No mint of class c by its owner while a sale of c is open. */
  ghost predicate NoMintDuringSale(w: World, hs: Hashing, steps: seq<(ProtoView, Call)>, c: ClassId) {
    steps != [] ==>
      var (before, last) := (steps[..|steps| - 1], steps[|steps| - 1].1);
      NoMintDuringSale(w, hs, before, c) && (last.Mint? && last.c == c ==> c !in Run(w, hs, before).publishing)
  }

  lemma UnlessOnSaleMintFits(w: World, hs: Hashing, env: ProtoView, call: Call, c: ClassId)
    requires WithinSupply(w, c) && call.Mint? && call.c == c && c !in w.publishing && Outcome(w, hs, env, call).Ok?
    ensures !Oversells(w, call, c)
  {
  }

  /** In such runs a scarce class never commits to more than its supply. */
  lemma {:induction false} RunWithinSupply(w: World, hs: Hashing, steps: seq<(ProtoView, Call)>, c: ClassId)
    requires Supplied(w.definitions, w.editions, w.publishing)
    requires WithinSupply(w, c) && NoMintDuringSale(w, hs, steps, c)
    ensures WithinSupply(Run(w, hs, steps), c)
  {
    hide Supplied, WithinSupply, Apply, Outcome, Oversells;
    if steps != [] {
      var (before, last) := (steps[..|steps| - 1], steps[|steps| - 1]);
      var m := Run(w, hs, before);
      RunWithinSupply(w, hs, before, c);
      RunKeepsSupplied(w, hs, before);
      StepKeepsSupplyIff(m, hs, last.0, last.1, c);
      if last.1.Mint? && last.1.c == c && Outcome(m, hs, last.0, last.1).Ok? {
        UnlessOnSaleMintFits(m, hs, last.0, last.1, c);
      } else {
        OnlyMintsOversell(m, hs, last.0, last.1, c);
      }
    }
  }

  lemma OnlyMintsOversell(w: World, hs: Hashing, env: ProtoView, call: Call, c: ClassId)
    requires !(call.Mint? && call.c == c && Outcome(w, hs, env, call).Ok?)
    ensures !(Outcome(w, hs, env, call).Ok? && Oversells(w, call, c))
  {
  }

  /** In every run, whatever is minted when, the editions of a scarce class stay within twice its supply. */
  lemma RunWithinTwiceSupply(now: nat, hs: Hashing, steps: seq<(ProtoView, Call)>, c: ClassId)
    ensures var w := Run(Genesis(now), hs, steps);
      Scarce(w, c) ==> EditionsOf(w, c) <= Committed(w, c) <= 2 * w.definitions[c].maxSupply.value
  {
    RunKeepsSupplied(Genesis(now), hs, steps);
    hide Run;
  }

  // ---- The bound of twice the supply is reached -----------------------------------------------

  /** Put m units on sale, mint m to oneself, then sell the m units to an account that has the least balance. */
  function DoubleSale(who: AccountId, proto: Hash256, c: ClassId, m: Unit, env: ProtoView): seq<(ProtoView, Call)> {
    [(env, Create(who, proto, Metadata([], None), {}, None, Some(m), true)),
     (env, Publish(who, c, Sale(0, Some(m), None, None))),
     (env, Mint(who, c, Quantity(m), None)),
     (env, Outside(Wallet(who, None), 1)),
     (env, Buy(who, c, Quantity(m), Funds(1, true)))]
  }

  /** "Max supply" is not a maximum: for every supply m there is a run, all of whose calls succeed, that makes 2m
      editions, as far as these fit in u64. Where they do not, the last purchase is paid for and makes none. */
  lemma TwiceSupplyReached(now: nat, hs: Hashing, who: AccountId, proto: Hash256, m: Unit)
    requires 0 < m
    ensures var c := hs.classId(proto, Metadata([], None));
      var env := ProtoView(map[proto := User(who)], {});
      var w := Run(Genesis(now), hs, DoubleSale(who, proto, c, m, env));
      && AllAccepted(Genesis(now), hs, DoubleSale(who, proto, c, m, env))
      && c in w.definitions && w.definitions[c].maxSupply == Some(m)
      && EditionsOf(w, c) == (2 * m) % U64
  {
    var c := hs.classId(proto, Metadata([], None));
    var env := ProtoView(map[proto := User(who)], {});
    var w := DoubleSaleLeads(now, hs, env, who, proto, c, m);
    hide Run, AllAccepted, DoubleSale;
  }

  lemma DoubleSaleLeads(now: nat, hs: Hashing, env: ProtoView, who: AccountId, proto: Hash256, c: ClassId, m: Unit)
    returns (w: World)
    requires 0 < m && ProtoRefusal(env, proto, who).None? && c == hs.classId(proto, Metadata([], None))
    ensures Leads(Genesis(now), hs, DoubleSale(who, proto, c, m, env), w)
    ensures c in w.definitions && w.definitions[c].maxSupply == Some(m) && EditionsOf(w, c) == (2 * m) % U64
  {
    var g := Genesis(now);
    var create := Create(who, proto, Metadata([], None), {}, None, Some(m), true);
    var publish := Publish(who, c, Sale(0, Some(m), None, None));
    var (mint, endow) := (Mint(who, c, Quantity(m), None), Outside(Wallet(who, None), 1));
    var buy := Buy(who, c, Quantity(m), Funds(1, true));
    assert Leads(g, hs, [], g);
    assert [] + [(env, create)] + [(env, publish)] + [(env, mint)] + [(env, endow)] + [(env, buy)]
        == DoubleSale(who, proto, c, m, env);
    hide Leads, Takes, DoubleSale, Unsold, OnSale, BalanceOf, ProtoRefusal;
    var w1 := FreshClass(now, hs, env, who, proto, m);
    LeadsOn(g, hs, [], g, env, create, w1);
    var w2 := PublishAll(w1, hs, env, who, proto, c, m);
    LeadsOn(g, hs, [] + [(env, create)], w1, env, publish, w2);
    var w3 := MintAll(w2, hs, env, who, proto, c, m);
    LeadsOn(g, hs, [] + [(env, create)] + [(env, publish)], w2, env, mint, w3);
    var w4 := Endow(w3, hs, env, who, proto, c, m);
    LeadsOn(g, hs, [] + [(env, create)] + [(env, publish)] + [(env, mint)], w3, env, endow, w4);
    w := SellAll(w4, hs, env, who, proto, c, m);
    LeadsOn(g, hs, [] + [(env, create)] + [(env, publish)] + [(env, mint)] + [(env, endow)], w4, env, buy, w);
  }

  lemma FreshClass(now: nat, hs: Hashing, env: ProtoView, who: AccountId, proto: Hash256, m: Unit) returns (w: World)
    requires ProtoRefusal(env, proto, who).None?
    ensures Takes(Genesis(now), hs, env, Create(who, proto, Metadata([], None), {}, None, Some(m), true), w)
    ensures Unsold(w, hs.classId(proto, Metadata([], None)), proto, m)
  {
    hide ProtoRefusal;
    w := Created(Genesis(now), hs, env, who, proto, Metadata([], None), {}, None, Some(m), true).value;
  }

  predicate Unsold(w: World, c: ClassId, proto: Hash256, m: Unit) {
    && c in w.definitions && w.definitions[c].maxSupply == Some(m) && w.definitions[c].unique.None?
    && w.definitions[c].protoHash == proto && w.definitions[c].metadata.currency.None?
    && c !in w.publishing && EditionsOf(w, c) == 0
  }

  /** All m units on sale for nothing, n editions made. */
  predicate OnSale(w: World, c: ClassId, proto: Hash256, m: Unit, n: nat) {
    && c in w.definitions && w.definitions[c].maxSupply == Some(m) && w.definitions[c].unique.None?
    && w.definitions[c].protoHash == proto && w.definitions[c].metadata.currency.None?
    && c in w.publishing && w.publishing[c] == Sale(0, Some(m), None, None) && EditionsOf(w, c) == n
  }

  lemma PublishAll(w: World, hs: Hashing, env: ProtoView, who: AccountId, proto: Hash256, c: ClassId, m: Unit)
    returns (w': World)
    requires 0 < m && Unsold(w, c, proto, m) && ProtoRefusal(env, proto, who).None?
    ensures Takes(w, hs, env, Publish(who, c, Sale(0, Some(m), None, None)), w') && OnSale(w', c, proto, m, 0)
  {
    hide ProtoRefusal;
    w' := Published(w, env, who, c, Sale(0, Some(m), None, None)).value;
  }

  lemma MintAll(w: World, hs: Hashing, env: ProtoView, who: AccountId, proto: Hash256, c: ClassId, m: Unit)
    returns (w': World)
    requires OnSale(w, c, proto, m, 0) && ProtoRefusal(env, proto, who).None?
    ensures Takes(w, hs, env, Mint(who, c, Quantity(m), None), w') && OnSale(w', c, proto, m, m)
  {
    hide ProtoRefusal;
    w' := Minted(w, hs, who, c, None, Quantity(m), m, None, None).value;
    assert MintRefusal(w, hs, c, None, Quantity(m), m, None).None?;
    MintedCounts(w, hs, who, c, None, Quantity(m), m, None, None);
    assert Minted(w, hs, who, c, None, Quantity(m), m, None, None).Ok?;
    hide Minted, MintRefusal;
  }

  lemma Endow(w: World, hs: Hashing, env: ProtoView, who: AccountId, proto: Hash256, c: ClassId, m: Unit)
    returns (w': World)
    requires OnSale(w, c, proto, m, m)
    ensures Takes(w, hs, env, Outside(Wallet(who, None), 1), w')
    ensures OnSale(w', c, proto, m, m) && BalanceOf(w'.money, Wallet(who, None)) == 1
  {
    w' := w.(money := w.money[Wallet(who, None) := 1]);
  }

  lemma SellAll(w: World, hs: Hashing, env: ProtoView, who: AccountId, proto: Hash256, c: ClassId, m: Unit)
    returns (w': World)
    requires 0 < m && OnSale(w, c, proto, m, m) && BalanceOf(w.money, Wallet(who, None)) == 1
    ensures Takes(w, hs, env, Buy(who, c, Quantity(m), Funds(1, true)), w')
    ensures c in w'.definitions && w'.definitions[c].maxSupply == Some(m) && EditionsOf(w', c) == (2 * m) % U64
  {
    assert MintRefusal(w, hs, c, Some(w.publishing[c]), Quantity(m), m, None).None?;
    assert Minted(w, hs, who, c, Some(w.publishing[c]), Quantity(m), m, None, None).Ok?;
    hide Minted, MintRefusal;
    assert Paid(w.money, Wallet(who, None), VaultWallet(w, hs, c), 0, Funds(1, true)).Some?;
    hide Paid;
    assert Bought(w, hs, who, c, Quantity(m), Funds(1, true)).Ok?;
    BoughtCounts(w, hs, who, c, Quantity(m), Funds(1, true));
    w' := Bought(w, hs, who, c, Quantity(m), Funds(1, true)).value;
    hide Bought;
  }
}
