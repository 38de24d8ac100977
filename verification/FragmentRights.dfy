/** Who may do what to fragments: what it takes for each call to be accepted, which error says what is missing, and
    whose accepted call it was that made what is stored. */
module FragmentRights {
  import opened Basics
  import opened FragmentLedger
  import opened FragmentInvariants

  /** The account owns the proto, and the proto is attached. */
  predicate MayAct(env: ProtoView, proto: Hash256, who: AccountId) {
    proto in env.owners && env.owners[proto] == User(who) && proto !in env.detached
  }

  /** The error that tells an account why it may not. */
  predicate Denies(env: ProtoView, proto: Hash256, who: AccountId, e: Error) {
    match e
    case ProtoNotFound => proto !in env.owners
    case ProtoOwnerNotFound => proto in env.owners && env.owners[proto].ExternalAsset?
    case NoPermission => proto in env.owners && env.owners[proto].User? && env.owners[proto].account != who
    case Detached => proto in env.owners && env.owners[proto] == User(who) && proto in env.detached
    case _ => false
  }

  lemma DeniedOrMay(env: ProtoView, proto: Hash256, who: AccountId)
    ensures var r := ProtoRefusal(env, proto, who);
      && (r.None? <==> MayAct(env, proto, who))
      && (r.Some? ==> Denies(env, proto, who, r.value))
  {
  }

  // ---- Accepted or not ------------------------------------------------------------------------

  /** A definition is made exactly for the owner of an attached proto, once, if the deposit is reserved. The errors
      exclude one another, so each comes exactly in its case. */
  lemma CreateAnswers(w: World, hs: Hashing, env: ProtoView, who: AccountId, proto: Hash256, metadata: Metadata,
                      permissions: Perms, unique: Option<UniqueOptions>, maxSupply: Option<Unit>, reserved: bool)
    ensures var c := hs.classId(proto, metadata);
      var r := Outcome(w, hs, env, Create(who, proto, metadata, permissions, unique, maxSupply, reserved));
      var may := MayAct(env, proto, who);
      && (r.Ok? <==> may && c !in w.definitions && reserved)
      && (r.Err? ==>
            match r.error
            case AlreadyExist => may && c in w.definitions
            case ReserveFailed => may && c !in w.definitions && !reserved
            case e => Denies(env, proto, who, e))
  {
    DeniedOrMay(env, proto, who);
    hide ProtoRefusal;
  }

  /** A sale is opened exactly by the owner of the definition's attached proto, one at a time, and of a scarce class
      only in limited numbers within what is left of it, which is not nothing. */
  lemma PublishAnswers(w: World, hs: Hashing, env: ProtoView, who: AccountId, c: ClassId, sale: Sale)
    ensures var r := Outcome(w, hs, env, Publish(who, c, sale));
      var known := c in w.definitions;
      var may := known && MayAct(env, w.definitions[c].protoHash, who);
      var scarce := known && w.definitions[c].maxSupply.Some?;
      && (r.Ok? <==>
            && may && c !in w.publishing
            && (scarce ==>
                  && sale.unitsLeft.Some? && EditionsOf(w, c) < w.definitions[c].maxSupply.value
                  && EditionsOf(w, c) + sale.unitsLeft.value <= w.definitions[c].maxSupply.value))
      && (r.Err? ==>
            match r.error
            case NotFound => !known
            case SaleAlreadyOpen => may && c in w.publishing
            case ParamsNotValid => may && c !in w.publishing && scarce && sale.unitsLeft.None?
            case MaxSupplyReached =>
              && may && c !in w.publishing && scarce && sale.unitsLeft.Some?
              && (w.definitions[c].maxSupply.value <= EditionsOf(w, c)
                  || w.definitions[c].maxSupply.value < EditionsOf(w, c) + sale.unitsLeft.value)
            case e => known && Denies(env, w.definitions[c].protoHash, who, e))
  {
    if c in w.definitions {
      DeniedOrMay(env, w.definitions[c].protoHash, who);
    }
    hide ProtoRefusal;
  }

  lemma UnpublishAnswers(w: World, hs: Hashing, env: ProtoView, who: AccountId, c: ClassId)
    ensures var r := Outcome(w, hs, env, Unpublish(who, c));
      var known := c in w.definitions;
      var may := known && MayAct(env, w.definitions[c].protoHash, who);
      && (r.Ok? <==> may && c in w.publishing)
      && (r.Err? ==>
            match r.error
            case NotFound => !known || (may && c !in w.publishing)
            case e => known && Denies(env, w.definitions[c].protoHash, who, e))
  {
    if c in w.definitions {
      DeniedOrMay(env, w.definitions[c].protoHash, who);
    }
    hide ProtoRefusal;
  }

  /** Data is asked for exactly of a unique class. */
  predicate OfKind(w: World, c: ClassId, options: BuyOptions)
    requires c in w.definitions
  {
    options.UniqueData? <==> w.definitions[c].unique.Some?
  }

  /** The data was used before. */
  predicate Taken(w: World, hs: Hashing, c: ClassId, options: BuyOptions) {
    options.UniqueData? && (c, hs.blake2(options.data)) in w.uniqueData
  }

  /** More than the supply leaves: asking for nothing never is. */
  predicate PastSupply(w: World, c: ClassId, options: BuyOptions)
    requires c in w.definitions
  {
    && w.definitions[c].maxSupply.Some? && 0 < QuantityOf(options)
    && w.definitions[c].maxSupply.value < EditionsOf(w, c) + QuantityOf(options)
  }

  predicate PastSale(sale: Sale, options: BuyOptions) {
    sale.unitsLeft.Some? && sale.unitsLeft.value < QuantityOf(options)
  }

  lemma MintHead(w: World, hs: Hashing, to: AccountId, c: ClassId, sale: Option<Sale>, options: BuyOptions,
                 amount: Option<nat>)
    ensures var r := Minted(w, hs, to, c, sale, options, QuantityOf(options), None, amount);
      var known := c in w.definitions;
      && (r.Ok? <==>
            && known && OfKind(w, c, options) && !Taken(w, hs, c, options)
            && (if sale.Some? then !PastSale(sale.value, options) else !PastSupply(w, c, options)))
      && (r.Err? ==>
            match r.error
            case NotFound => !known
            case ParamsNotValid => known && !OfKind(w, c, options)
            case UniqueDataExists => known && OfKind(w, c, options) && Taken(w, hs, c, options)
            case PublishedQuantityReached =>
              && known && OfKind(w, c, options) && !Taken(w, hs, c, options) && sale.Some?
              && PastSale(sale.value, options)
            case MaxSupplyReached =>
              && known && OfKind(w, c, options) && !Taken(w, hs, c, options) && sale.None?
              && PastSupply(w, c, options)
            case _ => false)
  {
    hide MintMany, Recorded, NewInstance, UnitsTaken;
  }

  /** Minting, outside a purchase, is for the owner of the definition's attached proto alone. */
  lemma MintAnswers(w: World, hs: Hashing, env: ProtoView, who: AccountId, c: ClassId, options: BuyOptions,
                    amount: Option<nat>)
    ensures var r := Outcome(w, hs, env, Mint(who, c, options, amount));
      var known := c in w.definitions;
      var may := known && MayAct(env, w.definitions[c].protoHash, who);
      && (r.Ok? <==> may && OfKind(w, c, options) && !Taken(w, hs, c, options) && !PastSupply(w, c, options))
      && (r.Err? ==>
            match r.error
            case NotFound => !known
            case ParamsNotValid => may && !OfKind(w, c, options)
            case UniqueDataExists => may && OfKind(w, c, options) && Taken(w, hs, c, options)
            case MaxSupplyReached =>
              may && OfKind(w, c, options) && !Taken(w, hs, c, options) && PastSupply(w, c, options)
            case e => known && Denies(env, w.definitions[c].protoHash, who, e))
  {
    MintHead(w, hs, who, c, None, options, amount);
    if c in w.definitions {
      DeniedOrMay(env, w.definitions[c].protoHash, who);
    }
    hide ProtoRefusal, Minted, OfKind, Taken, PastSupply;
  }

  /** The item may still be handed on at this block. */
  predicate Fresh(w: World, key: Key)
    requires key in w.fragments
  {
    w.fragments[key].expiringAt.Some? ==> w.now < w.fragments[key].expiringAt.value
  }

  /** Nothing is asked for that the item does not allow. */
  predicate Allowed(item: Instance, asked: Option<Perms>) {
    asked.Some? ==> asked.value <= item.permissions
  }

  /** An instance is given exactly by an account that lists it, if it has TRANSFER and does not expire by this block,
      to an account there is, with no more than its permissions and an expiry to come. */
  lemma GiveAnswers(w: World, hs: Hashing, env: ProtoView, who: AccountId, key: Key, to: Option<AccountId>,
                    asked: Option<Perms>, expiration: Option<nat>)
    ensures var r := Outcome(w, hs, env, Give(who, key, to, asked, expiration));
      var live := key in w.fragments && Fresh(w, key);
      var timely := expiration.Some? ==> w.now < expiration.value;
      var holds := Lists(w.inventory, (who, key.class_), IdOf(key));
      var may :=
        live && timely && holds && TRANSFER in w.fragments[key].permissions && Allowed(w.fragments[key], asked);
      && (r.Ok? <==>
            && may && to.Some?
            && (COPY in w.fragments[key].permissions ==> (key.class_, key.edition) in w.copies))
      && (r.Err? ==>
            match r.error
            case NotFound =>
              || !live || (timely && (who, key.class_) !in w.inventory)
              || (may && to.Some? && (key.class_, key.edition) !in w.copies)
            case ParamsNotValid => live && !timely
            case NoPermission => live && timely && (who, key.class_) in w.inventory && !may
            case LookupFailed => may && to.None?
            case _ => false)
  {
    hide AddCopy, Move;
  }

  // ---- Whose call it was ----------------------------------------------------------------------

  /** The call, accepted, makes definition d under id c, for the owner of its proto. */
  ghost predicate Defines(w: World, hs: Hashing, env: ProtoView, call: Call, c: ClassId, d: Definition) {
    && call.Create? && Outcome(w, hs, env, call).Ok? && c == hs.classId(call.proto, call.metadata)
    && MayAct(env, call.proto, call.who)
    && d == Definition(call.proto, call.metadata, call.permissions, call.unique, call.maxSupply, call.who, w.now)
  }

  ghost predicate DefinesAt(now: nat, hs: Hashing, steps: seq<(ProtoView, Call)>, i: nat, c: ClassId, d: Definition)
    requires i < |steps|
  {
    Defines(Run(Genesis(now), hs, steps[..i]), hs, steps[i].0, steps[i].1, c, d)
  }

  lemma StepDefines(w: World, hs: Hashing, env: ProtoView, call: Call, c: ClassId, d: Definition)
    ensures var w' := Apply(w, hs, env, call);
      c in w'.definitions && w'.definitions[c] == d <==>
        (c in w.definitions && w.definitions[c] == d) || Defines(w, hs, env, call, c, d)
  {
    if call.Create? {
      CreateAnswers(w, hs, env, call.who, call.proto, call.metadata, call.permissions, call.unique, call.maxSupply,
                    call.reserved);
      hide ProtoRefusal, MayAct;
    } else {
      SameCatalog(w, hs, env, call);
      hide Apply, Outcome;
    }
  }

  lemma SameCatalog(w: World, hs: Hashing, env: ProtoView, call: Call)
    requires !call.Create?
    ensures Apply(w, hs, env, call).definitions == w.definitions
  {
    hide Created, Minted, Given, Bought, SweptBy, ProtoRefusal;
    match call
    case Publish(_, _, _) =>
    case Unpublish(_, _) =>
    case Mint(who, c, options, amount) =>
      MintedFrame(w, hs, who, c, None, options, amount);
    case Buy(who, c, options, funds) =>
      if Bought(w, hs, who, c, options, funds).Ok? {
        BoughtIsMinted(w, hs, who, c, options, funds);
        MintedFrame(w, hs, who, c, Some(w.publishing[c]), options, w.publishing[c].amount);
      }
    case Give(who, key, to, asked, expiration) => GiveFrame(w, who, key, to, asked, expiration);
    case EndBlock(order) => SweptByFrame(w, order);
    case Outside(_, _) =>
  }

  lemma MintedFrame(w: World, hs: Hashing, who: AccountId, c: ClassId, sale: Option<Sale>, options: BuyOptions,
                    amount: Option<nat>)
    ensures var r := Minted(w, hs, who, c, sale, options, QuantityOf(options), None, amount);
      r.Ok? ==>
        && r.value.definitions == w.definitions && r.value.now == w.now
        && r.value.publishing == UnitsTaken(w, c, sale, QuantityOf(options)).publishing
  {
    if MintRefusal(w, hs, c, sale, options, QuantityOf(options), None).None? {
      MintedCounts(w, hs, who, c, sale, options, QuantityOf(options), None, amount);
    }
    hide MintMany, Recorded, MintRefusal, UnitsTaken;
  }

  /** After any run the definitions are exactly those the owners of attached protos made, each as it was asked for:
      proto, metadata, permissions, uniqueness and supply, creator and block. None is ever changed. */
  lemma {:induction false} RunDefines(now: nat, hs: Hashing, steps: seq<(ProtoView, Call)>, c: ClassId, d: Definition)
    ensures var w := Run(Genesis(now), hs, steps);
      c in w.definitions && w.definitions[c] == d <==>
        exists i: nat :: i < |steps| && DefinesAt(now, hs, steps, i, c, d)
  {
    if steps != [] {
      var (before, last) := (steps[..|steps| - 1], steps[|steps| - 1]);
      RunDefines(now, hs, before, c, d);
      StepDefines(Run(Genesis(now), hs, before), hs, last.0, last.1, c, d);
      forall i: nat | i < |before| ensures DefinesAt(now, hs, before, i, c, d) == DefinesAt(now, hs, steps, i, c, d) {
        assert before[..i] == steps[..i];
      }
      assert DefinesAt(now, hs, steps, |before|, c, d) <==>
             Defines(Run(Genesis(now), hs, before), hs, last.0, last.1, c, d);
      hide Apply, Defines, DefinesAt;
    }
  }

  // ---- Sales ----------------------------------------------------------------------------------

  /** A sale as its owner opened it, and how many units were bought of it since. */
  datatype Offer = Offer(sale: Sale, sold: nat)

  /** What a call makes of the offer of class c: only accepted calls count. */
  ghost function Reoffered(w: World, hs: Hashing, env: ProtoView, call: Call, c: ClassId, was: Option<Offer>)
    : Option<Offer>
  {
    if Outcome(w, hs, env, call).Err? then was
    else
      match call
      case Publish(_, c', sale) => if c' == c then Some(Offer(sale, 0)) else was
      case Unpublish(_, c') => if c' == c then None else was
      case Buy(_, c', options, _) =>
        if c' == c && was.Some? then Some(Offer(was.value.sale, was.value.sold + QuantityOf(options))) else was
      case _ => was
  }

  ghost function Offered(now: nat, hs: Hashing, steps: seq<(ProtoView, Call)>, c: ClassId): Option<Offer> {
    if steps == [] then None
    else
      var (before, last) := (steps[..|steps| - 1], steps[|steps| - 1]);
      Reoffered(Run(Genesis(now), hs, before), hs, last.0, last.1, c, Offered(now, hs, before, c))
  }

  /** The open sale of class c is that offer, less what was bought. */
  predicate Sells(publishing: map<ClassId, Sale>, c: ClassId, offer: Option<Offer>) {
    match offer
    case None => c !in publishing
    case Some(o) =>
      && c in publishing && publishing[c].price == o.sale.price && publishing[c].expiration == o.sale.expiration
      && publishing[c].amount == o.sale.amount
      && match o.sale.unitsLeft
         case None => publishing[c].unitsLeft == None
         case Some(units) => o.sold <= units && publishing[c].unitsLeft == Some(units - o.sold)
  }

  /** The open sale of class c, if limited, with so many units less. */
  function Lessened(publishing: map<ClassId, Sale>, c: ClassId, q: nat): map<ClassId, Sale>
    requires c in publishing
  {
    match publishing[c].unitsLeft
    case None => publishing
    case Some(units) => publishing[c := publishing[c].(unitsLeft := Some(SaturatingSub(units, q)))]
  }

  lemma LessenedSells(publishing: map<ClassId, Sale>, c': ClassId, q: nat, c: ClassId, was: Option<Offer>)
    requires Sells(publishing, c, was) && c' in publishing
    requires publishing[c'].unitsLeft.Some? ==> q <= publishing[c'].unitsLeft.value
    ensures Sells(Lessened(publishing, c', q), c,
                  if c' == c && was.Some? then Some(Offer(was.value.sale, was.value.sold + q)) else was)
  {
  }

  lemma BoughtFrame(w: World, hs: Hashing, who: AccountId, c: ClassId, options: BuyOptions, funds: Funds)
    requires Bought(w, hs, who, c, options, funds).Ok?
    ensures c in w.publishing && !PastSale(w.publishing[c], options)
    ensures Bought(w, hs, who, c, options, funds).value.publishing ==
              Lessened(w.publishing, c, QuantityOf(options))
  {
    BoughtIsMinted(w, hs, who, c, options, funds);
    assert UnitsTaken(w, c, Some(w.publishing[c]), QuantityOf(options)).publishing ==
           Lessened(w.publishing, c, QuantityOf(options));
    hide Minted, Bought, UnitsTaken, Lessened;
    MintHead(w, hs, who, c, Some(w.publishing[c]), options, w.publishing[c].amount);
    MintedFrame(w, hs, who, c, Some(w.publishing[c]), options, w.publishing[c].amount);
  }

  /** What a call does to the open sales: an accepted one opens, closes or lessens that of its class. */
  lemma StepSales(w: World, hs: Hashing, env: ProtoView, call: Call)
    ensures call.Buy? && Outcome(w, hs, env, call).Ok? ==>
              call.c in w.publishing && !PastSale(w.publishing[call.c], call.options)
    ensures var accepted := Outcome(w, hs, env, call).Ok?;
      Apply(w, hs, env, call).publishing ==
        if call.Publish? && accepted then w.publishing[call.c := call.sale]
        else if call.Unpublish? && accepted then w.publishing - {call.c}
        else if call.Buy? && accepted then Lessened(w.publishing, call.c, QuantityOf(call.options))
        else w.publishing
  {
    hide Minted, Given, Bought, SweptBy, ProtoRefusal, Lessened, PastSale;
    match call
    case Create(_, _, _, _, _, _, _) =>
    case Publish(_, _, _) =>
    case Unpublish(_, _) =>
    case Mint(who, c, options, amount) => MintedFrame(w, hs, who, c, None, options, amount);
    case Buy(who, c, options, funds) =>
      if Bought(w, hs, who, c, options, funds).Ok? {
        BoughtFrame(w, hs, who, c, options, funds);
      }
    case Give(who, key, to, asked, expiration) => GiveFrame(w, who, key, to, asked, expiration);
    case EndBlock(order) => SweptByFrame(w, order);
    case Outside(_, _) =>
  }

  lemma StepSells(w: World, hs: Hashing, env: ProtoView, call: Call, c: ClassId, was: Option<Offer>)
    requires Sells(w.publishing, c, was)
    ensures Sells(Apply(w, hs, env, call).publishing, c, Reoffered(w, hs, env, call, c, was))
  {
    StepSales(w, hs, env, call);
    hide Apply, Outcome, Lessened;
    if call.Buy? && Outcome(w, hs, env, call).Ok? {
      LessenedSells(w.publishing, call.c, QuantityOf(call.options), c, was);
      hide Sells;
    }
  }

  /** After any run a class is on sale exactly if it was published and not unpublished since, at the price, until the
      block and with the amount it was published with, and with as many units left as were not bought since. */
  lemma {:induction false} RunSellsAsOffered(now: nat, hs: Hashing, steps: seq<(ProtoView, Call)>, c: ClassId)
    ensures Sells(Run(Genesis(now), hs, steps).publishing, c, Offered(now, hs, steps, c))
  {
    if steps != [] {
      var (before, last) := (steps[..|steps| - 1], steps[|steps| - 1]);
      RunSellsAsOffered(now, hs, before, c);
      StepSells(Run(Genesis(now), hs, before), hs, last.0, last.1, c, Offered(now, hs, before, c));
      hide Apply, Sells, Reoffered;
    }
  }

  // ---- Only the owner of the moment -----------------------------------------------------------

  /** The call is the doing of the owner of the proto of class c. */
  predicate ByOwner(w: World, env: ProtoView, call: Call, c: ClassId) {
    match call
    case Create(who, proto, _, _, _, _, _) => MayAct(env, proto, who)
    case Publish(who, c', _) => c' == c && c in w.definitions && MayAct(env, w.definitions[c].protoHash, who)
    case Unpublish(who, c') => c' == c && c in w.definitions && MayAct(env, w.definitions[c].protoHash, who)
    case Mint(who, c', _, _) => c' == c && c in w.definitions && MayAct(env, w.definitions[c].protoHash, who)
    case _ => false
  }

  lemma SaleNeedsOwner(w: World, hs: Hashing, env: ProtoView, call: Call, c: ClassId)
    ensures (c in Apply(w, hs, env, call).publishing) != (c in w.publishing) ==>
              (call.Publish? || call.Unpublish?) && ByOwner(w, env, call, c)
  {
    StepSales(w, hs, env, call);
    hide Apply, Outcome, MayAct, PastSale, QuantityOf;
    if call.Publish? {
      PublishAnswers(w, hs, env, call.who, call.c, call.sale);
    } else if call.Unpublish? {
      UnpublishAnswers(w, hs, env, call.who, call.c);
    }
  }

  lemma EditionsNeedOwner(w: World, hs: Hashing, env: ProtoView, call: Call, c: ClassId)
    ensures EditionsOf(Apply(w, hs, env, call), c) != EditionsOf(w, c) ==>
              (call.Mint? && ByOwner(w, env, call, c)) || (call.Buy? && call.c == c && c in w.publishing)
  {
    hide Minted, Given, Bought, SweptBy, MayAct;
    match call
    case Create(_, _, _, _, _, _, _) => hide ProtoRefusal;
    case Publish(_, _, _) => hide ProtoRefusal;
    case Unpublish(_, _) => hide ProtoRefusal;
    case Mint(who, c', options, amount) =>
      MintAnswers(w, hs, env, who, c', options, amount);
      hide ProtoRefusal;
      MintedEditions(w, hs, who, c', None, options, amount);
    case Buy(who, c', options, funds) =>
      if Bought(w, hs, who, c', options, funds).Ok? {
        BoughtIsMinted(w, hs, who, c', options, funds);
        MintedEditions(w, hs, who, c', Some(w.publishing[c']), options, w.publishing[c'].amount);
      }
    case Give(who, key, to, asked, expiration) => GiveFrame(w, who, key, to, asked, expiration);
    case EndBlock(order) => SweptByFrame(w, order);
    case Outside(_, _) =>
  }

  lemma MintedEditions(w: World, hs: Hashing, who: AccountId, c: ClassId, sale: Option<Sale>, options: BuyOptions,
                       amount: Option<nat>)
    ensures var r := Minted(w, hs, who, c, sale, options, QuantityOf(options), None, amount);
      r.Ok? ==> r.value.editions == w.editions[c := (EditionsOf(w, c) + QuantityOf(options)) % U64]
  {
    if MintRefusal(w, hs, c, sale, options, QuantityOf(options), None).None? {
      MintedCounts(w, hs, who, c, sale, options, QuantityOf(options), None, amount);
    }
    hide MintMany, Recorded, MintRefusal, UnitsTaken;
  }

  /** At any step of any run: a class is defined, a sale opened or closed, and an edition counted outside a purchase
      from an open sale, only by a call of the account that owns the class's attached proto at that moment. */
  lemma OnlyTheOwner(w: World, hs: Hashing, env: ProtoView, call: Call, c: ClassId)
    ensures var defined := Apply(w, hs, env, call).definitions;
      (c in defined) != (c in w.definitions) ==>
        c in defined && call.Create? && defined[c].protoHash == call.proto && ByOwner(w, env, call, c)
    ensures (c in Apply(w, hs, env, call).publishing) != (c in w.publishing) ==>
              (call.Publish? || call.Unpublish?) && ByOwner(w, env, call, c)
    ensures EditionsOf(Apply(w, hs, env, call), c) != EditionsOf(w, c) ==>
              (call.Mint? && ByOwner(w, env, call, c)) || (call.Buy? && call.c == c && c in w.publishing)
  {
    var w' := Apply(w, hs, env, call);
    if c in w'.definitions {
      StepDefines(w, hs, env, call, c, w'.definitions[c]);
    }
    if c in w.definitions {
      StepDefines(w, hs, env, call, c, w.definitions[c]);
    }
    SaleNeedsOwner(w, hs, env, call, c);
    EditionsNeedOwner(w, hs, env, call, c);
    hide Apply, EditionsOf, Outcome, MayAct;
  }
}
