/** What every instance is and who holds it, told from the accepted calls alone. */
module FragmentStories {
  import opened Basics
  import opened FragmentLedger
  import opened FragmentInvariants
  import opened FragmentTheorems
  import opened FragmentPromises
  import opened FragmentRights

  /** An instance and the account that holds it. */
  datatype Held = Held(item: Instance, of: AccountId)

  /** What storage and the book have of an id. */
  function HeldOf(fragments: map<Key, Instance>, holder: map<Key, AccountId>, k: Key): Option<Held> {
    if k in fragments && k in holder then Some(Held(fragments[k], holder[k])) else None
  }

  /** The id is one of those a mint of class c makes next. */
  predicate MadeNext(w: World, c: ClassId, options: BuyOptions, k: Key) {
    && k.class_ == c && k.copy == 1
    && EditionsOf(w, c) < k.edition <= EditionsOf(w, c) + QuantityOf(options)
  }

  function Made(w: World, hs: Hashing, c: ClassId, options: BuyOptions, amount: Option<nat>): Instance
    requires c in w.definitions
  {
    Instance(w.definitions[c].permissions, w.now, if options.UniqueData? then Some(hs.blake2(options.data)) else None,
             None, amount)
  }

  /** The permissions asked for, or else those there are; the expiry there is and the one asked for, whichever is
      earlier. */
  function Restricted(item: Instance, asked: Option<Perms>): Instance {
    match asked
    case None => item
    case Some(perms) => item.(permissions := perms)
  }

  function Limited(item: Instance, until: Option<nat>): Instance {
    match (item.expiringAt, until)
    case (_, None) => item
    case (None, Some(_)) => item.(expiringAt := until)
    case (Some(e), Some(u)) => if u < e then item.(expiringAt := until) else item
  }

  /** What a call makes of the story of id k, given that so far and that of the instance it gives, if it gives one.
      A refused call makes nothing of it. */
  ghost function Retold(w: World, hs: Hashing, env: ProtoView, call: Call, k: Key, was: Option<Held>,
                        source: Option<Held>): Option<Held>
  {
    if Outcome(w, hs, env, call).Err? then was
    else
      match call
      case Mint(who, c, options, amount) =>
        if c in w.definitions && MadeNext(w, c, options, k)
        then Some(Held(Made(w, hs, c, options, amount), who)) else was
      case Buy(who, c, options, _) =>
        if c in w.definitions && c in w.publishing && MadeNext(w, c, options, k)
        then Some(Held(Made(w, hs, c, options, w.publishing[c].amount), who)) else was
      case Give(who, key, to, asked, until) =>
        if source.None? || to.None? then was
        else
          var given := Restricted(source.value.item, asked);
          if COPY in source.value.item.permissions then
            var next := Key(key.class_, key.edition, CopiesOf(w, key.class_, key.edition) + 1);
            if k == next then Some(Held(Limited(given, until), to.value)) else was
          else if k == key then Some(Held(given, to.value)) else was
      case EndBlock(_) => if was.Some? && was.value.item.expiringAt == Some(w.now) then None else was
      case _ => was
  }

  ghost function Story(now: nat, hs: Hashing, steps: seq<(ProtoView, Call)>, k: Key): Option<Held> {
    if steps == [] then None
    else
      var (before, last) := (steps[..|steps| - 1], steps[|steps| - 1]);
      Retold(Run(Genesis(now), hs, before), hs, last.0, last.1, k, Story(now, hs, before, k),
             if last.1.Give? then Story(now, hs, before, last.1.key) else None)
  }

  ghost predicate Tells(w: World, hs: Hashing, env: ProtoView, call: Call, w': World, k: Key) {
    HeldOf(w'.fragments, w'.book.holder, k) ==
      Retold(w, hs, env, call, k, HeldOf(w.fragments, w.book.holder, k),
             if call.Give? then HeldOf(w.fragments, w.book.holder, call.key) else None)
  }

  lemma AddsTells(w: World, w': World, c: ClassId, options: BuyOptions, item: Instance, to: AccountId, k: Key)
    requires var (n, q) := (EditionsOf(w, c), QuantityOf(options));
      Adds(w.fragments, w'.fragments, c, n, q, item) && Adds(w.book.holder, w'.book.holder, c, n, q, to)
    ensures HeldOf(w'.fragments, w'.book.holder, k) ==
              if MadeNext(w, c, options, k) then Some(Held(item, to)) else HeldOf(w.fragments, w.book.holder, k)
  {
    assert MintedBetween(k, c, EditionsOf(w, c), QuantityOf(options)) <==> MadeNext(w, c, options, k);
    hide EditionsOf, QuantityOf;
  }

  lemma MintTells(w: World, hs: Hashing, to: AccountId, c: ClassId, sale: Option<Sale>, options: BuyOptions,
                  amount: Option<nat>, k: Key)
    requires Minted(w, hs, to, c, sale, options, QuantityOf(options), None, amount).Ok?
    requires EditionsOf(w, c) + QuantityOf(options) < U64
    ensures c in w.definitions
    ensures var w' := Minted(w, hs, to, c, sale, options, QuantityOf(options), None, amount).value;
      HeldOf(w'.fragments, w'.book.holder, k) ==
        if MadeNext(w, c, options, k) then Some(Held(Made(w, hs, c, options, amount), to))
        else HeldOf(w.fragments, w.book.holder, k)
  {
    MintAdds(w, hs, to, c, sale, options, QuantityOf(options), None, amount, (c, to));
    var w' := Minted(w, hs, to, c, sale, options, QuantityOf(options), None, amount).value;
    hide Minted, Lookup, FirstCopies;
    AddsTells(w, w', c, options, Made(w, hs, c, options, amount), to, k);
    hide Adds, HeldOf, MadeNext;
  }

  lemma CopyTells(w: World, who: AccountId, key: Key, to: AccountId, asked: Option<Perms>, until: Option<nat>, k: Key)
    requires Given(w, who, key, Some(to), asked, until).Ok? && key in w.fragments
    requires COPY in w.fragments[key].permissions && CopiesOf(w, key.class_, key.edition) + 1 < U64
    ensures var w' := Given(w, who, key, Some(to), asked, until).value;
      HeldOf(w'.fragments, w'.book.holder, k) ==
        if k == Key(key.class_, key.edition, CopiesOf(w, key.class_, key.edition) + 1)
        then Some(Held(Limited(Restricted(w.fragments[key], asked), until), to))
        else HeldOf(w.fragments, w.book.holder, k)
  {
    GivingCopies(w, who, key, to, asked, until, (key.class_, to));
    var w' := Given(w, who, key, Some(to), asked, until).value;
    var next := Key(key.class_, key.edition, CopiesOf(w, key.class_, key.edition) + 1);
    hide Given, Lookup, CopiesOf;
    CopyIsLimited(w.fragments[key], w'.fragments[next], asked, until);
    hide CopyOf, Restricted, Limited;
  }

  lemma MoveTells(w: World, who: AccountId, key: Key, to: AccountId, asked: Option<Perms>, until: Option<nat>, k: Key)
    requires Given(w, who, key, Some(to), asked, until).Ok? && key in w.fragments
    requires COPY !in w.fragments[key].permissions
    ensures var w' := Given(w, who, key, Some(to), asked, until).value;
      HeldOf(w'.fragments, w'.book.holder, k) ==
        if k == key then Some(Held(Restricted(w.fragments[key], asked), to)) else HeldOf(w.fragments, w.book.holder, k)
  {
    GivingMoves(w, who, key, to, asked, until, (key.class_, to));
    hide Given, Lookup, Without;
  }

  lemma GiveTells(w: World, hs: Hashing, env: ProtoView, who: AccountId, key: Key, to: Option<AccountId>,
                  asked: Option<Perms>, until: Option<nat>, k: Key)
    requires w.book.holder.Keys == w.fragments.Keys
    requires var call := Give(who, key, to, asked, until);
      Outcome(w, hs, env, call).Ok? && !Overflows(w, call)
    ensures var call := Give(who, key, to, asked, until); Tells(w, hs, env, call, Outcome(w, hs, env, call).value, k)
  {
    GiveAnswers(w, hs, env, who, key, to, asked, until);
    assert key in w.fragments.Keys && key in w.book.holder.Keys;
    assert HeldOf(w.fragments, w.book.holder, key) == Some(Held(w.fragments[key], w.book.holder[key]));
    hide Fresh, Allowed, Lists, Given, CopiesOf, HeldOf, Restricted, Limited;
    if COPY in w.fragments[key].permissions {
      CopyTells(w, who, key, to.value, asked, until, k);
    } else {
      MoveTells(w, who, key, to.value, asked, until, k);
    }
  }

  lemma CopyIsLimited(item: Instance, copy: Instance, asked: Option<Perms>, until: Option<nat>)
    requires CopyOf(item, copy, asked, until)
    ensures copy == Limited(Restricted(item, asked), until)
  {
  }

  lemma EndBlockTells(w: World, hs: Hashing, env: ProtoView, order: seq<AccountId>, k: Key)
    requires Inv(w)
    ensures Tells(w, hs, env, EndBlock(order), Apply(w, hs, env, EndBlock(order)), k)
  {
    BlockEndsSwept(w, hs, env, order);
    SweepTakesExactlyTheDue(w, k);
    var (w1, due) := (w.(expirations := w.expirations - {w.now}), Lookup(w.expirations, w.now));
    DropAllTakes(w1, due);
    assert w.book.holder.Keys == w.fragments.Keys;
    hide Inv, Calendar, Apply, DropAll, OwnedOnce, Dual;
  }

  lemma StepTells(w: World, hs: Hashing, env: ProtoView, call: Call, k: Key)
    requires Inv(w) && !(Outcome(w, hs, env, call).Ok? && Overflows(w, call))
    ensures Tells(w, hs, env, call, Apply(w, hs, env, call), k)
  {
    assert w.book.holder.Keys == w.fragments.Keys;
    if Outcome(w, hs, env, call).Ok? {
      hide Inv, Minted, Given, Bought, SweptBy, ProtoRefusal, MadeNext, HeldOf, Made;
      match call
      case Create(_, _, _, _, _, _, _) =>
      case Publish(_, _, _) =>
      case Unpublish(_, _) =>
      case Mint(who, c, options, amount) => MintTells(w, hs, who, c, None, options, amount, k);
      case Buy(who, c, options, funds) =>
        BoughtIsMinted(w, hs, who, c, options, funds);
        MintTells(w, hs, who, c, Some(w.publishing[c]), options, w.publishing[c].amount, k);
      case Give(who, key, to, asked, until) => GiveTells(w, hs, env, who, key, to, asked, until, k);
      case EndBlock(order) => EndBlockTells(w, hs, env, order, k);
      case Outside(_, _) =>
    }
  }

  lemma {:induction false} StoryIsHeld(now: nat, hs: Hashing, steps: seq<(ProtoView, Call)>, k: Key)
    requires Fits(Genesis(now), hs, steps)
    ensures var w := Run(Genesis(now), hs, steps);
      Inv(w) && Story(now, hs, steps, k) == HeldOf(w.fragments, w.book.holder, k)
  {
    GenesisInv(now);
    RunKeepsInv(Genesis(now), hs, steps);
    hide Inv, Apply, HeldOf, Retold, Outcome, Overflows;
    if steps != [] {
      var (before, last) := (steps[..|steps| - 1], steps[|steps| - 1]);
      StoryIsHeld(now, hs, before, k);
      if last.1.Give? { StoryIsHeld(now, hs, before, last.1.key); }
      StepTells(Run(Genesis(now), hs, before), hs, last.0, last.1, k);
    }
  }

  /** After any run without overflow an instance is live exactly if its story says so, just as the story says: as it was
      minted or bought, or as its source was when it was given, restricted by each gift to just what was asked, until it
      expired; and it is in the list of the account that minted, bought or was last given it, and in no other. */
  lemma RunTells(now: nat, hs: Hashing, steps: seq<(ProtoView, Call)>, k: Key, a: AccountId)
    requires Fits(Genesis(now), hs, steps)
    ensures var (w, story) := (Run(Genesis(now), hs, steps), Story(now, hs, steps, k));
      && (k in w.fragments <==> story.Some?)
      && (story.Some? ==> w.fragments[k] == story.value.item)
      && (Lists(w.owners, (k.class_, a), IdOf(k)) <==> story.Some? && story.value.of == a)
      && (Lists(w.inventory, (a, k.class_), IdOf(k)) <==> story.Some? && story.value.of == a)
  {
    StoryIsHeld(now, hs, steps, k);
    var w := Run(Genesis(now), hs, steps);
    ListsIffHolds(w, a, k);
    SingleOwnership(w, k);
    assert w.book.holder.Keys == w.fragments.Keys;
    hide Inv, Run, Story;
  }
}
