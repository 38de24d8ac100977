/** The fragments pallet as it runs: storage maps updated in place, one method per call. */
module FragmentsPallet {
  import opened Basics
  import opened FragmentLedger
  import opened FragmentInvariants

  function ErrorOf<S>(r: Result<S, Error>): Option<Error> {
    if r.Err? then Some(r.error) else None
  }

  class Pallet {
    const hs: Hashing
    var now: nat
    var proto2Fragments: map<Hash256, seq<ClassId>>
    var definitions: map<ClassId, Definition>
    var publishing: map<ClassId, Sale>
    var editions: map<ClassId, nat>
    var copies: map<(ClassId, nat), nat>
    var fragments: map<Key, Instance>
    var uniqueData: map<(ClassId, Hash256), nat>
    var owners: map<(ClassId, AccountId), seq<Id>>
    var inventory: map<(AccountId, ClassId), seq<Id>>
    var expirations: map<nat, seq<Key>>
    var money: map<Wallet, Balance>
    ghost var book: Book

    ghost function View(): World
      reads this
    {
      World(now, proto2Fragments, definitions, publishing, editions, copies, fragments, uniqueData, owners, inventory,
            expirations, money, book)
    }

    constructor (hs: Hashing, now: nat)
      ensures View() == Genesis(now) && this.hs == hs
    {
      this.hs := hs;
      this.now := now;
      proto2Fragments, definitions, publishing, editions, copies := map[], map[], map[], map[], map[];
      fragments, uniqueData, owners, inventory, expirations, money := map[], map[], map[], map[], map[], map[];
      book := Book(map[], {}, map[]);
    }

    /** The checks `create`, `publish`, `unpublish` and `mint` share: passed exactly by the account that owns the proto
        while it is attached. */
    method CheckProto(env: ProtoView, proto: Hash256, who: AccountId) returns (error: Option<Error>)
      ensures error.None? <==>
                proto in env.owners && env.owners[proto] == User(who) && proto !in env.detached
      ensures error == Some(ProtoNotFound) <==> proto !in env.owners
      ensures error == Some(ProtoOwnerNotFound) <==> proto in env.owners && env.owners[proto].ExternalAsset?
      ensures error == Some(NoPermission) <==>
                proto in env.owners && env.owners[proto].User? && env.owners[proto].account != who
      ensures error == Some(Detached) <==>
                proto in env.owners && env.owners[proto] == User(who) && proto in env.detached
    {
      if proto !in env.owners {
        return Some(ProtoNotFound);
      }
      match env.owners[proto]
      case ExternalAsset(_) =>
        return Some(ProtoOwnerNotFound);
      case User(owner) =>
        if who != owner {
          return Some(NoPermission);
        }
        if proto in env.detached {
          return Some(Detached);
        }
        return None;
    }

    method Create(env: ProtoView, who: AccountId, proto: Hash256, metadata: Metadata, permissions: Perms,
                  unique: Option<UniqueOptions>, maxSupply: Option<Unit>, reserved: bool) returns (error: Option<Error>)
      modifies this
      ensures var r := Created(old(View()), hs, env, who, proto, metadata, permissions, unique, maxSupply, reserved);
        error == ErrorOf(r) && View() == After(old(View()), r)
    {
      error := CheckProto(env, proto, who);
      if error.Some? {
        return;
      }
      var c := hs.classId(proto, metadata);
      if c in definitions {
        return Some(AlreadyExist);
      }
      if !reserved {
        return Some(ReserveFailed);
      }
      definitions := definitions[c := Definition(proto, metadata, permissions, unique, maxSupply, who, now)];
      proto2Fragments := Append(proto2Fragments, proto, c);
    }

    method Publish(env: ProtoView, who: AccountId, c: ClassId, sale: Sale) returns (error: Option<Error>)
      modifies this
      ensures var r := Published(old(View()), env, who, c, sale);
        error == ErrorOf(r) && View() == After(old(View()), r)
    {
      if c !in definitions {
        return Some(NotFound);
      }
      error := CheckProto(env, definitions[c].protoHash, who);
      if error.Some? {
        return;
      }
      if c in publishing {
        return Some(SaleAlreadyOpen);
      }
      if definitions[c].maxSupply.Some? {
        var existing := CountOf(editions, c);
        var left := SaturatingSub(definitions[c].maxSupply.value, existing);
        if sale.unitsLeft.None? {
          return Some(ParamsNotValid);
        }
        if sale.unitsLeft.value > left {
          return Some(MaxSupplyReached);
        }
        if left == 0 {
          return Some(MaxSupplyReached);
        }
      }
      publishing := publishing[c := sale];
    }

    method Unpublish(env: ProtoView, who: AccountId, c: ClassId) returns (error: Option<Error>)
      modifies this
      ensures var r := Unpublished(old(View()), env, who, c);
        error == ErrorOf(r) && View() == After(old(View()), r)
    {
      if c !in definitions {
        return Some(NotFound);
      }
      error := CheckProto(env, definitions[c].protoHash, who);
      if error.Some? {
        return;
      }
      if c !in publishing {
        return Some(NotFound);
      }
      publishing := publishing - {c};
    }

    /** The checks at the head of `mint_fragments`, which write nothing, and the hash of the unique data if any. */
    method CheckMint(c: ClassId, options: BuyOptions, quantity: nat, expiringAt: Option<nat>)
      returns (error: Option<Error>, data: Option<Hash256>)
      ensures error.None? <==>
              MintRefusal(View(), hs, c, Some(Sale(0, None, None, None)), options, quantity, expiringAt).None?
      ensures error.Some? ==> forall sale :: MintRefusal(View(), hs, c, sale, options, quantity, expiringAt) == error
      ensures error.None? ==> data == if options.UniqueData? then Some(hs.blake2(options.data)) else None
    {
      data := None;
      if expiringAt.Some? && !(expiringAt.value > now) {
        return Some(ParamsNotValid), None;
      }
      if c !in definitions {
        return Some(NotFound), None;
      }
      match options
      case UniqueData(bytes) =>
        if definitions[c].unique.None? || quantity != 1 {
          return Some(ParamsNotValid), None;
        }
        var h := hs.blake2(bytes);
        if (c, h) in uniqueData {
          return Some(UniqueDataExists), None;
        }
        return None, Some(h);
      case Quantity(_) =>
        if definitions[c].unique.Some? {
          return Some(ParamsNotValid), None;
        }
        return None, None;
    }

    /** The sum of the count and the quantity is one of u64: past 2^64 the loop makes no pass. */
    method MintFragments(to: AccountId, c: ClassId, sale: Option<Sale>, options: BuyOptions, quantity: Unit,
                         expiringAt: Option<nat>, amount: Option<nat>) returns (error: Option<Error>)
      modifies `publishing, `editions, `copies, `fragments, `uniqueData, `owners, `inventory, `expirations, `book
      ensures var r := Minted(old(View()), hs, to, c, sale, options, quantity, expiringAt, amount);
        error == ErrorOf(r) && View() == After(old(View()), r)
    {
      hide MintMany, MintEditions, Recorded, CountTouched, UnitsTaken, MintRefusal;
      var data: Option<Hash256>;
      error, data := CheckMint(c, options, quantity, expiringAt);
      if error.Some? {
        return;
      }
      UnitsRefusal(View(), hs, c, sale, options, quantity, expiringAt);
      var existing := CountOf(editions, c);
      error := TakeUnits(c, sale, quantity, existing);
      if error.Some? {
        return;
      }
      ghost var w1 := View();
      var inst := Instance(definitions[c].permissions, now, data, expiringAt, amount);
      var end := (existing + quantity) % U64;
      WriteEditions(to, c, existing, end, inst);
      RecordMint(c, data, existing, end);
      BatchIsOneByOne(w1, to, c, inst, end);
    }

    /** The units of the sale bought from, or without one the supply left. */
    method TakeUnits(c: ClassId, sale: Option<Sale>, quantity: nat, existing: nat) returns (error: Option<Error>)
      requires c in definitions && existing == EditionsOf(View(), c)
      modifies `publishing
      ensures error == (if sale.Some? && sale.value.unitsLeft.Some? && sale.value.unitsLeft.value < quantity
                        then Some(PublishedQuantityReached)
                        else if sale.None? && definitions[c].maxSupply.Some?
                                && SaturatingSub(definitions[c].maxSupply.value, existing) < quantity
                        then Some(MaxSupplyReached) else None)
      ensures View() == if error.Some? then old(View()) else UnitsTaken(old(View()), c, sale, quantity)
    {
      if sale.Some? {
        if sale.value.unitsLeft.Some? {
          var left := sale.value.unitsLeft.value;
          if quantity > left {
            return Some(PublishedQuantityReached);
          }
          if c in publishing {
            publishing := publishing[c := publishing[c].(unitsLeft := Some(left - quantity))];
          }
        }
      } else if definitions[c].maxSupply.Some? {
        var left := SaturatingSub(definitions[c].maxSupply.value, existing);
        if quantity > left {
          return Some(MaxSupplyReached);
        }
      }
      return None;
    }

    /** The writing loop: editions existing + 1 .. end, one copy each, listed for `to`. */
    method WriteEditions(to: AccountId, c: ClassId, existing: nat, end: nat, inst: Instance)
      modifies `copies, `fragments, `owners, `inventory, `expirations, `book
      ensures View() == MintEditions(old(View()), to, c, inst, existing, SaturatingSub(end, existing))
    {
      hide MintEdition;
      ghost var w := View();
      var id := existing;
      while id < end
        invariant existing <= id && (id <= end || id == existing)
        invariant View() == MintEditions(w, to, c, inst, existing, id - existing)
      {
        WriteEdition(to, c, id, inst);
        id := id + 1;
      }
    }

    method WriteEdition(to: AccountId, c: ClassId, n: nat, inst: Instance)
      modifies `copies, `fragments, `owners, `inventory, `expirations, `book
      ensures View() == MintEdition(old(View()), to, c, inst, n)
    {
      hide Append, Scheduled;
      var id := n + 1;
      copies := copies[(c, id) := 1];
      Issue(to, Key(c, id, 1), inst);
    }

    /** An instance under a new id: stored, listed for its holder, and in the calendar if it expires. */
    method Issue(to: AccountId, k: Key, inst: Instance)
      modifies `fragments, `owners, `inventory, `expirations, `book
      ensures fragments == old(fragments)[k := inst] && expirations == Scheduled(old(expirations), k, inst)
      ensures owners == Append(old(owners), (k.class_, to), IdOf(k))
      ensures inventory == Append(old(inventory), (to, k.class_), IdOf(k))
      ensures book == old(book).(holder := old(book).holder[k := to])
    {
      hide Append, Scheduled;
      fragments := fragments[k := inst];
      ListFor(to, k);
      Schedule(k, inst);
    }

    /** One more id in an account's two lists. */
    method ListFor(to: AccountId, k: Key)
      modifies `owners, `inventory, `book
      ensures owners == Append(old(owners), (k.class_, to), IdOf(k))
      ensures inventory == Append(old(inventory), (to, k.class_), IdOf(k))
      ensures book == old(book).(holder := old(book).holder[k := to])
    {
      inventory := Append(inventory, (to, k.class_), IdOf(k));
      owners := Append(owners, (k.class_, to), IdOf(k));
      book := book.(holder := book.holder[k := to]);
    }

    method Schedule(k: Key, inst: Instance)
      modifies `expirations
      ensures expirations == Scheduled(old(expirations), k, inst)
    {
      if inst.expiringAt.Some? {
        expirations := Append(expirations, inst.expiringAt.value, k);
      }
    }

    method RecordMint(c: ClassId, data: Option<Hash256>, existing: nat, end: nat)
      modifies `uniqueData, `editions, `book
      ensures View() == Recorded(old(View()), c, data, existing, end)
    {
      if data.Some? {
        uniqueData := uniqueData[(c, data.value) := existing];
      }
      book := book.(datum := DatumRecorded(book.datum, c, data, existing));
      editions := editions[c := end];
    }

    method Mint(env: ProtoView, who: AccountId, c: ClassId, options: BuyOptions, amount: Option<nat>)
      returns (error: Option<Error>)
      modifies this
      ensures var r := MintedByOwner(old(View()), hs, env, who, c, options, amount);
        error == ErrorOf(r) && View() == After(old(View()), r)
    {
      if c !in definitions {
        return Some(NotFound);
      }
      error := CheckProto(env, definitions[c].protoHash, who);
      if error.Some? {
        return;
      }
      var quantity := match options case Quantity(n) => n case UniqueData(_) => 1;
      error := MintFragments(who, c, None, options, quantity, None, amount);
    }

    /** The checks of `buy`, in their order. */
    method CheckBuy(who: AccountId, c: ClassId, options: BuyOptions, funds: Funds)
      returns (error: Option<Error>, price: nat)
      ensures error.None? ==>
                && c in publishing && c in definitions
                && price == Charge(publishing[c].price, QuantityOf(options))
                && !(BalanceOf(money, BuyerWallet(View(), who, c)) < (price + funds.minimum) % U128)
                && !(publishing[c].expiration.Some? && publishing[c].expiration.value <= now)
                && publishing[c].unitsLeft != Some(0)
      ensures error.Some? ==> Bought(View(), hs, who, c, options, funds) == Err(error.value)
    {
      price := 0;
      hide Minted, Paid;
      if c !in publishing {
        return Some(NotFound), price;
      }
      var sale := publishing[c];
      if sale.expiration.Some? && !(now < sale.expiration.value) {
        return Some(Expired), price;
      }
      if sale.unitsLeft.Some? && !(sale.unitsLeft.value > 0) {
        return Some(SoldOut), price;
      }
      if c !in definitions {
        return Some(NotFound), price;
      }
      var quantity := match options case Quantity(n) => n case UniqueData(_) => 1;
      price := Min(sale.price * quantity, U128 - 1);
      if !(BalanceOf(money, Wallet(who, definitions[c].metadata.currency)) >= (price + funds.minimum) % U128) {
        return Some(InsufficientBalance), price;
      }
      return None, price;
    }

    /** The mint is written before the payment; when the payment fails the storage layer rolls the call back. */
    method Buy(who: AccountId, c: ClassId, options: BuyOptions, funds: Funds) returns (error: Option<Error>)
      modifies this
      ensures var r := Bought(old(View()), hs, who, c, options, funds);
        error == ErrorOf(r) && View() == After(old(View()), r)
    {
      hide Minted, Paid, Charge, BalanceOf;
      var price: nat;
      error, price := CheckBuy(who, c, options, funds);
      if error.Some? {
        return;
      }
      var sale := publishing[c];
      var buyer := Wallet(who, definitions[c].metadata.currency);
      var vault := Wallet(hs.vault(c), definitions[c].metadata.currency);
      var quantity := QuantityOf(options);
      var saved := Storage(publishing, editions, copies, fragments, uniqueData, owners, inventory, expirations);
      ghost var savedBook := book;
      error := MintFragments(who, c, Some(sale), options, quantity, None, sale.amount);
      if error.Some? {
        return;
      }
      var paid := Transfer(buyer, vault, price, funds);
      if !paid {
        RollBack(saved, savedBook);
        return Some(InsufficientBalance);
      }
    }

    /** The balances or assets pallet. */
    method Transfer(from: Wallet, to: Wallet, amount: nat, funds: Funds) returns (paid: bool)
      modifies `money
      ensures var r := Paid(old(money), from, to, amount, funds);
        paid == r.Some? && money == if paid then r.value else old(money)
    {
      if !funds.allows {
        return false;
      }
      if from == to {
        return true;
      }
      if BalanceOf(money, from) < amount + funds.minimum {
        return false;
      }
      if U128 <= BalanceOf(money, to) + amount {
        return false;
      }
      money := money[from := BalanceOf(money, from) - amount];
      money := money[to := BalanceOf(money, to) + amount];
      return true;
    }

    method Give(who: AccountId, key: Key, to: Option<AccountId>, narrowed: Option<Perms>, expiration: Option<nat>)
      returns (error: Option<Error>)
      modifies this
      ensures var r := Given(old(View()), who, key, to, narrowed, expiration);
        error == ErrorOf(r) && View() == After(old(View()), r)
    {
      hide GiveRefusal, AddCopy, Move;
      var c := key.class_;
      error := CheckGive(who, key, to, narrowed, expiration);
      if error.Some? {
        return;
      }
      GiveAccepted(View(), who, key, to, narrowed, expiration);
      var item := fragments[key];
      var perms := if narrowed.Some? then narrowed.value else item.permissions;
      if COPY in item.permissions {
        item := item.(permissions := perms);
        if item.expiringAt.Some? {
          if expiration.Some? && expiration.value < item.expiringAt.value {
            item := item.(expiringAt := expiration);
          }
        } else if expiration.Some? {
          item := item.(expiringAt := expiration);
        }
        GiveCopy(to.value, c, key.edition, item);
      } else {
        GiveItself(who, key, to.value, perms);
      }
    }

    /** The checks of `give`, in their order. */
    method CheckGive(who: AccountId, key: Key, to: Option<AccountId>, narrowed: Option<Perms>, expiration: Option<nat>)
      returns (error: Option<Error>)
      ensures error == GiveRefusal(View(), who, key, to, narrowed, expiration)
    {
      if key !in fragments {
        return Some(NotFound);
      }
      var item := fragments[key];
      if item.expiringAt.Some? && !(now < item.expiringAt.value) {
        return Some(NotFound);
      }
      if expiration.Some? && !(now < expiration.value) {
        return Some(ParamsNotValid);
      }
      if (who, key.class_) !in inventory {
        return Some(NotFound);
      }
      if IdOf(key) !in inventory[(who, key.class_)] {
        return Some(NoPermission);
      }
      if TRANSFER !in item.permissions {
        return Some(NoPermission);
      }
      if narrowed.Some? {
        var asked := narrowed.value;
        if EDIT !in item.permissions && EDIT in asked {
          return Some(NoPermission);
        }
        if COPY !in item.permissions && COPY in asked {
          return Some(NoPermission);
        }
        if TRANSFER !in item.permissions && TRANSFER in asked {
          return Some(NoPermission);
        }
        assert forall p :: p in asked ==> p == EDIT || p == COPY || p == TRANSFER;
      }
      if to.None? {
        return Some(LookupFailed);
      }
      if COPY in item.permissions && (key.class_, key.edition) !in copies {
        return Some(NotFound);
      }
      return None;
    }

    method GiveCopy(to: AccountId, c: ClassId, e: nat, item: Instance)
      requires (c, e) in copies
      modifies this
      ensures View() == AddCopy(old(View()), to, c, e, item)
    {
      hide Append, Scheduled;
      var copy := (copies[(c, e)] + 1) % U64;
      copies := copies[(c, e) := copy];
      Issue(to, Key(c, e, copy), item);
    }

    method GiveItself(who: AccountId, key: Key, to: AccountId, perms: Perms)
      requires key in fragments
      modifies this
      ensures View() == Move(old(View()), who, key, to, perms)
    {
      owners := Retain(owners, (key.class_, who), IdOf(key));
      inventory := Retain(inventory, (who, key.class_), IdOf(key));
      ListFor(to, key);
      fragments := fragments[key := fragments[key].(permissions := perms)];
    }

    // ---- on_finalize --------------------------------------------------------------------------

    /** For each id due, look through the owners in the order storage yields them, up to the first found listing it.
        Storage yields every entry. */
    method OnFinalize(order: seq<AccountId>)
      requires forall s :: s in owners ==> s.1 in order
      modifies this
      ensures View() == SweptBy(old(View()), order)
    {
      hide Delisted;
      ghost var w := View().(expirations := expirations - {now});
      var due := Lookup(expirations, now);
      expirations := expirations - {now};
      var i := 0;
      assert due[..0] == [];
      while i < |due|
        invariant 0 <= i <= |due|
        invariant View() == DelistAll(w, due[..i], order)
        invariant owners.Keys == w.owners.Keys
      {
        assert due[..i + 1][..i] == due[..i] && due[..i + 1][i] == due[i];
        Expire(due[i], order);
        i := i + 1;
      }
      assert due[..i] == due;
    }

    method Expire(key: Key, order: seq<AccountId>)
      requires forall s :: s in owners ==> s.1 in order
      modifies `fragments, `owners, `inventory, `book
      ensures View() == Delisted(old(View()), key, order) && owners.Keys == old(owners).Keys
    {
      hide FoundLister, Unlisted;
      fragments := fragments - {key};
      book := Book(book.holder - {key}, book.burned + {key}, book.datum);
      Delist(key, order);
    }

    method Delist(key: Key, order: seq<AccountId>)
      requires forall s :: s in owners ==> s.1 in order
      modifies `owners, `inventory
      ensures var (found, id) := (FoundLister(old(owners), key, order), IdOf(key));
        && owners == (if found.Some? then Unlisted(old(owners), (key.class_, found.value), id) else old(owners))
        && inventory ==
          (if found.Some? then Unlisted(old(inventory), (found.value, key.class_), id) else old(inventory))
      ensures owners.Keys == old(owners).Keys
    {
      var i := 0;
      while i < |order|
        invariant 0 <= i <= |order| && owners == old(owners) && inventory == old(inventory)
        invariant forall j :: 0 <= j < i ==> order[j] !in Listers(owners, key)
      {
        var s := (key.class_, order[i]);
        if s in owners {
          var index := Position(owners[s], IdOf(key));
          if index.Some? {
            FoundAt(owners, key, order, i);
            owners := owners[s := RemoveAt(owners[s], index.value)];
            if (s.1, s.0) in inventory {
              var j := Position(inventory[(s.1, s.0)], IdOf(key));
              if j.Some? {
                inventory := inventory[(s.1, s.0) := RemoveAt(inventory[(s.1, s.0)], j.value)];
              }
            }
            return;
          }
        }
        i := i + 1;
      }
      FoundNowhere(owners, key, order);
    }

    /** What the storage layer does when a call returns an error after writing. */
    method RollBack(s: Storage, ghost b: Book)
      modifies `publishing, `editions, `copies, `fragments, `uniqueData, `owners, `inventory, `expirations, `book
      ensures publishing == s.publishing && editions == s.editions && copies == s.copies && fragments == s.fragments
      ensures uniqueData == s.uniqueData && owners == s.owners && inventory == s.inventory
      ensures expirations == s.expirations && book == b
    {
      publishing, editions, copies, fragments := s.publishing, s.editions, s.copies, s.fragments;
      book := b;
      RollBackIndexes(s);
    }

    method RollBackIndexes(s: Storage)
      modifies `uniqueData, `owners, `inventory, `expirations
      ensures uniqueData == s.uniqueData && owners == s.owners && inventory == s.inventory
              && expirations == s.expirations
    {
      uniqueData, owners, inventory, expirations := s.uniqueData, s.owners, s.inventory, s.expirations;
    }
  }

  /** Past the head checks of a mint only its units are looked at. */
  lemma UnitsRefusal(w: World, hs: Hashing, c: ClassId, sale: Option<Sale>, options: BuyOptions, quantity: nat,
                     expiringAt: Option<nat>)
    requires MintRefusal(w, hs, c, Some(Sale(0, None, None, None)), options, quantity, expiringAt).None?
    ensures c in w.definitions && (options.UniqueData? ==> quantity == 1)
    ensures MintRefusal(w, hs, c, sale, options, quantity, expiringAt) ==
              if sale.Some? && sale.value.unitsLeft.Some? && sale.value.unitsLeft.value < quantity
              then Some(PublishedQuantityReached)
              else if sale.None? && w.definitions[c].maxSupply.Some?
                      && SaturatingSub(w.definitions[c].maxSupply.value, EditionsOf(w, c)) < quantity
              then Some(MaxSupplyReached) else None
  {
  }

  /** The maps a mint writes. */
  datatype Storage = Storage(
    publishing: map<ClassId, Sale>, editions: map<ClassId, nat>, copies: map<(ClassId, nat), nat>,
    fragments: map<Key, Instance>, uniqueData: map<(ClassId, Hash256), nat>,
    owners: map<(ClassId, AccountId), seq<Id>>, inventory: map<(AccountId, ClassId), seq<Id>>,
    expirations: map<nat, seq<Key>>)

  lemma GiveAccepted(w: World, who: AccountId, key: Key, to: Option<AccountId>, narrowed: Option<Perms>,
                     expiration: Option<nat>)
    requires GiveRefusal(w, who, key, to, narrowed, expiration).None?
    ensures key in w.fragments && to.Some?
    ensures COPY in w.fragments[key].permissions ==> (key.class_, key.edition) in w.copies
  {
  }

  // ---- The search for an owner ----------------------------------------------------------------

  lemma {:induction false} FirstInAt(order: seq<AccountId>, among: set<AccountId>, i: nat)
    requires i < |order| && order[i] in among && forall j :: 0 <= j < i ==> order[j] !in among
    ensures FirstIn(order, among) == Some(order[i])
  {
    if i != 0 {
      FirstInAt(order[1..], among, i - 1);
    }
  }

  lemma FoundAt(owners: map<(ClassId, AccountId), seq<Id>>, k: Key, order: seq<AccountId>, i: nat)
    requires i < |order| && (k.class_, order[i]) in owners && IdOf(k) in owners[(k.class_, order[i])]
    requires forall j :: 0 <= j < i ==> order[j] !in Listers(owners, k)
    ensures FoundLister(owners, k, order) == Some(order[i])
  {
    assert order[i] in Listers(owners, k) by { assert (k.class_, order[i]).1 == order[i]; }
    FirstInAt(order, Listers(owners, k), i);
  }

  lemma FoundNowhere(owners: map<(ClassId, AccountId), seq<Id>>, k: Key, order: seq<AccountId>)
    requires forall s :: s in owners ==> s.1 in order
    requires forall j :: 0 <= j < |order| ==> order[j] !in Listers(owners, k)
    ensures FoundLister(owners, k, order).None?
  {
    forall s | s in owners && s.0 == k.class_ ensures IdOf(k) !in owners[s] {
      var j :| 0 <= j < |order| && order[j] == s.1;
      assert order[j] !in Listers(owners, k);
    }
    assert Listers(owners, k) == {};
  }

  // ---- The minting loop against minting one edition at a time ---------------------------------

  /** One pass of the loop, for the edition after n. */
  function MintEdition(w: World, to: AccountId, c: ClassId, inst: Instance, n: nat): World {
    var key := Key(c, n + 1, 1);
    w.(copies := w.copies[(c, n + 1) := 1],
       fragments := w.fragments[key := inst],
       owners := Append(w.owners, (c, to), Id(n + 1, 1)),
       inventory := Append(w.inventory, (to, c), Id(n + 1, 1)),
       expirations := Scheduled(w.expirations, key, inst),
       book := w.book.(holder := w.book.holder[key := to]))
  }

  function MintEditions(w: World, to: AccountId, c: ClassId, inst: Instance, n: nat, q: nat): World {
    if q == 0 then w else MintEdition(MintEditions(w, to, c, inst, n, q - 1), to, c, inst, n + q - 1)
  }

  lemma MintOneIsEdition(m: World, to: AccountId, c: ClassId, inst: Instance, editions: map<ClassId, nat>)
    requires inst.customData.None?
    ensures MintOne(m, to, c, inst).(editions := editions)
         == MintEdition(m.(editions := editions), to, c, inst, EditionsOf(m, c))
  {
  }

  lemma {:induction false} LoopIsMintMany(w: World, to: AccountId, c: ClassId, inst: Instance, q: nat)
    requires inst.customData.None?
    ensures MintMany(w, to, c, inst, q).(editions := w.editions) == MintEditions(w, to, c, inst, EditionsOf(w, c), q)
  {
    hide MintOne, MintEdition;
    if q != 0 {
      var m := MintMany(w, to, c, inst, q - 1);
      LoopIsMintMany(w, to, c, inst, q - 1);
      MintManyFrame(w, to, c, inst, q - 1);
      MintOneIsEdition(m, to, c, inst, w.editions);
    }
  }

  /** With unique data the loop makes one pass or, past u64, none. */
  lemma UniqueLoop(w: World, to: AccountId, c: ClassId, inst: Instance, n: nat, end: nat)
    requires inst.customData.Some? && n == EditionsOf(w, c)
    ensures Recorded(MintEditions(w, to, c, inst, n, 1), c, inst.customData, n, end) ==
              Recorded(MintMany(w, to, c, inst, 1), c, inst.customData, n, end)
  {
    hide MintOne, MintEdition, Recorded;
    assert MintMany(w, to, c, inst, 1) == MintOne(MintMany(w, to, c, inst, 0), to, c, inst);
    assert MintEditions(w, to, c, inst, n, 1) == MintEdition(MintEditions(w, to, c, inst, n, 0), to, c, inst, n);
    UniquePass(w, to, c, inst, n, end);
  }

  lemma UniquePass(w: World, to: AccountId, c: ClassId, inst: Instance, n: nat, end: nat)
    requires inst.customData.Some? && n == EditionsOf(w, c)
    ensures Recorded(MintEdition(w, to, c, inst, n), c, inst.customData, n, end) ==
              Recorded(MintOne(w, to, c, inst), c, inst.customData, n, end)
  {
    hide Append, Scheduled;
  }

  lemma PlainRecords(m: World, m': World, editions: map<ClassId, nat>, c: ClassId, n: nat, end: nat)
    requires m' == m.(editions := editions) && m.editions[c := end] == editions[c := end]
    ensures Recorded(m', c, None, n, end) == Recorded(m, c, None, n, end)
  {
  }

  lemma PlainLoop(w: World, to: AccountId, c: ClassId, inst: Instance, n: nat, q: nat, end: nat)
    requires inst.customData.None? && n == EditionsOf(w, c)
    ensures Recorded(MintEditions(w, to, c, inst, n, q), c, inst.customData, n, end) ==
              Recorded(MintMany(w, to, c, inst, q), c, inst.customData, n, end)
  {
    hide MintMany, MintEditions;
    var (m, m') := (MintMany(w, to, c, inst, q), MintEditions(w, to, c, inst, n, q));
    LoopIsMintMany(w, to, c, inst, q);
    LoopCounts(w, to, c, inst, q, end);
    hide EditionsOf;
    PlainRecords(m, m', w.editions, c, n, end);
    hide Recorded;
  }

  lemma LoopCounts(w: World, to: AccountId, c: ClassId, inst: Instance, q: nat, end: nat)
    ensures MintMany(w, to, c, inst, q).editions[c := end] == w.editions[c := end]
  {
    MintManyFrame(w, to, c, inst, q);
    hide MintMany;
  }

  /** Writing the counts once after the loop leaves the storage that minting one by one leaves. */
  lemma BatchIsOneByOne(w: World, to: AccountId, c: ClassId, inst: Instance, end: nat)
    requires inst.customData.Some? ==> end <= EditionsOf(w, c) + 1
    ensures var n := EditionsOf(w, c);
      var q := SaturatingSub(end, n);
      Recorded(MintEditions(w, to, c, inst, n, q), c, inst.customData, n, end) ==
        Recorded(MintMany(w, to, c, inst, q), c, inst.customData, n, end)
  {
    hide Recorded;
    var n := EditionsOf(w, c);
    var q := SaturatingSub(end, n);
    if inst.customData.None? {
      PlainLoop(w, to, c, inst, n, q, end);
    } else if q == 1 {
      UniqueLoop(w, to, c, inst, n, end);
    }
  }
}
