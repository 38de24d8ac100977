/** Storage of the fragments pallet and what each of its calls does to that storage. */
module FragmentLedger {
  import opened Basics

  datatype Perm = EDIT | COPY | TRANSFER
  type Perms = set<Perm>

  type ClassId(==,!new)
  datatype Metadata = Metadata(name: Bytes, currency: Option<nat>)
  datatype UniqueOptions = UniqueOptions(isMutable: bool)

  datatype Definition = Definition(
    protoHash: Hash256, metadata: Metadata, permissions: Perms, unique: Option<UniqueOptions>,
    maxSupply: Option<Unit>, creator: AccountId, createdAt: nat)

  datatype Instance = Instance(
    permissions: Perms, createdAt: nat, customData: Option<Hash256>, expiringAt: Option<nat>, amount: Option<nat>)

  datatype Sale = Sale(price: nat, unitsLeft: Option<Unit>, expiration: Option<nat>, amount: Option<nat>)

  datatype BuyOptions = Quantity(n: Unit) | UniqueData(data: Bytes)

  /** An instance within its class, and across classes. */
  datatype Id = Id(edition: nat, copy: nat)
  datatype Key = Key(class_: ClassId, edition: nat, copy: nat)

  function IdOf(k: Key): Id { Id(k.edition, k.copy) }

  function KeyOf(c: ClassId, id: Id): Key { Key(c, id.edition, id.copy) }

  /** What a reader of the chain wants to know, kept beside the storage and never read by it:
      who holds each live instance, which instances have expired, and the data each unique edition was minted with. */
  datatype Book = Book(holder: map<Key, AccountId>, burned: set<Key>, datum: map<(ClassId, nat), Hash256>)

  /** An account's holding of the chain's own currency, or of an asset. */
  datatype Wallet = Wallet(account: AccountId, currency: Option<nat>)

  /** The storage maps of the pallet, the balances a purchase moves, and the book. */
  datatype World = World(
    now: nat,
    proto2Fragments: map<Hash256, seq<ClassId>>,
    definitions: map<ClassId, Definition>,
    publishing: map<ClassId, Sale>,
    editions: map<ClassId, nat>,
    copies: map<(ClassId, nat), nat>,
    fragments: map<Key, Instance>,
    uniqueData: map<(ClassId, Hash256), nat>,
    owners: map<(ClassId, AccountId), seq<Id>>,
    inventory: map<(AccountId, ClassId), seq<Id>>,
    expirations: map<nat, seq<Key>>,
    money: map<Wallet, Balance>,
    book: Book)

  function Genesis(now: nat): World {
    World(now, map[], map[], map[], map[], map[], map[], map[], map[], map[], map[], map[], Book(map[], {}, map[]))
  }

  /** The hash functions the pallet calls, uninterpreted: class ids, data, and the vault account of a class. */
  datatype Hashing = Hashing(
    classId: (Hash256, Metadata) -> ClassId, blake2: Bytes -> Hash256, vault: ClassId -> AccountId)

  /** The part of the protos and detach pallets the calls read. */
  datatype ProtoView = ProtoView(owners: map<Hash256, ProtoOwner>, detached: set<Hash256>)

  /** What the balances or assets pallet decides in a purchase: the least the buyer may keep, and whether it allows the
      transfer if the buyer has the amount. */
  datatype Funds = Funds(minimum: LeastBalance, allows: bool)

  datatype Error =
    | ProtoNotFound | ProtoOwnerNotFound | NoPermission | Detached | AlreadyExist | NotFound | Expired
    | InsufficientBalance | SoldOut | SaleAlreadyOpen | MaxSupplyReached | PublishedQuantityReached
    | ParamsNotValid | UniqueDataExists | ReserveFailed | LookupFailed

  function CountOf(editions: map<ClassId, nat>, c: ClassId): nat {
    if c in editions then editions[c] else 0
  }

  function EditionsOf(w: World, c: ClassId): nat { CountOf(w.editions, c) }

  function CopiesOf(w: World, c: ClassId, e: nat): nat {
    if (c, e) in w.copies then w.copies[(c, e)] else 0
  }

  /** What an open limited sale may still sell. */
  function UnitsLeft(publishing: map<ClassId, Sale>, c: ClassId): nat {
    if c in publishing && publishing[c].unitsLeft.Some? then publishing[c].unitsLeft.value else 0
  }

  /** The calendar with k under the block its instance expires at, if any. */
  function Scheduled(expirations: map<nat, seq<Key>>, k: Key, inst: Instance): map<nat, seq<Key>> {
    if inst.expiringAt.Some? then Append(expirations, inst.expiringAt.value, k) else expirations
  }

  function QuantityOf(o: BuyOptions): nat {
    if o.Quantity? then o.n else 1
  }

  /** Only the account that owns an attached proto may act on the definitions made from it. */
  function ProtoRefusal(env: ProtoView, proto: Hash256, who: AccountId): Option<Error> {
    if proto !in env.owners then Some(ProtoNotFound)
    else if !env.owners[proto].User? then Some(ProtoOwnerNotFound)
    else if env.owners[proto].account != who then Some(NoPermission)
    else if proto in env.detached then Some(Detached)
    else None
  }

  // ---- create, publish, unpublish -------------------------------------------------------------

  function Created(w: World, hs: Hashing, env: ProtoView, who: AccountId, proto: Hash256, metadata: Metadata,
                   permissions: Perms, unique: Option<UniqueOptions>, maxSupply: Option<Unit>, reserved: bool)
    : Result<World, Error>
  {
    var c := hs.classId(proto, metadata);
    var refusal := ProtoRefusal(env, proto, who);
    if refusal.Some? then Err(refusal.value)
    else if c in w.definitions then Err(AlreadyExist)
    else if !reserved then Err(ReserveFailed)
    else
      var d := Definition(proto, metadata, permissions, unique, maxSupply, who, w.now);
      Ok(w.(definitions := w.definitions[c := d],
            proto2Fragments := Append(w.proto2Fragments, proto, c)))
  }

  function Published(w: World, env: ProtoView, who: AccountId, c: ClassId, sale: Sale): Result<World, Error> {
    if c !in w.definitions then Err(NotFound)
    else
      var d := w.definitions[c];
      var refusal := ProtoRefusal(env, d.protoHash, who);
      if refusal.Some? then Err(refusal.value)
      else if c in w.publishing then Err(SaleAlreadyOpen)
      else if d.maxSupply.Some? && sale.unitsLeft.None? then Err(ParamsNotValid)
      else if d.maxSupply.Some? && (d.maxSupply.value <= EditionsOf(w, c)
                                    || d.maxSupply.value < EditionsOf(w, c) + sale.unitsLeft.value)
      then Err(MaxSupplyReached)
      else Ok(w.(publishing := w.publishing[c := sale]))
  }

  function Unpublished(w: World, env: ProtoView, who: AccountId, c: ClassId): Result<World, Error> {
    if c !in w.definitions then Err(NotFound)
    else
      var refusal := ProtoRefusal(env, w.definitions[c].protoHash, who);
      if refusal.Some? then Err(refusal.value)
      else if c !in w.publishing then Err(NotFound)
      else Ok(w.(publishing := w.publishing - {c}))
  }

  /** The unique-data map, and the book's inverse of it, after edition number e + 1 is minted. */
  function DataRecorded(uniqueData: map<(ClassId, Hash256), nat>, c: ClassId, data: Option<Hash256>, e: nat)
    : map<(ClassId, Hash256), nat>
  {
    if data.Some? then uniqueData[(c, data.value) := e] else uniqueData
  }

  function DatumRecorded(datum: map<(ClassId, nat), Hash256>, c: ClassId, data: Option<Hash256>, e: nat)
    : map<(ClassId, nat), Hash256>
  {
    if data.Some? then datum[(c, e) := data.value] else datum
  }

  // ---- mint and buy ---------------------------------------------------------------------------

  /** One more edition of class c, its only copy held by `to`. */
  function MintOne(w: World, to: AccountId, c: ClassId, inst: Instance): World {
    var n := EditionsOf(w, c);
    var e := n + 1;
    var key := Key(c, e, 1);
    w.(editions := w.editions[c := e],
       copies := w.copies[(c, e) := 1],
       fragments := w.fragments[key := inst],
       uniqueData := DataRecorded(w.uniqueData, c, inst.customData, n),
       owners := Append(w.owners, (c, to), Id(e, 1)),
       inventory := Append(w.inventory, (to, c), Id(e, 1)),
       expirations := Scheduled(w.expirations, key, inst),
       book := Book(w.book.holder[key := to], w.book.burned, DatumRecorded(w.book.datum, c, inst.customData, n)))
  }

  function MintMany(w: World, to: AccountId, c: ClassId, inst: Instance, n: nat): World {
    if n == 0 then w else MintOne(MintMany(w, to, c, inst, n - 1), to, c, inst)
  }

  /** Every successful mint records the edition count, even one of zero instances. */
  function CountTouched(w: World, c: ClassId): World {
    w.(editions := w.editions[c := EditionsOf(w, c)])
  }

  /** The u64 sum of the edition count and a quantity, and how many passes a loop from the one to the other makes. */
  function EndOf(existing: nat, quantity: nat): nat {
    (existing + quantity) % U64
  }

  function Passes(existing: nat, quantity: nat): nat {
    SaturatingSub(EndOf(existing, quantity), existing)
  }

  /** What is written after the loop: the data under the count before, and the new count. */
  function Recorded(w: World, c: ClassId, data: Option<Hash256>, existing: nat, end: nat): World {
    w.(uniqueData := DataRecorded(w.uniqueData, c, data, existing),
       editions := w.editions[c := end],
       book := w.book.(datum := DatumRecorded(w.book.datum, c, data, existing)))
  }

  /** What stops a mint of `quantity` instances; `sale` is the open sale bought from, if any. */
  function MintRefusal(w: World, hs: Hashing, c: ClassId, sale: Option<Sale>, options: BuyOptions, quantity: nat,
                       expiringAt: Option<nat>)
    : Option<Error>
  {
    if expiringAt.Some? && expiringAt.value <= w.now then Some(ParamsNotValid)
    else if c !in w.definitions then Some(NotFound)
    else
      var d := w.definitions[c];
      if options.UniqueData? != d.unique.Some? then Some(ParamsNotValid)
      else if options.UniqueData? && quantity != 1 then Some(ParamsNotValid)
      else if options.UniqueData? && (c, hs.blake2(options.data)) in w.uniqueData then Some(UniqueDataExists)
      else if sale.Some? && sale.value.unitsLeft.Some? && sale.value.unitsLeft.value < quantity
      then Some(PublishedQuantityReached)
      else if sale.None? && d.maxSupply.Some? && SaturatingSub(d.maxSupply.value, EditionsOf(w, c)) < quantity
      then Some(MaxSupplyReached)
      else None
  }

  function UnitsTaken(w: World, c: ClassId, sale: Option<Sale>, quantity: nat): World {
    if sale.Some? && sale.value.unitsLeft.Some? && c in w.publishing then
      w.(publishing := w.publishing[c :=
           w.publishing[c].(unitsLeft := Some(SaturatingSub(sale.value.unitsLeft.value, quantity)))])
    else w
  }

  function NewInstance(w: World, hs: Hashing, c: ClassId, options: BuyOptions, expiringAt: Option<nat>,
                       amount: Option<nat>)
    : Instance
    requires c in w.definitions
  {
    Instance(w.definitions[c].permissions, w.now,
             if options.UniqueData? then Some(hs.blake2(options.data)) else None, expiringAt, amount)
  }

  function Minted(w: World, hs: Hashing, to: AccountId, c: ClassId, sale: Option<Sale>, options: BuyOptions,
                  quantity: nat, expiringAt: Option<nat>, amount: Option<nat>)
    : Result<World, Error>
  {
    var refusal := MintRefusal(w, hs, c, sale, options, quantity, expiringAt);
    if refusal.Some? then Err(refusal.value)
    else
      var inst := NewInstance(w, hs, c, options, expiringAt, amount);
      var n := EditionsOf(w, c);
      Ok(Recorded(MintMany(UnitsTaken(w, c, sale, quantity), to, c, inst, Passes(n, quantity)),
                  c, inst.customData, n, EndOf(n, quantity)))
  }

  function MintedByOwner(w: World, hs: Hashing, env: ProtoView, who: AccountId, c: ClassId, options: BuyOptions,
                         amount: Option<nat>)
    : Result<World, Error>
  {
    if c !in w.definitions then Err(NotFound)
    else
      var refusal := ProtoRefusal(env, w.definitions[c].protoHash, who);
      if refusal.Some? then Err(refusal.value)
      else Minted(w, hs, who, c, None, options, QuantityOf(options), None, amount)
  }

  /** The price of a purchase saturates at the largest u128; the sum with the minimum balance wraps. */
  function Charge(price: nat, quantity: nat): nat {
    Min(price * quantity, U128 - 1)
  }

  function LeastToPay(charge: nat, minimum: nat): nat {
    (charge + minimum) % U128
  }

  function BalanceOf(money: map<Wallet, Balance>, x: Wallet): Balance {
    if x in money then money[x] else 0
  }

  /** A transfer that keeps the payer alive: it moves the amount if the payer keeps the minimum and the receiver's
      balance does not overflow, or fails. One to oneself moves nothing, and no balance is looked at. */
  function Paid(money: map<Wallet, Balance>, from: Wallet, to: Wallet, amount: nat, funds: Funds)
      : Option<map<Wallet, Balance>>
  {
    if !funds.allows then None
    else if from == to then Some(money)
    else if BalanceOf(money, from) < amount + funds.minimum then None
    else if U128 <= BalanceOf(money, to) + amount then None
    else Some(money[from := BalanceOf(money, from) - amount][to := BalanceOf(money, to) + amount])
  }

  function BuyerWallet(w: World, who: AccountId, c: ClassId): Wallet
    requires c in w.definitions
  {
    Wallet(who, w.definitions[c].metadata.currency)
  }

  function VaultWallet(w: World, hs: Hashing, c: ClassId): Wallet
    requires c in w.definitions
  {
    Wallet(hs.vault(c), w.definitions[c].metadata.currency)
  }

  function Bought(w: World, hs: Hashing, who: AccountId, c: ClassId, options: BuyOptions, funds: Funds)
    : Result<World, Error>
  {
    if c !in w.publishing then Err(NotFound)
    else
      var sale := w.publishing[c];
      if sale.expiration.Some? && sale.expiration.value <= w.now then Err(Expired)
      else if sale.unitsLeft == Some(0) then Err(SoldOut)
      else if c !in w.definitions then Err(NotFound)
      else
        var (price, buyer) := (Charge(sale.price, QuantityOf(options)), BuyerWallet(w, who, c));
        if BalanceOf(w.money, buyer) < LeastToPay(price, funds.minimum) then Err(InsufficientBalance)
        else
          var r := Minted(w, hs, who, c, Some(sale), options, QuantityOf(options), None, sale.amount);
          var paid := Paid(w.money, buyer, VaultWallet(w, hs, c), price, funds);
          if r.Err? then r
          else if paid.None? then Err(InsufficientBalance)
          else Ok(r.value.(money := paid.value))
  }

  // ---- give -----------------------------------------------------------------------------------

  function GiveRefusal(w: World, who: AccountId, key: Key, to: Option<AccountId>, narrowed: Option<Perms>,
                       expiration: Option<nat>)
    : Option<Error>
  {
    if key !in w.fragments then Some(NotFound)
    else
      var item := w.fragments[key];
      if item.expiringAt.Some? && item.expiringAt.value <= w.now then Some(NotFound)
      else if expiration.Some? && expiration.value <= w.now then Some(ParamsNotValid)
      else if (who, key.class_) !in w.inventory then Some(NotFound)
      else if IdOf(key) !in w.inventory[(who, key.class_)] then Some(NoPermission)
      else if TRANSFER !in item.permissions then Some(NoPermission)
      else if narrowed.Some? && !(narrowed.value <= item.permissions) then Some(NoPermission)
      else if to.None? then Some(LookupFailed)
      else if COPY in item.permissions && (key.class_, key.edition) !in w.copies then Some(NotFound)
      else None
  }

  function NarrowedPerms(item: Instance, narrowed: Option<Perms>): Perms {
    if narrowed.Some? then narrowed.value else item.permissions
  }

  /** A copy expires no later than its source and no later than the giver asks. */
  function CopyExpiry(item: Instance, expiration: Option<nat>): Option<nat> {
    if expiration.None? then item.expiringAt
    else if item.expiringAt.None? then expiration
    else Some(Min(item.expiringAt.value, expiration.value))
  }

  /** The next copy of an edition, numbered in u64, held by `to`. */
  function AddCopy(w: World, to: AccountId, c: ClassId, e: nat, inst: Instance): World {
    var n := (CopiesOf(w, c, e) + 1) % U64;
    var key := Key(c, e, n);
    w.(copies := w.copies[(c, e) := n],
       fragments := w.fragments[key := inst],
       owners := Append(w.owners, (c, to), Id(e, n)),
       inventory := Append(w.inventory, (to, c), Id(e, n)),
       expirations := Scheduled(w.expirations, key, inst),
       book := w.book.(holder := w.book.holder[key := to]))
  }

  /** The instance itself goes from `who` to `to`, listed last, with the permissions given. */
  function Move(w: World, who: AccountId, key: Key, to: AccountId, perms: Perms): World
    requires key in w.fragments
  {
    var (c, id) := (key.class_, IdOf(key));
    w.(fragments := w.fragments[key := w.fragments[key].(permissions := perms)],
       owners := Append(Retain(w.owners, (c, who), id), (c, to), id),
       inventory := Append(Retain(w.inventory, (who, c), id), (to, c), id),
       book := w.book.(holder := w.book.holder[key := to]))
  }

  function Given(w: World, who: AccountId, key: Key, to: Option<AccountId>, narrowed: Option<Perms>,
                 expiration: Option<nat>)
    : Result<World, Error>
  {
    var refusal := GiveRefusal(w, who, key, to, narrowed, expiration);
    if refusal.Some? then Err(refusal.value)
    else
      var item := w.fragments[key];
      var perms := NarrowedPerms(item, narrowed);
      if COPY in item.permissions then
        Ok(AddCopy(w, to.value, key.class_, key.edition,
                   item.(permissions := perms, expiringAt := CopyExpiry(item, expiration))))
      else Ok(Move(w, who, key, to.value, perms))
  }

  // ---- on_finalize ----------------------------------------------------------------------------

  /** Every list of a class without one id. */
  function DropOwners(m: map<(ClassId, AccountId), seq<Id>>, k: Key): map<(ClassId, AccountId), seq<Id>> {
    map s | s in m :: if s.0 == k.class_ then Without(m[s], IdOf(k)) else m[s]
  }

  function DropInventory(m: map<(AccountId, ClassId), seq<Id>>, k: Key): map<(AccountId, ClassId), seq<Id>> {
    map s | s in m :: if s.1 == k.class_ then Without(m[s], IdOf(k)) else m[s]
  }

  /** One instance deleted from `Fragments` and from every owner's lists. */
  function Drop(w: World, k: Key): World {
    w.(fragments := w.fragments - {k},
       owners := DropOwners(w.owners, k),
       inventory := DropInventory(w.inventory, k),
       book := Book(w.book.holder - {k}, w.book.burned + {k}, w.book.datum))
  }

  function DropAll(w: World, ks: seq<Key>): World {
    if ks == [] then w else Drop(DropAll(w, ks[..|ks| - 1]), ks[|ks| - 1])
  }

  /** The simple reading of the sweep: everything due at the end of this block is gone. */
  function Swept(w: World): World {
    DropAll(w.(expirations := w.expirations - {w.now}), Lookup(w.expirations, w.now))
  }

  function FirstIn(order: seq<AccountId>, among: set<AccountId>): Option<AccountId> {
    if order == [] then None else if order[0] in among then Some(order[0]) else FirstIn(order[1..], among)
  }

  function Listers(owners: map<(ClassId, AccountId), seq<Id>>, k: Key): set<AccountId> {
    set s | s in owners && s.0 == k.class_ && IdOf(k) in owners[s] :: s.1
  }

  /** The first account found listing the id, in the order storage yields accounts; one out of that order comes last. */
  ghost function FoundLister(owners: map<(ClassId, AccountId), seq<Id>>, k: Key, order: seq<AccountId>)
      : Option<AccountId>
  {
    var listers := Listers(owners, k);
    if listers == {} then None
    else if FirstIn(order, listers).Some? then FirstIn(order, listers)
    else
      var a :| a in listers;
      Some(a)
  }

  /** A list without the first occurrence of an id; a list that is not there stays so. */
  function Unlisted<K>(m: map<K, seq<Id>>, s: K, id: Id): map<K, seq<Id>> {
    if s in m && Position(m[s], id).Some? then m[s := RemoveAt(m[s], Position(m[s], id).value)] else m
  }

  /** The sweep as the code has it: the instance goes, and one listing of its id, of the first account found, with one
      listing in that account's inventory. */
  ghost function Delisted(w: World, k: Key, order: seq<AccountId>): World {
    var found := FoundLister(w.owners, k, order);
    w.(fragments := w.fragments - {k},
       owners := if found.Some? then Unlisted(w.owners, (k.class_, found.value), IdOf(k)) else w.owners,
       inventory := if found.Some? then Unlisted(w.inventory, (found.value, k.class_), IdOf(k)) else w.inventory,
       book := Book(w.book.holder - {k}, w.book.burned + {k}, w.book.datum))
  }

  ghost function DelistAll(w: World, ks: seq<Key>, order: seq<AccountId>): World {
    if ks == [] then w else Delisted(DelistAll(w, ks[..|ks| - 1], order), ks[|ks| - 1], order)
  }

  ghost function SweptBy(w: World, order: seq<AccountId>): World {
    DelistAll(w.(expirations := w.expirations - {w.now}), Lookup(w.expirations, w.now), order)
  }

  // ---- Runs -----------------------------------------------------------------------------------

  datatype Call =
    | Create(who: AccountId, proto: Hash256, metadata: Metadata, permissions: Perms, unique: Option<UniqueOptions>,
             maxSupply: Option<Unit>, reserved: bool)
    | Publish(who: AccountId, c: ClassId, sale: Sale)
    | Unpublish(who: AccountId, c: ClassId)
    | Mint(who: AccountId, c: ClassId, options: BuyOptions, amount: Option<nat>)
    | Buy(who: AccountId, c: ClassId, options: BuyOptions, funds: Funds)
    | Give(who: AccountId, key: Key, to: Option<AccountId>, narrowed: Option<Perms>, expiration: Option<nat>)
    | EndBlock(order: seq<AccountId>)
    | Outside(x: Wallet, balance: Balance)

  ghost function Outcome(w: World, hs: Hashing, env: ProtoView, call: Call): Result<World, Error> {
    match call
    case Create(who, proto, metadata, perms, unique, max, reserved) =>
      Created(w, hs, env, who, proto, metadata, perms, unique, max, reserved)
    case Publish(who, c, sale) => Published(w, env, who, c, sale)
    case Unpublish(who, c) => Unpublished(w, env, who, c)
    case Mint(who, c, options, amount) => MintedByOwner(w, hs, env, who, c, options, amount)
    case Buy(who, c, options, funds) => Bought(w, hs, who, c, options, funds)
    case Give(who, key, to, narrowed, expiration) => Given(w, who, key, to, narrowed, expiration)
    case EndBlock(order) => var s := SweptBy(w, order); Ok(s.(now := w.now + 1))
    case Outside(x, balance) => Ok(w.(money := w.money[x := balance]))
  }

  /** A call that returns an error leaves storage unchanged. */
  ghost function Apply(w: World, hs: Hashing, env: ProtoView, call: Call): World {
    After(w, Outcome(w, hs, env, call))
  }

  /** An accepted call would take a u64 counter past its range: the sum is then taken modulo 2^64. */
  predicate Overflows(w: World, call: Call) {
    match call
    case Mint(_, c, options, _) => U64 <= EditionsOf(w, c) + QuantityOf(options)
    case Buy(_, c, options, _) => U64 <= EditionsOf(w, c) + QuantityOf(options)
    case Give(_, key, _, _, _) =>
      key in w.fragments && COPY in w.fragments[key].permissions && U64 <= CopiesOf(w, key.class_, key.edition) + 1
    case _ => false
  }

  /** A run: at each step any call, with any state of the protos and detach pallets; `Outside` stands for whatever else
      changes a balance. */
  ghost function Run(w: World, hs: Hashing, steps: seq<(ProtoView, Call)>): World {
    if steps == [] then w
    else
      var last := steps[|steps| - 1];
      Apply(Run(w, hs, steps[..|steps| - 1]), hs, last.0, last.1)
  }
}
