/** Storage of the protos pallet, except stakes, and what each call does to that storage. */
module ProtoStore {
  import opened Basics

  // A tag or metadata key, and a category: compared, never inspected.
  type Name(==,!new)
  type Category(==,!new)

  datatype Patch = Patch(block: nat, dataHash: Hash256, references: seq<Hash256>)

  datatype Proto = Proto(
    block: nat, patches: seq<Patch>, includeCost: Option<nat>, creator: AccountId, owner: ProtoOwner,
    references: seq<Hash256>, category: Category, tags: seq<nat>, metadata: map<nat, Hash256>)

  /** A string-to-number table (`Tags` with `TagsIndex`, `MetaKeys` with `MetaKeysIndex`), and the names in the order
      they were first met, which no call reads. */
  datatype Table = Table(index: map<Name, nat>, last: nat, met: seq<Name>)

  /** What a reader thinks is stored, in strings: a proto's tags and its metadata by key. */
  datatype Plain = Plain(tags: seq<Name>, metadata: map<Name, Hash256>)

  datatype Store = Store(
    now: nat,
    tags: Table,
    metaKeys: Table,
    protos: map<Hash256, Proto>,
    byCategory: map<Category, seq<Hash256>>,
    byOwner: map<ProtoOwner, seq<Hash256>>,
    detached: set<Hash256>,
    plain: map<Hash256, Plain>,
    rank: map<Hash256, nat>)

  function Genesis(now: nat): Store {
    Store(now, Table(map[], 0, []), Table(map[], 0, []), map[], map[], map[], {}, map[], map[])
  }

  /** Amounts staked on a proto by an account, as the staking storage answers. */
  type Stakes = map<(Hash256, AccountId), nat>

  datatype Error =
    | ProtoNotFound | ProtoExists | Detached | Unauthorized | NotEnoughStaked | StakeNotFound | ReferenceNotFound

  // ---- Interning ------------------------------------------------------------------------------

  function Intern(t: Table, n: Name): Table {
    if n in t.index then t else Table(t.index[n := t.last + 1], t.last + 1, t.met + [n])
  }

  function InternAll(t: Table, ns: seq<Name>): Table {
    if ns == [] then t else Intern(InternAll(t, ns[..|ns| - 1]), ns[|ns| - 1])
  }

  function Code(t: Table, n: Name): nat {
    if n in t.index then t.index[n] else 0
  }

  function Codes(t: Table, ns: seq<Name>): seq<nat> {
    seq(|ns|, i requires 0 <= i < |ns| => Code(t, ns[i]))
  }

  // ---- Who may include what -------------------------------------------------------------------

  /** Why `who` may not include proto r, if so: it must exist, and be one's own, free, or staked on enough. */
  function IncludeRefusal(protos: map<Hash256, Proto>, stakes: Stakes, r: Hash256, who: AccountId): Option<Error> {
    if r !in protos then Some(ReferenceNotFound)
    else
      var proto := protos[r];
      if proto.owner == User(who) then None
      else if proto.includeCost.None? then Some(Unauthorized)
      else if proto.includeCost.value == 0 then None
      else if (r, who) !in stakes then Some(StakeNotFound)
      else if stakes[(r, who)] < proto.includeCost.value then Some(NotEnoughStaked)
      else None
  }

  /** The first reason met, in the order of the references. */
  function StakingRefusal(protos: map<Hash256, Proto>, stakes: Stakes, refs: seq<Hash256>, who: AccountId)
      : Option<Error>
  {
    if refs == [] then None
    else
      var first := IncludeRefusal(protos, stakes, refs[0], who);
      if first.Some? then first else StakingRefusal(protos, stakes, refs[1..], who)
  }

  // ---- upload, patch, transfer, set_metadata, detach ------------------------------------------

  function Uploaded(s: Store, stakes: Stakes, who: AccountId, h: Hash256, refs: seq<Hash256>, category: Category,
                    tags: seq<Name>, linked: Option<Asset>, cost: Option<nat>)
    : Result<Store, Error>
  {
    if h in s.protos then Err(ProtoExists)
    else
      var refusal := StakingRefusal(s.protos, stakes, refs, who);
      if refusal.Some? then Err(refusal.value)
      else
        var owner := if linked.Some? then ExternalAsset(linked.value) else User(who);
        var table := InternAll(s.tags, tags);
        var proto := Proto(s.now, [], cost, who, owner, refs, category, Codes(table, tags), map[]);
        Ok(s.(tags := table,
              protos := s.protos[h := proto],
              byCategory := Append(s.byCategory, category, h),
              byOwner := Append(s.byOwner, owner, h),
              plain := s.plain[h := Plain(tags, map[])],
              rank := s.rank[h := |s.rank|]))
  }

  /** Only the owning account may change a proto, and only while it is attached. */
  function OwnerRefusal(s: Store, h: Hash256, who: AccountId): Option<Error> {
    if h !in s.protos then Some(ProtoNotFound)
    else if s.protos[h].owner != User(who) then Some(Unauthorized)
    else if h in s.detached then Some(Detached)
    else None
  }

  /** An empty patch adds no patch record, so its references are dropped; cost and tags are changed all the same. */
  function Patched(s: Store, stakes: Stakes, who: AccountId, h: Hash256, cost: Option<nat>, refs: seq<Hash256>,
                   tags: Option<seq<Name>>, data: Bytes, dataHash: Hash256)
    : Result<Store, Error>
  {
    var refusal := OwnerRefusal(s, h, who);
    if refusal.Some? then Err(refusal.value)
    else
      var stakeRefusal := StakingRefusal(s.protos, stakes, refs, who);
      if stakeRefusal.Some? then Err(stakeRefusal.value)
      else
        var table := if tags.Some? then InternAll(s.tags, tags.value) else s.tags;
        Ok(s.(tags := table,
              protos := s.protos[h := PatchedProto(s.now, s.protos[h], table, cost, refs, tags, data, dataHash)],
              plain := if tags.Some? && h in s.plain then s.plain[h := s.plain[h].(tags := tags.value)] else s.plain))
  }

  function PatchedProto(now: nat, p: Proto, table: Table, cost: Option<nat>, refs: seq<Hash256>,
                        tags: Option<seq<Name>>,
                        data: Bytes, dataHash: Hash256): Proto
  {
    p.(patches := if data == [] then p.patches else p.patches + [Patch(now, dataHash, refs)],
       includeCost := cost,
       tags := if tags.Some? then Codes(table, tags.value) else p.tags)
  }

  function Transferred(s: Store, who: AccountId, h: Hash256, to: AccountId): Result<Store, Error> {
    var refusal := OwnerRefusal(s, h, who);
    if refusal.Some? then Err(refusal.value)
    else Ok(s.(protos := s.protos[h := s.protos[h].(owner := User(to))],
               byOwner := Append(Retain(s.byOwner, User(who), h), User(to), h)))
  }

  function MetadataSet(s: Store, who: AccountId, h: Hash256, key: Name, dataHash: Hash256): Result<Store, Error> {
    var refusal := OwnerRefusal(s, h, who);
    if refusal.Some? then Err(refusal.value)
    else
      var table := Intern(s.metaKeys, key);
      Ok(s.(metaKeys := table,
            protos := s.protos[h := s.protos[h].(metadata := s.protos[h].metadata[Code(table, key) := dataHash])],
            plain := if h in s.plain then s.plain[h := s.plain[h].(metadata := s.plain[h].metadata[key := dataHash])]
              else s.plain))
  }

  // ---- Runs -----------------------------------------------------------------------------------

  datatype Call =
    | Upload(who: AccountId, h: Hash256, refs: seq<Hash256>, category: Category, tags: seq<Name>, linked: Option<Asset>,
             cost: Option<nat>, stakes: Stakes)
    | PatchProto(who: AccountId, h: Hash256, cost: Option<nat>, refs: seq<Hash256>, newTags: Option<seq<Name>>,
                 data: Bytes, dataHash: Hash256, stakes: Stakes)
    | Transfer(who: AccountId, h: Hash256, to: AccountId)
    | SetMetadata(who: AccountId, h: Hash256, key: Name, dataHash: Hash256)
    | FinalizeDetach(h: Hash256)
    | EndBlock

  function Outcome(s: Store, call: Call): Result<Store, Error> {
    match call
    case Upload(who, h, refs, category, tags, linked, cost, stakes) =>
      Uploaded(s, stakes, who, h, refs, category, tags, linked, cost)
    case PatchProto(who, h, cost, refs, tags, data, dataHash, stakes) =>
      Patched(s, stakes, who, h, cost, refs, tags, data, dataHash)
    case Transfer(who, h, to) => Transferred(s, who, h, to)
    case SetMetadata(who, h, key, dataHash) => MetadataSet(s, who, h, key, dataHash)
    case FinalizeDetach(h) => Ok(s.(detached := s.detached + {h}))
    case EndBlock => Ok(s.(now := s.now + 1))
  }

  function Apply(s: Store, call: Call): Store {
    After(s, Outcome(s, call))
  }

  function Run(s: Store, calls: seq<Call>): Store {
    if calls == [] then s else Apply(Run(s, calls[..|calls| - 1]), calls[|calls| - 1])
  }
}
