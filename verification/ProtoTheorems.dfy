/** What the storage maps of the protos pallet agree on, over every run. */
module ProtoTheorems {
  import opened Basics
  import opened ProtoStore

  type Protos = map<Hash256, Proto>
  type Plains = map<Hash256, Plain>

  // ---- Tables ---------------------------------------------------------------------------------

  /** A table numbers the names met 1, 2, .. without gap or repetition. */
  ghost predicate Numbered(t: Table) {
    && |t.met| == t.last
    && (forall n: Name :: n in t.index ==> 1 <= t.index[n])
    && forall n: Name, i: nat :: CodedAt(t.index, i, n) <==> MetAt(t.met, i, n)
  }

  ghost predicate CodedAt(index: map<Name, nat>, i: nat, n: Name) {
    n in index && index[n] == i + 1
  }

  ghost predicate MetAt(met: seq<Name>, i: nat, n: Name) {
    i < |met| && met[i] == n
  }

  /** Codes, once given, stay. */
  ghost predicate Grew(t: Table, t': Table) {
    && t.met <= t'.met
    && forall n :: n in t.index ==> n in t'.index && t'.index[n] == t.index[n]
  }

  lemma InternKeepsNumbered(t: Table, n: Name)
    requires Numbered(t)
    ensures Numbered(Intern(t, n)) && Grew(t, Intern(t, n)) && n in Intern(t, n).index
  {
    var t' := Intern(t, n);
    if n !in t.index {
      forall m: Name, i: nat ensures CodedAt(t'.index, i, m) <==> MetAt(t'.met, i, m) {
        assert CodedAt(t.index, i, m) <==> MetAt(t.met, i, m);
      }
    }
  }

  ghost predicate KnownAll(t: Table, ns: seq<Name>) {
    forall n :: n in ns ==> n in t.index
  }

  lemma {:induction false} InternAllKeepsNumbered(t: Table, ns: seq<Name>)
    requires Numbered(t)
    ensures Numbered(InternAll(t, ns)) && Grew(t, InternAll(t, ns)) && KnownAll(InternAll(t, ns), ns)
  {
    if ns != [] {
      var before := ns[..|ns| - 1];
      assert ns == before + [ns[|ns| - 1]];
      InternAllKeepsNumbered(t, before);
      InternKeepsNumbered(InternAll(t, before), ns[|ns| - 1]);
      hide Numbered;
    }
  }

  /** A table is a bijection between the names it knows and 1..last. */
  lemma TableBijective(t: Table, n: Name, m: Name, c: nat)
    requires Numbered(t)
    ensures n in t.index ==> 1 <= t.index[n] <= t.last
    ensures n in t.index && m in t.index && t.index[n] == t.index[m] ==> n == m
    ensures 1 <= c <= t.last ==> exists k :: k in t.index && t.index[k] == c
  {
    if n in t.index { assert CodedAt(t.index, t.index[n] - 1, n); }
    if m in t.index { assert CodedAt(t.index, t.index[m] - 1, m); }
    if 1 <= c <= t.last { assert MetAt(t.met, c - 1, t.met[c - 1]); }
  }

  // ---- Invariants -----------------------------------------------------------------------------

  /** `ProtosByOwner` lists each proto under its owner, once, and nothing else; likewise `ProtosByCategory`. */
  ghost predicate OwnersIndexed(byOwner: map<ProtoOwner, seq<Hash256>>, protos: Protos) {
    && NoDups(byOwner)
    && forall o: ProtoOwner, h: Hash256 :: Lists(byOwner, o, h) <==> OwnedBy(protos, h, o)
  }

  ghost predicate OwnedBy(protos: Protos, h: Hash256, o: ProtoOwner) {
    h in protos && protos[h].owner == o
  }

  ghost predicate CategoriesIndexed(byCategory: map<Category, seq<Hash256>>, protos: Protos) {
    && NoDups(byCategory)
    && forall c: Category, h: Hash256 :: Lists(byCategory, c, h) <==> InCategory(protos, h, c)
  }

  ghost predicate InCategory(protos: Protos, h: Hash256, c: Category) {
    h in protos && protos[h].category == c
  }

  /** Stored tags are the codes of the tags last given as strings. */
  ghost predicate TagsEncoded(t: Table, protos: Protos, plain: Plains) {
    && protos.Keys == plain.Keys
    && forall h :: h in protos ==> TagsEncodedAt(t, protos[h].tags, plain[h].tags)
  }

  ghost predicate TagsEncodedAt(t: Table, codes: seq<nat>, names: seq<Name>) {
    KnownAll(t, names) && codes == Codes(t, names)
  }

  function LookupMeta(t: Table, metadata: map<nat, Hash256>, n: Name): Option<Hash256> {
    if n in t.index && t.index[n] in metadata then Some(metadata[t.index[n]]) else None
  }

  function PlainMeta(metadata: map<Name, Hash256>, n: Name): Option<Hash256> {
    if n in metadata then Some(metadata[n]) else None
  }

  /** Looking a key up through its code gives what a plain string-keyed map would. */
  ghost predicate MetaEncodedAt(t: Table, stored: map<nat, Hash256>, plain: map<Name, Hash256>) {
    && (forall c :: c in stored ==> c <= t.last)
    && forall n :: LookupMeta(t, stored, n) == PlainMeta(plain, n)
  }

  ghost predicate MetaEncoded(t: Table, protos: Protos, plain: Plains) {
    forall h :: h in protos && h in plain ==> MetaEncodedAt(t, protos[h].metadata, plain[h].metadata)
  }

  /** Every hash referred to names a stored proto; upload-time references go to protos uploaded earlier. */
  ghost predicate Grounded(protos: Protos, rank: map<Hash256, nat>) {
    && rank.Keys == protos.Keys
    && (forall h :: h in rank ==> rank[h] < |rank|)
    && forall h :: h in protos ==> GroundedAt(protos, rank, h)
  }

  ghost predicate GroundedAt(protos: Protos, rank: map<Hash256, nat>, h: Hash256)
    requires h in protos && rank.Keys == protos.Keys
  {
    && (forall r :: r in protos[h].references ==> r in rank && rank[r] < rank[h])
    && forall p, r :: p in protos[h].patches && r in p.references ==> r in rank
  }

  ghost predicate Inv(s: Store) {
    && Numbered(s.tags) && Numbered(s.metaKeys)
    && OwnersIndexed(s.byOwner, s.protos) && CategoriesIndexed(s.byCategory, s.protos)
    && TagsEncoded(s.tags, s.protos, s.plain)
    && MetaEncoded(s.metaKeys, s.protos, s.plain)
    && Grounded(s.protos, s.rank)
  }

  // ---- Encodings survive growth of the tables -------------------------------------------------

  lemma TagsStayEncoded(t: Table, t': Table, protos: Protos, plain: Plains)
    requires TagsEncoded(t, protos, plain) && Grew(t, t')
    ensures TagsEncoded(t', protos, plain)
  {
  }

  lemma MetaStaysEncodedAt(t: Table, n: Name, stored: map<nat, Hash256>, plain: map<Name, Hash256>)
    requires MetaEncodedAt(t, stored, plain)
    ensures MetaEncodedAt(Intern(t, n), stored, plain)
  {
  }

  /** Writing through the code of a key is writing that key, and no other, of the plain map. */
  lemma MetaWriteEncodedAt(t: Table, n: Name, stored: map<nat, Hash256>, plain: map<Name, Hash256>, v: Hash256)
    requires Numbered(t) && MetaEncodedAt(t, stored, plain)
    ensures MetaEncodedAt(Intern(t, n), stored[Code(Intern(t, n), n) := v], plain[n := v])
  {
    var t' := Intern(t, n);
    var (stored', plain') := (stored[Code(t', n) := v], plain[n := v]);
    InternKeepsNumbered(t, n);
    MetaStaysEncodedAt(t, n, stored, plain);
    TableBijective(t', n, n, 0);
    forall m ensures LookupMeta(t', stored', m) == PlainMeta(plain', m) {
      TableBijective(t', m, n, 0);
      assert LookupMeta(t', stored, m) == PlainMeta(plain, m);
    }
  }

  // ---- upload ---------------------------------------------------------------------------------

  /** Proto r may be included by its owner; by anyone if it is free; and for a cost by who has staked that on it. One
      without a cost is for its owner alone. */
  predicate MayInclude(protos: Protos, stakes: Stakes, r: Hash256, who: AccountId) {
    && r in protos
    && (protos[r].owner == User(who)
        || match protos[r].includeCost
           case None => false
           case Some(cost) => cost == 0 || ((r, who) in stakes && cost <= stakes[(r, who)]))
  }

  /** The error that tells why it may not be. */
  predicate Excludes(protos: Protos, stakes: Stakes, r: Hash256, who: AccountId, e: Error) {
    if e == ReferenceNotFound then r !in protos
    else
      && r in protos && protos[r].owner != User(who)
      && match e
         case Unauthorized => protos[r].includeCost.None?
         case StakeNotFound => protos[r].includeCost.Some? && 0 < protos[r].includeCost.value && (r, who) !in stakes
         case NotEnoughStaked =>
           protos[r].includeCost.Some? && (r, who) in stakes && stakes[(r, who)] < protos[r].includeCost.value
         case _ => false
  }

  /** The first reference that may not be included is refused with that error. */
  ghost predicate FirstExcluded(protos: Protos, stakes: Stakes, refs: seq<Hash256>, who: AccountId, e: Error) {
    exists i: nat :: i < |refs| && ExcludedAt(protos, stakes, refs, who, e, i)
  }

  ghost predicate ExcludedAt(protos: Protos, stakes: Stakes, refs: seq<Hash256>, who: AccountId, e: Error, i: nat)
    requires i < |refs|
  {
    Excludes(protos, stakes, refs[i], who, e) && forall r :: r in refs[..i] ==> MayInclude(protos, stakes, r, who)
  }

  /** References are accepted exactly when each of them may be included, and refused with the error of the first that
      may not. */
  lemma {:induction false} AcceptedReferencesExist(protos: Protos, stakes: Stakes, refs: seq<Hash256>, who: AccountId)
    ensures StakingRefusal(protos, stakes, refs, who).None? <==>
              forall r :: r in refs ==> MayInclude(protos, stakes, r, who)
    ensures StakingRefusal(protos, stakes, refs, who).Some? ==>
              FirstExcluded(protos, stakes, refs, who, StakingRefusal(protos, stakes, refs, who).value)
  {
    if refs != [] {
      AcceptedReferencesExist(protos, stakes, refs[1..], who);
      assert refs == [refs[0]] + refs[1..];
      var refusal := StakingRefusal(protos, stakes, refs, who);
      if IncludeRefusal(protos, stakes, refs[0], who).Some? {
        assert ExcludedAt(protos, stakes, refs, who, refusal.value, 0);
        assert refs[0] in refs && !MayInclude(protos, stakes, refs[0], who);
      } else if refusal.Some? {
        assert MayInclude(protos, stakes, refs[0], who);
        hide IncludeRefusal, MayInclude, Excludes;
        var i: nat :| i < |refs[1..]| && ExcludedAt(protos, stakes, refs[1..], who, refusal.value, i);
        assert refs[..i + 1] == [refs[0]] + refs[1..][..i];
        assert ExcludedAt(protos, stakes, refs, who, refusal.value, i + 1);
      }
    }
  }

  lemma NewProtoIndexed(byOwner: map<ProtoOwner, seq<Hash256>>, byCategory: map<Category, seq<Hash256>>, protos: Protos,
                        h: Hash256, p: Proto)
    requires OwnersIndexed(byOwner, protos) && CategoriesIndexed(byCategory, protos) && h !in protos
    ensures OwnersIndexed(Append(byOwner, p.owner, h), protos[h := p])
    ensures CategoriesIndexed(Append(byCategory, p.category, h), protos[h := p])
  {
    AppendLists(byOwner, p.owner, h);
    AppendLists(byCategory, p.category, h);
    assert !Lists(byOwner, p.owner, h) && !Lists(byCategory, p.category, h);
    forall o, g ensures Lists(Append(byOwner, p.owner, h), o, g) <==> OwnedBy(protos[h := p], g, o) {
      assert Lists(byOwner, o, g) <==> OwnedBy(protos, g, o);
    }
    forall c, g ensures Lists(Append(byCategory, p.category, h), c, g) <==> InCategory(protos[h := p], g, c) {
      assert Lists(byCategory, c, g) <==> InCategory(protos, g, c);
    }
  }

  lemma NewProtoGrounded(protos: Protos, rank: map<Hash256, nat>, h: Hash256, p: Proto)
    requires Grounded(protos, rank) && h !in protos && p.patches == []
    requires forall r :: r in p.references ==> r in protos
    ensures Grounded(protos[h := p], rank[h := |rank|])
  {
  }

  /** One proto written, its tags and metadata encoding what is recorded for it in strings. */
  lemma WriteKeepsTags(t: Table, protos: Protos, plain: Plains, h: Hash256, p: Proto, pl: Plain)
    requires TagsEncoded(t, protos, plain) && TagsEncodedAt(t, p.tags, pl.tags)
    ensures TagsEncoded(t, protos[h := p], plain[h := pl])
    ensures h in plain && pl == plain[h] ==> TagsEncoded(t, protos[h := p], plain)
  {
  }

  lemma WriteKeepsMeta(t: Table, protos: Protos, plain: Plains, h: Hash256, p: Proto, pl: Plain)
    requires MetaEncoded(t, protos, plain) && MetaEncodedAt(t, p.metadata, pl.metadata)
    requires protos.Keys == plain.Keys
    ensures MetaEncoded(t, protos[h := p], plain[h := pl])
    ensures h in plain && pl == plain[h] ==> MetaEncoded(t, protos[h := p], plain)
  {
  }

  lemma FreshEncoding(t: Table, keys: Table, names: seq<Name>)
    requires KnownAll(t, names)
    ensures TagsEncodedAt(t, Codes(t, names), names) && MetaEncodedAt(keys, map[], map[])
  {
  }

  lemma UploadKeepsInv(s: Store, stakes: Stakes, who: AccountId, h: Hash256, refs: seq<Hash256>, category: Category,
                       tags: seq<Name>, linked: Option<Asset>, cost: Option<nat>)
    requires Inv(s)
    ensures Inv(After(s, Uploaded(s, stakes, who, h, refs, category, tags, linked, cost)))
  {
    if Uploaded(s, stakes, who, h, refs, category, tags, linked, cost).Ok? {
      var owner := if linked.Some? then ExternalAsset(linked.value) else User(who);
      var t := InternAll(s.tags, tags);
      var p := Proto(s.now, [], cost, who, owner, refs, category, Codes(t, tags), map[]);
      assert s.protos.Keys == s.plain.Keys;
      hide Numbered, OwnersIndexed, CategoriesIndexed, Grounded, StakingRefusal, InternAll, Grew, TagsEncoded,
        MetaEncoded,
        TagsEncodedAt, MetaEncodedAt, KnownAll, Codes, Append;
      InternAllKeepsNumbered(s.tags, tags);
      FreshEncoding(t, s.metaKeys, tags);
      TagsStayEncoded(s.tags, t, s.protos, s.plain);
      WriteKeepsTags(t, s.protos, s.plain, h, p, Plain(tags, map[]));
      WriteKeepsMeta(s.metaKeys, s.protos, s.plain, h, p, Plain(tags, map[]));
      NewProtoIndexed(s.byOwner, s.byCategory, s.protos, h, p);
      AcceptedReferencesExist(s.protos, stakes, refs, who);
      NewProtoGrounded(s.protos, s.rank, h, p);
    }
  }

  // ---- patch, transfer, set_metadata ----------------------------------------------------------

  /** A proto rewritten without a change of category or upload-time references. */
  lemma RewriteKeepsIndexes(byCategory: map<Category, seq<Hash256>>, protos: Protos, rank: map<Hash256, nat>,
                            h: Hash256, p: Proto)
    requires CategoriesIndexed(byCategory, protos) && Grounded(protos, rank)
    requires h in protos && p.category == protos[h].category && p.references == protos[h].references
    requires forall q, r :: q in p.patches && r in q.references ==> q in protos[h].patches || r in protos
    ensures CategoriesIndexed(byCategory, protos[h := p]) && Grounded(protos[h := p], rank)
  {
  }

  lemma RewriteKeepsOwners(byOwner: map<ProtoOwner, seq<Hash256>>, protos: Protos, h: Hash256, p: Proto)
    requires OwnersIndexed(byOwner, protos) && h in protos && p.owner == protos[h].owner
    ensures OwnersIndexed(byOwner, protos[h := p])
  {
  }

  lemma TransferKeepsOwners(byOwner: map<ProtoOwner, seq<Hash256>>, protos: Protos, h: Hash256, from: ProtoOwner,
                            to: ProtoOwner)
    requires OwnersIndexed(byOwner, protos) && OwnedBy(protos, h, from)
    ensures OwnersIndexed(Append(Retain(byOwner, from, h), to, h), protos[h := protos[h].(owner := to)])
  {
    var mid := Retain(byOwner, from, h);
    RetainLists(byOwner, from, h);
    assert !Lists(mid, to, h) by { assert Lists(byOwner, to, h) <==> OwnedBy(protos, h, to); }
    AppendLists(mid, to, h);
    var (byOwner', protos') := (Append(mid, to, h), protos[h := protos[h].(owner := to)]);
    forall o, g ensures Lists(byOwner', o, g) <==> OwnedBy(protos', g, o) {
      assert Lists(byOwner, o, g) <==> OwnedBy(protos, g, o);
    }
  }

  /** What the encodings say of one proto. */
  lemma EncodedAt(s: Store, h: Hash256)
    requires Inv(s) && h in s.protos
    ensures s.protos.Keys == s.plain.Keys && h in s.plain
    ensures TagsEncodedAt(s.tags, s.protos[h].tags, s.plain[h].tags)
    ensures MetaEncodedAt(s.metaKeys, s.protos[h].metadata, s.plain[h].metadata)
  {
  }

  lemma TransferKeepsInv(s: Store, who: AccountId, h: Hash256, to: AccountId)
    requires Inv(s)
    ensures Inv(After(s, Transferred(s, who, h, to)))
  {
    hide Numbered, OwnersIndexed, CategoriesIndexed, Grounded, TagsEncoded, MetaEncoded, TagsEncodedAt, MetaEncodedAt;
    if Transferred(s, who, h, to).Ok? {
      var p := s.protos[h].(owner := User(to));
      EncodedAt(s, h);
      TransferKeepsOwners(s.byOwner, s.protos, h, User(who), User(to));
      RewriteKeepsIndexes(s.byCategory, s.protos, s.rank, h, p);
      WriteKeepsTags(s.tags, s.protos, s.plain, h, p, s.plain[h]);
      WriteKeepsMeta(s.metaKeys, s.protos, s.plain, h, p, s.plain[h]);
    }
  }

  lemma InternKeepsMeta(t: Table, n: Name, protos: Protos, plain: Plains)
    requires MetaEncoded(t, protos, plain)
    ensures MetaEncoded(Intern(t, n), protos, plain)
  {
  }

  lemma SetMetadataKeepsInv(s: Store, who: AccountId, h: Hash256, key: Name, v: Hash256)
    requires Inv(s)
    ensures Inv(After(s, MetadataSet(s, who, h, key, v)))
  {
    hide Numbered, OwnersIndexed, CategoriesIndexed, Grounded, TagsEncoded, MetaEncoded, TagsEncodedAt, MetaEncodedAt,
      Intern, Code, Grew;
    if MetadataSet(s, who, h, key, v).Ok? {
      var t := Intern(s.metaKeys, key);
      var p := s.protos[h].(metadata := s.protos[h].metadata[Code(t, key) := v]);
      EncodedAt(s, h);
      var pl := s.plain[h].(metadata := s.plain[h].metadata[key := v]);
      InternKeepsNumbered(s.metaKeys, key);
      RewriteKeepsOwners(s.byOwner, s.protos, h, p);
      RewriteKeepsIndexes(s.byCategory, s.protos, s.rank, h, p);
      MetaWriteEncodedAt(s.metaKeys, key, s.protos[h].metadata, s.plain[h].metadata, v);
      InternKeepsMeta(s.metaKeys, key, s.protos, s.plain);
      WriteKeepsTags(s.tags, s.protos, s.plain, h, p, pl);
      WriteKeepsMeta(t, s.protos, s.plain, h, p, pl);
    }
  }

  lemma PatchedPatches(s: Store, stakes: Stakes, who: AccountId, h: Hash256, p: Proto, refs: seq<Hash256>)
    requires StakingRefusal(s.protos, stakes, refs, who).None? && h in s.protos
    requires forall q :: q in p.patches ==> q in s.protos[h].patches || q.references == refs
    ensures forall q, r :: q in p.patches && r in q.references ==> q in s.protos[h].patches || r in s.protos
  {
    AcceptedReferencesExist(s.protos, stakes, refs, who);
  }

  lemma PatchKeepsInv(s: Store, stakes: Stakes, who: AccountId, h: Hash256, cost: Option<nat>, refs: seq<Hash256>,
                      tags: Option<seq<Name>>, data: Bytes, dataHash: Hash256)
    requires Inv(s)
    ensures Inv(After(s, Patched(s, stakes, who, h, cost, refs, tags, data, dataHash)))
  {
    hide Numbered, OwnersIndexed, CategoriesIndexed, Grounded, TagsEncoded, MetaEncoded, MetaEncodedAt,
      StakingRefusal, InternAll, Grew;
    if Patched(s, stakes, who, h, cost, refs, tags, data, dataHash).Ok? {
      var t := if tags.Some? then InternAll(s.tags, tags.value) else s.tags;
      var p := PatchedProto(s.now, s.protos[h], t, cost, refs, tags, data, dataHash);
      EncodedAt(s, h);
      PatchedPatches(s, stakes, who, h, p, refs);
      RewriteKeepsOwners(s.byOwner, s.protos, h, p);
      RewriteKeepsIndexes(s.byCategory, s.protos, s.rank, h, p);
      var pl := if tags.Some? then s.plain[h].(tags := tags.value) else s.plain[h];
      if tags.Some? {
        InternAllKeepsNumbered(s.tags, tags.value);
        TagsStayEncoded(s.tags, t, s.protos, s.plain);
      }
      WriteKeepsTags(t, s.protos, s.plain, h, p, pl);
      WriteKeepsMeta(s.metaKeys, s.protos, s.plain, h, p, pl);
    }
  }

  lemma StepKeepsInv(s: Store, call: Call)
    requires Inv(s)
    ensures Inv(Apply(s, call))
  {
    hide Numbered, OwnersIndexed, CategoriesIndexed, Grounded, TagsEncoded, MetaEncoded, Uploaded, Patched, Transferred,
      MetadataSet;
    match call
    case Upload(who, h, refs, category, tags, linked, cost, stakes) =>
      UploadKeepsInv(s, stakes, who, h, refs, category, tags, linked, cost);
    case PatchProto(who, h, cost, refs, tags, data, dataHash, stakes) =>
      PatchKeepsInv(s, stakes, who, h, cost, refs, tags, data, dataHash);
    case Transfer(who, h, to) => TransferKeepsInv(s, who, h, to);
    case SetMetadata(who, h, key, v) => SetMetadataKeepsInv(s, who, h, key, v);
    case FinalizeDetach(_) =>
    case EndBlock =>
  }

  lemma {:induction false} RunKeepsInv(now: nat, calls: seq<Call>)
    ensures Inv(Run(Genesis(now), calls))
  {
    if calls != [] {
      hide Inv, Apply;
      RunKeepsInv(now, calls[..|calls| - 1]);
      StepKeepsInv(Run(Genesis(now), calls[..|calls| - 1]), calls[|calls| - 1]);
    }
  }
}
