/** The listing half of `get_protos`: filters, order and pages. */
module ProtoQuery {
  import opened Basics
  import opened ProtoStore
  import opened ProtoTheorems

  datatype Query = Query(
    desc: bool, from: nat, limit: nat, owner: Option<AccountId>, categories: seq<Category>, tags: seq<Name>,
    available: Option<bool>)

  datatype ListError = OwnerNotFound

  /** `filter_proto`: availability, then any of the categories, then all of the tags, by their codes. */
  predicate FilterProto(s: Store, q: Query, h: Hash256) {
    && h in s.protos
    && var p := s.protos[h];
       && !(q.available == Some(true) && p.includeCost.None?)
       && !(q.available == Some(false) && p.includeCost.Some?)
       && (q.categories == [] || p.category in q.categories)
       && forall tag :: tag in q.tags ==> tag in s.tags.index && s.tags.index[tag] in p.tags
  }

  /** The same in the strings the tags were given as. */
  predicate Wanted(s: Store, q: Query, h: Hash256) {
    && h in s.protos && h in s.plain
    && (q.available.Some? ==> q.available.value == s.protos[h].includeCost.Some?)
    && (q.categories == [] || s.protos[h].category in q.categories)
    && forall tag :: tag in q.tags ==> tag in s.plain[h].tags
  }

  /** Filtering by tag codes is filtering by the tags themselves. */
  lemma FilterByStrings(s: Store, q: Query, h: Hash256)
    requires Inv(s)
    ensures FilterProto(s, q, h) <==> Wanted(s, q, h)
  {
    if h in s.protos {
      EncodedAt(s, h);
      forall tag ensures tag in s.tags.index && s.tags.index[tag] in s.protos[h].tags <==> tag in s.plain[h].tags {
        TagByCode(s.tags, s.protos[h].tags, s.plain[h].tags, tag);
      }
      hide Inv;
    } else {
      assert s.protos.Keys == s.plain.Keys;
      hide Inv;
    }
  }

  lemma TagByCode(t: Table, codes: seq<nat>, names: seq<Name>, tag: Name)
    requires Numbered(t) && TagsEncodedAt(t, codes, names)
    ensures tag in t.index && t.index[tag] in codes <==> tag in names
  {
    if tag in t.index && t.index[tag] in codes {
      var i :| 0 <= i < |codes| && codes[i] == t.index[tag];
      assert names[i] in names;
      TableBijective(t, names[i], tag, 0);
    }
    if tag in names {
      var i :| 0 <= i < |names| && names[i] == tag;
      assert codes[i] == t.index[tag];
    }
  }

  /** What a query asks, of a proto's cost, category and tags. */
  predicate Fits(q: Query, cost: Option<nat>, category: Category, tags: seq<Name>) {
    && (q.available.Some? ==> q.available.value == cost.Some?)
    && (q.categories == [] || category in q.categories)
    && forall tag :: tag in q.tags ==> tag in tags
  }

  ghost predicate SameRecord(s: Store, s': Store, g: Hash256) {
    && (g in s'.protos <==> g in s.protos) && (g in s'.plain <==> g in s.plain)
    && (g in s.protos ==> s'.protos[g] == s.protos[g]) && (g in s.plain ==> s'.plain[g] == s.plain[g])
  }

  /** What the filter looks at in a record. */
  ghost predicate Recorded(s: Store, h: Hash256, cost: Option<nat>, category: Category, tags: seq<Name>) {
    && h in s.protos && h in s.plain
    && s.protos[h].includeCost == cost && s.protos[h].category == category && s.plain[h].tags == tags
  }

  lemma RecordedFits(s: Store, q: Query, h: Hash256, cost: Option<nat>, category: Category, tags: seq<Name>)
    requires Inv(s) && Recorded(s, h, cost, category, tags)
    ensures FilterProto(s, q, h) <==> Fits(q, cost, category, tags)
  {
    FilterByStrings(s, q, h);
    hide Inv, FilterProto;
  }

  lemma SameRecordSameAnswer(s: Store, s': Store, q: Query, g: Hash256)
    requires Inv(s) && Inv(s') && SameRecord(s, s', g)
    ensures FilterProto(s', q, g) <==> FilterProto(s, q, g)
  {
    if g in s.protos {
      assert g in s.plain by { EncodedAt(s, g); }
      hide Inv, FilterProto;
      RecordedFits(s, q, g, s.protos[g].includeCost, s.protos[g].category, s.plain[g].tags);
      RecordedFits(s', q, g, s.protos[g].includeCost, s.protos[g].category, s.plain[g].tags);
    }
  }

  /** From upload to query: the new proto matches iff the arguments of its upload do; all others match as before. */
  lemma UploadIsFound(s: Store, stakes: Stakes, who: AccountId, h: Hash256, refs: seq<Hash256>, category: Category,
                      tags: seq<Name>, linked: Option<Asset>, cost: Option<nat>, q: Query, g: Hash256)
    requires Inv(s) && Uploaded(s, stakes, who, h, refs, category, tags, linked, cost).Ok?
    ensures FilterProto(Uploaded(s, stakes, who, h, refs, category, tags, linked, cost).value, q, g) <==>
              if g == h then Fits(q, cost, category, tags) else FilterProto(s, q, g)
  {
    hide Inv, FilterProto, Fits, StakingRefusal, InternAll, Codes, Append;
    var s' := Uploaded(s, stakes, who, h, refs, category, tags, linked, cost).value;
    UploadKeepsInv(s, stakes, who, h, refs, category, tags, linked, cost);
    if g == h {
      RecordedFits(s', q, h, cost, category, tags);
    } else {
      SameRecordSameAnswer(s, s', q, g);
    }
  }

  lemma PatchRecords(s: Store, stakes: Stakes, who: AccountId, h: Hash256, cost: Option<nat>, refs: seq<Hash256>,
                     tags: Option<seq<Name>>, data: Bytes, dataHash: Hash256, g: Hash256)
    requires Patched(s, stakes, who, h, cost, refs, tags, data, dataHash).Ok? && h in s.plain
    ensures h in s.protos
    ensures var s' := Patched(s, stakes, who, h, cost, refs, tags, data, dataHash).value;
      if g == h
      then Recorded(s', h, cost, s.protos[h].category, if tags.Some? then tags.value else s.plain[h].tags)
      else SameRecord(s, s', g)
  {
    hide StakingRefusal, InternAll, Codes;
  }

  /** From patch to query: the patched proto matches by its new cost and, if any are given, its new tags. */
  lemma PatchIsFound(s: Store, stakes: Stakes, who: AccountId, h: Hash256, cost: Option<nat>, refs: seq<Hash256>,
                     tags: Option<seq<Name>>, data: Bytes, dataHash: Hash256, q: Query, g: Hash256)
    requires Inv(s) && Patched(s, stakes, who, h, cost, refs, tags, data, dataHash).Ok?
    ensures h in s.protos && h in s.plain
    ensures FilterProto(Patched(s, stakes, who, h, cost, refs, tags, data, dataHash).value, q, g) <==>
              if g == h then Fits(q, cost, s.protos[h].category, if tags.Some? then tags.value else s.plain[h].tags)
              else FilterProto(s, q, g)
  {
    EncodedAt(s, h);
    hide Inv, FilterProto, Fits, TagsEncodedAt, MetaEncodedAt;
    var s' := Patched(s, stakes, who, h, cost, refs, tags, data, dataHash).value;
    PatchKeepsInv(s, stakes, who, h, cost, refs, tags, data, dataHash);
    PatchRecords(s, stakes, who, h, cost, refs, tags, data, dataHash, g);
    hide Patched, Recorded, SameRecord;
    if g == h {
      RecordedFits(s', q, h, cost, s.protos[h].category, if tags.Some? then tags.value else s.plain[h].tags);
    } else {
      SameRecordSameAnswer(s, s', q, g);
    }
  }

  // ---- Iterator chains ------------------------------------------------------------------------

  function Reverse<T>(xs: seq<T>): (r: seq<T>)
    ensures |r| == |xs|
  {
    if xs == [] then [] else Reverse(xs[1..]) + [xs[0]]
  }

  /** `filter` with `filter_proto`. */
  function Sift(s: Store, q: Query, hs: seq<Hash256>): seq<Hash256> {
    if hs == [] then [] else (if FilterProto(s, q, hs[0]) then [hs[0]] else []) + Sift(s, q, hs[1..])
  }

  const USIZE: nat := 0x1_0000_0000

  /** `skip(from as usize).take(limit as usize)` where a usize has 32 bits. */
  function Page<T>(xs: seq<T>, from: nat, limit: nat): seq<T> {
    var rest := xs[Min(from % USIZE, |xs|)..];
    rest[..Min(limit % USIZE, |rest|)]
  }

  function Ordered<T>(desc: bool, xs: seq<T>): seq<T> {
    if desc then Reverse(xs) else xs
  }

  /** What one category contributes. */
  function OfCategory(s: Store, q: Query, c: Category): seq<Hash256> {
    if q.categories != [] && c !in q.categories then [] else Sift(s, q, Ordered(q.desc, Lookup(s.byCategory, c)))
  }

  function Flat(s: Store, q: Query, cats: seq<Category>): seq<Hash256> {
    if cats == [] then [] else Flat(s, q, cats[..|cats| - 1]) + OfCategory(s, q, cats[|cats| - 1])
  }

  /** All matches, before paging. `keys` is the order in which storage yields the categories. */
  function Listing(s: Store, q: Query, keys: seq<Category>): Result<seq<Hash256>, ListError> {
    if q.owner.None? then Ok(Flat(s, q, Ordered(q.desc, keys)))
    else if User(q.owner.value) !in s.byOwner then Err(OwnerNotFound)
    else Ok(Sift(s, q, Ordered(q.desc, s.byOwner[User(q.owner.value)])))
  }

  method GetProtos(s: Store, q: Query, keys: seq<Category>) returns (r: Result<seq<Hash256>, ListError>)
    ensures r.Ok? <==> Listing(s, q, keys).Ok?
    ensures r.Ok? ==> r.value == Page(Listing(s, q, keys).value, q.from, q.limit)
  {
    if q.owner.Some? {
      var owner := User(q.owner.value);
      if owner !in s.byOwner {
        return Err(OwnerNotFound);
      }
      if q.desc {
        return Ok(Page(Sift(s, q, Reverse(s.byOwner[owner])), q.from, q.limit));
      }
      return Ok(Page(Sift(s, q, s.byOwner[owner]), q.from, q.limit));
    }
    var flat: seq<Hash256> := [];
    var cats := if q.desc then Reverse(keys) else keys;
    var i := 0;
    while i < |cats|
      invariant 0 <= i <= |cats|
      invariant flat == Flat(s, q, cats[..i])
    {
      var c := cats[i];
      assert cats[..i + 1][..i] == cats[..i];
      i := i + 1;
      if q.categories != [] && c !in q.categories {
        continue;
      }
      if c in s.byCategory {
        var protos := s.byCategory[c];
        var collection := if q.desc then Sift(s, q, Reverse(protos)) else Sift(s, q, protos);
        flat := flat + collection;
      }
    }
    assert cats[..i] == cats;
    return Ok(Page(flat, q.from, q.limit));
  }

  // ---- Every match, once ----------------------------------------------------------------------

  lemma {:induction false} SiftMembers(s: Store, q: Query, hs: seq<Hash256>)
    ensures forall h :: h in Sift(s, q, hs) <==> h in hs && FilterProto(s, q, h)
    ensures NoDup(hs) ==> NoDup(Sift(s, q, hs))
  {
    if hs != [] {
      assert hs == [hs[0]] + hs[1..];
      SiftMembers(s, q, hs[1..]);
      hide FilterProto;
      if NoDup(hs) {
        assert NoDup(hs[1..]) && hs[0] !in hs[1..];
      }
    }
  }

  lemma {:induction false} ReverseMembers<T>(xs: seq<T>)
    ensures forall x :: x in Reverse(xs) <==> x in xs
    ensures NoDup(xs) ==> NoDup(Reverse(xs))
  {
    if xs != [] {
      assert xs == [xs[0]] + xs[1..];
      ReverseMembers(xs[1..]);
      if NoDup(xs) {
        assert NoDup(xs[1..]) && xs[0] !in xs[1..];
      }
    }
  }

  lemma OfCategoryMembers(s: Store, q: Query, c: Category)
    requires CategoriesIndexed(s.byCategory, s.protos)
    ensures forall h :: h in OfCategory(s, q, c) <==> FilterProto(s, q, h) && s.protos[h].category == c
    ensures NoDup(OfCategory(s, q, c))
  {
    var list := Lookup(s.byCategory, c);
    ReverseMembers(list);
    SiftMembers(s, q, Ordered(q.desc, list));
    forall h ensures h in list <==> InCategory(s.protos, h, c) {
      assert Lists(s.byCategory, c, h) <==> InCategory(s.protos, h, c);
    }
  }

  lemma {:induction false} FlatMembers(s: Store, q: Query, cats: seq<Category>)
    requires CategoriesIndexed(s.byCategory, s.protos) && NoDup(cats)
    ensures forall h :: h in Flat(s, q, cats) <==> FilterProto(s, q, h) && s.protos[h].category in cats
    ensures NoDup(Flat(s, q, cats))
  {
    if cats != [] {
      var (before, c) := (cats[..|cats| - 1], cats[|cats| - 1]);
      assert cats == before + [c];
      assert c !in before;
      FlatMembers(s, q, before);
      OfCategoryMembers(s, q, c);
      hide FilterProto, OfCategory, CategoriesIndexed, NoDup;
      NoDupConcat(Flat(s, q, before), OfCategory(s, q, c));
    }
  }

  /** The keys storage yields: each category present, once. */
  ghost predicate Enumerates(keys: seq<Category>, m: map<Category, seq<Hash256>>) {
    NoDup(keys) && forall c :: c in keys <==> c in m
  }

  /** Without an owner the listing is exactly the protos that match, each once: whatever order storage yields the
      categories in, and ascending or descending. */
  lemma ListingIsExact(s: Store, q: Query, keys: seq<Category>)
    requires Inv(s) && q.owner.None? && Enumerates(keys, s.byCategory)
    ensures forall h :: h in Listing(s, q, keys).value <==> Wanted(s, q, h)
    ensures NoDup(Listing(s, q, keys).value)
  {
    ReverseMembers(keys);
    FlatMembers(s, q, Ordered(q.desc, keys));
    forall h ensures FilterProto(s, q, h) ==> s.protos[h].category in keys {
      if FilterProto(s, q, h) {
        assert Lists(s.byCategory, s.protos[h].category, h) <==> InCategory(s.protos, h, s.protos[h].category);
      }
    }
    forall h ensures FilterProto(s, q, h) <==> Wanted(s, q, h) {
      FilterByStrings(s, q, h);
    }
    hide Inv, FilterProto, Wanted;
  }

  /** With an owner it is exactly the matching protos that account owns, each once. */
  lemma OwnerListingIsExact(s: Store, q: Query, keys: seq<Category>)
    requires Inv(s) && q.owner.Some? && Listing(s, q, keys).Ok?
    ensures forall h :: h in Listing(s, q, keys).value <==> Wanted(s, q, h) && OwnedBy(s.protos, h, User(q.owner.value))
    ensures NoDup(Listing(s, q, keys).value)
  {
    var list := s.byOwner[User(q.owner.value)];
    ReverseMembers(list);
    SiftMembers(s, q, Ordered(q.desc, list));
    forall h ensures h in list <==> OwnedBy(s.protos, h, User(q.owner.value)) {
      assert Lists(s.byOwner, User(q.owner.value), h) <==> OwnedBy(s.protos, h, User(q.owner.value));
    }
    forall h ensures FilterProto(s, q, h) <==> Wanted(s, q, h) {
      FilterByStrings(s, q, h);
    }
    hide Inv, FilterProto, Wanted;
  }

  /** At some point of the run a proto was owned by o. */
  ghost predicate EverHeld(now: nat, calls: seq<Call>, o: ProtoOwner) {
    || (exists h :: OwnedBy(Run(Genesis(now), calls).protos, h, o))
    || (calls != [] && EverHeld(now, calls[..|calls| - 1], o))
  }

  lemma HeldIsListed(s: Store, h: Hash256, o: ProtoOwner)
    requires OwnersIndexed(s.byOwner, s.protos) && OwnedBy(s.protos, h, o)
    ensures o in s.byOwner
  {
    assert Lists(s.byOwner, o, h);
  }

  lemma NewEntryIsHeld(s: Store, call: Call, o: ProtoOwner)
    ensures s.byOwner.Keys <= Apply(s, call).byOwner.Keys
    ensures o in Apply(s, call).byOwner && o !in s.byOwner ==>
              (call.Upload? || call.Transfer?) && OwnedBy(Apply(s, call).protos, call.h, o)
  {
    hide StakingRefusal, InternAll, Codes, Intern, Code, Without, Lookup;
  }

  lemma StepHolders(s: Store, call: Call, o: ProtoOwner)
    requires Inv(s)
    ensures o in Apply(s, call).byOwner <==>
              o in s.byOwner || exists h :: OwnedBy(Apply(s, call).protos, h, o)
  {
    var s' := Apply(s, call);
    StepKeepsInv(s, call);
    NewEntryIsHeld(s, call, o);
    assert OwnersIndexed(s'.byOwner, s'.protos);
    hide Inv, Apply, OwnedBy, OwnersIndexed;
    forall h | OwnedBy(s'.protos, h, o) ensures o in s'.byOwner {
      HeldIsListed(s', h, o);
    }
  }

  /** Over any run the owner index has an entry for exactly the owners that ever held a proto. */
  lemma {:induction false} HoldersEver(now: nat, calls: seq<Call>, o: ProtoOwner)
    ensures o in Run(Genesis(now), calls).byOwner <==> EverHeld(now, calls, o)
  {
    if calls != [] {
      var before := calls[..|calls| - 1];
      HoldersEver(now, before, o);
      RunKeepsInv(now, before);
      StepHolders(Run(Genesis(now), before), calls[|calls| - 1], o);
      hide Apply, Inv, OwnedBy;
    }
  }

  /** After any run a query is refused exactly if it names an owner, and that account never held a proto. */
  lemma RefusedIffNeverHeld(now: nat, calls: seq<Call>, q: Query, keys: seq<Category>)
    ensures Listing(Run(Genesis(now), calls), q, keys).Err? <==>
              q.owner.Some? && !EverHeld(now, calls, User(q.owner.value))
  {
    if q.owner.Some? {
      HoldersEver(now, calls, User(q.owner.value));
    }
    hide Run, EverHeld, Sift, Flat;
  }

  // ---- Descending is the reverse of ascending -------------------------------------------------

  lemma {:induction false} ReverseConcat<T>(xs: seq<T>, ys: seq<T>)
    ensures Reverse(xs + ys) == Reverse(ys) + Reverse(xs)
  {
    if xs == [] {
      assert xs + ys == ys;
    } else {
      assert (xs + ys)[1..] == xs[1..] + ys;
      ReverseConcat(xs[1..], ys);
    }
  }

  lemma {:induction false} SiftConcat(s: Store, q: Query, xs: seq<Hash256>, ys: seq<Hash256>)
    ensures Sift(s, q, xs + ys) == Sift(s, q, xs) + Sift(s, q, ys)
  {
    hide FilterProto;
    if xs == [] {
      assert xs + ys == ys;
    } else {
      assert (xs + ys)[1..] == xs[1..] + ys;
      SiftConcat(s, q, xs[1..], ys);
    }
  }

  lemma {:induction false} SiftReverse(s: Store, q: Query, xs: seq<Hash256>)
    ensures Sift(s, q, Reverse(xs)) == Reverse(Sift(s, q, xs))
  {
    hide FilterProto;
    if xs != [] {
      var head := if FilterProto(s, q, xs[0]) then [xs[0]] else [];
      SiftReverse(s, q, xs[1..]);
      SiftConcat(s, q, Reverse(xs[1..]), [xs[0]]);
      ReverseConcat(head, Sift(s, q, xs[1..]));
      assert Sift(s, q, [xs[0]]) == head + Sift(s, q, []);
    }
  }

  /** Nothing the filter looks at depends on the direction. */
  lemma {:induction false} SiftSameEitherWay(s: Store, q: Query, r: Query, xs: seq<Hash256>)
    requires r == q.(desc := r.desc)
    ensures Sift(s, q, xs) == Sift(s, r, xs)
  {
    if xs != [] { SiftSameEitherWay(s, q, r, xs[1..]); }
  }

  lemma {:induction false} FlatSplit(s: Store, q: Query, c: Category, cats: seq<Category>)
    ensures Flat(s, q, [c] + cats) == OfCategory(s, q, c) + Flat(s, q, cats)
  {
    hide OfCategory;
    if cats == [] {
      assert [c] + cats == [c] && [c][..0] == [];
      assert Flat(s, q, [c]) == Flat(s, q, [c][..0]) + OfCategory(s, q, c);
    } else {
      var before := cats[..|cats| - 1];
      assert ([c] + cats)[..|cats|] == [c] + before;
      FlatSplit(s, q, c, before);
    }
  }

  lemma {:induction false} FlatReverse(s: Store, up: Query, down: Query, cats: seq<Category>)
    requires !up.desc && down == up.(desc := true)
    ensures Flat(s, down, Reverse(cats)) == Reverse(Flat(s, up, cats))
  {
    if cats != [] {
      var (before, c) := (cats[..|cats| - 1], cats[|cats| - 1]);
      assert cats == before + [c];
      FlatReverse(s, up, down, before);
      ReverseConcat(before, [c]);
      assert Reverse([c]) == [c];
      FlatSplit(s, down, c, Reverse(before));
      SiftReverse(s, down, Lookup(s.byCategory, c));
      SiftSameEitherWay(s, up, down, Lookup(s.byCategory, c));
      assert OfCategory(s, down, c) == Reverse(OfCategory(s, up, c));
      hide Sift, OfCategory, FilterProto;
      ReverseConcat(Flat(s, up, before), OfCategory(s, up, c));
    }
  }

  /** Asking for descending order gives the ascending listing read backwards. */
  lemma DescendingIsReverse(s: Store, q: Query, keys: seq<Category>)
    requires !q.desc
    ensures var (up, down) := (Listing(s, q, keys), Listing(s, q.(desc := true), keys));
      up.Ok? == down.Ok? && (up.Ok? ==> down.value == Reverse(up.value))
  {
    var down := q.(desc := true);
    if q.owner.None? {
      FlatReverse(s, q, down, keys);
    } else if User(q.owner.value) in s.byOwner {
      SiftReverse(s, down, s.byOwner[User(q.owner.value)]);
      SiftSameEitherWay(s, q, down, s.byOwner[User(q.owner.value)]);
    }
  }

  // ---- Pages ----------------------------------------------------------------------------------

  /** What a page is meant to be. */
  function Slice<T>(xs: seq<T>, from: nat, limit: nat): seq<T> {
    xs[Min(from, |xs|)..Min(from + limit, |xs|)]
  }

  lemma PageIsSlice<T>(xs: seq<T>, from: nat, limit: nat)
    requires from < USIZE && limit < USIZE
    ensures Page(xs, from, limit) == Slice(xs, from, limit)
  {
  }

  function FirstPages<T>(xs: seq<T>, limit: nat, n: nat): seq<T> {
    if n == 0 then [] else FirstPages(xs, limit, n - 1) + Page(xs, (n - 1) * limit, limit)
  }

  lemma OneMorePage<T>(xs: seq<T>, from: nat, limit: nat)
    requires from < USIZE && limit < USIZE
    ensures xs[..Min(from, |xs|)] + Page(xs, from, limit) == xs[..Min(from + limit, |xs|)]
  {
    PageIsSlice(xs, from, limit);
  }

  /** Consecutive pages put together are the listing from its start; enough of them are all of it. */
  lemma {:induction false} PagesMakeTheListing<T>(xs: seq<T>, limit: nat, n: nat)
    requires limit < USIZE && (n == 0 || (n - 1) * limit < USIZE)
    ensures FirstPages(xs, limit, n) == xs[..Min(n * limit, |xs|)]
    ensures |xs| <= n * limit ==> FirstPages(xs, limit, n) == xs
  {
    if n != 0 {
      var from := (n - 1) * limit;
      assert n * limit == from + limit && from < USIZE;
      assert n == 1 || (n - 2) * limit <= from;
      PagesMakeTheListing(xs, limit, n - 1);
      OneMorePage(xs, from, limit);
      hide Page;
    }
  }

  /** The position and the length, as a usize holds them, still give the page asked for, of any listing it can hold. */
  predicate WrapsRight(from: nat, limit: nat) {
    if from < USIZE then limit < USIZE || USIZE <= from + limit % USIZE + 1
    else limit % USIZE == 0 || from % USIZE + 1 == USIZE
  }

  lemma RightPage<T>(xs: seq<T>, from: nat, limit: nat)
    requires |xs| < USIZE && WrapsRight(from, limit)
    ensures Page(xs, from, limit) == Slice(xs, from, limit)
  {
    if from < USIZE && limit < USIZE {
      PageIsSlice(xs, from, limit);
    } else if from < USIZE {
      assert from % USIZE == from;
      var rest := xs[Min(from, |xs|)..];
      assert |rest| <= limit % USIZE;
      assert rest[..|rest|] == rest;
    } else {
      assert Slice(xs, from, limit) == [];
    }
  }

  lemma WrongPage<T>(from: nat, limit: nat, x: T) returns (xs: seq<T>)
    requires !WrapsRight(from, limit)
    ensures |xs| < USIZE && Page(xs, from, limit) != Slice(xs, from, limit)
  {
    xs := seq(if from < USIZE then from + limit % USIZE + 1 else from % USIZE + 1, _ => x);
    assert |Page(xs, from, limit)| != |Slice(xs, from, limit)|;
  }

  /** Of all the listings that 32 bits can index, a page is the one asked for exactly if both numbers fit, or where they
      do not fit what wraps makes no difference: the page reaches beyond every listing, or is empty. */
  lemma PagesRightIff<T(!new)>(from: nat, limit: nat, x: T)
    ensures (forall xs: seq<T> :: |xs| < USIZE ==> Page(xs, from, limit) == Slice(xs, from, limit)) <==>
              WrapsRight(from, limit)
    ensures from < USIZE && limit < USIZE ==> WrapsRight(from, limit)
  {
    hide Page, Slice;
    if WrapsRight(from, limit) {
      forall xs: seq<T> | |xs| < USIZE ensures Page(xs, from, limit) == Slice(xs, from, limit) {
        RightPage(xs, from, limit);
      }
    } else {
      var xs := WrongPage(from, limit, x);
    }
  }
}
