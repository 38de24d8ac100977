/** What every proto is, told from the accepted calls alone, in strings; and in which order lists name protos. */
module ProtoStories {
  import opened Basics
  import opened ProtoStore
  import opened ProtoTheorems
  import opened ProtoPromises
  import opened ProtoQuery
  import opened ProtoRights

  /** A proto as its uploader and owners described it. */
  datatype Record = Record(
    block: nat, creator: AccountId, owner: ProtoOwner, references: seq<Hash256>, category: Category, cost: Option<nat>,
    patches: seq<Patch>, tags: seq<Name>, metadata: map<Name, Hash256>)

  /** What a call makes of the record of proto h: a refused one nothing. */
  function Retold(s: Store, call: Call, h: Hash256, was: Option<Record>): Option<Record> {
    if Outcome(s, call).Err? then was
    else
      match call
      case Upload(who, g, refs, category, tags, linked, cost, _) =>
        if g != h then was
        else
          var owner := match linked case None => User(who) case Some(asset) => ExternalAsset(asset);
          Some(Record(s.now, who, owner, refs, category, cost, [], tags, map[]))
      case PatchProto(_, g, cost, refs, newTags, data, dataHash, _) =>
        if g != h || was.None? then was
        else
          var patches := if data == [] then [] else [Patch(s.now, dataHash, refs)];
          var tags := match newTags case None => was.value.tags case Some(tags) => tags;
          Some(was.value.(cost := cost, patches := was.value.patches + patches, tags := tags))
      case Transfer(_, g, to) =>
        if g != h || was.None? then was else Some(was.value.(owner := User(to)))
      case SetMetadata(_, g, key, dataHash) =>
        if g != h || was.None? then was else Some(was.value.(metadata := was.value.metadata[key := dataHash]))
      case _ => was
  }

  function Story(now: nat, calls: seq<Call>, h: Hash256): Option<Record> {
    if calls == [] then None
    else
      var (before, last) := (calls[..|calls| - 1], calls[|calls| - 1]);
      Retold(Run(Genesis(now), before), last, h, Story(now, before, h))
  }

  /** Storage, with the strings its codes stand for, has just that. */
  ghost predicate Holds(protos: Protos, plain: Plains, h: Hash256, story: Option<Record>) {
    match story
    case None => h !in protos
    case Some(r) =>
      && h in protos && h in plain
      && protos[h].block == r.block && protos[h].creator == r.creator && protos[h].owner == r.owner
      && protos[h].references == r.references && protos[h].category == r.category && protos[h].includeCost == r.cost
      && protos[h].patches == r.patches && plain[h].tags == r.tags && plain[h].metadata == r.metadata
  }

  lemma PatchHolds(s: Store, stakes: Stakes, who: AccountId, h: Hash256, cost: Option<nat>, refs: seq<Hash256>,
                   tags: Option<seq<Name>>, data: Bytes, dataHash: Hash256, g: Hash256, was: Option<Record>)
    requires Holds(s.protos, s.plain, g, was)
    ensures var call := PatchProto(who, h, cost, refs, tags, data, dataHash, stakes);
      Holds(Apply(s, call).protos, Apply(s, call).plain, g, Retold(s, call, g, was))
  {
    hide StakingRefusal, InternAll, Codes;
    if g == h && was.Some? && data == [] {
      assert was.value.patches + [] == was.value.patches;
    }
  }

  lemma StepHolds(s: Store, call: Call, h: Hash256, was: Option<Record>)
    requires Holds(s.protos, s.plain, h, was)
    ensures Holds(Apply(s, call).protos, Apply(s, call).plain, h, Retold(s, call, h, was))
  {
    match call
    case Upload(who, g, refs, category, tags, linked, cost, stakes) =>
      hide StakingRefusal, InternAll, Codes, Append;
    case PatchProto(who, g, cost, refs, tags, data, dataHash, stakes) =>
      PatchHolds(s, stakes, who, g, cost, refs, tags, data, dataHash, h, was);
      hide Apply, Retold, Holds;
    case Transfer(_, _, _) => hide Append, Retain;
    case SetMetadata(_, _, _, _) => hide Intern, Code;
    case FinalizeDetach(_) =>
    case EndBlock =>
  }

  lemma EmptyHolds(now: nat, h: Hash256)
    ensures Holds(Genesis(now).protos, Genesis(now).plain, h, None)
  {
  }

  lemma {:induction false} StoryIsHeld(now: nat, calls: seq<Call>, h: Hash256)
    ensures var s := Run(Genesis(now), calls); Holds(s.protos, s.plain, h, Story(now, calls, h))
  {
    hide Holds, Apply, Retold;
    if calls != [] {
      var (before, last) := (calls[..|calls| - 1], calls[|calls| - 1]);
      StoryIsHeld(now, before, h);
      StepHolds(Run(Genesis(now), before), last, h, Story(now, before, h));
    } else {
      EmptyHolds(now, h);
    }
  }

  /** After any run a proto is stored exactly if it was uploaded, and just as told: uploaded by and when it says, owned
      by the receiver of its last transfer or else as its upload said, at the cost of its last patch or of its upload,
      with every patch that had data, the codes of the tags last given, and under each key the data last set. */
  lemma RunTells(now: nat, calls: seq<Call>, h: Hash256, key: Name)
    ensures var (s, story) := (Run(Genesis(now), calls), Story(now, calls, h));
      && (h in s.protos <==> story.Some?)
      && (story.Some? ==>
            var (p, r) := (s.protos[h], story.value);
            && p.block == r.block && p.creator == r.creator && p.owner == r.owner && p.references == r.references
            && p.category == r.category && p.includeCost == r.cost && p.patches == r.patches
            && |p.tags| == |r.tags|
            && (forall i :: 0 <= i < |r.tags| ==> r.tags[i] in s.tags.index && p.tags[i] == s.tags.index[r.tags[i]])
            && MetaOf(s, h, key) == if key in r.metadata then Some(r.metadata[key]) else None)
  {
    var s := Run(Genesis(now), calls);
    StoryIsHeld(now, calls, h);
    RunKeepsInv(now, calls);
    hide Run, Story;
    if h in s.protos {
      EncodedAt(s, h);
      hide Inv, LookupMeta;
      assert LookupMeta(s.metaKeys, s.protos[h].metadata, key) == PlainMeta(s.plain[h].metadata, key);
    }
  }

  /** And it is detached exactly if its detachment was finalised. */
  lemma {:induction false} RunDetaches(s: Store, calls: seq<Call>, h: Hash256)
    ensures h in Run(s, calls).detached <==> h in s.detached || FinalizeDetach(h) in calls
  {
    if calls != [] {
      var (before, last) := (calls[..|calls| - 1], calls[|calls| - 1]);
      assert calls == before + [last];
      RunDetaches(s, before, h);
      StepDetaches(Run(s, before), last);
      hide Apply;
    }
  }

  lemma StepDetaches(s: Store, call: Call)
    ensures Apply(s, call).detached == s.detached + if call.FinalizeDetach? then {call.h} else {}
  {
    hide StakingRefusal, InternAll, Codes, Intern, Code, Append, Retain, IncludeRefusal, PatchedProto;
  }

  // ---- The order of lists ---------------------------------------------------------------------

  /** The call, accepted, makes its proto somebody's: an upload, or a transfer. */
  predicate Hands(s: Store, call: Call, h: Hash256) {
    (call.Upload? || call.Transfer?) && call.h == h && Outcome(s, call).Ok?
  }

  /** When proto h came to its present owner, and when it was uploaded, counted in calls; 0 if never. */
  function CameAt(now: nat, calls: seq<Call>, h: Hash256): nat {
    if calls == [] then 0
    else
      var (before, last) := (calls[..|calls| - 1], calls[|calls| - 1]);
      if Hands(Run(Genesis(now), before), last, h) then |calls| else CameAt(now, before, h)
  }

  function UploadedAt(now: nat, calls: seq<Call>, h: Hash256): nat {
    if calls == [] then 0
    else
      var (before, last) := (calls[..|calls| - 1], calls[|calls| - 1]);
      if last.Upload? && Hands(Run(Genesis(now), before), last, h) then |calls| else UploadedAt(now, before, h)
  }

  /** The list names protos in that order. */
  ghost predicate InOrder(list: seq<Hash256>, when: Hash256 -> nat) {
    forall i, j :: 0 <= i < j < |list| ==> when(list[i]) < when(list[j])
  }

  lemma {:induction false} WithoutInOrder(list: seq<Hash256>, when: Hash256 -> nat, h: Hash256)
    requires InOrder(list, when)
    ensures InOrder(Without(list, h), when)
  {
    if list != [] {
      var rest := list[1..];
      assert InOrder(rest, when);
      WithoutInOrder(rest, when, h);
      WithoutMembers(rest, h);
      forall x | x in rest ensures when(list[0]) < when(x) {
        var i :| 0 <= i < |rest| && rest[i] == x;
        assert rest[i] == list[i + 1];
      }
    }
  }

  lemma AddedInOrder(list: seq<Hash256>, when: Hash256 -> nat, when': Hash256 -> nat, h: Hash256)
    requires InOrder(list, when) && h !in list
    requires forall x :: x in list ==> when'(x) == when(x) && when(x) < when'(h)
    ensures InOrder(list + [h], when')
  {
  }

  lemma SameOrder(list: seq<Hash256>, when: Hash256 -> nat, when': Hash256 -> nat)
    requires InOrder(list, when) && forall x :: x in list ==> when'(x) == when(x)
    ensures InOrder(list, when')
  {
  }

  lemma {:induction false} CameBefore(now: nat, calls: seq<Call>, h: Hash256)
    ensures CameAt(now, calls, h) <= |calls| && UploadedAt(now, calls, h) <= |calls|
  {
    if calls != [] { CameBefore(now, calls[..|calls| - 1], h); }
  }

  ghost function Came(now: nat, calls: seq<Call>): Hash256 -> nat { h => CameAt(now, calls, h) }

  ghost function Uploads(now: nat, calls: seq<Call>): Hash256 -> nat { h => UploadedAt(now, calls, h) }

  /** A proto taken from the list it is in and added at the end of another's. */
  lemma MovedLists(byOwner: map<ProtoOwner, seq<Hash256>>, protos: Protos, h: Hash256, to: ProtoOwner, o: ProtoOwner)
    requires OwnersIndexed(byOwner, protos)
    ensures h !in protos ==>
              Lookup(Append(byOwner, to, h), o) == Without(Lookup(byOwner, o), h) + (if o == to then [h] else [])
    ensures h in protos ==>
              Lookup(Append(Retain(byOwner, protos[h].owner, h), to, h), o) ==
                Without(Lookup(byOwner, o), h) + (if o == to then [h] else [])
  {
    assert Lists(byOwner, o, h) <==> OwnedBy(protos, h, o);
    if !OwnedBy(protos, h, o) { WithoutAbsent(Lookup(byOwner, o), h); }
    AppendLooksUp(byOwner, to, h);
    if h in protos {
      RetainLooksUp(byOwner, protos[h].owner, h);
      AppendLooksUp(Retain(byOwner, protos[h].owner, h), to, h);
    }
    hide OwnersIndexed, Append, Retain, Without, Lookup;
    assert forall list: seq<Hash256> :: list + [] == list;
  }

  /** An accepted call that hands a proto over does that; no other call changes a list. */
  lemma StepLists(s: Store, call: Call, o: ProtoOwner)
    requires OwnersIndexed(s.byOwner, s.protos)
    ensures var (was, list, s') := (Lookup(s.byOwner, o), Lookup(Apply(s, call).byOwner, o), Apply(s, call));
      if (call.Upload? || call.Transfer?) && Hands(s, call, call.h)
      then list == Without(was, call.h) + (if OwnedBy(s'.protos, call.h, o) then [call.h] else [])
      else list == was
  {
    hide StakingRefusal, InternAll, Codes, Intern, Code, OwnersIndexed, Append, Retain, Without, Lookup;
    if (call.Upload? || call.Transfer?) && Hands(s, call, call.h) {
      MovedLists(s.byOwner, s.protos, call.h, Apply(s, call).protos[call.h].owner, o);
    }
  }

  lemma HandedInOrder(now: nat, calls: seq<Call>, list: seq<Hash256>, h: Hash256)
    requires calls != [] && InOrder(list, Came(now, calls[..|calls| - 1]))
    requires Hands(Run(Genesis(now), calls[..|calls| - 1]), calls[|calls| - 1], h)
    ensures InOrder(Without(list, h), Came(now, calls)) && InOrder(Without(list, h) + [h], Came(now, calls))
  {
    var before := calls[..|calls| - 1];
    var (rest, when, when') := (Without(list, h), Came(now, before), Came(now, calls));
    WithoutInOrder(list, when, h);
    WithoutMembers(list, h);
    forall x | x in rest ensures when'(x) == when(x) && when(x) < when'(h) {
      CameBefore(now, before, x);
    }
    hide Run, Came, CameAt, Hands;
    SameOrder(rest, when, when');
    AddedInOrder(rest, when, when', h);
  }

  lemma StepInOrder(now: nat, calls: seq<Call>, o: ProtoOwner)
    requires calls != [] && InOrder(Lookup(Run(Genesis(now), calls[..|calls| - 1]).byOwner, o),
                                    Came(now, calls[..|calls| - 1]))
    ensures InOrder(Lookup(Apply(Run(Genesis(now), calls[..|calls| - 1]), calls[|calls| - 1]).byOwner, o),
                    Came(now, calls))
  {
    var (before, last) := (calls[..|calls| - 1], calls[|calls| - 1]);
    var s := Run(Genesis(now), before);
    RunKeepsInv(now, before);
    assert OwnersIndexed(s.byOwner, s.protos);
    StepLists(s, last, o);
    hide Run, Apply, Inv, Without, InOrder, OwnedBy, OwnersIndexed, Lookup;
    var was := Lookup(s.byOwner, o);
    if (last.Upload? || last.Transfer?) && Hands(s, last, last.h) {
      HandedInOrder(now, calls, was, last.h);
      assert Without(was, last.h) + [] == Without(was, last.h);
    } else {
      forall x ensures Came(now, calls)(x) == Came(now, before)(x) { }
      SameOrder(was, Came(now, before), Came(now, calls));
    }
  }

  /** After any run an owner's list names its protos in the order in which they came to it. */
  lemma {:induction false} OwnersInOrder(now: nat, calls: seq<Call>, o: ProtoOwner)
    ensures InOrder(Lookup(Run(Genesis(now), calls).byOwner, o), Came(now, calls))
  {
    if calls != [] {
      OwnersInOrder(now, calls[..|calls| - 1], o);
      StepInOrder(now, calls, o);
      hide Apply, InOrder, Came, Lookup;
    }
  }

  lemma StepCategories(s: Store, call: Call, c: Category)
    requires CategoriesIndexed(s.byCategory, s.protos)
    ensures var (was, list) := (Lookup(s.byCategory, c), Lookup(Apply(s, call).byCategory, c));
      if call.Upload? && Hands(s, call, call.h)
      then call.h !in was && list == was + (if call.category == c then [call.h] else [])
      else list == was
  {
    hide StakingRefusal, InternAll, Codes, Intern, Code, CategoriesIndexed, Append, Retain;
    if call.Upload? && Hands(s, call, call.h) {
      AppendLooksUp(s.byCategory, call.category, call.h);
      UnlistedBefore(s.byCategory, s.protos, call.h, c);
    }
  }

  lemma UnlistedBefore(byCategory: map<Category, seq<Hash256>>, protos: Protos, h: Hash256, c: Category)
    requires CategoriesIndexed(byCategory, protos) && h !in protos
    ensures h !in Lookup(byCategory, c)
  {
    assert Lists(byCategory, c, h) <==> InCategory(protos, h, c);
  }

  /** And the list of a category in the order of their uploads. */
  lemma {:induction false} CategoriesInOrder(now: nat, calls: seq<Call>, c: Category)
    ensures InOrder(Lookup(Run(Genesis(now), calls).byCategory, c), Uploads(now, calls))
  {
    if calls != [] {
      var (before, last) := (calls[..|calls| - 1], calls[|calls| - 1]);
      var s := Run(Genesis(now), before);
      var (was, when, when') := (Lookup(s.byCategory, c), Uploads(now, before), Uploads(now, calls));
      CategoriesInOrder(now, before, c);
      RunKeepsInv(now, before);
      assert CategoriesIndexed(s.byCategory, s.protos);
      StepCategories(s, last, c);
      forall x | x in was ensures when'(x) == when(x) && when(x) <= |before| {
        CameBefore(now, before, x);
      }
      SameOrder(was, when, when');
      if last.Upload? && Hands(s, last, last.h) {
        assert when'(last.h) == |calls|;
        AddedInOrder(was, when, when', last.h);
        assert was + [] == was;
      }
      hide Apply, Inv, InOrder, Hands, CategoriesIndexed;
    }
  }

  // ---- The order of listings ------------------------------------------------------------------

  /** In that order, or in descending order of it. */
  ghost predicate Directed(list: seq<Hash256>, when: Hash256 -> nat, desc: bool) {
    forall i, j :: 0 <= i < j < |list| ==> if desc then when(list[j]) < when(list[i]) else when(list[i]) < when(list[j])
  }

  lemma {:induction false} SiftDirected(s: Store, q: Query, list: seq<Hash256>, when: Hash256 -> nat, desc: bool)
    requires Directed(list, when, desc)
    ensures Directed(Sift(s, q, list), when, desc)
  {
    hide FilterProto;
    if list != [] {
      var rest := list[1..];
      SiftDirected(s, q, rest, when, desc);
      SiftMembers(s, q, rest);
      forall x | x in rest ensures if desc then when(x) < when(list[0]) else when(list[0]) < when(x) {
        var i :| 0 <= i < |rest| && rest[i] == x;
        assert rest[i] == list[i + 1];
      }
    }
  }

  lemma {:induction false} OrderedDirected(list: seq<Hash256>, when: Hash256 -> nat, desc: bool)
    requires InOrder(list, when)
    ensures Directed(Ordered(desc, list), when, desc)
  {
    if desc && list != [] {
      var rest := list[1..];
      OrderedDirected(rest, when, true);
      ReverseMembers(rest);
      forall x | x in rest ensures when(list[0]) < when(x) {
        var i :| 0 <= i < |rest| && rest[i] == x;
        assert rest[i] == list[i + 1];
      }
    }
  }

  /** After any run an account's listing is in the order in which its protos came to it, or in descending order of
      that. */
  lemma OwnerListingInOrder(now: nat, calls: seq<Call>, q: Query, keys: seq<Category>)
    requires var s := Run(Genesis(now), calls); q.owner.Some? && Listing(s, q, keys).Ok?
    ensures Directed(Listing(Run(Genesis(now), calls), q, keys).value, Came(now, calls), q.desc)
  {
    var s := Run(Genesis(now), calls);
    var list := s.byOwner[User(q.owner.value)];
    OwnersInOrder(now, calls, User(q.owner.value));
    hide Run, Sift, Came;
    OrderedDirected(list, Came(now, calls), q.desc);
    SiftDirected(s, q, Ordered(q.desc, list), Came(now, calls), q.desc);
  }

  predicate OfCategoryAt(protos: Protos, h: Hash256, cats: seq<Category>, m: nat) {
    h in protos && m < |cats| && protos[h].category == cats[m]
  }

  /** g before h: in the same category by that order, and otherwise by the order of the categories. */
  ghost predicate Precedes(protos: Protos, cats: seq<Category>, when: Hash256 -> nat, desc: bool, g: Hash256,
                           h: Hash256)
  {
    exists m: nat, n: nat ::
      && OfCategoryAt(protos, g, cats, m) && OfCategoryAt(protos, h, cats, n)
      && (m < n || (m == n && if desc then when(h) < when(g) else when(g) < when(h)))
  }

  ghost predicate Sorted(list: seq<Hash256>, protos: Protos, cats: seq<Category>, when: Hash256 -> nat, desc: bool) {
    forall i, j :: 0 <= i < j < |list| ==> Precedes(protos, cats, when, desc, list[i], list[j])
  }

  lemma PrecedesStill(protos: Protos, cats: seq<Category>, c: Category, when: Hash256 -> nat, desc: bool, g: Hash256,
                      h: Hash256)
    requires Precedes(protos, cats, when, desc, g, h)
    ensures Precedes(protos, cats + [c], when, desc, g, h)
  {
    var m: nat, n: nat :|
      && OfCategoryAt(protos, g, cats, m) && OfCategoryAt(protos, h, cats, n)
      && (m < n || (m == n && if desc then when(h) < when(g) else when(g) < when(h)));
    assert OfCategoryAt(protos, g, cats + [c], m) && OfCategoryAt(protos, h, cats + [c], n);
  }

  lemma LastPrecedes(protos: Protos, cats: seq<Category>, c: Category, when: Hash256 -> nat, desc: bool, g: Hash256,
                     h: Hash256)
    requires InCategory(protos, h, c) && g in protos
    requires if protos[g].category == c then (if desc then when(h) < when(g) else when(g) < when(h))
             else protos[g].category in cats
    ensures Precedes(protos, cats + [c], when, desc, g, h)
  {
    assert OfCategoryAt(protos, h, cats + [c], |cats|);
    if protos[g].category == c {
      assert OfCategoryAt(protos, g, cats + [c], |cats|);
    } else {
      var m :| 0 <= m < |cats| && cats[m] == protos[g].category;
      assert OfCategoryAt(protos, g, cats + [c], m);
    }
  }

  lemma JoinSorted(protos: Protos, before: seq<Category>, c: Category, when: Hash256 -> nat, desc: bool,
                   head: seq<Hash256>, tail: seq<Hash256>)
    requires Sorted(head, protos, before, when, desc) && Directed(tail, when, desc) && c !in before
    requires forall h :: h in head ==> h in protos && protos[h].category in before
    requires forall h :: h in tail ==> InCategory(protos, h, c)
    ensures Sorted(head + tail, protos, before + [c], when, desc)
  {
    hide Precedes;
    forall i, j | 0 <= i < j < |head + tail|
      ensures Precedes(protos, before + [c], when, desc, (head + tail)[i], (head + tail)[j])
    {
      if j < |head| {
        PrecedesStill(protos, before, c, when, desc, head[i], head[j]);
      } else {
        var (g, h) := ((head + tail)[i], tail[j - |head|]);
        assert (head + tail)[j] == h && (g in head || (g in tail && g == tail[i - |head|]));
        LastPrecedes(protos, before, c, when, desc, g, h);
      }
    }
  }

  lemma {:induction false} FlatSorted(s: Store, q: Query, cats: seq<Category>, when: Hash256 -> nat)
    requires CategoriesIndexed(s.byCategory, s.protos) && NoDup(cats)
    requires forall c :: InOrder(Lookup(s.byCategory, c), when)
    ensures Sorted(Flat(s, q, cats), s.protos, cats, when, q.desc)
  {
    if cats != [] {
      var (before, c) := (cats[..|cats| - 1], cats[|cats| - 1]);
      assert cats == before + [c];
      assert c !in before;
      assert NoDup(before);
      hide NoDup;
      FlatSorted(s, q, before, when);
      FlatMembers(s, q, before);
      OfCategoryDirected(s, q, c, when);
      hide CategoriesIndexed, InOrder, OfCategory, FilterProto, Sorted, Directed;
      JoinSorted(s.protos, before, c, when, q.desc, Flat(s, q, before), OfCategory(s, q, c));
    }
  }

  lemma OfCategoryDirected(s: Store, q: Query, c: Category, when: Hash256 -> nat)
    requires CategoriesIndexed(s.byCategory, s.protos) && InOrder(Lookup(s.byCategory, c), when)
    ensures Directed(OfCategory(s, q, c), when, q.desc)
    ensures forall h :: h in OfCategory(s, q, c) ==> InCategory(s.protos, h, c)
  {
    OfCategoryMembers(s, q, c);
    OrderedDirected(Lookup(s.byCategory, c), when, q.desc);
    SiftDirected(s, q, Ordered(q.desc, Lookup(s.byCategory, c)), when, q.desc);
  }

  /** Without an owner it is category by category, in the order storage yields these, or its reverse; and within one in
      the order of uploads, or in descending order of that. */
  lemma ListingInOrder(now: nat, calls: seq<Call>, q: Query, keys: seq<Category>)
    requires q.owner.None? && Enumerates(keys, Run(Genesis(now), calls).byCategory)
    ensures var s := Run(Genesis(now), calls);
      Sorted(Listing(s, q, keys).value, s.protos, if q.desc then Reverse(keys) else keys, Uploads(now, calls), q.desc)
  {
    var s := Run(Genesis(now), calls);
    RunKeepsInv(now, calls);
    forall c ensures InOrder(Lookup(s.byCategory, c), Uploads(now, calls)) {
      CategoriesInOrder(now, calls, c);
    }
    ReverseMembers(keys);
    assert CategoriesIndexed(s.byCategory, s.protos);
    hide Run, Inv, InOrder, CategoriesIndexed, Flat;
    FlatSorted(s, q, Ordered(q.desc, keys), Uploads(now, calls));
  }
}
