/** What protos promise: detached ones are frozen, references have no cycles, strings survive their encoding. */
module ProtoPromises {
  import opened Basics
  import opened ProtoStore
  import opened ProtoTheorems

  // ---- Detached protos ------------------------------------------------------------------------

  ghost predicate Later(s: Store, s': Store) {
    && s.detached <= s'.detached
    && (forall h :: h in s.protos ==> h in s'.protos)
    && (forall h :: h in s.protos && h in s.detached ==> s'.protos[h] == s.protos[h])
    && (forall h :: h in s.protos ==> SameOrigin(s.protos[h], s'.protos[h]))
  }

  /** What no call changes of a stored proto. */
  ghost predicate SameOrigin(p: Proto, p': Proto) {
    && p'.block == p.block && p'.creator == p.creator && p'.references == p.references && p'.category == p.category
    && p.patches <= p'.patches
  }

  lemma StepIsLater(s: Store, call: Call)
    ensures Later(s, Apply(s, call))
  {
    hide StakingRefusal, InternAll, Codes;
  }

  /** Once a stored proto is detached its record never changes again; and no call ever removes a proto, drops one of its
      patches, or changes where it came from. */
  lemma {:induction false} DetachedIsFrozen(s: Store, calls: seq<Call>)
    ensures Later(s, Run(s, calls))
  {
    if calls != [] {
      DetachedIsFrozen(s, calls[..|calls| - 1]);
      StepIsLater(Run(s, calls[..|calls| - 1]), calls[|calls| - 1]);
      hide Apply;
    }
  }

  // ---- References -----------------------------------------------------------------------------

  /** Each proto of the walk refers, at upload, to the next. */
  ghost predicate Walk(protos: Protos, path: seq<Hash256>) {
    && (forall h :: h in path ==> h in protos)
    && forall i :: 0 < i < |path| ==> path[i] in protos[path[i - 1]].references
  }

  lemma {:induction false} WalksDescend(protos: Protos, rank: map<Hash256, nat>, path: seq<Hash256>, i: nat, j: nat)
    requires Grounded(protos, rank) && Walk(protos, path) && i < j < |path|
    ensures path[i] in rank && path[j] in rank && rank[path[j]] < rank[path[i]]
    decreases j
  {
    assert GroundedAt(protos, rank, path[j - 1]);
    assert path[j] in protos[path[j - 1]].references;
    if i < j - 1 {
      WalksDescend(protos, rank, path, i, j - 1);
    }
  }

  /** In every reachable state no walk along upload-time references visits a proto twice, so none goes in a circle and
      none is longer than the number of protos. */
  lemma NoReferenceCycle(now: nat, calls: seq<Call>, path: seq<Hash256>)
    requires Walk(Run(Genesis(now), calls).protos, path)
    ensures NoDup(path)
    ensures |path| <= |Run(Genesis(now), calls).protos|
  {
    var s := Run(Genesis(now), calls);
    RunKeepsInv(now, calls);
    forall i, j | 0 <= i < j < |path| ensures path[i] != path[j] {
      WalksDescend(s.protos, s.rank, path, i, j);
    }
    DistinctFit(path, s.protos.Keys);
  }

  lemma {:induction false} DistinctFit<T>(path: seq<T>, pool: set<T>)
    requires NoDup(path) && forall x :: x in path ==> x in pool
    ensures |path| <= |pool|
  {
    if path != [] {
      var (rest, x) := (path[..|path| - 1], path[|path| - 1]);
      assert path == rest + [x];
      assert x !in rest;
      DistinctFit(rest, pool - {x});
    }
  }

  // ---- Strings --------------------------------------------------------------------------------

  /** Tables only grow, over any run: a code stands for the same string for ever. */
  lemma {:induction false} CodesAreForEver(s: Store, calls: seq<Call>)
    requires Inv(s)
    ensures Grew(s.tags, Run(s, calls).tags) && Grew(s.metaKeys, Run(s, calls).metaKeys)
    ensures Inv(Run(s, calls))
  {
    if calls != [] {
      var m := Run(s, calls[..|calls| - 1]);
      CodesAreForEver(s, calls[..|calls| - 1]);
      StepGrows(m, calls[|calls| - 1]);
      StepKeepsInv(m, calls[|calls| - 1]);
      hide Apply, Inv;
    }
  }

  lemma StepGrows(s: Store, call: Call)
    requires Numbered(s.tags) && Numbered(s.metaKeys)
    ensures Grew(s.tags, Apply(s, call).tags) && Grew(s.metaKeys, Apply(s, call).metaKeys)
  {
    if call.Upload? { InternAllKeepsNumbered(s.tags, call.tags); }
    if call.PatchProto? && call.newTags.Some? { InternAllKeepsNumbered(s.tags, call.newTags.value); }
    if call.SetMetadata? { InternKeepsNumbered(s.metaKeys, call.key); }
    hide Numbered, InternAll, Intern, Codes, Code, StakingRefusal;
  }

  /** Metadata as a reader of strings sees it. */
  function MetaOf(s: Store, h: Hash256, key: Name): Option<Hash256> {
    if h in s.protos then LookupMeta(s.metaKeys, s.protos[h].metadata, key) else None
  }

  /** Setting a key is an update of a plain string-keyed map: that key reads back, every other reads as before. */
  lemma SetMetadataIsMapUpdate(s: Store, who: AccountId, h: Hash256, key: Name, v: Hash256, g: Hash256, k: Name)
    requires Inv(s) && MetadataSet(s, who, h, key, v).Ok?
    ensures MetaOf(MetadataSet(s, who, h, key, v).value, g, k) ==
              if g == h && k == key then Some(v) else MetaOf(s, g, k)
  {
    if g in s.protos {
      EncodedAt(s, g);
      assert Numbered(s.metaKeys);
      hide Inv, TagsEncodedAt, Intern, Code, LookupMeta, Numbered;
      var (stored, plain) := (s.protos[g].metadata, s.plain[g].metadata);
      if g == h {
        MetaWriteEncodedAt(s.metaKeys, key, stored, plain, v);
      } else {
        MetaStaysEncodedAt(s.metaKeys, key, stored, plain);
      }
    }
  }

  /** No other call changes what a key reads as, for protos there were. */
  lemma OnlySetMetadataWrites(s: Store, call: Call, g: Hash256, k: Name)
    requires g in s.protos && !call.SetMetadata?
    ensures MetaOf(Apply(s, call), g, k) == MetaOf(s, g, k)
  {
  }
}
