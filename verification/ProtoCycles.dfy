/** Circles of references, those of patches included: the one call that can close a circle, and exactly when it does. */
module ProtoCycles {
  import opened Basics
  import opened ProtoStore
  import opened ProtoTheorems

  /** Proto x refers to y, at its upload or in a patch. */
  ghost predicate Refers(protos: Protos, x: Hash256, y: Hash256) {
    x in protos && (y in protos[x].references || exists p :: p in protos[x].patches && y in p.references)
  }

  ghost predicate RefersAt(protos: Protos, path: seq<Hash256>, i: nat)
    requires i + 1 < |path|
  {
    Refers(protos, path[i], path[i + 1])
  }

  /** Each proto of the path refers to the next. */
  ghost predicate Path(protos: Protos, path: seq<Hash256>) {
    forall i: nat :: i + 1 < |path| ==> RefersAt(protos, path, i)
  }

  ghost predicate Joins(protos: Protos, path: seq<Hash256>, x: Hash256, y: Hash256) {
    path != [] && path[0] == x && path[|path| - 1] == y && Path(protos, path)
  }

  ghost predicate Reaches(protos: Protos, x: Hash256, y: Hash256) {
    exists path :: Joins(protos, path, x, y)
  }

  ghost predicate Circle(protos: Protos, path: seq<Hash256>) {
    2 <= |path| && path[0] == path[|path| - 1] && Path(protos, path)
  }

  ghost predicate Cyclic(protos: Protos) {
    exists path :: Circle(protos, path)
  }

  // ---- References from one proto added --------------------------------------------------------

  /** protos' has the references of protos, and those from h to `added`. */
  ghost predicate Extends(protos: Protos, protos': Protos, h: Hash256, added: seq<Hash256>) {
    forall x, y :: Refers(protos', x, y) <==> Refers(protos, x, y) || (x == h && y in added)
  }

  lemma PathStays(protos: Protos, protos': Protos, h: Hash256, added: seq<Hash256>, path: seq<Hash256>)
    requires Extends(protos, protos', h, added) && Path(protos, path)
    ensures Path(protos', path)
  {
    hide Refers;
    forall i: nat | i + 1 < |path| ensures RefersAt(protos', path, i) {
      assert RefersAt(protos, path, i);
    }
  }

  /** A path that leaves h nowhere was there before. */
  lemma PathWas(protos: Protos, protos': Protos, h: Hash256, added: seq<Hash256>, path: seq<Hash256>)
    requires Extends(protos, protos', h, added) && Path(protos', path)
    requires forall i: nat :: i + 1 < |path| ==> path[i] != h
    ensures Path(protos, path)
  {
    hide Refers;
    forall i: nat | i + 1 < |path| ensures RefersAt(protos, path, i) {
      assert RefersAt(protos', path, i);
    }
  }

  lemma PathPart(protos: Protos, path: seq<Hash256>, i: nat, j: nat)
    requires Path(protos, path) && i <= j <= |path|
    ensures Path(protos, path[i..j])
  {
    hide Refers;
    forall k: nat | k + 1 < j - i ensures RefersAt(protos, path[i..j], k) {
      assert RefersAt(protos, path, i + k);
    }
  }

  /** A circle through h, cut at its first return to h, is an old one or begins with an added reference. */
  lemma {:induction false} CircleThrough(protos: Protos, protos': Protos, h: Hash256, added: seq<Hash256>,
                                         path: seq<Hash256>)
    requires Extends(protos, protos', h, added) && Circle(protos', path) && path[0] == h
    ensures Cyclic(protos) || exists r :: r in added && Reaches(protos, r, h)
    decreases |path|
  {
    hide Refers;
    if k: nat :| 0 < k < |path| - 1 && path[k] == h {
      PathPart(protos', path, 0, k + 1);
      CircleThrough(protos, protos', h, added, path[..k + 1]);
    } else {
      PathPart(protos', path, 1, |path|);
      assert path[1..|path|] == path[1..];
      PathWas(protos, protos', h, added, path[1..]);
      assert RefersAt(protos', path, 0);
      if Refers(protos, h, path[1]) {
        forall i: nat | i + 1 < |path| ensures RefersAt(protos, path, i) {
          if i != 0 { assert RefersAt(protos, path[1..], i - 1); }
        }
        assert Circle(protos, path);
      } else {
        assert Joins(protos, path[1..], path[1], h);
      }
    }
  }

  /** A circle read from another of its points. */
  lemma Turned(protos: Protos, path: seq<Hash256>, i: nat) returns (turned: seq<Hash256>)
    requires Circle(protos, path) && i + 1 < |path|
    ensures Circle(protos, turned) && turned[0] == path[i]
  {
    hide Refers;
    turned := path[i..] + path[1..i + 1];
    forall j: nat | j + 1 < |turned| ensures RefersAt(protos, turned, j) {
      var k := if j < |path| - i - 1 then i + j else j - (|path| - i - 1);
      assert RefersAt(protos, path, k);
    }
  }

  lemma CircleWas(protos: Protos, protos': Protos, h: Hash256, added: seq<Hash256>, path: seq<Hash256>)
    requires Extends(protos, protos', h, added) && Circle(protos', path)
    requires forall i: nat :: i + 1 < |path| ==> path[i] != h
    ensures Cyclic(protos)
  {
    PathWas(protos, protos', h, added, path);
    assert Circle(protos, path);
  }

  lemma ExtendedCyclicIff(protos: Protos, protos': Protos, h: Hash256, added: seq<Hash256>)
    requires Extends(protos, protos', h, added) && !Cyclic(protos)
    ensures Cyclic(protos') <==> exists r :: r in added && Reaches(protos, r, h)
  {
    hide Extends, Refers, Path;
    if Cyclic(protos') {
      var path :| Circle(protos', path);
      if i: nat :| i + 1 < |path| && path[i] == h {
        var turned := Turned(protos', path, i);
        CircleThrough(protos, protos', h, added, turned);
      } else {
        CircleWas(protos, protos', h, added, path);
      }
    }
    if r :| r in added && Reaches(protos, r, h) {
      var path :| Joins(protos, path, r, h);
      CloseCircle(protos, protos', h, added, r, path);
    }
  }

  lemma CloseCircle(protos: Protos, protos': Protos, h: Hash256, added: seq<Hash256>, r: Hash256, path: seq<Hash256>)
    requires Extends(protos, protos', h, added) && r in added && Joins(protos, path, r, h)
    ensures Circle(protos', [h] + path)
  {
    PathStays(protos, protos', h, added, path);
    hide Refers;
    assert Refers(protos', h, r);
    forall i: nat | i + 1 < |[h] + path| ensures RefersAt(protos', [h] + path, i) {
      if i != 0 { assert RefersAt(protos', path, i - 1); }
    }
  }

  // ---- The calls ------------------------------------------------------------------------------

  lemma PatchExtends(s: Store, stakes: Stakes, who: AccountId, h: Hash256, cost: Option<nat>, refs: seq<Hash256>,
                     tags: Option<seq<Name>>, data: Bytes, dataHash: Hash256)
    requires Patched(s, stakes, who, h, cost, refs, tags, data, dataHash).Ok?
    ensures Extends(s.protos, Patched(s, stakes, who, h, cost, refs, tags, data, dataHash).value.protos, h,
                    if data == [] then [] else refs)
  {
    hide StakingRefusal, InternAll, Codes;
    var protos' := Patched(s, stakes, who, h, cost, refs, tags, data, dataHash).value.protos;
    var (p, p') := (s.protos[h], protos'[h]);
    assert protos' == s.protos[h := p'] && p'.references == p.references;
    if data != [] {
      var patch := Patch(s.now, dataHash, refs);
      assert p'.patches == p.patches + [patch];
      assert patch in p'.patches;
    }
    hide Patched;
  }

  /** An accepted patch closes a circle exactly if it has data and refers to the proto itself or to one that leads back
      to it, through whatever references there are. */
  lemma PatchClosesIff(s: Store, stakes: Stakes, who: AccountId, h: Hash256, cost: Option<nat>, refs: seq<Hash256>,
                       tags: Option<seq<Name>>, data: Bytes, dataHash: Hash256)
    requires Patched(s, stakes, who, h, cost, refs, tags, data, dataHash).Ok? && !Cyclic(s.protos)
    ensures Cyclic(Patched(s, stakes, who, h, cost, refs, tags, data, dataHash).value.protos) <==>
              data != [] && exists r :: r in refs && Reaches(s.protos, r, h)
  {
    PatchExtends(s, stakes, who, h, cost, refs, tags, data, dataHash);
    ExtendedCyclicIff(s.protos, Patched(s, stakes, who, h, cost, refs, tags, data, dataHash).value.protos, h,
                      if data == [] then [] else refs);
    hide Patched, Cyclic, Reaches, Extends;
  }

  /** In particular whenever it refers to the proto it patches; and the owner of any attached proto may do that. */
  lemma PatchMayReferToItself(s: Store, who: AccountId, h: Hash256, data: Bytes, dataHash: Hash256)
    requires OwnerRefusal(s, h, who).None? && data != []
    ensures Patched(s, map[], who, h, None, [h], None, data, dataHash).Ok? && Reaches(s.protos, h, h)
  {
    assert [h][1..] == [];
    assert StakingRefusal(s.protos, map[], [h], who).None?;
    assert Joins(s.protos, [h], h, h);
  }

  /** Nothing stored refers to a proto not stored. */
  lemma RefersToStored(protos: Protos, rank: map<Hash256, nat>, x: Hash256, y: Hash256)
    requires Grounded(protos, rank) && Refers(protos, x, y)
    ensures y in protos
  {
    assert GroundedAt(protos, rank, x);
  }

  lemma NewProtoCloses(protos: Protos, rank: map<Hash256, nat>, h: Hash256, p: Proto)
    requires Grounded(protos, rank) && h !in protos && p.patches == [] && !Cyclic(protos)
    requires forall r :: r in p.references ==> r in protos
    ensures !Cyclic(protos[h := p])
  {
    var protos' := protos[h := p];
    if path :| Circle(protos', path) {
      forall i: nat | i + 1 < |path| ensures path[i] != h && RefersAt(protos, path, i) {
        var before := if i == 0 then |path| - 2 else i - 1;
        assert RefersAt(protos', path, before) && RefersAt(protos', path, i);
        if path[before] != h {
          assert Refers(protos, path[before], path[i]);
          RefersToStored(protos, rank, path[before], path[i]);
        }
      }
      assert Circle(protos, path);
    }
  }

  /** The call is a patch that closes a circle. */
  ghost predicate Closes(s: Store, call: Call) {
    call.PatchProto? && call.data != [] && exists r :: r in call.refs && Reaches(s.protos, r, call.h)
  }

  lemma UploadKeepsAcyclic(s: Store, stakes: Stakes, who: AccountId, h: Hash256, refs: seq<Hash256>, category: Category,
                           tags: seq<Name>, linked: Option<Asset>, cost: Option<nat>)
    requires Inv(s) && !Cyclic(s.protos) && Uploaded(s, stakes, who, h, refs, category, tags, linked, cost).Ok?
    ensures !Cyclic(Uploaded(s, stakes, who, h, refs, category, tags, linked, cost).value.protos)
  {
    AcceptedReferencesExist(s.protos, stakes, refs, who);
    hide StakingRefusal, InternAll, Codes, Cyclic;
    var s' := Uploaded(s, stakes, who, h, refs, category, tags, linked, cost).value;
    assert s'.protos == s.protos[h := s'.protos[h]];
    assert Grounded(s.protos, s.rank);
    hide Inv, Grounded;
    NewProtoCloses(s.protos, s.rank, h, s'.protos[h]);
    hide Uploaded;
  }

  /** A call that rewrites other parts of a proto. */
  lemma SameReferences(protos: Protos, h: Hash256, p: Proto)
    requires h in protos && p.references == protos[h].references && p.patches == protos[h].patches
    ensures Cyclic(protos[h := p]) <==> Cyclic(protos)
  {
    var protos' := protos[h := p];
    assert Extends(protos, protos', h, []) && Extends(protos', protos, h, []);
    if path :| Circle(protos', path) {
      PathStays(protos', protos, h, [], path);
      assert Circle(protos, path);
    }
    if path :| Circle(protos, path) {
      PathStays(protos, protos', h, [], path);
      assert Circle(protos', path);
    }
  }

  /** Every call keeps references free of circles, exactly unless it is an accepted patch that closes one. */
  lemma StepKeepsAcyclicIff(s: Store, call: Call)
    requires Inv(s) && !Cyclic(s.protos)
    ensures !Cyclic(Apply(s, call).protos) <==> !(Outcome(s, call).Ok? && Closes(s, call))
  {
    hide Inv, Cyclic, Uploaded, Patched, Reaches, Intern, Code;
    if Outcome(s, call).Ok? {
      match call
      case Upload(who, h, refs, category, tags, linked, cost, stakes) =>
        UploadKeepsAcyclic(s, stakes, who, h, refs, category, tags, linked, cost);
      case PatchProto(who, h, cost, refs, tags, data, dataHash, stakes) =>
        PatchClosesIff(s, stakes, who, h, cost, refs, tags, data, dataHash);
      case Transfer(who, h, to) => SameReferences(s.protos, h, s.protos[h].(owner := User(to)));
      case SetMetadata(who, h, key, v) => SameReferences(s.protos, h, Apply(s, call).protos[h]);
      case FinalizeDetach(_) =>
      case EndBlock =>
    }
  }

  ghost predicate AcyclicThroughout(now: nat, calls: seq<Call>) {
    !Cyclic(Run(Genesis(now), calls).protos) && (calls != [] ==> AcyclicThroughout(now, calls[..|calls| - 1]))
  }

  ghost predicate NeverCloses(now: nat, calls: seq<Call>) {
    calls != [] ==>
      var (before, last) := (calls[..|calls| - 1], calls[|calls| - 1]);
      var s := Run(Genesis(now), before);
      NeverCloses(now, before) && !(Outcome(s, last).Ok? && Closes(s, last))
  }

  /** Over any run references are free of circles at every point exactly if no accepted patch closes one. */
  lemma {:induction false} RunKeepsAcyclicIff(now: nat, calls: seq<Call>)
    ensures AcyclicThroughout(now, calls) <==> NeverCloses(now, calls)
  {
    if calls == [] {
      NoProtosNoCircle();
    } else {
      var before := calls[..|calls| - 1];
      RunKeepsAcyclicIff(now, before);
      RunKeepsInv(now, before);
      hide Inv, Cyclic, Apply, Outcome, Closes;
      if NeverCloses(now, before) {
        assert !Cyclic(Run(Genesis(now), before).protos);
        StepKeepsAcyclicIff(Run(Genesis(now), before), calls[|calls| - 1]);
      }
    }
  }

  lemma NoProtosNoCircle()
    ensures !Cyclic(map[])
  {
    forall path ensures !Circle(map[], path) {
      if 2 <= |path| {
        assert !RefersAt(map[], path, 0);
      }
    }
  }
}
