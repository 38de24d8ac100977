/** The protos pallet as it runs, staking apart: storage maps updated in place, one method per call. */
module ProtosPallet {
  import opened Basics
  import opened ProtoStore
  import opened ProtoTheorems

  function ErrorOf<S>(r: Result<S, Error>): Option<Error> {
    if r.Err? then Some(r.error) else None
  }

  class Pallet {
    var now: nat
    var tags: map<Name, nat>
    var tagsIndex: nat
    var metaKeys: map<Name, nat>
    var metaKeysIndex: nat
    var protos: map<Hash256, Proto>
    var byCategory: map<Category, seq<Hash256>>
    var byOwner: map<ProtoOwner, seq<Hash256>>
    var detached: set<Hash256>
    ghost var tagsMet: seq<Name>
    ghost var keysMet: seq<Name>
    ghost var plain: map<Hash256, Plain>
    ghost var rank: map<Hash256, nat>

    ghost function TagTable(): Table
      reads `tags, `tagsIndex, `tagsMet
    {
      Table(tags, tagsIndex, tagsMet)
    }

    ghost function KeyTable(): Table
      reads `metaKeys, `metaKeysIndex, `keysMet
    {
      Table(metaKeys, metaKeysIndex, keysMet)
    }

    ghost function View(): Store
      reads this
    {
      Store(now, TagTable(), KeyTable(), protos, byCategory, byOwner, detached, plain, rank)
    }

    constructor (now: nat)
      ensures View() == Genesis(now)
    {
      this.now := now;
      tags, tagsIndex, metaKeys, metaKeysIndex := map[], 0, map[], 0;
      protos, byCategory, byOwner, detached := map[], map[], map[], {};
      tagsMet, keysMet, plain, rank := [], [], map[], map[];
    }

    /** Walk the references until one may not be included. */
    method CheckStakingReq(stakes: Stakes, refs: seq<Hash256>, who: AccountId) returns (error: Option<Error>)
      ensures error == StakingRefusal(protos, stakes, refs, who)
      ensures error.None? <==> forall r :: r in refs ==> MayInclude(protos, stakes, r, who)
      ensures error.Some? ==> FirstExcluded(protos, stakes, refs, who, error.value)
    {
      AcceptedReferencesExist(protos, stakes, refs, who);
      hide FirstExcluded, MayInclude;
      var i := 0;
      while i < |refs|
        invariant 0 <= i <= |refs|
        invariant StakingRefusal(protos, stakes, refs, who) == StakingRefusal(protos, stakes, refs[i..], who)
      {
        var reference := refs[i];
        assert refs[i..][1..] == refs[i + 1..];
        i := i + 1;
        if reference !in protos {
          return Some(ReferenceNotFound);
        }
        var proto := protos[reference];
        if proto.owner.User? && proto.owner.account == who {
          continue;
        }
        if proto.includeCost.None? {
          return Some(Unauthorized);
        }
        var cost := proto.includeCost.value;
        if cost == 0 {
          continue;
        }
        if (reference, who) !in stakes {
          return Some(StakeNotFound);
        }
        if !(stakes[(reference, who)] >= cost) {
          return Some(NotEnoughStaked);
        }
      }
      return None;
    }

    /** Codes for the names, in order, numbering those not met before. */
    method InternTags(names: seq<Name>) returns (codes: seq<nat>)
      modifies `tags, `tagsIndex, `tagsMet
      ensures TagTable() == InternAll(old(TagTable()), names)
      ensures codes == Codes(TagTable(), names)
    {
      codes := [];
      ghost var t0 := TagTable();
      var i := 0;
      while i < |names|
        invariant 0 <= i <= |names|
        invariant TagTable() == InternAll(t0, names[..i])
        invariant KnownAll(TagTable(), names[..i]) && codes == Codes(TagTable(), names[..i])
      {
        ghost var t := TagTable();
        assert names[..i + 1][..i] == names[..i];
        CodesAfterIntern(t, names[..i], names[i]);
        if names[i] in tags {
          codes := codes + [tags[names[i]]];
        } else {
          var nextIndex := tagsIndex + 1;
          tags := tags[names[i] := nextIndex];
          tagsIndex := nextIndex;
          tagsMet := tagsMet + [names[i]];
          codes := codes + [nextIndex];
        }
        assert TagTable() == Intern(t, names[i]);
        assert names[..i + 1] == names[..i] + [names[i]];
        i := i + 1;
      }
      assert names[..i] == names;
    }

    method InternKey(key: Name) returns (code: nat)
      modifies `metaKeys, `metaKeysIndex, `keysMet
      ensures KeyTable() == Intern(old(KeyTable()), key) && code == Code(KeyTable(), key)
    {
      if key in metaKeys {
        return metaKeys[key];
      }
      var nextIndex := metaKeysIndex + 1;
      metaKeys := metaKeys[key := nextIndex];
      metaKeysIndex := nextIndex;
      keysMet := keysMet + [key];
      return nextIndex;
    }

    method Upload(stakes: Stakes, who: AccountId, h: Hash256, refs: seq<Hash256>, category: Category, names: seq<Name>,
                  linked: Option<Asset>, cost: Option<nat>) returns (error: Option<Error>)
      modifies `tags, `tagsIndex, `tagsMet, `protos, `byCategory, `byOwner, `plain, `rank
      ensures var r := Uploaded(old(View()), stakes, who, h, refs, category, names, linked, cost);
        error == ErrorOf(r) && View() == After(old(View()), r)
    {
      hide StakingRefusal, InternAll, Codes;
      if h in protos {
        return Some(ProtoExists);
      }
      error := CheckStakingReq(stakes, refs, who);
      if error.Some? {
        return;
      }
      var owner := if linked.Some? then ExternalAsset(linked.value) else User(who);
      hide Append;
      Enter(h, Proto(now, [], cost, who, owner, refs, category, [], map[]), names);
    }

    /** Store a new proto, with the codes of its tags. */
    method Enter(h: Hash256, proto: Proto, names: seq<Name>)
      modifies `tags, `tagsIndex, `tagsMet, `protos, `byCategory, `byOwner, `plain, `rank
      ensures var s := old(View());
        var table := InternAll(s.tags, names);
        View() == s.(tags := table,
                     protos := s.protos[h := proto.(tags := Codes(table, names))],
                     byCategory := Append(s.byCategory, proto.category, h),
                     byOwner := Append(s.byOwner, proto.owner, h),
                     plain := s.plain[h := Plain(names, map[])],
                     rank := s.rank[h := |s.rank|])
    {
      hide Append, InternAll, Codes;
      var codes := InternTags(names);
      Put(h, proto.(tags := codes), names);
    }

    /** Store a new proto, under its category and its owner. */
    method Put(h: Hash256, proto: Proto, ghost names: seq<Name>)
      modifies `protos, `byCategory, `byOwner, `plain, `rank
      ensures protos == old(protos)[h := proto]
      ensures byCategory == Append(old(byCategory), proto.category, h)
              && byOwner == Append(old(byOwner), proto.owner, h)
      ensures plain == old(plain)[h := Plain(names, map[])] && rank == old(rank)[h := |old(rank)|]
    {
      protos := protos[h := proto];
      byCategory := Append(byCategory, proto.category, h);
      byOwner := Append(byOwner, proto.owner, h);
      plain := plain[h := Plain(names, map[])];
      rank := rank[h := |rank|];
    }

    /** The owner and attachment checks of `patch`, `transfer` and `set_metadata`, in their order. */
    method CheckOwner(h: Hash256, who: AccountId) returns (error: Option<Error>)
      ensures error.None? <==> h in protos && protos[h].owner == User(who) && h !in detached
      ensures error == Some(ProtoNotFound) <==> h !in protos
      ensures error == Some(Unauthorized) <==> h in protos && protos[h].owner != User(who)
      ensures error == Some(Detached) <==> h in protos && protos[h].owner == User(who) && h in detached
    {
      if h !in protos {
        return Some(ProtoNotFound);
      }
      match protos[h].owner {
        case User(owner) =>
          if owner != who {
            return Some(Unauthorized);
          }
        case ExternalAsset(_) =>
          return Some(Unauthorized);
      }
      if h in detached {
        return Some(Detached);
      }
      return None;
    }

    method PatchProto(stakes: Stakes, who: AccountId, h: Hash256, cost: Option<nat>, refs: seq<Hash256>,
                      newTags: Option<seq<Name>>, data: Bytes, dataHash: Hash256) returns (error: Option<Error>)
      modifies `tags, `tagsIndex, `tagsMet, `protos, `plain
      ensures var r := Patched(old(View()), stakes, who, h, cost, refs, newTags, data, dataHash);
        error == ErrorOf(r) && View() == After(old(View()), r)
    {
      error := CheckOwner(h, who);
      assert error == OwnerRefusal(View(), h, who);
      hide StakingRefusal, InternAll, Codes, OwnerRefusal;
      if error.Some? {
        return;
      }
      error := CheckStakingReq(stakes, refs, who);
      if error.Some? {
        return;
      }
      var proto := protos[h];
      if data != [] {
        proto := proto.(patches := proto.patches + [Patch(now, dataHash, refs)]);
      }
      proto := proto.(includeCost := cost);
      if newTags.Some? {
        var codes := InternTags(newTags.value);
        proto := proto.(tags := codes);
        plain := if h in plain then plain[h := plain[h].(tags := newTags.value)] else plain;
      }
      protos := protos[h := proto];
    }

    method Transfer(who: AccountId, h: Hash256, to: AccountId) returns (error: Option<Error>)
      modifies `protos, `byOwner
      ensures var r := Transferred(old(View()), who, h, to);
        error == ErrorOf(r) && View() == After(old(View()), r)
    {
      error := CheckOwner(h, who);
      if error.Some? {
        return;
      }
      byOwner := Retain(byOwner, protos[h].owner, h);
      byOwner := Append(byOwner, User(to), h);
      protos := protos[h := protos[h].(owner := User(to))];
    }

    method SetMetadata(who: AccountId, h: Hash256, key: Name, dataHash: Hash256) returns (error: Option<Error>)
      modifies `metaKeys, `metaKeysIndex, `keysMet, `protos, `plain
      ensures var r := MetadataSet(old(View()), who, h, key, dataHash);
        error == ErrorOf(r) && View() == After(old(View()), r)
    {
      error := CheckOwner(h, who);
      if error.Some? {
        return;
      }
      hide Intern, Code;
      var code := InternKey(key);
      protos := protos[h := protos[h].(metadata := protos[h].metadata[code := dataHash])];
      plain := if h in plain then plain[h := plain[h].(metadata := plain[h].metadata[key := dataHash])] else plain;
    }
  }

  /** Meeting one more name leaves the codes given so far as they are. */
  lemma CodesAfterIntern(t: Table, names: seq<Name>, n: Name)
    requires KnownAll(t, names)
    ensures KnownAll(Intern(t, n), names + [n])
    ensures Codes(Intern(t, n), names + [n]) == Codes(t, names) + [Code(Intern(t, n), n)]
  {
  }
}
