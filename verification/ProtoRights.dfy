/** Who may do what to protos: what it takes for each call to be accepted, and which error says what is missing. */
module ProtoRights {
  import opened Basics
  import opened ProtoStore
  import opened ProtoTheorems

  /** The account owns the proto, and the proto is attached. */
  predicate MayChange(s: Store, h: Hash256, who: AccountId) {
    h in s.protos && s.protos[h].owner == User(who) && h !in s.detached
  }

  /** The error that tells an account why it may not. */
  predicate Denies(s: Store, h: Hash256, who: AccountId, e: Error) {
    match e
    case ProtoNotFound => h !in s.protos
    case Unauthorized => h in s.protos && s.protos[h].owner != User(who)
    case Detached => h in s.protos && s.protos[h].owner == User(who) && h in s.detached
    case _ => false
  }

  ghost predicate AllIncludable(protos: Protos, stakes: Stakes, refs: seq<Hash256>, who: AccountId) {
    forall r :: r in refs ==> MayInclude(protos, stakes, r, who)
  }

  /** An upload is accepted exactly if the proto is new and each of its references may be included by the uploader: its
      own, free, or staked on enough. */
  lemma UploadAnswers(s: Store, stakes: Stakes, who: AccountId, h: Hash256, refs: seq<Hash256>, category: Category,
                      tags: seq<Name>, linked: Option<Asset>, cost: Option<nat>)
    ensures var r := Uploaded(s, stakes, who, h, refs, category, tags, linked, cost);
      && (r.Ok? <==> h !in s.protos && AllIncludable(s.protos, stakes, refs, who))
      && (r.Err? ==>
            if r.error == ProtoExists then h in s.protos
            else h !in s.protos && FirstExcluded(s.protos, stakes, refs, who, r.error))
  {
    AcceptedReferencesExist(s.protos, stakes, refs, who);
    forall e ensures FirstExcluded(s.protos, stakes, refs, who, e) ==> e != ProtoExists {
      hide MayInclude;
    }
    hide StakingRefusal, InternAll, Codes, MayInclude, Excludes, FirstExcluded;
  }

  /** A patch is accepted exactly from the owner of an attached proto that may include each new reference, even if there
      is no data and the references are dropped. */
  lemma PatchAnswers(s: Store, stakes: Stakes, who: AccountId, h: Hash256, cost: Option<nat>, refs: seq<Hash256>,
                     tags: Option<seq<Name>>, data: Bytes, dataHash: Hash256)
    ensures var r := Patched(s, stakes, who, h, cost, refs, tags, data, dataHash);
      && (r.Ok? <==> MayChange(s, h, who) && AllIncludable(s.protos, stakes, refs, who))
      && (r.Err? ==>
            if MayChange(s, h, who) then FirstExcluded(s.protos, stakes, refs, who, r.error)
            else Denies(s, h, who, r.error))
  {
    AcceptedReferencesExist(s.protos, stakes, refs, who);
    hide StakingRefusal, InternAll, Codes, MayInclude, Excludes, FirstExcluded, PatchedProto;
  }

  /** A transfer, and a write of metadata, exactly from the owner of an attached proto. */
  lemma TransferAnswers(s: Store, who: AccountId, h: Hash256, to: AccountId)
    ensures var r := Transferred(s, who, h, to);
      (r.Ok? <==> MayChange(s, h, who)) && (r.Err? ==> Denies(s, h, who, r.error))
  {
  }

  lemma SetMetadataAnswers(s: Store, who: AccountId, h: Hash256, key: Name, dataHash: Hash256)
    ensures var r := MetadataSet(s, who, h, key, dataHash);
      (r.Ok? <==> MayChange(s, h, who)) && (r.Err? ==> Denies(s, h, who, r.error))
  {
    hide Intern, Code;
  }

  // ---- What a transfer does -------------------------------------------------------------------

  lemma MovedInLists(byOwner: map<ProtoOwner, seq<Hash256>>, from: ProtoOwner, to: ProtoOwner, h: Hash256,
                     o: ProtoOwner, g: Hash256)
    ensures var byOwner' := Append(Retain(byOwner, from, h), to, h);
      && to in byOwner' && byOwner'[to] != [] && byOwner'[to][|byOwner'[to]| - 1] == h
      && (Lists(byOwner', from, h) <==> to == from)
      && (g != h ==> (Lists(byOwner', o, g) <==> Lists(byOwner, o, g)))
      && (o != from && o != to ==> Lookup(byOwner', o) == Lookup(byOwner, o))
  {
    var mid := Retain(byOwner, from, h);
    RetainLists(byOwner, from, h);
    AppendLists(mid, to, h);
    hide Without;
  }

  /** An accepted transfer leaves the proto with the receiver, who lists it last, and the sender without it; nothing
      else of it changes, nor any other proto or any other list, and no list but for that one proto. */
  lemma TransferReaches(s: Store, who: AccountId, h: Hash256, to: AccountId, o: ProtoOwner, g: Hash256)
    requires Transferred(s, who, h, to).Ok?
    ensures var s' := Transferred(s, who, h, to).value;
      && h in s.protos && s'.protos == s.protos[h := s.protos[h].(owner := User(to))]
      && User(to) in s'.byOwner && s'.byOwner[User(to)] != []
      && s'.byOwner[User(to)][|s'.byOwner[User(to)]| - 1] == h
      && (Lists(s'.byOwner, User(who), h) <==> to == who)
      && (g != h ==> (Lists(s'.byOwner, o, g) <==> Lists(s.byOwner, o, g)))
      && (o != User(who) && o != User(to) ==> Lookup(s'.byOwner, o) == Lookup(s.byOwner, o))
      && s'.byCategory == s.byCategory && s'.tags == s.tags && s'.metaKeys == s.metaKeys && s'.detached == s.detached
  {
    MovedInLists(s.byOwner, User(who), User(to), h, o, g);
    hide Retain, Append, Lists, Lookup;
  }
}
