/** Identifiers, results, and the storage-map idioms (append, retain, position) shared by all pallets. */
module Basics {
  newtype Byte = x: int | 0 <= x < 256
  type Bytes = seq<Byte>

  // Identifiers are opaque: the pallets only compare them.
  type AccountId(==,!new)
  type Asset(==,!new)
  type Hash256(==,!new)
  type Address(==,!new)

  datatype Option<+T> = None | Some(value: T)

  /** The outcome of a dispatched call: the new storage, or an error and the storage untouched. */
  datatype Result<+T, +E> = Ok(value: T) | Err(error: E)

  const U64: nat := 0x1_0000_0000_0000_0000
  const U128: nat := U64 * U64

  /** A u64 of the source. */
  type Unit = n: nat | n < U64

  /** A balance is a u128; an account's least balance is one, and never zero. */
  type Balance = n: nat | n < U128
  type LeastBalance = n: nat | 0 < n < U128 witness 1

  function After<S, E>(s: S, r: Result<S, E>): S {
    if r.Ok? then r.value else s
  }

  function Min(a: nat, b: nat): nat {
    if a < b then a else b
  }

  function SaturatingSub(a: nat, b: nat): nat {
    if a < b then 0 else a - b
  }

  /** Who a Proto-Fragment belongs to: an account of this chain or an asset of another one. */
  datatype ProtoOwner = User(account: AccountId) | ExternalAsset(asset: Asset)

  // ---- Vectors --------------------------------------------------------------------------------

  ghost predicate NoDup<T>(s: seq<T>) {
    forall i, j :: 0 <= i < j < |s| ==> s[i] != s[j]
  }

  lemma NoDupConcat<T>(s: seq<T>, t: seq<T>)
    requires NoDup(s) && NoDup(t) && forall x :: x in s ==> x !in t
    ensures NoDup(s + t)
  {
    forall i, j | 0 <= i < j < |s + t| ensures (s + t)[i] != (s + t)[j] {
      if i < |s| <= j {
        assert s[i] in s && t[j - |s|] in t;
      }
    }
  }

  /** `Vec::retain(|y| y != x)`. */
  function Without<T(==)>(s: seq<T>, x: T): seq<T> {
    if s == [] then [] else if s[0] == x then Without(s[1..], x) else [s[0]] + Without(s[1..], x)
  }

  lemma {:induction false} WithoutMembers<T>(s: seq<T>, x: T)
    ensures forall y :: y in Without(s, x) <==> y in s && y != x
    ensures NoDup(s) ==> NoDup(Without(s, x))
  {
    if s != [] {
      WithoutMembers(s[1..], x);
      assert s == [s[0]] + s[1..];
      if NoDup(s) {
        assert NoDup(s[1..]);
        var rest := Without(s[1..], x);
        assert s[0] !in rest;
      }
    }
  }

  lemma {:induction false} WithoutAbsent<T>(s: seq<T>, x: T)
    requires x !in s
    ensures Without(s, x) == s
  {
    if s != [] {
      assert s == [s[0]] + s[1..];
      WithoutAbsent(s[1..], x);
    }
  }

  /** Removing the one occurrence by its index is the same as retaining everything else. */
  lemma {:induction false} WithoutIsRemoveAt<T>(s: seq<T>, i: nat)
    requires i < |s| && NoDup(s)
    ensures Without(s, s[i]) == s[..i] + s[i + 1..]
  {
    if i == 0 {
      assert s[0] !in s[1..];
      hide NoDup;
      WithoutAbsent(s[1..], s[0]);
      assert s[..0] + s[1..] == s[1..];
    } else {
      assert NoDup(s[1..]) && s[0] != s[i];
      hide NoDup;
      WithoutIsRemoveAt(s[1..], i - 1);
      AroundTheHead(s, i);
    }
  }

  lemma AroundTheHead<T>(s: seq<T>, i: nat)
    requires 0 < i < |s|
    ensures s[1..][i - 1] == s[i]
    ensures [s[0]] + (s[1..][..i - 1] + s[1..][i..]) == s[..i] + s[i + 1..]
  {
    assert [s[0]] + s[1..][..i - 1] == s[..i];
  }

  /** `iter().position(|y| y == x)`: the first index holding x. */
  function Position<T(==)>(s: seq<T>, x: T): (r: Option<nat>)
    ensures r.Some? ==> r.value < |s| && s[r.value] == x && x !in s[..r.value]
    ensures r.None? ==> x !in s
  {
    if s == [] then None
    else if s[0] == x then Some(0)
    else
      var r := Position(s[1..], x);
      assert s == [s[0]] + s[1..];
      if r.None? then None else
        assert s[..r.value + 1] == [s[0]] + s[1..][..r.value];
        Some(r.value + 1)
  }

  /** `Vec::remove(index)`. */
  function RemoveAt<T>(s: seq<T>, i: nat): seq<T>
    requires i < |s|
  {
    s[..i] + s[i + 1..]
  }

  // ---- Storage maps from a key to a vector ----------------------------------------------------

  function Lookup<K, V>(m: map<K, seq<V>>, k: K): seq<V> {
    if k in m then m[k] else []
  }

  /** `StorageMap::append`: an absent entry counts as the empty vector. */
  function Append<K, V>(m: map<K, seq<V>>, k: K, v: V): map<K, seq<V>> {
    m[k := Lookup(m, k) + [v]]
  }

  function Retain<K, V(==)>(m: map<K, seq<V>>, k: K, v: V): map<K, seq<V>> {
    if k in m then m[k := Without(m[k], v)] else m
  }

  ghost predicate Lists<K, V>(m: map<K, seq<V>>, k: K, v: V) {
    k in m && v in m[k]
  }

  ghost predicate NoDups<K, V>(m: map<K, seq<V>>) {
    forall k :: k in m ==> NoDup(m[k])
  }

  lemma AppendLists<K, V>(m: map<K, seq<V>>, k: K, v: V)
    ensures forall k', v' :: Lists(Append(m, k, v), k', v') <==> Lists(m, k', v') || (k' == k && v' == v)
    ensures NoDups(m) && !Lists(m, k, v) ==> NoDups(Append(m, k, v))
  {
  }

  lemma AppendLooksUp<K, V>(m: map<K, seq<V>>, k: K, v: V)
    ensures Lookup(Append(m, k, v), k) == Lookup(m, k) + [v]
    ensures forall j :: j != k ==> (j in Append(m, k, v) <==> j in m) && Lookup(Append(m, k, v), j) == Lookup(m, j)
  {
  }

  lemma RetainLooksUp<K, V>(m: map<K, seq<V>>, k: K, v: V)
    ensures Lookup(Retain(m, k, v), k) == Without(Lookup(m, k), v)
    ensures forall j :: j != k ==> (j in Retain(m, k, v) <==> j in m) && Lookup(Retain(m, k, v), j) == Lookup(m, j)
  {
  }

  lemma RetainLists<K, V>(m: map<K, seq<V>>, k: K, v: V)
    ensures forall k', v' :: Lists(Retain(m, k, v), k', v') <==> Lists(m, k', v') && !(k' == k && v' == v)
    ensures NoDups(m) ==> NoDups(Retain(m, k, v))
  {
    if k in m {
      WithoutMembers(m[k], v);
    }
  }
}
