/** The fragment of Ruby's value model that the deploy recipe relies on:
    nil/false truthiness, `Array.wrap`, `Array#uniq`, `Hash#[]` and
    `Hash#merge` with a `|| {}` fallback. */
module RubyValue {

  /** A Ruby value as it appears in node attributes and driver outputs.
      Hash keys (Ruby symbols or strings) are modelled as strings. */
  datatype Value =
    | Nil
    | Bool(b: bool)
    | Int(i: int)
    | Str(s: string)
    | List(items: seq<Value>)
    | Hash(entries: map<string, Value>)

  /** The exceptions the recipe can raise on its own account. */
  datatype Error =
    | TypeError(setting: string)      // `Hash#merge` given something that is not a hash
    | NoMethodError(setting: string)  // a method called on nil

  datatype Option<T> = None | Some(value: T)

  datatype Result<T> = Ok(value: T) | Err(error: Error)

  /** Ruby's conditionals: only `nil` and `false` are falsy. */
  predicate Truthy(v: Value) {
    !(v.Nil? || v == Bool(false))
  }

  /** `h[k]` on a Ruby hash: a missing key reads as nil. */
  function Lookup(h: map<string, Value>, k: string): (v: Value)
    ensures k !in h ==> v == Nil
    ensures k in h ==> v == h[k]
  {
    if k in h then h[k] else Nil
  }

  /** ActiveSupport's `Array.wrap`: nil becomes the empty list, a list stays
      as it is, and any other value becomes a one-element list. */
  function Wrap(v: Value): (r: seq<Value>)
    ensures v.Nil? ==> r == []
    ensures v.List? ==> r == v.items
    ensures !v.Nil? && !v.List? ==> r == [v]
  {
    match v
    case Nil => []
    case List(items) => items
    case _ => [v]
  }

  predicate NoDuplicates<T(==)>(s: seq<T>) {
    forall i, j :: 0 <= i < j < |s| ==> s[i] != s[j]
  }

  /** `Array#uniq`: walks the list from the left and keeps the first
      occurrence of every element. */
  function Uniq<T(==)>(s: seq<T>): (r: seq<T>)
    ensures NoDuplicates(r)
    ensures forall i :: 0 <= i < |r| ==> r[i] in s
    ensures forall i :: 0 <= i < |s| ==> s[i] in r
    ensures |r| <= |s|
    decreases |s|
  {
    if s == [] then []
    else
      var u := Uniq(s[..|s| - 1]);
      if s[|s| - 1] in u then u else u + [s[|s| - 1]]
  }

  /** The position of the first occurrence of `x` in `s`. */
  function FirstIndex<T(==)>(s: seq<T>, x: T): (k: nat)
    requires x in s
    ensures k < |s| && s[k] == x && x !in s[..k]
  {
    if s[0] == x then 0
    else
      assert x in s[1..];
      var k := FirstIndex(s[1..], x);
      assert s[..k + 1] == [s[0]] + s[1..][..k];
      k + 1
  }

  lemma FirstIndexUnique<T>(s: seq<T>, x: T, k: nat)
    requires k < |s| && s[k] == x && x !in s[..k]
    ensures FirstIndex(s, x) == k
  {
  }

  /** Appending an element does not move the first occurrence of anything
      already present. */
  lemma FirstIndexAppend<T>(p: seq<T>, z: T, x: T)
    requires x in p
    ensures x in p + [z] && FirstIndex(p + [z], x) == FirstIndex(p, x)
  {
    var k := FirstIndex(p, x);
    assert (p + [z])[..k] == p[..k];
    FirstIndexUnique(p + [z], x, k);
  }

  /** `uniq` preserves order: the kept elements appear in the order of their
      first occurrences in the input. Together with the contract of `Uniq`
      this determines its result completely. */
  lemma {:induction false} UniqKeepsFirstOccurrenceOrder<T>(s: seq<T>, i: nat, j: nat)
    requires i < j < |Uniq(s)|
    ensures Uniq(s)[i] in s && Uniq(s)[j] in s
    ensures FirstIndex(s, Uniq(s)[i]) < FirstIndex(s, Uniq(s)[j])
    decreases |s|
  {
    var p, z := s[..|s| - 1], s[|s| - 1];
    assert s == p + [z];
    var u := Uniq(p);
    if j < |u| {
      UniqKeepsFirstOccurrenceOrder(p, i, j);
      FirstIndexAppend(p, z, u[i]);
      FirstIndexAppend(p, z, u[j]);
    } else {
      assert Uniq(s) == u + [z] && Uniq(s)[j] == z && z !in p;
      assert s[..|p|] == p;
      FirstIndexUnique(s, z, |p|);
      FirstIndexAppend(p, z, u[i]);
    }
  }

  /** Extending a list at the end only extends its `uniq`. */
  lemma {:induction false} UniqPrefix<T>(a: seq<T>, b: seq<T>)
    ensures Uniq(a) <= Uniq(a + b)
    decreases |b|
  {
    if b == [] {
      assert a + b == a;
    } else {
      var b', z := b[..|b| - 1], b[|b| - 1];
      assert (a + b)[..|a + b| - 1] == a + b';
      UniqPrefix(a, b');
    }
  }

  /** A list without duplicates is its own `uniq`. */
  lemma {:induction false} UniqOfDistinct<T>(s: seq<T>)
    requires NoDuplicates(s)
    ensures Uniq(s) == s
    decreases |s|
  {
    if s != [] {
      var p := s[..|s| - 1];
      assert NoDuplicates(p);
      UniqOfDistinct(p);
      assert s[|s| - 1] !in p by {
        forall k | 0 <= k < |p| ensures p[k] != s[|s| - 1] {
          assert p[k] == s[k];
        }
      }
      assert p + [s[|s| - 1]] == s;
    }
  }

  /** `base.merge(v || {})`: a falsy `v` leaves `base` as it is, a hash is
      merged with its own values winning on a shared key, and any other value
      makes `merge` raise a TypeError. */
  function MergeOrEmpty(base: map<string, Value>, v: Value, setting: string): (r: Result<map<string, Value>>)
    ensures !Truthy(v) ==> r == Ok(base)
    ensures r.Ok? <==> !Truthy(v) || v.Hash?
    ensures r.Err? ==> r.error == TypeError(setting)
    ensures v.Hash? ==> r.Ok? && r.value.Keys == base.Keys + v.entries.Keys
    ensures v.Hash? ==> forall k :: k in v.entries ==> r.value[k] == v.entries[k]
    ensures v.Hash? ==> forall k :: k in base && k !in v.entries ==> r.value[k] == base[k]
  {
    if !Truthy(v) then Ok(base)
    else if v.Hash? then Ok(base + v.entries)
    else Err(TypeError(setting))
  }
}
