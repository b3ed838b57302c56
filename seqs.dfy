/** The array operations the generator uses: `filter`, `find` and `map`. */
module Seqs {
  import opened Values

  /** `Array.prototype.filter`: the elements satisfying `p`, in their order. */
  function Filter<T(!new)>(p: T -> bool, s: seq<T>): (r: seq<T>)
    ensures |r| <= |s|
    ensures forall x :: x in r <==> x in s && p(x)
  {
    if s == [] then [] else (if p(s[0]) then [s[0]] else []) + Filter(p, s[1..])
  }

  /** Filtering distributes over concatenation: the filter keeps the order. */
  lemma {:induction false} FilterAppend<T(!new)>(p: T -> bool, a: seq<T>, b: seq<T>)
    ensures Filter(p, a + b) == Filter(p, a) + Filter(p, b)
  {
    if a == [] {
      assert a + b == b;
    } else {
      assert (a + b)[1..] == a[1..] + b;
      FilterAppend(p, a[1..], b);
    }
  }

  /** One more element at the end adds it to the filter exactly when it satisfies `p`. */
  lemma FilterSnoc<T(!new)>(p: T -> bool, s: seq<T>, x: T)
    ensures Filter(p, s + [x]) == Filter(p, s) + (if p(x) then [x] else [])
  {
    FilterAppend(p, s, [x]);
    assert Filter(p, [x]) == (if p(x) then [x] else []) + Filter(p, []);
  }

  /** The filter of a prefix one element longer, as a loop over `s` needs it. */
  lemma FilterPrefix<T(!new)>(p: T -> bool, s: seq<T>, j: nat)
    requires j < |s|
    ensures Filter(p, s[..j + 1]) == Filter(p, s[..j]) + (if p(s[j]) then [s[j]] else [])
  {
    assert s[..j + 1] == s[..j] + [s[j]];
    FilterSnoc(p, s[..j], s[j]);
  }

  /** The filter keeps every occurrence of an element satisfying `p` (duplicates
      included) and none of an element that does not. */
  lemma {:induction false} FilterCount<T(!new)>(p: T -> bool, s: seq<T>, x: T)
    ensures multiset(Filter(p, s))[x] == if p(x) then multiset(s)[x] else 0
  {
    if s != [] {
      assert s == [s[0]] + s[1..];
      FilterCount(p, s[1..], x);
    }
  }

  /** Filtering a filtered sequence again changes nothing. */
  lemma {:induction false} FilterIdempotent<T(!new)>(p: T -> bool, s: seq<T>)
    ensures Filter(p, Filter(p, s)) == Filter(p, s)
  {
    if s != [] {
      FilterIdempotent(p, s[1..]);
      var head := if p(s[0]) then [s[0]] else [];
      FilterAppend(p, head, Filter(p, s[1..]));
      if p(s[0]) {
        assert Filter(p, head) == [s[0]] + Filter(p, []);
      }
    }
  }

  /** The index of the first element satisfying `p`, if there is one. */
  function FindIndex<T>(p: T -> bool, s: seq<T>): (r: Option<nat>)
    ensures r.Some? ==> r.value < |s| && p(s[r.value])
    ensures r.Some? ==> forall j :: 0 <= j < r.value ==> !p(s[j])
    ensures r.None? ==> forall j :: 0 <= j < |s| ==> !p(s[j])
  {
    if s == [] then None
    else if p(s[0]) then Some(0)
    else match FindIndex(p, s[1..])
      case None => None
      case Some(k) => Some(k + 1)
  }

  /** `Array.prototype.find`: the first element satisfying `p`, if there is one. */
  function Find<T(!new)>(p: T -> bool, s: seq<T>): (r: Option<T>)
    ensures r.Some? ==> r.value in s && p(r.value)
    ensures r.Some? ==> exists i :: 0 <= i < |s| && s[i] == r.value && forall j :: 0 <= j < i ==> !p(s[j])
    ensures r.None? <==> forall x :: x in s ==> !p(x)
  {
    match FindIndex(p, s)
    case None => None
    case Some(k) => Some(s[k])
  }

  /** `Array.prototype.map`. */
  function Map<A, B>(f: A -> B, s: seq<A>): (r: seq<B>)
    ensures |r| == |s|
    ensures forall i :: 0 <= i < |s| ==> r[i] == f(s[i])
  {
    seq(|s|, i requires 0 <= i < |s| => f(s[i]))
  }

  /** Mapping one more element at the end adds its image at the end. */
  lemma MapSnoc<A, B>(f: A -> B, s: seq<A>, x: A)
    ensures Map(f, s + [x]) == Map(f, s) + [f(x)]
  {
    assert forall i :: 0 <= i < |s| ==> (s + [x])[i] == s[i];
  }

  /** The same after a fixed prefix, as a loop that appends to a list uses it. */
  lemma MapSnocAfter<A, B>(prefix: seq<B>, f: A -> B, s: seq<A>, x: A)
    ensures prefix + Map(f, s + [x]) == prefix + Map(f, s) + [f(x)]
  {
    MapSnoc(f, s, x);
  }

  /** Mapping distributes over concatenation. */
  lemma MapAppend<A, B>(f: A -> B, a: seq<A>, b: seq<A>)
    ensures Map(f, a + b) == Map(f, a) + Map(f, b)
  {
    assert forall i :: 0 <= i < |a| ==> (a + b)[i] == a[i];
    assert forall i :: 0 <= i < |b| ==> (a + b)[|a| + i] == b[i];
  }

  lemma MapAppendAfter<A, B>(prefix: seq<B>, f: A -> B, a: seq<A>, b: seq<A>)
    ensures prefix + Map(f, a + b) == prefix + Map(f, a) + Map(f, b)
  {
    MapAppend(f, a, b);
  }

  /** Mapping one more element of a sequence in place, as a loop over it does. */
  lemma MapInPlace<A>(f: A -> A, s: seq<A>, i: nat)
    requires i < |s|
    ensures (Map(f, s[..i]) + s[i..])[i := f(s[i])] == Map(f, s[..i + 1]) + s[i + 1..]
  {
    var a, b := (Map(f, s[..i]) + s[i..])[i := f(s[i])], Map(f, s[..i + 1]) + s[i + 1..];
    assert |a| == |b|;
    forall k | 0 <= k < |a|
      ensures a[k] == b[k]
    {
      if k > i {
        assert a[k] == s[k] == b[k];
      }
    }
  }

  /** `n` copies of one value. */
  function Repeat<T>(n: nat, x: T): (r: seq<T>)
    ensures |r| == n && forall i :: 0 <= i < n ==> r[i] == x
  {
    if n == 0 then [] else Repeat(n - 1, x) + [x]
  }
}
