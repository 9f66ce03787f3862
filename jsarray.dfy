/** The two array searches the handlers rely on, `Array.prototype.findIndex`
    and `Array.prototype.filter`, specialised to the shape they are used in:
    an element matches when a key of it equals a given value. */
module JsArray {

  /** `s.findIndex(x => key(x) === k)`: the first matching index, or -1. */
  function FindIndex<T, K(==)>(s: seq<T>, key: T -> K, k: K): (r: int)
    ensures -1 <= r < |s|
    ensures r == -1 <==> forall i :: 0 <= i < |s| ==> key(s[i]) != k
    ensures 0 <= r ==> key(s[r]) == k && forall i :: 0 <= i < r ==> key(s[i]) != k
  {
    if s == [] then -1
    else if key(s[0]) == k then 0
    else
      var r := FindIndex(s[1..], key, k);
      if r == -1 then -1 else r + 1
  }

  /** `s.filter(x => key(x) !== k)`: the elements whose key differs from k,
      in their original order. */
  function FilterOut<T, K(==)>(s: seq<T>, key: T -> K, k: K): (r: seq<T>)
    ensures |r| <= |s|
    ensures forall i :: 0 <= i < |r| ==> r[i] in s && key(r[i]) != k
    ensures forall i :: 0 <= i < |s| && key(s[i]) != k ==> s[i] in r
  {
    if s == [] then []
    else (if key(s[0]) != k then [s[0]] else []) + FilterOut(s[1..], key, k)
  }

  /** Filtering distributes over concatenation: the result keeps the order
      of the input. */
  lemma {:induction false} FilterOutConcat<T, K>(a: seq<T>, b: seq<T>, key: T -> K, k: K)
    ensures FilterOut(a + b, key, k) == FilterOut(a, key, k) + FilterOut(b, key, k)
  {
    if a != [] {
      assert (a + b)[0] == a[0] && (a + b)[1..] == a[1..] + b;
      FilterOutConcat(a[1..], b, key, k);
    } else {
      assert a + b == b;
    }
  }

  /** When no element carries the key, filtering returns the input itself. */
  lemma {:induction false} FilterOutAbsent<T, K>(s: seq<T>, key: T -> K, k: K)
    requires forall i :: 0 <= i < |s| ==> key(s[i]) != k
    ensures FilterOut(s, key, k) == s
  {
    if s != [] {
      FilterOutAbsent(s[1..], key, k);
    }
  }

  /** Filtering twice by the same key is filtering once. */
  lemma FilterOutIdempotent<T, K>(s: seq<T>, key: T -> K, k: K)
    ensures FilterOut(FilterOut(s, key, k), key, k) == FilterOut(s, key, k)
  {
    FilterOutAbsent(FilterOut(s, key, k), key, k);
  }

  /** Exactly the elements carrying the key are dropped: the result is as
      long as the input precisely when no element carries it. */
  lemma {:induction false} FilterOutLength<T, K>(s: seq<T>, key: T -> K, k: K)
    ensures |FilterOut(s, key, k)| == |s| <==> forall i :: 0 <= i < |s| ==> key(s[i]) != k
  {
    if s != [] {
      FilterOutLength(s[1..], key, k);
      assert forall i :: 1 <= i < |s| ==> s[i] == s[1..][i - 1];
    }
  }
}
