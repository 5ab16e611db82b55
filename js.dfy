/**
 * The few JavaScript semantics the application relies on: truthiness, `||`
 * defaults, `Math.min` on numbers, `Array.prototype.slice`,
 * `Array.prototype.filter` and `String.prototype.trim`.
 */
module Js {
  import opened Wrappers

  /** A JavaScript number: NaN, one of the two infinities, or a finite value. */
  datatype Number = NaN | Infinity(negative: bool) | Finite(value: real)

  /** The JavaScript values whose truthiness the application tests. */
  datatype Value = Undefined | Null | Bool(b: bool) | Num(n: Number) | Str(s: string) | Object

  /** A number is falsy exactly when it is NaN or (positive or negative) zero. */
  predicate NumberTruthy(n: Number) {
    match n
    case NaN => false
    case Infinity(_) => true
    case Finite(x) => x != 0.0
  }

  predicate Truthy(v: Value) {
    match v
    case Undefined => false
    case Null => false
    case Bool(b) => b
    case Num(n) => NumberTruthy(n)
    case Str(s) => s != ""
    case Object => true
  }

  /** The order `<=` on numbers; NaN compares false with everything. */
  predicate AtMost(x: Number, y: Number) {
    if x.NaN? || y.NaN? then false
    else if x == Infinity(true) || y == Infinity(false) then true
    else if x.Infinity? || y.Infinity? then false
    else x.value <= y.value
  }

  /** `Math.min(a, b)`: NaN if either argument is NaN, otherwise the smaller one. */
  function Min(a: Number, b: Number): (r: Number)
    ensures r.NaN? <==> a.NaN? || b.NaN?
    ensures !r.NaN? ==> (r == a || r == b) && AtMost(r, a) && AtMost(r, b)
  {
    if a.NaN? || b.NaN? then NaN
    else if AtMost(a, b) then a
    else b
  }

  /** `s || fallback` for a string that may be missing: the empty string is falsy too. */
  function StringOr(s: Option<string>, fallback: string): (r: string)
    ensures r == fallback || (s.Some? && r == s.value)
    ensures r == fallback <==> s.None? || s.value == "" || s.value == fallback
  {
    if s.Some? && s.value != "" then s.value else fallback
  }

  /** Where a `slice` argument `k` lands in a sequence of length `len` (negative counts from the end). */
  function SliceBound(len: nat, k: int): (b: nat)
    ensures b <= len
    ensures 0 <= k <= len ==> b == k
  {
    if k < 0 then (if len + k < 0 then 0 else len + k)
    else if k > len then len
    else k
  }

  /** `s.slice(start, end)`. */
  function Slice<T>(s: seq<T>, start: int, end: int): (r: seq<T>)
    ensures |r| <= |s|
    ensures 0 <= start <= end ==> |r| <= end - start
    ensures 0 <= start <= end ==>
      |r| == (if end <= |s| then end else |s|) - (if start <= |s| then start else |s|)
    ensures 0 <= start ==> forall i :: 0 <= i < |r| ==> start + i < |s| && r[i] == s[start + i]
  {
    var from := SliceBound(|s|, start);
    var to := SliceBound(|s|, end);
    if from < to then s[from..to] else []
  }

  /** `s.filter(keep)`. */
  function Filter<T(==)>(s: seq<T>, keep: T -> bool): (r: seq<T>)
    ensures |r| <= |s|
    ensures forall i :: 0 <= i < |r| ==> r[i] in s && keep(r[i])
    ensures forall i :: 0 <= i < |s| && keep(s[i]) ==> s[i] in r
  {
    if s == [] then []
    else
      assert s == [s[0]] + s[1..];
      (if keep(s[0]) then [s[0]] else []) + Filter(s[1..], keep)
  }

  /** `a` is `b` with some elements left out and the rest in their original order. */
  predicate IsSubsequence<T(==)>(a: seq<T>, b: seq<T>)
    decreases |b|
  {
    a == [] || (b != [] && ((a[0] == b[0] && IsSubsequence(a[1..], b[1..])) || IsSubsequence(a, b[1..])))
  }

  /** Filtering keeps the surviving elements in their original order. */
  lemma {:induction false} FilterIsSubsequence<T>(s: seq<T>, keep: T -> bool)
    ensures IsSubsequence(Filter(s, keep), s)
  {
    if s != [] {
      FilterIsSubsequence(s[1..], keep);
      var r, t := Filter(s, keep), Filter(s[1..], keep);
      if keep(s[0]) {
        assert r[0] == s[0] && r[1..] == t;
      } else {
        assert r == t;
      }
    }
  }

  /**
   * Filtering keeps every kept value as many times as it occurs and drops
   * every other value: together with `FilterIsSubsequence` this pins the
   * result down exactly, duplicates included.
   */
  lemma {:induction false} FilterMultiset<T>(s: seq<T>, keep: T -> bool)
    ensures forall x :: multiset(Filter(s, keep))[x] == if keep(x) then multiset(s)[x] else 0
  {
    if s != [] {
      assert s == [s[0]] + s[1..];
      FilterMultiset(s[1..], keep);
    }
  }

  /** Filtering distributes over concatenation. */
  lemma {:induction false} FilterAppend<T>(a: seq<T>, b: seq<T>, keep: T -> bool)
    ensures Filter(a + b, keep) == Filter(a, keep) + Filter(b, keep)
  {
    if a != [] {
      assert (a + b)[1..] == a[1..] + b;
      FilterAppend(a[1..], b, keep);
    } else {
      assert a + b == b;
    }
  }

  /** Filtering a sequence whose every element is kept returns it unchanged. */
  lemma {:induction false} FilterKeepsAll<T>(s: seq<T>, keep: T -> bool)
    requires forall i :: 0 <= i < |s| ==> keep(s[i])
    ensures Filter(s, keep) == s
  {
    if s != [] {
      FilterKeepsAll(s[1..], keep);
    }
  }

  /** Filtering a sequence none of whose elements is kept returns nothing. */
  lemma {:induction false} FilterDropsAll<T>(s: seq<T>, keep: T -> bool)
    requires forall i :: 0 <= i < |s| ==> !keep(s[i])
    ensures Filter(s, keep) == []
  {
    if s != [] {
      FilterDropsAll(s[1..], keep);
    }
  }

  /** Filtering twice with the same test is filtering once. */
  lemma FilterIdempotent<T>(s: seq<T>, keep: T -> bool)
    ensures Filter(Filter(s, keep), keep) == Filter(s, keep)
  {
    var r := Filter(s, keep);
    FilterKeepsAll(r, keep);
  }

  /** The characters `String.prototype.trim` removes: WhiteSpace and LineTerminator of ECMA-262. */
  predicate IsWhitespace(c: char) {
    c in {'\U{0009}', '\U{000B}', '\U{000C}', '\U{0020}', '\U{00A0}', '\U{FEFF}', '\U{000A}', '\U{000D}',
          '\U{2028}', '\U{2029}', '\U{1680}', '\U{2000}', '\U{2001}', '\U{2002}', '\U{2003}', '\U{2004}',
          '\U{2005}', '\U{2006}', '\U{2007}', '\U{2008}', '\U{2009}', '\U{200A}', '\U{202F}', '\U{205F}',
          '\U{3000}'}
  }

  predicate AllWhitespace(s: string) {
    forall i :: 0 <= i < |s| ==> IsWhitespace(s[i])
  }

  /** Drops leading whitespace. */
  function TrimStart(s: string): (r: string)
    ensures r != [] ==> !IsWhitespace(r[0])
    ensures r == [] <==> AllWhitespace(s)
  {
    if s != [] && IsWhitespace(s[0]) then TrimStart(s[1..]) else s
  }

  /** Drops trailing whitespace. */
  function TrimEnd(s: string): (r: string)
    ensures r == [] <==> AllWhitespace(s)
  {
    if s != [] && IsWhitespace(s[|s| - 1]) then TrimEnd(s[..|s| - 1]) else s
  }

  /** `s.trim()`. */
  function Trim(s: string): string {
    TrimEnd(TrimStart(s))
  }

  /** `!s.trim()` holds exactly for the strings made only of whitespace (the empty one included). */
  lemma TrimEmptyIffBlank(s: string)
    ensures Trim(s) == [] <==> AllWhitespace(s)
  {
  }
}
