/** The few pieces of JavaScript semantics that the admin panel's data rules lean on:
    optional values, `reduce` sums, `filter`, ASCII `toLowerCase`, `String.includes`,
    `Array.slice` and `Array.splice(i, 1)` on a copy. */
module JsSemantics {

  /** An optional value: a missing property, `undefined` or `null`. */
  datatype Option<T> = None | Some(value: T)

  /** The outcome of a step that can fail with a message. */
  datatype Result<T> = Ok(value: T) | Err(error: string)

  /** `x || 0` for an optional number: a missing number counts as 0. */
  function OrZero(x: Option<int>): int {
    if x.Some? then x.value else 0
  }

  // ---------------------------------------------------------------------------
  // reduce((sum, x) => sum + f(x), 0)

  /** Left fold of `+` over `f` of the elements, as `reduce` computes it. */
  function SumOf<T>(s: seq<T>, f: T -> int): int
    decreases |s|
  {
    if s == [] then 0 else SumOf(s[..|s| - 1], f) + f(s[|s| - 1])
  }

  lemma {:induction false} SumOfAppend<T>(a: seq<T>, b: seq<T>, f: T -> int)
    ensures SumOf(a + b, f) == SumOf(a, f) + SumOf(b, f)
    decreases |b|
  {
    if b == [] {
      assert a + b == a;
    } else {
      var n := |b| - 1;
      assert (a + b)[..|a + b| - 1] == a + b[..n];
      assert (a + b)[|a + b| - 1] == b[n];
      SumOfAppend(a, b[..n], f);
    }
  }

  lemma SumOfSingleton<T>(x: T, f: T -> int)
    ensures SumOf([x], f) == f(x)
  {
    assert [x][..0] == [];
  }

  lemma SumOfCons<T>(x: T, s: seq<T>, f: T -> int)
    ensures SumOf([x] + s, f) == f(x) + SumOf(s, f)
  {
    SumOfAppend([x], s, f);
    SumOfSingleton(x, f);
  }

  /** The sum of non-negative terms is non-negative. */
  lemma {:induction false} SumOfNonNegative<T>(s: seq<T>, f: T -> int)
    requires forall i :: 0 <= i < |s| ==> f(s[i]) >= 0
    ensures SumOf(s, f) >= 0
    decreases |s|
  {
    if s != [] {
      SumOfNonNegative(s[..|s| - 1], f);
    }
  }

  /** Sums over pointwise-equal terms are equal. */
  lemma {:induction false} SumOfCongruent<T>(s: seq<T>, f: T -> int, g: T -> int)
    requires forall i :: 0 <= i < |s| ==> f(s[i]) == g(s[i])
    ensures SumOf(s, f) == SumOf(s, g)
    decreases |s|
  {
    if s != [] {
      SumOfCongruent(s[..|s| - 1], f, g);
    }
  }

  // ---------------------------------------------------------------------------
  // filter(p)

  function Filter<T>(s: seq<T>, p: T -> bool): (r: seq<T>)
    ensures |r| <= |s|
    decreases |s|
  {
    if s == [] then []
    else if p(s[0]) then [s[0]] + Filter(s[1..], p)
    else Filter(s[1..], p)
  }

  /** `filter` keeps exactly the elements satisfying the predicate. */
  lemma {:induction false} FilterMembership<T>(s: seq<T>, p: T -> bool, x: T)
    ensures x in Filter(s, p) <==> x in s && p(x)
    decreases |s|
  {
    if s != [] {
      FilterMembership(s[1..], p, x);
      assert s == [s[0]] + s[1..];
    }
  }

  /** Every element of a filtered list is an element of the list. */
  lemma FilterSubsetOf<T>(s: seq<T>, p: T -> bool)
    ensures forall i :: 0 <= i < |Filter(s, p)| ==> Filter(s, p)[i] in s
  {
    forall i | 0 <= i < |Filter(s, p)|
      ensures Filter(s, p)[i] in s
    {
      FilterMembership(s, p, Filter(s, p)[i]);
    }
  }

  /** `filter` distributes over concatenation, which is how it keeps the order. */
  lemma {:induction false} FilterAppend<T>(a: seq<T>, b: seq<T>, p: T -> bool)
    ensures Filter(a + b, p) == Filter(a, p) + Filter(b, p)
    decreases |a|
  {
    if a == [] {
      assert a + b == b;
    } else {
      assert (a + b)[0] == a[0];
      assert (a + b)[1..] == a[1..] + b;
      FilterAppend(a[1..], b, p);
    }
  }

  /** A sum splits into the sum over the elements a predicate keeps and the sum over the
      elements its complement keeps. */
  lemma {:induction false} SumOfFilterSplit<T>(s: seq<T>, p: T -> bool, q: T -> bool, f: T -> int)
    requires forall i :: 0 <= i < |s| ==> q(s[i]) == !p(s[i])
    ensures SumOf(s, f) == SumOf(Filter(s, p), f) + SumOf(Filter(s, q), f)
    decreases |s|
  {
    if s != [] {
      SumOfFilterSplit(s[1..], p, q, f);
      assert s == [s[0]] + s[1..];
      SumOfCons(s[0], s[1..], f);
      if p(s[0]) {
        SumOfCons(s[0], Filter(s[1..], p), f);
      } else {
        SumOfCons(s[0], Filter(s[1..], q), f);
      }
    }
  }

  /** A predicate that holds everywhere lets everything through, in order. */
  lemma {:induction false} FilterAll<T>(s: seq<T>, p: T -> bool)
    requires forall i :: 0 <= i < |s| ==> p(s[i])
    ensures Filter(s, p) == s
    decreases |s|
  {
    if s != [] {
      FilterAll(s[1..], p);
    }
  }

  /** Filtering by a stronger predicate keeps no more elements. */
  lemma {:induction false} FilterMonotone<T>(s: seq<T>, p: T -> bool, q: T -> bool)
    requires forall i :: 0 <= i < |s| ==> p(s[i]) ==> q(s[i])
    ensures |Filter(s, p)| <= |Filter(s, q)|
    decreases |s|
  {
    if s != [] {
      FilterMonotone(s[1..], p, q);
    }
  }

  /** Filtering twice is filtering by the conjunction. */
  lemma {:induction false} FilterFilter<T>(s: seq<T>, p: T -> bool, q: T -> bool)
    ensures Filter(Filter(s, p), q) == Filter(s, x => p(x) && q(x))
    decreases |s|
  {
    if s != [] {
      FilterFilter(s[1..], p, q);
      if p(s[0]) {
        assert Filter(s, p) == [s[0]] + Filter(s[1..], p);
        assert Filter(s, p)[1..] == Filter(s[1..], p);
      }
    }
  }

  /** a is b with some elements deleted: the elements of a appear in b in the same order. */
  predicate Subsequence<T(==)>(a: seq<T>, b: seq<T>)
    decreases |b|
  {
    if a == [] then true
    else if b == [] then false
    else if a[0] == b[0] then Subsequence(a[1..], b[1..])
    else Subsequence(a, b[1..])
  }

  /** `filter` keeps the order of what it keeps. */
  lemma {:induction false} FilterSubsequence<T>(s: seq<T>, p: T -> bool)
    ensures Subsequence(Filter(s, p), s)
    decreases |s|
  {
    if s != [] {
      FilterSubsequence(s[1..], p);
      if p(s[0]) {
        assert Filter(s, p) == [s[0]] + Filter(s[1..], p);
        assert Filter(s, p)[1..] == Filter(s[1..], p);
      } else {
        SubsequenceDropFront(Filter(s, p), s);
      }
    }
  }

  /** A subsequence of b[1..] is a subsequence of b. */
  lemma {:induction false} SubsequenceDropFront<T>(a: seq<T>, b: seq<T>)
    requires b != [] && Subsequence(a, b[1..])
    ensures Subsequence(a, b)
    decreases |b|, 0
  {
    if a != [] && a[0] == b[0] {
      SubsequenceTail(a, b[1..]);
    }
  }

  /** Dropping the first element of a subsequence leaves a subsequence. */
  lemma {:induction false} SubsequenceTail<T>(a: seq<T>, c: seq<T>)
    requires a != [] && Subsequence(a, c)
    ensures Subsequence(a[1..], c)
    decreases |c|, 1
  {
    if a[0] == c[0] {
      SubsequenceDropFront(a[1..], c);
    } else {
      SubsequenceTail(a, c[1..]);
      SubsequenceDropFront(a[1..], c);
    }
  }

  // ---------------------------------------------------------------------------
  // toLowerCase and includes

  /** `toLowerCase` on one character; only the ASCII letters are folded. */
  function LowerChar(c: char): (r: char)
    ensures 'A' <= c <= 'Z' ==> r as int == c as int + 32
    ensures !('A' <= c <= 'Z') ==> r == c
  {
    if 'A' <= c <= 'Z' then (c as int + 32) as char else c
  }

  function ToLower(s: string): (r: string)
    ensures |r| == |s|
    ensures forall i :: 0 <= i < |s| ==> r[i] == LowerChar(s[i])
  {
    seq(|s|, i requires 0 <= i < |s| => LowerChar(s[i]))
  }

  /** Lower-casing twice changes nothing more. */
  lemma ToLowerIdempotent(s: string)
    ensures ToLower(ToLower(s)) == ToLower(s)
  {
  }

  /** `s.includes(q)`: q occurs somewhere in s (the empty string occurs everywhere). */
  predicate Includes(s: string, q: string)
    decreases |s|
  {
    q <= s || (|s| > 0 && Includes(s[1..], q))
  }

  /** q occurs in s starting at position k. */
  predicate OccursAt(s: string, q: string, k: int) {
    0 <= k <= |s| - |q| && s[k..k + |q|] == q
  }

  /** If `includes` holds, q starts at some position of s. */
  lemma {:induction false} IncludesHasPosition(s: string, q: string) returns (k: int)
    requires Includes(s, q)
    ensures OccursAt(s, q, k)
    decreases |s|
  {
    if q <= s {
      assert s[0..|q|] == q;
      k := 0;
    } else {
      var j := IncludesHasPosition(s[1..], q);
      assert s[j + 1..j + 1 + |q|] == s[1..][j..j + |q|];
      k := j + 1;
    }
  }

  /** If q starts at position k of s, `includes` holds. */
  lemma {:induction false} PositionGivesIncludes(s: string, q: string, k: int)
    requires OccursAt(s, q, k)
    ensures Includes(s, q)
    decreases k
  {
    if k > 0 {
      assert s[1..][k - 1..k - 1 + |q|] == s[k..k + |q|];
      PositionGivesIncludes(s[1..], q, k - 1);
    } else {
      assert s[..|q|] == q;
    }
  }

  /** `includes` means: there is a position where q starts in s. */
  lemma IncludesAt(s: string, q: string)
    ensures Includes(s, q) <==> exists k :: OccursAt(s, q, k)
  {
    if Includes(s, q) {
      var k := IncludesHasPosition(s, q);
    }
    if exists k :: OccursAt(s, q, k) {
      var k :| OccursAt(s, q, k);
      PositionGivesIncludes(s, q, k);
    }
  }

  // ---------------------------------------------------------------------------
  // Array.prototype.slice and splice(i, 1)

  /** How `slice` and `splice` turn a possibly negative index into a position in 0..len. */
  function Clamp(i: int, len: nat): (r: nat)
    ensures r <= len
    ensures 0 <= i <= len ==> r == i
    ensures i > len ==> r == len
    ensures i < 0 ==> r == (if len + i < 0 then 0 else len + i)
  {
    if i < 0 then (if len + i < 0 then 0 else len + i)
    else if i > len then len
    else i
  }

  /** `s.slice(start, end)`. */
  function Slice<T>(s: seq<T>, start: int, end: int): (r: seq<T>)
    ensures 0 <= start <= end ==>
              |r| <= end - start &&
              r == s[Clamp(start, |s|)..if end <= |s| then end else |s|]
  {
    var lo, hi := Clamp(start, |s|), Clamp(end, |s|);
    if lo < hi then s[lo..hi] else []
  }

  /** `const t = [...s]; t.splice(i, 1); t`: remove the element at index i (if any). */
  function RemoveAt<T>(s: seq<T>, i: int): (r: seq<T>)
    ensures 0 <= i < |s| ==>
              |r| == |s| - 1 &&
              (forall j :: 0 <= j < i ==> r[j] == s[j]) &&
              (forall j :: i <= j < |r| ==> r[j] == s[j + 1]) &&
              multiset(r) + multiset{s[i]} == multiset(s)
    ensures i >= |s| ==> r == s
    ensures i < 0 && |s| + i >= 0 ==> r == s[..|s| + i] + s[|s| + i + 1..]
    ensures i < 0 && |s| + i < 0 && |s| > 0 ==> r == s[1..]
  {
    var k := Clamp(i, |s|);
    if k < |s| then
      assert s == s[..k] + [s[k]] + s[k + 1..];
      s[..k] + s[k + 1..]
    else s
  }

  /** For an index inside the array, removal is the prefix before it followed by the suffix after it. */
  lemma RemoveAtInRange<T>(s: seq<T>, i: int)
    requires 0 <= i < |s|
    ensures RemoveAt(s, i) == s[..i] + s[i + 1..]
  {
    assert Clamp(i, |s|) == i;
  }

  /** Removing element i lowers a sum by that element's term. */
  lemma RemoveAtSum<T>(s: seq<T>, i: int, f: T -> int)
    requires 0 <= i < |s|
    ensures SumOf(RemoveAt(s, i), f) == SumOf(s, f) - f(s[i])
  {
    var a, b := s[..i], s[i + 1..];
    assert s == (a + [s[i]]) + b;
    RemoveAtInRange(s, i);
    SumOfAppend(a + [s[i]], b, f);
    SumOfAppend(a, [s[i]], f);
    SumOfAppend(a, b, f);
    SumOfSingleton(s[i], f);
  }
}
