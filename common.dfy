/** Shared vocabulary: optional values and results, the day calendar, JavaScript's
    rounding, ASCII case folding and substring search, sums and means, and the
    stable sort that JavaScript's `Array.prototype.sort` performs. */
module Common {

  datatype Option<T> = None | Some(value: T)

  datatype Result<T, E> = Ok(value: T) | Err(error: E)

  // ---------------------------------------------------------------------------
  // Calendar. Timestamps are milliseconds since the Unix epoch; a day is the
  // UTC calendar day, numbered from the epoch.

  type Timestamp = int

  const DayMs: int := 86_400_000

  function DayOf(t: Timestamp): int
  {
    t / DayMs
  }

  /** Midnight at the start of the day that holds `t`. */
  function StartOfDay(t: Timestamp): (m: Timestamp)
    ensures m <= t < m + DayMs
    ensures DayOf(m) == DayOf(t)
  {
    DayOf(t) * DayMs
  }

  /** Whole days elapsed from `t` to `now`, rounded down (negative for `t` in the future). */
  function DaysAgo(now: Timestamp, t: Timestamp): (d: int)
    ensures d * DayMs <= now - t < (d + 1) * DayMs
  {
    (now - t) / DayMs
  }

  // ---------------------------------------------------------------------------
  // Numbers.

  /** JavaScript's `Math.round`: the nearest integer, halves rounded up. */
  function Round(x: real): (r: int)
    ensures r as real - 0.5 <= x < r as real + 0.5
  {
    (x + 0.5).Floor
  }

  function Sum(s: seq<real>): real
  {
    if s == [] then 0.0 else Sum(s[..|s| - 1]) + s[|s| - 1]
  }

  /** Arithmetic mean, 0 for the empty sequence. */
  function Mean(s: seq<real>): (m: real)
    ensures |s| == 0 ==> m == 0.0
    ensures |s| > 0 ==> m * |s| as real == Sum(s)
  {
    if |s| == 0 then 0.0 else Sum(s) / |s| as real
  }

  lemma {:induction false} SumBounds(s: seq<real>, lo: real, hi: real)
    requires forall i :: 0 <= i < |s| ==> lo <= s[i] <= hi
    ensures lo * |s| as real <= Sum(s) <= hi * |s| as real
  {
    if s != [] {
      var n := |s| - 1;
      SumBounds(s[..n], lo, hi);
      assert lo * |s| as real == lo * n as real + lo;
      assert hi * |s| as real == hi * n as real + hi;
    }
  }

  lemma MeanBounds(s: seq<real>, lo: real, hi: real)
    requires |s| > 0
    requires forall i :: 0 <= i < |s| ==> lo <= s[i] <= hi
    ensures lo <= Mean(s) <= hi
  {
    SumBounds(s, lo, hi);
    assert Mean(s) == Sum(s) / |s| as real;
  }

  /** The fraction `part / whole`, with 0 for an empty whole. */
  function Fraction(part: nat, whole: nat): (f: real)
    requires part <= whole
    ensures 0.0 <= f <= 1.0
    ensures whole > 0 ==> f * whole as real == part as real
    ensures whole == 0 ==> f == 0.0
  {
    if whole == 0 then 0.0 else part as real / whole as real
  }

  // ---------------------------------------------------------------------------
  // Text: ASCII lower-casing and substring search.

  function LowerChar(c: char): char
  {
    if 'A' <= c <= 'Z' then (c as int + 32) as char else c
  }

  function Lower(s: string): (r: string)
    ensures |r| == |s|
  {
    seq(|s|, i requires 0 <= i < |s| => LowerChar(s[i]))
  }

  predicate IsPrefix(p: string, s: string)
  {
    |p| <= |s| && s[..|p|] == p
  }

  /** `t` occurs in `s` as a contiguous substring (JavaScript's `s.includes(t)`). */
  predicate Contains(s: string, t: string)
    decreases |s|
  {
    IsPrefix(t, s) || (|s| > 0 && Contains(s[1..], t))
  }

  /** `t` occurs in `s` starting at position `i`. */
  ghost predicate OccursAt(s: string, t: string, i: int)
  {
    0 <= i <= |s| - |t| && s[i..i + |t|] == t
  }

  lemma SliceOfTail(s: string, i: int, n: int)
    requires 0 < i && 0 <= n && i + n <= |s|
    ensures s[i..i + n] == s[1..][i - 1..i - 1 + n]
  {
    var a, b := s[i..i + n], s[1..][i - 1..i - 1 + n];
    assert |a| == |b|;
    forall k | 0 <= k < n ensures a[k] == b[k] {
      assert a[k] == s[i + k];
      assert b[k] == s[1..][i - 1 + k];
    }
  }

  lemma {:induction false} OccurrenceContained(s: string, t: string, i: int)
    requires OccursAt(s, t, i)
    ensures Contains(s, t)
    decreases i
  {
    if i == 0 {
      assert s[..|t|] == s[0..0 + |t|];
    } else {
      SliceOfTail(s, i, |t|);
      OccurrenceContained(s[1..], t, i - 1);
    }
  }

  lemma {:induction false} ContainedOccurs(s: string, t: string)
    requires Contains(s, t)
    ensures exists i :: OccursAt(s, t, i)
    decreases |s|
  {
    if IsPrefix(t, s) {
      assert OccursAt(s, t, 0);
    } else {
      ContainedOccurs(s[1..], t);
      var i :| OccursAt(s[1..], t, i);
      SliceOfTail(s, i + 1, |t|);
      assert OccursAt(s, t, i + 1);
    }
  }

  /** `Contains` agrees with the definition by position. */
  lemma ContainsAt(s: string, t: string)
    ensures Contains(s, t) <==> exists i :: OccursAt(s, t, i)
  {
    if Contains(s, t) {
      ContainedOccurs(s, t);
    }
    if exists i :: OccursAt(s, t, i) {
      var i :| OccursAt(s, t, i);
      OccurrenceContained(s, t, i);
    }
  }

  lemma ContainsEmpty(s: string)
    ensures Contains(s, "")
  {
    assert IsPrefix("", s);
  }

  // ---------------------------------------------------------------------------
  // Distinct elements in order of first occurrence (what iterating a JavaScript
  // `Map` filled from `s` yields).

  ghost predicate NoDuplicates<T>(s: seq<T>)
  {
    forall i, j :: 0 <= i < j < |s| ==> s[i] != s[j]
  }

  function Distinct<T(==,!new)>(s: seq<T>): (r: seq<T>)
    ensures forall x :: x in r <==> x in s
    ensures NoDuplicates(r)
    ensures |r| <= |s|
  {
    if s == [] then []
    else
      var d := Distinct(s[..|s| - 1]);
      if s[|s| - 1] in d then d else d + [s[|s| - 1]]
  }

  // ---------------------------------------------------------------------------
  // Stable sort by an integer key, ascending (an insertion sort).

  ghost predicate SortedBy<T>(s: seq<T>, key: T -> int)
  {
    forall i, j :: 0 <= i < j < |s| ==> key(s[i]) <= key(s[j])
  }

  /** The elements of `s` whose key is `k`, in their order in `s`. */
  function WithKey<T>(s: seq<T>, key: T -> int, k: int): seq<T>
  {
    if s == [] then [] else (if key(s[0]) == k then [s[0]] else []) + WithKey(s[1..], key, k)
  }

  /** Inserts `x` before the first element whose key is not smaller. */
  function InsertBy<T>(x: T, s: seq<T>, key: T -> int): seq<T>
  {
    if s == [] || key(x) <= key(s[0]) then [x] + s else [s[0]] + InsertBy(x, s[1..], key)
  }

  lemma {:induction false} InsertByPermutes<T>(x: T, s: seq<T>, key: T -> int)
    ensures multiset(InsertBy(x, s, key)) == multiset{x} + multiset(s)
  {
    if s != [] && key(x) > key(s[0]) {
      InsertByPermutes(x, s[1..], key);
      assert s == [s[0]] + s[1..];
    }
  }

  lemma {:induction false} InsertBySorted<T>(x: T, s: seq<T>, key: T -> int)
    requires SortedBy(s, key)
    ensures SortedBy(InsertBy(x, s, key), key)
  {
    if s != [] && key(x) > key(s[0]) {
      var t := s[1..];
      assert SortedBy(t, key);
      InsertBySorted(x, t, key);
      InsertByPermutes(x, t, key);
      var ins := InsertBy(x, t, key);
      var r := [s[0]] + ins;
      forall i, j | 0 <= i < j < |r| ensures key(r[i]) <= key(r[j]) {
        if i == 0 {
          assert r[j] in multiset(ins);
          assert r[j] == x || r[j] in t;
        } else {
          assert r[i] == ins[i - 1] && r[j] == ins[j - 1];
        }
      }
    }
  }

  lemma {:induction false} InsertByStable<T>(x: T, s: seq<T>, key: T -> int, k: int)
    requires SortedBy(s, key)
    ensures WithKey(InsertBy(x, s, key), key, k) == (if key(x) == k then [x] else []) + WithKey(s, key, k)
  {
    var xs := if key(x) == k then [x] else [];
    if s == [] || key(x) <= key(s[0]) {
      assert ([x] + s)[1..] == s;
    } else {
      var t := s[1..];
      assert SortedBy(t, key);
      InsertByStable(x, t, key, k);
      var ins := InsertBy(x, t, key);
      var hs := if key(s[0]) == k then [s[0]] else [];
      assert ([s[0]] + ins)[1..] == ins;
      assert WithKey(ins, key, k) == xs + WithKey(t, key, k);
      assert WithKey(s, key, k) == hs + WithKey(t, key, k);
      assert hs == [] || xs == [];
      assert hs + xs == xs + hs;
      calc {
        WithKey(InsertBy(x, s, key), key, k);
        hs + WithKey(ins, key, k);
        hs + (xs + WithKey(t, key, k));
        (hs + xs) + WithKey(t, key, k);
        (xs + hs) + WithKey(t, key, k);
        xs + (hs + WithKey(t, key, k));
      }
    }
  }

  function SortBy<T>(s: seq<T>, key: T -> int): (r: seq<T>)
    ensures SortedBy(r, key)
    ensures multiset(r) == multiset(s)
    ensures forall k :: WithKey(r, key, k) == WithKey(s, key, k)
  {
    if s == [] then []
    else
      var t := SortBy(s[1..], key);
      InsertBySorted(s[0], t, key);
      InsertByPermutes(s[0], t, key);
      assert forall k :: WithKey(InsertBy(s[0], t, key), key, k) == WithKey(s, key, k) by {
        forall k ensures WithKey(InsertBy(s[0], t, key), key, k) == WithKey(s, key, k) {
          InsertByStable(s[0], t, key, k);
        }
      }
      assert s == [s[0]] + s[1..];
      InsertBy(s[0], t, key)
  }

  lemma TwiceInMultiset<T>(r: seq<T>, i: int, j: int)
    requires 0 <= i < j < |r| && r[i] == r[j]
    ensures multiset(r)[r[i]] >= 2
  {
    assert r == r[..j] + r[j..];
    assert r[i] in r[..j];
    assert r[j..][0] == r[j];
  }

  lemma OnceInMultiset<T>(s: seq<T>, a: int)
    requires 0 <= a < |s|
    requires forall m :: 0 <= m < |s| && m != a ==> s[m] != s[a]
    ensures multiset(s)[s[a]] == 1
  {
    assert s == s[..a] + [s[a]] + s[a + 1..];
    assert s[a] !in s[..a];
    assert s[a] !in s[a + 1..];
  }

  /** A permutation of a sequence whose elements have pairwise distinct `f`-images
      has pairwise distinct `f`-images too. */
  lemma DistinctImagesPreserved<T, K>(r: seq<T>, s: seq<T>, f: T -> K)
    requires multiset(r) == multiset(s)
    requires forall i, j :: 0 <= i < j < |s| ==> f(s[i]) != f(s[j])
    ensures forall i, j :: 0 <= i < j < |r| ==> f(r[i]) != f(r[j])
  {
    forall i, j | 0 <= i < j < |r| ensures f(r[i]) != f(r[j]) {
      if f(r[i]) == f(r[j]) {
        assert r[i] in multiset(s) && r[j] in multiset(s);
        var a :| 0 <= a < |s| && s[a] == r[i];
        var b :| 0 <= b < |s| && s[b] == r[j];
        assert a == b;
        forall m | 0 <= m < |s| && m != a ensures s[m] != s[a] {
          if m < a { assert f(s[m]) != f(s[a]); } else { assert f(s[a]) != f(s[m]); }
        }
        OnceInMultiset(s, a);
        TwiceInMultiset(r, i, j);
        assert false;
      }
    }
  }

  // ---------------------------------------------------------------------------
  // Order-preserving selection.

  /** `s` is `r` with some elements removed, order kept. */
  predicate IsSubsequence<T(==)>(r: seq<T>, s: seq<T>)
    decreases |s|
  {
    if r == [] then true
    else if s == [] then false
    else if r[|r| - 1] == s[|s| - 1] then IsSubsequence(r[..|r| - 1], s[..|s| - 1])
    else IsSubsequence(r, s[..|s| - 1])
  }

  lemma {:induction false} SubsequenceExtends<T>(r: seq<T>, s: seq<T>, x: T)
    requires IsSubsequence(r, s)
    ensures IsSubsequence(r, s + [x])
    decreases |s|, 1
  {
    assert (s + [x])[..|s|] == s;
    if r != [] && r[|r| - 1] == x {
      SubsequenceOfPrefix(r, s);
    }
  }

  lemma {:induction false} SubsequenceOfPrefix<T>(r: seq<T>, s: seq<T>)
    requires r != [] && IsSubsequence(r, s)
    ensures IsSubsequence(r[..|r| - 1], s)
    decreases |s|, 0
  {
    var p := r[..|r| - 1];
    if s != [] {
      var t := s[..|s| - 1];
      if r[|r| - 1] == s[|s| - 1] {
        SubsequenceExtends(p, t, s[|s| - 1]);
        assert t + [s[|s| - 1]] == s;
      } else {
        SubsequenceOfPrefix(r, t);
        SubsequenceExtends(p, t, s[|s| - 1]);
        assert t + [s[|s| - 1]] == s;
      }
    }
  }

  /** One step of a filter over `s + [x]`: keeping or dropping `x` keeps the
      result a subsequence. */
  lemma SelectStep<T>(kept: seq<T>, s: seq<T>, x: T, keep: bool)
    requires IsSubsequence(kept, s)
    ensures IsSubsequence(if keep then kept + [x] else kept, s + [x])
  {
    if keep {
      assert (kept + [x])[..|kept|] == kept;
      assert (s + [x])[..|s|] == s;
    } else {
      SubsequenceExtends(kept, s, x);
    }
  }

  /** One step of a filter over `s + [x]`, counted for one value `y`: if the
      filter kept `y` as often as `s` holds it (or never), it still does. */
  lemma CountStep<T>(kept: seq<T>, s: seq<T>, x: T, keep: bool, y: T, keepY: bool)
    requires multiset(kept)[y] == if keepY then multiset(s)[y] else 0
    requires y == x ==> keepY == keep
    ensures multiset(if keep then kept + [x] else kept)[y] == if keepY then multiset(s + [x])[y] else 0
  {
  }
}
