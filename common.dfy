/** Building blocks shared by the components: an option type for JavaScript's
    null/undefined, the array filter that the components use everywhere, the
    two toggle idioms (copying a Set and adding or deleting, and the
    "includes ? filter : append" idiom on arrays), the decimal rendering of
    integers inside template strings, and the in-place `Array.prototype.sort`
    with a numeric comparator. */
module Common {

  /** `null` or `undefined` versus a present value. */
  datatype Option<T> = None | Some(value: T)

  // ---------------------------------------------------------------------
  // Array.prototype.filter

  /** `s.filter(p)`: the elements of `s` that satisfy `p`, in their order. */
  function Filter<T(!new)>(s: seq<T>, p: T -> bool): (r: seq<T>)
    ensures |r| <= |s|
    ensures forall x :: x in r <==> x in s && p(x)
    ensures forall i :: 0 <= i < |r| ==> p(r[i])
  {
    if s == [] then [] else (if p(s[0]) then [s[0]] else []) + Filter(s[1..], p)
  }

  /** Filtering distributes over concatenation: the kept elements stay in
      their original relative order. */
  lemma {:induction false} FilterConcat<T(!new)>(a: seq<T>, b: seq<T>, p: T -> bool)
    ensures Filter(a + b, p) == Filter(a, p) + Filter(b, p)
  {
    if a == [] {
      assert a + b == b;
    } else {
      assert (a + b)[0] == a[0];
      assert (a + b)[1..] == a[1..] + b;
      FilterConcat(a[1..], b, p);
    }
  }

  /** A filter that every element passes is the identity. */
  lemma {:induction false} FilterKeepsAll<T(!new)>(s: seq<T>, p: T -> bool)
    requires forall i :: 0 <= i < |s| ==> p(s[i])
    ensures Filter(s, p) == s
  {
    if s != [] {
      FilterKeepsAll(s[1..], p);
    }
  }

  /** A filter that no element passes is empty. */
  lemma {:induction false} FilterDropsAll<T(!new)>(s: seq<T>, p: T -> bool)
    requires forall i :: 0 <= i < |s| ==> !p(s[i])
    ensures Filter(s, p) == []
  {
    if s != [] {
      FilterDropsAll(s[1..], p);
    }
  }

  /** Filtering by `p` and by its negation splits the input in two. */
  lemma {:induction false} FilterSplit<T(!new)>(s: seq<T>, p: T -> bool, q: T -> bool)
    requires forall x :: q(x) == !p(x)
    ensures |Filter(s, p)| + |Filter(s, q)| == |s|
  {
    if s != [] {
      FilterSplit(s[1..], p, q);
    }
  }

  /** Filtering twice keeps what passes both filters. */
  lemma {:induction false} FilterFilter<T(!new)>(s: seq<T>, p: T -> bool, q: T -> bool, pq: T -> bool)
    requires forall x :: pq(x) == (p(x) && q(x))
    ensures Filter(Filter(s, p), q) == Filter(s, pq)
  {
    if s != [] {
      FilterConcat([s[0]], s[1..], p);
      assert s == [s[0]] + s[1..];
      FilterConcat(if p(s[0]) then [s[0]] else [], Filter(s[1..], p), q);
      FilterFilter(s[1..], p, q, pq);
    }
  }

  /** Filtering a duplicate-free sequence leaves it duplicate-free. */
  lemma {:induction false} FilterNoDup<T(!new)>(s: seq<T>, p: T -> bool)
    requires NoDup(s)
    ensures NoDup(Filter(s, p))
  {
    if s != [] {
      assert NoDup(s[1..]) by {
        forall i, j | 0 <= i < j < |s[1..]| ensures s[1..][i] != s[1..][j] {
          assert s[1..][i] == s[i + 1] && s[1..][j] == s[j + 1];
        }
      }
      FilterNoDup(s[1..], p);
      if p(s[0]) {
        assert s[0] !in s[1..] by {
          forall k | 0 <= k < |s[1..]| ensures s[1..][k] != s[0] {
            assert s[1..][k] == s[k + 1];
          }
        }
        assert s[0] !in Filter(s[1..], p);
        ConsNoDup(s[0], Filter(s[1..], p));
      }
    }
  }

  /** A weaker filter keeps at least as much. */
  lemma {:induction false} FilterMonotone<T(!new)>(s: seq<T>, p: T -> bool, q: T -> bool)
    requires forall x :: p(x) ==> q(x)
    ensures |Filter(s, p)| <= |Filter(s, q)|
  {
    if s != [] {
      FilterMonotone(s[1..], p, q);
    }
  }

  /** The number of elements of `s` that satisfy `p`, counted one by one. */
  function Count<T>(s: seq<T>, p: T -> bool): nat {
    if s == [] then 0 else (if p(s[0]) then 1 else 0) + Count(s[1..], p)
  }

  /** `s.filter(p).length` is that count. */
  lemma {:induction false} FilterLengthIsCount<T(!new)>(s: seq<T>, p: T -> bool)
    ensures |Filter(s, p)| == Count(s, p)
  {
    if s != [] {
      FilterLengthIsCount(s[1..], p);
    }
  }

  // ---------------------------------------------------------------------
  // Array.prototype.map

  /** `s.map(f)`. */
  function MapSeq<T, U>(s: seq<T>, f: T -> U): (r: seq<U>)
    ensures |r| == |s|
    ensures forall i :: 0 <= i < |s| ==> r[i] == f(s[i])
  {
    if s == [] then [] else [f(s[0])] + MapSeq(s[1..], f)
  }

  lemma {:induction false} MapSeqConcat<T, U>(a: seq<T>, b: seq<T>, f: T -> U)
    ensures MapSeq(a + b, f) == MapSeq(a, f) + MapSeq(b, f)
  {
    if a == [] {
      assert a + b == b;
    } else {
      assert (a + b)[0] == a[0];
      assert (a + b)[1..] == a[1..] + b;
      MapSeqConcat(a[1..], b, f);
    }
  }

  /** Mapping by a function that leaves every element alone is the
      identity. */
  lemma MapSeqIdentity<T>(s: seq<T>, f: T -> T)
    requires forall i :: 0 <= i < |s| ==> f(s[i]) == s[i]
    ensures MapSeq(s, f) == s
  {
  }

  /** Filtering after a map is mapping after a filter, when the filter only
      looks at what the map does not change. */
  lemma {:induction false} FilterMap<T(!new), U(!new)>(s: seq<T>, f: T -> U, p: U -> bool, q: T -> bool)
    requires forall x :: p(f(x)) == q(x)
    ensures Filter(MapSeq(s, f), p) == MapSeq(Filter(s, q), f)
  {
    if s != [] {
      var m := MapSeq(s, f);
      assert m[0] == f(s[0]);
      assert m[1..] == MapSeq(s[1..], f);
      FilterMap(s[1..], f, p, q);
      MapSeqConcat(if q(s[0]) then [s[0]] else [], Filter(s[1..], q), f);
    }
  }

  // ---------------------------------------------------------------------
  // Duplicate-free sequences

  ghost predicate NoDup<T>(s: seq<T>) {
    forall i, j :: 0 <= i < j < |s| ==> s[i] != s[j]
  }

  lemma ConsNoDup<T>(x: T, s: seq<T>)
    requires NoDup(s) && x !in s
    ensures NoDup([x] + s)
  {
    forall i, j | 0 <= i < j < |[x] + s| ensures ([x] + s)[i] != ([x] + s)[j] {
      if i == 0 {
        assert ([x] + s)[j] == s[j - 1];
      } else {
        assert ([x] + s)[i] == s[i - 1] && ([x] + s)[j] == s[j - 1];
      }
    }
  }

  lemma SnocNoDup<T>(s: seq<T>, x: T)
    requires NoDup(s) && x !in s
    ensures NoDup(s + [x])
  {
    forall i, j | 0 <= i < j < |s + [x]| ensures (s + [x])[i] != (s + [x])[j] {
      if j == |s| {
        assert (s + [x])[i] == s[i];
      } else {
        assert (s + [x])[i] == s[i] && (s + [x])[j] == s[j];
      }
    }
  }

  /** A duplicate-free sequence whose elements all come from `u` is no
      longer than `u`. */
  lemma {:induction false} NoDupBound<T>(s: seq<T>, u: set<T>)
    requires NoDup(s)
    requires forall i :: 0 <= i < |s| ==> s[i] in u
    ensures |s| <= |u|
  {
    if s != [] {
      var rest := s[1..];
      assert NoDup(rest) by {
        forall i, j | 0 <= i < j < |rest| ensures rest[i] != rest[j] {
          assert rest[i] == s[i + 1] && rest[j] == s[j + 1];
        }
      }
      forall i | 0 <= i < |rest| ensures rest[i] in u - {s[0]} {
        assert rest[i] == s[i + 1];
      }
      NoDupBound(rest, u - {s[0]});
    }
  }

  // ---------------------------------------------------------------------
  // The two toggle idioms

  /** `new Set(s)` followed by `delete(x)` when `x` is present and `add(x)`
      otherwise. */
  function ToggleMember<T(!new)>(s: set<T>, x: T): (r: set<T>)
    ensures x in r <==> x !in s
    ensures forall y :: y != x ==> (y in r <==> y in s)
  {
    if x in s then s - {x} else s + {x}
  }

  /** Toggling the same element twice restores the set. */
  lemma ToggleMemberTwice<T(!new)>(s: set<T>, x: T)
    ensures ToggleMember(ToggleMember(s, x), x) == s
  {
  }

  /** `s.filter(y => y !== x)`: every occurrence of `x` removed. */
  function Without<T(==,!new)>(s: seq<T>, x: T): (r: seq<T>)
    ensures x !in r
    ensures forall y :: y != x ==> (y in r <==> y in s)
  {
    Filter(s, y => y != x)
  }

  /** `s.includes(x) ? s.filter(y => y !== x) : [...s, x]`. */
  function ToggleListed<T(==,!new)>(s: seq<T>, x: T): (r: seq<T>)
    ensures x in r <==> x !in s
    ensures forall y :: y != x ==> (y in r <==> y in s)
  {
    if x in s then Without(s, x) else s + [x]
  }

  /** Toggling an absent element appends it at the end. */
  lemma ToggleListedAbsent<T(!new)>(s: seq<T>, x: T)
    requires x !in s
    ensures ToggleListed(s, x) == s + [x]
  {
  }

  /** Toggling a present element removes all its occurrences and keeps the
      other elements in their order: the result splits like its input. */
  lemma ToggleListedPresent<T(!new)>(s: seq<T>, t: seq<T>, x: T)
    requires x in s + t
    ensures ToggleListed(s + t, x) == Without(s, x) + Without(t, x)
  {
    FilterConcat(s, t, y => y != x);
  }

  /** Toggling keeps a duplicate-free list duplicate-free. */
  lemma ToggleListedNoDup<T(!new)>(s: seq<T>, x: T)
    requires NoDup(s)
    ensures NoDup(ToggleListed(s, x))
  {
    if x in s {
      FilterNoDup(s, y => y != x);
    } else {
      SnocNoDup(s, x);
    }
  }

  /** The checklist invariant: no element twice, every element one of the
      items in `u`. Toggling an item of `u` keeps it, and a list that keeps
      it is no longer than `u`. */
  ghost predicate Checklist<T>(s: seq<T>, u: set<T>) {
    NoDup(s) && forall i :: 0 <= i < |s| ==> s[i] in u
  }

  lemma ToggleListedChecklist<T(!new)>(s: seq<T>, u: set<T>, x: T)
    requires Checklist(s, u) && x in u
    ensures Checklist(ToggleListed(s, x), u)
    ensures |ToggleListed(s, x)| <= |u|
  {
    ToggleListedNoDup(s, x);
    var r := ToggleListed(s, x);
    forall i | 0 <= i < |r| ensures r[i] in u {
      assert r[i] in r;
    }
    NoDupBound(r, u);
  }

  /** Toggling an absent element twice restores the list. */
  lemma ToggleListedTwice<T(!new)>(s: seq<T>, x: T)
    requires x !in s
    ensures ToggleListed(ToggleListed(s, x), x) == s
  {
    assert x in s + [x];
    FilterConcat(s, [x], y => y != x);
    FilterKeepsAll(s, y => y != x);
    FilterDropsAll([x], y => y != x);
  }

  // ---------------------------------------------------------------------
  // Template-string rendering of integers

  function DigitChar(d: nat): (c: char)
    requires d < 10
    ensures '0' <= c <= '9'
  {
    (('0' as int) + d) as char
  }

  /** The decimal digits of `n`, no leading zeros. */
  function NatToString(n: nat): (r: string)
    ensures 1 <= |r|
    ensures n >= 10 ==> 2 <= |r|
    ensures forall i :: 0 <= i < |r| ==> '0' <= r[i] <= '9'
    decreases n
  {
    if n < 10 then [DigitChar(n)] else NatToString(n / 10) + [DigitChar(n % 10)]
  }

  /** Different numbers have different renderings. */
  lemma {:induction false} NatToStringInjective(a: nat, b: nat)
    requires NatToString(a) == NatToString(b)
    ensures a == b
    decreases a
  {
    if a >= 10 && b >= 10 {
      var sa, sb := NatToString(a), NatToString(b);
      assert sa[|sa| - 1] == DigitChar(a % 10) && sb[|sb| - 1] == DigitChar(b % 10);
      assert sa[..|sa| - 1] == NatToString(a / 10);
      assert sb[..|sb| - 1] == NatToString(b / 10);
      NatToStringInjective(a / 10, b / 10);
    }
  }

  /** `${n}` for an integer `n`: a minus sign, then the digits of |n|. */
  function IntToString(n: int): (r: string)
    ensures 1 <= |r|
    ensures n < 0 <==> r[0] == '-'
  {
    if n < 0 then "-" + NatToString(-n) else NatToString(n)
  }

  /** Different integers have different renderings. */
  lemma IntToStringInjective(a: int, b: int)
    requires IntToString(a) == IntToString(b)
    ensures a == b
  {
    if a < 0 {
      assert IntToString(a)[1..] == NatToString(-a);
      assert IntToString(b)[1..] == NatToString(-b);
      NatToStringInjective(-a, -b);
    } else {
      NatToStringInjective(a, b);
    }
  }

  // ---------------------------------------------------------------------
  // `array.sort((a, b) => key(a) - key(b))`

  ghost predicate SortedBy<T>(s: seq<T>, key: T -> real) {
    forall i, j :: 0 <= i < j < |s| ==> key(s[i]) <= key(s[j])
  }

  /** The first `n` elements of `s` are in order. */
  ghost predicate SortedUpTo<T>(s: seq<T>, n: nat, key: T -> real) {
    n <= |s| && forall k, l :: 0 <= k < l < n ==> key(s[k]) <= key(s[l])
  }

  /** Halfway through inserting `s[i]` into the sorted `s[..i]`: the moving
      element sits at `j`, and `s[..i + 1]` is in order apart from it. */
  ghost predicate InsertingAt<T>(s: seq<T>, i: nat, j: nat, key: T -> real) {
    && j <= i < |s|
    && (forall k, l :: 0 <= k < l <= i && l != j ==> key(s[k]) <= key(s[l]))
    && (0 < j < i ==> key(s[j - 1]) <= key(s[j + 1]))
  }

  /** Swapping the moving element with a larger left neighbour moves it one
      place left and keeps the elements. */
  lemma SwapDown<T>(s: seq<T>, i: nat, j: nat, key: T -> real)
    requires InsertingAt(s, i, j, key) && 0 < j && key(s[j - 1]) > key(s[j])
    ensures InsertingAt(s[j - 1 := s[j]][j := s[j - 1]], i, j - 1, key)
    ensures multiset(s[j - 1 := s[j]][j := s[j - 1]]) == multiset(s)
  {
    var t := s[j - 1 := s[j]][j := s[j - 1]];
    forall k, l | 0 <= k < l <= i && l != j - 1 ensures key(t[k]) <= key(t[l]) {
      if l == j {
        if k < j - 1 {
          assert t[k] == s[k] && t[l] == s[j - 1];
        }
      } else if k == j - 1 {
        assert t[k] == s[j];
        if l != j + 1 {
          assert key(s[j - 1]) <= key(s[l]);
        }
      } else if k == j {
        assert t[k] == s[j - 1];
      } else {
        assert t[k] == s[k] && t[l] == s[l];
      }
    }
  }

  /** Once the left neighbour is no larger, the insertion is complete. */
  lemma InsertDone<T>(s: seq<T>, i: nat, j: nat, key: T -> real)
    requires InsertingAt(s, i, j, key) && (j == 0 || key(s[j - 1]) <= key(s[j]))
    ensures SortedUpTo(s, i + 1, key)
  {
    forall k, l | 0 <= k < l <= i ensures key(s[k]) <= key(s[l]) {
      if l == j && k < j - 1 {
        assert key(s[k]) <= key(s[j - 1]);
      }
    }
  }

  /** Sorts `a` in place, non-decreasingly by `key` (insertion sort by
      adjacent swaps of strictly out-of-order neighbours). */
  method SortByKey<T>(a: array<T>, key: T -> real)
    modifies a
    ensures SortedBy(a[..], key)
    ensures multiset(a[..]) == multiset(old(a[..]))
  {
    var i := 0;
    while i < a.Length
      invariant 0 <= i <= a.Length
      invariant SortedUpTo(a[..], i, key)
      invariant multiset(a[..]) == multiset(old(a[..]))
    {
      InsertLast(a, i, key);
      i := i + 1;
    }
  }

  /** One insertion step: moves `a[i]` left into the sorted prefix
      `a[..i]`, leaving `a[..i + 1]` sorted. */
  method InsertLast<T>(a: array<T>, i: nat, key: T -> real)
    requires i < a.Length && SortedUpTo(a[..], i, key)
    modifies a
    ensures SortedUpTo(a[..], i + 1, key)
    ensures multiset(a[..]) == multiset(old(a[..]))
  {
    var j: nat := i;
    while j > 0 && key(a[j - 1]) > key(a[j])
      invariant InsertingAt(a[..], i, j, key)
      invariant multiset(a[..]) == multiset(old(a[..]))
    {
      SwapDown(a[..], i, j, key);
      a[j - 1], a[j] := a[j], a[j - 1];
      j := j - 1;
    }
    InsertDone(a[..], i, j, key);
  }

  /** The sorted copy of `s` that the components render. */
  method SortedCopy<T>(s: seq<T>, key: T -> real) returns (r: seq<T>)
    ensures SortedBy(r, key)
    ensures multiset(r) == multiset(s)
    ensures |r| == |s|
  {
    var a := new T[|s|](i requires 0 <= i < |s| => s[i]);
    assert a[..] == s;
    SortByKey(a, key);
    r := a[..];
    assert |r| == |multiset(r)| == |multiset(s)| == |s|;
  }
}
