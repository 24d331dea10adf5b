/** Shared vocabulary for the whole model: optional values, results, and the
    Python sequence and string operations the backend leans on — slices whose
    bounds clamp to the length, substring search, ASCII lower-casing,
    whitespace stripping, filtering and Python's stable sort. */
module Util {

  /** `None` stands for Python's `None`. */
  datatype Option<+T> = None | Some(value: T) {
    /** The wrapped value, or `default` for `None` (Python's `x or default` on optionals). */
    function GetOr(default: T): T {
      if Some? then value else default
    }
  }

  /** Outcome of an operation that the source can raise from. */
  datatype Result<+T, +E> = Ok(value: T) | Err(error: E) {
    predicate IsFailure() { Err? }
  }

  /** Python truthiness of an optional string: both `None` and `""` are false. */
  predicate Truthy(o: Option<string>) {
    o.Some? && o.value != ""
  }

  function Min(a: int, b: int): int { if a <= b then a else b }

  function Max(a: int, b: int): int { if a <= b then b else a }

  // ---------------------------------------------------------------- slicing

  /** Python `s[:n]` for a non-negative `n`. */
  function Take<T>(s: seq<T>, n: nat): (r: seq<T>)
    ensures |r| == Min(n, |s|)
    ensures r == s[..|r|]
  {
    if n < |s| then s[..n] else s
  }

  /** Python `s[a:b]` for non-negative bounds: both bounds clamp to the
      length and the slice is empty when `b <= a`. */
  function Slice<T>(s: seq<T>, a: nat, b: nat): (r: seq<T>)
    ensures |r| == Max(0, Min(b, |s|) - Min(a, |s|))
    ensures forall i :: 0 <= i < |r| ==> a + i < |s| && r[i] == s[a + i]
  {
    var lo := Min(a, |s|);
    var hi := Min(b, |s|);
    if lo < hi then s[lo..hi] else []
  }

  /** Two adjacent windows make up the window spanning both. */
  lemma SliceJoin<T>(s: seq<T>, lo: nat, mid: nat, hi: nat)
    requires lo <= mid <= hi
    ensures Slice(s, lo, mid) + Slice(s, mid, hi) == Slice(s, lo, hi)
  {
    var p, q, pq := Slice(s, lo, mid), Slice(s, mid, hi), Slice(s, lo, hi);
    assert |p + q| == |pq|;
    forall i | 0 <= i < |pq|
      ensures (p + q)[i] == pq[i]
    {
      if i >= |p| {
        assert (p + q)[i] == q[i - |p|];
      }
    }
  }

  /** The parts of `[x] + mid + tail` can be read back off it. */
  lemma Bracketed<T>(x: T, mid: seq<T>, tail: seq<T>)
    ensures var s := [x] + mid + tail;
      |s| == 1 + |mid| + |tail| && s[0] == x && s[1..1 + |mid|] == mid && s[1 + |mid|..] == tail
  {
    var s := [x] + mid + tail;
    assert s[1..1 + |mid|] == mid;
    assert s[1 + |mid|..] == tail;
  }

  /** Adjacent slices concatenate. */
  lemma SliceConcat<T>(s: seq<T>, a: nat, m: nat, b: nat)
    requires a <= m <= b
    ensures Slice(s, a, m) + Slice(s, m, b) == Slice(s, a, b)
  {
    var p, q, pq := Slice(s, a, m), Slice(s, m, b), Slice(s, a, b);
    assert |p| + |q| == |pq|;
    forall i | 0 <= i < |pq|
      ensures (p + q)[i] == pq[i]
    {
      if i < |p| {
        assert (p + q)[i] == p[i];
      } else {
        assert (p + q)[i] == q[i - |p|];
      }
    }
  }

  /** Python `s[-n:]` for a positive `n`: the last `n` elements, or all of
      them when there are fewer. */
  function Last<T>(s: seq<T>, n: nat): (r: seq<T>)
    requires n > 0
    ensures |r| == Min(n, |s|)
    ensures r == s[|s| - |r|..]
  {
    if n < |s| then s[|s| - n..] else s
  }

  /** Python `s[-k:]` for any integer `k`. A zero `k` is `s[0:]`, the whole
      sequence; a negative `k` drops the first `-k` elements. */
  function NegSlice<T>(s: seq<T>, k: int): (r: seq<T>)
    ensures k > 0 ==> r == Last(s, k)
    ensures k == 0 ==> r == s
    ensures k < 0 ==> r == s[Min(-k, |s|)..]
  {
    if k > 0 then Last(s, k) else if k == 0 then s else s[Min(-k, |s|)..]
  }

  // ------------------------------------------------------------- searching

  /** The three parts of `head + mid + tail` can be read back. */
  lemma Framed<T>(head: seq<T>, mid: seq<T>, tail: seq<T>)
    ensures var s := head + mid + tail;
      |s| == |head| + |mid| + |tail| && StartsWith(s, head) && EndsWith(s, tail)
      && s[|head|..|s| - |tail|] == mid
  {
    var s := head + mid + tail;
    assert s[..|head|] == head;
    assert s[|s| - |tail|..] == tail;
    assert s[|head|..|s| - |tail|] == mid;
  }

  predicate StartsWith<T(==)>(s: seq<T>, p: seq<T>) {
    |p| <= |s| && s[..|p|] == p
  }

  predicate EndsWith<T(==)>(s: seq<T>, p: seq<T>) {
    |p| <= |s| && s[|s| - |p|..] == p
  }

  /** Python `p in s` on strings and lists of characters: `p` occurs as a
      contiguous block. */
  predicate Contains<T(==)>(s: seq<T>, p: seq<T>) {
    exists i :: 0 <= i <= |s| && StartsWith(s[i..], p)
  }

  /** A block of `x` is a block of any text `x` is embedded in. */
  lemma ContainsInfix<T>(a: seq<T>, x: seq<T>, b: seq<T>, p: seq<T>)
    requires Contains(x, p)
    ensures Contains(a + x + b, p)
  {
    var i :| 0 <= i <= |x| && StartsWith(x[i..], p);
    var s := a + x + b;
    assert s[|a| + i..][..|p|] == x[i..][..|p|];
  }

  /** First position at or after `k` where `p` occurs. */
  function IndexFrom<T(==)>(s: seq<T>, p: seq<T>, k: nat): (r: Option<nat>)
    requires k <= |s|
    ensures r.Some? ==> k <= r.value <= |s| && StartsWith(s[r.value..], p)
    ensures r.Some? ==> forall j :: k <= j < r.value ==> !StartsWith(s[j..], p)
    ensures r.None? ==> forall j :: k <= j <= |s| ==> !StartsWith(s[j..], p)
    decreases |s| - k
  {
    if StartsWith(s[k..], p) then Some(k)
    else if k == |s| then None
    else IndexFrom(s, p, k + 1)
  }

  /** Python `s.index(p)` / `s.find(p)`: the first occurrence, `None` when
      there is none. */
  function IndexOf<T(==)>(s: seq<T>, p: seq<T>): (r: Option<nat>)
    ensures r.Some? <==> Contains(s, p)
    ensures r.Some? ==> r.value + |p| <= |s| && StartsWith(s[r.value..], p)
    ensures r.Some? ==> forall j :: 0 <= j < r.value ==> !StartsWith(s[j..], p)
  {
    IndexFrom(s, p, 0)
  }

  /** Python `any(k in s for k in keys)`. */
  predicate ContainsAny(s: string, keys: seq<string>) {
    exists k :: k in keys && Contains(s, k)
  }

  // ------------------------------------------------------------ characters

  function LowerChar(c: char): char {
    if 'A' <= c <= 'Z' then (c as int + 32) as char else c
  }

  function UpperChar(c: char): char {
    if 'a' <= c <= 'z' then (c as int - 32) as char else c
  }

  predicate IsAsciiLetter(c: char) {
    'a' <= c <= 'z' || 'A' <= c <= 'Z'
  }

  /** Python `s.lower()` restricted to ASCII letters. */
  function Lower(s: string): (r: string)
    ensures |r| == |s|
    ensures forall i :: 0 <= i < |s| ==> r[i] == LowerChar(s[i])
  {
    seq(|s|, i requires 0 <= i < |s| => LowerChar(s[i]))
  }

  /** Text without capitals is its own lower case. */
  lemma LowerOfLowerCase(s: string)
    requires forall i :: 0 <= i < |s| ==> !('A' <= s[i] <= 'Z')
    ensures Lower(s) == s
  {
  }

  /** The whitespace characters of Python's `str.strip()` in the ASCII range. */
  predicate IsSpace(c: char) {
    c == ' ' || c == '\t' || c == '\n' || c == '\r' || c == '\U{000B}' || c == '\U{000C}'
  }

  function TrimLeft(s: string): (r: string)
    ensures |r| <= |s| && r == s[|s| - |r|..]
    ensures forall i :: 0 <= i < |s| - |r| ==> IsSpace(s[i])
    ensures |r| > 0 ==> !IsSpace(r[0])
  {
    if |s| > 0 && IsSpace(s[0]) then TrimLeft(s[1..]) else s
  }

  function TrimRight(s: string): (r: string)
    ensures |r| <= |s| && r == s[..|r|]
    ensures forall i :: |r| <= i < |s| ==> IsSpace(s[i])
    ensures |r| > 0 ==> !IsSpace(r[|r| - 1])
  {
    if |s| > 0 && IsSpace(s[|s| - 1]) then TrimRight(s[..|s| - 1]) else s
  }

  /** Python `s.strip()`. */
  function Strip(s: string): (r: string)
    ensures |r| <= |s|
    ensures |r| > 0 ==> !IsSpace(r[0]) && !IsSpace(r[|r| - 1])
  {
    TrimRight(TrimLeft(s))
  }

  predicate IsBlank(s: string) {
    forall i :: 0 <= i < |s| ==> IsSpace(s[i])
  }

  /** Python's `not s.strip()`: stripping leaves nothing exactly when every
      character is whitespace. */
  lemma StripEmptyIffBlank(s: string)
    ensures Strip(s) == "" <==> IsBlank(s)
  {
    var l := TrimLeft(s);
    if Strip(s) != "" {
      var r := Strip(s);
      assert r == l[..|r|];
      assert s[|s| - |l|] == r[0];
    }
  }

  /** Python `sep.join(parts)`. */
  function Join(parts: seq<string>, sep: string): (r: string)
    ensures |parts| == 0 ==> r == ""
    ensures |parts| == 1 ==> r == parts[0]
    decreases |parts|
  {
    if |parts| == 0 then ""
    else if |parts| == 1 then parts[0]
    else parts[0] + sep + Join(parts[1..], sep)
  }

  /** Joining two or more parts puts the separator after the first. */
  lemma JoinCons(parts: seq<string>, sep: string)
    requires |parts| > 1
    ensures Join(parts, sep) == parts[0] + (sep + Join(parts[1..], sep))
  {
    Associative(parts[0], sep, Join(parts[1..], sep));
  }

  lemma Associative<T>(a: seq<T>, b: seq<T>, c: seq<T>)
    ensures a + b + c == a + (b + c)
  {
  }

  /** Python `str(n)` for a natural number: its decimal digits. */
  function NatToString(n: nat): (r: string)
    ensures |r| >= 1
    ensures forall i :: 0 <= i < |r| ==> '0' <= r[i] <= '9'
  {
    if n < 10 then ["0123456789"[n]]
    else NatToString(n / 10) + ["0123456789"[n % 10]]
  }

  /** Python `str(i)` for any integer: a minus sign before a negative one. */
  function IntToString(i: int): (r: string)
    ensures i >= 0 ==> r == NatToString(i)
    ensures i < 0 ==> r == "-" + NatToString(-i)
  {
    if i < 0 then "-" + NatToString(-i) else NatToString(i)
  }

  // -------------------------------------------------------------- filtering

  /** Python `[x for x in s if p(x)]`. */
  function Filter<T>(s: seq<T>, p: T -> bool): (r: seq<T>)
    ensures |r| <= |s|
    ensures forall i :: 0 <= i < |r| ==> p(r[i])
    ensures multiset(r) <= multiset(s)
  {
    if |s| == 0 then []
    else
      assert s == [s[0]] + s[1..];
      (if p(s[0]) then [s[0]] else []) + Filter(s[1..], p)
  }

  lemma FilterMembership<T>(s: seq<T>, p: T -> bool, x: T)
    ensures x in Filter(s, p) <==> x in s && p(x)
  {
    if |s| > 0 {
      FilterMembership(s[1..], p, x);
      assert s == [s[0]] + s[1..];
    }
  }

  lemma FilterCons<T>(s: seq<T>, p: T -> bool)
    requires |s| > 0
    ensures Filter(s, p) == (if p(s[0]) then [s[0]] else []) + Filter(s[1..], p)
  {
  }

  lemma FilterMembershipAll<T>(s: seq<T>, p: T -> bool)
    ensures forall x :: x in Filter(s, p) <==> x in s && p(x)
  {
    forall x ensures x in Filter(s, p) <==> x in s && p(x) {
      FilterMembership(s, p, x);
    }
  }

  lemma FilterConcat<T>(a: seq<T>, b: seq<T>, p: T -> bool)
    ensures Filter(a + b, p) == Filter(a, p) + Filter(b, p)
  {
    if |a| > 0 {
      assert (a + b)[1..] == a[1..] + b;
      FilterConcat(a[1..], b, p);
    } else {
      assert a + b == b;
    }
  }

  /** Filtering by a predicate every element already satisfies changes nothing. */
  lemma FilterKeepsAll<T>(s: seq<T>, p: T -> bool)
    requires forall i :: 0 <= i < |s| ==> p(s[i])
    ensures Filter(s, p) == s
  {
    if |s| > 0 {
      FilterKeepsAll(s[1..], p);
      assert s == [s[0]] + s[1..];
    }
  }

  /** Filtering by a predicate no element satisfies leaves nothing. */
  lemma FilterKeepsNone<T>(s: seq<T>, p: T -> bool)
    requires forall i :: 0 <= i < |s| ==> !p(s[i])
    ensures Filter(s, p) == []
  {
    if |s| > 0 {
      FilterKeepsNone(s[1..], p);
    }
  }

  /** Python `sum(1 for x in s if p(x))`. */
  function CountWhere<T>(s: seq<T>, p: T -> bool): (n: nat)
    ensures n <= |s|
  {
    if |s| == 0 then 0
    else (if p(s[0]) then 1 else 0) + CountWhere(s[1..], p)
  }

  lemma CountIsFilterLength<T>(s: seq<T>, p: T -> bool)
    ensures CountWhere(s, p) == |Filter(s, p)|
  {
    if |s| > 0 {
      CountIsFilterLength(s[1..], p);
    }
  }

  /** Counting distributes over concatenation. */
  lemma CountWhereConcat<T>(a: seq<T>, b: seq<T>, p: T -> bool)
    ensures CountWhere(a + b, p) == CountWhere(a, p) + CountWhere(b, p)
  {
    CountIsFilterLength(a + b, p);
    CountIsFilterLength(a, p);
    CountIsFilterLength(b, p);
    FilterConcat(a, b, p);
  }

  lemma CountWhere3<T>(a: seq<T>, b: seq<T>, c: seq<T>, p: T -> bool)
    ensures CountWhere(a + b + c, p) == CountWhere(a, p) + CountWhere(b, p) + CountWhere(c, p)
  {
    CountWhereConcat(a, b, p);
    CountWhereConcat(a + b, c, p);
  }

  lemma CountWhereAll<T>(s: seq<T>, p: T -> bool)
    requires forall i :: 0 <= i < |s| ==> p(s[i])
    ensures CountWhere(s, p) == |s|
  {
    CountIsFilterLength(s, p);
    FilterKeepsAll(s, p);
  }

  lemma CountWhereNone<T>(s: seq<T>, p: T -> bool)
    requires forall i :: 0 <= i < |s| ==> !p(s[i])
    ensures CountWhere(s, p) == 0
  {
    CountIsFilterLength(s, p);
    FilterKeepsNone(s, p);
  }

  /** The conjunction of two tests. */
  function Both<T>(p: T -> bool, q: T -> bool): T -> bool {
    x => p(x) && q(x)
  }

  /** Filtering twice is filtering once by the conjunction. */
  lemma FilterFilter<T>(s: seq<T>, p: T -> bool, q: T -> bool)
    ensures Filter(Filter(s, p), q) == Filter(s, Both(p, q))
  {
    if |s| > 0 {
      FilterFilter(s[1..], p, q);
      var fp := Filter(s, p);
      if p(s[0]) {
        assert fp == [s[0]] + Filter(s[1..], p);
        assert fp[0] == s[0] && fp[1..] == Filter(s[1..], p);
        FilterCons(fp, q);
      } else {
        assert fp == Filter(s[1..], p);
      }
    }
  }

  /** Four filters in a row are one filter by the conjunction. */
  lemma FilterFour<T>(s: seq<T>, a: T -> bool, b: T -> bool, c: T -> bool, d: T -> bool)
    ensures Filter(Filter(Filter(Filter(s, a), b), c), d) == Filter(s, Both(Both(Both(a, b), c), d))
  {
    FilterFilter(s, a, b);
    FilterFilter(s, Both(a, b), c);
    FilterFilter(s, Both(Both(a, b), c), d);
  }

  /** What survives four filters in a row comes from `s` and passes each. */
  lemma FilterFourSound<T>(s: seq<T>, a: T -> bool, b: T -> bool, c: T -> bool, d: T -> bool, x: T)
    requires x in Filter(Filter(Filter(Filter(s, a), b), c), d)
    ensures x in s && a(x) && b(x) && c(x) && d(x)
  {
    FilterMembership(Filter(Filter(Filter(s, a), b), c), d, x);
    FilterMembership(Filter(Filter(s, a), b), c, x);
    FilterMembership(Filter(s, a), b, x);
    FilterMembership(s, a, x);
  }

  /** Two predicates that agree on every element filter alike. */
  lemma FilterCongruent<T>(s: seq<T>, p: T -> bool, q: T -> bool)
    requires forall i :: 0 <= i < |s| ==> p(s[i]) == q(s[i])
    ensures Filter(s, p) == Filter(s, q)
  {
    if |s| > 0 {
      FilterCongruent(s[1..], p, q);
    }
  }

  /** Python `s[:k]` for any integer `k`: a negative `k` drops the last
      `-k` elements. */
  function Prefix<T>(s: seq<T>, k: int): (r: seq<T>)
    ensures k >= 0 ==> |r| == Min(k, |s|)
    ensures k < 0 ==> |r| == Max(0, |s| + k)
    ensures r == s[..|r|]
  {
    if k >= 0 then Take(s, k) else s[..Max(0, |s| + k)]
  }

  /** No element occurs twice. */
  predicate Distinct<T(==)>(s: seq<T>) {
    forall i, j :: 0 <= i < j < |s| ==> s[i] != s[j]
  }

  /** Python `list.remove(x)`: drop the first occurrence of `x`. */
  function RemoveFirst<T(==)>(s: seq<T>, x: T): (r: seq<T>)
    ensures x in s ==> |r| == |s| - 1
    ensures x !in s ==> r == s
    ensures multiset(r) == multiset(s) - multiset{x}
  {
    if |s| == 0 then []
    else
      assert s == [s[0]] + s[1..];
      if s[0] == x then s[1..] else [s[0]] + RemoveFirst(s[1..], x)
  }

  // ---------------------------------------------------------- stable sort

  /** `s` is in non-decreasing order of `rank`. */
  predicate SortedBy<T>(s: seq<T>, rank: T -> int) {
    forall i, j :: 0 <= i < j < |s| ==> rank(s[i]) <= rank(s[j])
  }

  /** The elements of `s` whose rank is `k`, in their order in `s`. */
  function RankRun<T>(s: seq<T>, rank: T -> int, k: int): seq<T> {
    if |s| == 0 then []
    else (if rank(s[0]) == k then [s[0]] else []) + RankRun(s[1..], rank, k)
  }

  /** Insert `x` after every element whose rank is at most `rank(x)`. */
  function InsertByRank<T>(r: seq<T>, x: T, rank: T -> int): (o: seq<T>)
    requires SortedBy(r, rank)
    ensures |o| == |r| + 1
    ensures multiset(o) == multiset(r) + multiset{x}
    ensures rank(o[0]) == if |r| == 0 then rank(x) else Min(rank(x), rank(r[0]))
    ensures SortedBy(o, rank)
  {
    if |r| == 0 then [x]
    else if rank(x) < rank(r[0]) then [x] + r
    else
      assert r == [r[0]] + r[1..];
      [r[0]] + InsertByRank(r[1..], x, rank)
  }

  lemma RankRunConcat<T>(a: seq<T>, b: seq<T>, rank: T -> int, k: int)
    ensures RankRun(a + b, rank, k) == RankRun(a, rank, k) + RankRun(b, rank, k)
  {
    if |a| > 0 {
      assert (a + b)[1..] == a[1..] + b;
      RankRunConcat(a[1..], b, rank, k);
    } else {
      assert a + b == b;
    }
  }

  /** Inserting `x` keeps the order of equal-rank elements and puts `x` last
      among its own rank. */
  lemma {:induction false} InsertKeepsRuns<T>(r: seq<T>, x: T, rank: T -> int, k: int)
    requires SortedBy(r, rank)
    ensures RankRun(InsertByRank(r, x, rank), rank, k)
         == RankRun(r, rank, k) + (if rank(x) == k then [x] else [])
    decreases |r|, 1
  {
    var single := if rank(x) == k then [x] else [];
    assert RankRun([x], rank, k) == single;
    if |r| == 0 {
      assert InsertByRank(r, x, rank) == [x];
    } else if rank(x) < rank(r[0]) {
      assert InsertByRank(r, x, rank) == [x] + r;
      RankRunConcat([x], r, rank, k);
      if rank(x) == k {
        RunEmptyAbove(r, rank, k);
      }
    } else {
      InsertAfterHead(r, x, rank, k);
    }
  }

  lemma {:induction false} InsertAfterHead<T>(r: seq<T>, x: T, rank: T -> int, k: int)
    requires SortedBy(r, rank)
    requires |r| > 0 && rank(r[0]) <= rank(x)
    ensures RankRun(InsertByRank(r, x, rank), rank, k)
         == RankRun(r, rank, k) + (if rank(x) == k then [x] else [])
    decreases |r|, 0
  {
    var rest := r[1..];
    assert SortedBy(rest, rank);
    var tail := InsertByRank(rest, x, rank);
    assert InsertByRank(r, x, rank) == [r[0]] + tail;
    InsertKeepsRuns(rest, x, rank, k);
    RankRunConcat([r[0]], tail, rank, k);
    assert r == [r[0]] + rest;
    RankRunConcat([r[0]], rest, rank, k);
  }

  /** In a sorted sequence whose first rank exceeds `k` nothing has rank `k`. */
  lemma {:induction false} RunEmptyAbove<T>(r: seq<T>, rank: T -> int, k: int)
    requires SortedBy(r, rank)
    requires |r| > 0 ==> k < rank(r[0])
    ensures RankRun(r, rank, k) == []
  {
    if |r| > 0 {
      assert SortedBy(r[1..], rank);
      RunEmptyAbove(r[1..], rank, k);
    }
  }

  /** Python `sorted(s, key=rank)`: a stable ascending sort. A descending
      sort (`reverse=True`, which Python also keeps stable) is this sort on
      the negated key. */
  function SortByRank<T>(s: seq<T>, rank: T -> int): (r: seq<T>)
    ensures |r| == |s|
    ensures multiset(r) == multiset(s)
    ensures SortedBy(r, rank)
  {
    if |s| == 0 then []
    else
      assert s == s[..|s| - 1] + [s[|s| - 1]];
      InsertByRank(SortByRank(s[..|s| - 1], rank), s[|s| - 1], rank)
  }

  /** Stability: for every rank, the elements of that rank appear in the
      sorted output in the same order as in the input. */
  lemma {:induction false} SortIsStable<T>(s: seq<T>, rank: T -> int, k: int)
    ensures RankRun(SortByRank(s, rank), rank, k) == RankRun(s, rank, k)
  {
    if |s| > 0 {
      var init := s[..|s| - 1];
      var x := s[|s| - 1];
      var sorted := SortByRank(init, rank);
      var single := RankRun([x], rank, k);
      calc {
        RankRun(SortByRank(s, rank), rank, k);
        { SortByRankSnoc(s, rank); }
        RankRun(InsertByRank(sorted, x, rank), rank, k);
        { InsertKeepsRuns(sorted, x, rank, k); SingleRun(x, rank, k); }
        RankRun(sorted, rank, k) + single;
        { SortIsStable(init, rank, k); }
        RankRun(init, rank, k) + single;
        { assert s == init + [x]; RankRunConcat(init, [x], rank, k); }
        RankRun(s, rank, k);
      }
    }
  }

  /** `s` is `all` sorted the way Python's stable sort orders it: the same
      elements, in non-decreasing `rank`, and elements of equal rank in
      their order in `all`. */
  ghost predicate StableSortOf<T>(s: seq<T>, all: seq<T>, rank: T -> int) {
    multiset(s) == multiset(all) && SortedBy(s, rank)
    && forall k :: RankRun(s, rank, k) == RankRun(all, rank, k)
  }

  /** `page` is the window `[a:b]` of `all` stably sorted by `rank`. */
  ghost predicate SortedWindow<T(!new)>(page: seq<T>, all: seq<T>, rank: T -> int, a: nat, b: nat) {
    exists s :: StableSortOf(s, all, rank) && page == Slice(s, a, b)
  }

  lemma SortByRankIsStableSort<T>(all: seq<T>, rank: T -> int)
    ensures StableSortOf(SortByRank(all, rank), all, rank)
  {
    forall k ensures RankRun(SortByRank(all, rank), rank, k) == RankRun(all, rank, k) {
      SortIsStable(all, rank, k);
    }
  }

  lemma SortByRankWindow<T(!new)>(all: seq<T>, rank: T -> int, a: nat, b: nat)
    ensures SortedWindow(Slice(SortByRank(all, rank), a, b), all, rank, a, b)
  {
    SortByRankIsStableSort(all, rank);
  }

  lemma SortByRankSnoc<T>(s: seq<T>, rank: T -> int)
    requires |s| > 0
    ensures SortByRank(s, rank) == InsertByRank(SortByRank(s[..|s| - 1], rank), s[|s| - 1], rank)
  {
  }

  lemma SingleRun<T>(x: T, rank: T -> int, k: int)
    ensures RankRun([x], rank, k) == if rank(x) == k then [x] else []
  {
    assert [x][1..] == [];
  }

  /** A slice of a sorted sequence is sorted and draws on its elements. */
  lemma SliceOfSorted<T>(s: seq<T>, rank: T -> int, a: nat, b: nat)
    requires SortedBy(s, rank)
    ensures SortedBy(Slice(s, a, b), rank)
    ensures multiset(Slice(s, a, b)) <= multiset(s)
  {
    var lo := Min(a, |s|);
    var hi := Min(b, |s|);
    if lo < hi {
      var t := s[lo..hi];
      assert Slice(s, a, b) == t;
      assert SortedBy(t, rank) by {
        forall i, j | 0 <= i < j < |t| ensures rank(t[i]) <= rank(t[j]) {
          assert t[i] == s[lo + i] && t[j] == s[lo + j];
        }
      }
      SubrangeMultiset(s, lo, hi);
    }
  }

  lemma SubrangeMultiset<T>(s: seq<T>, lo: nat, hi: nat)
    requires lo <= hi <= |s|
    ensures multiset(s[lo..hi]) <= multiset(s)
  {
    assert s == s[..lo] + s[lo..hi] + s[hi..];
  }
}
