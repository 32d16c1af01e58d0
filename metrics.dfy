/** The in-process metrics aggregator (`MetricsService`): request counters,
    latency lists, the capped list of the five slowest requests, and the
    percentile, Apdex, cache-hit-ratio and error-rate queries over them.

    Durations are integral milliseconds and ratios are reals. The clock
    (`Date.now()` for the throughput window) is the `now` argument of the
    constructor and of `Reset`; CPU and memory sampling are not modelled. */
module Metrics {

  datatype SlowRequest = SlowRequest(path: string, time: int)

  /** Only requests slower than this many milliseconds enter the slowest list. */
  const SlowThreshold := 100
  /** The slowest list keeps at most this many entries. */
  const SlowestCapacity := 5

  // ------------------------------------------------------------- counting

  function Sum(s: seq<int>): int
  {
    if s == [] then 0 else Sum(s[..|s| - 1]) + s[|s| - 1]
  }

  /** `xs.filter(d => d <= v).length` */
  function CountAtMost(xs: seq<int>, v: int): (c: nat)
    ensures c <= |xs|
  {
    if xs == [] then 0 else (if xs[0] <= v then 1 else 0) + CountAtMost(xs[1..], v)
  }

  /** `xs.filter(d => d > v).length` */
  function CountAbove(xs: seq<int>, v: int): (c: nat)
    ensures c <= |xs|
  {
    if xs == [] then 0 else (if xs[0] > v then 1 else 0) + CountAbove(xs[1..], v)
  }

  /** The number of elements strictly below v. */
  function CountBelow(xs: seq<int>, v: int): (c: nat)
    ensures c <= |xs|
  {
    if xs == [] then 0 else (if xs[0] < v then 1 else 0) + CountBelow(xs[1..], v)
  }

  // ------------------------------------------------ the ascending sorted copy

  predicate SortedAsc(s: seq<int>)
  {
    forall i, j :: 0 <= i < j < |s| ==> s[i] <= s[j]
  }

  function InsertAsc(s: seq<int>, x: int): (r: seq<int>)
    requires SortedAsc(s)
    ensures SortedAsc(r) && |r| == |s| + 1
    ensures multiset(r) == multiset(s) + multiset{x}
  {
    if s == [] then [x]
    else if x <= s[0] then
      assert ([x] + s)[1..] == s;
      [x] + s
    else
      var rest := InsertAsc(s[1..], x);
      InsertAscCons(s, x, rest);
      [s[0]] + rest
  }

  /** The recursive case of InsertAsc: the head of s stays in front. */
  lemma InsertAscCons(s: seq<int>, x: int, rest: seq<int>)
    requires SortedAsc(s) && s != [] && s[0] < x
    requires SortedAsc(rest) && multiset(rest) == multiset(s[1..]) + multiset{x}
    ensures SortedAsc([s[0]] + rest)
    ensures multiset([s[0]] + rest) == multiset(s) + multiset{x}
  {
    assert s == [s[0]] + s[1..];
    forall k | 0 <= k < |rest| ensures s[0] <= rest[k] {
      assert rest[k] in multiset(rest);
      if rest[k] != x {
        assert rest[k] in multiset(s[1..]);
      }
    }
  }

  /** `[...xs].sort((a, b) => a - b)`: ascending, same elements. */
  function SortAsc(s: seq<int>): (r: seq<int>)
    ensures SortedAsc(r) && |r| == |s| && multiset(r) == multiset(s)
  {
    if s == [] then []
    else
      assert s == s[..|s| - 1] + [s[|s| - 1]];
      InsertAsc(SortAsc(s[..|s| - 1]), s[|s| - 1])
  }

  lemma {:induction false} CountsOfConcat(a: seq<int>, b: seq<int>, v: int)
    ensures CountAtMost(a + b, v) == CountAtMost(a, v) + CountAtMost(b, v)
    ensures CountBelow(a + b, v) == CountBelow(a, v) + CountBelow(b, v)
  {
    if a != [] {
      assert (a + b)[0] == a[0];
      assert (a + b)[1..] == a[1..] + b;
      CountsOfConcat(a[1..], b, v);
    } else {
      assert a + b == b;
    }
  }

  /** Reordering a list does not change how many elements lie at most, or
      below, v. */
  lemma {:induction false} CountsOfPermutation(a: seq<int>, b: seq<int>, v: int)
    requires multiset(a) == multiset(b)
    ensures CountAtMost(a, v) == CountAtMost(b, v)
    ensures CountBelow(a, v) == CountBelow(b, v)
    decreases |a|
  {
    if a == [] {
      assert |multiset(b)| == 0;
    } else {
      var j := MatchHead(a, b);
      CountsOfPermutation(a[1..], b[..j] + b[j + 1..], v);
      CountsRemove(b, j, v);
    }
  }

  /** The head of a list sits somewhere in any reordering of it, and the
      rest of the list is a reordering of what is left there. */
  lemma MatchHead(a: seq<int>, b: seq<int>) returns (j: nat)
    requires a != [] && multiset(a) == multiset(b)
    ensures j < |b| && b[j] == a[0]
    ensures multiset(a[1..]) == multiset(b[..j] + b[j + 1..])
  {
    assert a[0] in multiset(b) by {
      assert a[0] in a;
    }
    j :| 0 <= j < |b| && b[j] == a[0];
    MultisetRemove(b, j);
    MultisetTail(a);
  }

  lemma MultisetTail(a: seq<int>)
    requires a != []
    ensures multiset(a[1..]) == multiset(a) - multiset{a[0]}
  {
    assert a == [a[0]] + a[1..];
  }

  /** Removing the element at index j from a list removes it from its bag. */
  lemma MultisetRemove(b: seq<int>, j: nat)
    requires j < |b|
    ensures multiset(b[..j] + b[j + 1..]) == multiset(b) - multiset{b[j]}
  {
    assert b == b[..j] + [b[j]] + b[j + 1..];
    assert multiset(b) == multiset(b[..j]) + multiset{b[j]} + multiset(b[j + 1..]);
  }

  /** Removing the element at index j takes it out of the counts. */
  lemma CountsRemove(b: seq<int>, j: nat, v: int)
    requires j < |b|
    ensures CountAtMost(b, v) == CountAtMost(b[..j] + b[j + 1..], v) + (if b[j] <= v then 1 else 0)
    ensures CountBelow(b, v) == CountBelow(b[..j] + b[j + 1..], v) + (if b[j] < v then 1 else 0)
  {
    var tail := [b[j]] + b[j + 1..];
    assert b == b[..j] + tail;
    assert tail[1..] == b[j + 1..];
    CountsOfConcat(b[..j], tail, v);
    CountsOfConcat(b[..j], b[j + 1..], v);
  }

  /** Sorting does not change how many elements lie at most, or below, v. */
  lemma CountsOfSort(s: seq<int>, v: int)
    ensures CountAtMost(SortAsc(s), v) == CountAtMost(s, v)
    ensures CountBelow(SortAsc(s), v) == CountBelow(s, v)
  {
    CountsOfPermutation(SortAsc(s), s, v);
  }

  /** In an ascending list, the elements up to index i are at most s[i] and
      only elements before index i lie below it. */
  lemma {:induction false} RankInSorted(s: seq<int>, i: nat)
    requires SortedAsc(s) && i < |s|
    ensures CountAtMost(s, s[i]) >= i + 1
    ensures CountBelow(s, s[i]) <= i
  {
    if i > 0 {
      RankInSorted(s[1..], i - 1);
      assert s[1..][i - 1] == s[i];
    } else {
      assert CountBelow(s[1..], s[0]) == 0 by { NoneBelowFirst(s[1..], s[0]); }
    }
  }

  lemma {:induction false} NoneBelowFirst(s: seq<int>, v: int)
    requires forall k :: 0 <= k < |s| ==> v <= s[k]
    ensures CountBelow(s, v) == 0
  {
    if s != [] { NoneBelowFirst(s[1..], v); }
  }

  // ------------------------------------------------------------ percentiles

  /** `Math.ceil(a / b)` for a positive divisor. */
  function CeilDiv(a: int, b: int): (r: int)
    requires b > 0
    ensures (r - 1) * b < a <= r * b
  {
    -((-a) / b)
  }

  /** `Math.max(0, Math.ceil((p / 100) * n) - 1)`, computed exactly. */
  function PercentileIndex(p: int, n: nat): (i: nat)
    ensures 0 <= p <= 100 && n > 0 ==> i < n
  {
    var idx := CeilDiv(p * n, 100) - 1;
    ScaledBound(p, n);
    if idx < 0 then 0 else idx
  }

  lemma ScaledBound(p: int, n: nat)
    ensures 0 <= p <= 100 ==> p * n <= 100 * n
  {
  }

  /** Nearest-rank percentile: the element at PercentileIndex of the
      ascending sort, and 0 when that index is past the end (`|| 0`). For
      0 <= p <= 100 on a non-empty list the result is one of the samples,
      at least `rank` samples are at most it and fewer than `rank` lie below
      it, where `rank = max(1, ceil(p * n / 100))`. */
  function PercentileOf(xs: seq<int>, p: int): (r: int)
    ensures xs == [] ==> r == 0
    ensures 0 <= p <= 100 && xs != [] ==>
              && r in xs
              && CountAtMost(xs, r) >= PercentileIndex(p, |xs|) + 1
              && CountBelow(xs, r) <= PercentileIndex(p, |xs|)
  {
    var sorted := SortAsc(xs);
    var i := PercentileIndex(p, |xs|);
    if i < |sorted| then
      assert sorted[i] in multiset(xs) by { assert sorted[i] in multiset(sorted); }
      RankInSorted(sorted, i);
      CountsOfSort(xs, sorted[i]);
      sorted[i]
    else 0
  }

  lemma CeilDivMonotone(a: int, b: int, d: int)
    requires a <= b && d > 0
    ensures CeilDiv(a, d) <= CeilDiv(b, d)
  {
    var x, y := CeilDiv(a, d), CeilDiv(b, d);
    assert (x - 1) * d < y * d;
    MulCancel(x - 1, y, d);
  }

  lemma MulCancel(u: int, v: int, d: int)
    requires d > 0 && u * d < v * d
    ensures u < v
  {
    if u >= v {
      MulMonotoneInt(v, u, d);
    }
  }

  lemma MulMonotoneInt(a: int, b: int, c: int)
    requires a <= b && c >= 0
    ensures a * c <= b * c
  {
  }

  /** A higher percentile never reports a smaller latency. */
  lemma PercentileMonotone(xs: seq<int>, p: int, q: int)
    requires 0 <= p <= q <= 100
    ensures PercentileOf(xs, p) <= PercentileOf(xs, q)
  {
    if xs != [] {
      var n := |xs|;
      assert p * n <= q * n;
      CeilDivMonotone(p * n, q * n, 100);
      var sorted := SortAsc(xs);
      assert PercentileIndex(p, n) <= PercentileIndex(q, n);
    }
  }

  // ------------------------------------------------------------------ Apdex

  /** Apdex: `(satisfied + tolerated / 2) / max(1, n)` with satisfied the
      samples at most t, frustrated those above 4t and tolerated the rest. */
  function Apdex(b: seq<int>, t: int): (score: real)
    ensures 0.0 <= score <= 1.0
    ensures b == [] ==> score == 0.0
  {
    var sat := CountAtMost(b, t);
    var fru := CountAbove(b, t * 4);
    var tol := |b| - sat - fru;
    var n := if |b| < 1 then 1 else |b|;
    var num := sat as real + tol as real / 2.0;
    assert num == (|b| + sat - fru) as real / 2.0;
    RatioInUnit(num, n as real);
    num / n as real
  }

  /** A ratio of a part to a positive whole lies in [0, 1]. */
  lemma RatioInUnit(part: real, whole: real)
    requires 0.0 <= part <= whole && whole > 0.0
    ensures 0.0 <= part / whole <= 1.0
  {
    assert part / whole * whole == part;
  }

  lemma {:induction false} SatisfiedNotFrustrated(b: seq<int>, t: int)
    requires t >= 0
    ensures CountAtMost(b, t) + CountAbove(b, t * 4) <= |b|
  {
    if b != [] { SatisfiedNotFrustrated(b[1..], t); }
  }

  /** For a threshold t >= 0 the three Apdex classes partition the samples. */
  lemma ApdexPartition(b: seq<int>, t: int)
    requires t >= 0
    ensures var sat := CountAtMost(b, t);
            var fru := CountAbove(b, t * 4);
            var tol := |b| - sat - fru;
            sat >= 0 && fru >= 0 && tol >= 0 && sat + tol + fru == |b|
  {
    SatisfiedNotFrustrated(b, t);
  }

  lemma {:induction false} AllAtMost(b: seq<int>, t: int)
    requires t >= 0
    requires forall k :: 0 <= k < |b| ==> b[k] <= t
    ensures CountAtMost(b, t) == |b| && CountAbove(b, t * 4) == 0
  {
    if b != [] { AllAtMost(b[1..], t); }
  }

  /** When every sample is within a non-negative threshold the score is 1. */
  lemma ApdexAllSatisfied(b: seq<int>, t: int)
    requires t >= 0 && b != []
    requires forall k :: 0 <= k < |b| ==> b[k] <= t
    ensures Apdex(b, t) == 1.0
  {
    AllAtMost(b, t);
  }

  // ------------------------------------------------------ the slowest list

  predicate SortedDesc(s: seq<SlowRequest>)
  {
    forall i, j :: 0 <= i < j < |s| ==> s[i].time >= s[j].time
  }

  /** The durations of a list of entries, as a bag. */
  ghost function TimeBag(s: seq<SlowRequest>): multiset<int>
  {
    if s == [] then multiset{} else multiset{s[0].time} + TimeBag(s[1..])
  }

  lemma {:induction false} TimeBagConcat(a: seq<SlowRequest>, b: seq<SlowRequest>)
    ensures TimeBag(a + b) == TimeBag(a) + TimeBag(b)
  {
    if a != [] {
      assert (a + b)[0] == a[0];
      assert (a + b)[1..] == a[1..] + b;
      TimeBagConcat(a[1..], b);
    } else {
      assert a + b == b;
    }
  }

  lemma {:induction false} TimeBagSize(s: seq<SlowRequest>)
    ensures |TimeBag(s)| == |s|
  {
    if s != [] { TimeBagSize(s[1..]); }
  }

  /** Where a stable sort by descending time puts an entry appended to a
      list: after every entry at least as slow. */
  function InsertDesc(s: seq<SlowRequest>, e: SlowRequest): seq<SlowRequest>
  {
    if s == [] then [e]
    else if s[0].time >= e.time then [s[0]] + InsertDesc(s[1..], e)
    else [e] + s
  }

  /** `list.sort((a, b) => b.time - a.time)`: Array.prototype.sort is stable,
      which insertion from the left reproduces. */
  function StableSortDesc(s: seq<SlowRequest>): seq<SlowRequest>
  {
    if s == [] then [] else InsertDesc(StableSortDesc(s[..|s| - 1]), s[|s| - 1])
  }

  /** An insertion adds the entry and keeps every other one. */
  lemma {:induction false} InsertDescElements(s: seq<SlowRequest>, e: SlowRequest)
    ensures var r := InsertDesc(s, e);
            && |r| == |s| + 1
            && (forall k :: 0 <= k < |r| ==> r[k] == e || r[k] in s)
            && TimeBag(r) == TimeBag(s) + multiset{e.time}
  {
    if s != [] && s[0].time >= e.time {
      InsertDescElements(s[1..], e);
      assert ([s[0]] + InsertDesc(s[1..], e))[1..] == InsertDesc(s[1..], e);
    } else if s != [] {
      assert ([e] + s)[1..] == s;
    }
  }

  lemma {:induction false} InsertDescSorted(s: seq<SlowRequest>, e: SlowRequest)
    requires SortedDesc(s)
    ensures SortedDesc(InsertDesc(s, e))
  {
    if s != [] && s[0].time >= e.time {
      var rest := InsertDesc(s[1..], e);
      InsertDescSorted(s[1..], e);
      HeadBoundsInsert(s, e);
      var r := [s[0]] + rest;
      forall i, j | 0 <= i < j < |r| ensures r[i].time >= r[j].time {
        assert r[j] == rest[j - 1];
        if i > 0 { assert r[i] == rest[i - 1]; }
      }
    } else if s != [] {
      var r := [e] + s;
      forall i, j | 0 <= i < j < |r| ensures r[i].time >= r[j].time {
        assert r[j] == s[j - 1];
        if i > 0 { assert r[i] == s[i - 1]; }
      }
    }
  }

  /** The head of a sorted list is at least as slow as everything the
      insertion into its tail holds, when it is at least as slow as e. */
  lemma HeadBoundsInsert(s: seq<SlowRequest>, e: SlowRequest)
    requires SortedDesc(s) && s != [] && s[0].time >= e.time
    ensures forall k :: 0 <= k < |InsertDesc(s[1..], e)| ==> InsertDesc(s[1..], e)[k].time <= s[0].time
  {
    var rest := InsertDesc(s[1..], e);
    InsertDescElements(s[1..], e);
    forall k | 0 <= k < |rest| ensures rest[k].time <= s[0].time {
      if rest[k] != e {
        var j :| 0 <= j < |s[1..]| && s[1..][j] == rest[k];
        assert s[1..][j] == s[j + 1];
      }
    }
  }

  /** Each position of an insertion is at least as slow as before. */
  lemma {:induction false} InsertDescDominates(s: seq<SlowRequest>, e: SlowRequest)
    requires SortedDesc(s)
    ensures |InsertDesc(s, e)| == |s| + 1
    ensures forall k :: 0 <= k < |s| ==> InsertDesc(s, e)[k].time >= s[k].time
  {
    InsertDescElements(s, e);
    var r := InsertDesc(s, e);
    if s != [] && s[0].time >= e.time {
      InsertDescDominates(s[1..], e);
      forall k | 0 <= k < |s| ensures r[k].time >= s[k].time {
        if k > 0 { assert r[k] == InsertDesc(s[1..], e)[k - 1]; }
      }
    } else if s != [] {
      forall k | 0 <= k < |s| ensures r[k].time >= s[k].time {
        if k > 0 { assert r[k] == s[k - 1]; }
      }
    }
  }

  lemma {:induction false} InsertDescAtEnd(s: seq<SlowRequest>, e: SlowRequest)
    requires forall k :: 0 <= k < |s| ==> s[k].time >= e.time
    ensures InsertDesc(s, e) == s + [e]
  {
    if s != [] {
      InsertDescAtEnd(s[1..], e);
      assert s == [s[0]] + s[1..];
    }
  }

  lemma {:induction false} StableSortOfSorted(s: seq<SlowRequest>)
    requires SortedDesc(s)
    ensures StableSortDesc(s) == s
  {
    if s != [] {
      var init := s[..|s| - 1];
      StableSortOfSorted(init);
      InsertDescAtEnd(init, s[|s| - 1]);
      assert init + [s[|s| - 1]] == s;
    }
  }

  /** Pushing onto a sorted list and sorting again is an insertion. */
  lemma StableSortAfterPush(s: seq<SlowRequest>, e: SlowRequest)
    requires SortedDesc(s)
    ensures StableSortDesc(s + [e]) == InsertDesc(s, e)
  {
    StableSortOfSorted(s);
    assert (s + [e])[..|s|] == s;
  }

  /** `if (list.length > 5) list.pop()` */
  function Cap(s: seq<SlowRequest>): seq<SlowRequest>
  {
    if |s| > SlowestCapacity then s[..|s| - 1] else s
  }

  /** The slowest list is the five largest admitted durations: it draws
      on the durations admitted since the last reset, holds all of them
      while there are at most five, holds five otherwise, and every admitted
      duration left out is no slower than its last entry. */
  ghost predicate TopFive(s: seq<SlowRequest>, admitted: multiset<int>)
  {
    && TimeBag(s) <= admitted
    && (|admitted| <= SlowestCapacity ==> TimeBag(s) == admitted)
    && (|admitted| > SlowestCapacity ==> |s| == SlowestCapacity)
    && (forall y :: y in admitted - TimeBag(s) ==> |s| > 0 && y <= s[|s| - 1].time)
  }

  ghost predicate SlowestValid(s: seq<SlowRequest>, admitted: multiset<int>)
  {
    && SortedDesc(s)
    && |s| <= SlowestCapacity
    && (forall k :: 0 <= k < |s| ==> s[k].time > SlowThreshold)
    && TopFive(s, admitted)
  }

  /** While fewer than five durations were admitted, the list holds them all. */
  lemma TopFiveGrow(s: seq<SlowRequest>, admitted: multiset<int>, e: SlowRequest)
    requires SortedDesc(s) && TopFive(s, admitted) && |admitted| < SlowestCapacity
    ensures TopFive(Cap(InsertDesc(s, e)), admitted + multiset{e.time})
  {
    InsertDescElements(s, e);
    TimeBagSize(s);
    assert |s| < SlowestCapacity;
    assert Cap(InsertDesc(s, e)) == InsertDesc(s, e);
  }

  /** Once five or more were admitted, the sixth entry of the insertion is
      dropped and every duration left out is still no slower than the last
      kept one. */
  lemma TopFiveFull(s: seq<SlowRequest>, admitted: multiset<int>, e: SlowRequest)
    requires SortedDesc(s) && |s| == SlowestCapacity && TopFive(s, admitted)
    ensures TopFive(Cap(InsertDesc(s, e)), admitted + multiset{e.time})
  {
    InsertDescElements(s, e);
    InsertDescSorted(s, e);
    InsertDescDominates(s, e);
    var r := InsertDesc(s, e);
    var adm := admitted + multiset{e.time};
    var c := r[..SlowestCapacity];
    var z := r[SlowestCapacity];
    assert r == c + [z];
    TimeBagConcat(c, [z]);
    assert TimeBag([z]) == multiset{z.time};
    assert Cap(r) == c;
    assert TimeBag(c) + multiset{z.time} == TimeBag(s) + multiset{e.time};
    TimeBagSize(s);
    assert s[4].time <= r[4].time && r[5].time <= r[4].time;
    LeftOutBound(admitted, TimeBag(s), TimeBag(c), e.time, z.time, s[4].time, c[4].time);
  }

  /** The bag arithmetic behind TopFiveFull: dropping z after adding x. */
  lemma LeftOutBound(admitted: multiset<int>, kept: multiset<int>, next: multiset<int>,
                     x: int, z: int, last: int, nextLast: int)
    requires kept <= admitted
    requires next + multiset{z} == kept + multiset{x}
    requires forall y :: y in admitted - kept ==> y <= last
    requires last <= nextLast && z <= nextLast
    ensures next <= admitted + multiset{x}
    ensures forall y :: y in (admitted + multiset{x}) - next ==> y <= nextLast
  {
    forall y ensures next[y] <= (admitted + multiset{x})[y] {
      assert (next + multiset{z})[y] == (kept + multiset{x})[y];
    }
    forall y | y in (admitted + multiset{x}) - next ensures y <= nextLast {
      if y != z {
        assert (next + multiset{z})[y] == next[y];
        assert y in admitted - kept;
      }
    }
  }

  /** Admitting one more slow duration keeps the list the top five. */
  lemma TopFiveStep(s: seq<SlowRequest>, admitted: multiset<int>, e: SlowRequest)
    requires SortedDesc(s) && |s| <= SlowestCapacity && TopFive(s, admitted)
    ensures TopFive(Cap(InsertDesc(s, e)), admitted + multiset{e.time})
  {
    TimeBagSize(s);
    if |admitted| < SlowestCapacity {
      TopFiveGrow(s, admitted, e);
    } else {
      assert |s| == SlowestCapacity;
      TopFiveFull(s, admitted, e);
    }
  }

  /** Admitting one more slow request keeps the list valid. */
  lemma SlowestStep(s: seq<SlowRequest>, admitted: multiset<int>, e: SlowRequest)
    requires SlowestValid(s, admitted) && e.time > SlowThreshold
    ensures SlowestValid(Cap(InsertDesc(s, e)), admitted + multiset{e.time})
  {
    var r := InsertDesc(s, e);
    InsertDescSorted(s, e);
    InsertAboveThreshold(s, e);
    TopFiveStep(s, admitted, e);
    CapPrefix(r);
  }

  /** Dropping the sixth entry keeps a list sorted and above the threshold. */
  lemma CapPrefix(r: seq<SlowRequest>)
    requires |r| <= SlowestCapacity + 1 && SortedDesc(r)
    requires forall k :: 0 <= k < |r| ==> r[k].time > SlowThreshold
    ensures |Cap(r)| <= SlowestCapacity && SortedDesc(Cap(r))
    ensures forall k :: 0 <= k < |Cap(r)| ==> Cap(r)[k].time > SlowThreshold
  {
    var c := Cap(r);
    assert forall k :: 0 <= k < |c| ==> c[k] == r[k];
  }

  /** Inserting a slow request into a list of slow requests keeps every entry
      above the threshold. */
  lemma InsertAboveThreshold(s: seq<SlowRequest>, e: SlowRequest)
    requires forall k :: 0 <= k < |s| ==> s[k].time > SlowThreshold
    requires e.time > SlowThreshold
    ensures |InsertDesc(s, e)| == |s| + 1
    ensures forall k :: 0 <= k < |InsertDesc(s, e)| ==> InsertDesc(s, e)[k].time > SlowThreshold
  {
    InsertDescElements(s, e);
    var r := InsertDesc(s, e);
    forall k | 0 <= k < |r| ensures r[k].time > SlowThreshold {
      if r[k] != e { var j :| 0 <= j < |s| && s[j] == r[k]; }
    }
  }

  /** The push, sort and pop on the slowest list, which the source does in
      place on `topFiveSlowestRequests`. */
  method PushSlowest(list: seq<SlowRequest>, entry: SlowRequest) returns (r: seq<SlowRequest>)
    ensures r == Cap(StableSortDesc(list + [entry]))
  {
    r := list + [entry];
    r := StableSortDesc(r);
    if |r| > SlowestCapacity {
      r := r[..|r| - 1];
    }
  }

  // -------------------------------------------------------------- the class

  /** The service's `latency` record. */
  datatype LatencyRecord = LatencyRecord(
    count: int, totalMs: int, buckets: seq<int>, topFiveSlowestRequests: seq<SlowRequest>)

  const EmptyLatency := LatencyRecord(0, 0, [], [])

  /** What one request does to the latency record: count it, add its
      duration to the total and to the buckets, and, when it is slower than
      the threshold, push it onto the slowest list, sort, and pop the sixth. */
  function RecordLatency(l: LatencyRecord, path: string, durationMs: int): LatencyRecord
  {
    LatencyRecord(
      l.count + 1, l.totalMs + durationMs, l.buckets + [durationMs],
      if durationMs > SlowThreshold
      then Cap(StableSortDesc(l.topFiveSlowestRequests + [SlowRequest(path, durationMs)]))
      else l.topFiveSlowestRequests)
  }

  /** The latency record after the given requests, from an empty one. */
  function Replay(requests: seq<SlowRequest>): LatencyRecord
  {
    if requests == [] then EmptyLatency
    else
      var last := requests[|requests| - 1];
      RecordLatency(Replay(requests[..|requests| - 1]), last.path, last.time)
  }

  lemma ReplayPush(requests: seq<SlowRequest>, x: SlowRequest)
    ensures Replay(requests + [x]) == RecordLatency(Replay(requests), x.path, x.time)
  {
    assert (requests + [x])[..|requests|] == requests;
  }

  /** The durations of the given requests that are slower than the threshold. */
  ghost function SlowBag(requests: seq<SlowRequest>): multiset<int>
  {
    if requests == [] then multiset{}
    else
      var last := requests[|requests| - 1];
      SlowBag(requests[..|requests| - 1]) + (if last.time > SlowThreshold then multiset{last.time} else multiset{})
  }

  /** The latency record counts and sums exactly the recorded durations,
      and its slowest list is the top five of the slow ones. */
  ghost predicate LatencyValid(l: LatencyRecord, count: int, admitted: multiset<int>)
  {
    && count == l.count == |l.buckets|
    && l.totalMs == Sum(l.buckets)
    && SlowestValid(l.topFiveSlowestRequests, admitted)
  }

  lemma RecordLatencyValid(l: LatencyRecord, count: int, admitted: multiset<int>, path: string, durationMs: int)
    requires LatencyValid(l, count, admitted)
    ensures LatencyValid(RecordLatency(l, path, durationMs), count + 1,
                         admitted + (if durationMs > SlowThreshold then multiset{durationMs} else multiset{}))
  {
    var b := l.buckets + [durationMs];
    assert b[..|b| - 1] == l.buckets;
    if durationMs > SlowThreshold {
      var e := SlowRequest(path, durationMs);
      StableSortAfterPush(l.topFiveSlowestRequests, e);
      SlowestStep(l.topFiveSlowestRequests, admitted, e);
    } else {
      assert admitted + multiset{} == admitted;
    }
  }

  /** Replaying any requests gives a valid record: it counts them all, sums
      their durations, and keeps the five slowest of those above the
      threshold, sorted slowest first. */
  lemma {:induction false} ReplayValid(requests: seq<SlowRequest>)
    ensures LatencyValid(Replay(requests), |requests|, SlowBag(requests))
  {
    if requests != [] {
      var init := requests[..|requests| - 1];
      var last := requests[|requests| - 1];
      ReplayValid(init);
      RecordLatencyValid(Replay(init), |init|, SlowBag(init), last.path, last.time);
    }
  }

  /** Every non-ghost field, for stating what an operation leaves alone. */
  datatype Fields = Fields(
    totalRequests: int, errorCount: int, latency: LatencyRecord, startTime: int,
    warnCount: int, errorLogCount: int, cacheHits: int, cacheMisses: int,
    dbLatencies: seq<int>, extLatencies: seq<int>)

  /** The counter part of `snapshot()` (CPU and memory samples left out). */
  datatype Snapshot = Snapshot(
    totalRequests: int, errorCount: int, warnCount: int, errorLogCount: int,
    cacheHitRatio: real, dbP95: int, extP95: int, slowest: seq<SlowRequest>)

  class MetricsService {
    var totalRequests: int
    var errorCount: int
    var latency: LatencyRecord
    var startTime: int
    var warnCount: int
    var errorLogCount: int
    var cacheHits: int
    var cacheMisses: int
    var dbLatencies: seq<int>
    var extLatencies: seq<int>
    /** The requests recorded since the last reset, in order. */
    ghost var recorded: seq<SlowRequest>

    /** The latency record is the replay of the recorded requests, one per
        counted request, no more errors than requests, and no negative
        counter. */
    ghost predicate Valid()
      reads this
    {
      && 0 <= errorCount <= totalRequests
      && totalRequests == |recorded|
      && latency == Replay(recorded)
      && warnCount >= 0 && errorLogCount >= 0
      && cacheHits >= 0 && cacheMisses >= 0
    }

    function State(): Fields
      reads this
    {
      Fields(totalRequests, errorCount, latency, startTime, warnCount, errorLogCount,
             cacheHits, cacheMisses, dbLatencies, extLatencies)
    }

    constructor(now: int)
      ensures Valid()
      ensures State() == Fields(0, 0, EmptyLatency, now, 0, 0, 0, 0, [], [])
      ensures recorded == []
    {
      totalRequests, errorCount, latency, startTime := 0, 0, EmptyLatency, now;
      warnCount, errorLogCount, cacheHits, cacheMisses := 0, 0, 0, 0;
      dbLatencies, extLatencies := [], [];
      recorded := [];
    }

    /** `recordRequest(path, durationMs, isError)` */
    method RecordRequest(path: string, durationMs: int, isError: bool)
      requires Valid()
      modifies this
      ensures Valid()
      ensures recorded == old(recorded) + [SlowRequest(path, durationMs)]
      ensures latency == RecordLatency(old(latency), path, durationMs)
      ensures State() == old(State()).(totalRequests := old(totalRequests) + 1,
                                       errorCount := old(errorCount) + (if isError then 1 else 0),
                                       latency := latency)
    {
      totalRequests := totalRequests + 1;
      if isError {
        errorCount := errorCount + 1;
      }
      RecordLatencyOf(path, durationMs);
    }

    /** The latency part of `recordRequest`, on the `latency` field. */
    method RecordLatencyOf(path: string, durationMs: int)
      requires latency == Replay(recorded)
      modifies this
      ensures latency == RecordLatency(old(latency), path, durationMs) && latency == Replay(recorded)
      ensures recorded == old(recorded) + [SlowRequest(path, durationMs)]
      ensures State() == old(State()).(latency := latency)
    {
      ReplayPush(recorded, SlowRequest(path, durationMs));
      var slowest := latency.topFiveSlowestRequests;
      if durationMs > SlowThreshold {
        slowest := PushSlowest(slowest, SlowRequest(path, durationMs));
      }
      latency := LatencyRecord(latency.count + 1, latency.totalMs + durationMs, latency.buckets + [durationMs], slowest);
      recorded := recorded + [SlowRequest(path, durationMs)];
    }

    /** `recordLog(level)`: 'warn' counts a warning, anything else an error log. */
    method RecordLog(level: string)
      requires Valid()
      modifies this
      ensures Valid() && recorded == old(recorded)
      ensures State() == if level == "warn"
                         then old(State()).(warnCount := old(warnCount) + 1)
                         else old(State()).(errorLogCount := old(errorLogCount) + 1)
    {
      if level == "warn" {
        warnCount := warnCount + 1;
      } else {
        errorLogCount := errorLogCount + 1;
      }
    }

    method RecordCacheHit()
      requires Valid()
      modifies this
      ensures Valid() && recorded == old(recorded)
      ensures State() == old(State()).(cacheHits := old(cacheHits) + 1)
    {
      cacheHits := cacheHits + 1;
    }

    method RecordCacheMiss()
      requires Valid()
      modifies this
      ensures Valid() && recorded == old(recorded)
      ensures State() == old(State()).(cacheMisses := old(cacheMisses) + 1)
    {
      cacheMisses := cacheMisses + 1;
    }

    method RecordDbLatency(ms: int)
      requires Valid()
      modifies this
      ensures Valid() && recorded == old(recorded)
      ensures State() == old(State()).(dbLatencies := old(dbLatencies) + [ms])
    {
      dbLatencies := dbLatencies + [ms];
    }

    method RecordExtLatency(ms: int)
      requires Valid()
      modifies this
      ensures Valid() && recorded == old(recorded)
      ensures State() == old(State()).(extLatencies := old(extLatencies) + [ms])
    {
      extLatencies := extLatencies + [ms];
    }

    /** `getCacheHitRatio()`: hits over observations, 0 with none. */
    function GetCacheHitRatio(): (r: real)
      reads this
      requires Valid()
      ensures 0.0 <= r <= 1.0
      ensures cacheHits + cacheMisses == 0 ==> r == 0.0
      ensures cacheHits + cacheMisses > 0 ==> r * (cacheHits + cacheMisses) as real == cacheHits as real
    {
      var total := cacheHits + cacheMisses;
      if total == 0 then 0.0
      else
        RatioInUnit(cacheHits as real, total as real);
        cacheHits as real / total as real
    }

    /** `getErrorRate()`: errors over requests, 0 with none. */
    function GetErrorRate(): (r: real)
      reads this
      requires Valid()
      ensures 0.0 <= r <= 1.0
      ensures totalRequests == 0 ==> r == 0.0
      ensures totalRequests > 0 ==> r * totalRequests as real == errorCount as real
    {
      if totalRequests != 0 then
        RatioInUnit(errorCount as real, totalRequests as real);
        errorCount as real / totalRequests as real
      else 0.0
    }

    /** `getThroughput()`: requests per elapsed minute, rounded half up; an
        elapsed time of zero counts as one minute. */
    function GetThroughput(now: int): (r: int)
      reads this
      ensures var minutes := (now - startTime) as real / 60000.0;
              var rate := totalRequests as real / (if minutes == 0.0 then 1.0 else minutes);
              r as real - 0.5 <= rate < r as real + 0.5
    {
      var minutes := (now - startTime) as real / 60000.0;
      (totalRequests as real / (if minutes == 0.0 then 1.0 else minutes) + 0.5).Floor
    }

    function GetPercentile(p: int): (r: int)
      reads this
      ensures r == PercentileOf(latency.buckets, p)
    {
      PercentileOf(latency.buckets, p)
    }

    function GetDbP95(): (r: int)
      reads this
      ensures r == PercentileOf(dbLatencies, 95)
    {
      PercentileOf(dbLatencies, 95)
    }

    function GetExtP95(): (r: int)
      reads this
      ensures r == PercentileOf(extLatencies, 95)
    {
      PercentileOf(extLatencies, 95)
    }

    function GetApdex(thresholdMs: int): (r: real)
      reads this
      ensures r == Apdex(latency.buckets, thresholdMs)
    {
      Apdex(latency.buckets, thresholdMs)
    }

    /** The counter part of `snapshot()`: the live counters, the three
        derived figures and the slowest list, with what is known of them. */
    function GetSnapshot(): (s: Snapshot)
      reads this
      requires Valid()
      ensures s.totalRequests == totalRequests && s.errorCount == errorCount
      ensures s.warnCount == warnCount && s.errorLogCount == errorLogCount
      ensures s.cacheHitRatio == GetCacheHitRatio()
      ensures s.dbP95 == PercentileOf(dbLatencies, 95) && s.extP95 == PercentileOf(extLatencies, 95)
      ensures s.slowest == latency.topFiveSlowestRequests
      ensures 0 <= s.errorCount <= s.totalRequests
      ensures 0.0 <= s.cacheHitRatio <= 1.0
      ensures SortedDesc(s.slowest) && |s.slowest| <= SlowestCapacity
      ensures forall k :: 0 <= k < |s.slowest| ==> s.slowest[k].time > SlowThreshold
      ensures TopFive(s.slowest, SlowBag(recorded))
    {
      ReplayValid(recorded);
      Snapshot(totalRequests, errorCount, warnCount, errorLogCount,
               GetCacheHitRatio(), GetDbP95(), GetExtP95(), latency.topFiveSlowestRequests)
    }

    /** `reset()`: every counter back to zero, every list emptied, and the
        throughput window restarted at now. */
    method Reset(now: int)
      modifies this
      ensures Valid()
      ensures State() == Fields(0, 0, EmptyLatency, now, 0, 0, 0, 0, [], [])
      ensures recorded == []
    {
      totalRequests := 0;
      errorCount := 0;
      latency := EmptyLatency;
      startTime := now;
      warnCount := 0;
      errorLogCount := 0;
      cacheHits := 0;
      cacheMisses := 0;
      dbLatencies := [];
      extLatencies := [];
      recorded := [];
    }
  }
}
