/** Practice streaks: two scans over the sorted days, one for the current and the longest run, one
    for the first day a run of some length was complete. Days are day numbers. */
module Streaks {
  import opened Wrappers

  // ---- Runs of days ----------------------------------------------------------------------------

  /** The `n` days up to and including `d` were all practised. */
  ghost predicate RunUpTo(days: set<int>, d: int, n: int) { forall k :: d - n < k <= d ==> k in days }

  /** The run that ends on `d` is exactly `n` days long. */
  ghost predicate RunIs(days: set<int>, d: int, n: int) { n >= 1 && RunUpTo(days, d, n) && d - n !in days }

  lemma RunLength(days: set<int>, d: int, n: int, m: int)
    requires RunIs(days, d, n) && m >= 1
    ensures RunUpTo(days, d, m) <==> m <= n
  {
    if m > n { assert d - m < d - n <= d; }
  }

  /** No practised day between two neighbours in order. */
  ghost predicate Ascending(sorted: seq<int>, days: set<int>) {
    && Increasing(sorted)
    && (forall d :: d in sorted <==> d in days)
  }

  lemma FirstOfAll(sorted: seq<int>, days: set<int>)
    requires Ascending(sorted, days) && sorted != []
    ensures RunIs(days, sorted[0], 1)
  {
    assert sorted[0] in sorted;
    assert forall j :: 0 <= j < |sorted| ==> sorted[j] != sorted[0] - 1;
    assert sorted[0] - 1 !in sorted;
  }

  lemma NextDay(sorted: seq<int>, days: set<int>, i: nat, run: int)
    requires Ascending(sorted, days) && 0 < i < |sorted| && RunIs(days, sorted[i - 1], run)
    ensures RunIs(days, sorted[i], if sorted[i] - sorted[i - 1] == 1 then run + 1 else 1)
  {
    var day, previous := sorted[i], sorted[i - 1];
    assert day in sorted;
    assert day - 1 != previous ==> forall j :: 0 <= j < |sorted| ==> sorted[j] != day - 1;
    assert day - 1 != previous ==> day - 1 !in sorted;
    assert day - 1 == previous ==> day - (run + 1) == previous - run;
  }

  function WithDay(sorted: seq<int>, d: int): seq<int> {
    if sorted == [] || d < sorted[0] then [d] + sorted
    else if d == sorted[0] then sorted
    else [sorted[0]] + WithDay(sorted[1..], d)
  }

  /** The days in order, each once. */
  function Sorted(days: seq<int>): seq<int> { if days == [] then [] else WithDay(Sorted(days[1..]), days[0]) }

  lemma {:induction false} WithDayHolds(sorted: seq<int>, d: int)
    ensures forall k :: k in WithDay(sorted, d) <==> k == d || k in sorted
  {
    if sorted != [] {
      assert sorted == [sorted[0]] + sorted[1..];
      WithDayHolds(sorted[1..], d);
    }
  }

  predicate Increasing(sorted: seq<int>) { forall i, j :: 0 <= i < j < |sorted| ==> sorted[i] < sorted[j] }

  lemma {:induction false} WithDayIncreases(sorted: seq<int>, d: int)
    requires Increasing(sorted)
    ensures Increasing(WithDay(sorted, d))
  {
    if sorted != [] && d > sorted[0] {
      WithDayIncreases(sorted[1..], d);
      WithDayHolds(sorted[1..], d);
      var r := WithDay(sorted[1..], d);
      forall j | 0 <= j < |r| ensures sorted[0] < r[j] { assert r[j] in r; }
    }
  }

  lemma {:induction false} SortedAscends(days: seq<int>)
    ensures Ascending(Sorted(days), set d | d in days)
  {
    if days != [] {
      SortedAscends(days[1..]);
      assert days == [days[0]] + days[1..];
      WithDayHolds(Sorted(days[1..]), days[0]);
      WithDayIncreases(Sorted(days[1..]), days[0]);
    }
  }

  /** The days up to `today`, in the order they come. */
  function Until(days: seq<int>, today: int): seq<int> {
    if days == [] then [] else (if days[0] <= today then [days[0]] else []) + Until(days[1..], today)
  }

  lemma {:induction false} UntilHolds(days: seq<int>, today: int)
    ensures forall d :: d in Until(days, today) <==> d in days && d <= today
  {
    if days != [] {
      UntilHolds(days[1..], today);
      assert days == [days[0]] + days[1..];
    }
  }

  // ---- The scans -------------------------------------------------------------------------------

  datatype Streak = Streak(current: int, longest: int, practicedToday: bool, lastPracticeDay: Option<int>)

  /** A run of `n` days ends on some day. */
  ghost predicate SomeRun(days: set<int>, n: int) { exists d <- days :: RunUpTo(days, d, n) }

  /** What the streak of these days says: the longest run, and the run that ends today or yesterday. */
  ghost predicate StreakOf(days: set<int>, today: int, s: Streak) {
    && (match s.lastPracticeDay
        case None => days == {} && s.current == 0 && s.longest == 0
        case Some(last) =>
          && last in days && (forall d <- days :: d <= last)
          && (if today - last <= 1 then RunIs(days, last, s.current) else s.current == 0))
    && (forall n :: n >= 1 ==> (n <= s.longest <==> SomeRun(days, n)))
    && s.longest >= 0
    && (s.practicedToday <==> today in days)
  }

  /** The longest of the runs that end on the first `i` days. */
  ghost predicate LongestSoFar(days: set<int>, sorted: seq<int>, i: nat, longest: int) {
    && i <= |sorted| && longest >= 0 && (longest > 0 ==> exists k :: 0 <= k < i && RunIs(days, sorted[k], longest))
    && forall k, n :: 0 <= k < i && RunIs(days, sorted[k], n) ==> n <= longest
  }

  lemma OneRun(days: set<int>, d: int, m: int, n: int)
    requires RunIs(days, d, m) && RunIs(days, d, n)
    ensures m == n
  {
    RunLength(days, d, m, n);
    RunLength(days, d, n, m);
  }

  lemma LongerRun(days: set<int>, sorted: seq<int>, i: nat, longest: int, run: int)
    requires LongestSoFar(days, sorted, i, longest) && i < |sorted| && RunIs(days, sorted[i], run)
    ensures LongestSoFar(days, sorted, i + 1, if run > longest then run else longest)
  {
    forall n | RunIs(days, sorted[i], n) ensures n <= run { OneRun(days, sorted[i], run, n); }
  }

  method ComputeStreak(days: seq<int>, today: int) returns (s: Streak)
    ensures StreakOf((set d | d in days && d <= today), today, s)
  {
    ghost var all := set d | d in days && d <= today;
    var sorted := Sorted(Until(days, today));
    SortedAscends(Until(days, today));
    UntilHolds(days, today);
    assert forall d :: d in (set d | d in Until(days, today)) <==> d in all;
    var longest, run := 0, 0;
    var previous: Option<int> := None;
    var i := 0;
    while i < |sorted|
      invariant 0 <= i <= |sorted| && Ascending(sorted, all)
      invariant previous == if i == 0 then None else Some(sorted[i - 1])
      invariant i > 0 ==> RunIs(all, sorted[i - 1], run)
      invariant LongestSoFar(all, sorted, i, longest)
    {
      if i == 0 { FirstOfAll(sorted, all); } else { NextDay(sorted, all, i, run); }
      run := if previous.Some? && sorted[i] - previous.value == 1 then run + 1 else 1;
      LongerRun(all, sorted, i, longest, run);
      longest := if run > longest then run else longest;
      previous := Some(sorted[i]);
      i := i + 1;
    }
    var alive := previous.Some? && today - previous.value <= 1;
    s := Streak(if alive then run else 0, longest, previous == Some(today), previous);
    Scanned(sorted, all, today, s);
  }

  lemma Scanned(sorted: seq<int>, days: set<int>, today: int, s: Streak)
    requires Ascending(sorted, days) && (forall d <- days :: d <= today)
    requires LongestSoFar(days, sorted, |sorted|, s.longest)
    requires s.lastPracticeDay == if sorted == [] then None else Some(sorted[|sorted| - 1])
    requires if s.lastPracticeDay.Some? && today - s.lastPracticeDay.value <= 1
             then RunIs(days, s.lastPracticeDay.value, s.current) else s.current == 0
    requires s.practicedToday <==> s.lastPracticeDay == Some(today)
    ensures StreakOf(days, today, s)
  {
    forall n | n >= 1 && n <= s.longest ensures SomeRun(days, n) {
      var k :| 0 <= k < |sorted| && RunIs(days, sorted[k], s.longest);
      assert sorted[k] in sorted;
      RunLength(days, sorted[k], s.longest, n);
    }
    forall n | n >= 1 && SomeRun(days, n) ensures n <= s.longest {
      var d :| d in days && RunUpTo(days, d, n);
      var k :| 0 <= k < |sorted| && sorted[k] == d;
      var m := ExactRun(sorted, days, k);
      RunLength(days, d, m, n);
    }
    if sorted != [] { assert sorted[|sorted| - 1] in sorted; }
    if sorted == [] {
      assert forall d :: d in days ==> d in sorted;
      assert days == {};
    }
  }

  lemma {:induction false} ExactRun(sorted: seq<int>, days: set<int>, i: nat) returns (run: int)
    requires Ascending(sorted, days) && i < |sorted|
    ensures RunIs(days, sorted[i], run)
    decreases i
  {
    if i == 0 {
      FirstOfAll(sorted, days);
      run := 1;
    } else {
      var before := ExactRun(sorted, days, i - 1);
      NextDay(sorted, days, i, before);
      run := if sorted[i] - sorted[i - 1] == 1 then before + 1 else 1;
    }
  }

  /** The first day a run of this length was complete; a length below one asks for one day. */
  method FirstRunDay(days: seq<int>, length: int) returns (first: Option<int>)
    ensures var all := set d | d in days;
            var n := if length < 1 then 1 else length;
            && (first.Some? ==> first.value in all && RunUpTo(all, first.value, n) && forall d <- all :: d < first.value ==> !RunUpTo(all, d, n))
            && (first.None? ==> forall d <- all :: !RunUpTo(all, d, n))
  {
    ghost var all := set d | d in days;
    ghost var n := if length < 1 then 1 else length;
    var sorted := Sorted(days);
    SortedAscends(days);
    var run := 0;
    var previous: Option<int> := None;
    var i := 0;
    while i < |sorted|
      invariant 0 <= i <= |sorted| && Ascending(sorted, all)
      invariant previous == if i == 0 then None else Some(sorted[i - 1])
      invariant i > 0 ==> RunIs(all, sorted[i - 1], run)
      invariant forall k :: 0 <= k < i ==> !RunUpTo(all, sorted[k], n)
    {
      if i == 0 { FirstOfAll(sorted, all); } else { NextDay(sorted, all, i, run); }
      run := if previous.Some? && sorted[i] - previous.value == 1 then run + 1 else 1;
      RunLength(all, sorted[i], run, n);
      if run >= length {
        assert sorted[i] in sorted;
        return Some(sorted[i]);
      }
      previous := Some(sorted[i]);
      i := i + 1;
    }
    first := None;
  }

  /** The two scans agree: a run of some length was completed by today exactly when the longest run is
      at least as long. */
  lemma ScansAgree(days: set<int>, today: int, s: Streak, n: int, first: Option<int>)
    requires n >= 1 && (forall d <- days :: d <= today) && StreakOf(days, today, s)
    requires first.Some? ==> first.value in days && RunUpTo(days, first.value, n)
    requires first.None? ==> forall d <- days :: !RunUpTo(days, d, n)
    ensures first.Some? <==> s.longest >= n
    ensures s.current <= s.longest
  {
    assert first.Some? <==> SomeRun(days, n);
    if s.current > 0 {
      assert RunUpTo(days, s.lastPracticeDay.value, s.current);
      assert SomeRun(days, s.current);
    }
  }

  /** Practice on more days never shortens the longest run; and a streak is alive exactly when there
      was practice today or yesterday. */
  lemma PracticeOnlyHelps(days: set<int>, more: set<int>, today: int, s: Streak, t: Streak)
    requires days <= more && (forall d <- days :: d <= today) && StreakOf(days, today, s) && StreakOf(more, today, t)
    ensures s.longest <= t.longest
    ensures s.current > 0 <==> today in days || today - 1 in days
  {
    if s.longest > 0 {
      assert SomeRun(days, s.longest);
      var d :| d in days && RunUpTo(days, d, s.longest);
      assert RunUpTo(more, d, s.longest);
      assert SomeRun(more, s.longest);
    }
  }
}
