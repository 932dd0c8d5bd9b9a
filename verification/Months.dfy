/** Years of experience from dated roles: the sort-and-merge loop counts each month once. */
module Months {
  import opened Wrappers

  /** A year, with a month when one is given. */
  datatype YearMonth = YearMonth(year: int, month: Option<int>)

  datatype Role = Role(start: Option<YearMonth>, end: Option<YearMonth>, current: bool)

  datatype Span = Span(first: int, last: int)

  function MonthIndex(ym: YearMonth, endOfYear: bool): int {
    ym.year * 12 + ym.month.GetOr(if endOfYear then 12 else 1) - 1
  }

  /** The months of a role, when it has a start and does not end before it. */
  function SpanOf(r: Role, nowIndex: int): Option<Span> {
    if r.start.None? then None
    else
      var a := MonthIndex(r.start.value, false);
      var b := if r.current || r.end.None? then nowIndex else MonthIndex(r.end.value, true);
      if b >= a then Some(Span(a, b)) else None
  }

  function Spans(roles: seq<Role>, nowIndex: int): seq<Span> {
    if roles == [] then []
    else
      var s := SpanOf(roles[0], nowIndex);
      (if s.Some? then [s.value] else []) + Spans(roles[1..], nowIndex)
  }

  // ---- The months covered ----------------------------------------------------------------------

  predicate Between(a: int, m: int, b: int) { a <= m <= b }

  /** The months from `a` to `b`. */
  function Interval(a: int, b: int): set<int> { set m | a <= m <= b && Between(a, m, b) }

  lemma {:induction false} IntervalSize(a: int, b: int)
    requires a <= b + 1
    ensures |Interval(a, b)| == b - a + 1
    decreases b - a + 1
  {
    if a <= b {
      IntervalSize(a, b - 1);
      forall m | m in Interval(a, b) ensures m in Interval(a, b - 1) + {b} { assert m != b ==> Between(a, m, b - 1); }
      forall m | m in Interval(a, b - 1) + {b} ensures m in Interval(a, b) { assert Between(a, m, b); }
      assert Interval(a, b) == Interval(a, b - 1) + {b};
    } else {
      assert Interval(a, b) == {};
    }
  }

  lemma InInterval(m: int, a: int, b: int)
    ensures m in Interval(a, b) <==> a <= m <= b
  {
    assert Between(a, m, b) <==> a <= m <= b;
  }

  /** The months of the first `n` spans. */
  function CoveredBy(spans: seq<Span>, n: nat): set<int>
    requires n <= |spans|
  {
    if n == 0 then {} else CoveredBy(spans, n - 1) + Interval(spans[n - 1].first, spans[n - 1].last)
  }

  function Covered(spans: seq<Span>): set<int> { CoveredBy(spans, |spans|) }

  predicate InSpan(m: int, s: Span) { s.first <= m <= s.last }

  lemma {:induction false} CoveredByIs(spans: seq<Span>, n: nat, m: int)
    requires n <= |spans|
    ensures m in CoveredBy(spans, n) <==> exists i :: 0 <= i < n && InSpan(m, spans[i])
  {
    if n > 0 {
      CoveredByIs(spans, n - 1, m);
      InInterval(m, spans[n - 1].first, spans[n - 1].last);
    }
  }

  lemma CoveredIs(spans: seq<Span>, m: int)
    ensures m in Covered(spans) <==> exists s <- spans :: InSpan(m, s)
  {
    CoveredByIs(spans, |spans|, m);
    if s :| s in spans && InSpan(m, s) {
      var i :| 0 <= i < |spans| && spans[i] == s;
    }
  }

  /** The months covered depend only on which spans there are, not on their order or repetition. */
  lemma SameSpansSameMonths(a: seq<Span>, b: seq<Span>)
    requires forall s :: s in a <==> s in b
    ensures Covered(a) == Covered(b)
  {
    forall m | m in Covered(a) ensures m in Covered(b) {
      CoveredIs(a, m);
      CoveredIs(b, m);
    }
    forall m | m in Covered(b) ensures m in Covered(a) {
      CoveredIs(a, m);
      CoveredIs(b, m);
    }
  }

  // ---- Sorting by start ------------------------------------------------------------------------

  predicate SortedByStart(spans: seq<Span>) {
    forall i, j :: 0 <= i < j < |spans| ==> spans[i].first <= spans[j].first
  }

  function Insert(x: Span, spans: seq<Span>): seq<Span> {
    if spans == [] then [x]
    else if x.first <= spans[0].first then [x] + spans
    else [spans[0]] + Insert(x, spans[1..])
  }

  function Sorted(spans: seq<Span>): seq<Span> {
    if spans == [] then [] else Insert(spans[0], Sorted(spans[1..]))
  }

  lemma {:induction false} InsertSorts(x: Span, spans: seq<Span>)
    requires SortedByStart(spans)
    ensures SortedByStart(Insert(x, spans)) && |Insert(x, spans)| == |spans| + 1
    ensures forall s :: s in Insert(x, spans) <==> s == x || s in spans
  {
    if spans != [] && x.first > spans[0].first {
      InsertSorts(x, spans[1..]);
      var rest := Insert(x, spans[1..]);
      assert spans == [spans[0]] + spans[1..];
      forall j | 0 <= j < |rest| ensures spans[0].first <= rest[j].first { assert rest[j] in rest; }
    }
  }

  lemma {:induction false} SortedSorts(spans: seq<Span>)
    ensures SortedByStart(Sorted(spans)) && |Sorted(spans)| == |spans|
    ensures forall s :: s in Sorted(spans) <==> s in spans
  {
    if spans != [] {
      SortedSorts(spans[1..]);
      InsertSorts(spans[0], Sorted(spans[1..]));
      assert spans == [spans[0]] + spans[1..];
    }
  }

  // ---- The loop --------------------------------------------------------------------------------

  lemma Merged(a: int, b: int, c: int, d: int)
    requires a <= b && a <= c <= b + 1 && c <= d
    ensures Interval(a, b) + Interval(c, d) == Interval(a, if b >= d then b else d)
  {
    var e := if b >= d then b else d;
    forall m | m in Interval(a, b) + Interval(c, d) ensures m in Interval(a, e) { assert Between(a, m, e); }
    forall m | m in Interval(a, e) ensures m in Interval(a, b) + Interval(c, d) { assert Between(a, m, b) || Between(c, m, d); }
  }

  lemma Apart(before: set<int>, start: int, end: int)
    requires start <= end && forall m <- before :: m < start
    ensures |before + Interval(start, end)| == |before| + end - start + 1
    ensures forall m <- before + Interval(start, end) :: m <= end
  {
    assert before !! Interval(start, end);
    IntervalSize(start, end);
  }

  lemma Regroup(covered: set<int>, before: set<int>, run: set<int>, more: set<int>)
    requires covered == before + run
    ensures covered + more == before + (run + more)
  {
  }

  /** After `n` spans: the months counted are `before`, and the run from `start` to `end` comes after them. */
  ghost predicate Progress(spans: seq<Span>, n: nat, before: set<int>, start: int, end: int) {
    && 1 <= n <= |spans| && start <= end
    && (forall m <- before :: m < start)
    && CoveredBy(spans, n) == before + Interval(start, end)
    && forall j :: n <= j < |spans| ==> start <= spans[j].first <= spans[j].last
  }

  lemma Extend(spans: seq<Span>, n: nat, before: set<int>, start: int, end: int)
    requires Progress(spans, n, before, start, end) && n < |spans| && spans[n].first <= end + 1
    ensures Progress(spans, n + 1, before, start, if end >= spans[n].last then end else spans[n].last)
  {
    Regroup(CoveredBy(spans, n), before, Interval(start, end), Interval(spans[n].first, spans[n].last));
    Merged(start, end, spans[n].first, spans[n].last);
  }

  lemma Restart(spans: seq<Span>, n: nat, before: set<int>, start: int, end: int) returns (before': set<int>)
    requires Progress(spans, n, before, start, end) && n < |spans| && spans[n].first > end + 1 && SortedByStart(spans)
    ensures Progress(spans, n + 1, before', spans[n].first, spans[n].last)
    ensures |before'| == |before| + end - start + 1
  {
    before' := before + Interval(start, end);
    Apart(before, start, end);
  }

  lemma Begin(spans: seq<Span>)
    requires spans != [] && SortedByStart(spans) && forall s <- spans :: s.first <= s.last
    ensures Progress(spans, 1, {}, spans[0].first, spans[0].last)
  {
    assert CoveredBy(spans, 1) == {} + Interval(spans[0].first, spans[0].last);
    assert forall j :: 0 <= j < |spans| ==> spans[j] in spans;
  }

  lemma Finished(spans: seq<Span>, before: set<int>, start: int, end: int)
    requires Progress(spans, |spans|, before, start, end)
    ensures |Covered(spans)| == |before| + end - start + 1
  {
    Apart(before, start, end);
  }

  method SortByStart(spans: seq<Span>) returns (sorted: seq<Span>)
    requires spans != [] && forall s <- spans :: s.first <= s.last
    ensures sorted != [] && SortedByStart(sorted) && Covered(sorted) == Covered(spans)
    ensures Progress(sorted, 1, {}, sorted[0].first, sorted[0].last)
  {
    sorted := Sorted(spans);
    SortedSorts(spans);
    SameSpansSameMonths(sorted, spans);
    Begin(sorted);
  }

  /** The merge loop, which both copies share: the months the spans cover, overlaps counted once. */
  method CountMonths(spans: seq<Span>) returns (months: int)
    requires spans != [] && forall s <- spans :: s.first <= s.last
    ensures months == |Covered(spans)|
  {
    var sorted := SortByStart(spans);
    months := 0;
    var start, end := sorted[0].first, sorted[0].last;
    ghost var before: set<int> := {};
    var n := 1;
    while n < |sorted|
      invariant Progress(sorted, n, before, start, end) && months == |before|
      decreases |sorted| - n
    {
      var a, b := sorted[n].first, sorted[n].last;
      if a <= end + 1 {
        Extend(sorted, n, before, start, end);
        end := if end >= b then end else b;
      } else {
        before := Restart(sorted, n, before, start, end);
        months := months + end - start + 1;
        start, end := a, b;
      }
      n := n + 1;
    }
    Finished(sorted, before, start, end);
    months := months + end - start + 1;
  }

  // ---- Years -----------------------------------------------------------------------------------

  /** Months as tenths of a year, rounded to the nearest, halves up. */
  function Tenths(months: int): int { (20 * months + 12) / 24 }

  lemma SpansAreValid(roles: seq<Role>, nowIndex: int)
    ensures forall s <- Spans(roles, nowIndex) :: s.first <= s.last
    ensures forall s :: s in Spans(roles, nowIndex) <==> exists r <- roles :: SpanOf(r, nowIndex) == Some(s)
  {
    if roles != [] {
      SpansAreValid(roles[1..], nowIndex);
      assert roles == [roles[0]] + roles[1..];
    }
  }

  /** Tenths of a year from the dated roles; None when no role is dated. */
  method DatedTenths(roles: seq<Role>, nowIndex: int) returns (tenths: Option<int>)
    ensures tenths == if Spans(roles, nowIndex) == [] then None else Some(Tenths(|Covered(Spans(roles, nowIndex))|))
  {
    var spans := Spans(roles, nowIndex);
    if spans == [] { return None; }
    SpansAreValid(roles, nowIndex);
    var months := CountMonths(spans);
    tenths := Some(Tenths(months));
  }

  /** The months covered, in tenths of a year; none without a dated role. */
  ghost function YearsOf(roles: seq<Role>, nowIndex: int): Option<int> {
    if Spans(roles, nowIndex) == [] then None else Some(Tenths(|Covered(Spans(roles, nowIndex))|))
  }

  ghost function Capped(tenths: Option<int>): Option<int> { if tenths.Some? && tenths.value > 600 then Some(600) else tenths }

  /** `experienceYears`: at most sixty years. */
  method ExperienceYears(roles: seq<Role>, nowIndex: int) returns (tenths: Option<int>)
    ensures tenths == Capped(YearsOf(roles, nowIndex))
  {
    tenths := DatedTenths(roles, nowIndex);
    if tenths.Some? && tenths.value > 600 { tenths := Some(600); }
  }

  /** `candidateYears`: a total the parse found comes first, and there is no cap. */
  method CandidateYears(total: Option<int>, roles: seq<Role>, nowIndex: int) returns (tenths: Option<int>)
    ensures tenths == if total.Some? then total else YearsOf(roles, nowIndex)
  {
    if total.Some? { return total; }
    tenths := DatedTenths(roles, nowIndex);
  }

  /** Neither the order nor the repetition of roles matters to either answer, not even to there being one. */
  lemma OrderDoesNotMatter(a: seq<Role>, b: seq<Role>, nowIndex: int)
    requires forall r :: r in a <==> r in b
    ensures YearsOf(a, nowIndex) == YearsOf(b, nowIndex)
    ensures Capped(YearsOf(a, nowIndex)) == Capped(YearsOf(b, nowIndex))
  {
    SpansAreValid(a, nowIndex);
    SpansAreValid(b, nowIndex);
    var s, t := Spans(a, nowIndex), Spans(b, nowIndex);
    SameSpansSameMonths(s, t);
    assert s != [] ==> s[0] in t;
    assert t != [] ==> t[0] in s;
  }

  /** The first and the last month of a role that has a start: a current role, or one without an end,
      runs to now; a year alone stands for its first or its last month. */
  function FirstMonth(start: YearMonth): int { start.year * 12 + (if start.month.Some? then start.month.value - 1 else 0) }

  function LastMonth(r: Role, nowIndex: int): int {
    if r.current then nowIndex
    else match r.end
      case None => nowIndex
      case Some(end) => end.year * 12 + if end.month.Some? then end.month.value - 1 else 11
  }

  predicate Covers(r: Role, nowIndex: int, m: int) { r.start.Some? && FirstMonth(r.start.value) <= m <= LastMonth(r, nowIndex) }

  lemma CoversIs(r: Role, nowIndex: int, m: int)
    ensures Covers(r, nowIndex, m) <==> SpanOf(r, nowIndex).Some? && InSpan(m, SpanOf(r, nowIndex).value)
  {
  }

  /** A month is counted exactly when some dated role covers it. */
  lemma MonthCountedIff(roles: seq<Role>, nowIndex: int, m: int)
    ensures m in Covered(Spans(roles, nowIndex)) <==> exists r <- roles :: Covers(r, nowIndex, m)
  {
    SpansAreValid(roles, nowIndex);
    CoveredIs(Spans(roles, nowIndex), m);
    hide Covers, SpanOf, InSpan, Covered, Spans;
    if m in Covered(Spans(roles, nowIndex)) {
      var s :| s in Spans(roles, nowIndex) && InSpan(m, s);
      var r :| r in roles && SpanOf(r, nowIndex) == Some(s);
      CoversIs(r, nowIndex, m);
    }
    if exists r <- roles :: Covers(r, nowIndex, m) {
      var r :| r in roles && Covers(r, nowIndex, m);
      CoversIs(r, nowIndex, m);
      assert SpanOf(r, nowIndex).value in Spans(roles, nowIndex);
    }
  }

  /** A role known by its years alone counts whole years, from the first January to the last December. */
  lemma YearsAreWhole(from: int, to: int, nowIndex: int)
    requires from <= to
    ensures var role := Role(Some(YearMonth(from, None)), Some(YearMonth(to, None)), false);
            |Covered(Spans([role], nowIndex))| == 12 * (to - from + 1)
  {
    var role := Role(Some(YearMonth(from, None)), Some(YearMonth(to, None)), false);
    var s := Span(from * 12, to * 12 + 11);
    assert SpanOf(role, nowIndex) == Some(s);
    assert [role][1..] == [];
    assert Spans([role], nowIndex) == [s];
    assert CoveredBy([s], 0) + Interval(s.first, s.last) == Interval(s.first, s.last);
    IntervalSize(s.first, s.last);
  }
}
