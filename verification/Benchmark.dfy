/**
  The benchmark arithmetic of evaluation/runner.py, over exact rationals: the
  metrics of each target, their aggregate, and the rounding to four places.
 */
module Benchmark {
  import opened Wrappers
  import Text

  // ---- rounding ----

  // The nearest integer, and the even one of two equally near.
  function RoundHalfEven(x: real): int {
    var below := x.Floor;
    var rest := x - below as real;
    if rest < 0.5 then below
    else if rest > 0.5 then below + 1
    else if below % 2 == 0 then below
    else below + 1
  }

  function Round4(x: real): real {
    RoundHalfEven(x * 10000.0) as real / 10000.0
  }

  // `_ratio`
  function Ratio(numerator: real, denominator: nat): real {
    if denominator == 0 then 0.0 else Round4(numerator / denominator as real)
  }

  // Half a unit in the fourth decimal place.
  const HALF_UNIT: real := 0.00005

  predicate Near(x: real, y: real, distance: real) {
    -distance <= x - y <= distance
  }

  lemma RoundIsNear(x: real)
    ensures Near(RoundHalfEven(x) as real, x, 0.5)
  {
  }

  lemma Round4IsNear(x: real)
    ensures Near(Round4(x), x, HALF_UNIT)
  {
    RoundIsNear(x * 10000.0);
  }

  // Of two integers equally near, the even one.
  lemma RoundIsNearestEven(x: real)
    ensures var n := RoundHalfEven(x);
      Near(n as real, x, 0.5) && (n % 2 == 0 || n as real - 0.5 < x < n as real + 0.5)
  {
  }

  // The same four places down.
  lemma Round4IsNearestEven(x: real)
    ensures exists n: int ::
      && Round4(x) == n as real / 10000.0
      && Near(n as real, x * 10000.0, 0.5)
      && (n % 2 == 0 || n as real - 0.5 < x * 10000.0 < n as real + 0.5)
  {
    RoundIsNearestEven(x * 10000.0);
  }

  // Rounding stays within whole bounds, in particular between zero and one.
  lemma RoundStaysWithin(x: real, low: int, high: int)
    requires low as real <= x <= high as real
    ensures low <= RoundHalfEven(x) <= high
  {
  }

  predicate IsShare(x: real) {
    0.0 <= x <= 1.0
  }

  lemma RatioIsShare(part: nat, whole: nat)
    requires part <= whole
    ensures IsShare(Ratio(part as real, whole))
  {
    if whole > 0 {
      var x := part as real / whole as real;
      assert x * whole as real == part as real;
      CancelsOrder(0.0, x, whole as real);
      CancelsOrder(x, 1.0, whole as real);
      RoundStaysWithin(x * 10000.0, 0, 10000);
    }
  }

  // ---- the data ----

  datatype Status = Confirmed | Rejected | Inconclusive | PolicyBlocked

  datatype Report = Report(
    findingId: string,
    fingerprint: Option<string>,
    status: Status,
    iterations: nat,
    severity: Option<string>,
    context: Option<string>)

  datatype Expected = Expected(
    findingId: string,
    fingerprint: Option<string>,
    status: Status,
    vulnerable: bool,
    severity: Option<string>,
    context: Option<string>)

  datatype Pair = Pair(expected: Expected, report: Report)

  datatype Metrics = Metrics(
    expectedTotal: nat,
    observedTotal: nat,
    matchedTotal: nat,
    coverage: real,
    confirmed: nat,
    truePositives: nat,
    falsePositives: nat,
    groundTruthPositives: nat,
    averageSteps: real,
    statusMatches: nat,
    severityExpected: nat,
    severityMatches: nat,
    contextExpected: nat,
    contextMatches: nat,
    statusAccuracy: Option<real>,
    severityAccuracy: Option<real>,
    contextAccuracy: Option<real>,
    precision: Option<real>,
    recall: Option<real>)

  // ---- matching reports to expectations ----

  // The last report wins in both dictionaries.
  function ById(reports: seq<Report>, id: string): Option<Report> {
    if reports == [] then None
    else
      var last := reports[|reports| - 1];
      if last.findingId == id then Some(last) else ById(reports[..|reports| - 1], id)
  }

  function ByFingerprint(reports: seq<Report>, fingerprint: string): Option<Report> {
    if reports == [] then None
    else
      var last := reports[|reports| - 1];
      if last.fingerprint == Some(fingerprint) then Some(last)
      else ByFingerprint(reports[..|reports| - 1], fingerprint)
  }

  function ReportFor(reports: seq<Report>, e: Expected): Option<Report> {
    var direct := ById(reports, e.findingId);
    if direct.Some? || e.fingerprint.None? then direct else ByFingerprint(reports, e.fingerprint.value)
  }

  // The expectations among the first n that have a report.
  function Matched(findings: seq<Expected>, reports: seq<Report>, n: nat): seq<Pair>
    requires n <= |findings|
  {
    if n == 0 then []
    else
      var front := Matched(findings, reports, n - 1);
      var report := ReportFor(reports, findings[n - 1]);
      if report.Some? then front + [Pair(findings[n - 1], report.value)] else front
  }

  // The last report for which the key fits.
  predicate IsLast(reports: seq<Report>, fits: Report -> bool, i: int) {
    0 <= i < |reports| && fits(reports[i]) && forall j :: i < j < |reports| ==> !fits(reports[j])
  }

  function HasId(id: string): Report -> bool {
    (r: Report) => r.findingId == id
  }

  function HasFingerprint(fingerprint: string): Report -> bool {
    (r: Report) => r.fingerprint == Some(fingerprint)
  }

  ghost predicate LastOf(reports: seq<Report>, fits: Report -> bool, found: Option<Report>) {
    if found.Some? then exists i :: IsLast(reports, fits, i) && reports[i] == found.value
    else forall r :: r in reports ==> !fits(r)
  }

  lemma LastOfMore(reports: seq<Report>, fits: Report -> bool, found: Option<Report>)
    requires reports != []
    requires if fits(reports[|reports| - 1]) then found == Some(reports[|reports| - 1])
             else LastOf(reports[..|reports| - 1], fits, found)
    ensures LastOf(reports, fits, found)
  {
    var front, last := reports[..|reports| - 1], reports[|reports| - 1];
    if fits(last) {
      assert IsLast(reports, fits, |reports| - 1);
    } else if found.Some? {
      var i :| IsLast(front, fits, i) && front[i] == found.value;
      assert IsLast(reports, fits, i);
    } else {
      assert reports == front + [last];
    }
  }

  lemma {:induction false} ByIdIsLast(reports: seq<Report>, id: string)
    ensures LastOf(reports, HasId(id), ById(reports, id))
  {
    if reports != [] {
      if reports[|reports| - 1].findingId != id {
        ByIdIsLast(reports[..|reports| - 1], id);
      }
      LastOfMore(reports, HasId(id), ById(reports, id));
    }
  }

  lemma {:induction false} ByFingerprintIsLast(reports: seq<Report>, fingerprint: string)
    ensures LastOf(reports, HasFingerprint(fingerprint), ByFingerprint(reports, fingerprint))
  {
    if reports != [] {
      if reports[|reports| - 1].fingerprint != Some(fingerprint) {
        ByFingerprintIsLast(reports[..|reports| - 1], fingerprint);
      }
      LastOfMore(reports, HasFingerprint(fingerprint), ByFingerprint(reports, fingerprint));
    }
  }

  // The report belongs to the expectation: it is the last with its id, or, when
  // no report has that id, the last with its fingerprint.
  ghost predicate Belongs(reports: seq<Report>, e: Expected, r: Report) {
    || LastOf(reports, HasId(e.findingId), Some(r))
    || (LastOf(reports, HasId(e.findingId), None) && e.fingerprint.Some?
        && LastOf(reports, HasFingerprint(e.fingerprint.value), Some(r)))
  }

  // No report carries the id, and none the fingerprint.
  predicate Unreported(reports: seq<Report>, e: Expected) {
    && (forall r :: r in reports ==> r.findingId != e.findingId)
    && (e.fingerprint.Some? ==> forall r :: r in reports ==> r.fingerprint != e.fingerprint)
  }

  lemma ReportForBelongs(reports: seq<Report>, e: Expected)
    ensures ReportFor(reports, e).Some? ==> Belongs(reports, e, ReportFor(reports, e).value)
    ensures ReportFor(reports, e).None? <==> Unreported(reports, e)
  {
    ByIdIsLast(reports, e.findingId);
    if e.fingerprint.Some? {
      ByFingerprintIsLast(reports, e.fingerprint.value);
    }
  }

  // The pairs of the loop are those of the expectations that have a report.
  lemma {:induction false} MatchedArePairs(findings: seq<Expected>, reports: seq<Report>, n: nat)
    requires n <= |findings|
    ensures forall p :: p in Matched(findings, reports, n) <==>
      p.expected in findings[..n] && ReportFor(reports, p.expected) == Some(p.report)
  {
    if n > 0 {
      MatchedArePairs(findings, reports, n - 1);
      var front, e := Matched(findings, reports, n - 1), findings[n - 1];
      assert findings[..n] == findings[..n - 1] + [e];
      var report := ReportFor(reports, e);
      if report.Some? {
        assert Matched(findings, reports, n) == front + [Pair(e, report.value)];
      } else {
        assert Matched(findings, reports, n) == front;
      }
      forall p: Pair
        ensures p in Matched(findings, reports, n) <==>
          p.expected in findings[..n] && ReportFor(reports, p.expected) == Some(p.report)
      {
        assert p.expected == e ==> (report == Some(p.report) <==> report.Some? && p == Pair(e, report.value));
      }
    }
  }

  method MatchReports(findings: seq<Expected>, reports: seq<Report>) returns (matched: seq<Pair>)
    ensures matched == Matched(findings, reports, |findings|)
    ensures forall p :: p in matched ==> p.expected in findings && Belongs(reports, p.expected, p.report)
    ensures forall e :: e in findings ==> (Unreported(reports, e) || exists p :: p in matched && p.expected == e)
  {
    matched := [];
    for i := 0 to |findings|
      invariant matched == Matched(findings, reports, i)
    {
      var report := ById(reports, findings[i].findingId);
      if report.None? && findings[i].fingerprint.Some? {
        report := ByFingerprint(reports, findings[i].fingerprint.value);
      }
      if report.Some? {
        matched := matched + [Pair(findings[i], report.value)];
      }
    }
    PairsBelong(findings, reports);
  }

  lemma PairsBelong(findings: seq<Expected>, reports: seq<Report>)
    ensures forall p :: p in Matched(findings, reports, |findings|) ==>
      p.expected in findings && Belongs(reports, p.expected, p.report)
    ensures forall e :: e in findings ==>
      Unreported(reports, e) || exists p :: p in Matched(findings, reports, |findings|) && p.expected == e
  {
    var matched := Matched(findings, reports, |findings|);
    MatchedArePairs(findings, reports, |findings|);
    assert findings[..|findings|] == findings;
    forall p | p in matched
      ensures Belongs(reports, p.expected, p.report)
    {
      ReportForBelongs(reports, p.expected);
    }
    forall e | e in findings && !Unreported(reports, e)
      ensures exists p :: p in matched && p.expected == e
    {
      ReportForBelongs(reports, e);
      assert Pair(e, ReportFor(reports, e).value) in matched;
    }
  }

  // ---- counting ----

  function Count<T>(items: seq<T>, holds: T -> bool): nat {
    if items == [] then 0
    else Count(items[..|items| - 1], holds) + if holds(items[|items| - 1]) then 1 else 0
  }

  lemma {:induction false} CountGrows<T>(items: seq<T>, a: T -> bool, b: T -> bool)
    requires forall item :: item in items && a(item) ==> b(item)
    ensures Count(items, a) <= Count(items, b) <= |items|
  {
    if items != [] {
      CountGrows(items[..|items| - 1], a, b);
    }
  }

  lemma {:induction false} CountsSplit<T>(items: seq<T>, a: T -> bool, b: T -> bool)
    requires forall item :: item in items ==> !(a(item) && b(item))
    ensures Count(items, a) + Count(items, b) <= |items|
  {
    if items != [] {
      CountsSplit(items[..|items| - 1], a, b);
    }
  }

  function Vulnerable(): Expected -> bool {
    (e: Expected) => e.vulnerable
  }

  function TruePositive(): Pair -> bool {
    (p: Pair) => p.expected.vulnerable && p.report.status == Confirmed
  }

  function FalsePositive(): Pair -> bool {
    (p: Pair) => !p.expected.vulnerable && p.report.status == Confirmed
  }

  function StatusMatch(): Pair -> bool {
    (p: Pair) => p.expected.status == p.report.status
  }

  function SeverityExpected(): Pair -> bool {
    (p: Pair) => p.expected.severity.Some?
  }

  function SeverityMatch(): Pair -> bool {
    (p: Pair) => p.expected.severity.Some? && p.report.severity.Some?
                 && Text.Upper(p.report.severity.value) == Text.Upper(p.expected.severity.value)
  }

  function ContextExpected(): Pair -> bool {
    (p: Pair) => p.expected.context.Some?
  }

  function ContextMatch(): Pair -> bool {
    (p: Pair) => p.expected.context.Some? && p.report.context.Some?
                 && Text.Upper(p.report.context.value) == Text.Upper(p.expected.context.value)
  }

  function IsConfirmed(): Report -> bool {
    (r: Report) => r.status == Confirmed
  }

  function TotalSteps(reports: seq<Report>): nat {
    if reports == [] then 0 else TotalSteps(reports[..|reports| - 1]) + reports[|reports| - 1].iterations
  }

  lemma {:induction false} MatchedIsPart(findings: seq<Expected>, reports: seq<Report>, n: nat)
    requires n <= |findings|
    ensures |Matched(findings, reports, n)| <= n
    ensures Count(Matched(findings, reports, n), TruePositive()) <= Count(findings[..n], Vulnerable())
  {
    if n > 0 {
      MatchedIsPart(findings, reports, n - 1);
      assert findings[..n][..n - 1] == findings[..n - 1];
      var front := Matched(findings, reports, n - 1);
      var report := ReportFor(reports, findings[n - 1]);
      if report.Some? {
        assert (front + [Pair(findings[n - 1], report.value)])[..|front|] == front;
      }
    }
  }

  // How many of the first n items count, by their places.
  lemma {:induction false} CountIsPlaces<T>(items: seq<T>, holds: T -> bool, n: nat)
    requires n <= |items|
    ensures Count(items[..n], holds) == |set i | 0 <= i < n && holds(items[i])|
  {
    if n > 0 {
      CountIsPlaces(items, holds, n - 1);
      assert items[..n][..n - 1] == items[..n - 1];
      var before := set i | 0 <= i < n - 1 && holds(items[i]);
      assert (set i | 0 <= i < n && holds(items[i])) == before + if holds(items[n - 1]) then {n - 1} else {};
    }
  }

  function Reported(reports: seq<Report>): Expected -> bool {
    (e: Expected) => !Unreported(reports, e)
  }

  // As many pairs as expectations with a report.
  lemma {:induction false} MatchedAreReported(findings: seq<Expected>, reports: seq<Report>, n: nat)
    requires n <= |findings|
    ensures |Matched(findings, reports, n)| == Count(findings[..n], Reported(reports))
  {
    if n > 0 {
      MatchedAreReported(findings, reports, n - 1);
      ReportForBelongs(reports, findings[n - 1]);
      assert findings[..n][..n - 1] == findings[..n - 1];
    }
  }

  lemma {:induction false} CountsAdd<T>(items: seq<T>, a: T -> bool, b: T -> bool, both: T -> bool)
    requires forall item :: item in items ==> !(a(item) && b(item)) && (both(item) <==> a(item) || b(item))
    ensures Count(items, a) + Count(items, b) == Count(items, both)
  {
    if items != [] {
      CountsAdd(items[..|items| - 1], a, b, both);
    }
  }

  lemma OneMoreReport(reports: seq<Report>, report: Report)
    ensures TotalSteps([]) == 0 && TotalSteps(reports + [report]) == TotalSteps(reports) + report.iterations
  {
    assert (reports + [report])[..|reports|] == reports;
  }

  // ---- one target ----

  function Quotient(part: nat, whole: nat): Option<real> {
    if whole == 0 then None else Some(Ratio(part as real, whole))
  }

  // `_target_metrics`
  function TargetMetrics(findings: seq<Expected>, reports: seq<Report>): Metrics {
    var matched := Matched(findings, reports, |findings|);
    var tp, fp := Count(matched, TruePositive()), Count(matched, FalsePositive());
    var known := Count(findings, Vulnerable());
    var severityExpected, contextExpected := Count(matched, SeverityExpected()), Count(matched, ContextExpected());
    Metrics(
      |findings|, |reports|, |matched|, Ratio(|matched| as real, |findings|), Count(reports, IsConfirmed()),
      tp, fp, known, Ratio(TotalSteps(reports) as real, |reports|), Count(matched, StatusMatch()),
      severityExpected, Count(matched, SeverityMatch()), contextExpected, Count(matched, ContextMatch()),
      Quotient(Count(matched, StatusMatch()), |matched|),
      Quotient(Count(matched, SeverityMatch()), severityExpected),
      Quotient(Count(matched, ContextMatch()), contextExpected),
      Quotient(tp, tp + fp), Quotient(tp, known))
  }

  // The part of the whole, to four places, if there is a whole.
  predicate IsPart(x: Option<real>, part: nat, whole: nat) {
    && (x.Some? <==> whole > 0)
    && (whole > 0 ==> x.value == Round4(part as real / whole as real))
  }

  // Of the pairs whose report confirms, the share whose finding is vulnerable; of
  // the vulnerable findings, the share a report confirms.
  lemma PrecisionAndRecall(findings: seq<Expected>, reports: seq<Report>)
    ensures var m, pairs := TargetMetrics(findings, reports), Matched(findings, reports, |findings|);
      var said := set i | 0 <= i < |pairs| && pairs[i].report.status == Confirmed;
      var right := set i | 0 <= i < |pairs| && pairs[i].report.status == Confirmed && pairs[i].expected.vulnerable;
      var known := set i | 0 <= i < |findings| && findings[i].vulnerable;
      && m.truePositives == |right| && m.truePositives + m.falsePositives == |said|
      && m.groundTruthPositives == |known|
      && IsPart(m.precision, |right|, |said|)
      && IsPart(m.recall, |right|, |known|)
  {
    var pairs := Matched(findings, reports, |findings|);
    PlacesOf(pairs, TruePositive(),
             set i | 0 <= i < |pairs| && pairs[i].report.status == Confirmed && pairs[i].expected.vulnerable);
    PlacesOf(pairs, Said(), set i | 0 <= i < |pairs| && pairs[i].report.status == Confirmed);
    PlacesOf(findings, Vulnerable(), set i | 0 <= i < |findings| && findings[i].vulnerable);
    CountsAdd(pairs, TruePositive(), FalsePositive(), Said());
  }

  function Said(): Pair -> bool {
    (p: Pair) => p.report.status == Confirmed
  }

  // Of the pairs, the share with the expected status; of those that state a
  // severity or a context, the share that report it, whatever the case of the text.
  lemma AccuraciesAre(findings: seq<Expected>, reports: seq<Report>)
    ensures var m, pairs := TargetMetrics(findings, reports), Matched(findings, reports, |findings|);
      var status := set i | 0 <= i < |pairs| && pairs[i].report.status == pairs[i].expected.status;
      && m.statusMatches == |status| && IsPart(m.statusAccuracy, |status|, |pairs|)
      && m.severityExpected == |set i | 0 <= i < |pairs| && pairs[i].expected.severity.Some?|
      && m.severityMatches == |set i | 0 <= i < |pairs| && SameText(pairs[i].expected.severity, pairs[i].report.severity)|
      && IsPart(m.severityAccuracy, m.severityMatches, m.severityExpected)
      && m.contextExpected == |set i | 0 <= i < |pairs| && pairs[i].expected.context.Some?|
      && m.contextMatches == |set i | 0 <= i < |pairs| && SameText(pairs[i].expected.context, pairs[i].report.context)|
      && IsPart(m.contextAccuracy, m.contextMatches, m.contextExpected)
  {
    var pairs := Matched(findings, reports, |findings|);
    PlacesOf(pairs, StatusMatch(), set i | 0 <= i < |pairs| && pairs[i].report.status == pairs[i].expected.status);
    PlacesOf(pairs, SeverityExpected(), set i | 0 <= i < |pairs| && pairs[i].expected.severity.Some?);
    PlacesOf(pairs, SeverityMatch(),
             set i | 0 <= i < |pairs| && SameText(pairs[i].expected.severity, pairs[i].report.severity));
    PlacesOf(pairs, ContextExpected(), set i | 0 <= i < |pairs| && pairs[i].expected.context.Some?);
    PlacesOf(pairs, ContextMatch(),
             set i | 0 <= i < |pairs| && SameText(pairs[i].expected.context, pairs[i].report.context));
  }

  // Both are there, and the same but for the case of their letters.
  predicate SameText(a: Option<string>, b: Option<string>) {
    a.Some? && b.Some? && Text.Upper(a.value) == Text.Upper(b.value)
  }

  lemma PlacesOf<T>(items: seq<T>, holds: T -> bool, places: set<int>)
    requires forall i :: i in places <==> 0 <= i < |items| && holds(items[i])
    ensures Count(items, holds) == |places|
  {
    CountIsPlaces(items, holds, |items|);
    assert items[..|items|] == items;
    assert places == set i | 0 <= i < |items| && holds(items[i]);
  }

  // The totals of a target, and its coverage and average.
  lemma TotalsAre(findings: seq<Expected>, reports: seq<Report>)
    ensures var m := TargetMetrics(findings, reports);
      var reported := set i | 0 <= i < |findings| && !Unreported(reports, findings[i]);
      && m.expectedTotal == |findings| && m.observedTotal == |reports| && m.matchedTotal == |reported|
      && m.confirmed == |set i | 0 <= i < |reports| && reports[i].status == Confirmed|
      && m.coverage == (if findings == [] then 0.0 else Round4(|reported| as real / |findings| as real))
      && m.averageSteps == if reports == [] then 0.0 else Round4(TotalSteps(reports) as real / |reports| as real)
  {
    MatchedAreReported(findings, reports, |findings|);
    assert findings[..|findings|] == findings;
    PlacesOf(findings, Reported(reports), set i | 0 <= i < |findings| && !Unreported(reports, findings[i]));
    PlacesOf(reports, IsConfirmed(), set i | 0 <= i < |reports| && reports[i].status == Confirmed);
  }

  predicate IsShareIfAny(x: Option<real>) {
    x.Some? ==> IsShare(x.value)
  }

  predicate SharesHold(m: Metrics) {
    && IsShare(m.coverage) && IsShareIfAny(m.statusAccuracy) && IsShareIfAny(m.severityAccuracy)
    && IsShareIfAny(m.contextAccuracy) && IsShareIfAny(m.precision) && IsShareIfAny(m.recall)
  }

  // The parts never exceed their wholes.
  predicate PartsFit(m: Metrics) {
    && m.matchedTotal <= m.expectedTotal
    && m.truePositives <= m.groundTruthPositives
    && m.statusMatches <= m.matchedTotal
    && m.severityMatches <= m.severityExpected <= m.matchedTotal
    && m.contextMatches <= m.contextExpected <= m.matchedTotal
    && m.truePositives + m.falsePositives <= m.matchedTotal
  }

  lemma QuotientIsShare(part: nat, whole: nat)
    requires part <= whole
    ensures IsShareIfAny(Quotient(part, whole))
  {
    RatioIsShare(part, whole);
  }

  lemma TargetPartsFit(findings: seq<Expected>, reports: seq<Report>)
    ensures PartsFit(TargetMetrics(findings, reports))
  {
    var matched := Matched(findings, reports, |findings|);
    MatchedIsPart(findings, reports, |findings|);
    assert findings[..|findings|] == findings;
    CountGrows(matched, StatusMatch(), (p: Pair) => true);
    CountGrows(matched, SeverityMatch(), SeverityExpected());
    CountGrows(matched, ContextMatch(), ContextExpected());
    CountsSplit(matched, TruePositive(), FalsePositive());
  }

  // For every dataset and every set of reports, duplicates included, every
  // ratio of a target lies between zero and one.
  lemma TargetSharesHold(findings: seq<Expected>, reports: seq<Report>)
    ensures SharesHold(TargetMetrics(findings, reports))
  {
    TargetPartsFit(findings, reports);
    var m := TargetMetrics(findings, reports);
    RatioIsShare(m.matchedTotal, m.expectedTotal);
    QuotientIsShare(m.statusMatches, m.matchedTotal);
    QuotientIsShare(m.severityMatches, m.severityExpected);
    QuotientIsShare(m.contextMatches, m.contextExpected);
    QuotientIsShare(m.truePositives, m.truePositives + m.falsePositives);
    QuotientIsShare(m.truePositives, m.groundTruthPositives);
  }

  // ---- the aggregate ----

  function Sum(items: seq<Metrics>, field: Metrics -> nat): nat {
    if items == [] then 0 else Sum(items[..|items| - 1], field) + field(items[|items| - 1])
  }

  function RealSum(items: seq<Metrics>, field: Metrics -> real): real {
    if items == [] then 0.0 else RealSum(items[..|items| - 1], field) + field(items[|items| - 1])
  }

  function Steps(): Metrics -> real {
    (m: Metrics) => m.averageSteps * m.observedTotal as real
  }

  // The steps as the aggregate recomputes them from the rounded averages.
  function RecomputedSteps(items: seq<Metrics>): real {
    RealSum(items, Steps())
  }

  function ObservedTotal(): Metrics -> nat {
    (m: Metrics) => m.observedTotal
  }

  // `_aggregate_metrics`
  function Aggregate(items: seq<Metrics>): Metrics {
    var expected := Sum(items, (m: Metrics) => m.expectedTotal);
    var observed := Sum(items, ObservedTotal());
    var matched := Sum(items, (m: Metrics) => m.matchedTotal);
    var tp := Sum(items, (m: Metrics) => m.truePositives);
    var fp := Sum(items, (m: Metrics) => m.falsePositives);
    var known := Sum(items, (m: Metrics) => m.groundTruthPositives);
    var statusMatches := Sum(items, (m: Metrics) => m.statusMatches);
    var severityExpected := Sum(items, (m: Metrics) => m.severityExpected);
    var severityMatches := Sum(items, (m: Metrics) => m.severityMatches);
    var contextExpected := Sum(items, (m: Metrics) => m.contextExpected);
    var contextMatches := Sum(items, (m: Metrics) => m.contextMatches);
    Metrics(
      expected, observed, matched, Ratio(matched as real, expected), Sum(items, (m: Metrics) => m.confirmed),
      tp, fp, known, Ratio(RecomputedSteps(items), observed), statusMatches,
      severityExpected, severityMatches, contextExpected, contextMatches,
      Quotient(statusMatches, matched), Quotient(severityMatches, severityExpected),
      Quotient(contextMatches, contextExpected), Quotient(tp, tp + fp), Quotient(tp, known))
  }

  // The aggregate of no targets is empty.
  lemma NothingAggregated()
    ensures var m := Aggregate([]);
      && m.expectedTotal == m.observedTotal == m.matchedTotal == m.confirmed == 0
      && m.truePositives == m.falsePositives == m.groundTruthPositives == 0
      && m.statusMatches == m.severityExpected == m.severityMatches == m.contextExpected == m.contextMatches == 0
  {
  }

  // One more target adds its counts to the aggregate's, each to its own.
  lemma OneMoreAggregated(items: seq<Metrics>, m: Metrics)
    ensures var before, after := Aggregate(items), Aggregate(items + [m]);
      && after.expectedTotal == before.expectedTotal + m.expectedTotal
      && after.observedTotal == before.observedTotal + m.observedTotal
      && after.matchedTotal == before.matchedTotal + m.matchedTotal
      && after.confirmed == before.confirmed + m.confirmed
      && after.truePositives == before.truePositives + m.truePositives
      && after.falsePositives == before.falsePositives + m.falsePositives
      && after.groundTruthPositives == before.groundTruthPositives + m.groundTruthPositives
      && after.statusMatches == before.statusMatches + m.statusMatches
      && after.severityExpected == before.severityExpected + m.severityExpected
      && after.severityMatches == before.severityMatches + m.severityMatches
      && after.contextExpected == before.contextExpected + m.contextExpected
      && after.contextMatches == before.contextMatches + m.contextMatches
  {
    assert (items + [m])[..|items|] == items;
  }

  // The ratios of the aggregate are those of its own counts, not averages of the
  // targets' ratios.
  lemma AggregateRatiosAre(items: seq<Metrics>)
    ensures var m := Aggregate(items);
      && m.coverage == (if m.expectedTotal == 0 then 0.0
                        else Round4(m.matchedTotal as real / m.expectedTotal as real))
      && IsPart(m.precision, m.truePositives, m.truePositives + m.falsePositives)
      && IsPart(m.recall, m.truePositives, m.groundTruthPositives)
      && IsPart(m.statusAccuracy, m.statusMatches, m.matchedTotal)
      && IsPart(m.severityAccuracy, m.severityMatches, m.severityExpected)
      && IsPart(m.contextAccuracy, m.contextMatches, m.contextExpected)
  {
  }

  lemma {:induction false} SumsGrow(items: seq<Metrics>, a: Metrics -> nat, b: Metrics -> nat)
    requires forall m :: m in items ==> a(m) <= b(m)
    ensures Sum(items, a) <= Sum(items, b)
  {
    if items != [] {
      SumsGrow(items[..|items| - 1], a, b);
    }
  }

  // The ratios of the aggregate lie between zero and one as well.
  lemma AggregateSharesHold(items: seq<Metrics>)
    requires forall m :: m in items ==> PartsFit(m)
    ensures SharesHold(Aggregate(items))
  {
    SumsGrow(items, (m: Metrics) => m.matchedTotal, (m: Metrics) => m.expectedTotal);
    SumsGrow(items, (m: Metrics) => m.statusMatches, (m: Metrics) => m.matchedTotal);
    SumsGrow(items, (m: Metrics) => m.severityMatches, (m: Metrics) => m.severityExpected);
    SumsGrow(items, (m: Metrics) => m.contextMatches, (m: Metrics) => m.contextExpected);
    SumsGrow(items, (m: Metrics) => m.truePositives, (m: Metrics) => m.groundTruthPositives);
    var a := Aggregate(items);
    RatioIsShare(a.matchedTotal, a.expectedTotal);
    QuotientIsShare(a.statusMatches, a.matchedTotal);
    QuotientIsShare(a.severityMatches, a.severityExpected);
    QuotientIsShare(a.contextMatches, a.contextExpected);
    QuotientIsShare(a.truePositives, a.truePositives + a.falsePositives);
    QuotientIsShare(a.truePositives, a.groundTruthPositives);
  }

  // ---- the rounding error of the average ----

  datatype Target = Target(findings: seq<Expected>, reports: seq<Report>)

  function AllMetrics(targets: seq<Target>): (items: seq<Metrics>)
    ensures |items| == |targets|
  {
    seq(|targets|, i requires 0 <= i < |targets| => TargetMetrics(targets[i].findings, targets[i].reports))
  }

  // For every dataset and all report sets, not just for parts that fit.
  lemma BenchmarkSharesHold(targets: seq<Target>)
    ensures SharesHold(Aggregate(AllMetrics(targets)))
    ensures forall m :: m in AllMetrics(targets) ==> SharesHold(m)
  {
    var items := AllMetrics(targets);
    forall m | m in items
      ensures PartsFit(m) && SharesHold(m)
    {
      var i :| 0 <= i < |items| && items[i] == m;
      TargetPartsFit(targets[i].findings, targets[i].reports);
      TargetSharesHold(targets[i].findings, targets[i].reports);
    }
    AggregateSharesHold(items);
  }

  function AllSteps(targets: seq<Target>): nat {
    if targets == [] then 0 else AllSteps(targets[..|targets| - 1]) + TotalSteps(targets[|targets| - 1].reports)
  }

  function AllReports(targets: seq<Target>): nat {
    if targets == [] then 0 else AllReports(targets[..|targets| - 1]) + |targets[|targets| - 1].reports|
  }

  lemma TimesKeepsOrder(a: real, b: real, n: real)
    requires a <= b && n >= 0.0
    ensures a * n <= b * n
  {
    assert (b - a) * n >= 0.0;
  }

  lemma Scaled(x: real, y: real, distance: real, n: real)
    requires Near(x, y, distance) && n >= 0.0
    ensures Near(x * n, y * n, distance * n)
  {
    TimesKeepsOrder(y - distance, x, n);
    TimesKeepsOrder(x, y + distance, n);
    assert (y - distance) * n == y * n - distance * n;
    assert (y + distance) * n == y * n + distance * n;
  }

  lemma QuotientScalesBack(x: real, n: real, r: real)
    requires n > 0.0 && Near(r, x / n, HALF_UNIT)
    ensures Near(r * n, x, HALF_UNIT * n)
  {
    var q := x / n;
    assert q * n == x;
    Scaled(r, q, HALF_UNIT, n);
  }

  // The rounded average of some steps over n reports, scaled up again.
  lemma RatioScalesBack(steps: nat, n: nat)
    requires n == 0 ==> steps == 0
    ensures Near(Ratio(steps as real, n) * n as real, steps as real, HALF_UNIT * n as real)
  {
    if n > 0 {
      Round4IsNear(steps as real / n as real);
      QuotientScalesBack(steps as real, n as real, Ratio(steps as real, n));
    }
  }

  lemma NearAddsUp(a: real, b: real, m: nat, x: real, y: real, n: nat)
    requires Near(a, b, HALF_UNIT * m as real) && Near(x, y, HALF_UNIT * n as real)
    ensures Near(a + x, b + y, HALF_UNIT * (m + n) as real)
  {
  }

  // Each item gives the steps of its target back up to the rounding.
  predicate Restores(items: seq<Metrics>, targets: seq<Target>, field: Metrics -> real) {
    && |items| == |targets|
    && forall i :: 0 <= i < |items| ==>
         Near(field(items[i]), TotalSteps(targets[i].reports) as real, HALF_UNIT * |targets[i].reports| as real)
  }

  lemma {:induction false} SumsAreNear(items: seq<Metrics>, targets: seq<Target>, field: Metrics -> real)
    requires Restores(items, targets, field)
    ensures Near(RealSum(items, field), AllSteps(targets) as real, HALF_UNIT * AllReports(targets) as real)
  {
    if targets != [] {
      var n := |targets| - 1;
      SumsAreNear(items[..n], targets[..n], field);
      NearAddsUp(RealSum(items[..n], field), AllSteps(targets[..n]) as real, AllReports(targets[..n]),
                 field(items[n]), TotalSteps(targets[n].reports) as real, |targets[n].reports|);
    }
  }

  lemma TargetFields(t: Target)
    ensures var m := TargetMetrics(t.findings, t.reports);
      m.observedTotal == |t.reports| && m.averageSteps == Ratio(TotalSteps(t.reports) as real, |t.reports|)
  {
  }

  lemma FieldsRestore(m: Metrics, steps: nat)
    requires m.observedTotal == 0 ==> steps == 0
    requires m.averageSteps == Ratio(steps as real, m.observedTotal)
    ensures Near(Steps()(m), steps as real, HALF_UNIT * m.observedTotal as real)
  {
    RatioScalesBack(steps, m.observedTotal);
  }

  lemma TargetRestores(t: Target)
    ensures Near(Steps()(TargetMetrics(t.findings, t.reports)), TotalSteps(t.reports) as real,
                 HALF_UNIT * |t.reports| as real)
  {
    TargetFields(t);
    FieldsRestore(TargetMetrics(t.findings, t.reports), TotalSteps(t.reports));
  }

  lemma {:induction false} ObservedAddsUp(items: seq<Metrics>, targets: seq<Target>)
    requires |items| == |targets|
    requires forall i :: 0 <= i < |items| ==> items[i].observedTotal == |targets[i].reports|
    ensures Sum(items, ObservedTotal()) == AllReports(targets)
  {
    if targets != [] {
      ObservedAddsUp(items[..|items| - 1], targets[..|targets| - 1]);
    }
  }

  lemma StepsAreNear(targets: seq<Target>)
    ensures var items := AllMetrics(targets);
      && Near(RecomputedSteps(items), AllSteps(targets) as real, HALF_UNIT * AllReports(targets) as real)
      && Sum(items, ObservedTotal()) == AllReports(targets)
  {
    var items := AllMetrics(targets);
    forall i | 0 <= i < |targets|
      ensures items[i].observedTotal == |targets[i].reports|
      ensures Near(Steps()(items[i]), TotalSteps(targets[i].reports) as real, HALF_UNIT * |targets[i].reports| as real)
    {
      TargetFields(targets[i]);
      TargetRestores(targets[i]);
    }
    SumsAreNear(items, targets, Steps());
    ObservedAddsUp(items, targets);
  }

  lemma RatioIsNear(recomputed: real, exact: real, n: nat)
    requires n > 0 && Near(recomputed, exact, HALF_UNIT * n as real)
    ensures Near(Ratio(recomputed, n), exact / n as real, 2.0 * HALF_UNIT)
  {
    Round4IsNear(recomputed / n as real);
    Divided(recomputed, exact, HALF_UNIT, n as real);
  }

  lemma AggregateAverage(items: seq<Metrics>)
    ensures Aggregate(items).averageSteps == Ratio(RecomputedSteps(items), Sum(items, ObservedTotal()))
  {
  }

  // The reported overall average, computed from averages already rounded, is
  // within one ten-thousandth of the true overall average.
  lemma AverageIsNear(targets: seq<Target>)
    requires AllReports(targets) > 0
    ensures Near(Aggregate(AllMetrics(targets)).averageSteps,
                 AllSteps(targets) as real / AllReports(targets) as real, 2.0 * HALF_UNIT)
  {
    var items := AllMetrics(targets);
    StepsAreNear(targets);
    AggregateAverage(items);
    RatioIsNear(RecomputedSteps(items), AllSteps(targets) as real, AllReports(targets));
  }

  lemma Distributes(a: real, b: real, n: real)
    ensures (a + b) * n == a * n + b * n
  {
  }

  lemma Divided(x: real, y: real, distance: real, n: real)
    requires n > 0.0 && Near(x, y, distance * n)
    ensures Near(x / n, y / n, distance)
  {
    var p, q := x / n, y / n;
    assert p * n == x && q * n == y;
    Distributes(q, distance, n);
    Distributes(p, distance, n);
    CancelsOrder(p, q + distance, n);
    CancelsOrder(q, p + distance, n);
  }

  lemma CancelsOrder(a: real, b: real, n: real)
    requires n > 0.0 && a * n <= b * n
    ensures a <= b
  {
    assert a > b ==> (a - b) * n > 0.0;
  }

  // With no report at all the average is zero.
  lemma NoReportsNoAverage(targets: seq<Target>)
    requires AllReports(targets) == 0
    ensures Aggregate(AllMetrics(targets)).averageSteps == 0.0
  {
    StepsAreNear(targets);
    AggregateAverage(AllMetrics(targets));
  }
}
