/**
 * The per-project record `PortfolioAnalyzer.ProjectData` and the loop that
 * fills it from the `component.measures` entries of one response.
 */
module Measures {
  import opened Wrappers
  import opened SonarApi

  /**
   * Java's `(int)` cast of a double, and org.json's `getInt` on a numeric value
   * (`Number.intValue()`): truncation toward zero.
   */
  function Trunc(x: real): (r: int)
    ensures 0.0 <= x ==> 0 <= r && r as real <= x < r as real + 1.0
    ensures x < 0.0 ==> r <= 0 && r as real - 1.0 < x <= r as real
  {
    if x >= 0.0 then x.Floor else -((-x).Floor)
  }

  /** The covered-line count of one project: its lines scaled by the coverage percentage, truncated. */
  function CoveredLines(lines: int, coverage: real): int {
    Trunc(lines as real * (coverage / 100.0))
  }

  lemma CoveredLinesBounds(lines: int, coverage: real)
    requires 0 <= lines && 0.0 <= coverage <= 100.0
    ensures 0 <= CoveredLines(lines, coverage) <= lines
  {
    var x := lines as real * (coverage / 100.0);
    assert 0.0 <= x <= lines as real by {
      assert 0.0 <= coverage / 100.0 <= 1.0;
      MulBounds(lines as real, coverage / 100.0);
    }
  }

  lemma MulBounds(a: real, q: real)
    requires 0.0 <= a && 0.0 <= q <= 1.0
    ensures 0.0 <= a * q <= a
  {
  }

  /** Truncation, not rounding: a line count is never rounded up. */
  lemma CoveredLinesTruncates(lines: int, coverage: real)
    requires 0 <= lines && 0.0 <= coverage
    ensures var exact := lines as real * (coverage / 100.0);
      CoveredLines(lines, coverage) as real <= exact < CoveredLines(lines, coverage) as real + 1.0
  {
  }

  /** Seven lines at 50% cover three lines, not four. */
  lemma SevenAtFiftyIsThree()
    ensures CoveredLines(7, 50.0) == 3
  {
  }

  /**
   * The coverage data of one project. A fresh record starts at zero in every
   * field; the setters of the Java class are the record updates below.
   */
  datatype ProjectData = ProjectData(totalLines: int, newLines: int, totalCoverage: real, newCoverage: real) {
    function TotalLinesCovered(): int {
      CoveredLines(totalLines, totalCoverage)
    }
    function NewLinesCovered(): int {
      CoveredLines(newLines, newCoverage)
    }
  }

  const Empty: ProjectData := ProjectData(0, 0, 0.0, 0.0)

  /** The two metrics whose value sits directly on the entry. */
  predicate IsDirect(metric: string) {
    metric == LinesToCover || metric == Coverage
  }

  /** The four metrics the analyser records. */
  predicate IsKnown(metric: string) {
    IsDirect(metric) || metric == NewLinesToCover || metric == NewCoverage
  }

  /**
   * The number an entry supplies: `value` for a direct metric, `period.value`
   * for any other.
   */
  function Reading(m: Measure): Option<real> {
    if IsDirect(m.metric) then m.value
    else match m.period
      case None => None
      case Some(p) => p.value
  }

  /**
   * An entry the dispatch can read without org.json throwing: a direct metric
   * needs `value`; every other entry needs `period`, and the two new-code metrics
   * also need `period.value`.
   */
  predicate Readable(m: Measure) {
    if IsDirect(m.metric) then m.value.Some?
    else m.period.Some? && (IsKnown(m.metric) ==> m.period.value.value.Some?)
  }

  /** The key whose absence makes org.json throw on an unreadable entry. */
  function MissingKey(m: Measure): string
    requires !Readable(m)
  {
    if !IsDirect(m.metric) && m.period.None? then "period" else "value"
  }

  /** One iteration of the dispatch over `measures`. */
  function Apply(d: ProjectData, m: Measure): (r: Result<ProjectData, Error>)
    ensures r.Success? <==> Readable(m)
    ensures r.Failure? ==> r.error == MissingField(MissingKey(m))
    ensures r.Success? ==> r.value.totalLines == (if m.metric == LinesToCover then Trunc(Reading(m).value) else d.totalLines)
    ensures r.Success? ==> r.value.totalCoverage == (if m.metric == Coverage then Reading(m).value else d.totalCoverage)
    ensures r.Success? ==> r.value.newLines == (if m.metric == NewLinesToCover then Trunc(Reading(m).value) else d.newLines)
    ensures r.Success? ==> r.value.newCoverage == (if m.metric == NewCoverage then Reading(m).value else d.newCoverage)
  {
    if m.metric == LinesToCover then
      match m.value
      case None => Failure(MissingField("value"))
      case Some(v) => Success(d.(totalLines := Trunc(v)))
    else if m.metric == Coverage then
      match m.value
      case None => Failure(MissingField("value"))
      case Some(v) => Success(d.(totalCoverage := v))
    else
      match m.period
      case None => Failure(MissingField("period"))
      case Some(period) =>
        if m.metric == NewLinesToCover then
          match period.value
          case None => Failure(MissingField("value"))
          case Some(v) => Success(d.(newLines := Trunc(v)))
        else if m.metric == NewCoverage then
          match period.value
          case None => Failure(MissingField("value"))
          case Some(v) => Success(d.(newCoverage := v))
        else
          Success(d)
  }

  /** The whole dispatch loop, as a left fold of `Apply` from `Empty`. */
  function ParseMeasures(ms: seq<Measure>): (r: Result<ProjectData, Error>)
    ensures r.Success? <==> forall i | 0 <= i < |ms| :: Readable(ms[i])
    decreases |ms|
  {
    if ms == [] then Success(Empty)
    else
      match ParseMeasures(ms[..|ms| - 1])
      case Failure(e) => Failure(e)
      case Success(d) => Apply(d, ms[|ms| - 1])
  }

  /**
   * The measures loop of one project: a fresh record, then one setter call
   * per entry; the first unreadable entry aborts.
   */
  method ReadMeasures(measures: seq<Measure>) returns (r: Result<ProjectData, Error>)
    ensures r == ParseMeasures(measures)
  {
    var data := Empty;
    var i := 0;
    while i < |measures|
      invariant 0 <= i <= |measures|
      invariant ParseMeasures(measures[..i]) == Success(data)
    {
      var measure := measures[i];
      assert measures[..i + 1][..i] == measures[..i];
      var metric := measure.metric;
      if metric == LinesToCover {
        if measure.value.None? {
          r := Failure(MissingField("value"));
          FailureAt(measures, i);
          return;
        }
        data := data.(totalLines := Trunc(measure.value.value));
      } else if metric == Coverage {
        if measure.value.None? {
          r := Failure(MissingField("value"));
          FailureAt(measures, i);
          return;
        }
        data := data.(totalCoverage := measure.value.value);
      } else {
        if measure.period.None? {
          r := Failure(MissingField("period"));
          FailureAt(measures, i);
          return;
        }
        var period := measure.period.value;
        if metric == NewLinesToCover {
          if period.value.None? {
            r := Failure(MissingField("value"));
            FailureAt(measures, i);
            return;
          }
          data := data.(newLines := Trunc(period.value.value));
        } else if metric == NewCoverage {
          if period.value.None? {
            r := Failure(MissingField("value"));
            FailureAt(measures, i);
            return;
          }
          data := data.(newCoverage := period.value.value);
        }
      }
      i := i + 1;
    }
    assert measures[..i] == measures;
    r := Success(data);
  }

  /** A failure in a prefix is the failure of the whole list. */
  lemma {:induction false} FailurePersists(p: seq<Measure>, q: seq<Measure>)
    requires ParseMeasures(p).Failure?
    ensures ParseMeasures(p + q) == ParseMeasures(p)
    decreases |q|
  {
    if q != [] {
      var q' := q[..|q| - 1];
      assert (p + q)[..|p + q| - 1] == p + q';
      FailurePersists(p, q');
    } else {
      assert p + q == p;
    }
  }

  /** The first unreadable entry decides the error of the whole list. */
  lemma FailureAt(ms: seq<Measure>, i: nat)
    requires i < |ms| && !Readable(ms[i])
    requires forall j | 0 <= j < i :: Readable(ms[j])
    ensures ParseMeasures(ms) == Failure(MissingField(MissingKey(ms[i])))
  {
    var p, q := ms[..i + 1], ms[i + 1..];
    assert ms == p + q;
    PrefixFailsAt(ms, i);
    FailurePersists(p, q);
  }

  lemma PrefixFailsAt(ms: seq<Measure>, i: nat)
    requires i < |ms| && !Readable(ms[i])
    requires forall j | 0 <= j < i :: Readable(ms[j])
    ensures ParseMeasures(ms[..i + 1]) == Failure(MissingField(MissingKey(ms[i])))
  {
    var p := ms[..i + 1];
    assert p[..|p| - 1] == ms[..i];
    assert p[|p| - 1] == ms[i];
    assert ParseMeasures(ms[..i]).Success? by {
      assert forall j | 0 <= j < i :: ms[..i][j] == ms[j];
    }
  }

  /** The reading of the last entry named `metric`, if there is one. */
  function LastReading(ms: seq<Measure>, metric: string): Option<real>
    decreases |ms|
  {
    if ms == [] then None
    else if ms[|ms| - 1].metric == metric then Reading(ms[|ms| - 1])
    else LastReading(ms[..|ms| - 1], metric)
  }

  /**
   * Last writer wins: each field holds what the last entry of its metric
   * supplied, or its default 0 when no entry named that metric.
   */
  lemma {:induction false} LastWriterWins(ms: seq<Measure>)
    requires ParseMeasures(ms).Success?
    ensures var d := ParseMeasures(ms).value;
      && d.totalLines == Trunc(LastReading(ms, LinesToCover).GetOr(0.0))
      && d.totalCoverage == LastReading(ms, Coverage).GetOr(0.0)
      && d.newLines == Trunc(LastReading(ms, NewLinesToCover).GetOr(0.0))
      && d.newCoverage == LastReading(ms, NewCoverage).GetOr(0.0)
    decreases |ms|
  {
    if ms != [] {
      var init := ms[..|ms| - 1];
      assert forall i | 0 <= i < |init| :: init[i] == ms[i];
      LastWriterWins(init);
    }
  }

  /** A metric no entry names leaves no reading. */
  lemma {:induction false} AbsentMetric(ms: seq<Measure>, metric: string)
    requires forall i | 0 <= i < |ms| :: ms[i].metric != metric
    ensures LastReading(ms, metric) == None
    decreases |ms|
  {
    if ms != [] {
      var init := ms[..|ms| - 1];
      assert forall i | 0 <= i < |init| :: init[i] == ms[i];
      AbsentMetric(init, metric);
    }
  }

  /** A project whose response has no `new_lines_to_cover` entry contributes no new lines and no new covered lines. */
  lemma NoNewCodeMeansZero(ms: seq<Measure>)
    requires ParseMeasures(ms).Success?
    requires forall i | 0 <= i < |ms| :: ms[i].metric != NewLinesToCover
    ensures ParseMeasures(ms).value.newLines == 0
    ensures ParseMeasures(ms).value.NewLinesCovered() == 0
  {
    var d := ParseMeasures(ms).value;
    AbsentMetric(ms, NewLinesToCover);
    assert d.newLines == Trunc(0.0) by {
      LastWriterWins(ms);
    }
    ZeroLinesCoverNothing(d.newCoverage);
  }

  lemma ZeroLinesCoverNothing(coverage: real)
    ensures CoveredLines(0, coverage) == 0
  {
  }

  /** An entry of an unrecorded metric that carries a `period` changes nothing. */
  lemma {:induction false} UnknownMetricIgnored(a: seq<Measure>, m: Measure, b: seq<Measure>)
    requires !IsKnown(m.metric) && m.period.Some?
    ensures ParseMeasures(a + [m] + b) == ParseMeasures(a + b)
    decreases |b|
  {
    if b == [] {
      assert (a + [m])[..|a|] == a;
      assert a + [m] + b == a + [m];
      assert a + b == a;
    } else {
      var b' := b[..|b| - 1];
      assert (a + [m] + b)[..|a + [m] + b| - 1] == a + [m] + b';
      assert (a + b)[..|a + b| - 1] == a + b';
      UnknownMetricIgnored(a, m, b');
    }
  }

  /**
   * An entry of an unrecorded metric without `period` aborts the parse with the
   * missing key `period`, wherever it follows readable entries.
   */
  lemma UnknownMetricWithoutPeriodAborts(a: seq<Measure>, m: Measure, b: seq<Measure>)
    requires forall j | 0 <= j < |a| :: Readable(a[j])
    requires !IsKnown(m.metric) && m.period.None?
    ensures ParseMeasures(a + [m] + b) == Failure(MissingField("period"))
  {
    var ms := a + [m] + b;
    assert ms[|a|] == m;
    assert forall j | 0 <= j < |a| :: ms[j] == a[j];
    FailureAt(ms, |a|);
  }
}
