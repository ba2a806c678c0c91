/**
 * `EntryClass.main`: the argument check, the analysis, and the two closing
 * coverage ratios.
 */
module Entry {
  import opened Wrappers
  import opened SonarApi
  import opened Measures
  import opened Analyzer

  /**
   * Covered lines as a percentage of the lines to cover. With no lines the
   * Java division yields NaN or an infinity; the model calls that undefined.
   */
  function Ratio(covered: int, lines: int): (r: Option<real>)
    ensures r.Some? <==> lines != 0
    ensures r.Some? ==> r.value * lines as real == 100.0 * covered as real
  {
    if lines == 0 then None else Some(100.0 * covered as real / lines as real)
  }

  /** The reported new-code ratio: the plain ratio, forced to 0 when there are no new lines. */
  function NewCodeRatio(covered: int, lines: int): (r: real)
    ensures lines == 0 ==> r == 0.0
    ensures lines != 0 ==> r * lines as real == 100.0 * covered as real
  {
    if lines == 0 then 0.0 else Ratio(covered, lines).value
  }

  /** With no more covered lines than lines, a ratio is a percentage. */
  lemma RatioIsPercentage(covered: int, lines: int)
    requires 0 <= covered <= lines && 0 < lines
    ensures 0.0 <= Ratio(covered, lines).value <= 100.0
  {
  }

  /** The two printed lines: `covered/lines=ratio` for overall and for new code. */
  datatype Report = Report(
    totalLinesCovered: int, totalLinesOfCode: int, totalCoverage: Option<real>,
    newLinesCovered: int, newLinesOfCode: int, newCoverage: real)

  /** Usage text and exit status 0; an exception escaping `main`; or the report. */
  datatype Outcome = Usage | Aborted(failure: RunFailure) | Printed(report: Report)

  function ReportOf(t: Totals): Report {
    Report(t.totalLinesCovered, t.totalLinesOfCode, Ratio(t.totalLinesCovered, t.totalLinesOfCode),
           t.newLinesCovered, t.newLinesOfCode, NewCodeRatio(t.newLinesCovered, t.newLinesOfCode))
  }

  /** What `main` does with `args` against the given server. */
  function Expected(args: seq<string>, tree: TreeService, service: MeasureService): Outcome {
    if |args| != 4 then Usage
    else
      var run := Analysis(tree, service, StripTrailingSlash(args[1]), args[0], args[2], args[3]);
      if run.ending.Failed? then Aborted(run.ending.failure) else Printed(ReportOf(SumOf(run.folded)))
  }

  method RunCommandLine(args: seq<string>, tree: TreeService, service: MeasureService) returns (out: Outcome)
    ensures out == Expected(args, tree, service)
  {
    if |args| != 4 {
      return Usage;
    }
    var token := args[0];
    var url := args[1];
    var portfolio := args[2];
    var branch := args[3];

    var pa := new PortfolioAnalyzer(token, url, portfolio, branch);
    var ending := pa.AnalyzePortfolio(tree, service);
    ghost var run := Analysis(tree, service, StripTrailingSlash(url), token, portfolio, branch);
    assert pa.processed == run.folded;
    if ending.Failed? {
      return Aborted(ending.failure);
    }
    var totalCoverage := Ratio(pa.totalLinesCovered, pa.totalLinesOfCode);
    var newCoverage := Ratio(pa.newLinesCovered, pa.newLinesOfCode);
    if pa.newLinesOfCode == 0 {
      newCoverage := Some(0.0);
    }
    out := Printed(Report(pa.totalLinesCovered, pa.totalLinesOfCode, totalCoverage,
                          pa.newLinesCovered, pa.newLinesOfCode, newCoverage.value));
  }

  /** Any argument count other than four prints the usage text and analyses nothing. */
  lemma WrongArityIsUsage(args: seq<string>, tree: TreeService, service: MeasureService)
    requires |args| != 4
    ensures Expected(args, tree, service) == Usage
  {
  }

  /**
   * The arguments are token, URL, portfolio and branch, in that order: the
   * outcome depends only on the server's answer to the tree request for the
   * portfolio (with the normalised host and the token) and on its answers to
   * measures requests for the branch. Servers that agree there give the same
   * outcome.
   */
  lemma ArgumentsArePositional(args: seq<string>, tree1: TreeService, tree2: TreeService,
                                service1: MeasureService, service2: MeasureService)
    requires |args| == 4
    requires tree1(TreeRequest(StripTrailingSlash(args[1]), args[0], args[2]))
          == tree2(TreeRequest(StripTrailingSlash(args[1]), args[0], args[2]))
    requires forall p :: service1(MeasuresRequest(StripTrailingSlash(args[1]), args[0], p, args[3]))
                      == service2(MeasuresRequest(StripTrailingSlash(args[1]), args[0], p, args[3]))
    ensures Expected(args, tree1, service1) == Expected(args, tree2, service2)
  {
    var host := StripTrailingSlash(args[1]);
    match Discover(tree1(TreeRequest(host, args[0], args[2])))
    case Failure(_) =>
    case Success(projects) =>
      RunSeesOnlyItsRequests(service1, service2, host, args[0], args[3], projects);
  }

  /** An empty portfolio reports zero everywhere, a new-code ratio of 0 and an undefined overall ratio. */
  lemma EmptyPortfolio(args: seq<string>, tree: TreeService, service: MeasureService)
    requires |args| == 4
    requires Discover(tree(TreeRequest(StripTrailingSlash(args[1]), args[0], args[2]))) == Success([])
    ensures Expected(args, tree, service) == Printed(Report(0, 0, None, 0, 0, 0.0))
  {
  }

  /** A failed tree request (an `IOException`) is swallowed: the run reports an empty portfolio. */
  lemma DiscoveryIoFailureReportsNothing(args: seq<string>, tree: TreeService, service: MeasureService)
    requires |args| == 4
    requires tree(TreeRequest(StripTrailingSlash(args[1]), args[0], args[2])).IoFailure?
    ensures Expected(args, tree, service) == Printed(Report(0, 0, None, 0, 0, 0.0))
  {
  }

  const ProjectA: seq<Measure> := [
    Measure(LinesToCover, Some(100.0), None),
    Measure(Coverage, Some(80.0), None),
    Measure(NewLinesToCover, None, Some(Period(Some(10.0)))),
    Measure(NewCoverage, None, Some(Period(Some(50.0))))]

  const ProjectB: seq<Measure> := [
    Measure(LinesToCover, Some(50.0), None),
    Measure(Coverage, Some(40.0), None)]

  function TwoProjectTree(req: TreeRequest): Response<seq<Component>> {
    Reply(200, Some([Component(Some("A")), Component(Some("B"))]))
  }

  function TwoProjectMeasures(req: MeasuresRequest): Response<seq<Measure>> {
    Reply(200, Some(if req.project == "A" then ProjectA else ProjectB))
  }

  lemma ParseProjectA()
    ensures ParseMeasures(ProjectA) == Success(ProjectData(100, 10, 80.0, 50.0))
  {
    assert Trunc(100.0) == 100 && Trunc(10.0) == 10;
    assert ProjectA[..1][..0] == [];
    assert ParseMeasures(ProjectA[..1]) == Success(ProjectData(100, 0, 0.0, 0.0));
    assert ProjectA[..2][..1] == ProjectA[..1];
    assert ParseMeasures(ProjectA[..2]) == Success(ProjectData(100, 0, 80.0, 0.0));
    assert ProjectA[..3][..2] == ProjectA[..2];
    assert ParseMeasures(ProjectA[..3]) == Success(ProjectData(100, 10, 80.0, 0.0));
    assert ProjectA[..|ProjectA| - 1] == ProjectA[..3];
  }

  lemma ParseProjectB()
    ensures ParseMeasures(ProjectB) == Success(ProjectData(50, 0, 40.0, 0.0))
  {
    assert Trunc(50.0) == 50;
    assert ProjectB[..1][..0] == [];
    assert ParseMeasures(ProjectB[..1]) == Success(ProjectData(50, 0, 0.0, 0.0));
    assert ProjectB[..|ProjectB| - 1] == ProjectB[..1];
  }

  lemma DiscoverTwoProjects(req: TreeRequest)
    ensures Discover(TwoProjectTree(req)) == Success(["A", "B"])
  {
    var components := [Component(Some("A")), Component(Some("B"))];
    assert components[1..] == [Component(Some("B"))] && components[1..][1..] == [];
    assert RefKeys(components[1..][1..]) == Success([]);
    assert ["B"] + [] == ["B"] && ["A"] + ["B"] == ["A", "B"];
    assert RefKeys(components[1..]) == Success(["B"]);
  }

  lemma RunTwoProjects(host: string, token: string, branch: string)
    ensures Run(TwoProjectMeasures, host, token, branch, ["A", "B"])
         == RunResult([ProjectData(100, 10, 80.0, 50.0), ProjectData(50, 0, 40.0, 0.0)], Completed)
  {
    var projects := ["A", "B"];
    ParseProjectA();
    ParseProjectB();
    assert projects[1..] == ["B"] && projects[1..][1..] == [];
    assert "B" != "A";
  }

  lemma SumTwoProjects()
    ensures SumOf([ProjectData(100, 10, 80.0, 50.0), ProjectData(50, 0, 40.0, 0.0)]) == Totals(150, 10, 100, 5)
  {
    var a := ProjectData(100, 10, 80.0, 50.0);
    var b := ProjectData(50, 0, 40.0, 0.0);
    assert a.TotalLinesCovered() == 80 && a.NewLinesCovered() == 5 by {
      assert 100 as real * (80.0 / 100.0) == 80.0;
      assert 10 as real * (50.0 / 100.0) == 5.0;
    }
    assert b.TotalLinesCovered() == 20 && b.NewLinesCovered() == 0 by {
      assert 50 as real * (40.0 / 100.0) == 20.0;
      ZeroLinesCoverNothing(0.0);
    }
    assert [a, b][..1] == [a] && [a][..0] == [];
    assert SumOf([a]) == Contribution(a) == Totals(100, 10, 80, 5);
    assert Contribution(b) == Totals(50, 0, 20, 0);
  }

  /**
   * Two projects: A with 100 lines at 80% and 10 new lines at 50%, B with 50
   * lines at 40% and no new code. The report is 100/150 overall and 5/10 = 50%
   * on new code.
   */
  lemma TwoProjectPortfolio()
    ensures Expected(["token", "https://sonar.example/", "portfolio", "main"], TwoProjectTree, TwoProjectMeasures)
         == Printed(Report(100, 150, Some(200.0 / 3.0), 5, 10, 50.0))
  {
    var args := ["token", "https://sonar.example/", "portfolio", "main"];
    var host := StripTrailingSlash(args[1]);
    DiscoverTwoProjects(TreeRequest(host, args[0], args[2]));
    RunTwoProjects(host, args[0], args[3]);
    var run := Analysis(TwoProjectTree, TwoProjectMeasures, host, args[0], args[2], args[3]);
    assert run == RunResult([ProjectData(100, 10, 80.0, 50.0), ProjectData(50, 0, 40.0, 0.0)], Completed);
    SumTwoProjects();
    assert ReportOf(Totals(150, 10, 100, 5)) == Report(100, 150, Some(200.0 / 3.0), 5, 10, 50.0);
  }
}
