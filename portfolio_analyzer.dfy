/**
 * `PortfolioAnalyzer`: discovery of the projects of a portfolio, then one
 * measures request per project folded into four running totals.
 */
module Analyzer {
  import opened Wrappers
  import opened SonarApi
  import opened Measures

  // ---------------------------------------------------------------------------
  // Host URL normalisation

  predicate EndsWithSlash(s: string) {
    |s| > 0 && s[|s| - 1] == '/'
  }

  /** The host URL with one trailing `/` dropped, if it has one. */
  function StripTrailingSlash(url: string): (r: string)
    ensures EndsWithSlash(url) ==> r + "/" == url
    ensures !EndsWithSlash(url) ==> r == url
  {
    if EndsWithSlash(url) then url[..|url| - 1] else url
  }

  /** Only one slash goes: `"h//"` becomes `"h/"`. */
  lemma StripRemovesOneSlash()
    ensures StripTrailingSlash("h//") == "h/"
  {
  }

  // ---------------------------------------------------------------------------
  // Running totals

  datatype Totals = Totals(totalLinesOfCode: int, newLinesOfCode: int, totalLinesCovered: int, newLinesCovered: int)

  const Zero: Totals := Totals(0, 0, 0, 0)

  function Plus(a: Totals, b: Totals): Totals {
    Totals(a.totalLinesOfCode + b.totalLinesOfCode, a.newLinesOfCode + b.newLinesOfCode,
           a.totalLinesCovered + b.totalLinesCovered, a.newLinesCovered + b.newLinesCovered)
  }

  /** What one project adds to the four totals. */
  function Contribution(d: ProjectData): Totals {
    Totals(d.totalLines, d.newLines, d.TotalLinesCovered(), d.NewLinesCovered())
  }

  /** The totals after folding in `ds`, in order, from zero. */
  function SumOf(ds: seq<ProjectData>): Totals
    decreases |ds|
  {
    if ds == [] then Zero else Plus(SumOf(ds[..|ds| - 1]), Contribution(ds[|ds| - 1]))
  }

  /** Folding one more project adds its contribution. */
  lemma SumOfSnoc(ds: seq<ProjectData>, d: ProjectData)
    ensures SumOf(ds + [d]) == Plus(SumOf(ds), Contribution(d))
  {
    assert (ds + [d])[..|ds|] == ds;
  }

  /** Folding two runs one after the other adds their totals. */
  lemma {:induction false} SumOfAppend(a: seq<ProjectData>, b: seq<ProjectData>)
    ensures SumOf(a + b) == Plus(SumOf(a), SumOf(b))
    decreases |b|
  {
    if b == [] {
      assert a + b == a;
    } else {
      var b' := b[..|b| - 1];
      assert (a + b)[..|a + b| - 1] == a + b';
      SumOfAppend(a, b');
    }
  }

  /** A project whose line counts are non-negative and whose percentages lie in [0, 100]. */
  predicate Sane(d: ProjectData) {
    0 <= d.totalLines && 0 <= d.newLines &&
    0.0 <= d.totalCoverage <= 100.0 && 0.0 <= d.newCoverage <= 100.0
  }

  /** For sane projects, covered lines never exceed the lines to cover, in either total. */
  lemma {:induction false} CoveredWithinLines(ds: seq<ProjectData>)
    requires forall i | 0 <= i < |ds| :: Sane(ds[i])
    ensures 0 <= SumOf(ds).totalLinesCovered <= SumOf(ds).totalLinesOfCode
    ensures 0 <= SumOf(ds).newLinesCovered <= SumOf(ds).newLinesOfCode
    decreases |ds|
  {
    if ds != [] {
      var init, d := ds[..|ds| - 1], ds[|ds| - 1];
      assert forall i | 0 <= i < |init| :: init[i] == ds[i];
      CoveredWithinLines(init);
      CoveredLinesBounds(d.totalLines, d.totalCoverage);
      CoveredLinesBounds(d.newLines, d.newCoverage);
    }
  }

  /** The overall covered lines without truncation: the sum of `lines * (coverage / 100)`. */
  ghost function ExactCovered(ds: seq<ProjectData>): real
    decreases |ds|
  {
    if ds == [] then 0.0
    else ExactCovered(ds[..|ds| - 1]) + ds[|ds| - 1].totalLines as real * (ds[|ds| - 1].totalCoverage / 100.0)
  }

  /** The last project of `ds` adds its truncated count to the sum and its exact count to the exact sum. */
  lemma TotalStep(ds: seq<ProjectData>)
    requires ds != [] && Sane(ds[|ds| - 1])
    ensures var init, d := ds[..|ds| - 1], ds[|ds| - 1];
      && SumOf(ds).totalLinesCovered == SumOf(init).totalLinesCovered + d.TotalLinesCovered()
      && ExactCovered(ds) - ExactCovered(init) - 1.0 < d.TotalLinesCovered() as real <= ExactCovered(ds) - ExactCovered(init)
  {
    var d := ds[|ds| - 1];
    CoveredLinesTruncates(d.totalLines, d.totalCoverage);
  }

  /** Truncation loses less than one line per project, and never adds one. */
  lemma {:induction false} TruncationDrift(ds: seq<ProjectData>)
    requires forall i | 0 <= i < |ds| :: Sane(ds[i])
    ensures SumOf(ds).totalLinesCovered as real <= ExactCovered(ds)
    ensures ExactCovered(ds) - |ds| as real <= SumOf(ds).totalLinesCovered as real
    ensures 0 < |ds| ==> ExactCovered(ds) - |ds| as real < SumOf(ds).totalLinesCovered as real
    decreases |ds|
  {
    if ds != [] {
      var init, d := ds[..|ds| - 1], ds[|ds| - 1];
      assert forall i | 0 <= i < |init| :: init[i] == ds[i];
      TruncationDrift(init);
      TotalStep(ds);
    }
  }

  /** The new-code covered lines without truncation: the sum of `newLines * (newCoverage / 100)`. */
  ghost function ExactNewCovered(ds: seq<ProjectData>): real
    decreases |ds|
  {
    if ds == [] then 0.0
    else ExactNewCovered(ds[..|ds| - 1]) + ds[|ds| - 1].newLines as real * (ds[|ds| - 1].newCoverage / 100.0)
  }

  /** The last project of `ds` adds its truncated count to the sum and its exact count to the exact sum. */
  lemma NewStep(ds: seq<ProjectData>)
    requires ds != [] && Sane(ds[|ds| - 1])
    ensures var init, d := ds[..|ds| - 1], ds[|ds| - 1];
      && SumOf(ds).newLinesCovered == SumOf(init).newLinesCovered + d.NewLinesCovered()
      && ExactNewCovered(ds) - ExactNewCovered(init) - 1.0 < d.NewLinesCovered() as real <= ExactNewCovered(ds) - ExactNewCovered(init)
  {
    var d := ds[|ds| - 1];
    CoveredLinesTruncates(d.newLines, d.newCoverage);
  }

  /** The same drift on new code: truncation loses less than one line per project, and never adds one. */
  lemma {:induction false} NewTruncationDrift(ds: seq<ProjectData>)
    requires forall i | 0 <= i < |ds| :: Sane(ds[i])
    ensures SumOf(ds).newLinesCovered as real <= ExactNewCovered(ds)
    ensures ExactNewCovered(ds) - |ds| as real <= SumOf(ds).newLinesCovered as real
    ensures 0 < |ds| ==> ExactNewCovered(ds) - |ds| as real < SumOf(ds).newLinesCovered as real
    decreases |ds|
  {
    if ds != [] {
      var init, d := ds[..|ds| - 1], ds[|ds| - 1];
      assert forall i | 0 <= i < |init| :: init[i] == ds[i];
      NewTruncationDrift(init);
      NewStep(ds);
    }
  }

  // ---------------------------------------------------------------------------
  // Discovery

  /** The `refKey` of every component, in order; the first one without a key throws. */
  function RefKeys(cs: seq<Component>): (r: Result<seq<string>, Error>)
    ensures r.Success? <==> forall i | 0 <= i < |cs| :: cs[i].refKey.Some?
    ensures r.Failure? ==> r.error == MissingField("refKey")
    ensures r.Success? ==> |r.value| == |cs| && forall i | 0 <= i < |cs| :: r.value[i] == cs[i].refKey.value
    decreases |cs|
  {
    if cs == [] then Success([])
    else
      match cs[0].refKey
      case None => Failure(MissingField("refKey"))
      case Some(key) =>
        match RefKeys(cs[1..])
        case Failure(e) => Failure(e)
        case Success(keys) => Success([key] + keys)
  }

  /**
   * The outcome of `getProjectsForPortfolio` for one tree response: an
   * `IOException` is swallowed and leaves the (still empty) list; a non-200
   * status or a malformed body escapes.
   */
  function Discover(reply: Response<seq<Component>>): Result<seq<string>, Error> {
    match reply
    case IoFailure => Success([])
    case Reply(status, body) =>
      if status != 200 then Failure(HttpStatus(status))
      else match body
        case None => Failure(MissingField("components"))
        case Some(cs) => RefKeys(cs)
  }

  // ---------------------------------------------------------------------------
  // The coverage loop

  /** What one project's measures response does to the run. */
  datatype Step = Folds(data: ProjectData) | StopsOnIo | Aborts(error: Error)

  function StepOf(reply: Response<seq<Measure>>): (s: Step)
    ensures reply.IoFailure? <==> s == StopsOnIo
    ensures reply.Reply? && reply.status != 200 ==> s == Aborts(HttpStatus(reply.status))
    ensures s.Folds? <==> reply.Reply? && reply.status == 200 && reply.body.Some? && ParseMeasures(reply.body.value).Success?
    ensures s.Folds? ==> s.data == ParseMeasures(reply.body.value).value
    ensures reply.Reply? && reply.status == 200 && reply.body.None? ==> s == Aborts(MissingField("component.measures"))
    ensures reply.Reply? && reply.status == 200 && reply.body.Some? && ParseMeasures(reply.body.value).Failure?
            ==> s == Aborts(ParseMeasures(reply.body.value).error)
  {
    match reply
    case IoFailure => StopsOnIo
    case Reply(status, body) =>
      if status != 200 then Aborts(HttpStatus(status))
      else match body
        case None => Aborts(MissingField("component.measures"))
        case Some(ms) =>
          match ParseMeasures(ms)
          case Failure(e) => Aborts(e)
          case Success(d) => Folds(d)
  }

  /** Why the run stopped with an exception, and where. */
  datatype RunFailure = DiscoveryFailed(error: Error) | ProjectFailed(project: string, error: Error)

  /** How the coverage loop ended: past the last project, on a swallowed `IOException`, or on an exception that escapes. */
  datatype Ending = Completed | IoStopped | Failed(failure: RunFailure)

  /** The projects folded into the totals, in order, and how the loop ended. */
  datatype RunResult = RunResult(folded: seq<ProjectData>, ending: Ending)

  function MeasuresReply(service: MeasureService, host: string, token: string, branch: string, project: string): Response<seq<Measure>> {
    service(MeasuresRequest(host, token, project, branch))
  }

  /** The coverage loop over `projects`, as a function of the server's answers. */
  function Run(service: MeasureService, host: string, token: string, branch: string, projects: seq<string>): (r: RunResult)
    ensures |r.folded| <= |projects|
    ensures r.ending.Completed? <==> |r.folded| == |projects|
    decreases |projects|
  {
    if projects == [] then RunResult([], Completed)
    else
      match StepOf(MeasuresReply(service, host, token, branch, projects[0]))
      case StopsOnIo => RunResult([], IoStopped)
      case Aborts(e) => RunResult([], Failed(ProjectFailed(projects[0], e)))
      case Folds(d) =>
        var rest := Run(service, host, token, branch, projects[1..]);
        RunResult([d] + rest.folded, rest.ending)
  }

  /**
   * The folded projects are the leading projects whose responses parse, in
   * order; the loop stops at the first project whose response does not, and
   * no later project is requested.
   */
  lemma {:induction false} RunFoldsLeadingProjects(service: MeasureService, host: string, token: string, branch: string, projects: seq<string>)
    ensures var r := Run(service, host, token, branch, projects);
      && (forall i | 0 <= i < |r.folded| :: StepOf(MeasuresReply(service, host, token, branch, projects[i])) == Folds(r.folded[i]))
      && (r.ending.IoStopped? ==> StepOf(MeasuresReply(service, host, token, branch, projects[|r.folded|])) == StopsOnIo)
      && (r.ending.Failed? ==> StepOf(MeasuresReply(service, host, token, branch, projects[|r.folded|])) == Aborts(r.ending.failure.error)
                               && r.ending.failure == ProjectFailed(projects[|r.folded|], r.ending.failure.error))
    decreases |projects|
  {
    if projects != [] {
      var rest := projects[1..];
      RunFoldsLeadingProjects(service, host, token, branch, rest);
      assert forall i | 0 <= i < |rest| :: rest[i] == projects[i + 1];
    }
  }

  /**
   * The loop sends every measures request with the analyser's host, token and
   * branch: two servers that agree on all such requests give the same run.
   */
  lemma {:induction false} RunSeesOnlyItsRequests(service1: MeasureService, service2: MeasureService,
                                                  host: string, token: string, branch: string, projects: seq<string>)
    requires forall p :: service1(MeasuresRequest(host, token, p, branch)) == service2(MeasuresRequest(host, token, p, branch))
    ensures Run(service1, host, token, branch, projects) == Run(service2, host, token, branch, projects)
    decreases |projects|
  {
    if projects != [] {
      RunSeesOnlyItsRequests(service1, service2, host, token, branch, projects[1..]);
    }
  }

  /**
   * No project after the one the run stops at is requested: two services that
   * agree on the requests for the folded projects and the next one give the
   * same run.
   */
  lemma {:induction false} RunIgnoresLater(service1: MeasureService, service2: MeasureService,
                                           host: string, token: string, branch: string, projects: seq<string>)
    requires forall i | 0 <= i < |projects| && i <= |Run(service1, host, token, branch, projects).folded| ::
               MeasuresReply(service1, host, token, branch, projects[i]) == MeasuresReply(service2, host, token, branch, projects[i])
    ensures Run(service1, host, token, branch, projects) == Run(service2, host, token, branch, projects)
    decreases |projects|
  {
    if projects != [] {
      var rest := projects[1..];
      assert MeasuresReply(service1, host, token, branch, projects[0]) == MeasuresReply(service2, host, token, branch, projects[0]);
      var s := StepOf(MeasuresReply(service1, host, token, branch, projects[0]));
      if s.Folds? {
        var r := Run(service1, host, token, branch, rest);
        assert Run(service1, host, token, branch, projects).folded == [s.data] + r.folded;
        forall i | 0 <= i < |rest| && i <= |r.folded|
          ensures MeasuresReply(service1, host, token, branch, rest[i]) == MeasuresReply(service2, host, token, branch, rest[i])
        {
          assert rest[i] == projects[i + 1];
        }
        RunIgnoresLater(service1, service2, host, token, branch, rest);
      }
    }
  }

  /** Discovery followed by the coverage loop, as `analyzePortfolio` runs them. */
  function Analysis(tree: TreeService, service: MeasureService, host: string, token: string, portfolio: string, branch: string): RunResult {
    match Discover(tree(TreeRequest(host, token, portfolio)))
    case Failure(e) => RunResult([], Failed(DiscoveryFailed(e)))
    case Success(projects) => Run(service, host, token, branch, projects)
  }

  /** The loop state after one project was folded: the rest of the run is the run over the remaining projects. */
  function Prepend(ds: seq<ProjectData>, r: RunResult): RunResult {
    RunResult(ds + r.folded, r.ending)
  }

  /**
   * One iteration of the coverage loop: with `done` folded so far and project
   * `i` next, its step decides how the whole run continues.
   */
  lemma RunStep(service: MeasureService, host: string, token: string, branch: string, projects: seq<string>,
                i: nat, done: seq<ProjectData>, s: Step)
    requires i < |projects| && s == StepOf(MeasuresReply(service, host, token, branch, projects[i]))
    ensures s.StopsOnIo? ==> Prepend(done, Run(service, host, token, branch, projects[i..])) == RunResult(done, IoStopped)
    ensures s.Aborts? ==> Prepend(done, Run(service, host, token, branch, projects[i..]))
                          == RunResult(done, Failed(ProjectFailed(projects[i], s.error)))
    ensures s.Folds? ==> Prepend(done, Run(service, host, token, branch, projects[i..]))
                         == Prepend(done + [s.data], Run(service, host, token, branch, projects[i + 1..]))
  {
    var ps := projects[i..];
    assert ps[0] == projects[i] && ps[1..] == projects[i + 1..];
    assert done + [] == done;
  }

  // ---------------------------------------------------------------------------
  // The analyser object

  class PortfolioAnalyzer {
    const token: string
    const hostURL: string
    const portfolioName: string
    const branchName: string

    var totalLinesOfCode: int
    var newLinesOfCode: int
    var totalLinesCovered: int
    var newLinesCovered: int

    /** The projects folded into the totals so far. */
    ghost var processed: seq<ProjectData>

    function Current(): Totals
      reads this
    {
      Totals(totalLinesOfCode, newLinesOfCode, totalLinesCovered, newLinesCovered)
    }

    /** The accumulator invariant: each total is the sum over the projects processed so far. */
    ghost predicate Valid()
      reads this
    {
      Current() == SumOf(processed)
    }

    constructor (token: string, url: string, portfolioName: string, branchName: string)
      ensures this.token == token && this.portfolioName == portfolioName && this.branchName == branchName
      ensures hostURL == StripTrailingSlash(url)
      ensures Current() == Zero && processed == [] && Valid()
    {
      this.token := token;
      var host := url;
      if EndsWithSlash(host) {
        host := host[..|host| - 1];
      }
      this.hostURL := host;
      this.portfolioName := portfolioName;
      this.branchName := branchName;
      totalLinesOfCode, newLinesOfCode, totalLinesCovered, newLinesCovered := 0, 0, 0, 0;
      processed := [];
    }

    method AnalyzePortfolio(tree: TreeService, service: MeasureService) returns (ending: Ending)
      requires Valid()
      modifies this
      ensures Valid()
      ensures var run := Analysis(tree, service, hostURL, token, portfolioName, branchName);
        ending == run.ending && processed == old(processed) + run.folded
    {
      var projects := GetProjectsForPortfolio(tree);
      if projects.Failure? {
        ending := Failed(DiscoveryFailed(projects.error));
        assert processed == old(processed) + [];
        return;
      }
      ending := GetCoverageForProjects(projects.value, service);
    }

    method GetCoverageForProjects(projects: seq<string>, service: MeasureService) returns (ending: Ending)
      requires Valid()
      modifies this
      ensures Valid()
      ensures var run := Run(service, hostURL, token, branchName, projects);
        ending == run.ending && processed == old(processed) + run.folded
    {
      ghost var whole := Run(service, hostURL, token, branchName, projects);
      ghost var done: seq<ProjectData> := [];
      var i := 0;
      while i < |projects|
        invariant 0 <= i <= |projects|
        invariant Valid()
        invariant processed == old(processed) + done
        invariant whole == Prepend(done, Run(service, hostURL, token, branchName, projects[i..]))
      {
        var project := projects[i];
        var step := ReadProject(project, service);
        RunStep(service, hostURL, token, branchName, projects, i, done, step);
        match step
        case StopsOnIo =>
          ending := IoStopped;
          return;
        case Aborts(e) =>
          ending := Failed(ProjectFailed(project, e));
          return;
        case Folds(data) =>
          AddProject(data);
          done := done + [data];
          i := i + 1;
      }
      assert projects[i..] == [];
      assert done + [] == done;
      ending := Completed;
    }

    /** One iteration's request, status check and parse, up to the fold into the totals. */
    method ReadProject(project: string, service: MeasureService) returns (step: Step)
      ensures step == StepOf(MeasuresReply(service, hostURL, token, branchName, project))
    {
      var reply := service(MeasuresRequest(hostURL, token, project, branchName));
      if reply.IoFailure? {
        return StopsOnIo;
      }
      if reply.status != 200 {
        return Aborts(HttpStatus(reply.status));
      }
      if reply.body.None? {
        return Aborts(MissingField("component.measures"));
      }
      var parsed := ReadMeasures(reply.body.value);
      if parsed.Failure? {
        return Aborts(parsed.error);
      }
      return Folds(parsed.value);
    }

    /** The four `+=` of one iteration. */
    method AddProject(data: ProjectData)
      requires Valid()
      modifies this
      ensures Valid()
      ensures processed == old(processed) + [data]
      ensures Current() == Plus(old(Current()), Contribution(data))
    {
      SumOfSnoc(processed, data);
      totalLinesOfCode := totalLinesOfCode + data.totalLines;
      newLinesOfCode := newLinesOfCode + data.newLines;
      totalLinesCovered := totalLinesCovered + data.TotalLinesCovered();
      newLinesCovered := newLinesCovered + data.NewLinesCovered();
      processed := processed + [data];
    }

    method GetProjectsForPortfolio(tree: TreeService) returns (projects: Result<seq<string>, Error>)
      ensures projects == Discover(tree(TreeRequest(hostURL, token, portfolioName)))
    {
      var found: seq<string> := [];
      var reply := tree(TreeRequest(hostURL, token, portfolioName));
      if reply.IoFailure? {
        return Success(found);
      }
      if reply.status != 200 {
        return Failure(HttpStatus(reply.status));
      }
      if reply.body.None? {
        return Failure(MissingField("components"));
      }
      var components := reply.body.value;
      var i := 0;
      while i < |components|
        invariant 0 <= i <= |components|
        invariant |found| == i
        invariant forall k | 0 <= k < i :: components[k].refKey.Some? && found[k] == components[k].refKey.value
      {
        var component := components[i];
        if component.refKey.None? {
          return Failure(MissingField("refKey"));
        }
        found := found + [component.refKey.value];
        i := i + 1;
      }
      assert RefKeys(components).Success?;
      assert RefKeys(components).value == found;
      return Success(found);
    }
  }
}
