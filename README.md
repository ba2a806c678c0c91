# Portfolio code coverage, modelled in Dafny

PortfolioCodeCoverage is a command-line tool. It asks a SonarQube server for the projects of a
portfolio. For each project it reads the branch-scoped coverage measures: lines to cover, and
coverage percentage, both overall and for new code. It turns each project's percentages into
covered-line counts by truncation and adds the four counts into running totals. At the end it
prints two ratios: overall coverage, and new-code coverage, which is forced to 0 when there are
no new lines.

The model has five modules:

- `Wrappers` (`wrappers.dfy`): `Option` and `Result`.
- `SonarApi` (`sonar_api.dfy`): the two API responses once their JSON has been parsed, the
  requests the tool sends, and the two kinds of exception that end a run: a non-200 HTTP
  status (`RuntimeException`) and a missing JSON key (org.json's `JSONException`).
  The server is a function from request to response. A response is either an `IOException`
  (`IoFailure`) or a status together with an optional parsed body.
- `Measures` (`measures.dfy`): the inner class `ProjectData`, the truncating `(int)` cast, and
  the dispatch over `component.measures`. The dispatch is a pure step `Apply`, its fold
  `ParseMeasures`, and the imperative loop `ReadMeasures`, which is proved equal to the fold.
  `ProjectData` is a datatype. Each record is created fresh for one project, is never shared,
  and is dropped after the fold, so its setters become record updates inside the loop.
- `Analyzer` (`portfolio_analyzer.dfy`): the class `PortfolioAnalyzer`. Its four `const`
  fields are token, normalised host URL, portfolio and branch. Its four `int` totals are
  mutable, and a ghost `processed` sequence holds the projects folded so far. The invariant
  `Valid()` says each total is the sum over `processed`. Its methods are discovery
  (`GetProjectsForPortfolio`), the coverage loop (`GetCoverageForProjects`) and
  `AnalyzePortfolio`. Each method is proved against a specification function: `Discover`,
  `Run` and `Analysis`.
- `Entry` (`entry_class.dfy`): `EntryClass.main` as `RunCommandLine`. It does the arity check,
  runs the analysis and applies the two ratio formulas (`Ratio`, `NewCodeRatio`). It is proved
  equal to the specification function `Expected`.

The source's getters `getTotalLinesOfCode` and the like return one field each. The model
reads those fields directly.

### Behaviour at the edges, as the code has it

- A `new_lines_to_cover` or `new_coverage` entry without a `period` object aborts the run with
  the org.json exception. It is not read as 0. The same holds for an entry of any other metric,
  because the `else` branch reads `period` before it tests the name. So an unrecognised metric
  is ignored only when it carries a `period` (`UnknownMetricIgnored`,
  `UnknownMetricWithoutPeriodAborts`).
- A metric that does not appear in a response is not an error. Its field keeps the default 0
  (`LastWriterWins`, `NoNewCodeMeansZero`).
- Discovery is not all-or-nothing. An `IOException` is caught and the empty list is returned,
  and then the run prints a report of zero counts with an undefined overall ratio and a
  new-code ratio of 0 (`DiscoveryIoFailureReportsNothing`). A non-200
  status, or a malformed body, does abort.
- An `IOException` during the coverage loop is caught. The loop stops, and the totals of the
  projects already folded are printed as if the run had finished (`Ending.IoStopped`). A
  non-200 status or a malformed body aborts instead. The totals of earlier projects stay in the
  fields, but the report is not printed. After a non-200 status the failing request's URL and
  status are printed first; a malformed body prints nothing before the exception escapes.
- The overall ratio has no zero guard. Java prints `NaN` or `Infinity`, and the model reports
  `None` (`Ratio`).

## Model

| member | source | states |
|---|---|---|
| `Measures.Trunc` | src/org/sonarqube/neil/PortfolioAnalyzer.java:209-215 | the `(int)` cast truncates toward zero: for x ≥ 0 the result r is a non-negative int with r ≤ x < r+1, and for x < 0 it is the mirror image |
| `Measures.CoveredLinesBounds` | src/org/sonarqube/neil/PortfolioAnalyzer.java:209-215 | with lines ≥ 0 and 0 ≤ coverage ≤ 100, `(int)(lines*(coverage/100))` lies in [0, lines] |
| `Measures.CoveredLinesTruncates` | src/org/sonarqube/neil/PortfolioAnalyzer.java:209-215 | the covered-line count is r ≤ lines*(coverage/100) < r+1, so it is truncated and never rounded up |
| `Measures.SevenAtFiftyIsThree` | src/org/sonarqube/neil/PortfolioAnalyzer.java:210 | 7 lines at 50% give 3 covered lines, not 4 |
| `Measures.ZeroLinesCoverNothing` | src/org/sonarqube/neil/PortfolioAnalyzer.java:213-215 | zero lines give zero covered lines at any percentage |
| `Measures.Apply` | src/org/sonarqube/neil/PortfolioAnalyzer.java:81-97 | one entry succeeds exactly when it is readable, and otherwise fails naming the missing key; `lines_to_cover` and `coverage` set only their own field, from `value`; `new_lines_to_cover` and `new_coverage` set only their own field, from `period.value`; any other readable entry changes nothing |
| `Measures.ParseMeasures` | src/org/sonarqube/neil/PortfolioAnalyzer.java:78-98 | the dispatch over a whole list succeeds exactly when every entry is readable |
| `Measures.ReadMeasures` | src/org/sonarqube/neil/PortfolioAnalyzer.java:78-98 | the imperative loop (a fresh record, one setter per entry, abort on the first unreadable entry) returns exactly the fold `ParseMeasures` |
| `Measures.FailurePersists` | src/org/sonarqube/neil/PortfolioAnalyzer.java:79-98 | once an entry has thrown, the later entries do not change the outcome |
| `Measures.FailureAt` | src/org/sonarqube/neil/PortfolioAnalyzer.java:85-95 | the first unreadable entry decides the error: a missing `value`, or a missing `period` in the non-direct branch |
| `Measures.LastWriterWins` | src/org/sonarqube/neil/PortfolioAnalyzer.java:83-97 | after a successful parse each field holds the reading of the last entry of its metric (truncated for the two line counts), or 0 when no entry names that metric |
| `Measures.NoNewCodeMeansZero` | src/org/sonarqube/neil/PortfolioAnalyzer.java:167-170 | a response without a `new_lines_to_cover` entry gives 0 new lines and 0 new covered lines |
| `Measures.UnknownMetricIgnored` | src/org/sonarqube/neil/PortfolioAnalyzer.java:89-97 | inserting anywhere an entry of an unrecorded metric that carries `period` leaves the parse result unchanged |
| `Measures.UnknownMetricWithoutPeriodAborts` | src/org/sonarqube/neil/PortfolioAnalyzer.java:79-91 | wherever it stands, an entry of an unrecorded metric without `period` that follows only readable entries aborts the whole parse with the missing key `period`, whatever comes after it |
| `Analyzer.StripTrailingSlash` | src/org/sonarqube/neil/PortfolioAnalyzer.java:34-36 | a URL ending in `/` loses exactly that one character (result + "/" == url); any other URL is unchanged |
| `Analyzer.StripRemovesOneSlash` | src/org/sonarqube/neil/PortfolioAnalyzer.java:34-35 | only one slash is removed: `"h//"` becomes `"h/"` |
| `Analyzer.SumOfAppend` | src/org/sonarqube/neil/PortfolioAnalyzer.java:99-102 | folding two lists of projects one after the other adds their totals field by field |
| `Analyzer.CoveredWithinLines` | src/org/sonarqube/neil/PortfolioAnalyzer.java:99-102 | for projects with non-negative lines and percentages in [0,100], each covered total lies between 0 and its lines total |
| `Analyzer.TruncationDrift` | src/org/sonarqube/neil/PortfolioAnalyzer.java:101 | the overall covered total is at most the exact sum of lines*(coverage/100), and exceeds that sum minus the number of projects: at most one line is lost per project |
| `Analyzer.NewTruncationDrift` | src/org/sonarqube/neil/PortfolioAnalyzer.java:102 | the new-code covered total is at most the exact sum of newLines*(newCoverage/100), and exceeds that sum minus the number of projects: at most one line is lost per project |
| `Analyzer.RefKeys` | src/org/sonarqube/neil/PortfolioAnalyzer.java:132-137 | discovery gives exactly one `refKey` per component, in array order; it fails with the missing key `refKey` exactly when some component lacks one |
| `Analyzer.StepOf` | src/org/sonarqube/neil/PortfolioAnalyzer.java:64-98 | an `IOException` stops the loop; a non-200 status aborts with that status before any measure is parsed; a 200 response without a `component.measures` array aborts with that missing key; a 200 response with an unreadable entry aborts with the parse error; a project is folded exactly when its status is 200 and all of its entries are readable, and what is folded is the parsed record |
| `Analyzer.Run` | src/org/sonarqube/neil/PortfolioAnalyzer.java:52-110 | no more projects are folded than were requested, and the loop completes exactly when every project was folded |
| `Analyzer.RunFoldsLeadingProjects` | src/org/sonarqube/neil/PortfolioAnalyzer.java:54-109 | the folded projects are the leading ones whose responses parse, in order; the run stops at the next project, on its `IOException` or on its error named with that project; no later project is requested |
| `Analyzer.RunIgnoresLater` | src/org/sonarqube/neil/PortfolioAnalyzer.java:54-109 | no project after the one the run stops at is requested: two services that agree on the requests for the folded projects and the next one give the same run |
| `Analyzer.RunSeesOnlyItsRequests` | src/org/sonarqube/neil/PortfolioAnalyzer.java:54-63 | every measures request carries the analyser's host, token and branch: two servers that agree on all such requests give the same run |
| `Analyzer.PortfolioAnalyzer.constructor` | src/org/sonarqube/neil/PortfolioAnalyzer.java:26-39 | token, portfolio and branch are stored unchanged, the host URL loses one trailing slash, all four totals start at 0 and nothing is processed yet |
| `Analyzer.PortfolioAnalyzer.GetProjectsForPortfolio` | src/org/sonarqube/neil/PortfolioAnalyzer.java:113-144 | the discovery loop returns `Discover` of the tree response: the empty list after an `IOException`, the status after a non-200 response, the missing key for a malformed body, and otherwise the `refKey`s in order |
| `Analyzer.PortfolioAnalyzer.ReadProject` | src/org/sonarqube/neil/PortfolioAnalyzer.java:56-98 | one loop iteration's request, status check and parse give exactly `StepOf` of the service's response to this project's request |
| `Analyzer.PortfolioAnalyzer.AddProject` | src/org/sonarqube/neil/PortfolioAnalyzer.java:99-102 | the four `+=` add the project's lines, new lines and two truncated covered counts, and keep the accumulator invariant |
| `Analyzer.PortfolioAnalyzer.GetCoverageForProjects` | src/org/sonarqube/neil/PortfolioAnalyzer.java:52-111 | the loop ends as `Run` says and folds exactly `Run`'s projects into the totals, also when it stops early; the totals stay equal to the sum over every project processed |
| `Analyzer.PortfolioAnalyzer.AnalyzePortfolio` | src/org/sonarqube/neil/PortfolioAnalyzer.java:46-50 | discovery then the coverage loop; a discovery exception leaves the totals untouched |
| `Entry.Ratio` | src/org/sonarqube/neil/EntryClass.java:37 | the overall ratio is defined exactly when there are lines to cover, and then ratio × lines == 100 × covered |
| `Entry.NewCodeRatio` | src/org/sonarqube/neil/EntryClass.java:39-41 | the new-code ratio is exactly 0 when there are no new lines, whatever the covered count; otherwise ratio × newLines == 100 × newCovered |
| `Entry.RatioIsPercentage` | src/org/sonarqube/neil/EntryClass.java:37-39 | with 0 ≤ covered ≤ lines and lines > 0 the ratio lies in [0, 100] |
| `Entry.RunCommandLine` | src/org/sonarqube/neil/EntryClass.java:23-43 | `main` yields exactly `Expected`: usage for a wrong argument count, an abort on an escaping exception, otherwise a report of the totals and the two ratios, where the new-code ratio is reassigned to 0 when there are no new lines |
| `Entry.WrongArityIsUsage` | src/org/sonarqube/neil/EntryClass.java:25-29 | any argument count other than 4 prints usage and runs no analysis |
| `Entry.ArgumentsArePositional` | src/org/sonarqube/neil/EntryClass.java:30-36 | the arguments are token, URL, portfolio and branch in that order: two servers that agree on the tree request for (normalised URL, token, portfolio) and on every measures request for (normalised URL, token, branch) give the same outcome |
| `Entry.EmptyPortfolio` | src/org/sonarqube/neil/EntryClass.java:37-42 | an empty project list reports 0/0 with an undefined overall ratio and a new-code ratio of 0 |
| `Entry.DiscoveryIoFailureReportsNothing` | src/org/sonarqube/neil/PortfolioAnalyzer.java:140-143 | an `IOException` in discovery is swallowed, and the run prints the empty report instead of failing |
| `Entry.TwoProjectPortfolio` | src/org/sonarqube/neil/EntryClass.java:35-42 | project A (100 lines at 80%, 10 new at 50%) with project B (50 lines at 40%, no new code) reports 100/150 = 200/3 % overall and 5/10 = 50% on new code |

## Left out

- HTTP: building the URL strings, opening the connection, the `Authorization` header and reading the body line by line. A request is the tuple of its parts, and the server is a function from request to response. So a project listed twice in a portfolio gets the same answer both times.
- JSON parsing with org.json. Bodies arrive already parsed. A body with no `components` or `component.measures` array, or with invalid JSON, is a body of `None`. Every measure is assumed to carry its `metric` key. Numeric values are `real`, and `getInt` is taken as truncation of the number. String-encoded numbers, and the exception `getInt` throws on a string with a fraction, are not modelled.
- IEEE-754 doubles. Percentages and ratios are exact `real`s.
- Entry.Ratio: returns `None` where Java's double division gives `NaN` or `Infinity` for a zero denominator.
- Java's 32-bit `int`. The totals are unbounded and do not wrap.
- Measures.Trunc: does not saturate at ±2^31 and does not map `NaN` to 0, because values are unbounded exact reals.
- Console output: the usage text, `printStackTrace`, the per-request error line and the formatting of the two report lines. `System.exit(0)` becomes the `Usage` outcome.
- The commented-out per-project branch override, which is dead code.
- Concurrency: none exists in the source.
