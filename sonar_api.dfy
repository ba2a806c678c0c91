/**
 * The boundary with the SonarQube web API, as the analyser sees it once the
 * JSON body has been parsed: the shapes of the two responses it reads, the
 * requests it issues, and the errors that abort a run.
 */
module SonarApi {
  import opened Wrappers

  /** The four metric keys requested from `api/measures/component`. */
  const LinesToCover: string := "lines_to_cover"
  const Coverage: string := "coverage"
  const NewLinesToCover: string := "new_lines_to_cover"
  const NewCoverage: string := "new_coverage"

  /** The nested `period` object of a new-code measure; its `value` may be absent. */
  datatype Period = Period(value: Option<real>)

  /** One `{metric, value?, period?}` entry of `component.measures`. */
  datatype Measure = Measure(metric: string, value: Option<real>, period: Option<Period>)

  /** One element of the `components` array of `api/components/tree`. */
  datatype Component = Component(refKey: Option<string>)

  /**
   * What one HTTP round trip yields: an `IOException` somewhere between opening
   * the connection and reading the last line, or a status code together with the
   * parsed body. `body` is `None` when the body is not a JSON object holding the
   * array the caller reads (`components`, or `component.measures`).
   */
  datatype Response<T> = IoFailure | Reply(status: int, body: Option<T>)

  /** `GET {host}/api/components/tree?component={portfolio}` with a bearer token. */
  datatype TreeRequest = TreeRequest(host: string, token: string, portfolio: string)

  /** `GET {host}/api/measures/component?component={project}&branch={branch}&metricKeys=...` with a bearer token. */
  datatype MeasuresRequest = MeasuresRequest(host: string, token: string, project: string, branch: string)

  /** The server, as a function from the request issued to the response received. */
  type TreeService = TreeRequest -> Response<seq<Component>>
  type MeasureService = MeasuresRequest -> Response<seq<Measure>>

  /**
   * The unchecked exceptions that escape the analyser: the `RuntimeException`
   * thrown on a non-200 status, and the `JSONException` org.json throws when a
   * key it is asked for is absent.
   */
  datatype Error = HttpStatus(code: int) | MissingField(key: string)
}
