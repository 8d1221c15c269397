/**
 The request record that travels from the HTTP gateway through the orchestration
 to the report activity (the `GetBaseRequest` class). Every property is a nullable
 string: the gateway fills them straight from the query dictionary and nothing
 parses `Percentage` as a number.
 */
module Requests {
  import opened Wrappers

  datatype ReportRequest = ReportRequest(
    reportName: Option<string>,
    name: Option<string>,
    region: Option<string>,
    percentage: Option<string>)

  /** How `string.Concat` renders one argument: a `null` contributes nothing. */
  function OrEmpty(s: Option<string>): string
  {
    match s
    case None => ""
    case Some(v) => v
  }

  /** The request as `string.Concat` sees it: each field with `null` read as "". */
  function Rendered(r: ReportRequest): seq<string>
  {
    [OrEmpty(r.reportName), OrEmpty(r.name), OrEmpty(r.region), OrEmpty(r.percentage)]
  }
}
