/** The schema of src/lib/validators/log.validators.ts: the query of
    GET /api/generation-logs. Unlike the compositions query it is not
    strict, so keys it does not know are dropped rather than refused. */
module LogValidators {
  import opened Types
  import opened Input

  datatype LogSortBy = GenerationId | GenerationDuration

  /** The parsed options of `getLogsForUser`, defaults filled in. */
  datatype LogsQuery = LogsQuery(page: int, pageSize: int, sortBy: LogSortBy, sortOrder: SortOrder)

  predicate ValidLogsQuery(q: LogsQuery) {
    q.page >= 1 && 1 <= q.pageSize <= 100
  }

  function LogSortByOf(text: string): (r: Option<LogSortBy>)
    ensures r.Some? <==> text in {"generation_id", "generation_duration"}
    ensures r == Some(GenerationId) <==> text == "generation_id"
  {
    if text == "generation_id" then Some(GenerationId)
    else if text == "generation_duration" then Some(GenerationDuration)
    else None
  }

  /** The constraint a value under each known key must meet; other keys
      carry no constraint. */
  predicate AcceptableLogParam(key: string, p: Param) {
    if key == "page" then p.number.Some? && IsInteger(p.number.value) && p.number.value > 0.0
    else if key == "pageSize" then p.number.Some? && IsInteger(p.number.value) && 0.0 < p.number.value <= 100.0
    else if key == "sortBy" then p.text == "generation_id" || p.text == "generation_duration"
    else if key == "sortOrder" then p.text == "asc" || p.text == "desc"
    else true
  }

  /** `getGenerationLogsValidator.safeParse` on the query parameters. */
  function ParseLogsQuery(raw: map<string, Param>): (r: Result<LogsQuery, set<Issue>>)
    ensures r.Ok? <==> forall k :: k in raw ==> AcceptableLogParam(k, raw[k])
    ensures r.Ok? ==> ValidLogsQuery(r.value)
    ensures r.Ok? && "page" !in raw ==> r.value.page == 1
    ensures r.Ok? && "page" in raw ==> r.value.page as real == raw["page"].number.value
    ensures r.Ok? && "pageSize" !in raw ==> r.value.pageSize == 10
    ensures r.Ok? && "pageSize" in raw ==> r.value.pageSize as real == raw["pageSize"].number.value
    ensures r.Ok? && "sortBy" !in raw ==> r.value.sortBy == GenerationId
    ensures r.Ok? && "sortBy" in raw ==> (r.value.sortBy == GenerationId <==> raw["sortBy"].text == "generation_id")
    ensures r.Ok? && "sortOrder" !in raw ==> r.value.sortOrder == Desc
    ensures r.Ok? && "sortOrder" in raw ==> (r.value.sortOrder == Asc <==> raw["sortOrder"].text == "asc")
  {
    var page := if "page" in raw then CoerceInt(raw["page"], 1, None) else Some(1);
    var pageSize := if "pageSize" in raw then CoerceInt(raw["pageSize"], 1, Some(100)) else Some(10);
    var sortBy := if "sortBy" in raw then LogSortByOf(raw["sortBy"].text) else Some(GenerationId);
    var sortOrder := if "sortOrder" in raw then SortOrderOf(raw["sortOrder"].text) else Some(Desc);
    if page.Some? && pageSize.Some? && sortBy.Some? && sortOrder.Some? then
      Ok(LogsQuery(page.value, pageSize.value, sortBy.value, sortOrder.value))
    else
      Err(IssueIf(page.None?, "page") + IssueIf(pageSize.None?, "pageSize")
          + IssueIf(sortBy.None?, "sortBy") + IssueIf(sortOrder.None?, "sortOrder"))
  }

  /** A key the schema does not know changes nothing about the outcome. */
  lemma ExtraLogKeyIgnored(raw: map<string, Param>, key: string, p: Param)
    requires key !in {"page", "pageSize", "sortBy", "sortOrder"}
    ensures ParseLogsQuery(raw[key := p]) == ParseLogsQuery(raw)
  {
    var raw' := raw[key := p];
    assert forall k :: k in {"page", "pageSize", "sortBy", "sortOrder"} ==> (k in raw' <==> k in raw);
    assert forall k :: k in {"page", "pageSize", "sortBy", "sortOrder"} && k in raw ==> raw'[k] == raw[k];
  }

  /** Any accepted query has a page size of at least 1, so the service's
      window and page count are defined. */
  lemma AcceptedPageSizePositive(raw: map<string, Param>)
    requires ParseLogsQuery(raw).Ok?
    ensures ParseLogsQuery(raw).value.pageSize >= 1
    ensures ParseLogsQuery(raw).value.page >= 1
  {
  }
}
