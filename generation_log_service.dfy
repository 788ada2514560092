/** `GenerationLogService.getLogsForUser` of
    src/lib/services/generation-log.service.ts: one page of the caller's
    generation logs, ordered, counted and projected onto the response DTO. */
module GenerationLogService {
  import opened Types
  import opened Datastore
  import opened Text
  import opened Pagination
  import opened Input
  import opened LogValidators

  /** The row projected onto the DTO: the three ids kept and the duration
      carried as text (`String(log.generation_duration)`). */
  function ToDto(log: GenerationLog): (d: GenerationLogDto)
    ensures d.generationId == log.id && d.userId == log.userId && d.compositionId == log.compositionId
    ensures d.generationDuration == log.generationDuration
  {
    GenerationLogDto(log.id, log.userId, log.compositionId, log.generationDuration)
  }

  /** No two different rows project onto the same DTO. */
  lemma ToDtoInjective(a: GenerationLog, b: GenerationLog)
    requires ToDto(a) == ToDto(b)
    ensures a == b
  {
  }

  /** `data?.map(toDto) ?? []`. */
  function Project(data: Option<seq<GenerationLog>>): (r: seq<GenerationLogDto>)
    ensures data.None? ==> r == []
    ensures data.Some? ==> |r| == |data.value|
    ensures data.Some? ==> forall i :: 0 <= i < |r| ==> r[i] == ToDto(data.value[i])
  {
    if data.None? then [] else seq(|data.value|, i requires 0 <= i < |data.value| => ToDto(data.value[i]))
  }

  /** The ordering key of a DTO's `sortBy` column. A duration orders by its
      number of milliseconds; text of any other shape is a null key. */
  function DtoKeyOf(sortBy: LogSortBy, d: GenerationLogDto): (r: Key)
    ensures sortBy == GenerationId ==> r == Value(d.generationId)
    ensures sortBy == GenerationDuration ==> (r.Value? <==> ReadMsLiteral(d.generationDuration).Some?)
  {
    match sortBy
    case GenerationId => Value(d.generationId)
    case GenerationDuration =>
      var ms := ReadMsLiteral(d.generationDuration);
      if ms.Some? then Value(ms.value) else Key.Null
  }

  function DtoKey(sortBy: LogSortBy): GenerationLogDto -> Key {
    d => DtoKeyOf(sortBy, d)
  }

  /** The store compares the same column the DTO carries. */
  function LogKey(sortBy: LogSortBy): GenerationLog -> Key {
    l => DtoKeyOf(sortBy, ToDto(l))
  }

  function OwnedBy(userId: string): GenerationLog -> bool {
    (l: GenerationLog) => l.userId == userId
  }

  /** Every log row of the caller, in the order of the query. */
  function ListedLogs(t: Table<GenerationLog>, userId: string, q: LogsQuery): seq<GenerationLog> {
    Ordered(t, OwnedBy(userId), LogKey(q.sortBy), q.sortOrder == Asc)
  }

  const FetchLogsFailed: string := "Failed to fetch generation logs due to a database error."

  /** Projecting rows that are in order keeps them in order, and keeps
      their owner. */
  lemma ProjectKeepsOrder(rows: seq<GenerationLog>, sortBy: LogSortBy, ascending: bool, userId: string)
    requires SortedBy(rows, LogKey(sortBy), ascending)
    requires forall l :: l in rows ==> l.userId == userId
    ensures SortedBy(Project(Some(rows)), DtoKey(sortBy), ascending)
    ensures forall d :: d in Project(Some(rows)) ==> d.userId == userId
  {
    var data := Project(Some(rows));
    forall i, j | 0 <= i < j < |data|
      ensures InOrder(DtoKey(sortBy)(data[i]), DtoKey(sortBy)(data[j]), ascending)
    {
      assert InOrder(LogKey(sortBy)(rows[i]), LogKey(sortBy)(rows[j]), ascending);
    }
    forall d | d in data ensures d.userId == userId {
      var i :| 0 <= i < |data| && data[i] == d;
      assert rows[i] in rows;
    }
  }

  /** `getLogsForUser`. */
  function ListLogsForUser(t: Table<GenerationLog>, userId: string, q: LogsQuery,
                           fault: Option<string>): (r: Result<ListResponse<GenerationLogDto>, AppError>)
    requires q.page >= 1 && q.pageSize >= 1
    ensures r.Err? <==> fault.Some?
    ensures r.Err? ==> r.error == Other(FetchLogsFailed)
    ensures r.Ok? ==> var page := PageOf(ListedLogs(t, userId, q), q.page, q.pageSize);
      && |r.value.data| == |page|
      && forall i :: 0 <= i < |page| ==> r.value.data[i] == ToDto(page[i])
    ensures r.Ok? ==> forall d :: d in r.value.data ==> d.userId == userId
    ensures r.Ok? ==> |r.value.data| <= q.pageSize
    ensures r.Ok? ==> SortedBy(r.value.data, DtoKey(q.sortBy), q.sortOrder == Asc)
    ensures r.Ok? ==> r.value.pagination.page == q.page && r.value.pagination.pageSize == q.pageSize
    ensures r.Ok? ==> r.value.pagination.totalItems == |MatchingKeys(t.rows, OwnedBy(userId), 1, t.next)|
    ensures r.Ok? ==> r.value.pagination.totalPages == CeilDiv(r.value.pagination.totalItems, q.pageSize)
  {
    var offset := Offset(q.page, q.pageSize);
    var last := LastOffset(q.page, q.pageSize);
    var resp := Execute(t, OwnedBy(userId), LogKey(q.sortBy), q.sortOrder == Asc, offset, last, fault);
    if resp.error.Some? then Err(Other(FetchLogsFailed))
    else
      LogResponse(t, userId, q, fault);
      Ok(LogsReply(t, userId, q, resp))
  }

  /** What the store answers to the log query when it does not fail. */
  lemma LogResponse(t: Table<GenerationLog>, userId: string, q: LogsQuery, fault: Option<string>)
    requires q.page >= 1 && q.pageSize >= 1
    ensures var resp := Execute(t, OwnedBy(userId), LogKey(q.sortBy), q.sortOrder == Asc,
                                Offset(q.page, q.pageSize), LastOffset(q.page, q.pageSize), fault);
      resp.error.None? ==>
        && resp.data == Some(PageOf(ListedLogs(t, userId, q), q.page, q.pageSize))
        && resp.count == Some(|MatchingKeys(t.rows, OwnedBy(userId), 1, t.next)|)
  {
    if fault.None? {
      ExecuteAnswers(t, OwnedBy(userId), LogKey(q.sortBy), q.sortOrder == Asc,
                     Offset(q.page, q.pageSize), LastOffset(q.page, q.pageSize));
    }
  }

  /** The success value built from the store's answer: the projected rows
      and the pagination block. */
  function LogsReply(t: Table<GenerationLog>, userId: string, q: LogsQuery,
                     resp: Response<GenerationLog>): (r: ListResponse<GenerationLogDto>)
    requires q.page >= 1 && q.pageSize >= 1
    requires resp.data == Some(PageOf(ListedLogs(t, userId, q), q.page, q.pageSize))
    requires resp.count == Some(|MatchingKeys(t.rows, OwnedBy(userId), 1, t.next)|)
    ensures var page := PageOf(ListedLogs(t, userId, q), q.page, q.pageSize);
      && |r.data| == |page|
      && forall i :: 0 <= i < |page| ==> r.data[i] == ToDto(page[i])
    ensures forall d :: d in r.data ==> d.userId == userId
    ensures |r.data| <= q.pageSize
    ensures SortedBy(r.data, DtoKey(q.sortBy), q.sortOrder == Asc)
    ensures r.pagination.page == q.page && r.pagination.pageSize == q.pageSize
    ensures r.pagination.totalItems == |MatchingKeys(t.rows, OwnedBy(userId), 1, t.next)|
    ensures r.pagination.totalPages == CeilDiv(r.pagination.totalItems, q.pageSize)
  {
    var all := ListedLogs(t, userId, q);
    var asc := q.sortOrder == Asc;
    RangeOfSorted(all, LogKey(q.sortBy), asc, Offset(q.page, q.pageSize), LastOffset(q.page, q.pageSize));
    ProjectKeepsOrder(PageOf(all, q.page, q.pageSize), q.sortBy, asc, userId);
    var info := Info(q.page, q.pageSize, resp.count);
    CeilDivUnique(info.totalItems, q.pageSize, info.totalPages);
    ListResponse(Project(resp.data), info)
  }

  /** Reading pages 1 to `totalPages` in turn yields every log of the caller
      once, in order. */
  lemma LogPagesCoverAll(t: Table<GenerationLog>, userId: string, q: LogsQuery, l: GenerationLog)
    requires t.Valid() && q.page >= 1 && q.pageSize >= 1
    ensures l in ListedLogs(t, userId, q) <==> l.userId == userId && exists k :: k in t.rows && t.rows[k] == l
    ensures Pages(ListedLogs(t, userId, q), q.pageSize,
                  ListLogsForUser(t, userId, q, None).value.pagination.totalPages) == ListedLogs(t, userId, q)
  {
    OrderedMembers(t, OwnedBy(userId), LogKey(q.sortBy), q.sortOrder == Asc, l);
    SelectCount(t.rows, OwnedBy(userId), 1, t.next);
    PagesCoverAll(ListedLogs(t, userId, q), q.pageSize);
  }

  /** A duration written as `<ms>ms` orders by `ms`. */
  lemma DurationKeyOfLiteral(d: GenerationLogDto, ms: nat)
    requires d.generationDuration == MsLiteral(ms)
    ensures DtoKeyOf(GenerationDuration, d) == Value(ms)
  {
    MsLiteralRoundTrip(ms);
  }
}
