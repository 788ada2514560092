/** The composition service of src/lib/services/composition.service.ts over
    the two tables it writes: `compositions` and `generation_log`.

    Each mutation is specified by a function from the store before the call
    to the store after it and the call's result (`UpdateOutcome`,
    `DeleteOutcome`, `CreateOutcome`); the class `CompositionService` holds
    the tables and runs the same steps one by one. The store's failures are
    parameters: `fetchFails` for the owner lookup, and an error message for
    each write that may be refused. */
module CompositionService {
  import opened Types
  import opened Datastore
  import opened Text
  import opened Pagination
  import opened AiService
  import opened Input
  import opened CompositionValidators

  /** The two tables the service talks to. */
  datatype Store = Store(compositions: Table<Composition>, generationLog: Table<GenerationLog>)

  /** Both tables are well formed and every row sits under its own id. */
  predicate ValidStore(s: Store) {
    && s.compositions.Valid()
    && s.generationLog.Valid()
    && (forall k :: k in s.compositions.rows ==> s.compositions.rows[k].id == k)
    && (forall k :: k in s.generationLog.rows ==> s.generationLog.rows[k].id == k)
  }

  /** The store after a call and what the call returned or threw. */
  datatype Outcome<T> = Outcome(store: Store, result: Result<T, AppError>)

  const NotFoundPrefix: string := "Composition with ID "
  const NotFoundSuffix: string := " not found."

  /** The NotFoundError text: the id in decimal between a fixed prefix and
      suffix. */
  function NotFoundMessage(id: int): (r: string)
    ensures |r| == |NotFoundPrefix| + |IntText(id)| + |NotFoundSuffix|
    ensures r[..|NotFoundPrefix|] == NotFoundPrefix
    ensures r[|NotFoundPrefix|..|r| - |NotFoundSuffix|] == IntText(id)
    ensures r[|r| - |NotFoundSuffix|..] == NotFoundSuffix
  {
    NotFoundPrefix + IntText(id) + NotFoundSuffix
  }

  /** The message names the id it is about: no two ids share one. */
  lemma NotFoundMessageInjective(a: int, b: int)
    requires NotFoundMessage(a) == NotFoundMessage(b)
    ensures a == b
  {
    IntTextInjective(a, b);
  }

  const UpdateForbidden: string := "You are not authorized to update this composition."
  const DeleteForbidden: string := "You are not authorized to delete this composition."

  const DatabaseErrorPrefix: string := "Database error: "
  const AiInsertErrorPrefix: string := "Database error on composition insert: "

  /** A store failure re-thrown with the store's message after a prefix. */
  function DatabaseError(message: string): (r: string)
    ensures StartsWith(r, DatabaseErrorPrefix)
    ensures r[|DatabaseErrorPrefix|..] == message
  {
    DatabaseErrorPrefix + message
  }

  /** The AI path's composition-insert failure, worded its own way. */
  function AiInsertError(message: string): (r: string)
    ensures StartsWith(r, AiInsertErrorPrefix)
    ensures r[|AiInsertErrorPrefix|..] == message
  {
    AiInsertErrorPrefix + message
  }

  /** The columns a patch names take its values; every other column keeps
      its value. */
  function ApplyPatch(c: Composition, p: Patch): (r: Composition)
    ensures r.id == c.id && r.userId == c.userId && r.kind == c.kind && r.createdAt == c.createdAt
    ensures r.ingredients == if p.ingredients.Some? then p.ingredients.value else c.ingredients
    ensures r.rating == if p.rating.Some? then p.rating else c.rating
    ensures r.photoUrl == if p.photoUrl.Some? then p.photoUrl else c.photoUrl
  {
    c.(ingredients := p.ingredients.GetOr(c.ingredients),
       rating := if p.rating.Some? then p.rating else c.rating,
       photoUrl := if p.photoUrl.Some? then p.photoUrl else c.photoUrl)
  }

  /** Sending the same patch twice has the effect of sending it once. */
  lemma ApplyPatchIdempotent(c: Composition, p: Patch)
    ensures ApplyPatch(ApplyPatch(c, p), p) == ApplyPatch(c, p)
  {
  }

  /** A patch changes a row exactly when it names a column with a new value. */
  lemma ApplyPatchChanges(c: Composition, p: Patch)
    ensures ApplyPatch(c, p) == c <==>
      && (p.ingredients.Some? ==> p.ingredients.value == c.ingredients)
      && (p.rating.Some? ==> p.rating == c.rating)
      && (p.photoUrl.Some? ==> p.photoUrl == c.photoUrl)
  {
    if ApplyPatch(c, p) == c {
      assert ApplyPatch(c, p).ingredients == c.ingredients;
      assert ApplyPatch(c, p).rating == c.rating;
      assert ApplyPatch(c, p).photoUrl == c.photoUrl;
    }
  }

  /** The owner check update and delete both begin with: the lookup fails
      or finds no row, the row belongs to someone else, or the call may go on. */
  function OwnerCheck(s: Store, id: int, userId: string, fetchFails: bool, forbidden: string): (r: Option<AppError>)
    ensures r == Some(NotFound(NotFoundMessage(id))) <==> fetchFails || id !in s.compositions.rows
    ensures r == Some(Forbidden(forbidden)) <==>
              !fetchFails && id in s.compositions.rows && s.compositions.rows[id].userId != userId
    ensures r.None? <==> !fetchFails && id in s.compositions.rows && s.compositions.rows[id].userId == userId
  {
    if fetchFails || id !in s.compositions.rows then Some(NotFound(NotFoundMessage(id)))
    else if s.compositions.rows[id].userId != userId then Some(Forbidden(forbidden))
    else None
  }

  /** `updateComposition`. */
  function UpdateOutcome(s: Store, id: int, userId: string, patch: Patch,
                         fetchFails: bool, updateError: Option<string>): (o: Outcome<Composition>)
    ensures o.result.Err? ==> o.store == s
    ensures o.result == Err(NotFound(NotFoundMessage(id))) <==> fetchFails || id !in s.compositions.rows
    ensures !fetchFails && id in s.compositions.rows && s.compositions.rows[id].userId != userId ==>
              o.result == Err(Forbidden(UpdateForbidden))
    ensures OwnerCheck(s, id, userId, fetchFails, UpdateForbidden).None? && updateError.Some? ==>
              o.result == Err(Other(DatabaseError(updateError.value)))
    ensures o.result.Ok? <==> OwnerCheck(s, id, userId, fetchFails, UpdateForbidden).None? && updateError.None?
    ensures o.result.Ok? ==>
              && o.result.value == ApplyPatch(s.compositions.rows[id], patch)
              && o.result.value.userId == userId
              && o.store.compositions == ReplaceRow(s.compositions, id, o.result.value)
              && o.store.generationLog == s.generationLog
    ensures ValidStore(s) ==> ValidStore(o.store)
  {
    var check := OwnerCheck(s, id, userId, fetchFails, UpdateForbidden);
    if check.Some? then Outcome(s, Err(check.value))
    else if updateError.Some? then Outcome(s, Err(Other(DatabaseError(updateError.value))))
    else
      var updated := ApplyPatch(s.compositions.rows[id], patch);
      Outcome(s.(compositions := ReplaceRow(s.compositions, id, updated)), Ok(updated))
  }

  /** `deleteComposition`. */
  function DeleteOutcome(s: Store, id: int, userId: string,
                         fetchFails: bool, deleteError: Option<string>): (o: Outcome<()>)
    ensures o.result.Err? ==> o.store == s
    ensures o.result == Err(NotFound(NotFoundMessage(id))) <==> fetchFails || id !in s.compositions.rows
    ensures !fetchFails && id in s.compositions.rows && s.compositions.rows[id].userId != userId ==>
              o.result == Err(Forbidden(DeleteForbidden))
    ensures OwnerCheck(s, id, userId, fetchFails, DeleteForbidden).None? && deleteError.Some? ==>
              o.result == Err(Other(DatabaseError(deleteError.value)))
    ensures o.result.Ok? <==> OwnerCheck(s, id, userId, fetchFails, DeleteForbidden).None? && deleteError.None?
    ensures o.result.Ok? ==>
              && o.store.compositions == DeleteRow(s.compositions, id)
              && o.store.generationLog == s.generationLog
    ensures ValidStore(s) ==> ValidStore(o.store)
  {
    var check := OwnerCheck(s, id, userId, fetchFails, DeleteForbidden);
    if check.Some? then Outcome(s, Err(check.value))
    else if deleteError.Some? then Outcome(s, Err(Other(DatabaseError(deleteError.value))))
    else Outcome(s.(compositions := DeleteRow(s.compositions, id)), Ok(()))
  }

  /** The row an insert stores: its id is the next one the sequence hands
      out and `created_at` is the store's clock. */
  function NewComposition(t: Table<Composition>, userId: string, ingredients: seq<string>,
                          rating: Nullable<int>, photoUrl: Nullable<string>,
                          kind: CompositionType, now: int): (c: Composition)
    ensures c.id == t.next && c.userId == userId && c.ingredients == ingredients && c.kind == kind
    ensures c.rating == Stored(rating) && c.photoUrl == Stored(photoUrl) && c.createdAt == now
  {
    Composition(t.next, userId, ingredients, Stored(rating), Stored(photoUrl), kind, now)
  }

  /** `createManualComposition`: one insert into `compositions`. */
  function CreateManualOutcome(s: Store, command: CreateCommand, userId: string, now: int,
                               insertError: Option<string>): (o: Outcome<Composition>)
    requires command.CreateManual?
    ensures insertError.Some? ==> o == Outcome(s, Err(Other(DatabaseError(insertError.value))))
    ensures insertError.None? ==> o.result.Ok?
    ensures o.result.Ok? ==>
              && o.result.value == NewComposition(s.compositions, userId, command.ingredients,
                                                  command.rating, command.photoUrl, Manual, now)
              && o.store.compositions == InsertRow(s.compositions, o.result.value)
    ensures o.store.generationLog == s.generationLog
    ensures ValidStore(s) ==> ValidStore(o.store)
  {
    if insertError.Some? then Outcome(s, Err(Other(DatabaseError(insertError.value))))
    else
      var c := NewComposition(s.compositions, userId, command.ingredients, command.rating, command.photoUrl, Manual, now);
      Outcome(s.(compositions := InsertRow(s.compositions, c)), Ok(c))
  }

  /** The log row the AI path writes for the composition it created. */
  function NewLog(t: Table<GenerationLog>, userId: string, compositionId: int, durationMs: nat): (l: GenerationLog)
    ensures l.id == t.next && l.userId == userId && l.compositionId == compositionId
    ensures ReadMsLiteral(l.generationDuration) == Some(durationMs)
  {
    MsLiteralRoundTrip(durationMs);
    GenerationLog(t.next, userId, compositionId, MsLiteral(durationMs))
  }

  /** `createAiGeneratedComposition`: ask the suggester, insert the
      composition with its suggestions, then try to log the generation. A
      failed log insert is not reported and undoes nothing. */
  function CreateAiOutcome(s: Store, command: CreateCommand, userId: string, now: int,
                           insertError: Option<string>, logError: Option<string>): (o: Outcome<Composition>)
    requires command.CreateAiGenerated?
    ensures insertError.Some? ==> o == Outcome(s, Err(Other(AiInsertError(insertError.value))))
    ensures insertError.None? ==> o.result.Ok?
    ensures o.result.Ok? ==>
              && o.result.value == NewComposition(s.compositions, userId,
                                                  GenerateIngredients(command.ingredients).suggestedIngredients,
                                                  command.rating, command.photoUrl, AiGenerated, now)
              && o.store.compositions == InsertRow(s.compositions, o.result.value)
    ensures o.result.Ok? && logError.None? ==>
              o.store.generationLog == InsertRow(s.generationLog, NewLog(s.generationLog, userId, o.result.value.id, 1500))
    ensures logError.Some? ==> o.store.generationLog == s.generationLog
    ensures ValidStore(s) ==> ValidStore(o.store)
  {
    var suggestion := GenerateIngredients(command.ingredients);
    if insertError.Some? then Outcome(s, Err(Other(AiInsertError(insertError.value))))
    else
      var c := NewComposition(s.compositions, userId, suggestion.suggestedIngredients,
                              command.rating, command.photoUrl, AiGenerated, now);
      var log := if logError.Some? then s.generationLog
                 else InsertRow(s.generationLog, NewLog(s.generationLog, userId, c.id, suggestion.generationDurationMs));
      Outcome(Store(InsertRow(s.compositions, c), log), Ok(c))
  }

  /** `createComposition`: dispatch on the command's kind. */
  function CreateOutcome(s: Store, command: CreateCommand, userId: string, now: int,
                         insertError: Option<string>, logError: Option<string>): (o: Outcome<Composition>)
    ensures insertError.Some? <==> o.result.Err?
    ensures insertError.Some? ==> o.store == s
    ensures o.result.Ok? ==> o.result.value.userId == userId && o.result.value.id == s.compositions.next
    ensures o.result.Ok? ==> (o.result.value.kind == Manual <==> command.CreateManual?)
    ensures command.CreateManual? ==> o.store.generationLog == s.generationLog
    ensures ValidStore(s) ==> ValidStore(o.store)
  {
    if command.CreateManual? then CreateManualOutcome(s, command, userId, now, insertError)
    else CreateAiOutcome(s, command, userId, now, insertError, logError)
  }

  /** `getCompositionById`: the row, no row (`null`), or the store's error. */
  function GetCompositionById(t: Table<Composition>, id: int, fault: Option<string>): (r: Result<Option<Composition>, AppError>)
    ensures fault.Some? ==> r == Err(Other(fault.value))
    ensures fault.None? ==> r.Ok? && (r.value.Some? <==> id in t.rows)
    ensures r.Ok? && r.value.Some? ==> r.value.value == t.rows[id]
  {
    if fault.Some? then Err(Other(fault.value))
    else if id in t.rows then Ok(Some(t.rows[id]))
    else Ok(None)
  }

  /** After a successful update the row reads back as the update returned it. */
  lemma UpdateThenGet(s: Store, id: int, userId: string, patch: Patch, fetchFails: bool, updateError: Option<string>)
    requires UpdateOutcome(s, id, userId, patch, fetchFails, updateError).result.Ok?
    ensures var o := UpdateOutcome(s, id, userId, patch, fetchFails, updateError);
      GetCompositionById(o.store.compositions, id, None) == Ok(Some(o.result.value))
  {
  }

  /** After a successful delete the id reads back as no row, and the other
      rows read back as before. */
  lemma DeleteThenGet(s: Store, id: int, userId: string, fetchFails: bool, deleteError: Option<string>, other: int)
    requires DeleteOutcome(s, id, userId, fetchFails, deleteError).result.Ok?
    requires other != id
    ensures var o := DeleteOutcome(s, id, userId, fetchFails, deleteError);
      && GetCompositionById(o.store.compositions, id, None) == Ok(None)
      && GetCompositionById(o.store.compositions, other, None) == GetCompositionById(s.compositions, other, None)
  {
  }

  /** A created composition reads back under the id it was given, and no row
      that was there before is overwritten. */
  lemma CreateThenGet(s: Store, command: CreateCommand, userId: string, now: int,
                      insertError: Option<string>, logError: Option<string>)
    requires ValidStore(s)
    requires CreateOutcome(s, command, userId, now, insertError, logError).result.Ok?
    ensures var o := CreateOutcome(s, command, userId, now, insertError, logError);
      && o.result.value.id !in s.compositions.rows
      && GetCompositionById(o.store.compositions, o.result.value.id, None) == Ok(Some(o.result.value))
      && forall k :: k in s.compositions.rows ==> o.store.compositions.rows[k] == s.compositions.rows[k]
  {
  }

  /** A missing row is reported the same way to every caller, and neither
      mutation touches the store. */
  lemma MissingRowNotFound(s: Store, id: int, userA: string, userB: string, patch: Patch,
                           updateError: Option<string>, deleteError: Option<string>)
    requires id !in s.compositions.rows
    ensures UpdateOutcome(s, id, userA, patch, false, updateError) == UpdateOutcome(s, id, userB, patch, false, updateError)
    ensures UpdateOutcome(s, id, userA, patch, false, updateError) == Outcome(s, Err(NotFound(NotFoundMessage(id))))
    ensures DeleteOutcome(s, id, userA, false, deleteError) == Outcome(s, Err(NotFound(NotFoundMessage(id))))
  {
  }

  /** An AI composition stores exactly the suggester's list: the seeds, then
      the two placeholders, three to five items for a valid body. */
  lemma AiCreateStoresSuggestions(s: Store, command: CreateCommand, userId: string, now: int,
                                  logError: Option<string>)
    requires command.CreateAiGenerated? && 1 <= |command.ingredients| <= 3
    ensures var c := CreateOutcome(s, command, userId, now, None, logError).result.value;
      && c.ingredients == command.ingredients + [FirstPlaceholder, SecondPlaceholder]
      && 3 <= |c.ingredients| <= 5
  {
    var r := GenerateIngredients(command.ingredients).suggestedIngredients;
    assert r == r[..|command.ingredients|] + r[|command.ingredients|..];
  }

  // Listing

  /** JavaScript truthiness of the optional rating filter: `if (rating)`. */
  predicate Truthy(rating: Option<int>)
    ensures rating.None? ==> !Truthy(rating)
    ensures rating.Some? && rating.value >= 1 ==> Truthy(rating)
  {
    rating.Some? && rating.value != 0
  }

  /** The equality filters of a listing query; the page does not enter. */
  datatype RowFilter = RowFilter(userId: string, rating: Option<int>, kind: Option<CompositionType>)

  /** The row filters `getUserCompositions` chains: `eq('user_id')`, then
      `eq('rating')` and `eq('composition_type')` when those are given. */
  predicate Admits(f: RowFilter, c: Composition) {
    && c.userId == f.userId
    && (Truthy(f.rating) ==> c.rating == f.rating)
    && (f.kind.Some? ==> c.kind == f.kind.value)
  }

  predicate Matches(c: Composition, userId: string, q: CompositionsQuery) {
    Admits(RowFilter(userId, q.rating, q.compositionType), c)
  }

  function FilterFn(f: RowFilter): Composition -> bool {
    c => Admits(f, c)
  }

  function Filter(userId: string, q: CompositionsQuery): Composition -> bool {
    FilterFn(RowFilter(userId, q.rating, q.compositionType))
  }

  /** For a validated query, whose rating is at least 1, `if (rating)` is
      "a rating was given", and a row is listed exactly when it is the
      caller's and agrees with every filter given. */
  lemma MatchesIff(c: Composition, userId: string, q: CompositionsQuery)
    requires ValidCompositionsQuery(q)
    ensures Truthy(q.rating) <==> q.rating.Some?
    ensures Matches(c, userId, q) <==>
              && c.userId == userId
              && (q.rating.Some? ==> c.rating == q.rating)
              && (q.compositionType.Some? ==> c.kind == q.compositionType.value)
  {
  }

  /** The column `order(sortBy)` compares; a null rating is a null key. */
  function KeyOf(sortBy: SortBy, c: Composition): (r: Key)
    ensures sortBy == CreatedAt ==> r == Value(c.createdAt)
    ensures sortBy == Rating ==> (r == Key.Null <==> c.rating.None?)
    ensures sortBy == Rating && c.rating.Some? ==> r == Value(c.rating.value)
  {
    match sortBy
    case CreatedAt => Value(c.createdAt)
    case Rating => if c.rating.Some? then Value(c.rating.value) else Key.Null
  }

  function SortKey(sortBy: SortBy): Composition -> Key {
    c => KeyOf(sortBy, c)
  }

  /** Sorted by rating, unrated rows come after every rated row when
      ascending and before them when descending. */
  lemma NullRatingPlacement(s: seq<Composition>, ascending: bool, i: int, j: int)
    requires SortedBy(s, SortKey(Rating), ascending)
    requires 0 <= i < j < |s|
    ensures ascending && s[i].rating.None? ==> s[j].rating.None?
    ensures !ascending && s[j].rating.None? ==> s[i].rating.None?
  {
    assert InOrder(SortKey(Rating)(s[i]), SortKey(Rating)(s[j]), ascending);
  }

  /** Every row the query selects, in its order, before the window. */
  function ListedRows(t: Table<Composition>, userId: string, q: CompositionsQuery): seq<Composition> {
    Ordered(t, Filter(userId, q), SortKey(q.sortBy), q.sortOrder == Asc)
  }

  /** A page of the listing holds rows that pass the filters, in order. */
  lemma ListedPageFacts(t: Table<Composition>, userId: string, q: CompositionsQuery)
    requires q.page >= 1 && q.pageSize >= 1
    ensures var page := PageOf(ListedRows(t, userId, q), q.page, q.pageSize);
      && (forall c :: c in page ==> Matches(c, userId, q))
      && SortedBy(page, SortKey(q.sortBy), q.sortOrder == Asc)
  {
    var all := ListedRows(t, userId, q);
    RangeOfSorted(all, SortKey(q.sortBy), q.sortOrder == Asc, Offset(q.page, q.pageSize), LastOffset(q.page, q.pageSize));
    forall c | c in PageOf(all, q.page, q.pageSize) ensures Matches(c, userId, q) {
      assert c in all;
      assert Filter(userId, q)(c);
    }
  }

  /** What the store answers to the listing query when it does not fail. */
  lemma ListingResponse(t: Table<Composition>, userId: string, q: CompositionsQuery, fault: Option<string>)
    requires q.page >= 1 && q.pageSize >= 1
    ensures var resp := Execute(t, Filter(userId, q), SortKey(q.sortBy), q.sortOrder == Asc,
                                Offset(q.page, q.pageSize), LastOffset(q.page, q.pageSize), fault);
      resp.error.None? ==>
        && resp.data == Some(PageOf(ListedRows(t, userId, q), q.page, q.pageSize))
        && resp.count == Some(|MatchingKeys(t.rows, Filter(userId, q), 1, t.next)|)
  {
    if fault.None? {
      ExecuteAnswers(t, Filter(userId, q), SortKey(q.sortBy), q.sortOrder == Asc,
                     Offset(q.page, q.pageSize), LastOffset(q.page, q.pageSize));
    }
  }

  /** The success value built from the store's answer: `data || []` and the
      pagination block. */
  function ListingReply(t: Table<Composition>, userId: string, q: CompositionsQuery,
                        resp: Response<Composition>): (r: ListResponse<Composition>)
    requires q.page >= 1 && q.pageSize >= 1
    requires resp.data == Some(PageOf(ListedRows(t, userId, q), q.page, q.pageSize))
    requires resp.count == Some(|MatchingKeys(t.rows, Filter(userId, q), 1, t.next)|)
    ensures r.data == PageOf(ListedRows(t, userId, q), q.page, q.pageSize)
    ensures forall c :: c in r.data ==> Matches(c, userId, q)
    ensures |r.data| <= q.pageSize
    ensures SortedBy(r.data, SortKey(q.sortBy), q.sortOrder == Asc)
    ensures r.pagination.page == q.page && r.pagination.pageSize == q.pageSize
    ensures r.pagination.totalItems == |MatchingKeys(t.rows, Filter(userId, q), 1, t.next)|
    ensures r.pagination.totalPages == CeilDiv(r.pagination.totalItems, q.pageSize)
  {
    ListedPageFacts(t, userId, q);
    var info := Info(q.page, q.pageSize, resp.count);
    CeilDivUnique(info.totalItems, q.pageSize, info.totalPages);
    ListResponse(resp.data.GetOr([]), info)
  }

  const FetchCompositionsFailed: string := "Could not fetch compositions. Please try again later."

  /** `getUserCompositions`: one page of the caller's compositions, filtered,
      ordered and counted by the store. */
  function ListUserCompositions(t: Table<Composition>, userId: string, q: CompositionsQuery,
                                fault: Option<string>): (r: Result<ListResponse<Composition>, AppError>)
    requires q.page >= 1 && q.pageSize >= 1
    ensures r.Err? <==> fault.Some?
    ensures r.Err? ==> r.error == Other(FetchCompositionsFailed)
    ensures r.Ok? ==> r.value.data == PageOf(ListedRows(t, userId, q), q.page, q.pageSize)
    ensures r.Ok? ==> forall c :: c in r.value.data ==> Matches(c, userId, q)
    ensures r.Ok? ==> |r.value.data| <= q.pageSize
    ensures r.Ok? ==> SortedBy(r.value.data, SortKey(q.sortBy), q.sortOrder == Asc)
    ensures r.Ok? ==> r.value.pagination.page == q.page && r.value.pagination.pageSize == q.pageSize
    ensures r.Ok? ==> r.value.pagination.totalItems == |MatchingKeys(t.rows, Filter(userId, q), 1, t.next)|
    ensures r.Ok? ==> r.value.pagination.totalPages == CeilDiv(r.value.pagination.totalItems, q.pageSize)
  {
    var from := Offset(q.page, q.pageSize);
    var to := LastOffset(q.page, q.pageSize);
    var resp := Execute(t, Filter(userId, q), SortKey(q.sortBy), q.sortOrder == Asc, from, to, fault);
    if resp.error.Some? then Err(Other(FetchCompositionsFailed))
    else
      ListingResponse(t, userId, q, fault);
      Ok(ListingReply(t, userId, q, resp))
  }

  /** The listing is complete: its rows are exactly the stored rows that
      pass the filters, and reading pages 1 to `totalPages` in turn yields
      each of them once, in order. */
  lemma ListingCoversMatches(t: Table<Composition>, userId: string, q: CompositionsQuery, c: Composition)
    requires t.Valid() && q.page >= 1 && q.pageSize >= 1
    ensures c in ListedRows(t, userId, q) <==> Matches(c, userId, q) && exists k :: k in t.rows && t.rows[k] == c
    ensures Pages(ListedRows(t, userId, q), q.pageSize,
                  ListUserCompositions(t, userId, q, None).value.pagination.totalPages) == ListedRows(t, userId, q)
  {
    OrderedMembers(t, Filter(userId, q), SortKey(q.sortBy), q.sortOrder == Asc, c);
    SelectCount(t.rows, Filter(userId, q), 1, t.next);
    PagesCoverAll(ListedRows(t, userId, q), q.pageSize);
  }

  /** A composition created by the caller is listed by an unfiltered query
      of theirs. */
  lemma CreatedIsListed(s: Store, command: CreateCommand, userId: string, now: int,
                        logError: Option<string>, q: CompositionsQuery)
    requires ValidStore(s)
    requires q.rating.None? && q.compositionType.None?
    ensures var o := CreateOutcome(s, command, userId, now, None, logError);
      o.result.value in ListedRows(o.store.compositions, userId, q)
  {
    var o := CreateOutcome(s, command, userId, now, None, logError);
    var t := o.store.compositions;
    OrderedMembers(t, Filter(userId, q), SortKey(q.sortBy), q.sortOrder == Asc, o.result.value);
    assert t.rows[o.result.value.id] == o.result.value;
  }

  /** Creating a manual composition of "a" and "b" rated 4 without a photo,
      then fetching it by its id, gives back those ingredients, that rating
      and the manual kind. */
  lemma ManualCreateRoundTrip(s: Store, userId: string, now: int)
    requires ValidStore(s)
    ensures var o := CreateOutcome(s, CreateManual(["a", "b"], Present(4), Absent), userId, now, None, None);
      && o.result.Ok?
      && var got := GetCompositionById(o.store.compositions, o.result.value.id, None);
      && got.Ok? && got.value.Some?
      && got.value.value.kind == Manual
      && got.value.value.ingredients == ["a", "b"]
      && got.value.value.rating == Some(4)
      && got.value.value.photoUrl.None?
  {
  }

  /** An AI composition from the single seed "tomato" has between 1 and 10
      ingredients and the AI kind, and it is created and returned even when
      the log insert fails, in which case the log table is left as it was. */
  lemma AiCreateSurvivesLogFailure(s: Store, userId: string, now: int, logMessage: string)
    requires ValidStore(s)
    ensures var o := CreateOutcome(s, CreateAiGenerated(["tomato"], Absent, Absent), userId, now, None, Some(logMessage));
      && o.result.Ok?
      && 1 <= |o.result.value.ingredients| <= 10
      && o.result.value.kind == AiGenerated
      && o.store.generationLog == s.generationLog
      && GetCompositionById(o.store.compositions, o.result.value.id, None) == Ok(Some(o.result.value))
  {
  }

  /** With a rating filter of 3 only rows rated 3 are listed; without one,
      the caller's rows of every rating are. */
  lemma RatingFilterSelects(t: Table<Composition>, userId: string, q: CompositionsQuery, c: Composition)
    requires t.Valid() && q.compositionType.None?
    ensures q.rating == Some(3) && c in ListedRows(t, userId, q) ==> c.rating == Some(3)
    ensures q.rating.None? ==>
              (c in ListedRows(t, userId, q) <==> c.userId == userId && exists k :: k in t.rows && t.rows[k] == c)
  {
    OrderedMembers(t, Filter(userId, q), SortKey(q.sortBy), q.sortOrder == Asc, c);
  }

  /** Sorting by `created_at` descending, every row of an earlier page was
      created no earlier than every row of a later page. */
  lemma CreatedAtDescendsAcrossPages(t: Table<Composition>, userId: string, q: CompositionsQuery, later: int)
    requires q.page >= 1 && q.pageSize >= 1 && q.sortBy == CreatedAt && q.sortOrder == Desc
    requires later > q.page
    ensures var a := ListUserCompositions(t, userId, q, None).value.data;
      var b := ListUserCompositions(t, userId, q.(page := later), None).value.data;
      forall i, j :: 0 <= i < |a| && 0 <= j < |b| ==> a[i].createdAt >= b[j].createdAt
  {
    var q2 := q.(page := later);
    var all := ListedRows(t, userId, q);
    assert ListedRows(t, userId, q2) == all;
    var a := PageOf(all, q.page, q.pageSize);
    var b := PageOf(all, later, q.pageSize);
    assert ListUserCompositions(t, userId, q, None).value.data == a;
    assert ListUserCompositions(t, userId, q2, None).value.data == b;
    PagesInOrder(all, SortKey(CreatedAt), false, q.pageSize, q.page, later);
    forall i, j | 0 <= i < |a| && 0 <= j < |b| ensures a[i].createdAt >= b[j].createdAt {
      assert InOrder(SortKey(CreatedAt)(a[i]), SortKey(CreatedAt)(b[j]), false);
    }
  }

  /** Holds the two tables and performs each write step by step. */
  class CompositionService {
    var compositions: Table<Composition>
    var generationLog: Table<GenerationLog>

    function State(): Store
      reads this
    {
      Store(compositions, generationLog)
    }

    predicate Valid()
      reads this
    {
      ValidStore(State())
    }

    constructor (compositions: Table<Composition>, generationLog: Table<GenerationLog>)
      requires ValidStore(Store(compositions, generationLog))
      ensures Valid() && State() == Store(compositions, generationLog)
    {
      this.compositions := compositions;
      this.generationLog := generationLog;
    }

    /** Looks up the owner, refuses a missing row or a stranger, then writes. */
    method UpdateComposition(id: int, userId: string, patch: Patch, fetchFails: bool, updateError: Option<string>)
      returns (r: Result<Composition, AppError>)
      requires Valid()
      modifies this
      ensures Valid()
      ensures Outcome(State(), r) == UpdateOutcome(old(State()), id, userId, patch, fetchFails, updateError)
    {
      if fetchFails || id !in compositions.rows {
        return Err(NotFound(NotFoundMessage(id)));
      }
      var existing := compositions.rows[id];
      if existing.userId != userId {
        return Err(Forbidden(UpdateForbidden));
      }
      if updateError.Some? {
        return Err(Other(DatabaseError(updateError.value)));
      }
      var updated := ApplyPatch(existing, patch);
      compositions := ReplaceRow(compositions, id, updated);
      r := Ok(updated);
    }

    /** Looks up the owner, refuses a missing row or a stranger, then deletes. */
    method DeleteComposition(id: int, userId: string, fetchFails: bool, deleteError: Option<string>)
      returns (r: Result<(), AppError>)
      requires Valid()
      modifies this
      ensures Valid()
      ensures Outcome(State(), r) == DeleteOutcome(old(State()), id, userId, fetchFails, deleteError)
    {
      if fetchFails || id !in compositions.rows {
        return Err(NotFound(NotFoundMessage(id)));
      }
      var existing := compositions.rows[id];
      if existing.userId != userId {
        return Err(Forbidden(DeleteForbidden));
      }
      if deleteError.Some? {
        return Err(Other(DatabaseError(deleteError.value)));
      }
      compositions := DeleteRow(compositions, id);
      r := Ok(());
    }

    method CreateComposition(command: CreateCommand, userId: string, now: int,
                             insertError: Option<string>, logError: Option<string>)
      returns (r: Result<Composition, AppError>)
      requires Valid()
      modifies this
      ensures Valid()
      ensures Outcome(State(), r) == CreateOutcome(old(State()), command, userId, now, insertError, logError)
    {
      if command.CreateManual? {
        r := CreateManualComposition(command, userId, now, insertError);
      } else {
        r := CreateAiGeneratedComposition(command, userId, now, insertError, logError);
      }
    }

    method CreateManualComposition(command: CreateCommand, userId: string, now: int, insertError: Option<string>)
      returns (r: Result<Composition, AppError>)
      requires Valid() && command.CreateManual?
      modifies this
      ensures Valid()
      ensures Outcome(State(), r) == CreateManualOutcome(old(State()), command, userId, now, insertError)
    {
      if insertError.Some? {
        return Err(Other(DatabaseError(insertError.value)));
      }
      var row := NewComposition(compositions, userId, command.ingredients, command.rating, command.photoUrl, Manual, now);
      compositions := InsertRow(compositions, row);
      r := Ok(row);
    }

    method CreateAiGeneratedComposition(command: CreateCommand, userId: string, now: int,
                                        insertError: Option<string>, logError: Option<string>)
      returns (r: Result<Composition, AppError>)
      requires Valid() && command.CreateAiGenerated?
      modifies this
      ensures Valid()
      ensures Outcome(State(), r) == CreateAiOutcome(old(State()), command, userId, now, insertError, logError)
    {
      var suggestion := GenerateIngredients(command.ingredients);
      if insertError.Some? {
        return Err(Other(AiInsertError(insertError.value)));
      }
      var row := NewComposition(compositions, userId, suggestion.suggestedIngredients,
                                command.rating, command.photoUrl, AiGenerated, now);
      compositions := InsertRow(compositions, row);
      if logError.None? {
        generationLog := InsertRow(generationLog, NewLog(generationLog, userId, row.id, suggestion.generationDurationMs));
      }
      r := Ok(row);
    }
  }
}
