# pizza-composer core, modelled in Dafny

pizza-composer is a small backend for saving pizza ingredient lists
("compositions"). A composition is entered by hand or generated from a few
seed ingredients by a suggester. Every AI generation is recorded in a
generation log. This project models the backend's core and proves
properties of the model:

- the composition service, which runs read-owner, then authorize, then act
  for updates and deletes, and handles both kinds of create;
- the paginated, filtered and sorted listings of compositions and of
  generation logs;
- the request schemas;
- the mock suggester;
- the status codes of `GET` and `POST /api/compositions`.

The store behind the services is an in-memory stand-in (`Datastore`):

- A table maps primary keys to rows and remembers the next key its sequence
  will hand out.
- A list query keeps the rows that pass an equality filter and sorts them by
  one key. Null keys come last when ascending, as the store does by default.
- It then cuts the inclusive window `range(from, to)` and reports the exact
  count of matching rows.
- Store failures are parameters of each operation. For the owner lookup this
  is `fetchFails`; for each write it is an optional error message.

Modules, one per source file or shared concern:

| module | file | models |
|---|---|---|
| `Types` | types.dfy | rows, commands, pagination block, error kinds |
| `Text` | text.dfy | number rendering in messages, the `"<ms>ms"` duration literal, `String.prototype.includes` |
| `Datastore` | datastore.dfy | the table stand-in and its select, order, range, count, insert, update and delete |
| `Pagination` | pagination.dfy | offset and window arithmetic, the ceiling page count, page coverage and order |
| `Input` | input.dfy | JSON values, query parameters, and the primitive schema checks |
| `CompositionValidators` | composition_validators.dfy | src/lib/validators/composition.validators.ts |
| `LogValidators` | log_validators.dfy | src/lib/validators/log.validators.ts |
| `AiService` | ai_service.dfy | src/lib/services/ai.service.ts |
| `CompositionService` | composition_service.dfy | src/lib/services/composition.service.ts |
| `GenerationLogService` | generation_log_service.dfy | src/lib/services/generation-log.service.ts |
| `CompositionsApi` | compositions_api.dfy | src/pages/api/compositions.ts |

The composition service has two layers:

- The functions `UpdateOutcome`, `DeleteOutcome` and `CreateOutcome` each
  specify a mutation. They map the two tables before a call to the two
  tables after it, together with what the call returned or threw.
- The class `CompositionService.CompositionService` holds the two tables as
  fields. Its methods perform the same steps in place, and each method is
  proved equal to its function.

The `POST` handler follows the same split. `PostOutcome` specifies it and the
`Post` method runs it against the service object.

The POST handler turns an error into 503 when its message contains
`"AI service"`. The model shows that this can only come from the store, not
from the suggester (`CompositionsApi.ServiceUnavailableOnlyFromStore`). The
mock suggester never fails. The service puts its own prefixes before a store
message, and those prefixes contain no capital `A`. So a create answers 503
exactly when the store refused the insert with a message that itself
contains `"AI service"`.

## Model

| member | source | states |
|---|---|---|
| `Text.IntText` | src/lib/services/composition.service.ts:44-46 | the id in the not-found message is rendered with a minus sign exactly when it is negative |
| `Text.DigitsValueOfNatText` | src/lib/services/composition.service.ts:172 | the decimal text of a number reads back as that number |
| `Text.IntTextInjective` | src/lib/services/composition.service.ts:45 | different ids never render as the same text |
| `Text.MsLiteralRoundTrip` | src/lib/services/composition.service.ts:172 | the duration literal `"<ms>ms"` the AI path writes reads back as `ms` |
| `Text.MsLiteral` | src/lib/services/composition.service.ts:172 | the literal of a duration ends in `ms` |
| `Text.MsLiteralInjective` | src/lib/services/composition.service.ts:172 | different durations never share a literal |
| `Text.IncludesIff` | src/pages/api/compositions.ts:125 | `includes` holds exactly when the marker occurs at some index |
| `Text.IncludesInContext` | src/pages/api/compositions.ts:125 | text that contains the marker still contains it with anything around it |
| `Text.IncludesPastPrefix` | src/pages/api/compositions.ts:125 | a prefix lacking the marker's first character changes nothing about whether the marker occurs |
| `Datastore.Select` | src/lib/services/composition.service.ts:236-247 | every row a filtered select returns passes the filter |
| `Datastore.SelectMembers` | src/lib/services/composition.service.ts:236-247 | a row is selected exactly when it is stored under a key in range and passes the filter |
| `Datastore.SelectCount` | src/lib/services/composition.service.ts:238 | the exact count equals the number of matching keys |
| `Datastore.Insert` | src/lib/services/composition.service.ts:249-250 | insertion into an ordered list keeps every element and adds one |
| `Datastore.InsertSorted` | src/lib/services/composition.service.ts:249-250 | insertion keeps the list ordered by the key |
| `Datastore.Sort` | src/lib/services/composition.service.ts:249-250 | `order` returns a permutation of the rows, ordered by the key, ascending or descending |
| `Types.Stored` | src/lib/services/composition.service.ts:123-126 | a nullable body field is stored as its value when present, and as null when null or absent |
| `Datastore.Range` | src/lib/services/composition.service.ts:251 | `range(from, to)` returns the rows at offsets `from..to` inclusive that exist, in order |
| `Datastore.Ordered` | src/lib/services/composition.service.ts:236-250 | the filtered, ordered rows all pass the filter and are sorted |
| `Datastore.RangeOfSorted` | src/lib/services/composition.service.ts:249-251 | a window of sorted rows is sorted and holds only rows of the whole |
| `Datastore.InsertRow` | src/lib/services/composition.service.ts:121-128 | an insert stores the row under a fresh key and keeps every earlier row |
| `Datastore.ReplaceRow` | src/lib/services/composition.service.ts:56-62 | an update replaces that one row; keys and every other row stay |
| `Datastore.DeleteRow` | src/lib/services/composition.service.ts:95-98 | a delete removes exactly that key; every other row stays |
| `Datastore.Execute` | src/lib/services/composition.service.ts:253 | a query either fails with the store's error and no data, or returns data and a count |
| `Datastore.ExecuteAnswers` | src/lib/services/composition.service.ts:253-261 | a successful query returns the window of the ordered matching rows and counts all of them |
| `Datastore.OrderedMembers` | src/lib/services/composition.service.ts:236-250 | the ordered rows are exactly the stored rows that pass the filter |
| `Pagination.Offset` | src/lib/services/composition.service.ts:233 | the first offset of a page is never negative |
| `Pagination.LastOffset` | src/lib/services/composition.service.ts:234 | a page's window spans exactly `pageSize` offsets |
| `Pagination.CeilDiv` | src/lib/services/composition.service.ts:262 | the page count is the least number of pages that covers all items |
| `Pagination.CeilDivUnique` | src/lib/services/composition.service.ts:262 | only one number has that property, so it is `Math.ceil(totalItems / pageSize)` |
| `Pagination.CeilDivZero` | src/lib/services/composition.service.ts:261-262 | the page count is zero exactly when there are no items, and never negative |
| `Pagination.Info` | src/lib/services/composition.service.ts:261-271 | the pagination block echoes page and pageSize, takes `count ?? 0` as totalItems, and has the ceiling page count |
| `Pagination.PageOf` | src/lib/services/composition.service.ts:233-251 | a page holds at most `pageSize` rows, taken in order from offset `(page-1)*pageSize` |
| `Pagination.PageNonEmptyIff` | src/lib/services/composition.service.ts:233-262 | a page has rows exactly when its number is at most the page count |
| `Pagination.PagesPrefix` | src/lib/services/composition.service.ts:233-234 | pages 1..k laid end to end are the first `k*pageSize` rows |
| `Pagination.PagesCoverAll` | src/lib/services/composition.service.ts:233-262 | pages 1..totalPages together are all rows once, in order |
| `Pagination.PagesInOrder` | src/lib/services/composition.service.ts:249-251 | the sort order holds across page boundaries |
| `Input.CoerceInt` | src/lib/validators/composition.validators.ts:5-6 | a coerced integer is accepted exactly when the parameter reads as an integer within the bounds, and keeps its value |
| `Input.JsonInt` | src/lib/validators/composition.validators.ts:23 | a JSON integer is accepted exactly when it is a whole number within the bounds |
| `Input.JsonUrl` | src/lib/validators/composition.validators.ts:24 | a URL field is accepted exactly when it is a string of URL shape, unchanged |
| `Input.JsonStrings` | src/lib/validators/composition.validators.ts:22 | a string array is accepted exactly when its length is within bounds and every item is a string; items are kept in order |
| `Input.SortOrderOf` | src/lib/validators/composition.validators.ts:10 | `sortOrder` is accepted exactly for `asc` and `desc` |
| `Input.PresentField` | src/lib/validators/composition.validators.ts:11-12 | an optional field that is present passes exactly when its check passes |
| `CompositionValidators.SortByOf` | src/lib/validators/composition.validators.ts:7-9 | `sortBy` is accepted exactly for `created_at` and `rating` |
| `CompositionValidators.CompositionTypeOf` | src/lib/validators/composition.validators.ts:12 | `composition_type` is accepted exactly for `manual` and `ai-generated` |
| `CompositionValidators.ParseCompositionsQuery` | src/lib/validators/composition.validators.ts:3-14 | a query is accepted exactly when every key is one of the six and its value meets its constraint; an accepted query has page at least 1, pageSize in 1..100 and a rating in 1..6 when given; unknown keys are reported |
| `CompositionValidators.ParsedPageEchoes` | src/lib/validators/composition.validators.ts:5-6 | an accepted query carries the page and pageSize given, 1 and 10 when missing |
| `CompositionValidators.ParsedSortEchoes` | src/lib/validators/composition.validators.ts:7-10 | an accepted query sorts by the column and direction given, `created_at` descending when missing |
| `CompositionValidators.ParsedFilterEchoes` | src/lib/validators/composition.validators.ts:11-12 | an accepted query has a rating or kind filter exactly when that key is given, with the value given |
| `CompositionValidators.UnknownQueryKeyRejected` | src/lib/validators/composition.validators.ts:14 | a query with any key outside the six is refused, whatever else it holds |
| `CompositionValidators.ParseCompositionId` | src/lib/validators/composition.validators.ts:18 | an id is accepted exactly when it reads as a positive integer |
| `CompositionValidators.ParsePatch` | src/lib/validators/composition.validators.ts:20-30 | a patch is accepted exactly when it is an object naming at least one of the three columns and each named column meets its constraint; an empty object is refused; presence mirrors the body |
| `CompositionValidators.PatchExamples` | src/lib/validators/composition.validators.ts:20-30 | `{}` is refused as empty and `{"rating": 5}` alone is accepted |
| `LogValidators.LogSortByOf` | src/lib/validators/log.validators.ts:14-16 | `sortBy` is accepted exactly for `generation_id` and `generation_duration` |
| `LogValidators.ParseLogsQuery` | src/lib/validators/log.validators.ts:11-18 | a query is accepted exactly when each known key meets its constraint; defaults 1, 10, generation_id and desc; values echo |
| `LogValidators.ExtraLogKeyIgnored` | src/lib/validators/log.validators.ts:11-18 | a key the schema does not know changes nothing about the outcome |
| `LogValidators.AcceptedPageSizePositive` | src/lib/validators/log.validators.ts:12-13 | every accepted query has page and pageSize of at least 1 |
| `AiService.GenerateIngredients` | src/lib/services/ai.service.ts:13-37 | the suggestions are the seeds, in order, followed by the two placeholders; the duration is 1500 ms |
| `AiService.SuggestionsKeepSeeds` | src/lib/services/ai.service.ts:23 | every seed keeps its position and nothing but the two placeholders is added |
| `AiService.SuggestionSizeForCreate` | src/lib/services/ai.service.ts:23 | one to three seeds give three to five suggestions, within the maximum of ten |
| `CompositionService.ApplyPatch` | src/lib/services/composition.service.ts:56-62 | the columns a patch names take its values; id, owner, kind and creation time never change |
| `CompositionService.NotFoundMessage` | src/lib/services/composition.service.ts:44-46 | the not-found text is a fixed prefix, the id in decimal, and a fixed suffix |
| `CompositionService.NotFoundMessageInjective` | src/lib/services/composition.service.ts:44-46 | the not-found text names its id: different ids give different texts |
| `CompositionService.DatabaseError` | src/lib/services/composition.service.ts:67 | an update, delete or manual insert failure passes the store's message on unchanged after `Database error: ` |
| `CompositionService.AiInsertError` | src/lib/services/composition.service.ts:160-164 | the AI path's insert failure passes the store's message on unchanged after its own prefix |
| `CompositionService.ApplyPatchIdempotent` | src/lib/services/composition.service.ts:56-62 | applying the same patch twice equals applying it once |
| `CompositionService.ApplyPatchChanges` | src/lib/services/composition.service.ts:56-62 | a patch leaves a row as it was exactly when every column it names already has that value |
| `CompositionService.OwnerCheck` | src/lib/services/composition.service.ts:37-53 | a failed lookup or missing row gives NotFound, a different owner gives Forbidden, and only the owner passes |
| `CompositionService.UpdateOutcome` | src/lib/services/composition.service.ts:31-71 | update: NotFound exactly when the row is missing, Forbidden for a stranger, a database error otherwise; any failure leaves both tables unchanged; success changes only that row, as the patch says, and returns it |
| `CompositionService.DeleteOutcome` | src/lib/services/composition.service.ts:73-104 | delete: NotFound exactly when the row is missing, Forbidden for a stranger, a database error otherwise; any failure leaves both tables unchanged; success removes exactly that row |
| `CompositionService.NewComposition` | src/lib/services/composition.service.ts:121-128 | an inserted row carries the caller as owner, the command's columns, a fresh id and the store's time |
| `CompositionService.CreateManualOutcome` | src/lib/services/composition.service.ts:117-136 | a manual create inserts one manual row from the command, or fails with a database error and changes nothing; the log table is untouched |
| `CompositionService.NewLog` | src/lib/services/composition.service.ts:167-173 | the log row references the new composition and its duration literal reads back as the suggester's duration |
| `CompositionService.CreateAiOutcome` | src/lib/services/composition.service.ts:138-199 | an AI create stores the suggester's list with the AI kind; a failed composition insert changes nothing and writes no log; otherwise a log row with `"1500ms"` is added, or on a failed log insert the log table stays as it was and the composition is still returned |
| `CompositionService.CreateOutcome` | src/lib/services/composition.service.ts:106-115 | a create fails exactly when the insert fails, leaving the store unchanged; the row's kind follows the command's kind |
| `CompositionService.GetCompositionById` | src/lib/services/composition.service.ts:201-224 | the row under the id, no row when there is none, or the store's error |
| `CompositionService.UpdateThenGet` | src/lib/services/composition.service.ts:56-70 | after a successful update the row reads back as the update returned it |
| `CompositionService.DeleteThenGet` | src/lib/services/composition.service.ts:95-98 | after a successful delete the id reads back as no row and every other id reads back as before |
| `CompositionService.CreateThenGet` | src/lib/services/composition.service.ts:121-128 | a created row gets an unused id, reads back under it, and overwrites nothing |
| `CompositionService.MissingRowNotFound` | src/lib/services/composition.service.ts:43-47 | update and delete of a missing row give NotFound whatever the caller, and leave the store unchanged |
| `CompositionService.AiCreateStoresSuggestions` | src/lib/services/composition.service.ts:143-156 | an AI composition stores the seeds followed by the two placeholders, three to five items |
| `CompositionService.ListUserCompositions` | src/lib/services/composition.service.ts:226-273 | listing: only the caller's rows passing the rating and kind filters, at most pageSize of them, in sort order, the window of the ordered rows at `(page-1)*pageSize`; exact count, ceiling page count, page and pageSize echoed; a store error gives the fixed message |
| `CompositionService.ListingReply` | src/lib/services/composition.service.ts:261-272 | from the store's page and exact count: the rows pass the filters, are in order and are at most pageSize; `count ?? 0` items and the ceiling page count |
| `CompositionService.Truthy` | src/lib/services/composition.service.ts:241 | `if (rating)`: an absent rating filter is falsy and every rating of at least 1 is truthy |
| `CompositionService.MatchesIff` | src/lib/services/composition.service.ts:239-247 | for a validated query, `if (rating)` holds exactly when a rating is given, and a row passes the `eq` chain exactly when it is the caller's and agrees with each given rating and kind |
| `CompositionService.KeyOf` | src/lib/services/composition.service.ts:250 | `order(sortBy)` compares created_at, or the rating, with an unrated row as a null key |
| `CompositionService.NullRatingPlacement` | src/lib/services/composition.service.ts:249-250 | sorted by rating, unrated rows follow every rated row when ascending and precede them when descending |
| `CompositionService.ListingCoversMatches` | src/lib/services/composition.service.ts:236-262 | the listed rows are exactly the stored rows that pass the filters, and pages 1..totalPages together give each of them once |
| `CompositionService.CreatedIsListed` | src/lib/services/composition.service.ts:121-128 | a composition the caller creates appears in the caller's unfiltered listing |
| `CompositionService.ManualCreateRoundTrip` | src/lib/services/composition.service.ts:117-136 | creating `["a","b"]`, rating 4 and no photo, then fetching by id, gives back a manual composition with those ingredients and that rating |
| `CompositionService.AiCreateSurvivesLogFailure` | src/lib/services/composition.service.ts:175-189 | with the seed `"tomato"` and a failing log insert, the create still succeeds, stores 1 to 10 ingredients with the AI kind, and leaves the log table alone |
| `CompositionService.RatingFilterSelects` | src/lib/services/composition.service.ts:241-243 | with rating 3 only rows rated 3 are listed; without a rating filter the caller's rows of every rating are |
| `CompositionService.CreatedAtDescendsAcrossPages` | src/lib/services/composition.service.ts:249-251 | sorted by created_at descending, every row of an earlier page was created no earlier than any row of a later page |
| `CompositionService.CompositionService.constructor` | src/lib/services/composition.service.ts:26-29 | the service starts over the given tables |
| `CompositionService.CompositionService.UpdateComposition` | src/lib/services/composition.service.ts:31-71 | the in-place update leaves the tables and returns exactly what `UpdateOutcome` says |
| `CompositionService.CompositionService.DeleteComposition` | src/lib/services/composition.service.ts:73-104 | the in-place delete leaves the tables and returns exactly what `DeleteOutcome` says |
| `CompositionService.CompositionService.CreateComposition` | src/lib/services/composition.service.ts:106-115 | the dispatching create matches `CreateOutcome` |
| `CompositionService.CompositionService.CreateManualComposition` | src/lib/services/composition.service.ts:117-136 | the in-place manual create matches `CreateManualOutcome` |
| `CompositionService.CompositionService.CreateAiGeneratedComposition` | src/lib/services/composition.service.ts:138-199 | the in-place AI create matches `CreateAiOutcome` |
| `GenerationLogService.ToDto` | src/lib/services/generation-log.service.ts:54-58 | a DTO keeps the generation, user and composition ids and carries the duration as text |
| `GenerationLogService.ToDtoInjective` | src/lib/services/generation-log.service.ts:54-58 | the projection loses nothing: different rows give different DTOs |
| `GenerationLogService.Project` | src/lib/services/generation-log.service.ts:53-59 | the output has the fetched rows' length and order, and is empty when no data came back |
| `GenerationLogService.ProjectKeepsOrder` | src/lib/services/generation-log.service.ts:39-59 | projecting ordered rows of one owner keeps them ordered and keeps the owner |
| `GenerationLogService.ListLogsForUser` | src/lib/services/generation-log.service.ts:25-70 | only the caller's logs, at most pageSize of them, in sort order, projected from the window at `(page-1)*pageSize`; `count ?? 0` items and the ceiling page count; page and pageSize echoed; a store error gives the fixed message and no partial result |
| `GenerationLogService.LogsReply` | src/lib/services/generation-log.service.ts:48-69 | from the store's page and exact count: the DTOs of the page's rows, in order, all the caller's; `count ?? 0` items and the ceiling page count |
| `GenerationLogService.LogPagesCoverAll` | src/lib/services/generation-log.service.ts:30-49 | the listed logs are exactly the caller's, and pages 1..totalPages together give each once |
| `GenerationLogService.DurationKeyOfLiteral` | src/lib/services/generation-log.service.ts:39 | sorted by duration, a log written as `"<ms>ms"` orders by `ms` |
| `GenerationLogService.DtoKeyOf` | src/lib/services/generation-log.service.ts:39 | `order(sortBy)` compares the generation id, or the duration, which has a value exactly when it is a `<ms>ms` literal |
| `CompositionsApi.NullableField` | src/pages/api/compositions.ts:62-63 | a nullable optional field is absent, null, or must pass its check |
| `CompositionsApi.ParseCreateBody` | src/pages/api/compositions.ts:59-76 | a body is accepted exactly when it is an object with a known `composition_type`, 1..10 string ingredients for manual or 1..3 for AI, and a rating and photo_url that are absent, null or valid; a body that is not an object or that has an unknown kind is refused as such |
| `CompositionsApi.IngredientBoundsDiffer` | src/pages/api/compositions.ts:61-68 | four ingredients pass as manual but not as AI-generated |
| `CompositionsApi.CreateReply` | src/pages/api/compositions.ts:114-139 | 201 exactly on success; 503 exactly when the error message contains `"AI service"`; 500 for every other error, passing the message on |
| `CompositionsApi.PostOutcome` | src/pages/api/compositions.ts:78-139 | malformed JSON and a body failing the schema both give 400 without calling the service; 201 exactly when the insert succeeds; any non-201 answer leaves the store unchanged |
| `CompositionsApi.ServiceUnavailableOnlyFromStore` | src/pages/api/compositions.ts:118-130 | for a valid body, POST answers 503 exactly when the store refused the insert with a message containing `"AI service"` |
| `CompositionsApi.PrefixesLackMarkerStart` | src/pages/api/compositions.ts:125 | neither service prefix holds the marker's first character, so the marker can only come from the store's message |
| `CompositionsApi.Post` | src/pages/api/compositions.ts:78-139 | the handler against the service object matches `PostOutcome` |
| `CompositionsApi.Get` | src/pages/api/compositions.ts:9-56 | 400 exactly when the query is invalid, 500 exactly on a store error with its message, 200 with the listing otherwise |
| `CompositionsApi.UnknownQueryKeyIsBadRequest` | src/pages/api/compositions.ts:14-40 | a query key of no field gives 400 whatever the store holds |

## Left out

- The store's query builder, row-level security and error codes are replaced by `Datastore`. PostgREST's `PGRST116` ("no single row") becomes an absent key. Every other store failure becomes a parameter.
- `CompositionService.CompositionService.UpdateComposition` and the other mutations treat each call as one atomic step. The `async` calls, and the race between the owner check and the write, are not modelled.
- `CompositionService.CompositionService.UpdateComposition`, `CompositionService.UpdateOutcome`: a refused update or delete is assumed to leave the row as it was, and the row read back after an update is the row written.
- `created_at` is the store's clock; it is a parameter (`now`) of each create and serves only as an ordered key.
- The caller's identity, a fixed placeholder in the source, is a parameter (`userId`).
- `Datastore.Sort`: the store decides the order of rows with equal keys; the model keeps them in key order of the table. Null ratings sort as the store's default: last when ascending, first when descending.
- `Input.IsUrl` approximates Zod's `.url()` with the shape `scheme:`; full URL syntax is not modelled.
- Zod's `z.coerce.number()` is taken as given: each query parameter carries the number JavaScript's `Number` reads from it.
- Zod error messages and `flatten()` detail maps are not modelled. A refusal reports the set of failing field names, unknown keys, a non-object body, an empty patch or an unknown kind.
- `GenerationLogService.ToDto`: the `generation_duration` column is kept as the literal text the AI path writes (`"1500ms"`). The store's own interval type and how `String(...)` renders it are not modelled.
- The duration ordering reads `"<ms>ms"` literals by their number; durations in any other format order as null.
- `Math.ceil(totalItems / pageSize)` on floating point is modelled as integer ceiling division. The two agree for the integers that occur.
- `Pagination.Offset`, `Pagination.LastOffset`, `CompositionService.ListUserCompositions`, `GenerationLogService.ListLogsForUser`: the arithmetic is exact in the model but double-precision in the source. Neither validator bounds `page`, so `(page - 1) * pageSize` and `from + pageSize - 1` are exact in the source only while they stay below 2^53.
- `Text.IntText`, `CompositionService.NotFoundMessage`: the model renders any id in plain decimal. JavaScript's `${id}` switches to exponent notation from 1e21.
- `Datastore.Range`, `Pagination.PageNonEmptyIff`: with an exact count, the store refuses a window that starts past the last matching row ("Requested range not satisfiable"), and the services then fail with their fixed message. The model's store returns an empty page there. That failure is covered only because the store fault is a free parameter of every listing.
- `Types.Stored`: a body field that is absent is assumed to be stored as the column default, null. The schema of the tables is not part of this model.
- `CompositionService.ListUserCompositions` and `GenerationLogService.ListLogsForUser` require `page >= 1` and `pageSize >= 1`. The validators guarantee both for every caller (`LogValidators.AcceptedPageSizePositive`, `CompositionValidators.ParseCompositionsQuery`).
- The AI path's catch-all message "An unexpected error occurred during AI composition creation." is unreachable: every failure in the model is an error with a message, and those are re-thrown unchanged.
- The mock suggester's `console.log` calls and its 500 ms delay are left out, as is all other logging. So are the JSON and header details of responses beyond the status, a fixed headline and the passed-on message. In `CompositionsApi.Reply` the headline is the `error` key of a POST answer and the `message` key of a GET answer; the passed-on message is the `details` key of POST and the `error` key of GET.
- `AiGenerationService`'s commented-out API-key handling, and any real AI integration, are left out.
- src/pages/api/compositions/[composition_id].ts and src/pages/api/generation-logs.ts are not part of this model. Their PATCH, DELETE and log routes only map the modelled outcomes to statuses.
- `ValidationError` in src/lib/errors.ts is declared but never raised by the modelled code, so it has no counterpart.
- The internal AI command type drops `generation_duration` (src/lib/services/composition.service.ts:13-16). `Types.CreateCommand` carries no duration for either kind.
