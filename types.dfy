/** Entities of the pizza-composition backend: table rows, commands, the
    pagination block of list responses and the error kinds the services raise. */
module Types {

  datatype Option<+T> = None | Some(value: T) {
    /** JavaScript's `x ?? d`. */
    function GetOr(default: T): T {
      if Some? then value else default
    }
  }

  datatype Result<+T, +E> = Ok(value: T) | Err(error: E)

  /** A body field that may be left out, sent as `null`, or sent with a value. */
  datatype Nullable<+T> = Absent | Null | Present(value: T)

  /** The `composition_type_enum` of the database. */
  datatype CompositionType = Manual | AiGenerated

  /** One row of the `compositions` table. `createdAt` is the store's clock
      value, kept only as an ordered key. */
  datatype Composition = Composition(
    id: int,
    userId: string,
    ingredients: seq<string>,
    rating: Option<int>,
    photoUrl: Option<string>,
    kind: CompositionType,
    createdAt: int)

  /** One row of the `generation_log` table; the duration column holds the
      interval literal that was written into it. */
  datatype GenerationLog = GenerationLog(
    id: int,
    userId: string,
    compositionId: int,
    generationDuration: string)

  /** A log entry as GET /api/generation-logs returns it. */
  datatype GenerationLogDto = GenerationLogDto(
    generationId: int,
    userId: string,
    compositionId: int,
    generationDuration: string)

  /** The create-command union, discriminated on `composition_type`. The AI
      variant carries seed ingredients and no `generation_duration`. */
  datatype CreateCommand =
    | CreateManual(ingredients: seq<string>, rating: Nullable<int>, photoUrl: Nullable<string>)
    | CreateAiGenerated(ingredients: seq<string>, rating: Nullable<int>, photoUrl: Nullable<string>)

  /** The partial update of PATCH: only these three columns may change. */
  datatype Patch = Patch(ingredients: Option<seq<string>>, rating: Option<int>, photoUrl: Option<string>)

  datatype PaginationInfo = PaginationInfo(page: int, pageSize: int, totalItems: int, totalPages: int)

  /** A page of a list endpoint: its rows and the pagination block. */
  datatype ListResponse<T> = ListResponse(data: seq<T>, pagination: PaginationInfo)

  /** NotFoundError, ForbiddenError and a plain Error, each with its message. */
  datatype AppError = NotFound(message: string) | Forbidden(message: string) | Other(message: string)

  /** What a nullable body field stores: an absent field takes the column
      default, which is null. */
  function Stored<T>(f: Nullable<T>): (r: Option<T>)
    ensures r.Some? <==> f.Present?
    ensures r.Some? ==> r.value == f.value
  {
    if f.Present? then Some(f.value) else None
  }
}
