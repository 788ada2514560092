/** The route src/pages/api/compositions.ts: the create-body schema, and how
    GET and POST turn parse results and service outcomes into a status. */
module CompositionsApi {
  import opened Types
  import opened Text
  import opened Datastore
  import opened Input
  import opened CompositionValidators
  import opened CompositionService

  /** What a handler answers: a status with the payload, or a status with a
      fixed headline and, for server errors, the message it passes on. POST
      sends these under the keys `error` and `details`; GET under `message`
      and `error`. */
  datatype Reply<T> =
    | Success(status: int, payload: T)
    | Failure(status: int, headline: string, passedOn: string)

  // The create body

  const ManualMaxIngredients: int := 10
  const AiMaxIngredients: int := 3

  /** The `composition_type` literal a body must carry. */
  predicate ValidDiscriminator(f: map<string, Json>) {
    "composition_type" in f && (f["composition_type"] == JStr("manual") || f["composition_type"] == JStr("ai-generated"))
  }

  /** `.nullable().optional()` around a check: the key may be missing, may
      hold `null`, or must pass the check. */
  function NullableField<T>(f: map<string, Json>, key: string, check: Json -> Option<T>): (r: Option<Nullable<T>>)
    ensures key !in f ==> r == Some(Absent)
    ensures key in f && f[key] == JNull ==> r == Some(Nullable.Null)
    ensures key in f && f[key] != JNull ==> (r.Some? <==> check(f[key]).Some?)
    ensures key in f && f[key] != JNull && r.Some? ==> r.value == Present(check(f[key]).value)
  {
    if key !in f then Some(Absent)
    else if f[key] == JNull then Some(Nullable.Null)
    else
      var c := check(f[key]);
      if c.Some? then Some(Present(c.value)) else None
  }

  function RatingCheck(): Json -> Option<int> {
    j => JsonInt(j, 1, 6)
  }

  function PhotoCheck(): Json -> Option<string> {
    j => JsonUrl(j)
  }

  /** Whether `f[key]` is missing, `null`, or passes the check. */
  predicate NullableOk<T>(f: map<string, Json>, key: string, check: Json -> Option<T>) {
    key !in f || f[key] == JNull || check(f[key]).Some?
  }

  /** The reference reading of both object schemas together. */
  predicate AcceptableCreateBody(body: Json) {
    && body.JObj?
    && ValidDiscriminator(body.fields)
    && var f := body.fields;
    var max := if f["composition_type"] == JStr("manual") then ManualMaxIngredients else AiMaxIngredients;
    && "ingredients" in f && f["ingredients"].JArr?
    && 1 <= |f["ingredients"].items| <= max
    && (forall i :: 0 <= i < |f["ingredients"].items| ==> f["ingredients"].items[i].JStr?)
    && NullableOk(f, "rating", RatingCheck())
    && NullableOk(f, "photo_url", PhotoCheck())
  }

  /** `createCompositionSchema.safeParse`: a discriminated union on
      `composition_type` of two object schemas that differ only in the
      bound on `ingredients`. Keys neither schema knows are dropped. */
  function ParseCreateBody(body: Json): (r: Result<CreateCommand, set<Issue>>)
    ensures !body.JObj? ==> r == Err({NotAnObject})
    ensures body.JObj? && !ValidDiscriminator(body.fields) ==> r == Err({InvalidDiscriminator})
    ensures r.Ok? <==> AcceptableCreateBody(body)
    ensures r.Ok? ==> (r.value.CreateManual? <==> body.fields["composition_type"] == JStr("manual"))
    ensures r.Ok? && r.value.CreateManual? ==> 1 <= |r.value.ingredients| <= 10
    ensures r.Ok? && r.value.CreateAiGenerated? ==> 1 <= |r.value.ingredients| <= 3
    ensures r.Ok? ==> var items := body.fields["ingredients"].items;
      |r.value.ingredients| == |items| && forall i :: 0 <= i < |items| ==> items[i] == JStr(r.value.ingredients[i])
    ensures r.Ok? ==> (r.value.rating.Absent? <==> "rating" !in body.fields)
    ensures r.Ok? ==> (r.value.rating.Null? <==> "rating" in body.fields && body.fields["rating"] == JNull)
    ensures r.Ok? && r.value.rating.Present? ==>
              1 <= r.value.rating.value <= 6 && body.fields["rating"] == JNum(r.value.rating.value as real)
    ensures r.Ok? ==> (r.value.photoUrl.Absent? <==> "photo_url" !in body.fields)
    ensures r.Ok? ==> (r.value.photoUrl.Null? <==> "photo_url" in body.fields && body.fields["photo_url"] == JNull)
    ensures r.Ok? && r.value.photoUrl.Present? ==>
              IsUrl(r.value.photoUrl.value) && body.fields["photo_url"] == JStr(r.value.photoUrl.value)
  {
    if !body.JObj? then Err({NotAnObject})
    else if !ValidDiscriminator(body.fields) then Err({InvalidDiscriminator})
    else
      var f := body.fields;
      var manual := f["composition_type"] == JStr("manual");
      var max := if manual then ManualMaxIngredients else AiMaxIngredients;
      var ingredients := if "ingredients" in f then JsonStrings(f["ingredients"], 1, max) else None;
      var rating := NullableField(f, "rating", RatingCheck());
      var photoUrl := NullableField(f, "photo_url", PhotoCheck());
      if ingredients.Some? && rating.Some? && photoUrl.Some? then
        if manual then Ok(CreateManual(ingredients.value, rating.value, photoUrl.value))
        else Ok(CreateAiGenerated(ingredients.value, rating.value, photoUrl.value))
      else
        Err(IssueIf(ingredients.None?, "ingredients") + IssueIf(rating.None?, "rating")
            + IssueIf(photoUrl.None?, "photo_url"))
  }

  /** Four seeds pass as a manual composition but not as an AI one. */
  lemma IngredientBoundsDiffer()
    ensures var items := JArr([JStr("a"), JStr("b"), JStr("c"), JStr("d")]);
      && ParseCreateBody(JObj(map["composition_type" := JStr("manual"), "ingredients" := items]))
         == Ok(CreateManual(["a", "b", "c", "d"], Absent, Absent))
      && ParseCreateBody(JObj(map["composition_type" := JStr("ai-generated"), "ingredients" := items]))
         == Err({InvalidField("ingredients")})
  {
    var items := JArr([JStr("a"), JStr("b"), JStr("c"), JStr("d")]);
    var r := JsonStrings(items, 1, 10);
    assert items.items[3].JStr?;
    assert r.Some? && |r.value| == 4;
    assert r.value[0] == "a" && r.value[1] == "b" && r.value[2] == "c" && r.value[3] == "d" by {
      assert items.items[0] == JStr(r.value[0]) && items.items[1] == JStr(r.value[1]);
      assert items.items[2] == JStr(r.value[2]) && items.items[3] == JStr(r.value[3]);
    }
    assert r.value == ["a", "b", "c", "d"];
  }

  // POST

  const ServiceUnavailableMarker: string := "AI service"

  /** The status of a create call: 201 with the row, 503 when the error
      message mentions the AI service, 500 for any other error. */
  function CreateReply(result: Result<Composition, AppError>): (r: Reply<Composition>)
    ensures r.status == 201 <==> result.Ok?
    ensures result.Ok? ==> r == Success(201, result.value)
    ensures r.status == 503 <==> result.Err? && Includes(result.error.message, ServiceUnavailableMarker)
    ensures r.status == 500 <==> result.Err? && !Includes(result.error.message, ServiceUnavailableMarker)
    ensures result.Err? ==> r.Failure? && r.passedOn == result.error.message
  {
    if result.Ok? then Success(201, result.value)
    else if Includes(result.error.message, ServiceUnavailableMarker)
    then Failure(503, "Service Unavailable", result.error.message)
    else Failure(500, "Internal Server Error", result.error.message)
  }

  /** The POST handler on a store: the body as `request.json()` read it
      (None when that threw), then the schema, then the service. */
  function PostOutcome(s: Store, body: Option<Json>, userId: string, now: int,
                       insertError: Option<string>, logError: Option<string>): (r: (Store, Reply<Composition>))
    ensures body.None? ==> r == (s, Failure(400, "Invalid JSON body", ""))
    ensures body.Some? && ParseCreateBody(body.value).Err? ==> r == (s, Failure(400, "Invalid request body", ""))
    ensures r.1.status == 201 <==> body.Some? && ParseCreateBody(body.value).Ok? && insertError.None?
    ensures r.1.status != 201 ==> r.0 == s
    ensures body.Some? && ParseCreateBody(body.value).Ok? ==>
              var o := CreateOutcome(s, ParseCreateBody(body.value).value, userId, now, insertError, logError);
              r == (o.store, CreateReply(o.result))
  {
    if body.None? then (s, Failure(400, "Invalid JSON body", ""))
    else
      var parsed := ParseCreateBody(body.value);
      if parsed.Err? then (s, Failure(400, "Invalid request body", ""))
      else
        var o := CreateOutcome(s, parsed.value, userId, now, insertError, logError);
        (o.store, CreateReply(o.result))
  }

  /** Neither prefix the service puts before a store message holds the
      first character of the marker. */
  lemma PrefixesLackMarkerStart()
    ensures forall i :: 0 <= i < |DatabaseErrorPrefix| ==> DatabaseErrorPrefix[i] != ServiceUnavailableMarker[0]
    ensures forall i :: 0 <= i < |AiInsertErrorPrefix| ==> AiInsertErrorPrefix[i] != ServiceUnavailableMarker[0]
  {
  }

  /** Whatever the body, POST answers 503 exactly when a write was refused
      with a store message that itself mentions the AI service: the
      suggester never fails, and the service's own prefixes cannot supply
      the marker. */
  lemma ServiceUnavailableOnlyFromStore(s: Store, body: Json, userId: string, now: int,
                                        insertError: Option<string>, logError: Option<string>)
    requires ParseCreateBody(body).Ok?
    ensures PostOutcome(s, Some(body), userId, now, insertError, logError).1.status == 503 <==>
              insertError.Some? && Includes(insertError.value, ServiceUnavailableMarker)
  {
    if insertError.Some? {
      var pre := if ParseCreateBody(body).value.CreateManual? then DatabaseErrorPrefix
                 else AiInsertErrorPrefix;
      PrefixesLackMarkerStart();
      IncludesPastPrefix(pre, insertError.value, ServiceUnavailableMarker);
    }
  }

  /** The handler run against the service object. */
  method Post(service: CompositionService, body: Option<Json>, userId: string, now: int,
              insertError: Option<string>, logError: Option<string>) returns (reply: Reply<Composition>)
    requires service.Valid()
    modifies service
    ensures service.Valid()
    ensures (service.State(), reply) == PostOutcome(old(service.State()), body, userId, now, insertError, logError)
  {
    if body.None? {
      return Failure(400, "Invalid JSON body", "");
    }
    var validation := ParseCreateBody(body.value);
    if validation.Err? {
      return Failure(400, "Invalid request body", "");
    }
    var result := service.CreateComposition(validation.value, userId, now, insertError, logError);
    reply := CreateReply(result);
  }

  // GET

  const InvalidQuery: string := "Bad Request: Invalid query parameters."

  /** The GET handler: parse the query, then list; a query error is 400, a
      service error 500. */
  function Get(raw: map<string, Param>, t: Table<Composition>, userId: string,
               fault: Option<string>): (r: Reply<ListResponse<Composition>>)
    ensures r.status == 400 <==> ParseCompositionsQuery(raw).Err?
    ensures r.status == 400 ==> r == Failure(400, InvalidQuery, "")
    ensures r.status == 500 <==> ParseCompositionsQuery(raw).Ok? && fault.Some?
    ensures r.status == 500 ==> r == Failure(500, "Internal Server Error", FetchCompositionsFailed)
    ensures r.status == 200 <==> ParseCompositionsQuery(raw).Ok? && fault.None?
    ensures r.Success? ==> r.payload == ListUserCompositions(t, userId, ParseCompositionsQuery(raw).value, None).value
  {
    var parsed := ParseCompositionsQuery(raw);
    if parsed.Err? then Failure(400, InvalidQuery, "")
    else
      var result := ListUserCompositions(t, userId, parsed.value, fault);
      if result.Err? then Failure(500, "Internal Server Error", result.error.message)
      else Success(200, result.value)
  }

  /** A query key of no field is a 400 whatever the store holds. */
  lemma UnknownQueryKeyIsBadRequest(raw: map<string, Param>, key: string, p: Param,
                                    t: Table<Composition>, userId: string, fault: Option<string>)
    requires key !in QueryKeys
    ensures Get(raw[key := p], t, userId, fault).status == 400
  {
    UnknownQueryKeyRejected(raw, key, p);
  }
}
