/** The schemas of src/lib/validators/composition.validators.ts: the strict
    list query of GET /api/compositions, the path id, and the PATCH body. */
module CompositionValidators {
  import opened Types
  import opened Input

  datatype SortBy = CreatedAt | Rating

  /** A parsed GetCompositionsQuery, defaults filled in. */
  datatype CompositionsQuery = CompositionsQuery(
    page: int,
    pageSize: int,
    sortBy: SortBy,
    sortOrder: SortOrder,
    rating: Option<int>,
    compositionType: Option<CompositionType>)

  /** What every accepted query satisfies. */
  predicate ValidCompositionsQuery(q: CompositionsQuery) {
    && q.page >= 1
    && 1 <= q.pageSize <= 100
    && (q.rating.Some? ==> 1 <= q.rating.value <= 6)
  }

  const QueryKeys: set<string> := {"page", "pageSize", "sortBy", "sortOrder", "rating", "composition_type"}

  function SortByOf(text: string): (r: Option<SortBy>)
    ensures r.Some? <==> text in {"created_at", "rating"}
    ensures r == Some(CreatedAt) <==> text == "created_at"
  {
    if text == "created_at" then Some(CreatedAt) else if text == "rating" then Some(Rating) else None
  }

  function CompositionTypeOf(text: string): (r: Option<CompositionType>)
    ensures r.Some? <==> text in {"manual", "ai-generated"}
    ensures r == Some(Manual) <==> text == "manual"
  {
    if text == "manual" then Some(Manual) else if text == "ai-generated" then Some(AiGenerated) else None
  }

  /** The constraint each query key's value must meet; no other key may
      appear. */
  predicate AcceptableQueryParam(key: string, p: Param) {
    if key == "page" then p.number.Some? && IntInRange(p.number.value, 1, None)
    else if key == "pageSize" then p.number.Some? && IntInRange(p.number.value, 1, Some(100))
    else if key == "sortBy" then p.text == "created_at" || p.text == "rating"
    else if key == "sortOrder" then p.text == "asc" || p.text == "desc"
    else if key == "rating" then p.number.Some? && IntInRange(p.number.value, 1, Some(6))
    else if key == "composition_type" then p.text == "manual" || p.text == "ai-generated"
    else false
  }

  /** `getCompositionsQueryValidator.parse` on the query parameters. */
  function ParseCompositionsQuery(raw: map<string, Param>): (r: Result<CompositionsQuery, set<Issue>>)
    ensures r.Ok? <==> forall k :: k in raw ==> AcceptableQueryParam(k, raw[k])
    ensures r.Ok? ==> ValidCompositionsQuery(r.value)
    ensures !(raw.Keys <= QueryKeys) ==> r.Err? && UnrecognizedKeys(raw.Keys - QueryKeys) in r.error
  {
    var page := if "page" in raw then CoerceInt(raw["page"], 1, None) else Some(1);
    var pageSize := if "pageSize" in raw then CoerceInt(raw["pageSize"], 1, Some(100)) else Some(10);
    var sortBy := if "sortBy" in raw then SortByOf(raw["sortBy"].text) else Some(CreatedAt);
    var sortOrder := if "sortOrder" in raw then SortOrderOf(raw["sortOrder"].text) else Some(Desc);
    var rating := if "rating" in raw then PresentField(CoerceInt(raw["rating"], 1, Some(6))) else Some(None);
    var kind := if "composition_type" in raw then PresentField(CompositionTypeOf(raw["composition_type"].text)) else Some(None);
    var unknown := raw.Keys - QueryKeys;
    if page.Some? && pageSize.Some? && sortBy.Some? && sortOrder.Some? && rating.Some? && kind.Some? && unknown == {}
    then
      assert forall k :: k in raw ==> k in QueryKeys;
      Ok(CompositionsQuery(page.value, pageSize.value, sortBy.value, sortOrder.value, rating.value, kind.value))
    else
      assert exists k :: k in raw && !AcceptableQueryParam(k, raw[k]) by {
        if unknown != {} {
          var k :| k in unknown;
          assert !AcceptableQueryParam(k, raw[k]);
        } else if page.None? {
          assert !AcceptableQueryParam("page", raw["page"]);
        } else if pageSize.None? {
          assert !AcceptableQueryParam("pageSize", raw["pageSize"]);
        } else if sortBy.None? {
          assert !AcceptableQueryParam("sortBy", raw["sortBy"]);
        } else if sortOrder.None? {
          assert !AcceptableQueryParam("sortOrder", raw["sortOrder"]);
        } else if rating.None? {
          assert !AcceptableQueryParam("rating", raw["rating"]);
        } else {
          assert !AcceptableQueryParam("composition_type", raw["composition_type"]);
        }
      }
      Err(IssueIf(page.None?, "page") + IssueIf(pageSize.None?, "pageSize") + IssueIf(sortBy.None?, "sortBy")
          + IssueIf(sortOrder.None?, "sortOrder") + IssueIf(rating.None?, "rating")
          + IssueIf(kind.None?, "composition_type")
          + (if unknown == {} then {} else {UnrecognizedKeys(unknown)}))
  }

  /** An accepted query asks for the page and page size given, 1 and 10
      when they are missing. */
  lemma ParsedPageEchoes(raw: map<string, Param>)
    ensures var r := ParseCompositionsQuery(raw);
      && (r.Ok? && "page" !in raw ==> r.value.page == 1)
      && (r.Ok? && "page" in raw ==> r.value.page as real == raw["page"].number.value)
      && (r.Ok? && "pageSize" !in raw ==> r.value.pageSize == 10)
      && (r.Ok? && "pageSize" in raw ==> r.value.pageSize as real == raw["pageSize"].number.value)
  {
  }

  /** An accepted query orders as `sortBy` and `sortOrder` say, by
      `created_at` descending when they are missing. */
  lemma ParsedSortEchoes(raw: map<string, Param>)
    ensures var r := ParseCompositionsQuery(raw);
      && (r.Ok? && "sortBy" !in raw ==> r.value.sortBy == CreatedAt)
      && (r.Ok? && "sortBy" in raw ==> (r.value.sortBy == CreatedAt <==> raw["sortBy"].text == "created_at"))
      && (r.Ok? && "sortOrder" !in raw ==> r.value.sortOrder == Desc)
      && (r.Ok? && "sortOrder" in raw ==> (r.value.sortOrder == Asc <==> raw["sortOrder"].text == "asc"))
  {
  }

  /** An accepted query filters by rating and kind exactly when those keys
      are given, and by the values given. */
  lemma ParsedFilterEchoes(raw: map<string, Param>)
    ensures var r := ParseCompositionsQuery(raw);
      && (r.Ok? ==> (r.value.rating.Some? <==> "rating" in raw))
      && (r.Ok? && "rating" in raw ==> r.value.rating.value as real == raw["rating"].number.value)
      && (r.Ok? ==> (r.value.compositionType.Some? <==> "composition_type" in raw))
      && (r.Ok? && "composition_type" in raw ==>
            (r.value.compositionType == Some(Manual) <==> raw["composition_type"].text == "manual"))
  {
  }

  /** A query that carries a key of no field is refused, whatever else it holds. */
  lemma UnknownQueryKeyRejected(raw: map<string, Param>, key: string, p: Param)
    requires key !in QueryKeys
    ensures ParseCompositionsQuery(raw[key := p]).Err?
  {
    assert !AcceptableQueryParam(key, raw[key := p][key]);
  }

  /** `compositionIdValidator`: `z.coerce.number().int().positive()`. */
  function ParseCompositionId(p: Param): (r: Option<int>)
    ensures r.Some? <==> p.number.Some? && IsInteger(p.number.value) && p.number.value > 0.0
    ensures r.Some? ==> r.value >= 1 && r.value as real == p.number.value
  {
    CoerceInt(p, 1, None)
  }

  /** The body names at least one of the three updatable columns. */
  predicate HasPatchKey(fields: map<string, Json>) {
    "ingredients" in fields || "rating" in fields || "photo_url" in fields
  }

  /** The constraint each present PATCH field must meet. */
  predicate AcceptablePatchField(key: string, j: Json) {
    if key == "ingredients" then j.JArr? && |j.items| <= 10 && forall i :: 0 <= i < |j.items| ==> j.items[i].JStr?
    else if key == "rating" then j.JNum? && IntInRange(j.n, 1, Some(6))
    else if key == "photo_url" then j.JStr? && IsUrl(j.s)
    else true
  }

  /** `updateCompositionValidator.safeParse` on a PATCH body: unknown keys are
      dropped, each known key present must pass its check, and at least one
      must be present. */
  function ParsePatch(body: Json): (r: Result<Patch, set<Issue>>)
    ensures !body.JObj? ==> r == Err({NotAnObject})
    ensures body.JObj? && !HasPatchKey(body.fields) ==> r == Err({EmptyBody})
    ensures r.Ok? <==> (body.JObj? && HasPatchKey(body.fields) &&
                        forall k :: k in body.fields ==> AcceptablePatchField(k, body.fields[k]))
    ensures r.Ok? ==> r.value != Patch(None, None, None)
    ensures r.Ok? ==> (r.value.ingredients.Some? <==> "ingredients" in body.fields)
    ensures r.Ok? ==> (r.value.rating.Some? <==> "rating" in body.fields)
    ensures r.Ok? ==> (r.value.photoUrl.Some? <==> "photo_url" in body.fields)
    ensures r.Ok? && r.value.ingredients.Some? ==> |r.value.ingredients.value| <= 10
    ensures r.Ok? && r.value.rating.Some? ==> 1 <= r.value.rating.value <= 6
    ensures r.Ok? && r.value.photoUrl.Some? ==> IsUrl(r.value.photoUrl.value)
  {
    if !body.JObj? then Err({NotAnObject})
    else
      var f := body.fields;
      var ingredients := if "ingredients" in f then PresentField(JsonStrings(f["ingredients"], 0, 10)) else Some(None);
      var rating := if "rating" in f then PresentField(JsonInt(f["rating"], 1, 6)) else Some(None);
      var photoUrl := if "photo_url" in f then PresentField(JsonUrl(f["photo_url"])) else Some(None);
      if !HasPatchKey(f) then Err({EmptyBody})
      else if ingredients.Some? && rating.Some? && photoUrl.Some? then
        Ok(Patch(ingredients.value, rating.value, photoUrl.value))
      else
        Err(IssueIf(ingredients.None?, "ingredients") + IssueIf(rating.None?, "rating")
            + IssueIf(photoUrl.None?, "photo_url"))
  }

  /** `{}` is refused and `{"rating": 5}` alone is accepted. */
  lemma PatchExamples()
    ensures ParsePatch(JObj(map[])) == Err({EmptyBody})
    ensures ParsePatch(JObj(map["rating" := JNum(5.0)])) == Ok(Patch(None, Some(5), None))
  {
    assert JsonInt(JNum(5.0), 1, 6) == Some(5);
  }
}
