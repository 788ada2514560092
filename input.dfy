/** Untrusted request input as the validators see it, and the primitive
    checks the schemas are built from. */
module Input {
  import opened Types

  /** A JSON value as `request.json()` yields it. Numbers are exact. */
  datatype Json =
    | JNull
    | JBool(b: bool)
    | JNum(n: real)
    | JStr(s: string)
    | JArr(items: seq<Json>)
    | JObj(fields: map<string, Json>)

  /** One URL query or path parameter: its text and the number that
      JavaScript's `Number(text)` reads from it, None when that is NaN or an
      infinity. */
  datatype Param = Param(text: string, number: Option<real>)

  /** One problem a schema reports. */
  datatype Issue =
    | InvalidField(name: string)
    | UnrecognizedKeys(keys: set<string>)
    | NotAnObject
    | EmptyBody
    | InvalidDiscriminator

  predicate IsInteger(n: real) {
    n.Floor as real == n
  }

  /** `.int().min(lo)` and, when `hi` is given, `.max(hi)`, on a number. */
  predicate IntInRange(n: real, lo: int, hi: Option<int>) {
    IsInteger(n) && lo as real <= n && (hi.Some? ==> n <= hi.value as real)
  }

  /** `z.coerce.number().int().min(lo).max(hi)` on a parameter. */
  function CoerceInt(p: Param, lo: int, hi: Option<int>): (r: Option<int>)
    ensures r.Some? <==> p.number.Some? && IntInRange(p.number.value, lo, hi)
    ensures r.Some? ==> r.value as real == p.number.value
    ensures r.Some? ==> lo <= r.value && (hi.Some? ==> r.value <= hi.value)
  {
    if p.number.Some? && IntInRange(p.number.value, lo, hi) then Some(p.number.value.Floor) else None
  }

  /** `z.number().int().min(lo).max(hi)` on a JSON value: no coercion. */
  function JsonInt(j: Json, lo: int, hi: int): (r: Option<int>)
    ensures r.Some? <==> j.JNum? && IntInRange(j.n, lo, Some(hi))
    ensures r.Some? ==> r.value as real == j.n && lo <= r.value <= hi
  {
    if j.JNum? && IntInRange(j.n, lo, Some(hi)) then Some(j.n.Floor) else None
  }

  predicate IsSchemeStart(c: char) {
    ('a' <= c <= 'z') || ('A' <= c <= 'Z')
  }

  predicate IsSchemeChar(c: char) {
    IsSchemeStart(c) || ('0' <= c <= '9') || c == '+' || c == '-' || c == '.'
  }

  /** `z.string().url()`: the text begins with a URL scheme and a colon. */
  predicate IsUrl(s: string) {
    exists i :: 1 <= i < |s| && s[i] == ':' && IsSchemeStart(s[0]) &&
      forall j :: 1 <= j < i ==> IsSchemeChar(s[j])
  }

  /** `z.string().url()` on a JSON value. */
  function JsonUrl(j: Json): (r: Option<string>)
    ensures r.Some? <==> j.JStr? && IsUrl(j.s)
    ensures r.Some? ==> r.value == j.s
  {
    if j.JStr? && IsUrl(j.s) then Some(j.s) else None
  }

  /** `z.array(z.string()).min(lo).max(hi)` on a JSON value. */
  function JsonStrings(j: Json, lo: int, hi: int): (r: Option<seq<string>>)
    ensures r.Some? <==> j.JArr? && lo <= |j.items| <= hi && forall i :: 0 <= i < |j.items| ==> j.items[i].JStr?
    ensures r.Some? ==> |r.value| == |j.items| && forall i :: 0 <= i < |r.value| ==> j.items[i] == JStr(r.value[i])
  {
    if j.JArr? && lo <= |j.items| <= hi && forall i :: 0 <= i < |j.items| ==> j.items[i].JStr?
    then Some(seq(|j.items|, i requires 0 <= i < |j.items| && j.items[i].JStr? => j.items[i].s))
    else None
  }

  /** `sortOrder`, shared by both list queries. */
  datatype SortOrder = Asc | Desc

  /** `z.enum(['asc', 'desc'])`. */
  function SortOrderOf(text: string): (r: Option<SortOrder>)
    ensures r.Some? <==> text in {"asc", "desc"}
    ensures r == Some(Asc) <==> text == "asc"
  {
    if text == "asc" then Some(Asc) else if text == "desc" then Some(Desc) else None
  }

  /** An `.optional()` field that was present: None when its check failed,
      otherwise the checked value. */
  function PresentField<T>(checked: Option<T>): (r: Option<Option<T>>)
    ensures r.Some? <==> checked.Some?
    ensures r.Some? ==> r.value == checked
  {
    if checked.Some? then Some(checked) else None
  }

  /** An issue for `name` when its check failed. */
  function IssueIf(bad: bool, name: string): set<Issue> {
    if bad then {InvalidField(name)} else {}
  }
}
