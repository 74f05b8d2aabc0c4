/**
  * The global error handler (`src/utils/errorHandler.ts`): classification of a
  * thrown value into an `ApiError`, flattening of a 422 answer into field
  * errors, and the shared error state the handler maintains. The response
  * body is JSON; `undefined` is modelled as an absent value (None).
  */
module ErrorHandler {
  import opened Wrappers
  import opened Strings

  // ------------------------------------------------------------- JSON values

  datatype Json =
    | JNull
    | JBool(b: bool)
    | JNum(n: int)
    | JStr(s: string)
    | JArr(items: seq<Json>)
    | JObj(entries: seq<(string, Json)>)

  /** JavaScript truthiness; an absent value is falsy. */
  predicate Truthy(v: Option<Json>)
  {
    match v
    case None => false
    case Some(JNull) => false
    case Some(JBool(b)) => b
    case Some(JNum(n)) => n != 0
    case Some(JStr(s)) => s != ""
    case Some(_) => true
  }

  /** The value of the first entry named `key`, or None. */
  function Lookup(entries: seq<(string, Json)>, key: string): (r: Option<Json>)
    ensures r.Some? <==> exists i :: 0 <= i < |entries| && entries[i].0 == key
    ensures r.Some? ==> r.value in (set i | 0 <= i < |entries| :: entries[i].1)
  {
    if |entries| == 0 then None
    else if entries[0].0 == key then Some(entries[0].1)
    else
      var r := Lookup(entries[1..], key);
      assert forall i :: 1 <= i < |entries| ==> entries[i] == entries[1..][i - 1];
      r
  }

  /** `value.key` on a value that is neither null nor undefined: objects answer
    * their entry, every other value has no such property here. */
  function Get(v: Json, key: string): Option<Json>
  {
    if v.JObj? then Lookup(v.entries, key) else None
  }

  /** `String(v)`, as template literals and `join` render values. */
  function JsonText(v: Json): string
    decreases v, 0
  {
    match v
    case JNull => "null"
    case JBool(b) => if b then "true" else "false"
    case JNum(n) => IntToString(n)
    case JStr(s) => s
    case JArr(items) => Join(seq(|items|, i requires 0 <= i < |items| => ItemText(items[i])), ",")
    case JObj(_) => "[object Object]"
  }

  /** How `Array.prototype.join` renders an element: null becomes empty. */
  function ItemText(v: Json): string
    decreases v, 1
  {
    if v.JNull? then "" else JsonText(v)
  }

  // ------------------------------------------------------------ ApiError

  datatype ErrorCode =
    | BadRequest | Unauthorized | Forbidden | NotFound | ValidationFailed
    | RateLimited | ServerError | HttpError | NetworkError | UnknownError

  function CodeName(c: ErrorCode): string
  {
    match c
    case BadRequest => "BAD_REQUEST"
    case Unauthorized => "UNAUTHORIZED"
    case Forbidden => "FORBIDDEN"
    case NotFound => "NOT_FOUND"
    case ValidationFailed => "VALIDATION_ERROR"
    case RateLimited => "RATE_LIMITED"
    case ServerError => "SERVER_ERROR"
    case HttpError => "HTTP_ERROR"
    case NetworkError => "NETWORK_ERROR"
    case UnknownError => "UNKNOWN_ERROR"
  }

  /** `message`, `code` and `status` of an `ApiError`; `details` is not kept. */
  datatype ApiError = ApiError(message: Json, code: ErrorCode, status: Option<int>)

  datatype HttpResponse = HttpResponse(status: int, data: Option<Json>)

  /** What a store's `catch` hands to the handler: an axios error or any other
    * thrown value, seen through the properties the handler reads. */
  datatype Thrown = Thrown(
    isAxiosError: bool,
    response: Option<HttpResponse>,
    hasRequest: bool,
    code: Option<string>,
    message: Option<Json>)

  /** `extractErrorMessage`: a string body itself, else the first truthy of
    * `message`, `error`, `detail`; nothing for a falsy body. */
  function ExtractErrorMessage(data: Option<Json>): (r: Option<Json>)
    ensures r.Some? ==> Truthy(r)
    ensures !Truthy(data) ==> r == None
    ensures Truthy(data) && data.value.JStr? ==> r == data
    ensures Truthy(data) && data.value.JObj? && Truthy(Get(data.value, "message")) ==> r == Get(data.value, "message")
    ensures (Truthy(data) && data.value.JObj? && !Truthy(Get(data.value, "message"))
             && Truthy(Get(data.value, "error")))
            ==> r == Get(data.value, "error")
    ensures (Truthy(data) && data.value.JObj? && !Truthy(Get(data.value, "message"))
             && !Truthy(Get(data.value, "error")) && Truthy(Get(data.value, "detail")))
            ==> r == Get(data.value, "detail")
    ensures (Truthy(data) && !data.value.JStr? && !Truthy(Get(data.value, "message"))
             && !Truthy(Get(data.value, "error")) && !Truthy(Get(data.value, "detail")))
            ==> r == None
  {
    if !Truthy(data) then None
    else if data.value.JStr? then data
    else if Truthy(Get(data.value, "message")) then Get(data.value, "message")
    else if Truthy(Get(data.value, "error")) then Get(data.value, "error")
    else if Truthy(Get(data.value, "detail")) then Get(data.value, "detail")
    else None
  }

  /** `extracted || fallback` */
  function OrElse(extracted: Option<Json>, fallback: string): Json
  {
    if extracted.Some? then extracted.value else JStr(fallback)
  }

  /** The status code classes the handler distinguishes. */
  function Classify(status: int): (c: ErrorCode)
    ensures c != NetworkError && c != UnknownError
  {
    if status == 400 then BadRequest
    else if status == 401 then Unauthorized
    else if status == 403 then Forbidden
    else if status == 404 then NotFound
    else if status == 422 then ValidationFailed
    else if status == 429 then RateLimited
    else if status == 500 then ServerError
    else HttpError
  }

  /** `parseAxiosError`; a missing response counts as status 0. */
  function ParseAxiosError(response: Option<HttpResponse>): (e: ApiError)
    ensures e.code == Classify(if response.Some? then response.value.status else 0)
    ensures e.status == Some(if response.Some? then response.value.status else 0)
  {
    var status := if response.Some? then response.value.status else 0;
    var data := if response.Some? then response.value.data else None;
    var extracted := ExtractErrorMessage(data);
    if status == 400 then ApiError(OrElse(extracted, "Invalid request. Please check your input."), BadRequest, Some(400))
    else if status == 401 then ApiError(JStr("Authentication required. Please log in again."), Unauthorized, Some(401))
    else if status == 403 then ApiError(JStr("You do not have permission to perform this action."), Forbidden, Some(403))
    else if status == 404 then ApiError(JStr("The requested resource was not found."), NotFound, Some(404))
    else if status == 422 then ApiError(OrElse(extracted, "Validation failed. Please check your input."), ValidationFailed, Some(422))
    else if status == 429 then ApiError(JStr("Too many requests. Please wait a moment and try again."), RateLimited, Some(429))
    else if status == 500 then ApiError(JStr("Server error. Please try again later."), ServerError, Some(500))
    else
      ApiError(JStr("Request failed with status " + IntToString(status) + ". "
                    + (if extracted.Some? then JsonText(extracted.value) else "")),
               HttpError, Some(status))
  }

  /** The seven named statuses get their own code; every other status,
    * including 0 for a missing response, is a generic HTTP error. */
  lemma {:induction false} ClassifyNamedStatuses(status: int)
    ensures Classify(status) == HttpError <==> status !in {400, 401, 403, 404, 422, 429, 500}
    ensures Classify(400) == BadRequest && Classify(401) == Unauthorized && Classify(403) == Forbidden
    ensures Classify(404) == NotFound && Classify(422) == ValidationFailed
    ensures Classify(429) == RateLimited && Classify(500) == ServerError
  {
  }

  /** For 400 and 422 the server's message wins over the fixed text. */
  lemma {:induction false} ServerMessageWins(status: int, data: Option<Json>)
    requires status == 400 || status == 422
    ensures ExtractErrorMessage(data).Some? ==>
              ParseAxiosError(Some(HttpResponse(status, data))).message == ExtractErrorMessage(data).value
    ensures ExtractErrorMessage(data).None? ==>
              ParseAxiosError(Some(HttpResponse(status, data))).message.JStr?
  {
  }

  /** `parseError`: axios errors by status, then network failures (an error
    * code or the browser being offline), then any other error by its message. */
  function ParseError(error: Thrown, online: bool): (e: ApiError)
    ensures (error.isAxiosError || (error.response.Some? && error.hasRequest)) ==> e == ParseAxiosError(error.response)
    ensures (!(error.isAxiosError || (error.response.Some? && error.hasRequest))
             && (error.code == Some("NETWORK_ERROR") || !online)) ==> e.code == NetworkError && e.status == Some(0)
    ensures (!(error.isAxiosError || (error.response.Some? && error.hasRequest))
             && !(error.code == Some("NETWORK_ERROR") || !online)) ==> e.code == UnknownError && e.status == None
  {
    if error.isAxiosError || (error.response.Some? && error.hasRequest) then ParseAxiosError(error.response)
    else if error.code == Some("NETWORK_ERROR") || !online then
      ApiError(JStr("Network connection error. Please check your internet connection."), NetworkError, Some(0))
    else
      ApiError(if Truthy(error.message) then error.message.value else JStr("An unexpected error occurred"), UnknownError, None)
  }

  /** Only authentication and permission failures stay on screen. */
  predicate AutoHides(e: ApiError)
  {
    e.status != Some(401) && e.status != Some(403)
  }

  // ------------------------------------------------------ validation errors

  datatype ValidationError = ValidationError(field: string, message: Json)

  /** A field's messages: an array element by element, anything else once. */
  function MessagesOf(v: Json): seq<Json>
  {
    if v.JArr? then v.items else [v]
  }

  /** One error per message, in order, all for `field`. */
  function FieldErrors(field: string, messages: seq<Json>): (r: seq<ValidationError>)
    ensures |r| == |messages|
    ensures forall e :: e in r <==> e.field == field && e.message in messages
  {
    if |messages| == 0 then []
    else
      assert messages == [messages[0]] + messages[1..];
      [ValidationError(field, messages[0])] + FieldErrors(field, messages[1..])
  }

  /** The errors of each `[field, messages]` entry, entry after entry. */
  function Flatten(entries: seq<(string, Json)>): (r: seq<ValidationError>)
    ensures forall e :: e in r <==> exists i :: 0 <= i < |entries| && e.field == entries[i].0 && e.message in MessagesOf(entries[i].1)
  {
    if |entries| == 0 then []
    else
      var rest := Flatten(entries[1..]);
      assert forall i :: 1 <= i < |entries| ==> entries[i] == entries[1..][i - 1];
      FieldErrors(entries[0].0, MessagesOf(entries[0].1)) + rest
  }

  /** `Object.entries`: an object's entries, an array's elements under their
    * indexes. */
  function EntriesOf(v: Json): seq<(string, Json)>
  {
    match v
    case JObj(entries) => entries
    case JArr(items) => seq(|items|, i requires 0 <= i < |items| => (NatToString(i), items[i]))
    case _ => []
  }

  /** `parseValidationError`: nothing unless the response is a 422; then the
    * flattened `errors`, followed by a `general` error carrying a non-empty
    * string `message`. None when a 422 has no body, where reading
    * `data.errors` throws. */
  function ParseValidationError(response: Option<HttpResponse>): (r: Option<seq<ValidationError>>)
    ensures (response.None? || response.value.status != 422) ==> r == Some([])
    ensures r.None? <==> response.Some? && response.value.status == 422
                         && (response.value.data.None? || response.value.data.value.JNull?)
  {
    if response.None? || response.value.status != 422 then Some([])
    else if response.value.data.None? || response.value.data.value.JNull? then None
    else
      var data := response.value.data.value;
      var errors := Get(data, "errors");
      var fromErrors := if Truthy(errors) && (errors.value.JObj? || errors.value.JArr?)
                        then Flatten(EntriesOf(errors.value)) else [];
      var message := Get(data, "message");
      if Truthy(message) && message.value.JStr? then Some(fromErrors + [ValidationError("general", message.value)])
      else Some(fromErrors)
  }

  /** A Laravel 422 answer `{errors: {field: [m1, m2]}, message: m}` gives one
    * error per message of the field, then the general one. */
  lemma {:induction false} LaravelAnswer(field: string, m1: string, m2: string, m: string)
    requires m != ""
    ensures ParseValidationError(Some(HttpResponse(422, Some(JObj([
              ("errors", JObj([(field, JArr([JStr(m1), JStr(m2)]))])),
              ("message", JStr(m))])))))
            == Some([ValidationError(field, JStr(m1)), ValidationError(field, JStr(m2)),
                     ValidationError("general", JStr(m))])
  {
    var messages := [JStr(m1), JStr(m2)];
    var errors := JObj([(field, JArr(messages))]);
    var data := JObj([("errors", errors), ("message", JStr(m))]);
    assert Get(data, "errors") == Some(errors);
    assert "errors"[0] != "message"[0];
    assert data.entries[1..] == [("message", JStr(m))];
    assert Lookup(data.entries[1..], "message") == Some(JStr(m));
    assert Get(data, "message") == Some(JStr(m));
    assert EntriesOf(errors) == [(field, JArr(messages))];
    assert FieldErrors(field, messages[1..][1..]) == [];
    assert FieldErrors(field, messages) == [ValidationError(field, JStr(m1)), ValidationError(field, JStr(m2))];
    assert Flatten(EntriesOf(errors)[1..]) == [];
    assert Flatten(EntriesOf(errors)) == FieldErrors(field, messages);
    assert Truthy(Get(data, "errors")) && Truthy(Get(data, "message"));
    assert FieldErrors(field, messages) + [ValidationError("general", JStr(m))]
        == [ValidationError(field, JStr(m1)), ValidationError(field, JStr(m2)), ValidationError("general", JStr(m))];
  }

  /** The summary `handleValidationError` adds. */
  function ValidationSummary(errors: seq<ValidationError>): ApiError
  {
    ApiError(JStr("Validation failed: " + Join(seq(|errors|, i requires 0 <= i < |errors| => ItemText(errors[i].message)), ", ")),
             ValidationFailed, Some(422))
  }

  /** `getFieldError`: the message of the first error for the field. */
  function FieldError(errors: seq<ValidationError>, field: string): (r: Option<Json>)
    ensures r.None? <==> forall i :: 0 <= i < |errors| ==> errors[i].field != field
    ensures r.Some? ==> exists i :: 0 <= i < |errors| && errors[i].field == field && errors[i].message == r.value
                         && forall j :: 0 <= j < i ==> errors[j].field != field
  {
    if |errors| == 0 then None
    else if errors[0].field == field then Some(errors[0].message)
    else
      var r := FieldError(errors[1..], field);
      assert forall i :: 1 <= i < |errors| ==> errors[i] == errors[1..][i - 1];
      r
  }

  /** `clearError(index)`: `splice(index, 1)`, where a negative index counts
    * from the end and an index past the end removes nothing. */
  function SpliceOne<T>(s: seq<T>, index: int): (r: seq<T>)
    ensures 0 <= index < |s| ==> r == s[..index] + s[index + 1..]
    ensures (index >= |s| || index < -|s|) ==> r == (if index >= |s| || |s| == 0 then s else s[1..])
  {
    var start := if index < 0 then (if |s| + index < 0 then 0 else |s| + index) else index;
    if start < |s| then s[..start] + s[start + 1..] else s
  }

  /** A negative index removes the element that many places from the end. */
  lemma {:induction false} SpliceNegative<T>(s: seq<T>, k: int)
    requires 1 <= k <= |s|
    ensures SpliceOne(s, -k) == s[..|s| - k] + s[|s| - k + 1..]
  {
  }

  // --------------------------------------------------------- shared state

  class ErrorState {
    var errors: seq<ApiError>
    var validationErrors: seq<ValidationError>
    var isVisible: bool
    /** An auto-hide timer is pending. */
    var hidePending: bool

    constructor()
      ensures errors == [] && validationErrors == [] && !isVisible && !hidePending
    {
      errors := [];
      validationErrors := [];
      isVisible := false;
      hidePending := false;
    }

    /** `addError`: appended and shown. */
    method AddError(e: ApiError)
      modifies this
      ensures errors == old(errors) + [e] && isVisible
      ensures validationErrors == old(validationErrors) && hidePending == old(hidePending)
    {
      errors := errors + [e];
      isVisible := true;
    }

    /** `handleError`: classify, add, and (re)start the auto-hide timer unless
      * the error is a 401 or a 403. */
    method HandleError(error: Thrown, online: bool) returns (e: ApiError)
      modifies this
      ensures e == ParseError(error, online)
      ensures errors == old(errors) + [e] && isVisible && validationErrors == old(validationErrors)
      ensures hidePending == (old(hidePending) || AutoHides(e))
    {
      e := ParseError(error, online);
      AddError(e);
      if AutoHides(e) {
        hidePending := true;
      }
    }

    /** The auto-hide timer fires. */
    method AutoHide()
      modifies this
      ensures !isVisible && !hidePending && errors == old(errors) && validationErrors == old(validationErrors)
    {
      isVisible := false;
      hidePending := false;
    }

    /** `handleValidationError`: the parsed list replaces the field errors, and
      * a non-empty list adds one summary error. None when parsing throws. */
    method HandleValidationError(response: Option<HttpResponse>) returns (r: Option<seq<ValidationError>>)
      modifies this
      ensures r == ParseValidationError(response)
      ensures r.None? ==> errors == old(errors) && validationErrors == old(validationErrors) && isVisible == old(isVisible)
      ensures r.Some? ==> validationErrors == r.value
      ensures r.Some? && r.value != [] ==> errors == old(errors) + [ValidationSummary(r.value)] && isVisible
      ensures r.Some? && r.value == [] ==> errors == old(errors) && isVisible == old(isVisible)
      ensures hidePending == old(hidePending)
    {
      r := ParseValidationError(response);
      if r.Some? {
        validationErrors := r.value;
        if |r.value| > 0 {
          AddError(ValidationSummary(r.value));
        }
      }
    }

    method ClearErrors()
      modifies this
      ensures errors == [] && validationErrors == [] && !isVisible && !hidePending
    {
      errors := [];
      validationErrors := [];
      isVisible := false;
      hidePending := false;
    }

    /** `clearError(index)`: removes that error and hides an emptied list. */
    method ClearError(index: int)
      modifies this
      ensures errors == SpliceOne(old(errors), index)
      ensures isVisible == (old(isVisible) && errors != [])
      ensures validationErrors == old(validationErrors) && hidePending == old(hidePending)
    {
      errors := SpliceOne(errors, index);
      if |errors| == 0 {
        isVisible := false;
      }
    }

    method ClearValidationErrors()
      modifies this
      ensures validationErrors == [] && errors == old(errors) && isVisible == old(isVisible) && hidePending == old(hidePending)
    {
      validationErrors := [];
    }

    /** `hasFieldError` */
    predicate HasFieldError(field: string)
      reads this
    {
      exists i :: 0 <= i < |validationErrors| && validationErrors[i].field == field
    }

    /** `getFieldError` */
    function GetFieldError(field: string): (r: Option<Json>)
      reads this
      ensures r.Some? <==> HasFieldError(field)
    {
      FieldError(validationErrors, field)
    }
  }
}
