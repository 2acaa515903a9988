/** The mock API of the unit-testing exercises: a user lookup over two fixed
    records and an endpoint dispatcher that answers from a table of
    per-endpoint payload checks. Everything here is a pure function. */
module EnhetstestningMockApi {
  import opened Python

  /** A user record `{"id": ..., "username": ..., "email": ...}`. */
  datatype UserRecord = UserRecord(id: int, username: string, email: string)

  /** `get_user_data`: one of the two fixed users, or `None` for any other id. */
  function GetUserData(userId: int): (r: Option<UserRecord>)
    ensures r.Some? <==> userId == 1 || userId == 2
    ensures r.Some? ==> r.value.id == userId
    ensures r.Some? ==> r.value.email == r.value.username + "@example.com"
  {
    if userId == 1 then
      Some(UserRecord(1, "mockuser1", "mockuser1@example.com"))
    else if userId == 2 then
      Some(UserRecord(2, "mockuser2", "mockuser2@example.com"))
    else
      None
  }

  /** The two records the directory holds, field by field. */
  lemma KnownUsers()
    ensures GetUserData(1) == Some(UserRecord(1, "mockuser1", "mockuser1@example.com"))
    ensures GetUserData(2) == Some(UserRecord(2, "mockuser2", "mockuser2@example.com"))
  {
  }

  /** No two ids share a record, and a returned record names its own id: the
      record's `id` field recovers the argument. */
  lemma GetUserDataInverse(a: int, b: int)
    requires GetUserData(a).Some? && GetUserData(a) == GetUserData(b)
    ensures a == b && GetUserData(GetUserData(a).value.id) == GetUserData(a)
  {
  }

  /** A response dictionary: `{"status": "ok", "data": ..., "code": ...}` or
      `{"status": "error", "message": ..., "code": ...}`. */
  datatype Response = Ok(data: string, code: int) | Err(message: string, code: int)
  {
    /** The value of the `"status"` key. */
    function Status(): string {
      if Ok? then "ok" else "error"
    }
  }

  /** The handlers the dispatcher can pick: the two table entries and the
      default for an endpoint missing from the table. */
  datatype Handler = Example | SpecialCase | InvalidEndpoint

  const ExampleResponse := Ok("response for standard request", 200)
  const UnexpectedData := Err("Unexpected data", 400)
  const SpecialResponse := Ok("special response", 200)
  const MissingSpecialKey := Err("Missing special key", 400)
  const InvalidEndpointResponse := Err("Invalid endpoint", 404)

  /** The one payload the `"/example"` handler accepts, `{"key": "value"}`. */
  function ExpectedExamplePayload(): Payload {
    DictDisplay([("key", Str("value"))])
  }

  /** Applies one handler to the payload. */
  function Handle(h: Handler, d: Payload): (r: Response)
    ensures r.Status() == "ok" <==> r.code == 200
    ensures r.code == 200 || r.code == 400 || r.code == 404
    ensures r.code == 404 <==> h == InvalidEndpoint
    ensures h == Example ==>
              (r == ExampleResponse <==> d == map["key" := Str("value")]) &&
              (r == UnexpectedData <==> d != map["key" := Str("value")])
    ensures h == SpecialCase ==>
              (r == SpecialResponse <==> "special" in d && Truthy(d["special"])) &&
              (r == MissingSpecialKey <==> !("special" in d && Truthy(d["special"])))
    ensures h == InvalidEndpoint ==> r == InvalidEndpointResponse
  {
    match h
    case Example =>
      if d == ExpectedExamplePayload() then ExampleResponse else UnexpectedData
    case SpecialCase =>
      if Truthy(DictGet(d, "special", NoneValue)) then SpecialResponse else MissingSpecialKey
    case InvalidEndpoint =>
      InvalidEndpointResponse
  }

  /** The rule table, built afresh on every call as in the source. */
  function Responses(): (t: map<string, Handler>)
    ensures t.Keys == {"/example", "/special_case"}
    ensures t["/example"] == Example && t["/special_case"] == SpecialCase
  {
    DictDisplay([("/example", Example), ("/special_case", SpecialCase)])
  }

  /** `perform_api_call`: look the endpoint up in the rule table, falling back
      to the 404 handler, and apply the handler to the payload. */
  function PerformApiCall(endpoint: string, data: Payload): (r: Response)
    ensures r.Status() == "ok" <==> r.code == 200
    ensures r.code == 200 || r.code == 400 || r.code == 404
    ensures r == InvalidEndpointResponse <==> endpoint != "/example" && endpoint != "/special_case"
    ensures endpoint == "/example" ==>
              (r == ExampleResponse <==> data == map["key" := Str("value")]) &&
              (r == UnexpectedData <==> data != map["key" := Str("value")])
    ensures endpoint == "/special_case" ==>
              (r == SpecialResponse <==> "special" in data && Truthy(data["special"])) &&
              (r == MissingSpecialKey <==> !("special" in data && Truthy(data["special"])))
  {
    var handler := DictGet(Responses(), endpoint, InvalidEndpoint);
    Handle(handler, data)
  }
}
