/** The earlier copy of the mock API, the one the unit tests import: the same
    user lookup and a stub dispatcher that answers every call with an empty
    string. */
module MockobjektMockApi {
  import opened Python
  import Enhetstestning = EnhetstestningMockApi

  type UserRecord = Enhetstestning.UserRecord

  /** `get_user_data`: one of the two fixed users, or `None` for any other id. */
  function GetUserData(userId: int): (r: Option<UserRecord>)
    ensures r.Some? <==> userId == 1 || userId == 2
    ensures r.Some? ==> r.value.id == userId
    ensures r.Some? ==> r.value.email == r.value.username + "@example.com"
  {
    if userId == 1 then
      Some(Enhetstestning.UserRecord(1, "mockuser1", "mockuser1@example.com"))
    else if userId == 2 then
      Some(Enhetstestning.UserRecord(2, "mockuser2", "mockuser2@example.com"))
    else
      None
  }

  /** The stub `perform_api_call`: the empty string, whatever the endpoint
      and payload. */
  function PerformApiCall(endpoint: string, data: Payload): (r: string)
    ensures r == ""
  {
    ""
  }

  /** Both copies of `get_user_data` give the same answer for every id. */
  lemma GetUserDataAgrees(userId: int)
    ensures GetUserData(userId) == Enhetstestning.GetUserData(userId)
  {
  }

  /** What the unit tests assert of this module: user 1's record, `None` for
      user 3, and the empty string from the `"/example"` call with
      `{"key": "value"}`. */
  lemma UnitTestExpectations()
    ensures GetUserData(1).Some?
    ensures GetUserData(1).value.id == 1
    ensures GetUserData(1).value.username == "mockuser1"
    ensures GetUserData(1).value.email == "mockuser1@example.com"
    ensures GetUserData(3) == None
    ensures PerformApiCall("/example", map["key" := Str("value")]) == ""
  {
  }
}
