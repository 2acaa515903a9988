# Mock API of the unit-testing exercises, in Dafny

The repository is a set of exercises in writing unit tests. Its only logic is
a mock API with two operations, and it exists in two copies:

- `Enhetstestning/mock_api.py` is the fuller copy. `get_user_data` returns one
  of two fixed user records, or `None`. `perform_api_call` looks the endpoint
  up in a table of handlers and applies the handler to the payload.
  `"/example"` accepts exactly `{"key": "value"}`. `"/special_case"` accepts a
  payload whose `"special"` entry is truthy. Any other endpoint gets a 404
  error response.
- `Mockobjekt/mock_api.py` is the copy the unit tests import. It has the same
  `get_user_data` and a stub `perform_api_call` that returns `""`.

The model has three modules, all pure functions and lemmas:

- `Python` (`python.dfy`) holds the parts of Python's data model the code
  relies on. It has `Option` for "`None` or a value", `Value` for payload
  values, and `Truthy` for Python's truth test. `DictDisplay` is the
  dictionary a `{k: v, ...}` display builds: entries go in left to right, and
  a repeated key keeps its last value. `DictGet` is `dict.get` with a default.
- `EnhetstestningMockApi` (`enhetstestning_mock_api.dfy`) models the fuller
  copy. Responses are `Ok(data, code)` or `Err(message, code)`, and
  `Status()` gives the `"status"` entry. The handler table `Responses()` is
  built with `DictDisplay`, as the source builds a dict of lambdas. The
  lambdas become the tags of `Handler`, which `Handle` applies.
- `MockobjektMockApi` (`mockobjekt_mock_api.dfy`) models the copy the tests
  use, and relates its `GetUserData` to the fuller copy.

`perform_api_call` is deterministic. It is modelled as a Dafny function of
the endpoint and the payload. The table it reads is an argument-free
function, rebuilt on each call as in the source. So identical calls give
identical responses, and nothing carries over from one call to the next.

The source builds the table inside every call, and so does the model.

## Model

| member | source | states |
|---|---|---|
| `Python.DictDisplay` | Enhetstestning/mock_api.py:24-27 | the dict a display builds has exactly the displayed keys, and each key maps to the value of its last occurrence |
| `EnhetstestningMockApi.GetUserData` | Enhetstestning/mock_api.py:11-19 | a record is returned exactly for ids 1 and 2 and `None` for every other integer; a returned record's `id` is the argument and its email is its username followed by `@example.com` |
| `EnhetstestningMockApi.KnownUsers` | Enhetstestning/mock_api.py:14-17 | id 1 gives `{id: 1, username: "mockuser1", email: "mockuser1@example.com"}` and id 2 the matching `mockuser2` record |
| `EnhetstestningMockApi.GetUserDataInverse` | Enhetstestning/mock_api.py:14-17 | different ids never share a record, and looking up a returned record's `id` gives that record back |
| `EnhetstestningMockApi.Handle` | Enhetstestning/mock_api.py:25-30 | `"/example"` gives the 200 response exactly for the payload `{"key": "value"}`; `"/special_case"` gives the 200 response exactly when `"special"` is present and truthy; a rejected `"/example"` payload gets `Unexpected data`/400, a rejected `"/special_case"` payload gets `Missing special key`/400, and the default handler always answers `Invalid endpoint`/404; codes are only 200, 400 or 404, 404 only from the default handler; status is `"ok"` exactly when the code is 200 |
| `EnhetstestningMockApi.Responses` | Enhetstestning/mock_api.py:24-27 | the handler table has exactly the keys `"/example"` and `"/special_case"`, bound to their handlers |
| `EnhetstestningMockApi.PerformApiCall` | Enhetstestning/mock_api.py:21-31 | status is `"ok"` exactly when the code is 200; codes are only 200, 400 or 404; `Invalid endpoint`/404 comes back exactly for endpoints outside the table, whatever the payload; `"/example"` answers 200 exactly for `{"key": "value"}` and `Unexpected data`/400 for every other payload, extra keys or another value included; `"/special_case"` answers 200 exactly for a present, truthy `"special"` entry and `Missing special key`/400 otherwise |
| `MockobjektMockApi.GetUserData` | Mockobjekt/mock_api.py:3-14 | a record is returned exactly for ids 1 and 2 and `None` otherwise; a returned record's `id` is the argument and its email is its username followed by `@example.com` |
| `MockobjektMockApi.PerformApiCall` | Mockobjekt/mock_api.py:16-22 | the stub returns the empty string for every endpoint and every payload |
| `MockobjektMockApi.GetUserDataAgrees` | Mockobjekt/mock_api.py:3-14 | this copy of `get_user_data` agrees with the one in `Enhetstestning/mock_api.py` on every integer id |
| `MockobjektMockApi.UnitTestExpectations` | Enhetstestning/TestMockAPI.py:18-44 | the test's expectations hold: user 1 is `mockuser1` with email `mockuser1@example.com`, user 3 is `None`, and the `"/example"` call returns `""` |

## Left out

- The `MagicMock` factories `timeout_mock`, `server_error_mock`, `not_found_mock` and `internal_server_error_mock` are left out. So are the exception classes only they use, and `Mockobjekt/mock_objects.py`. They only configure `unittest.mock`, whose behaviour is not part of this model.
- Python's mixed-type equality is left out. In the source, `user_id == 1` also holds for `1.0` and `True`. Ids are modelled as integers only.
- Payloads that are not dictionaries are left out. For them the source's `"/special_case"` handler raises `AttributeError` from `d.get`. Payloads are modelled as dictionaries with string keys.
- Endpoints are modelled as strings. In the source, a non-string endpoint gets the 404 response when it is hashable, and `responses.get` raises `TypeError` when it is not; neither case is modelled.
- Floats and arbitrary objects are not payload values here. Their truthiness and their equality with `"value"` are left out.
- `multiply` in `Enhetstestning/TestMultiply.py`, the test classes, and `Mockobjekt/test_external_system.py` are test code or float arithmetic. They are left out.
