/** The few pieces of Python's data model that the mock API relies on:
    the `None`-or-value result, the values a JSON-like request payload can
    hold, their truthiness, and dictionaries built from a display and read
    with `get`. */
module Python {

  /** A result that is either Python's `None` or a value. */
  datatype Option<+T> = None | Some(value: T)

  /** A Python value as it can appear inside a request payload. */
  datatype Value =
    | NoneValue
    | Bool(b: bool)
    | Int(i: int)
    | Str(s: string)
    | List(items: seq<Value>)
    | Dict(entries: map<string, Value>)

  /** A request payload: a dictionary with string keys. */
  type Payload = map<string, Value>

  /** Python's truth test `bool(v)`: `None`, `False`, zero and empty
      containers are false, every other value is true. */
  predicate Truthy(v: Value) {
    match v
    case NoneValue => false
    case Bool(b) => b
    case Int(i) => i != 0
    case Str(s) => |s| != 0
    case List(items) => |items| != 0
    case Dict(entries) => |entries| != 0
  }

  /** The key of entry `i` is not repeated later in the display, so entry `i`
      is the one whose value the dictionary keeps. */
  predicate LastWithKey<V>(entries: seq<(string, V)>, i: nat)
    requires i < |entries|
  {
    forall j :: i < j < |entries| ==> entries[j].0 != entries[i].0
  }

  /** The dictionary a display `{k0: v0, k1: v1, ...}` evaluates to: the
      entries are inserted from left to right, so a repeated key keeps the
      value of its last occurrence. The displays of the mock API repeat no
      key, so for them every entry is the last with its key and the dictionary
      maps each displayed key to its displayed value. */
  function DictDisplay<V>(entries: seq<(string, V)>): (d: map<string, V>)
    ensures d.Keys == set i | 0 <= i < |entries| :: entries[i].0
    ensures forall i :: 0 <= i < |entries| && LastWithKey(entries, i) ==> d[entries[i].0] == entries[i].1
  {
    if entries == [] then map[]
    else
      var init, last := entries[..|entries| - 1], entries[|entries| - 1];
      assert forall i :: 0 <= i < |init| ==> init[i] == entries[i];
      DictDisplay(init)[last.0 := last.1]
  }

  /** `d.get(key, default)`. */
  function DictGet<V>(d: map<string, V>, key: string, default: V): V {
    if key in d then d[key] else default
  }
}
