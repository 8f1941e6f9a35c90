/**
 * Python's view of decoded JSON: the values `json.loads` produces, and the
 * three Python operations the backend applies to them: `d.get(key, default)`,
 * truthiness (`x or y`, `bool(x)`) and `str(x)`.
 */
module Json {
  import opened Wrappers
  import Text

  /** A decoded JSON value. An object keeps its members as the text lists
      them, repeated keys included; lookups take the last binding, as the
      dict `json.loads` builds does. JSON numbers with a fraction are not
      modelled. */
  datatype Json =
    | JNull
    | JBool(b: bool)
    | JInt(i: int)
    | JStr(s: string)
    | JArr(items: seq<Json>)
    | JObj(members: seq<(string, Json)>)

  const EmptyObj: Json := JObj([])

  /** The result of evaluating a Python expression that may raise. */
  datatype Eval<+T> = Value(v: T) | Raises

  /** The value bound to `key`; when a key is repeated the last binding wins,
      as it does for `json.loads` and for dict displays. */
  function Lookup(members: seq<(string, Json)>, key: string): (r: Option<Json>)
    ensures r.None? <==> forall i :: 0 <= i < |members| ==> members[i].0 != key
    ensures r.Some? ==> (key, r.value) in members
  {
    if |members| == 0 then None
    else if members[|members| - 1].0 == key then Some(members[|members| - 1].1)
    else Lookup(members[..|members| - 1], key)
  }

  /** A key bound at position `i` and never rebound later maps to that value. */
  lemma {:induction false} LookupAt(members: seq<(string, Json)>, i: nat)
    requires i < |members|
    requires forall k :: i < k < |members| ==> members[k].0 != members[i].0
    ensures Lookup(members, members[i].0) == Some(members[i].1)
  {
    if i < |members| - 1 {
      var init := members[..|members| - 1];
      assert init[i] == members[i];
      LookupAt(init, i);
    }
  }

  /** `j.get(key, default)`: only a dict has `get`; on any other value Python
      raises AttributeError. */
  function Get(j: Json, key: string, default: Json): (r: Eval<Json>)
    ensures r.Raises? <==> !j.JObj?
    ensures j.JObj? && (forall i :: 0 <= i < |j.members| ==> j.members[i].0 != key) ==> r == Value(default)
  {
    if j.JObj? then Value(Lookup(j.members, key).GetOr(default)) else Raises
  }

  /** Python truthiness: `None`, `False`, `0`, `""`, `[]` and `{}` are false. */
  predicate Truthy(j: Json) {
    match j
    case JNull => false
    case JBool(b) => b
    case JInt(i) => i != 0
    case JStr(s) => s != ""
    case JArr(items) => items != []
    case JObj(members) => members != []
  }

  /** Python's `repr` of a decoded value (strings in single quotes; the
      escaping of quotes and control characters is not modelled). An object
      prints every member it lists, repeated keys included. */
  function Repr(j: Json): string
    decreases j
  {
    match j
    case JNull => "None"
    case JBool(b) => if b then "True" else "False"
    case JInt(i) => Text.IntToString(i)
    case JStr(s) => "'" + s + "'"
    case JArr(items) =>
      "[" + Text.Join(seq(|items|, k requires 0 <= k < |items| => Repr(items[k])), ", ") + "]"
    case JObj(members) =>
      "{" + Text.Join(seq(|members|, k requires 0 <= k < |members| =>
                            "'" + members[k].0 + "': " + Repr(members[k].1)), ", ") + "}"
  }

  /** The text of an integer reads back as that integer, and a string is
      shown between single quotes. */
  lemma ReprReadsBack(j: Json)
    ensures j.JInt? ==> Text.ParseInt(Repr(j)) == Some(j.i)
    ensures j.JStr? ==> var r := Repr(j); |r| == |j.s| + 2 && r[0] == r[|r| - 1] == '\'' && r[1..|r| - 1] == j.s
  {
    if j.JInt? {
      Text.IntToStringRoundTrip(j.i);
    }
  }

  /** Python's `str(x)`: a string is itself, anything else its `repr`. */
  function Str(j: Json): (r: string)
    ensures j.JStr? ==> r == j.s
    ensures j == JNull ==> r == "None"
  {
    if j.JStr? then j.s else Repr(j)
  }
}
