/**
 * The JSON-like values the security analyzer walks: what `json.loads`
 * produces and what the scan results dictionary holds. A Python dict is kept
 * as its items in insertion order.
 */
module JsonValue {
  import opened Wrappers
  import opened PyText

  datatype Json =
    | Null
    | Bool(b: bool)
    | Int(i: int)
    | Str(s: string)
    | Array(items: seq<Json>)
    | Object(fields: seq<Field>)

  datatype Field = Field(key: string, value: Json)

  /** `d.get(key)`: the value stored under `key`, if `key in d`. */
  function Lookup(fields: seq<Field>, key: string): (r: Option<Json>)
    ensures r.None? <==> forall i :: 0 <= i < |fields| ==> fields[i].key != key
    ensures r.Some? ==> exists i :: 0 <= i < |fields| && fields[i] == Field(key, r.value)
    decreases |fields|
  {
    if fields == [] then None
    else if fields[0].key == key then Some(fields[0].value)
    else
      var r := Lookup(fields[1..], key);
      assert forall i :: 0 < i < |fields| ==> fields[i] == fields[1..][i - 1];
      r
  }

  /** No field before position `i` has the key. */
  predicate KeyAbsentBefore(fields: seq<Field>, key: string, i: int)
    requires 0 <= i <= |fields|
  {
    forall j :: 0 <= j < i ==> fields[j].key != key
  }

  /** The value found is the one of the first field with the key. */
  lemma {:induction false} LookupFirst(fields: seq<Field>, key: string, i: int)
    requires 0 <= i < |fields| && fields[i].key == key && KeyAbsentBefore(fields, key, i)
    ensures Lookup(fields, key) == Some(fields[i].value)
    decreases |fields|
  {
    if i > 0 {
      var rest := fields[1..];
      assert KeyAbsentBefore(rest, key, i - 1) by {
        forall j | 0 <= j < i - 1 ensures rest[j].key != key {
          assert rest[j] == fields[j + 1];
        }
      }
      assert fields[0].key != key;
      LookupFirst(rest, key, i - 1);
    }
  }

  /** `str(v)`: a string is itself, everything else is shown as `repr(v)`. */
  function PyStr(j: Json): string {
    if j.Str? then j.s else Repr(j)
  }

  /** `repr(v)` of a decoded JSON value. */
  function Repr(j: Json): string
    decreases j
  {
    match j
    case Null => "None"
    case Bool(b) => if b then "True" else "False"
    case Int(i) => IntToString(i)
    case Str(s) => "'" + s + "'"
    case Array(items) =>
      "[" + Join(seq(|items|, k requires 0 <= k < |items| => Repr(items[k])), ", ") + "]"
    case Object(fields) =>
      "{" + Join(seq(|fields|, k requires 0 <= k < |fields| =>
                   "'" + fields[k].key + "': " + Repr(fields[k].value)), ", ") + "}"
  }
}
