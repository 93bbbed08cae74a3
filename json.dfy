/**
 * Decoded JSON as Go's `encoding/json` hands it to `interface{}`:
 * objects become `map[string]interface{}`, arrays `[]interface{}`.
 * The `%+v` verb prints such values; `Show` is that text.
 */
module Json {

  import opened Wrappers
  import opened GoStrings

  /** A JSON number is held as an integer (the core only reads integral IDs and codes). */
  datatype Value =
    | Null
    | Bool(b: bool)
    | Number(n: int)
    | Str(s: string)
    | Array(items: seq<Value>)
    | Object(members: seq<Member>)

  /**
   * One key of a decoded object; members are kept in the key order `%+v`
   * prints them in. A decoded object is a Go map, so it holds each key once
   * (`DistinctKeys`): when a body repeats a key the decoder keeps the last
   * occurrence, and the members are what the decoder produced, not the text.
   */
  datatype Member = Member(key: string, value: Value)

  /** No key occurs twice, as in any `map[string]interface{}`. */
  predicate DistinctKeys(members: seq<Member>) {
    forall i, j :: 0 <= i < j < |members| ==> members[i].key != members[j].key
  }

  /** `obj[key]` on a decoded object: the member's value, or nothing (Go's nil) when absent. */
  function Get(members: seq<Member>, key: string): (r: Option<Value>)
    ensures r.Some? <==> exists i :: 0 <= i < |members| && members[i].key == key
    ensures r.Some? ==> exists i :: 0 <= i < |members| && members[i] == Member(key, r.value)
  {
    if members == [] then None
    else if members[0].key == key then Some(members[0].value)
    else
      var r := Get(members[1..], key);
      assert forall i :: 1 <= i < |members| ==> members[i] == members[1..][i - 1];
      r
  }

  /** On an object with distinct keys, `Get` is the map lookup: a key's value is that of its one member. */
  lemma {:induction false} GetDistinct(members: seq<Member>, i: nat)
    requires DistinctKeys(members)
    requires i < |members|
    ensures Get(members, members[i].key) == Some(members[i].value)
    decreases i
  {
    if i > 0 {
      assert members[0].key != members[i].key;
      var tail := members[1..];
      assert DistinctKeys(tail) by {
        forall a, b | 0 <= a < b < |tail| ensures tail[a].key != tail[b].key {
          assert tail[a] == members[a + 1] && tail[b] == members[b + 1];
        }
      }
      assert tail[i - 1] == members[i];
      GetDistinct(tail, i - 1);
    }
  }

  /** The words of `parts` separated by single spaces, as `%v` separates elements. */
  function JoinSpaced(parts: seq<string>): string {
    if parts == [] then ""
    else if |parts| == 1 then parts[0]
    else parts[0] + " " + JoinSpaced(parts[1..])
  }

  /** `fmt.Sprintf("%+v", v)` for a decoded value. */
  function Show(v: Value): string
    decreases v, 1
  {
    match v
    case Null => "<nil>"
    case Bool(b) => if b then "true" else "false"
    case Number(n) => Itoa(n)
    case Str(s) => s
    case Array(items) => "[" + JoinSpaced(ShowItems(v, items)) + "]"
    case Object(members) => ShowObject(members)
  }

  function ShowItems(parent: Value, items: seq<Value>): (r: seq<string>)
    requires forall i :: 0 <= i < |items| ==> items[i] < parent
    ensures |r| == |items|
    decreases parent, 0, |items|
  {
    if items == [] then [] else [Show(items[0])] + ShowItems(parent, items[1..])
  }

  /** `%+v` of a `map[string]interface{}`: `map[k1:v1 k2:v2]`. */
  function ShowObject(members: seq<Member>): (t: string)
    ensures HasPrefix(t, "map[") && t[|t| - 1] == ']'
    decreases Object(members), 0
  {
    "map[" + JoinSpaced(ShowMembers(Object(members), members)) + "]"
  }

  function ShowMembers(parent: Value, members: seq<Member>): (r: seq<string>)
    requires forall i :: 0 <= i < |members| ==> members[i].value < parent
    ensures |r| == |members|
    decreases parent, 0, |members|
  {
    if members == [] then []
    else [members[0].key + ":" + Show(members[0].value)] + ShowMembers(parent, members[1..])
  }
}
