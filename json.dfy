/** A parsed JSON document as Python sees it after `json.loads`, together with
    the few Python operations the webhook handlers apply to it: truth value,
    `v[key]`, `len(v)` and iteration. An operation that raises in Python
    (`KeyError`, `TypeError`) returns `None` here. */
module Json {
  import opened Wrappers

  /** An object keeps its members in document order; a key given twice keeps
      the last value, as a Python dict built by `json.loads` does. */
  datatype Json =
    | JNull
    | JBool(b: bool)
    | JNumber(n: int)
    | JString(s: string)
    | JArray(items: seq<Json>)
    | JObject(members: seq<(string, Json)>)

  /** Python's truth value of the decoded value. */
  predicate Truthy(v: Json) {
    match v
    case JNull => false
    case JBool(b) => b
    case JNumber(n) => n != 0
    case JString(s) => s != ""
    case JArray(items) => items != []
    case JObject(members) => members != []
  }

  predicate HasKey(members: seq<(string, Json)>, key: string) {
    exists i :: 0 <= i < |members| && members[i].0 == key
  }

  /** `members[i]` is the last member named `key`. */
  predicate LastWithKey(members: seq<(string, Json)>, key: string, i: int) {
    0 <= i < |members| && members[i].0 == key && forall j :: i < j < |members| ==> members[j].0 != key
  }

  /** The value a dict built from `members` holds for `key`: the last one. */
  function Field(members: seq<(string, Json)>, key: string): (r: Option<Json>)
    ensures r.Some? <==> HasKey(members, key)
    ensures r.Some? ==> exists i :: LastWithKey(members, key, i) && members[i].1 == r.value
  {
    if members == [] then None
    else if members[|members| - 1].0 == key then
      assert LastWithKey(members, key, |members| - 1);
      Some(members[|members| - 1].1)
    else
      var r := Field(members[..|members| - 1], key);
      LastWithKeyExtends(members, key);
      r
  }

  /** A last member named `key` in all but the final member stays the last
      one when the final member has another name. */
  lemma LastWithKeyExtends(members: seq<(string, Json)>, key: string)
    requires members != [] && members[|members| - 1].0 != key
    ensures forall i :: 0 <= i < |members| - 1 ==> members[..|members| - 1][i] == members[i]
    ensures forall i :: LastWithKey(members[..|members| - 1], key, i) ==> LastWithKey(members, key, i)
  {
    var init := members[..|members| - 1];
    forall i | LastWithKey(init, key, i) ensures LastWithKey(members, key, i) {
      forall j | i < j < |members| ensures members[j].0 != key {
        if j < |members| - 1 {
          assert init[j] == members[j];
        }
      }
    }
  }

  /** Python's `v[key]` with a string key: only a dict can answer it; a
      missing key raises `KeyError`, any other kind of value `TypeError`. */
  function GetItem(v: Json, key: string): (r: Option<Json>)
    ensures r.Some? <==> v.JObject? && HasKey(v.members, key)
    ensures r.Some? ==> exists i :: LastWithKey(v.members, key, i) && v.members[i].1 == r.value
  {
    if v.JObject? then Field(v.members, key) else None
  }

  /** Python's `key in v` for a dict `v`. */
  predicate Contains(v: Json, key: string) {
    v.JObject? && HasKey(v.members, key)
  }

  /** The distinct keys of a dict in first-occurrence order, as strings. */
  function KeyItems(members: seq<(string, Json)>): (r: seq<Json>)
    ensures (r == []) <==> (members == [])
    ensures forall i :: 0 <= i < |r| ==> r[i].JString?
  {
    if members == [] then []
    else
      var init := KeyItems(members[..|members| - 1]);
      var k := JString(members[|members| - 1].0);
      if k in init then init else init + [k]
  }

  /** Whether Python's `len(v)` is defined. */
  predicate HasLen(v: Json) {
    v.JArray? || v.JString? || v.JObject?
  }

  /** The items `for x in v` visits: list elements, one-character strings,
      or dict keys; `None` when `v` is not iterable. */
  function Iter(v: Json): (r: Option<seq<Json>>)
    ensures r.Some? <==> HasLen(v)
    ensures r.Some? && !v.JArray? ==> forall i :: 0 <= i < |r.value| ==> r.value[i].JString?
    ensures r.Some? ==> (r.value == [] <==> !Truthy(v))
  {
    match v
    case JArray(items) => Some(items)
    case JString(s) => Some(seq(|s|, i requires 0 <= i < |s| => JString([s[i]])))
    case JObject(members) => Some(KeyItems(members))
    case _ => None
  }
}
