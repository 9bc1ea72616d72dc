/**
 * The already-parsed response bodies of the quote API, as `JSON.parse`
 * hands them to the price extraction: objects with their members in key
 * order, strings (the API encodes every number as a string) and `null`.
 */
module Json {
  import opened Wrappers

  datatype Value = Object(members: seq<(string, Value)>) | Str(text: string) | Null

  /**
   * The value `JSON.parse` keeps for `key`: where a key is repeated, the
   * last member named `key` wins.
   */
  function Find(members: seq<(string, Value)>, key: string): (r: Option<Value>)
    ensures r.None? <==> forall k :: 0 <= k < |members| ==> members[k].0 != key
    ensures r.Some? ==> exists k :: 0 <= k < |members| && members[k] == (key, r.value)
                                 && forall j :: k < j < |members| ==> members[j].0 != key
    decreases |members|
  {
    if |members| == 0 then None
    else
      var rest := Find(members[1..], key);
      assert forall k :: 1 <= k < |members| ==> members[k] == members[1..][k - 1];
      if rest.Some? then rest
      else if members[0].0 == key then Some(members[0].1)
      else None
  }

  /** A repeated key reads as its last value, as in `JSON.parse('{"a":"1","a":"2"}').a`. */
  lemma RepeatedKeyKeepsLast(key: string, first: Value, last: Value)
    ensures Find([(key, first), (key, last)], key) == Some(last)
  {
    assert [(key, first), (key, last)][1..] == [(key, last)];
  }

  /**
   * `v[key]`: a member of an object; `undefined` (None) for a missing key
   * and for a value that is not an object.
   */
  function Get(v: Value, key: string): Option<Value>
  {
    match v
    case Object(members) => Find(members, key)
    case _ => None
  }

  /** JavaScript truthiness of a possibly missing value: `undefined`, `null` and `""` are falsy. */
  predicate Truthy(v: Option<Value>)
  {
    match v
    case None => false
    case Some(Null) => false
    case Some(Str(s)) => s != ""
    case Some(Object(_)) => true
  }

  /** `String(v)`, the text `parseFloat` receives. */
  function ToText(v: Value): string
  {
    match v
    case Str(s) => s
    case Object(_) => "[object Object]"
    case Null => "null"
  }
}
