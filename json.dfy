/** The slice of `serde_json::Value` the registry commands read, the
    accessors they use (`get`, indexing, `as_array`, `as_str`), the
    `filter_map` that collects one string field from every element of an
    array, and the reply an HTTP request yields. */
module Json {
  import opened Wrappers

  datatype Json =
    | JNull
    | JBool(b: bool)
    | JNum(n: int)
    | JStr(s: string)
    | JArr(items: seq<Json>)
    | JObj(fields: map<string, Json>)

  /** `value.get(key)`; indexing `value[key]` differs only in giving `Null`
      where this gives `None`, and `Null` is neither an array nor a string,
      so every accessor below treats the two alike. */
  function Get(v: Json, key: string): Option<Json>
  {
    match v
    case JObj(fields) => if key in fields then Some(fields[key]) else None
    case _ => None
  }

  function AsArray(v: Json): Option<seq<Json>>
  {
    match v
    case JArr(items) => Some(items)
    case _ => None
  }

  function AsStr(v: Json): Option<string>
  {
    match v
    case JStr(s) => Some(s)
    case _ => None
  }

  /** `v.get(key).and_then(|x| x.as_str())` */
  function StrField(v: Json, key: string): Option<string>
  {
    match Get(v, key)
    case Some(x) => AsStr(x)
    case None => None
  }

  /** `v.get(key).and_then(|x| x.as_array())` */
  function ArrayField(v: Json, key: string): Option<seq<Json>>
  {
    match Get(v, key)
    case Some(x) => AsArray(x)
    case None => None
  }

  /** `items.iter().filter_map(|x| x[key].as_str())`: the string values of
      `key`, in array order, skipping elements that have none. */
  function StringsAt(items: seq<Json>, key: string): (found: seq<string>)
    ensures |found| <= |items|
  {
    if items == [] then []
    else
      (match StrField(items[0], key) case Some(s) => [s] case None => [])
      + StringsAt(items[1..], key)
  }

  lemma {:induction false} StringsAtAppend(a: seq<Json>, b: seq<Json>, key: string)
    ensures StringsAt(a + b, key) == StringsAt(a, key) + StringsAt(b, key)
  {
    if a == [] {
      assert a + b == b;
    } else {
      assert (a + b)[1..] == a[1..] + b;
      StringsAtAppend(a[1..], b, key);
    }
  }

  /** One element contributes its string value if it has one, else nothing. */
  lemma StringsAtSingle(x: Json, key: string)
    ensures StringsAt([x], key) == (match StrField(x, key) case Some(s) => [s] case None => [])
  {
    assert [x][1..] == [];
  }

  /** Every collected string is the value of some element, and every
      element's value is collected. */
  lemma {:induction false} StringsAtMembers(items: seq<Json>, key: string, s: string)
    ensures s in StringsAt(items, key) <==>
      exists i :: 0 <= i < |items| && StrField(items[i], key) == Some(s)
  {
    if items != [] {
      StringsAtMembers(items[1..], key, s);
      if exists i :: 0 <= i < |items| && StrField(items[i], key) == Some(s) {
        var i :| 0 <= i < |items| && StrField(items[i], key) == Some(s);
        if i > 0 {
          assert items[1..][i - 1] == items[i];
        }
      }
      if exists j :: 0 <= j < |items[1..]| && StrField(items[1..][j], key) == Some(s) {
        var j :| 0 <= j < |items[1..]| && StrField(items[1..][j], key) == Some(s);
        assert items[j + 1] == items[1..][j];
      }
    }
  }

  /** When every element has the field, the result is their values, one for
      one and in order. */
  lemma {:induction false} StringsAtAllPresent(items: seq<Json>, key: string)
    requires forall i :: 0 <= i < |items| ==> StrField(items[i], key).Some?
    ensures |StringsAt(items, key)| == |items|
    ensures forall i :: 0 <= i < |items| ==> StringsAt(items, key)[i] == StrField(items[i], key).value
  {
    if items != [] {
      assert forall i :: 0 <= i < |items[1..]| ==> items[1..][i] == items[i + 1];
      StringsAtAllPresent(items[1..], key);
    }
  }

  /** When no element has the field, nothing is collected. */
  lemma {:induction false} StringsAtNonePresent(items: seq<Json>, key: string)
    requires forall i :: 0 <= i < |items| ==> StrField(items[i], key).None?
    ensures StringsAt(items, key) == []
  {
    if items != [] {
      assert forall i :: 0 <= i < |items[1..]| ==> items[1..][i] == items[i + 1];
      StringsAtNonePresent(items[1..], key);
    }
  }

  /** What an HTTP GET yields: the request failed outright, or a response
      with a success flag (`status().is_success()`) and a body that parses as
      JSON or does not (`None`). */
  datatype Reply =
    | Unreachable
    | Response(success: bool, body: Option<Json>)
}
