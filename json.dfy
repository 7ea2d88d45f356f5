/** The decoded JSON values the relay handles (what `request.get_json()` yields),
    with the Python semantics the request pipeline relies on: truthiness,
    insertion-ordered dictionaries, and `str()`. */
module Json {
  import opened Text

  datatype Option<T> = None | Some(value: T)

  /** A JSON value as Python holds it. Objects are insertion-ordered key/value
      lists, like a Python `dict`. A float is kept only as far as the relay
      looks at it: whether it is zero, and its `repr()` text. */
  datatype Json =
    | JNull
    | JBool(b: bool)
    | JInt(i: int)
    | JFloat(isZero: bool, digits: string)
    | JStr(s: string)
    | JList(items: seq<Json>)
    | JObj(fields: Fields)

  type Fields = seq<(string, Json)>

  /** Python truthiness: `None`, `False`, `0`, `""`, `[]` and `{}` are falsy. */
  predicate Truthy(j: Json)
  {
    match j
    case JNull => false
    case JBool(b) => b
    case JInt(i) => i != 0
    case JFloat(isZero, _) => !isZero
    case JStr(s) => s != ""
    case JList(items) => items != []
    case JObj(fields) => fields != []
  }

  predicate HasKey(fs: Fields, k: string, i: int)
  {
    0 <= i < |fs| && fs[i].0 == k
  }

  /** `d.get(k)`: the value bound to `k`, or None when `k` is missing. */
  function Get(fs: Fields, k: string): (r: Option<Json>)
    ensures r.Some? <==> exists i :: HasKey(fs, k, i)
    ensures r.Some? ==> exists i :: HasKey(fs, k, i) && fs[i].1 == r.value
  {
    if |fs| == 0 then None
    else if fs[0].0 == k then assert HasKey(fs, k, 0); Some(fs[0].1)
    else
      var r := Get(fs[1..], k);
      assert !HasKey(fs, k, 0);
      assert forall i :: 1 <= i < |fs| ==> (HasKey(fs, k, i) <==> HasKey(fs[1..], k, i - 1));
      assert forall i :: HasKey(fs[1..], k, i) ==> HasKey(fs, k, i + 1) && fs[i + 1] == fs[1..][i];
      r
  }

  /** `k in d`. */
  predicate Has(fs: Fields, k: string)
  {
    Get(fs, k).Some?
  }

  /** `d.get(k, default)`. */
  function GetOr(fs: Fields, k: string, default: Json): Json
  {
    match Get(fs, k)
    case Some(v) => v
    case None => default
  }

  /** `d[k] = v`: an existing key keeps its place and takes the new value; a
      new key is appended at the end. */
  function Set(fs: Fields, k: string, v: Json): (r: Fields)
    ensures Get(r, k) == Some(v)
    ensures forall k' :: k' != k ==> Get(r, k') == Get(fs, k')
    ensures Has(fs, k) ==> |r| == |fs| && forall i :: 0 <= i < |fs| ==> r[i].0 == fs[i].0
    ensures !Has(fs, k) ==> r == fs + [(k, v)]
  {
    if |fs| == 0 then [(k, v)]
    else if fs[0].0 == k then [(k, v)] + fs[1..]
    else
      var r := [fs[0]] + Set(fs[1..], k, v);
      assert fs == [fs[0]] + fs[1..];
      r
  }

  /** Setting the same key twice leaves only the second value. */
  lemma {:induction false} SetTwice(fs: Fields, k: string, a: Json, b: Json)
    ensures Set(Set(fs, k, a), k, b) == Set(fs, k, b)
  {
    if |fs| > 0 && fs[0].0 != k {
      SetTwice(fs[1..], k, a, b);
    }
  }

  /** Storing the value a key already has changes nothing. */
  lemma {:induction false} SetSame(fs: Fields, k: string, v: Json)
    requires Get(fs, k) == Some(v)
    ensures Set(fs, k, v) == fs
  {
    if fs[0].0 != k {
      SetSame(fs[1..], k, v);
    }
  }

  /** Python `str(j)`: a string is itself, anything else its `repr`. */
  function Str(j: Json): (r: string)
    ensures j.JStr? ==> r == j.s
  {
    if j.JStr? then j.s else Repr(j)
  }

  /** Python `repr(j)` of a decoded JSON value. */
  function Repr(j: Json): string
  {
    match j
    case JNull => "None"
    case JBool(b) => if b then "True" else "False"
    case JInt(i) => IntToString(i)
    case JFloat(_, digits) => digits
    case JStr(s) => QuotedRepr(s)
    case JList(items) =>
      "[" + Join(seq(|items|, n requires 0 <= n < |items| => Repr(items[n])), ", ") + "]"
    case JObj(fields) =>
      "{" + Join(seq(|fields|, n requires 0 <= n < |fields| =>
                   QuotedRepr(fields[n].0) + ": " + Repr(fields[n].1)), ", ") + "}"
  }

  /** `repr` of a string: single quotes, or double quotes when the text holds
      a single quote and no double quote. */
  function QuotedRepr(s: string): string
  {
    if '\'' in s && '"' !in s then "\"" + s + "\"" else "'" + s + "'"
  }
}
