/**
 * The Python values the agent scripts receive from `json.loads`, from the
 * model's tool calls and from MCP input schemas.  A `dict` is an ordered
 * list of key/value bindings (Python dicts keep insertion order); a lookup
 * takes the last binding of a key, as `json.loads` keeps the last of
 * duplicated keys.  Floating-point numbers are not modelled.
 */
module Json {
  import opened Base
  import opened Strings

  datatype Json =
    | JNull
    | JBool(b: bool)
    | JInt(n: int)
    | JStr(s: string)
    | JArr(items: seq<Json>)
    | JObj(fields: seq<(string, Json)>)

  type Fields = seq<(string, Json)>

  /** The keys of a dict, in insertion order. */
  function Keys(fs: Fields): (ks: seq<string>)
    ensures |ks| == |fs|
    ensures forall i :: 0 <= i < |fs| ==> ks[i] == fs[i].0
    decreases |fs|
  {
    if |fs| == 0 then [] else Keys(fs[..|fs| - 1]) + [fs[|fs| - 1].0]
  }

  /** `d.get(k)`: the value bound last to `k`. */
  function Lookup(fs: Fields, k: string): (r: Option<Json>)
    ensures r.None? <==> k !in Keys(fs)
    decreases |fs|
  {
    if |fs| == 0 then None
    else if fs[|fs| - 1].0 == k then Some(fs[|fs| - 1].1)
    else
      var r := Lookup(fs[..|fs| - 1], k);
      assert Keys(fs) == Keys(fs[..|fs| - 1]) + [fs[|fs| - 1].0];
      r
  }

  /** A key that is present is bound, by its last binding, to the value `d.get` finds. */
  lemma {:induction false} LookupLast(fs: Fields, k: string)
    requires k in Keys(fs)
    ensures exists i :: 0 <= i < |fs| && fs[i] == (k, Lookup(fs, k).value)
                        && forall j :: i < j < |fs| ==> fs[j].0 != k
    decreases |fs|
  {
    var n := |fs| - 1;
    if fs[n].0 == k {
      assert fs[n] == (k, Lookup(fs, k).value);
    } else {
      assert Keys(fs) == Keys(fs[..n]) + [fs[n].0];
      LookupLast(fs[..n], k);
      var i :| 0 <= i < n && fs[..n][i] == (k, Lookup(fs[..n], k).value)
               && forall j :: i < j < n ==> fs[..n][j].0 != k;
      assert fs[i] == (k, Lookup(fs, k).value);
    }
  }

  /** Rebinds every binding of `k` to `v`, keeping positions. */
  function Rebind(fs: Fields, k: string, v: Json): (r: Fields)
    ensures Keys(r) == Keys(fs)
    ensures k in Keys(fs) ==> Lookup(r, k) == Some(v)
    ensures forall k' :: k' != k ==> Lookup(r, k') == Lookup(fs, k')
    decreases |fs|
  {
    if |fs| == 0 then []
    else
      var init := Rebind(fs[..|fs| - 1], k, v);
      var last := fs[|fs| - 1];
      var entry := if last.0 == k then (k, v) else last;
      var r := init + [entry];
      assert r[..|r| - 1] == init && r[|r| - 1] == entry;
      assert Keys(r) == Keys(init) + [last.0];
      assert Keys(fs) == Keys(fs[..|fs| - 1]) + [last.0];
      r
  }

  /**
   * `d[k] = v`: an existing key keeps its place and gets the new value, a new
   * key is added at the end.
   */
  function Put(fs: Fields, k: string, v: Json): (r: Fields)
    ensures Lookup(r, k) == Some(v)
    ensures forall k' :: k' != k ==> Lookup(r, k') == Lookup(fs, k')
    ensures Keys(r) == if k in Keys(fs) then Keys(fs) else Keys(fs) + [k]
  {
    if k in Keys(fs) then Rebind(fs, k, v)
    else
      var r := fs + [(k, v)];
      assert r[..|r| - 1] == fs;
      r
  }

  /** Python truthiness: `None`, `False`, `0`, `""`, `[]` and `{}` are false. */
  predicate Truthy(j: Json) {
    match j
    case JNull => false
    case JBool(b) => b
    case JInt(n) => n != 0
    case JStr(s) => s != ""
    case JArr(items) => items != []
    case JObj(fs) => fs != []
  }

  /** `type(j).__name__`. */
  function TypeName(j: Json): string {
    match j
    case JNull => "NoneType"
    case JBool(_) => "bool"
    case JInt(_) => "int"
    case JStr(_) => "str"
    case JArr(_) => "list"
    case JObj(_) => "dict"
  }

  /**
   * `repr(j)`.  Strings are shown in single quotes; the escaping Python
   * applies to quotes, backslashes and control characters inside them is not
   * modelled.
   */
  function Repr(j: Json): string
    decreases j, 1
  {
    match j
    case JNull => "None"
    case JBool(b) => if b then "True" else "False"
    case JInt(n) => IntToDecimal(n)
    case JStr(s) => Quote(s)
    case JArr(items) => "[" + ReprItems(items) + "]"
    case JObj(fs) => "{" + ReprFields(fs) + "}"
  }

  function Quote(s: string): string {
    "'" + s + "'"
  }

  function ReprItems(items: seq<Json>): string
    decreases items, 0
  {
    if |items| == 0 then ""
    else if |items| == 1 then Repr(items[0])
    else Repr(items[0]) + ", " + ReprItems(items[1..])
  }

  function ReprFields(fs: Fields): string
    decreases fs, 0
  {
    if |fs| == 0 then ""
    else
      var (key, value) := fs[0];
      assert fs[0] in fs;
      assert value < fs[0];
      var entry := Quote(key) + ": " + Repr(value);
      if |fs| == 1 then entry else entry + ", " + ReprFields(fs[1..])
  }

  /** `str(j)`, which is what an f-string inserts: a string as itself, anything else as its `repr`. */
  function Str(j: Json): string {
    if j.JStr? then j.s else Repr(j)
  }

  /** `str` of a list: the `repr` of each item, in order, joined by ", " between brackets. */
  lemma StrOfList(items: seq<Json>)
    ensures Str(JArr(items)) == "[" + Join(", ", seq(|items|, i requires 0 <= i < |items| => Repr(items[i]))) + "]"
  {
    ReprItemsJoin(items);
  }

  lemma {:induction false} ReprItemsJoin(items: seq<Json>)
    ensures ReprItems(items) == Join(", ", seq(|items|, i requires 0 <= i < |items| => Repr(items[i])))
    decreases |items|
  {
    var rs := seq(|items|, i requires 0 <= i < |items| => Repr(items[i]));
    if |items| > 1 {
      ReprItemsJoin(items[1..]);
      assert rs[1..] == seq(|items[1..]|, i requires 0 <= i < |items[1..]| => Repr(items[1..][i]));
    }
  }

  /** `str` of a list of strings, as `str(['5'])` shows it: `"['5']"`. */
  function ReprStrings(items: seq<string>): (r: string)
    ensures r == Repr(JArr(seq(|items|, i requires 0 <= i < |items| => JStr(items[i]))))
    decreases |items|
  {
    var js := seq(|items|, i requires 0 <= i < |items| => JStr(items[i]));
    var inner := ReprStringItems(items);
    assert inner == ReprItems(js) by { ReprStringItemsAgree(items); }
    "[" + inner + "]"
  }

  function ReprStringItems(items: seq<string>): string
    decreases |items|
  {
    if |items| == 0 then ""
    else if |items| == 1 then Quote(items[0])
    else Quote(items[0]) + ", " + ReprStringItems(items[1..])
  }

  lemma {:induction false} ReprStringItemsAgree(items: seq<string>)
    ensures ReprStringItems(items) == ReprItems(seq(|items|, i requires 0 <= i < |items| => JStr(items[i])))
    decreases |items|
  {
    var js := seq(|items|, i requires 0 <= i < |items| => JStr(items[i]));
    if |items| > 1 {
      ReprStringItemsAgree(items[1..]);
      assert js[1..] == seq(|items[1..]|, i requires 0 <= i < |items[1..]| => JStr(items[1..][i]));
    }
  }

  /** Whether `j` can be a dict key or be looked up in one (`list` and `dict` cannot). */
  predicate Hashable(j: Json) {
    !j.JArr? && !j.JObj?
  }
}
