/**
 * The Python operations the agent scripts apply to `Json` values, with the
 * exceptions they raise.  An exception is only ever observed through
 * `str(e)`; the wording of the interpreter's own messages follows CPython 3.
 */
module Py {
  import opened Base
  import opened Strings
  import opened Json

  datatype Exception =
    | ValueError(msg: string)
    | TypeError(msg: string)
    | AttributeError(msg: string)
    | KeyError(key: Json)
    /** Raised by `next(...)` on an exhausted generator. */
    | StopIteration
    /** Raised by code outside the model: a sales tool, the MCP library, `json.loads`. */
    | Raised(msg: string)

  /** `str(e)`. */
  function Message(e: Exception): string {
    match e
    case ValueError(m) => m
    case TypeError(m) => m
    case AttributeError(m) => m
    case KeyError(k) => Repr(k)
    case StopIteration => ""
    case Raised(m) => m
  }

  /** A value, or the exception Python raises instead. */
  datatype Result<+T> = Ok(value: T) | Err(error: Exception) {
    predicate IsFailure() {
      Err?
    }

    function PropagateFailure<U>(): Result<U>
      requires Err?
    {
      Err(error)
    }

    function Extract(): T
      requires Ok?
    {
      value
    }
  }

  /**
   * The values of outcomes evaluated in order, as a list comprehension or a
   * loop that stops at the first exception computes them: all the values, or
   * the error of the first outcome that failed.
   */
  function AllOk<T>(rs: seq<Result<T>>): (r: Result<seq<T>>)
    ensures r.Ok? <==> forall i :: 0 <= i < |rs| ==> rs[i].Ok?
    ensures r.Ok? ==> |r.value| == |rs| && forall i :: 0 <= i < |rs| ==> rs[i] == Ok(r.value[i])
    ensures r.Err? ==> exists k :: 0 <= k < |rs| && rs[k] == Err(r.error)
                                   && forall i :: 0 <= i < k ==> rs[i].Ok?
    decreases |rs|
  {
    if |rs| == 0 then Ok([])
    else
      var n := |rs| - 1;
      var init := AllOk(rs[..n]);
      assert forall i :: 0 <= i < n ==> rs[..n][i] == rs[i];
      if init.Err? then init
      else if rs[n].Err? then Err(rs[n].error)
      else
        var r := init.value + [rs[n].value];
        assert forall i :: 0 <= i < n ==> r[i] == init.value[i];
        Ok(r)
  }

  /** Two outcome lists that agree on a first failure agree on the whole. */
  lemma AllOkFirstError<T>(rs: seq<Result<T>>, k: nat)
    requires k < |rs| && rs[k].Err? && forall i :: 0 <= i < k ==> rs[i].Ok?
    ensures AllOk(rs) == Err(rs[k].error)
  {
  }

  /** `f` applied to the items in order, stopping at the first that raises. */
  function MapAll<A, B>(xs: seq<A>, f: A -> Result<B>): Result<seq<B>> {
    AllOk(seq(|xs|, i requires 0 <= i < |xs| => f(xs[i])))
  }

  /** What `MapAll` gives, item by item. */
  lemma MapAllItems<A, B>(xs: seq<A>, f: A -> Result<B>)
    ensures MapAll(xs, f).Ok? <==> forall i :: 0 <= i < |xs| ==> f(xs[i]).Ok?
    ensures MapAll(xs, f).Ok? ==> |MapAll(xs, f).value| == |xs|
                                  && forall i :: 0 <= i < |xs| ==> f(xs[i]) == Ok(MapAll(xs, f).value[i])
    ensures MapAll(xs, f).Err? ==> exists k :: 0 <= k < |xs| && f(xs[k]) == Err(MapAll(xs, f).error)
                                               && forall i :: 0 <= i < k ==> f(xs[i]).Ok?
  {
    var rs := seq(|xs|, i requires 0 <= i < |xs| => f(xs[i]));
    assert forall i :: 0 <= i < |xs| ==> rs[i] == f(xs[i]);
  }

  /** The first item that raises decides the outcome. */
  lemma MapAllFirstError<A, B>(xs: seq<A>, f: A -> Result<B>, k: nat)
    requires k < |xs| && f(xs[k]).Err? && forall i :: 0 <= i < k ==> f(xs[i]).Ok?
    ensures MapAll(xs, f) == Err(f(xs[k]).error)
  {
    AllOkFirstError(seq(|xs|, i requires 0 <= i < |xs| => f(xs[i])), k);
  }

  /**
   * A `for` loop that appends `f(x)` for each item and lets the first
   * exception escape.
   */
  method CollectAll<A, B>(xs: seq<A>, f: A -> Result<B>) returns (r: Result<seq<B>>)
    ensures r == MapAll(xs, f)
  {
    ghost var outcomes := seq(|xs|, i requires 0 <= i < |xs| => f(xs[i]));
    var values: seq<B> := [];
    var i := 0;
    while i < |xs|
      invariant 0 <= i <= |xs| && |values| == i
      invariant forall k :: 0 <= k < i ==> outcomes[k] == Ok(values[k])
    {
      var y := f(xs[i]);
      if y.Err? {
        AllOkFirstError(outcomes, i);
        return Err(y.error);
      }
      values := values + [y.value];
      i := i + 1;
    }
    var all := AllOk(outcomes);
    assert forall k :: 0 <= k < |xs| ==> all.value[k] == values[k];
    assert all.value == values;
    r := Ok(values);
  }

  /** A `for x in xs: output += add(x)` loop where `add` can raise: the first exception ends it. */
  method AddUpOrRaise<A>(xs: seq<A>, add: A -> Result<string>) returns (r: Result<string>)
    ensures r.Ok? <==> MapAll(xs, add).Ok?
    ensures r.Ok? ==> r.value == Concat(MapAll(xs, add).value)
    ensures r.Err? ==> r.error == MapAll(xs, add).error
  {
    MapAllItems(xs, add);
    ghost var pieces: seq<string> := [];
    var output := "";
    var i := 0;
    while i < |xs|
      invariant 0 <= i <= |xs| && |pieces| == i
      invariant forall k :: 0 <= k < i ==> add(xs[k]) == Ok(pieces[k])
      invariant output == Concat(pieces)
    {
      var piece := add(xs[i]);
      if piece.Err? {
        MapAllFirstError(xs, add, i);
        return Err(piece.error);
      }
      ConcatSnoc(pieces, piece.value);
      pieces := pieces + [piece.value];
      output := output + piece.value;
      i := i + 1;
    }
    assert MapAll(xs, add).value == pieces;
    r := Ok(output);
  }

  /** `json.loads`: the decoded value, or the `JSONDecodeError` it raises.  Given, not modelled. */
  type Decoder = string -> Result<Json>

  function NoAttribute(j: Json, attr: string): Exception {
    AttributeError("'" + TypeName(j) + "' object has no attribute '" + attr + "'")
  }

  function Unhashable(j: Json): Exception {
    TypeError("unhashable type: '" + TypeName(j) + "'")
  }

  /** `part in whole` for two strings: `part` starts at some position of `whole`. */
  predicate IsSubstring(part: string, whole: string)
    decreases |whole|
  {
    part <= whole || (|whole| > 0 && IsSubstring(part, whole[1..]))
  }

  /** `item in container` for a `str` item. */
  function Contains(container: Json, item: string): Result<bool> {
    match container
    case JObj(fs) => Ok(item in Keys(fs))
    case JArr(xs) => Ok(JStr(item) in xs)
    case JStr(s) => Ok(IsSubstring(item, s))
    case _ => Err(TypeError("argument of type '" + TypeName(container) + "' is not iterable"))
  }

  /** `container[key]` for a `str` key. */
  function Subscript(container: Json, key: string): Result<Json> {
    match container
    case JObj(fs) =>
      (match Lookup(fs, key)
       case Some(v) => Ok(v)
       case None => Err(KeyError(JStr(key))))
    case JArr(_) => Err(TypeError("list indices must be integers or slices, not str"))
    case JStr(_) => Err(TypeError("string indices must be integers, not 'str'"))
    case _ => Err(TypeError("'" + TypeName(container) + "' object is not subscriptable"))
  }

  /** `d[key]` for a dict `d` and any key; only `str` keys can be bound in a dict decoded from JSON. */
  function Index(fs: Fields, key: Json): Result<Json> {
    if !Hashable(key) then Err(Unhashable(key))
    else if key.JStr? && key.s in Keys(fs) then Ok(Lookup(fs, key.s).value)
    else Err(KeyError(key))
  }

  /** `d.get(key, default)`; anything but a dict has no `get` method. */
  function Get(d: Json, key: Json, default: Json): Result<Json> {
    if !d.JObj? then Err(NoAttribute(d, "get"))
    else if !Hashable(key) then Err(Unhashable(key))
    else if key.JStr? then Ok(Lookup(d.fields, key.s).GetOr(default))
    else Ok(default)
  }

  /** What `for x in j` visits: list items, dict keys, or the characters of a string. */
  function Iterate(j: Json): Result<seq<Json>> {
    match j
    case JArr(xs) => Ok(xs)
    case JObj(fs) => Ok(seq(|fs|, i requires 0 <= i < |fs| => JStr(fs[i].0)))
    case JStr(s) => Ok(seq(|s|, i requires 0 <= i < |s| => JStr([s[i]])))
    case _ => Err(TypeError("'" + TypeName(j) + "' object is not iterable"))
  }

  /** `int(j)`. */
  function ToInt(j: Json): Result<int> {
    match j
    case JInt(n) => Ok(n)
    case JBool(b) => Ok(if b then 1 else 0)
    case JStr(s) =>
      (match ParseInt(s)
       case Some(n) => Ok(n)
       case None => Err(ValueError("invalid literal for int() with base 10: " + Quote(s))))
    case _ =>
      Err(TypeError("int() argument must be a string, a bytes-like object or a real number, not '"
                    + TypeName(j) + "'"))
  }

  /** `x.strip()`; only a string has a `strip` method. */
  function StripMethod(x: Json): Result<string> {
    if x.JStr? then Ok(Strip(x.s, Whitespace)) else Err(NoAttribute(x, "strip"))
  }

  /** The items of a `str.join` argument, which must all be strings; `offset` numbers them in messages. */
  function StringItems(xs: seq<Json>, offset: nat): Result<seq<string>>
    decreases |xs|
  {
    if |xs| == 0 then Ok([])
    else if !xs[0].JStr? then
      Err(TypeError("sequence item " + IntToDecimal(offset) + ": expected str instance, "
                    + TypeName(xs[0]) + " found"))
    else
      var rest :- StringItems(xs[1..], offset + 1);
      Ok([xs[0].s] + rest)
  }

  /** `sep.join(j)`. */
  function JoinJson(sep: string, j: Json): Result<string> {
    var xs :- Iterate(j);
    var items :- StringItems(xs, 0);
    Ok(Join(sep, items))
  }

  /** Joining a list of strings joins exactly those strings. */
  lemma {:induction false} StringItemsOfStrings(items: seq<string>, offset: nat)
    ensures StringItems(seq(|items|, i requires 0 <= i < |items| => JStr(items[i])), offset) == Ok(items)
    decreases |items|
  {
    var xs := seq(|items|, i requires 0 <= i < |items| => JStr(items[i]));
    if |items| > 0 {
      assert xs[1..] == seq(|items[1..]|, i requires 0 <= i < |items[1..]| => JStr(items[1..][i]));
      StringItemsOfStrings(items[1..], offset + 1);
      assert [items[0]] + items[1..] == items;
    }
  }

  /** `sep.join` of a list of strings is their `Join`. */
  lemma JoinOfStrings(sep: string, items: seq<string>)
    ensures JoinJson(sep, JArr(seq(|items|, i requires 0 <= i < |items| => JStr(items[i])))) == Ok(Join(sep, items))
  {
    StringItemsOfStrings(items, 0);
  }

  /** `k in d` and `d[k]` on a dict. */
  lemma DictSubscript(fs: Fields, k: string)
    ensures Contains(JObj(fs), k) == Ok(k in Keys(fs))
    ensures k in Keys(fs) ==> Subscript(JObj(fs), k) == Ok(Lookup(fs, k).value)
  {
  }

  /** `d.get(k, default)` on a dict gives the bound value, or the default when `k` is unbound. */
  lemma GetFromDict(fs: Fields, k: string, default: Json)
    ensures Get(JObj(fs), JStr(k), default) == Ok(if k in Keys(fs) then Lookup(fs, k).value else default)
  {
  }
}
