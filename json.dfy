/**
 * Parsed JSON (and TOML) documents, with the Python semantics the pipeline
 * applies to them: dictionaries built from key/value pairs, truthiness,
 * `isinstance` checks, `==` across bool/int/float, `len`, subscripts,
 * iteration and `dict.get`, including the exceptions these raise.
 */
module Json {
  import opened Base
  import opened Strings

  datatype Json =
    | JNull
    | JBool(b: bool)
    | JInt(i: int)
    | JFloat(r: real)
    | JString(s: string)
    | JList(items: seq<Json>)
    | JObject(fields: seq<(string, Json)>)

  /** A JSON file as the pipeline finds it on disk: missing, not valid JSON, or a document. */
  datatype JsonFile = Absent | Malformed(error: string) | Document(data: Json)

  /** Key/value pairs, in order. */
  type Items = seq<(string, Json)>

  // ----- dictionaries -------------------------------------------------------

  predicate DistinctKeys(items: Items)
  {
    forall i, j :: 0 <= i < j < |items| ==> items[i].0 != items[j].0
  }

  function KeysOf(items: Items): (ks: seq<string>)
    ensures |ks| == |items|
    ensures forall i :: 0 <= i < |items| ==> ks[i] == items[i].0
  {
    if items == [] then [] else [items[0].0] + KeysOf(items[1..])
  }

  /** The value of the first pair with key `k`. */
  function Find(items: Items, k: string): (r: Option<Json>)
    ensures r.None? <==> k !in KeysOf(items)
  {
    if items == [] then None else if items[0].0 == k then Some(items[0].1) else Find(items[1..], k)
  }

  /** The position of the first pair with key `k`, or `|items|`. */
  function IndexOfKey(items: Items, k: string): (i: nat)
    ensures i <= |items|
    ensures i < |items| ==> items[i].0 == k
    ensures forall j :: 0 <= j < i ==> items[j].0 != k
  {
    if items == [] then 0 else if items[0].0 == k then 0 else 1 + IndexOfKey(items[1..], k)
  }

  /** Python's `d[k] = v`: an existing key keeps its position and takes the new value. */
  function Insert(items: Items, k: string, v: Json): Items
  {
    if items == [] then [(k, v)]
    else if items[0].0 == k then [(k, v)] + items[1..]
    else [items[0]] + Insert(items[1..], k, v)
  }

  /** Inserting a key that is present leaves the keys alone; a new key goes last. */
  lemma {:induction false} InsertKeys(items: Items, k: string, v: Json)
    ensures KeysOf(Insert(items, k, v)) == if k in KeysOf(items) then KeysOf(items) else KeysOf(items) + [k]
  {
    if items != [] && items[0].0 != k {
      InsertKeys(items[1..], k, v);
      assert KeysOf(items) == [items[0].0] + KeysOf(items[1..]);
    }
  }

  /** After `d[k] = v`, `k` maps to `v` and every other key to what it mapped to before. */
  lemma {:induction false} InsertFind(items: Items, k: string, v: Json, q: string)
    ensures Find(Insert(items, k, v), q) == if q == k then Some(v) else Find(items, q)
  {
    if items != [] && items[0].0 != k {
      InsertFind(items[1..], k, v, q);
    }
  }

  /**
   * The dictionary that Python builds from a sequence of pairs (as `json.load`
   * does for an object, and as `{**a, **b}` does for `a`'s pairs then `b`'s):
   * each key once, at its first position, with its last value.
   */
  function ItemsOf(fields: Items): Items
  {
    if fields == [] then [] else Insert(ItemsOf(fields[..|fields| - 1]), fields[|fields| - 1].0, fields[|fields| - 1].1)
  }

  lemma {:induction false} InsertPairs(items: Items, k: string, v: Json)
    ensures forall p <- Insert(items, k, v) :: p in items || p == (k, v)
  {
    if items != [] && items[0].0 != k {
      InsertPairs(items[1..], k, v);
    }
  }

  /** Every pair of the dictionary is one of the given pairs. */
  lemma {:induction false} ItemsOfPairs(fields: Items)
    ensures forall p <- ItemsOf(fields) :: p in fields
    decreases |fields|
  {
    if fields != [] {
      var init := fields[..|fields| - 1];
      ItemsOfPairs(init);
      InsertPairs(ItemsOf(init), fields[|fields| - 1].0, fields[|fields| - 1].1);
    }
  }

  lemma {:induction false} ItemsOfDistinct(fields: Items)
    ensures DistinctKeys(ItemsOf(fields))
    decreases |fields|
  {
    if fields != [] {
      var init := fields[..|fields| - 1];
      ItemsOfDistinct(init);
      InsertDistinct(ItemsOf(init), fields[|fields| - 1].0, fields[|fields| - 1].1);
    }
  }

  lemma InsertDistinct(items: Items, k: string, v: Json)
    requires DistinctKeys(items)
    ensures DistinctKeys(Insert(items, k, v))
  {
    var r := Insert(items, k, v);
    InsertKeys(items, k, v);
    var ks := KeysOf(r);
    if k in KeysOf(items) {
      assert ks == KeysOf(items);
    } else {
      assert ks == KeysOf(items) + [k];
    }
    forall i, j | 0 <= i < j < |r| ensures r[i].0 != r[j].0 {
      assert ks[i] == r[i].0 && ks[j] == r[j].0;
    }
  }

  /** The keys of a dictionary built from `fields`, in Python's iteration order. */
  function DictKeys(fields: Items): seq<string>
  {
    KeysOf(ItemsOf(fields))
  }

  /** `d.get(k)` on the dictionary built from `fields`: the last value given for `k`. */
  function DictLookup(fields: Items, k: string): Option<Json>
  {
    Find(ItemsOf(fields), k)
  }

  /** The last pair with key `k` in `fields`, searching from the end. */
  function LastValue(fields: Items, k: string): Option<Json>
  {
    if fields == [] then None
    else if fields[|fields| - 1].0 == k then Some(fields[|fields| - 1].1)
    else LastValue(fields[..|fields| - 1], k)
  }

  /** Building a dictionary keeps, for every key, the value of its last pair. */
  lemma {:induction false} DictLookupIsLastValue(fields: Items, k: string)
    ensures DictLookup(fields, k) == LastValue(fields, k)
    decreases |fields|
  {
    if fields != [] {
      DictLookupIsLastValue(fields[..|fields| - 1], k);
      InsertFind(ItemsOf(fields[..|fields| - 1]), fields[|fields| - 1].0, fields[|fields| - 1].1, k);
    }
  }

  /**
   * `{**a, **b}`: a key of `a` keeps its position from `a`, yet takes `b`'s
   * value when `b` also has it; keys only in `b` follow in `b`'s order.
   */
  lemma {:induction false} MergeKeepsPosition(a: Items, b: Items, k: string)
    requires k in DictKeys(a)
    ensures IndexOfKey(ItemsOf(a + b), k) == IndexOfKey(ItemsOf(a), k)
    decreases |b|
  {
    if b == [] {
      assert a + b == a;
    } else {
      var b' := b[..|b| - 1];
      var last := b[|b| - 1];
      assert (a + b)[..|a + b| - 1] == a + b';
      MergeKeepsPosition(a, b', k);
      MergeKeysGrow(a, b');
      InsertKeepsIndex(ItemsOf(a + b'), last.0, last.1, k);
    }
  }

  /** `{**a, **b}`: a key takes `b`'s value when `b` has it, and `a`'s otherwise. */
  lemma MergeTakesLaterValue(a: Items, b: Items, k: string)
    ensures DictLookup(a + b, k) == (if k in DictKeys(b) then DictLookup(b, k) else DictLookup(a, k))
  {
    DictLookupIsLastValue(a + b, k);
    DictLookupIsLastValue(a, k);
    DictLookupIsLastValue(b, k);
    LastValueConcat(a, b, k);
  }

  lemma {:induction false} LastValueConcat(a: Items, b: Items, k: string)
    ensures LastValue(a + b, k) == if LastValue(b, k).Some? then LastValue(b, k) else LastValue(a, k)
    decreases |b|
  {
    if b == [] {
      assert a + b == a;
    } else {
      assert (a + b)[..|a + b| - 1] == a + b[..|b| - 1];
      LastValueConcat(a, b[..|b| - 1], k);
    }
  }

  lemma {:induction false} MergeKeysGrow(a: Items, b: Items)
    ensures forall k :: k in DictKeys(a) ==> k in DictKeys(a + b)
    decreases |b|
  {
    if b == [] {
      assert a + b == a;
    } else {
      var b' := b[..|b| - 1];
      assert (a + b)[..|a + b| - 1] == a + b';
      MergeKeysGrow(a, b');
      InsertKeys(ItemsOf(a + b'), b[|b| - 1].0, b[|b| - 1].1);
    }
  }

  lemma {:induction false} InsertKeepsIndex(items: Items, k: string, v: Json, q: string)
    requires q in KeysOf(items)
    ensures IndexOfKey(Insert(items, k, v), q) == IndexOfKey(items, q)
  {
    assert KeysOf(items) == [items[0].0] + KeysOf(items[1..]);
    if items[0].0 != q && items[0].0 != k {
      InsertKeepsIndex(items[1..], k, v, q);
    }
  }

  /** Setting a key that is not yet present appends the pair. */
  lemma {:induction false} InsertNew(items: Items, k: string, v: Json)
    requires k !in KeysOf(items)
    ensures Insert(items, k, v) == items + [(k, v)]
  {
    if items != [] {
      assert KeysOf(items) == [items[0].0] + KeysOf(items[1..]);
      InsertNew(items[1..], k, v);
      assert items == [items[0]] + items[1..];
    }
  }

  /** With distinct keys, each key finds its own pair. */
  lemma {:induction false} FindAt(items: Items, i: nat)
    requires DistinctKeys(items) && i < |items|
    ensures Find(items, items[i].0) == Some(items[i].1)
  {
    if i > 0 {
      assert items[0].0 != items[i].0;
      FindAt(items[1..], i - 1);
    }
  }

  /** Pairs whose keys are all different build a dictionary with exactly those pairs, in order. */
  lemma {:induction false} ItemsOfDistinctSelf(fields: Items)
    requires DistinctKeys(fields)
    ensures ItemsOf(fields) == fields
    decreases |fields|
  {
    if fields != [] {
      var init, last := fields[..|fields| - 1], fields[|fields| - 1];
      ItemsOfDistinctSelf(init);
      assert last.0 !in KeysOf(init);
      InsertNew(init, last.0, last.1);
      assert fields == init + [last];
    }
  }

  // ----- Python value semantics ------------------------------------------

  /** `isinstance(j, (int, float))`: bool is a subclass of int. */
  predicate IsNumber(j: Json)
  {
    j.JBool? || j.JInt? || j.JFloat?
  }

  /** The number a bool, int or float compares as. */
  function NumValue(j: Json): real
    requires IsNumber(j)
  {
    match j
    case JBool(b) => if b then 1.0 else 0.0
    case JInt(i) => i as real
    case JFloat(r) => r
  }

  /** Python truthiness (`bool(j)`). */
  predicate Truthy(j: Json)
  {
    match j
    case JNull => false
    case JBool(b) => b
    case JInt(i) => i != 0
    case JFloat(r) => r != 0.0
    case JString(s) => s != []
    case JList(items) => items != []
    case JObject(fields) => fields != []
  }

  /** `type(j).__name__`. */
  function TypeName(j: Json): string
  {
    match j
    case JNull => "NoneType"
    case JBool(_) => "bool"
    case JInt(_) => "int"
    case JFloat(_) => "float"
    case JString(_) => "str"
    case JList(_) => "list"
    case JObject(_) => "dict"
  }

  /** Python `a == b`: numbers compare by value across bool, int and float. */
  predicate PyEq(a: Json, b: Json)
  {
    if IsNumber(a) && IsNumber(b) then NumValue(a) == NumValue(b) else a == b
  }

  /** Python `x in items` for a list. */
  predicate PyIn(x: Json, items: seq<Json>)
  {
    exists k :: 0 <= k < |items| && PyEq(x, items[k])
  }

  /** Lists and dicts cannot be dictionary keys. */
  predicate Hashable(j: Json)
  {
    !j.JList? && !j.JObject?
  }

  function AttributeError<T>(j: Json, name: string): Outcome<T>
  {
    PyFail("AttributeError", "'" + TypeName(j) + "' object has no attribute '" + name + "'")
  }

  function TypeError<T>(text: string): Outcome<T>
  {
    PyFail("TypeError", text)
  }

  /** `j.get(k, default)`: raises AttributeError unless `j` is a dict. */
  function Get(j: Json, k: string, default: Json): (r: Outcome<Json>)
    ensures r.Ok? <==> j.JObject?
    ensures j.JObject? && DictLookup(j.fields, k).Some? ==> r == Ok(DictLookup(j.fields, k).value)
    ensures j.JObject? && DictLookup(j.fields, k).None? ==> r == Ok(default)
  {
    if !j.JObject? then AttributeError(j, "get")
    else
      match DictLookup(j.fields, k)
      case Some(v) => Ok(v)
      case None => Ok(default)
  }

  /** `key in data`, for whatever `data` holds: a list tests membership, a string a substring. */
  function Has(data: Json, key: string): Outcome<bool>
  {
    match data
    case JObject(fields) => Ok(DictLookup(fields, key).Some?)
    case JList(items) => Ok(PyIn(JString(key), items))
    case JString(s) => Ok(Contains(s, key))
    case _ => TypeError("argument of type '" + TypeName(data) + "' is not iterable")
  }

  /** `data[key]` once `key in data` holds: only a mapping can be subscripted by a string. */
  function At(data: Json, key: string): Outcome<Json>
  {
    if data.JObject? && DictLookup(data.fields, key).Some? then Ok(DictLookup(data.fields, key).value)
    else if data.JObject? then PyFail("KeyError", "'" + key + "'")
    else if data.JString? then TypeError("string indices must be integers, not 'str'")
    else TypeError(TypeName(data) + " indices must be integers or slices, not str")
  }

  /** `key in d` for a dict built from `fields`: strings are looked up; other keys are absent; lists and dicts raise. */
  function KeyIn(key: Json, fields: Items): (r: Outcome<bool>)
    ensures r.Ok? <==> Hashable(key)
    ensures r == Ok(true) <==> key.JString? && DictLookup(fields, key.s).Some?
  {
    if !Hashable(key) then TypeError("unhashable type: '" + TypeName(key) + "'")
    else Ok(key.JString? && DictLookup(fields, key.s).Some?)
  }

  /** `len(j)`. */
  function PyLen(j: Json): (r: Outcome<nat>)
    ensures j.JList? ==> r == Ok(|j.items|)
    ensures j.JString? ==> r == Ok(|j.s|)
    ensures r.Ok? <==> j.JList? || j.JString? || j.JObject?
  {
    match j
    case JList(items) => Ok(|items|)
    case JString(s) => Ok(|s|)
    case JObject(fields) => Ok(|ItemsOf(fields)|)
    case _ => TypeError("object of type '" + TypeName(j) + "' has no len()")
  }

  /** The integer a list index denotes (`True` is 1), if it is an int or a bool. */
  function IndexValue(idx: Json): Option<int>
  {
    match idx
    case JInt(i) => Some(i)
    case JBool(b) => Some(if b then 1 else 0)
    case _ => None
  }

  /** Python's position for index `i` in a sequence of length `n`: negative counts from the end. */
  function Position(i: int, n: nat): Option<nat>
  {
    if 0 <= i < n then Some(i) else if -(n as int) <= i < 0 then Some(n + i) else None
  }

  /** `container[idx]`. */
  function Subscript(container: Json, idx: Json): (r: Outcome<Json>)
    ensures container.JList? && idx.JInt? && 0 <= idx.i < |container.items| ==> r == Ok(container.items[idx.i])
  {
    match container
    case JList(items) =>
      var i := IndexValue(idx);
      if i.None? then TypeError("list indices must be integers or slices, not " + TypeName(idx))
      else if Position(i.value, |items|).None? then PyFail("IndexError", "list index out of range")
      else Ok(items[Position(i.value, |items|).value])
    case JString(s) =>
      var i := IndexValue(idx);
      if i.None? then TypeError("string indices must be integers, not '" + TypeName(idx) + "'")
      else if Position(i.value, |s|).None? then PyFail("IndexError", "string index out of range")
      else Ok(JString([s[Position(i.value, |s|).value]]))
    case JObject(fields) =>
      if !Hashable(idx) then TypeError("unhashable type: '" + TypeName(idx) + "'")
      else if idx.JString? && DictLookup(fields, idx.s).Some? then Ok(DictLookup(fields, idx.s).value)
      else PyFail("KeyError", "key not found")
    case _ => TypeError("'" + TypeName(container) + "' object is not subscriptable")
  }

  /** `a < b` where `a` is a number: only another number compares. */
  function PyLess(a: Json, b: Json): (r: Outcome<bool>)
    requires IsNumber(a)
    ensures r.Ok? <==> IsNumber(b)
    ensures IsNumber(b) ==> r == Ok(NumValue(a) < NumValue(b))
  {
    if IsNumber(b) then Ok(NumValue(a) < NumValue(b))
    else TypeError("'<' not supported between instances of '" + TypeName(a) + "' and '" + TypeName(b) + "'")
  }

  /** `a > b` where `a` is a number: only another number compares. */
  function PyGreater(a: Json, b: Json): (r: Outcome<bool>)
    requires IsNumber(a)
    ensures r.Ok? <==> IsNumber(b)
    ensures IsNumber(b) ==> r == Ok(NumValue(a) > NumValue(b))
  {
    if IsNumber(b) then Ok(NumValue(a) > NumValue(b))
    else TypeError("'>' not supported between instances of '" + TypeName(a) + "' and '" + TypeName(b) + "'")
  }

  /** `a >= n` for an integer `n`: only a number compares. */
  function PyAtLeast(a: Json, n: int): (r: Outcome<bool>)
    ensures r.Ok? <==> IsNumber(a)
    ensures IsNumber(a) ==> r == Ok(NumValue(a) >= n as real)
  {
    if IsNumber(a) then Ok(NumValue(a) >= n as real)
    else TypeError("'>=' not supported between instances of '" + TypeName(a) + "' and 'int'")
  }

  function CharStrings(s: string): (r: seq<Json>)
    ensures |r| == |s|
  {
    if s == [] then [] else [JString([s[0]])] + CharStrings(s[1..])
  }

  function KeyStrings(ks: seq<string>): (r: seq<Json>)
    ensures |r| == |ks|
    ensures forall i :: 0 <= i < |ks| ==> r[i] == JString(ks[i])
  {
    if ks == [] then [] else [JString(ks[0])] + KeyStrings(ks[1..])
  }

  /** `for x in j`: a list yields its items, a dict its keys, a string its characters. */
  function Iter(j: Json): (r: Outcome<seq<Json>>)
    ensures j.JList? ==> r == Ok(j.items)
    ensures r.Ok? <==> j.JList? || j.JObject? || j.JString?
  {
    match j
    case JList(items) => Ok(items)
    case JObject(fields) => Ok(KeyStrings(DictKeys(fields)))
    case JString(s) => Ok(CharStrings(s))
    case _ => TypeError("'" + TypeName(j) + "' object is not iterable")
  }

  /** A list of Python strings. */
  function Texts(ss: seq<string>): (r: seq<Json>)
    ensures |r| == |ss| && forall k :: 0 <= k < |ss| ==> r[k] == JString(ss[k])
  {
    if ss == [] then [] else [JString(ss[0])] + Texts(ss[1..])
  }

  /** The texts of `items[i..]`, or the TypeError `str.join` raises at the first item that is not a string. */
  function JoinParts(items: seq<Json>, i: nat): (r: Outcome<seq<string>>)
    requires i <= |items|
    ensures r.Raised? ==> r.exc.Untyped?
    decreases |items| - i
  {
    if i == |items| then Ok([])
    else if !items[i].JString? then
      TypeError("sequence item " + NatToString(i) + ": expected str instance, " + TypeName(items[i]) + " found")
    else
      var rest :- JoinParts(items, i + 1);
      Ok([items[i].s] + rest)
  }

  /** `sep.join(items)`. */
  function StrJoin(sep: string, items: seq<Json>): (r: Outcome<string>)
    ensures r.Raised? ==> r.exc.Untyped?
  {
    var parts :- JoinParts(items, 0);
    Ok(Join(sep, parts))
  }

  /** The parts are collected exactly when every item from `i` on is a string, and then they are those strings. */
  lemma {:induction false} JoinPartsOk(items: seq<Json>, i: nat)
    requires i <= |items|
    ensures JoinParts(items, i).Ok? <==> forall k :: i <= k < |items| ==> items[k].JString?
    ensures JoinParts(items, i).Ok? ==> Texts(JoinParts(items, i).value) == items[i..]
    decreases |items| - i
  {
    if i < |items| {
      JoinPartsOk(items, i + 1);
      if JoinParts(items, i).Ok? {
        assert items[i..] == [items[i]] + items[i + 1..];
        var rest := JoinParts(items, i + 1).value;
        assert Texts([items[i].s] + rest) == [JString(items[i].s)] + Texts(rest);
      }
    }
  }

  /** `sep.join` succeeds iff every item is a string, and joins their texts. */
  lemma StrJoinOk(sep: string, items: seq<Json>)
    ensures StrJoin(sep, items).Ok? <==> forall k :: 0 <= k < |items| ==> items[k].JString?
    ensures StrJoin(sep, items).Ok? ==> Texts(JoinParts(items, 0).value) == items
  {
    JoinPartsOk(items, 0);
  }

  /** Joining a list of strings gives the plain join of their texts. */
  lemma StrJoinTexts(sep: string, ss: seq<string>)
    ensures StrJoin(sep, Texts(ss)) == Ok(Join(sep, ss))
  {
    JoinPartsOk(Texts(ss), 0);
    TextsInjective(JoinParts(Texts(ss), 0).value, ss);
  }

  lemma {:induction false} TextsInjective(a: seq<string>, b: seq<string>)
    requires Texts(a) == Texts(b)
    ensures a == b
  {
    assert |a| == |b|;
    forall k | 0 <= k < |a| ensures a[k] == b[k] {
      assert Texts(a)[k] == Texts(b)[k];
    }
  }

  // ----- str() ---------------------------------------------------------------

  function FracDigits(x: real, fuel: nat): string
    requires 0.0 <= x < 1.0
    decreases fuel
  {
    if fuel == 0 || x == 0.0 then ""
    else
      var y := x * 10.0;
      var d := y.Floor;
      assert 0 <= d < 10;
      [DigitChar(d)] + FracDigits(y - d as real, fuel - 1)
  }

  /** Python's `str(f)` for a float, in fixed-point notation with up to 17 decimals. */
  function FloatText(r: real): string
  {
    var a := if r < 0.0 then -r else r;
    var whole := a.Floor;
    var frac := FracDigits(a - whole as real, 17);
    (if r < 0.0 then "-" else "") + NatToString(whole) + "." + (if frac == "" then "0" else frac)
  }

  /** Python's `str(j)`; string items inside containers are quoted without escaping. */
  function Str(j: Json): string
  {
    if j.JString? then j.s else Repr(j)
  }

  /** Python's `repr(j)`. */
  function Repr(j: Json): string
    decreases j, 1
  {
    match j
    case JNull => "None"
    case JBool(b) => if b then "True" else "False"
    case JInt(i) => IntToString(i)
    case JFloat(r) => FloatText(r)
    case JString(s) => "'" + s + "'"
    case JList(items) => "[" + ReprItems(j, items) + "]"
    case JObject(fields) =>
      ItemsOfPairs(fields);
      "{" + ReprPairs(j, ItemsOf(fields)) + "}"
  }

  function ReprItems(whole: Json, items: seq<Json>): string
    requires forall i :: 0 <= i < |items| ==> items[i] < whole
    decreases whole, 0, |items|
  {
    if items == [] then ""
    else Repr(items[0]) + (if |items| == 1 then "" else ", " + ReprItems(whole, items[1..]))
  }

  function ReprPairs(whole: Json, pairs: Items): string
    requires whole.JObject? && forall p <- pairs :: p in whole.fields
    decreases whole, 0, |pairs|
  {
    if pairs == [] then ""
    else
      var p := pairs[0];
      assert p in pairs;
      assert p.1 < whole by {
        var i :| 0 <= i < |whole.fields| && whole.fields[i] == p;
      }
      "'" + p.0 + "': " + Repr(p.1) + (if |pairs| == 1 then "" else ", " + ReprPairs(whole, pairs[1..]))
  }
}
