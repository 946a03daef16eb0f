/**
 * The three-phase workflow validator. The schema phase checks each node's
 * widget values against its schema, the graph phase checks every link, and
 * the introspection phase checks the shape of each schema entry. Errors from
 * the three phases are concatenated; a Python exception raised by a
 * malformed document aborts the whole validation.
 */
module Validator {
  import opened Base
  import opened Strings
  import opened Json

  /** The phase that reported an error (the source's `level` text). */
  datatype Phase = Schema | Graph | Introspection

  datatype Message =
    | UnknownNodeType(nodeType: Json)
    | NotInAllowed(input: string, value: Json, allowed: Json)
    | ExpectedType(input: string, expected: string, got: string)
    | BelowMinimum(input: string, value: Json, bound: Json)
    | AboveMaximum(input: string, value: Json, bound: Json)
    | MissingSource(linkId: Json, node: Json)
    | MissingTarget(linkId: Json, node: Json)
    | NoOutputSlot(slot: Json, nodeType: Json)
    | NoInputSlot(slot: Json, nodeType: Json)
    | TypeMismatch(fromType: Json, outputType: Json, toType: Json, targetType: Json)
    | InputNotDict(typeName: string)
    | RequiredNotDict
    | OptionalNotDict
    | OutputNotList(typeName: string)
    | OutputNameMismatch(outputs: nat, names: nat)
    | NoFunction

  datatype ValidationError = ValidationError(nodeId: Json, nodeType: Json, message: Message, level: Phase)

  datatype ValidationResult = ValidationResult(errors: seq<ValidationError>, warnings: seq<ValidationError>)
  {
    predicate IsValid() { |errors| == 0 }
  }

  /** The node-schema map served by the running server, keyed by node type. */
  type ObjectInfo = Items

  /** Upper-case input types that are widgets rather than connections. */
  const WidgetTypes: set<string> := {"BOOLEAN", "INT", "FLOAT", "STRING"}

  // ----- message text ------------------------------------------------------

  function PhaseText(p: Phase): string
  {
    match p
    case Schema => "schema"
    case Graph => "graph"
    case Introspection => "introspection"
  }

  function MessageText(m: Message): string
  {
    match m
    case UnknownNodeType(t) => "Unknown node type: " + Str(t)
    case NotInAllowed(n, v, a) => "'" + n + "': '" + Str(v) + "' not in allowed values " + Str(a)
    case ExpectedType(n, e, g) => "'" + n + "': expected " + e + ", got " + g
    case BelowMinimum(n, v, b) => "'" + n + "': " + Str(v) + " < minimum " + Str(b)
    case AboveMaximum(n, v, b) => "'" + n + "': " + Str(v) + " > maximum " + Str(b)
    case MissingSource(l, n) => "Link " + Str(l) + ": source node " + Str(n) + " does not exist"
    case MissingTarget(l, n) => "Link " + Str(l) + ": target node " + Str(n) + " does not exist"
    case NoOutputSlot(s, t) => "Output slot " + Str(s) + " does not exist on " + Str(t)
    case NoInputSlot(s, t) => "Input slot " + Str(s) + " does not exist on " + Str(t)
    case TypeMismatch(f, o, t, e) =>
      "Type mismatch: " + Str(f) + " outputs " + Str(o) + ", but " + Str(t) + " expects " + Str(e)
    case InputNotDict(t) => "INPUT_TYPES returned invalid type: " + t
    case RequiredNotDict => "INPUT_TYPES 'required' is not a dict"
    case OptionalNotDict => "INPUT_TYPES 'optional' is not a dict"
    case OutputNotList(t) => "RETURN_TYPES is not a list: " + t
    case OutputNameMismatch(o, n) =>
      "RETURN_TYPES (" + NatToString(o) + ") doesn't match RETURN_NAMES (" + NatToString(n) + ")"
    case NoFunction => "Node has no FUNCTION defined"
  }

  /** `str(error)`: "[level] Node id (type): message". */
  function ErrorText(e: ValidationError): string
  {
    "[" + PhaseText(e.level) + "] Node " + Str(e.nodeId) + " (" + Str(e.nodeType) + "): " + MessageText(e.message)
  }

  // ----- one widget value --------------------------------------------------

  /** The options dict: the spec's second item when it is a dict, else empty. */
  function Options(spec: seq<Json>): Items
  {
    if |spec| > 1 && spec[1].JObject? then spec[1].fields else []
  }

  /** `opts.get(k)`: None when the key is absent. */
  function Opt(opts: Items, k: string): Json
  {
    match DictLookup(opts, k)
    case Some(v) => v
    case None => JNull
  }

  predicate IsUpload(opts: Items)
  {
    Truthy(Opt(opts, "image_upload")) || Truthy(Opt(opts, "file_upload"))
  }

  /** A number lies within the inclusive bounds given by the options; an absent (None) bound does not constrain. */
  predicate WithinBounds(value: Json, opts: Items)
    requires IsNumber(value)
    requires Opt(opts, "min") == JNull || IsNumber(Opt(opts, "min"))
    requires Opt(opts, "max") == JNull || IsNumber(Opt(opts, "max"))
  {
    (Opt(opts, "min") == JNull || NumValue(Opt(opts, "min")) <= NumValue(value))
    && (Opt(opts, "max") == JNull || NumValue(value) <= NumValue(Opt(opts, "max")))
  }

  predicate IsNumericType(t: Json)
  {
    t == JString("INT") || t == JString("FLOAT")
  }

  function CheckNumber(name: string, typeLabel: string, opts: Items, value: Json): Outcome<Option<Message>>
  {
    if !IsNumber(value) then Ok(Some(ExpectedType(name, typeLabel, TypeName(value))))
    else
      var lo := Opt(opts, "min");
      var hi := Opt(opts, "max");
      var below :- if lo == JNull then Ok(false) else PyLess(value, lo);
      if below then Ok(Some(BelowMinimum(name, value, lo)))
      else
        var above :- if hi == JNull then Ok(false) else PyGreater(value, hi);
        if above then Ok(Some(AboveMaximum(name, value, hi))) else Ok(None)
  }

  /**
   * One widget value against its input spec. An enum (list) type accepts any
   * member, or anything at all for an upload input; INT and FLOAT accept any
   * number (bool included) within the inclusive bounds; STRING accepts text,
   * BOOLEAN a bool, and any other type everything. Comparing a number with a
   * non-numeric bound raises TypeError.
   */
  function ValidateValue(name: string, inputType: Json, spec: seq<Json>, value: Json): (r: Outcome<Option<Message>>)
    ensures r.Raised? ==> IsNumericType(inputType) && IsNumber(value)
  {
    var opts := Options(spec);
    if inputType.JList? then
      if IsUpload(opts) then Ok(None)
      else if !PyIn(value, inputType.items) then Ok(Some(NotInAllowed(name, value, inputType)))
      else Ok(None)
    else if inputType == JString("INT") then CheckNumber(name, "INT", opts, value)
    else if inputType == JString("FLOAT") then CheckNumber(name, "FLOAT", opts, value)
    else if inputType == JString("STRING") then
      Ok(if value.JString? then None else Some(ExpectedType(name, "STRING", TypeName(value))))
    else if inputType == JString("BOOLEAN") then
      Ok(if value.JBool? then None else Some(ExpectedType(name, "BOOLEAN", TypeName(value))))
    else Ok(None)
  }

  /** An enum input accepts a member of its list, and anything at all when it is an upload input. */
  lemma EnumValueCheck(name: string, inputType: Json, spec: seq<Json>, value: Json)
    requires inputType.JList?
    ensures var r := ValidateValue(name, inputType, spec, value);
      r.Ok? && (r.value.None? <==> IsUpload(Options(spec)) || PyIn(value, inputType.items))
      && (r.value.Some? ==> r.value.value == NotInAllowed(name, value, inputType))
  {
  }

  /**
   * INT and FLOAT accept any number, bool included, within the inclusive
   * bounds; anything else is reported with its type name; a message about a
   * bound names the bound the value is strictly beyond.
   */
  lemma NumericValueCheck(name: string, inputType: Json, spec: seq<Json>, value: Json)
    requires IsNumericType(inputType)
    ensures var r := ValidateValue(name, inputType, spec, value);
      && (!IsNumber(value) ==> r == Ok(Some(ExpectedType(name, inputType.s, TypeName(value)))))
      && ((IsNumber(value)
           && (Opt(Options(spec), "min") == JNull || IsNumber(Opt(Options(spec), "min")))
           && (Opt(Options(spec), "max") == JNull || IsNumber(Opt(Options(spec), "max")))) ==>
            r.Ok? && (r.value.None? <==> WithinBounds(value, Options(spec))))
      && (r.Ok? && r.value.Some? && r.value.value.BelowMinimum? ==>
            IsNumber(value) && IsNumber(r.value.value.bound) && NumValue(value) < NumValue(r.value.value.bound))
      && (r.Ok? && r.value.Some? && r.value.value.AboveMaximum? ==>
            IsNumber(value) && IsNumber(r.value.value.bound) && NumValue(value) > NumValue(r.value.value.bound))
  {
    assert ValidateValue(name, inputType, spec, value) == CheckNumber(name, inputType.s, Options(spec), value);
    CheckNumberBounds(name, inputType.s, Options(spec), value);
  }

  lemma CheckNumberBounds(name: string, typeLabel: string, opts: Items, value: Json)
    ensures var r := CheckNumber(name, typeLabel, opts, value);
      && (!IsNumber(value) ==> r == Ok(Some(ExpectedType(name, typeLabel, TypeName(value)))))
      && ((IsNumber(value)
           && (Opt(opts, "min") == JNull || IsNumber(Opt(opts, "min")))
           && (Opt(opts, "max") == JNull || IsNumber(Opt(opts, "max")))) ==>
            r.Ok? && (r.value.None? <==> WithinBounds(value, opts)))
      && (r.Ok? && r.value.Some? && r.value.value.BelowMinimum? ==>
            IsNumber(value) && IsNumber(r.value.value.bound) && NumValue(value) < NumValue(r.value.value.bound))
      && (r.Ok? && r.value.Some? && r.value.value.AboveMaximum? ==>
            IsNumber(value) && IsNumber(r.value.value.bound) && NumValue(value) > NumValue(r.value.value.bound))
  {
  }

  /** STRING accepts exactly text, BOOLEAN exactly a bool, and any other type everything. */
  lemma OtherValueCheck(name: string, inputType: Json, spec: seq<Json>, value: Json)
    requires !inputType.JList? && !IsNumericType(inputType)
    ensures var r := ValidateValue(name, inputType, spec, value);
      && (inputType == JString("STRING") ==> r.Ok? && (r.value.None? <==> value.JString?))
      && (inputType == JString("BOOLEAN") ==> r.Ok? && (r.value.None? <==> value.JBool?))
      && (inputType != JString("STRING") && inputType != JString("BOOLEAN") ==> r == Ok(None))
  {
  }

  // ----- the widget walk -----------------------------------------------------

  /**
   * Whether an input consumes a widget value: its spec is a non-empty list
   * whose type is not an upper-case connection type. "*" is not upper case,
   * so a "*" input consumes a value.
   */
  predicate ConsumesWidget(spec: Json)
  {
    spec.JList? && |spec.items| >= 1
    && !(spec.items[0].JString? && IsUpper(spec.items[0].s) && spec.items[0].s !in WidgetTypes)
  }

  lemma StarInputConsumesWidget()
    ensures ConsumesWidget(JList([JString("*")]))
    ensures !ConsumesWidget(JList([JString("IMAGE")]))
    ensures ConsumesWidget(JList([JString("INT")]))
  {
    assert IsUpperLetter('I') && "IMAGE"[0] == 'I';
    assert IsUpperLetter('I') && "INT"[0] == 'I';
  }

  /** The inputs that consume widget values, in iteration order. */
  function Consumers(all: Items): (cs: Items)
    ensures |cs| <= |all|
  {
    if all == [] then []
    else Consumers(all[..|all| - 1]) + (if ConsumesWidget(all[|all| - 1].1) then [all[|all| - 1]] else [])
  }

  lemma ConsumersStep(all: Items, i: nat)
    requires i < |all|
    ensures Consumers(all[..i + 1]) == Consumers(all[..i]) + (if ConsumesWidget(all[i].1) then [all[i]] else [])
  {
    assert all[..i + 1][..i] == all[..i];
  }

  /** How many of the first i inputs consume a widget value. */
  function ConsumerCount(all: Items, i: nat): (c: nat)
    requires i <= |all|
    ensures c <= i
  {
    if i == 0 then 0 else ConsumerCount(all, i - 1) + (if ConsumesWidget(all[i - 1].1) then 1 else 0)
  }

  lemma ConsumerCountStep(all: Items, i: nat)
    requires i < |all|
    ensures ConsumerCount(all, i + 1) == ConsumerCount(all, i) + (if ConsumesWidget(all[i].1) then 1 else 0)
  {
  }

  lemma {:induction false} ConsumerCountIsLength(all: Items, i: nat)
    requires i <= |all|
    ensures ConsumerCount(all, i) == |Consumers(all[..i])|
  {
    if i > 0 {
      ConsumerCountIsLength(all, i - 1);
      ConsumersStep(all, i - 1);
    }
  }

  /** Every input is counted: the count over all inputs is the number of consumers. */
  lemma ConsumerCountAll(all: Items)
    ensures ConsumerCount(all, |all|) == |Consumers(all)|
  {
    ConsumerCountIsLength(all, |all|);
    assert all[..|all|] == all;
  }

  /** A consuming input is the consumer numbered by the count of consumers before it. */
  lemma NextConsumer(all: Items, i: nat)
    requires i < |all| && ConsumesWidget(all[i].1)
    ensures ConsumerCount(all, i) < |Consumers(all)| && Consumers(all)[ConsumerCount(all, i)] == all[i]
  {
    var cs := Consumers(all);
    var m := ConsumerCount(all, i);
    ConsumerCountIsLength(all, i);
    ConsumersStep(all, i);
    ConsumersPrefix(all, i + 1);
    assert Consumers(all[..i + 1]) == Consumers(all[..i]) + [all[i]];
    assert cs[..m + 1] == Consumers(all[..i + 1]);
    assert cs[m] == cs[..m + 1][m];
  }

  lemma {:induction false} ConsumersPrefix(all: Items, i: nat)
    requires i <= |all|
    ensures |Consumers(all[..i])| <= |Consumers(all)|
    ensures Consumers(all)[..|Consumers(all[..i])|] == Consumers(all[..i])
    decreases |all| - i
  {
    if i == |all| {
      assert all[..i] == all;
    } else {
      ConsumersPrefix(all, i + 1);
      assert all[..i + 1][..i] == all[..i];
    }
  }

  /** `{**required, **optional}`: both must be mappings. */
  function MergeInputs(required: Json, optional: Json): (r: Outcome<Items>)
    ensures r.Ok? <==> required.JObject? && optional.JObject?
    ensures r.Ok? ==> r.value == ItemsOf(required.fields + optional.fields)
  {
    if !required.JObject? then TypeError("'" + TypeName(required) + "' object is not a mapping")
    else if !optional.JObject? then TypeError("'" + TypeName(optional) + "' object is not a mapping")
    else Ok(ItemsOf(required.fields + optional.fields))
  }

  /**
   * One consuming input checked against the widget value at position `idx`:
   * at most one error, of the schema phase.
   */
  function CheckWidget(nodeId: Json, nodeType: Json, input: (string, Json), values: Json, idx: nat): (r: Outcome<seq<ValidationError>>)
    ensures r.Ok? ==> |r.value| <= 1 && forall e <- r.value :: e.nodeId == nodeId && e.level == Schema
  {
    // only consuming inputs reach this check; anything else is not checked
    if !ConsumesWidget(input.1) then Ok([])
    else
    var value :- Subscript(values, JInt(idx));
    var error :- ValidateValue(input.0, input.1.items[0], input.1.items, value);
    Ok(if error.Some? then [ValidationError(nodeId, nodeType, error.value, Schema)] else [])
  }

  /**
   * The checks from consumer `idx` on: consumer k is checked against widget
   * value k while k is below both the number of consumers and the number `n`
   * of values; the errors come in consumer order and the first exception
   * ends the walk.
   */
  function WalkFrom(nodeId: Json, nodeType: Json, cs: Items, values: Json, n: nat, idx: nat): Outcome<seq<ValidationError>>
    decreases |cs| - idx
  {
    if idx >= |cs| || idx >= n then Ok([])
    else
      var one :- CheckWidget(nodeId, nodeType, cs[idx], values, idx);
      var rest :- WalkFrom(nodeId, nodeType, cs, values, n, idx + 1);
      Ok(one + rest)
  }

  /** `errors` followed by the outcome of the rest of a walk. */
  function After(errors: seq<ValidationError>, rest: Outcome<seq<ValidationError>>): Outcome<seq<ValidationError>>
  {
    if rest.Raised? then rest else Ok(errors + rest.value)
  }

  lemma AfterNothing(rest: Outcome<seq<ValidationError>>)
    ensures After([], rest) == rest
  {
    if rest.Ok? {
      assert [] + rest.value == rest.value;
    }
  }

  lemma AfterAfter(a: seq<ValidationError>, b: seq<ValidationError>, rest: Outcome<seq<ValidationError>>)
    ensures After(a, After(b, rest)) == After(a + b, rest)
  {
    if rest.Ok? {
      assert a + (b + rest.value) == (a + b) + rest.value;
    }
  }

  /** What the widget walk of one node works on. */
  datatype WidgetWalk = WidgetWalk(nodeId: Json, nodeType: Json, inputs: Items, values: Json)

  /**
   * The lookups before the walk: the node's id and type, the required inputs
   * merged with the optional ones, and the widget values (default empty).
   */
  function WidgetSetup(node: Json, schema: Json): (r: Outcome<WidgetWalk>)
    ensures r.Ok? ==> node.JObject? && schema.JObject?
  {
    var nodeId :- Get(node, "id", JInt(0));
    var inputs :- Get(schema, "input", JObject([]));
    var required :- Get(inputs, "required", JObject([]));
    var all :- MergeInputs(required, Get(inputs, "optional", JObject([])).value);
    Ok(WidgetWalk(nodeId, Get(node, "type", JString("unknown")).value, all,
                  Get(node, "widgets_values", JList([])).value))
  }

  /**
   * The walk's errors: the inputs are filtered to the consuming ones, and
   * the first min(consumers, values) of them are checked against the values
   * at the same positions; `len` of the values is taken only when some input
   * consumes a value.
   */
  function WalkErrors(w: WidgetWalk): Outcome<seq<ValidationError>>
  {
    WalkRest(w, 0)
  }

  /** The part of the walk from consumer `idx` on. */
  function WalkRest(w: WidgetWalk, idx: nat): Outcome<seq<ValidationError>>
  {
    var cs := Consumers(w.inputs);
    if cs == [] then Ok([])
    else
      var n :- PyLen(w.values);
      WalkFrom(w.nodeId, w.nodeType, cs, w.values, n, idx)
  }

  function WidgetErrors(node: Json, schema: Json): Outcome<seq<ValidationError>>
  {
    var w :- WidgetSetup(node, schema);
    WalkErrors(w)
  }

  /**
   * `_validate_widgets`: walks the merged inputs with a widget index that
   * advances once per consuming input and stops when the values run out.
   */
  method ValidateWidgets(node: Json, schema: Json) returns (r: Outcome<seq<ValidationError>>)
    ensures r == WidgetErrors(node, schema)
  {
    var w :- WidgetSetup(node, schema);
    r := WalkWidgets(w);
  }

  /** Without a length for the values, the rest of a walk that has consumers raises what `len` raises. */
  lemma WalkRestWithoutLength(w: WidgetWalk, idx: nat)
    requires Consumers(w.inputs) != [] && PyLen(w.values).Raised?
    ensures WalkRest(w, idx) == Raised(PyLen(w.values).exc)
  {
  }

  /** Once the consumers or the values have run out, nothing is left to check. */
  lemma WalkRestDone(w: WidgetWalk, idx: nat)
    requires idx >= |Consumers(w.inputs)| || (PyLen(w.values).Ok? && idx >= PyLen(w.values).value)
    requires Consumers(w.inputs) != [] ==> PyLen(w.values).Ok?
    ensures WalkRest(w, idx) == Ok([])
  {
  }

  /** One step of the walk: consumer `idx` is checked, then the rest follows unless it raised. */
  lemma WalkRestStep(w: WidgetWalk, idx: nat)
    requires idx < |Consumers(w.inputs)| && PyLen(w.values).Ok? && idx < PyLen(w.values).value
    ensures var one := CheckWidget(w.nodeId, w.nodeType, Consumers(w.inputs)[idx], w.values, idx);
      WalkRest(w, idx) == if one.Raised? then one else After(one.value, WalkRest(w, idx + 1))
  {
  }

  /** The loop of `_validate_widgets`, after the lookups. */
  method WalkWidgets(w: WidgetWalk) returns (r: Outcome<seq<ValidationError>>)
    ensures r == WalkErrors(w)
  {
    var all := w.inputs;
    var values := w.values;
    var errors: seq<ValidationError> := [];
    var widgetIdx: nat := 0;
    ghost var rest := WalkRest(w, 0);
    AfterNothing(rest);
    var i := 0;
    while i < |all|
      invariant 0 <= i <= |all|
      invariant widgetIdx == ConsumerCount(all, i)
      invariant widgetIdx > 0 ==> PyLen(values).Ok?
      invariant rest == WalkRest(w, widgetIdx)
      invariant WalkErrors(w) == After(errors, rest)
    {
      ConsumerCountStep(all, i);
      if !ConsumesWidget(all[i].1) {
        i := i + 1;
        continue;
      }
      NextConsumer(all, i);
      var len := PyLen(values);
      if len.Raised? {
        WalkRestWithoutLength(w, widgetIdx);
        return Raised(len.exc);
      }
      if widgetIdx >= len.value {
        WalkRestDone(w, widgetIdx);
        assert errors + [] == errors;
        return Ok(errors);
      }
      WalkRestStep(w, widgetIdx);
      var one := CheckWidget(w.nodeId, w.nodeType, all[i], values, widgetIdx);
      if one.Raised? {
        return Raised(one.exc);
      }
      AfterAfter(errors, one.value, WalkRest(w, widgetIdx + 1));
      rest := WalkRest(w, widgetIdx + 1);
      widgetIdx := widgetIdx + 1;
      errors := errors + one.value;
      i := i + 1;
    }
    ConsumerCountAll(all);
    WalkRestDone(w, widgetIdx);
    assert errors + [] == errors;
    return Ok(errors);
  }

  // ----- accumulating over nodes and links ------------------------------------

  /** Which per-item check a phase applies. */
  datatype Pass = SchemaPass | GraphPass(byId: seq<(Json, Json)>) | IntrospectionPass

  function ItemErrors(info: ObjectInfo, pass: Pass, x: Json): Outcome<seq<ValidationError>>
  {
    match pass
    case SchemaPass => NodeSchemaErrors(info, x)
    case GraphPass(byId) => LinkErrors(info, byId, x)
    case IntrospectionPass => NodeIntrospectionErrors(info, x)
  }

  /** The errors of every item in order, concatenated; the first exception aborts. */
  function Collect(info: ObjectInfo, pass: Pass, xs: seq<Json>): Outcome<seq<ValidationError>>
    decreases |xs|
  {
    if xs == [] then Ok([])
    else
      var prev :- Collect(info, pass, xs[..|xs| - 1]);
      var cur :- ItemErrors(info, pass, xs[|xs| - 1]);
      Ok(prev + cur)
  }

  lemma CollectExtend(info: ObjectInfo, pass: Pass, xs: seq<Json>, i: nat)
    requires i < |xs|
    ensures Collect(info, pass, xs[..i + 1]) ==
      if Collect(info, pass, xs[..i]).Raised? then Collect(info, pass, xs[..i])
      else if ItemErrors(info, pass, xs[i]).Raised? then ItemErrors(info, pass, xs[i])
      else Ok(Collect(info, pass, xs[..i]).value + ItemErrors(info, pass, xs[i]).value)
  {
    assert xs[..i + 1][..i] == xs[..i];
  }

  lemma {:induction false} CollectKeepsRaise(info: ObjectInfo, pass: Pass, xs: seq<Json>, i: nat)
    requires i <= |xs|
    requires Collect(info, pass, xs[..i]).Raised?
    ensures Collect(info, pass, xs) == Collect(info, pass, xs[..i])
    decreases |xs| - i
  {
    if i < |xs| {
      CollectExtend(info, pass, xs, i);
      CollectKeepsRaise(info, pass, xs, i + 1);
    } else {
      assert xs[..i] == xs;
    }
  }

  /** Once the prefix is collected, an exception from the next item is the phase's exception. */
  lemma CollectItemRaise(info: ObjectInfo, pass: Pass, xs: seq<Json>, i: nat, errors: seq<ValidationError>)
    requires i < |xs|
    requires Collect(info, pass, xs[..i]) == Ok(errors)
    ensures ItemErrors(info, pass, xs[i]).Raised? ==> Collect(info, pass, xs) == ItemErrors(info, pass, xs[i])
    ensures ItemErrors(info, pass, xs[i]).Ok? ==>
      Collect(info, pass, xs[..i + 1]) == Ok(errors + ItemErrors(info, pass, xs[i]).value)
  {
    CollectExtend(info, pass, xs, i);
    if ItemErrors(info, pass, xs[i]).Raised? {
      CollectKeepsRaise(info, pass, xs, i + 1);
    }
  }

  /** Every collected error comes from one of the items. */
  lemma {:induction false} CollectedErrorHasSource(info: ObjectInfo, pass: Pass, xs: seq<Json>, e: ValidationError)
    requires Collect(info, pass, xs).Ok? && e in Collect(info, pass, xs).value
    ensures exists k :: 0 <= k < |xs| && ItemErrors(info, pass, xs[k]).Ok? && e in ItemErrors(info, pass, xs[k]).value
    decreases |xs|
  {
    var init := xs[..|xs| - 1];
    var last := xs[|xs| - 1];
    if e in Collect(info, pass, init).value {
      CollectedErrorHasSource(info, pass, init, e);
      var k :| 0 <= k < |init| && ItemErrors(info, pass, init[k]).Ok? && e in ItemErrors(info, pass, init[k]).value;
      assert init[k] == xs[k];
    } else {
      assert ItemErrors(info, pass, xs[|xs| - 1]).Ok? && e in ItemErrors(info, pass, xs[|xs| - 1]).value;
    }
  }

  /** If any item raises, the whole phase raises (perhaps at an earlier item). */
  lemma {:induction false} CollectRaisesIfAnyItemRaises(info: ObjectInfo, pass: Pass, xs: seq<Json>, k: nat)
    requires k < |xs| && ItemErrors(info, pass, xs[k]).Raised?
    ensures Collect(info, pass, xs).Raised?
    decreases |xs|
  {
    if k < |xs| - 1 {
      CollectRaisesIfAnyItemRaises(info, pass, xs[..|xs| - 1], k);
    }
  }

  // ----- schema phase --------------------------------------------------------

  /** One node in the schema phase: an unknown type is one error and nothing else is checked. */
  function NodeSchemaErrors(info: ObjectInfo, node: Json): (r: Outcome<seq<ValidationError>>)
    ensures node.JObject? ==>
      var t := Get(node, "type", JString("unknown")).value;
      Hashable(t) && !(t.JString? && DictLookup(info, t.s).Some?) ==>
        r == Ok([ValidationError(Get(node, "id", JInt(0)).value, t, UnknownNodeType(t), Schema)])
  {
    var nodeId :- Get(node, "id", JInt(0));
    var nodeType := Get(node, "type", JString("unknown")).value;
    var known :- KeyIn(nodeType, info);
    if !known then Ok([ValidationError(nodeId, nodeType, UnknownNodeType(nodeType), Schema)])
    else WidgetErrors(node, DictLookup(info, nodeType.s).value)
  }

  function SchemaPhase(info: ObjectInfo, workflow: Json): Outcome<seq<ValidationError>>
  {
    var nodesValue :- Get(workflow, "nodes", JList([]));
    var nodes :- Iter(nodesValue);
    Collect(info, SchemaPass, nodes)
  }

  /** `_validate_schema`: every node in turn; unknown types are reported, known ones have their widgets walked. */
  method ValidateSchema(info: ObjectInfo, workflow: Json) returns (r: Outcome<seq<ValidationError>>)
    ensures r == SchemaPhase(info, workflow)
  {
    var nodesValue :- Get(workflow, "nodes", JList([]));
    var nodes :- Iter(nodesValue);
    var errors: seq<ValidationError> := [];
    var i := 0;
    while i < |nodes|
      invariant 0 <= i <= |nodes|
      invariant Collect(info, SchemaPass, nodes[..i]) == Ok(errors)
    {
      CollectItemRaise(info, SchemaPass, nodes, i, errors);
      var node := nodes[i];
      var nodeId :- Get(node, "id", JInt(0));
      var nodeType := Get(node, "type", JString("unknown")).value;
      var known :- KeyIn(nodeType, info);
      if !known {
        errors := errors + [ValidationError(nodeId, nodeType, UnknownNodeType(nodeType), Schema)];
        i := i + 1;
        continue;
      }
      var schema := DictLookup(info, nodeType.s).value;
      var widgetErrors :- ValidateWidgets(node, schema);
      errors := errors + widgetErrors;
      i := i + 1;
    }
    assert nodes[..i] == nodes;
    return Ok(errors);
  }

  // ----- graph phase ---------------------------------------------------------

  /** `{n.get("id"): n for n in nodes}` as pairs in insertion order. */
  function NodesById(nodes: seq<Json>): Outcome<seq<(Json, Json)>>
  {
    if nodes == [] then Ok([])
    else
      var prev :- NodesById(nodes[..|nodes| - 1]);
      var id :- Get(nodes[|nodes| - 1], "id", JNull);
      if !Hashable(id) then TypeError("unhashable type: '" + TypeName(id) + "'")
      else Ok(prev + [(id, nodes[|nodes| - 1])])
  }

  /** `nodes_by_id[key]`: the node of the last pair whose id equals `key`. */
  function NodeLookup(byId: seq<(Json, Json)>, key: Json): Option<Json>
  {
    if byId == [] then None
    else if PyEq(byId[|byId| - 1].0, key) then Some(byId[|byId| - 1].1)
    else NodeLookup(byId[..|byId| - 1], key)
  }

  /** `key in nodes_by_id`: a list or dict key raises. */
  function HasNode(byId: seq<(Json, Json)>, key: Json): (r: Outcome<bool>)
    ensures r.Ok? <==> Hashable(key)
    ensures r == Ok(true) <==> Hashable(key) && NodeLookup(byId, key).Some?
  {
    if !Hashable(key) then TypeError("unhashable type: '" + TypeName(key) + "'")
    else Ok(NodeLookup(byId, key).Some?)
  }

  /** `self.object_info.get(key, default)`. */
  function InfoGet(info: ObjectInfo, key: Json, default: Json): Outcome<Json>
  {
    if !Hashable(key) then TypeError("unhashable type: '" + TypeName(key) + "'")
    else if key.JString? && DictLookup(info, key.s).Some? then Ok(DictLookup(info, key.s).value)
    else Ok(default)
  }

  /** The comma-separated parts of a target type, each stripped of whitespace. */
  function AcceptedTypes(target: string): seq<string>
  {
    var parts := Split(target, ',');
    seq(|parts|, k requires 0 <= k < |parts| => Strip(parts[k]))
  }

  /** A target type without commas accepts exactly its own stripped text. */
  lemma SingleTypeAccepts(target: string)
    requires ',' !in target
    ensures AcceptedTypes(target) == [Strip(target)]
  {
    assert IndexOfChar(target, ',') == |target|;
  }

  /**
   * `_validate_connection`: the source slot must be below the source
   * schema's output count and the target slot below the target node's input
   * count; "*" on either side matches; otherwise the output type must be one
   * of the target's comma-separated types.
   */
  function ValidateConnection(info: ObjectInfo, fromNode: Json, fromSlot: Json, toNode: Json, toSlot: Json)
    : (r: Outcome<Option<Message>>)
    ensures r.Ok? && r.value.Some? && r.value.value.TypeMismatch? ==>
      r.value.value.targetType.JString? && r.value.value.targetType.s != "*" && r.value.value.outputType != JString("*")
      && !(r.value.value.outputType.JString? && r.value.value.outputType.s in AcceptedTypes(r.value.value.targetType.s))
    ensures r.Ok? && r.value.Some? && r.value.value.NoOutputSlot? ==> r.value.value.slot == fromSlot && IsNumber(fromSlot)
    ensures r.Ok? && r.value.Some? && r.value.value.NoInputSlot? ==> r.value.value.slot == toSlot && IsNumber(toSlot)
    ensures r.Ok? && r.value.Some? ==>
      r.value.value.TypeMismatch? || r.value.value.NoOutputSlot? || r.value.value.NoInputSlot?
  {
    var fromType :- Get(fromNode, "type", JString("unknown"));
    var toType :- Get(toNode, "type", JString("unknown"));
    var fromSchema :- InfoGet(info, fromType, JObject([]));
    var fromOutputs :- Get(fromSchema, "output", JList([]));
    var outCount :- PyLen(fromOutputs);
    var noOutput :- PyAtLeast(fromSlot, outCount);
    if noOutput then Ok(Some(NoOutputSlot(fromSlot, fromType)))
    else
      var outputType :- Subscript(fromOutputs, fromSlot);
      var toInputs := Get(toNode, "inputs", JList([])).value;
      var inCount :- PyLen(toInputs);
      var noInput :- PyAtLeast(toSlot, inCount);
      if noInput then Ok(Some(NoInputSlot(toSlot, toType)))
      else
        var target :- Subscript(toInputs, toSlot);
        var targetType :- Get(target, "type", JString("unknown"));
        if Accepts(outputType, targetType) then Ok(None)
        else if !targetType.JString? then AttributeError(targetType, "split")
        else Ok(Some(TypeMismatch(fromType, outputType, toType, targetType)))
  }

  /** An output of type `outputType` may feed an input declared `targetType`: "*" on either side, or one of the target's types. */
  predicate Accepts(outputType: Json, targetType: Json)
  {
    || PyEq(outputType, JString("*"))
    || PyEq(targetType, JString("*"))
    || (targetType.JString? && outputType.JString? && outputType.s in AcceptedTypes(targetType.s))
  }

  /**
   * The decision `_validate_connection` reaches for integer slots: a source
   * slot past the schema's outputs is exactly a missing output slot, then a
   * target slot past the node's inputs is exactly a missing input slot;
   * with both slots in range the link is accepted exactly when the types
   * match, and a string target type that does not match is exactly a type
   * mismatch naming both nodes and both types.
   */
  lemma ConnectionDecision(info: ObjectInfo, fromNode: Json, fromSlot: Json, toNode: Json, toSlot: Json,
                           outputs: seq<Json>, inputs: seq<Json>)
    requires fromNode.JObject? && toNode.JObject?
    requires Hashable(Get(fromNode, "type", JString("unknown")).value)
    requires Get(InfoGet(info, Get(fromNode, "type", JString("unknown")).value, JObject([])).value, "output", JList([]))
             == Ok(JList(outputs))
    requires Get(toNode, "inputs", JList([])) == Ok(JList(inputs))
    requires fromSlot.JInt? && toSlot.JInt?
    ensures var fromType := Get(fromNode, "type", JString("unknown")).value;
      fromSlot.i >= |outputs| ==> ValidateConnection(info, fromNode, fromSlot, toNode, toSlot) == Ok(Some(NoOutputSlot(fromSlot, fromType)))
    ensures var toType := Get(toNode, "type", JString("unknown")).value;
      0 <= fromSlot.i < |outputs| && toSlot.i >= |inputs| ==>
        ValidateConnection(info, fromNode, fromSlot, toNode, toSlot) == Ok(Some(NoInputSlot(toSlot, toType)))
    ensures 0 <= fromSlot.i < |outputs| && 0 <= toSlot.i < |inputs| && inputs[toSlot.i].JObject? ==>
      var r := ValidateConnection(info, fromNode, fromSlot, toNode, toSlot);
      var outputType := outputs[fromSlot.i];
      var targetType := Get(inputs[toSlot.i], "type", JString("unknown")).value;
      && (r == Ok(None) <==> Accepts(outputType, targetType))
      && (targetType.JString? && !Accepts(outputType, targetType) ==>
            r == Ok(Some(TypeMismatch(Get(fromNode, "type", JString("unknown")).value, outputType,
                                      Get(toNode, "type", JString("unknown")).value, targetType))))
  {
    var fromType := Get(fromNode, "type", JString("unknown")).value;
    var fromSchema := InfoGet(info, fromType, JObject([]));
    assert fromSchema.Ok?;
    assert PyLen(JList(outputs)) == Ok(|outputs|);
    assert PyAtLeast(fromSlot, |outputs|) == Ok(fromSlot.i >= |outputs|);
    if 0 <= fromSlot.i < |outputs| {
      assert Subscript(JList(outputs), fromSlot) == Ok(outputs[fromSlot.i]);
      assert PyLen(JList(inputs)) == Ok(|inputs|);
      assert PyAtLeast(toSlot, |inputs|) == Ok(toSlot.i >= |inputs|);
      if 0 <= toSlot.i < |inputs| {
        assert Subscript(JList(inputs), toSlot) == Ok(inputs[toSlot.i]);
      }
    }
  }

  /** The graph-phase errors of one link. */
  function LinkErrors(info: ObjectInfo, byId: seq<(Json, Json)>, link: Json): (r: Outcome<seq<ValidationError>>)
    ensures !link.JList? || |link.items| < 6 ==> r == Ok([])
    ensures r.Ok? ==> |r.value| <= 1
    ensures link.JList? && |link.items| >= 6 && Hashable(link.items[1]) && NodeLookup(byId, link.items[1]).None? ==>
      r == Ok([ValidationError(link.items[1], JString("unknown"), MissingSource(link.items[0], link.items[1]), Graph)])
    ensures (link.JList? && |link.items| >= 6 && Hashable(link.items[1]) && NodeLookup(byId, link.items[1]).Some?
             && Hashable(link.items[3]) && NodeLookup(byId, link.items[3]).None?) ==>
      r == Ok([ValidationError(link.items[3], JString("unknown"), MissingTarget(link.items[0], link.items[3]), Graph)])
  {
    if !link.JList? || |link.items| < 6 then Ok([])
    else
      var linkId := link.items[0];
      var fromNode := link.items[1];
      var fromSlot := link.items[2];
      var toNode := link.items[3];
      var toSlot := link.items[4];
      var hasFrom :- HasNode(byId, fromNode);
      if !hasFrom then Ok([ValidationError(fromNode, JString("unknown"), MissingSource(linkId, fromNode), Graph)])
      else
        var hasTo :- HasNode(byId, toNode);
        if !hasTo then Ok([ValidationError(toNode, JString("unknown"), MissingTarget(linkId, toNode), Graph)])
        else
          var fromObj := NodeLookup(byId, fromNode).value;
          var toObj := NodeLookup(byId, toNode).value;
          var fromType :- Get(fromObj, "type", JString("unknown"));
          var toType :- Get(toObj, "type", JString("unknown"));
          var fromKnown :- KeyIn(fromType, info);
          if !fromKnown then Ok([])
          else
            var toKnown :- KeyIn(toType, info);
            if !toKnown then Ok([])
            else
              var error :- ValidateConnection(info, fromObj, fromSlot, toObj, toSlot);
              Ok(if error.Some? then [ValidationError(toNode, toType, error.value, Graph)] else [])
  }

  /** The type check of a link runs only when both endpoint node types are known. */
  lemma TypeCheckNeedsKnownTypes(info: ObjectInfo, byId: seq<(Json, Json)>, link: Json)
    requires LinkErrors(info, byId, link).Ok? && |LinkErrors(info, byId, link).value| == 1
    requires !LinkErrors(info, byId, link).value[0].message.MissingSource?
    requires !LinkErrors(info, byId, link).value[0].message.MissingTarget?
    ensures link.JList? && |link.items| >= 6
    ensures NodeLookup(byId, link.items[1]).Some? && NodeLookup(byId, link.items[3]).Some?
    ensures var fromType := Get(NodeLookup(byId, link.items[1]).value, "type", JString("unknown"));
      var toType := Get(NodeLookup(byId, link.items[3]).value, "type", JString("unknown"));
      fromType.Ok? && fromType.value.JString? && DictLookup(info, fromType.value.s).Some?
      && toType.Ok? && toType.value.JString? && DictLookup(info, toType.value.s).Some?
  {
  }

  function GraphPhase(info: ObjectInfo, workflow: Json): Outcome<seq<ValidationError>>
  {
    var nodesValue :- Get(workflow, "nodes", JList([]));
    var linksValue := Get(workflow, "links", JList([])).value;
    var nodes :- Iter(nodesValue);
    var byId :- NodesById(nodes);
    var links :- Iter(linksValue);
    Collect(info, GraphPass(byId), links)
  }

  /** `_validate_graph`: indexes the nodes by id, then checks every link in order. */
  method ValidateGraph(info: ObjectInfo, workflow: Json) returns (r: Outcome<seq<ValidationError>>)
    ensures r == GraphPhase(info, workflow)
  {
    var nodesValue :- Get(workflow, "nodes", JList([]));
    var linksValue := Get(workflow, "links", JList([])).value;
    var nodes :- Iter(nodesValue);
    var byId :- NodesById(nodes);
    var links :- Iter(linksValue);
    var errors: seq<ValidationError> := [];
    var i := 0;
    while i < |links|
      invariant 0 <= i <= |links|
      invariant Collect(info, GraphPass(byId), links[..i]) == Ok(errors)
    {
      CollectItemRaise(info, GraphPass(byId), links, i, errors);
      var linkErrors :- LinkErrors(info, byId, links[i]);
      errors := errors + linkErrors;
      i := i + 1;
    }
    assert links[..i] == links;
    return Ok(errors);
  }

  // ----- introspection phase -------------------------------------------------

  function OutputErrors(outputs: Json, outputNames: Json): (r: Outcome<seq<Message>>)
    ensures !outputs.JList? ==> r == Ok([OutputNotList(TypeName(outputs))])
    ensures outputs.JList? && !Truthy(outputNames) ==> r == Ok([])
    ensures outputs.JList? && outputNames.JList? && outputNames.items != [] ==>
      r == (if |outputs.items| != |outputNames.items|
            then Ok([OutputNameMismatch(|outputs.items|, |outputNames.items|)]) else Ok([]))
    ensures r.Ok? ==> forall m <- r.value :: m.OutputNotList? || m.OutputNameMismatch?
  {
    if !outputs.JList? then Ok([OutputNotList(TypeName(outputs))])
    else if !Truthy(outputNames) then Ok([])
    else
      var names :- PyLen(outputNames);
      if |outputs.items| != names then Ok([OutputNameMismatch(|outputs.items|, names)]) else Ok([])
  }

  function AtNode(nodeId: Json, nodeType: Json, ms: seq<Message>, level: Phase): (r: seq<ValidationError>)
    ensures |r| == |ms|
    ensures forall k :: 0 <= k < |ms| ==> r[k] == ValidationError(nodeId, nodeType, ms[k], level)
  {
    if ms == [] then [] else [ValidationError(nodeId, nodeType, ms[0], level)] + AtNode(nodeId, nodeType, ms[1..], level)
  }

  /** The shape checks of one known node's schema. */
  function SchemaShapeErrors(schema: Json): (r: Outcome<seq<Message>>)
    ensures r.Ok? ==> schema.JObject?
  {
    var inputs :- Get(schema, "input", JObject([]));
    if !inputs.JObject? then Ok([InputNotDict(TypeName(inputs))])
    else
      var required := Get(inputs, "required", JObject([])).value;
      var optional := Get(inputs, "optional", JObject([])).value;
      var outputErrors :- OutputErrors(Get(schema, "output", JList([])).value,
                                       Get(schema, "output_name", JList([])).value);
      Ok(ShapeMessages(required, optional, outputErrors, Get(schema, "name", JNull).value))
  }

  /**
   * The messages of a schema whose `input` is a mapping: `required` and
   * `optional` are reported exactly when they are truthy non-mappings, a
   * missing function exactly when `name` is falsy; the output messages come
   * between them, and the input message never appears.
   */
  function ShapeMessages(required: Json, optional: Json, outputErrors: seq<Message>, name: Json): (r: seq<Message>)
    requires forall m <- outputErrors :: m.OutputNotList? || m.OutputNameMismatch?
    ensures RequiredNotDict in r <==> Truthy(required) && !required.JObject?
    ensures OptionalNotDict in r <==> Truthy(optional) && !optional.JObject?
    ensures NoFunction in r <==> !Truthy(name)
    ensures forall m <- r :: !m.InputNotDict?
    ensures forall m <- outputErrors :: m in r
  {
    var a := if Truthy(required) && !required.JObject? then [RequiredNotDict] else [];
    var b := if Truthy(optional) && !optional.JObject? then [OptionalNotDict] else [];
    var c := if !Truthy(name) then [NoFunction] else [];
    assert forall m :: m in a + b + outputErrors + c <==> m in a || m in b || m in outputErrors || m in c;
    a + b + outputErrors + c
  }

  /** A schema whose `input` is not a mapping yields that one message and no other. */
  lemma SchemaShapeInputNotDict(schema: Json)
    requires schema.JObject? && !Get(schema, "input", JObject([])).value.JObject?
    ensures SchemaShapeErrors(schema) == Ok([InputNotDict(TypeName(Get(schema, "input", JObject([])).value))])
  {
  }

  /** One node in the introspection phase: unknown types are skipped. */
  function NodeIntrospectionErrors(info: ObjectInfo, node: Json): (r: Outcome<seq<ValidationError>>)
    ensures node.JObject? ==>
      var t := Get(node, "type", JString("unknown")).value;
      Hashable(t) && !(t.JString? && DictLookup(info, t.s).Some?) ==> r == Ok([])
  {
    var nodeId :- Get(node, "id", JInt(0));
    var nodeType := Get(node, "type", JString("unknown")).value;
    var known :- KeyIn(nodeType, info);
    if !known then Ok([])
    else
      var shape :- SchemaShapeErrors(DictLookup(info, nodeType.s).value);
      Ok(AtNode(nodeId, nodeType, shape, Introspection))
  }

  function IntrospectionPhase(info: ObjectInfo, workflow: Json): Outcome<seq<ValidationError>>
  {
    var nodesValue :- Get(workflow, "nodes", JList([]));
    var nodes :- Iter(nodesValue);
    Collect(info, IntrospectionPass, nodes)
  }

  /** `_validate_introspection`: checks the schema shape of every node of a known type. */
  method ValidateIntrospection(info: ObjectInfo, workflow: Json) returns (r: Outcome<seq<ValidationError>>)
    ensures r == IntrospectionPhase(info, workflow)
  {
    var nodesValue :- Get(workflow, "nodes", JList([]));
    var nodes :- Iter(nodesValue);
    var errors: seq<ValidationError> := [];
    var i := 0;
    while i < |nodes|
      invariant 0 <= i <= |nodes|
      invariant Collect(info, IntrospectionPass, nodes[..i]) == Ok(errors)
    {
      CollectItemRaise(info, IntrospectionPass, nodes, i, errors);
      var nodeErrors :- NodeIntrospectionErrors(info, nodes[i]);
      errors := errors + nodeErrors;
      i := i + 1;
    }
    assert nodes[..i] == nodes;
    return Ok(errors);
  }

  // ----- the three phases together ------------------------------------------

  /**
   * `validate`: runs the schema, graph and introspection phases in that
   * order and concatenates their errors; no warnings are ever added. The
   * first exception raised by a phase propagates.
   */
  method Validate(info: ObjectInfo, workflow: Json) returns (r: Outcome<ValidationResult>)
    ensures r == ValidateSpec(info, workflow)
  {
    var schema := ValidateSchema(info, workflow);
    if schema.Raised? {
      return Raised(schema.exc);
    }
    var errors := schema.value;
    var graph := ValidateGraph(info, workflow);
    if graph.Raised? {
      return Raised(graph.exc);
    }
    errors := errors + graph.value;
    var introspection := ValidateIntrospection(info, workflow);
    if introspection.Raised? {
      return Raised(introspection.exc);
    }
    errors := errors + introspection.value;
    return Ok(ValidationResult(errors, []));
  }

  /** The result of `validate` from the outcomes of its three phases. */
  function Combine(s: Outcome<seq<ValidationError>>, g: Outcome<seq<ValidationError>>,
                   i: Outcome<seq<ValidationError>>): Outcome<ValidationResult>
  {
    var se :- s;
    var ge :- g;
    var ie :- i;
    Ok(ValidationResult(se + ge + ie, []))
  }

  function ValidateSpec(info: ObjectInfo, workflow: Json): Outcome<ValidationResult>
  {
    Combine(SchemaPhase(info, workflow), GraphPhase(info, workflow), IntrospectionPhase(info, workflow))
  }

  /**
   * What `validate` promises: it succeeds exactly when every phase does, the
   * errors are the phases' errors in phase order, no warning is ever added,
   * the workflow is valid exactly when no phase found an error, and an
   * exception comes from the first phase that raised.
   */
  lemma ValidateCombinesPhases(info: ObjectInfo, workflow: Json)
    ensures var r := ValidateSpec(info, workflow);
      && (r.Ok? <==> SchemaPhase(info, workflow).Ok? && GraphPhase(info, workflow).Ok?
                     && IntrospectionPhase(info, workflow).Ok?)
      && (r.Ok? ==> r.value.warnings == [])
      && (r.Ok? ==> (r.value.errors ==
            SchemaPhase(info, workflow).value + GraphPhase(info, workflow).value
            + IntrospectionPhase(info, workflow).value))
      && (r.Ok? ==> (r.value.IsValid() <==>
            SchemaPhase(info, workflow).value == [] && GraphPhase(info, workflow).value == []
            && IntrospectionPhase(info, workflow).value == []))
      && (r.Raised? ==> (r.exc ==
            if SchemaPhase(info, workflow).Raised? then SchemaPhase(info, workflow).exc
            else if GraphPhase(info, workflow).Raised? then GraphPhase(info, workflow).exc
            else IntrospectionPhase(info, workflow).exc))
  {
  }

  // ----- what reaches the caller ----------------------------------------------

  predicate IsInputShapeMessage(m: Message)
  {
    m.InputNotDict? || m.RequiredNotDict? || m.OptionalNotDict?
  }

  /**
   * A node whose introspection reports a malformed `input`, `required` or
   * `optional` makes the schema phase raise on that same node: the widget
   * walk calls `.get` on the non-mapping `input`, or unpacks the non-mapping
   * `required`/`optional` with `**`.
   */
  lemma ShapeErrorMeansSchemaRaises(info: ObjectInfo, node: Json, e: ValidationError)
    requires NodeIntrospectionErrors(info, node).Ok? && e in NodeIntrospectionErrors(info, node).value
    requires IsInputShapeMessage(e.message)
    ensures NodeSchemaErrors(info, node).Raised?
  {
    var nodeType := Get(node, "type", JString("unknown")).value;
    var schema := DictLookup(info, nodeType.s).value;
    var shape := SchemaShapeErrors(schema).value;
    var nodeId := Get(node, "id", JInt(0)).value;
    var k :| 0 <= k < |AtNode(nodeId, nodeType, shape, Introspection)| && AtNode(nodeId, nodeType, shape, Introspection)[k] == e;
    assert e.message in shape;
    assert WidgetSetup(node, schema).Raised?;
  }

  /**
   * As written, `validate` can never return the introspection messages about
   * a malformed `input`, `required` or `optional`: whenever introspection
   * would produce one, the schema phase has already raised.
   */
  lemma InputShapeErrorsNeverReported(info: ObjectInfo, workflow: Json)
    requires ValidateSpec(info, workflow).Ok?
    ensures IntrospectionPhase(info, workflow).Ok?
    ensures forall e <- IntrospectionPhase(info, workflow).value :: !IsInputShapeMessage(e.message)
  {
    forall e | e in IntrospectionPhase(info, workflow).value && IsInputShapeMessage(e.message)
      ensures false
    {
      var nodes := Iter(Get(workflow, "nodes", JList([])).value).value;
      CollectedErrorHasSource(info, IntrospectionPass, nodes, e);
      var k :| 0 <= k < |nodes| && ItemErrors(info, IntrospectionPass, nodes[k]).Ok?
        && e in ItemErrors(info, IntrospectionPass, nodes[k]).value;
      ShapeErrorMeansSchemaRaises(info, nodes[k], e);
      CollectRaisesIfAnyItemRaises(info, SchemaPass, nodes, k);
    }
  }
}
