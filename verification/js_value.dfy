/** JavaScript values as they appear in request and response bodies: the JSON
    values plus `undefined`, with the truthiness rule that `||` and `!` use, the
    `a || b` operator itself, property reads, and string conversion. */
module JsValue {
  import opened Base
  import JsText
  import JsNumber

  /** A JavaScript value. Numbers are integers here; `Obj` is a plain object
      given by its own enumerable properties. */
  datatype Value =
    | Undefined
    | Null
    | Bool(b: bool)
    | Num(n: int)
    | Str(s: string)
    | Arr(elems: seq<Value>)
    | Obj(fields: map<string, Value>)

  /** ToBoolean: `undefined`, `null`, `false`, `0` and `""` are falsy; every
      other value, including empty arrays and objects, is truthy. */
  predicate Truthy(v: Value)
  {
    match v
    case Undefined => false
    case Null => false
    case Bool(b) => b
    case Num(n) => n != 0
    case Str(s) => s != ""
    case Arr(_) => true
    case Obj(_) => true
  }

  /** `a || b`: the left operand when it is truthy, else the right one. */
  function Or(a: Value, b: Value): (r: Value)
    ensures Truthy(r) <==> Truthy(a) || Truthy(b)
    ensures r == a || r == b
    ensures Truthy(a) ==> r == a
    ensures !Truthy(a) ==> r == b
  {
    if Truthy(a) then a else b
  }

  /** Reading `v[key]`: `None` when `v` is `null` or `undefined` (a TypeError in
      JavaScript); a missing own property reads as `undefined`. Primitives and
      arrays have no own property of the names the model reads. */
  function Property(v: Value, key: string): (r: Option<Value>)
    ensures r.None? <==> v == Null || v == Undefined
    ensures v.Obj? && key in v.fields ==> r == Some(v.fields[key])
    ensures v.Obj? && key !in v.fields ==> r == Some(Undefined)
  {
    match v
    case Undefined => None
    case Null => None
    case Obj(fields) => Some(if key in fields then fields[key] else Undefined)
    case _ => Some(Undefined)
  }

  /** Converting `v` to a string throws a `TypeError`. A JSON object with its
      own `toString` field hides the inherited method behind a value that
      cannot be called, and `valueOf` gives back the object itself, so no
      primitive is found. An array converts each element that is not `null` or
      `undefined`, so one such element anywhere inside makes the array throw. */
  predicate ToStringThrows(v: Value)
  {
    match v
    case Obj(fields) => "toString" in fields
    case Arr(elems) => exists i :: 0 <= i < |elems| && ToStringThrows(elems[i])
    case _ => false
  }

  /** ToString, as `new Error(message)` applies it to its argument; `None` is
      the `TypeError` it throws. Arrays are joined with commas. */
  function ToString(v: Value): (r: Option<string>)
    ensures r.None? <==> ToStringThrows(v)
    ensures v == Undefined ==> r == Some("undefined")
    ensures v == Null ==> r == Some("null")
    ensures v.Bool? ==> r == Some(if v.b then "true" else "false")
    ensures v.Num? ==> r.Some? && JsNumber.ParseInt(r.value) == Some(v.n)
    ensures v.Str? ==> r == Some(v.s)
    ensures v.Obj? && "toString" !in v.fields ==> r == Some("[object Object]")
    ensures v.Arr? && v.elems == [] ==> r == Some("")
    ensures v.Arr? && r.Some? ==>
      ElementTexts(v.elems).Some? && r.value == JsText.Join(ElementTexts(v.elems).value, ',')
    decreases v, 1
  {
    match v
    case Undefined => Some("undefined")
    case Null => Some("null")
    case Bool(b) => Some(if b then "true" else "false")
    case Num(n) => JsNumber.ParseIntToString(n); Some(JsNumber.IntToString(n))
    case Str(s) => Some(s)
    case Arr(elems) =>
      var texts := ElementTexts(elems);
      if texts.None? then None else Some(JsText.Join(texts.value, ','))
    case Obj(fields) => if "toString" in fields then None else Some("[object Object]")
  }

  /** The text `join` puts in for one array element: `null` and `undefined`
      become empty, anything else is converted. */
  function ElementText(e: Value): (r: Option<string>)
    ensures r.None? <==> ToStringThrows(e)
    decreases e, 2
  {
    if e == Null || e == Undefined then Some("") else ToString(e)
  }

  /** The texts of all elements, or `None` as soon as one of them throws. */
  function ElementTexts(elems: seq<Value>): (r: Option<seq<string>>)
    ensures r.None? <==> exists i :: 0 <= i < |elems| && ToStringThrows(elems[i])
    ensures r.Some? ==> |r.value| == |elems|
    ensures r.Some? ==> forall i :: 0 <= i < |elems| ==> ElementText(elems[i]) == Some(r.value[i])
    decreases elems, 0
  {
    if elems == [] then Some([])
    else
      match (ElementText(elems[0]), ElementTexts(elems[1..]))
      case (Some(t), Some(ts)) =>
        assert forall i :: 1 <= i < |elems| ==> elems[1..][i - 1] == elems[i];
        Some([t] + ts)
      case (None, _) => None
      case (_, None) =>
        assert forall i :: 1 <= i < |elems| ==> elems[1..][i - 1] == elems[i];
        None
  }

  /** The string form of a non-empty array of strings without commas splits
      back, at the commas, into exactly those strings. */
  lemma ArrayOfStringsSplitsBack(ss: seq<string>)
    requires |ss| > 0 && forall i :: 0 <= i < |ss| ==> ',' !in ss[i]
    ensures var r := ToString(Arr(seq(|ss|, i requires 0 <= i < |ss| => Str(ss[i]))));
      r.Some? && JsText.Split(r.value, ',') == ss
  {
    var elems := seq(|ss|, i requires 0 <= i < |ss| => Str(ss[i]));
    var texts := ElementTexts(elems);
    assert forall i :: 0 <= i < |elems| ==> ElementText(elems[i]) == Some(ss[i]);
    assert texts.Some? && texts.value == ss;
    JsText.SplitJoin(ss, ',');
  }
}
