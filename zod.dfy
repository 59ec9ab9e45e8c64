/**
 * The subset of zod the contracts use: schemas are values and `Parse` is
 * `schema.safeParse`. A value is `None` when it is `undefined` (an object key
 * that is not there).
 */
module Zod {
  import opened Wrappers
  import opened Js

  /** Refinements of `z.string()`; `min` compares the JavaScript length (UTF-16 code units). */
  datatype StringCheck = MinLength(min: nat) | Uuid | Email | Datetime

  datatype Schema =
    | ZString(checks: seq<StringCheck>)                          // z.string()...
    | ZNumber(isInt: bool, min: Option<int>, max: Option<int>)   // z.number().int().min().max()
    | ZBoolean                                                   // z.boolean()
    | ZEnum(values: seq<string>)                                 // z.enum([...])
    | ZRecordAny                                                 // z.record(z.any())
    | ZObject(shape: seq<(string, Schema)>)                      // z.object({...}), unknown keys stripped
    | ZArray(element: Schema)                                    // z.array(...)
    | ZOptional(inner: Schema)                                   // .optional()
    | ZNullable(inner: Schema)                                   // .nullable()
    | ZDefault(inner: Schema, default: Json)                     // .default(value)

  /** zod reports a list of issues; the model keeps only that there were some. */
  datatype ZodError = ZodError

  function CheckHolds(f: Formats, c: StringCheck, s: string): bool {
    match c
    case MinLength(m) => Utf16Length(s) >= m
    case Uuid => f.isUuid(s)
    case Email => f.isEmail(s)
    case Datetime => f.isDatetime(s)
  }

  predicate StringOk(f: Formats, checks: seq<StringCheck>, s: string) {
    forall i :: 0 <= i < |checks| ==> CheckHolds(f, checks[i], s)
  }

  /** `Number.isInteger`, and inclusive bounds. */
  predicate NumberOk(isInt: bool, min: Option<int>, max: Option<int>, r: real) {
    && (isInt ==> r == r.Floor as real)
    && (min.Some? ==> r >= min.value as real)
    && (max.Some? ==> r <= max.value as real)
  }

  /** `schema.safeParse(v)`: the parsed value, or the fact that it failed. */
  function Parse(f: Formats, s: Schema, v: Option<Json>): Result<Option<Json>, ZodError>
    decreases s, 1
  {
    match s
    case ZString(checks) =>
      if v.Some? && v.value.JStr? && StringOk(f, checks, v.value.s) then Success(v) else Failure(ZodError)
    case ZNumber(isInt, min, max) =>
      if v.Some? && v.value.JNum? && NumberOk(isInt, min, max, v.value.n) then Success(v) else Failure(ZodError)
    case ZBoolean =>
      if v.Some? && v.value.JBool? then Success(v) else Failure(ZodError)
    case ZEnum(values) =>
      if v.Some? && v.value.JStr? && v.value.s in values then Success(v) else Failure(ZodError)
    case ZRecordAny =>
      if v.Some? && v.value.JObj? then Success(v) else Failure(ZodError)
    case ZObject(shape) =>
      if v.Some? && v.value.JObj? then
        match ParseShape(f, s, 0, v.value.fields)
        case Success(out) => Success(Some(JObj(out)))
        case Failure(e) => Failure(e)
      else Failure(ZodError)
    case ZArray(element) =>
      if v.Some? && v.value.JArr? then
        match ParseItems(f, element, v.value.items)
        case Success(out) => Success(Some(JArr(out)))
        case Failure(e) => Failure(e)
      else Failure(ZodError)
    case ZOptional(inner) =>
      if v.None? then Success(None) else Parse(f, inner, v)
    case ZNullable(inner) =>
      if v == Some(JNull) then Success(v) else Parse(f, inner, v)
    case ZDefault(inner, d) =>
      if v.None? then Parse(f, inner, Some(d)) else Parse(f, inner, v)
  }

  /**
   * The fields of a parsed object from the i-th entry of the shape on, in
   * the order of the shape; a key whose parsed value is `undefined` is left
   * out.
   */
  function ParseShape(f: Formats, s: Schema, i: nat, input: JsObject): Result<JsObject, ZodError>
    requires s.ZObject? && i <= |s.shape|
    decreases s, 0, |s.shape| - i
  {
    if i == |s.shape| then Success([])
    else
      assert s.shape[i] in s.shape;
      var head := Parse(f, s.shape[i].1, Lookup(input, s.shape[i].0));
      var rest := ParseShape(f, s, i + 1, input);
      if head.Failure? || rest.Failure? then Failure(ZodError)
      else Success((if head.value.Some? then [(s.shape[i].0, head.value.value)] else []) + rest.value)
  }

  function ParseItems(f: Formats, element: Schema, items: seq<Json>): Result<seq<Json>, ZodError>
    decreases element, 2, |items|
  {
    if |items| == 0 then Success([])
    else
      var head := Parse(f, element, Some(items[0]));
      var rest := ParseItems(f, element, items[1..]);
      if head.Failure? || rest.Failure? || head.value.None? then Failure(ZodError)
      else Success([head.value.value] + rest.value)
  }

  /** No other entry of the shape has the key of entry j. */
  predicate UniqueKey(shape: seq<(string, Schema)>, j: nat)
    requires j < |shape|
  {
    forall k :: 0 <= k < |shape| && k != j ==> shape[k].0 != shape[j].0
  }

  /** The field of `input` named by the i-th entry of the shape, parsed by that entry's schema. */
  function FieldResult(f: Formats, shape: seq<(string, Schema)>, i: nat, input: JsObject): Result<Option<Json>, ZodError>
    requires i < |shape|
  {
    assert shape[i] in shape;
    Parse(f, shape[i].1, Lookup(input, shape[i].0))
  }

  /** An object parses exactly when every field of the shape parses. */
  lemma {:induction false} ParseShapeSuccess(f: Formats, s: Schema, i: nat, input: JsObject)
    requires s.ZObject? && i <= |s.shape|
    ensures ParseShape(f, s, i, input).Success? <==>
      forall j :: i <= j < |s.shape| ==> FieldResult(f, s.shape, j, input).Success?
    decreases |s.shape| - i
  {
    if i < |s.shape| {
      ParseShapeSuccess(f, s, i + 1, input);
      if !FieldResult(f, s.shape, i, input).Success? {
      } else if !ParseShape(f, s, i + 1, input).Success? {
        var k :| i + 1 <= k < |s.shape| && !FieldResult(f, s.shape, k, input).Success?;
      }
    }
  }

  /** An object schema accepts exactly the objects each of whose fields its entry accepts. */
  lemma ObjectAccepts(f: Formats, s: Schema, v: Json)
    requires s.ZObject?
    ensures Parse(f, s, Some(v)).Success? <==>
      v.JObj? && forall j :: 0 <= j < |s.shape| ==> FieldResult(f, s.shape, j, v.fields).Success?
  {
    if v.JObj? {
      ParseShapeSuccess(f, s, 0, v.fields);
    }
  }

  /** Every key of a parsed object comes from the shape. */
  lemma {:induction false} ParseShapeKeys(f: Formats, s: Schema, i: nat, input: JsObject)
    requires s.ZObject? && i <= |s.shape|
    requires ParseShape(f, s, i, input).Success?
    ensures forall p :: p in ParseShape(f, s, i, input).value ==> exists j :: i <= j < |s.shape| && s.shape[j].0 == p.0
    decreases |s.shape| - i
  {
    if i < |s.shape| {
      ParseShapeKeys(f, s, i + 1, input);
    }
  }

  /** Each field of a parsed object is the parsed value of that field of the input. */
  lemma {:induction false} ParseShapeLookup(f: Formats, s: Schema, i: nat, input: JsObject, j: nat)
    requires s.ZObject? && i <= j < |s.shape| && UniqueKey(s.shape, j)
    requires ParseShape(f, s, i, input).Success?
    ensures FieldResult(f, s.shape, j, input).Success?
    ensures Lookup(ParseShape(f, s, i, input).value, s.shape[j].0) == FieldResult(f, s.shape, j, input).value
    decreases |s.shape| - i
  {
    var shape := s.shape;
    var restOut := ParseShape(f, s, i + 1, input).value;
    var head := FieldResult(f, shape, i, input).value;
    var prefix: JsObject := if head.Some? then [(shape[i].0, head.value)] else [];
    assert ParseShape(f, s, i, input).value == prefix + restOut;
    LookupConcat(prefix, restOut, shape[j].0);
    if j == i {
      ParseShapeKeys(f, s, i + 1, input);
      assert Lookup(restOut, shape[i].0).None?;
    } else {
      assert shape[i].0 != shape[j].0;
      ParseShapeLookup(f, s, i + 1, input, j);
    }
  }

  /** A required string field meeting the checks. */
  predicate RequiredString(f: Formats, checks: seq<StringCheck>, o: Option<Json>) {
    o.Some? && o.value.JStr? && StringOk(f, checks, o.value.s)
  }

  /** Absent, or a string meeting the checks. */
  predicate OptionalString(f: Formats, checks: seq<StringCheck>, o: Option<Json>) {
    o.None? || RequiredString(f, checks, o)
  }

  /** Null, or a string meeting the checks. */
  predicate NullableString(f: Formats, checks: seq<StringCheck>, o: Option<Json>) {
    o == Some(JNull) || RequiredString(f, checks, o)
  }

  /** Absent, null, or a string meeting the checks. */
  predicate OptionalNullableString(f: Formats, checks: seq<StringCheck>, o: Option<Json>) {
    o.None? || NullableString(f, checks, o)
  }

  /** Absent and the default meets the checks, or a string meeting them. */
  predicate DefaultedString(f: Formats, checks: seq<StringCheck>, default: string, o: Option<Json>) {
    if o.None? then StringOk(f, checks, default) else RequiredString(f, checks, o)
  }

  /** A number meeting the integer and bound checks. */
  predicate RequiredNumber(isInt: bool, min: Option<int>, max: Option<int>, o: Option<Json>) {
    o.Some? && o.value.JNum? && NumberOk(isInt, min, max, o.value.n)
  }

  predicate OptionalNumber(isInt: bool, min: Option<int>, max: Option<int>, o: Option<Json>) {
    o.None? || RequiredNumber(isInt, min, max, o)
  }

  predicate OptionalNullableNumber(isInt: bool, min: Option<int>, max: Option<int>, o: Option<Json>) {
    o.None? || o == Some(JNull) || RequiredNumber(isInt, min, max, o)
  }

  predicate InEnum(values: seq<string>, o: Option<Json>) {
    o.Some? && o.value.JStr? && o.value.s in values
  }

  predicate IsBoolean(o: Option<Json>) {
    o.Some? && o.value.JBool?
  }

  /** An object (not null, not an array). */
  predicate IsRecord(o: Option<Json>) {
    o.Some? && o.value.JObj?
  }

  lemma RequiredStringField(f: Formats, checks: seq<StringCheck>, o: Option<Json>)
    ensures Parse(f, ZString(checks), o).Success? <==> RequiredString(f, checks, o)
  {
  }

  lemma OptionalStringField(f: Formats, checks: seq<StringCheck>, o: Option<Json>)
    ensures Parse(f, ZOptional(ZString(checks)), o).Success? <==> OptionalString(f, checks, o)
  {
  }

  lemma NullableStringField(f: Formats, checks: seq<StringCheck>, o: Option<Json>)
    ensures Parse(f, ZNullable(ZString(checks)), o).Success? <==> NullableString(f, checks, o)
  {
  }

  lemma OptionalNullableStringField(f: Formats, checks: seq<StringCheck>, o: Option<Json>)
    ensures Parse(f, ZOptional(ZNullable(ZString(checks))), o).Success? <==> OptionalNullableString(f, checks, o)
  {
    if o.Some? {
      NullableStringField(f, checks, o);
    }
  }

  /** A defaulted string: an absent value is replaced by the default, which must pass the checks itself. */
  lemma DefaultedStringField(f: Formats, checks: seq<StringCheck>, default: string, o: Option<Json>)
    ensures Parse(f, ZDefault(ZString(checks), JStr(default)), o).Success? <==> DefaultedString(f, checks, default, o)
    ensures o.None? && StringOk(f, checks, default) ==>
      Parse(f, ZDefault(ZString(checks), JStr(default)), o) == Success(Some(JStr(default)))
  {
  }

  lemma RequiredNumberField(isInt: bool, min: Option<int>, max: Option<int>, f: Formats, o: Option<Json>)
    ensures Parse(f, ZNumber(isInt, min, max), o).Success? <==> RequiredNumber(isInt, min, max, o)
  {
  }

  lemma OptionalNumberField(isInt: bool, min: Option<int>, max: Option<int>, f: Formats, o: Option<Json>)
    ensures Parse(f, ZOptional(ZNumber(isInt, min, max)), o).Success? <==> OptionalNumber(isInt, min, max, o)
  {
  }

  lemma OptionalNullableNumberField(isInt: bool, min: Option<int>, max: Option<int>, f: Formats, o: Option<Json>)
    ensures Parse(f, ZOptional(ZNullable(ZNumber(isInt, min, max))), o).Success? <==> OptionalNullableNumber(isInt, min, max, o)
  {
    if o.Some? {
      assert Parse(f, ZNullable(ZNumber(isInt, min, max)), o).Success? <==> o == Some(JNull) || RequiredNumber(isInt, min, max, o);
    }
  }

  /** A defaulted number: an absent value is replaced by the default, which meets the bounds itself. */
  lemma DefaultNumberField(isInt: bool, min: Option<int>, max: Option<int>, d: real, f: Formats, o: Option<Json>)
    requires NumberOk(isInt, min, max, d)
    ensures Parse(f, ZDefault(ZNumber(isInt, min, max), JNum(d)), o).Success? <==> OptionalNumber(isInt, min, max, o)
    ensures o.None? ==> Parse(f, ZDefault(ZNumber(isInt, min, max), JNum(d)), o) == Success(Some(JNum(d)))
    ensures o.Some? && Parse(f, ZDefault(ZNumber(isInt, min, max), JNum(d)), o).Success? ==>
      Parse(f, ZDefault(ZNumber(isInt, min, max), JNum(d)), o) == Success(o)
  {
  }

  /** The value a defaulted number field parses to: the default when absent, the value itself otherwise. */
  lemma DefaultNumberOutput(isInt: bool, min: Option<int>, max: Option<int>, d: real, f: Formats, o: Option<Json>)
    requires NumberOk(isInt, min, max, d)
    requires Parse(f, ZDefault(ZNumber(isInt, min, max), JNum(d)), o).Success?
    ensures var out := Parse(f, ZDefault(ZNumber(isInt, min, max), JNum(d)), o).value;
      && RequiredNumber(isInt, min, max, out)
      && (o.None? ==> out == Some(JNum(d)))
  {
  }

  /** A schema that, when it accepts a value, returns it unchanged. */
  predicate Preserving(t: Schema) {
    match t
    case ZString(_) => true
    case ZNumber(_, _, _) => true
    case ZBoolean => true
    case ZEnum(_) => true
    case ZRecordAny => true
    case ZOptional(inner) => Preserving(inner)
    case ZNullable(inner) => Preserving(inner)
    case _ => false
  }

  lemma PreservingParse(f: Formats, t: Schema, o: Option<Json>)
    requires Preserving(t) && Parse(f, t, o).Success?
    ensures Parse(f, t, o).value == o
  {
  }

  /** The j-th field of a parsed object whose schema preserves values is the input's own field. */
  lemma PreservedAt(f: Formats, s: Schema, v: Json, j: nat)
    requires s.ZObject? && j < |s.shape| && UniqueKey(s.shape, j) && Preserving(s.shape[j].1)
    requires Parse(f, s, Some(v)).Success?
    ensures v.JObj? && Parse(f, s, Some(v)).value.Some? && Parse(f, s, Some(v)).value.value.JObj?
    ensures Lookup(Parse(f, s, Some(v)).value.value.fields, s.shape[j].0) == Lookup(v.fields, s.shape[j].0)
  {
    ParseShapeLookup(f, s, 0, v.fields, j);
    assert s.shape[j] in s.shape;
    PreservingParse(f, s.shape[j].1, Lookup(v.fields, s.shape[j].0));
  }

  /** The j-th field of a parsed object whose schema is a defaulted number. */
  lemma DefaultNumberAt(f: Formats, s: Schema, v: Json, j: nat, isInt: bool, min: Option<int>, max: Option<int>, d: real)
    requires s.ZObject? && j < |s.shape| && UniqueKey(s.shape, j)
    requires s.shape[j].1 == ZDefault(ZNumber(isInt, min, max), JNum(d)) && NumberOk(isInt, min, max, d)
    requires Parse(f, s, Some(v)).Success?
    ensures v.JObj? && Parse(f, s, Some(v)).value.Some? && Parse(f, s, Some(v)).value.value.JObj?
    ensures var out := Lookup(Parse(f, s, Some(v)).value.value.fields, s.shape[j].0);
      && RequiredNumber(isInt, min, max, out)
      && (Lookup(v.fields, s.shape[j].0).None? ==> out == Some(JNum(d)))
  {
    ParseShapeLookup(f, s, 0, v.fields, j);
    DefaultNumberOutput(isInt, min, max, d, f, Lookup(v.fields, s.shape[j].0));
  }

  /** The j-th field of a parsed object whose schema is a defaulted string. */
  lemma DefaultStringAt(f: Formats, s: Schema, v: Json, j: nat, checks: seq<StringCheck>, d: string)
    requires s.ZObject? && j < |s.shape| && UniqueKey(s.shape, j)
    requires s.shape[j].1 == ZDefault(ZString(checks), JStr(d))
    requires Parse(f, s, Some(v)).Success?
    ensures v.JObj? && Parse(f, s, Some(v)).value.Some? && Parse(f, s, Some(v)).value.value.JObj?
    ensures Lookup(v.fields, s.shape[j].0).None? ==> Lookup(Parse(f, s, Some(v)).value.value.fields, s.shape[j].0) == Some(JStr(d))
  {
    ParseShapeLookup(f, s, 0, v.fields, j);
    var o := Lookup(v.fields, s.shape[j].0);
    assert FieldResult(f, s.shape, j, v.fields) == Parse(f, ZDefault(ZString(checks), JStr(d)), o);
    if o.None? {
      assert Parse(f, ZDefault(ZString(checks), JStr(d)), o) == Parse(f, ZString(checks), Some(JStr(d)));
    }
  }

  lemma EnumField(values: seq<string>, f: Formats, o: Option<Json>)
    ensures Parse(f, ZEnum(values), o).Success? <==> InEnum(values, o)
  {
  }

  lemma BooleanField(f: Formats, o: Option<Json>)
    ensures Parse(f, ZBoolean, o).Success? <==> IsBoolean(o)
  {
  }

  lemma RecordField(f: Formats, o: Option<Json>)
    ensures Parse(f, ZRecordAny, o).Success? <==> IsRecord(o)
  {
  }

  lemma OptionalRecordField(f: Formats, o: Option<Json>)
    ensures Parse(f, ZOptional(ZRecordAny), o).Success? <==> o.None? || IsRecord(o)
  {
  }

  lemma NullableRecordField(f: Formats, o: Option<Json>)
    ensures Parse(f, ZNullable(ZRecordAny), o).Success? <==> o == Some(JNull) || IsRecord(o)
  {
  }

  /** An array parses exactly when every element parses to a value. */
  lemma {:induction false} ParseItemsSuccess(f: Formats, element: Schema, items: seq<Json>)
    ensures ParseItems(f, element, items).Success? <==>
      forall i :: 0 <= i < |items| ==> Parse(f, element, Some(items[i])).Success? && Parse(f, element, Some(items[i])).value.Some?
    ensures ParseItems(f, element, items).Success? ==> |ParseItems(f, element, items).value| == |items|
    decreases |items|
  {
    if |items| > 0 {
      ParseItemsSuccess(f, element, items[1..]);
      var ok := (i: nat) requires i < |items| => Parse(f, element, Some(items[i])).Success? && Parse(f, element, Some(items[i])).value.Some?;
      if !ok(0) {
      } else if !ParseItems(f, element, items[1..]).Success? {
        var k :| 0 <= k < |items[1..]| && !(Parse(f, element, Some(items[1..][k])).Success? && Parse(f, element, Some(items[1..][k])).value.Some?);
        assert items[1..][k] == items[k + 1];
      } else {
        forall i | 0 <= i < |items| ensures ok(i) {
          if i > 0 {
            assert items[1..][i - 1] == items[i];
          }
        }
      }
    }
  }

  /** An array of objects parses exactly when every element is accepted by the object schema. */
  lemma ArrayOfObjects(f: Formats, element: Schema, v: Json)
    requires element.ZObject?
    ensures Parse(f, ZArray(element), Some(v)).Success? <==>
      v.JArr? && forall i :: 0 <= i < |v.items| ==> Parse(f, element, Some(v.items[i])).Success?
  {
    if v.JArr? {
      ParseItemsSuccess(f, element, v.items);
    }
  }
}
