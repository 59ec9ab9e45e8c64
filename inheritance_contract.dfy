/** The inheritance-rules service's request and response schemas. */
module InheritanceContract {
  import opened Wrappers
  import opened Js
  import opened Zod

  const RuleStatuses: seq<string> := ["active", "pending_execution", "executed", "cancelled"]

  /** A new rule: owner and heir UUIDs, an optional asset UUID, a non-empty condition, an optional whole number of delay days. */
  const CreateInheritanceRuleRequestSchema: Schema := ZObject([
    ("ownerId", ZString([Uuid])),
    ("heirId", ZString([Uuid])),
    ("assetId", ZOptional(ZString([Uuid]))),
    ("condition", ZString([MinLength(1)])),
    ("delayDays", ZOptional(ZNumber(true, Some(0), None)))])

  /** What CreateInheritanceRuleRequestSchema accepts, field by field. */
  lemma CreateInheritanceRuleRequestAccepts(f: Formats, v: Json)
    ensures Parse(f, CreateInheritanceRuleRequestSchema, Some(v)).Success? <==>
      && v.JObj?
      && RequiredString(f, [Uuid], Lookup(v.fields, "ownerId"))
      && RequiredString(f, [Uuid], Lookup(v.fields, "heirId"))
      && OptionalString(f, [Uuid], Lookup(v.fields, "assetId"))
      && RequiredString(f, [MinLength(1)], Lookup(v.fields, "condition"))
      && OptionalNumber(true, Some(0), None, Lookup(v.fields, "delayDays"))
  {
    ObjectAccepts(f, CreateInheritanceRuleRequestSchema, v);
    if v.JObj? {
      CreateInheritanceRuleRequestFields(f, v.fields);
    }
  }

  lemma CreateInheritanceRuleRequestFieldResults(f: Formats, fs: JsObject)
    ensures var sh := CreateInheritanceRuleRequestSchema.shape;
      && |sh| == 5
      && FieldResult(f, sh, 0, fs) == Parse(f, ZString([Uuid]), Lookup(fs, "ownerId"))
      && FieldResult(f, sh, 1, fs) == Parse(f, ZString([Uuid]), Lookup(fs, "heirId"))
      && FieldResult(f, sh, 2, fs) == Parse(f, ZOptional(ZString([Uuid])), Lookup(fs, "assetId"))
      && FieldResult(f, sh, 3, fs) == Parse(f, ZString([MinLength(1)]), Lookup(fs, "condition"))
      && FieldResult(f, sh, 4, fs) == Parse(f, ZOptional(ZNumber(true, Some(0), None)), Lookup(fs, "delayDays"))
  {
    var sh := CreateInheritanceRuleRequestSchema.shape;
    assert sh[0] == ("ownerId", ZString([Uuid]));
    assert sh[1] == ("heirId", ZString([Uuid]));
    assert sh[2] == ("assetId", ZOptional(ZString([Uuid])));
    assert sh[3] == ("condition", ZString([MinLength(1)]));
    assert sh[4] == ("delayDays", ZOptional(ZNumber(true, Some(0), None)));
  }

  lemma CreateInheritanceRuleRequestFieldsOnlyIf(f: Formats, fs: JsObject)
    requires forall j :: 0 <= j < |CreateInheritanceRuleRequestSchema.shape| ==> FieldResult(f, CreateInheritanceRuleRequestSchema.shape, j, fs).Success?
    ensures
      && RequiredString(f, [Uuid], Lookup(fs, "ownerId"))
      && RequiredString(f, [Uuid], Lookup(fs, "heirId"))
      && OptionalString(f, [Uuid], Lookup(fs, "assetId"))
      && RequiredString(f, [MinLength(1)], Lookup(fs, "condition"))
      && OptionalNumber(true, Some(0), None, Lookup(fs, "delayDays"))
  {
    var sh := CreateInheritanceRuleRequestSchema.shape;
    CreateInheritanceRuleRequestFieldResults(f, fs);
    assert RequiredString(f, [Uuid], Lookup(fs, "ownerId")) by {
      assert FieldResult(f, sh, 0, fs).Success?;
      RequiredStringField(f, [Uuid], Lookup(fs, "ownerId"));
    }
    assert RequiredString(f, [Uuid], Lookup(fs, "heirId")) by {
      assert FieldResult(f, sh, 1, fs).Success?;
      RequiredStringField(f, [Uuid], Lookup(fs, "heirId"));
    }
    assert OptionalString(f, [Uuid], Lookup(fs, "assetId")) by {
      assert FieldResult(f, sh, 2, fs).Success?;
      OptionalStringField(f, [Uuid], Lookup(fs, "assetId"));
    }
    assert RequiredString(f, [MinLength(1)], Lookup(fs, "condition")) by {
      assert FieldResult(f, sh, 3, fs).Success?;
      RequiredStringField(f, [MinLength(1)], Lookup(fs, "condition"));
    }
    assert OptionalNumber(true, Some(0), None, Lookup(fs, "delayDays")) by {
      assert FieldResult(f, sh, 4, fs).Success?;
      OptionalNumberField(true, Some(0), None, f, Lookup(fs, "delayDays"));
    }
  }

  lemma CreateInheritanceRuleRequestFieldsIf(f: Formats, fs: JsObject)
    requires
      && RequiredString(f, [Uuid], Lookup(fs, "ownerId"))
      && RequiredString(f, [Uuid], Lookup(fs, "heirId"))
      && OptionalString(f, [Uuid], Lookup(fs, "assetId"))
      && RequiredString(f, [MinLength(1)], Lookup(fs, "condition"))
      && OptionalNumber(true, Some(0), None, Lookup(fs, "delayDays"))
    ensures forall j :: 0 <= j < |CreateInheritanceRuleRequestSchema.shape| ==> FieldResult(f, CreateInheritanceRuleRequestSchema.shape, j, fs).Success?
  {
    var sh := CreateInheritanceRuleRequestSchema.shape;
    CreateInheritanceRuleRequestFieldResults(f, fs);
    forall j | 0 <= j < 5 ensures FieldResult(f, sh, j, fs).Success? {
      if j == 0 {
        RequiredStringField(f, [Uuid], Lookup(fs, "ownerId"));
      } else if j == 1 {
        RequiredStringField(f, [Uuid], Lookup(fs, "heirId"));
      } else if j == 2 {
        OptionalStringField(f, [Uuid], Lookup(fs, "assetId"));
      } else if j == 3 {
        RequiredStringField(f, [MinLength(1)], Lookup(fs, "condition"));
      } else {
        OptionalNumberField(true, Some(0), None, f, Lookup(fs, "delayDays"));
      }
    }
  }

  lemma CreateInheritanceRuleRequestFields(f: Formats, fs: JsObject)
    ensures (forall j :: 0 <= j < |CreateInheritanceRuleRequestSchema.shape| ==> FieldResult(f, CreateInheritanceRuleRequestSchema.shape, j, fs).Success?) <==>
      && RequiredString(f, [Uuid], Lookup(fs, "ownerId"))
      && RequiredString(f, [Uuid], Lookup(fs, "heirId"))
      && OptionalString(f, [Uuid], Lookup(fs, "assetId"))
      && RequiredString(f, [MinLength(1)], Lookup(fs, "condition"))
      && OptionalNumber(true, Some(0), None, Lookup(fs, "delayDays"))
  {
    if forall j :: 0 <= j < |CreateInheritanceRuleRequestSchema.shape| ==> FieldResult(f, CreateInheritanceRuleRequestSchema.shape, j, fs).Success? {
      CreateInheritanceRuleRequestFieldsOnlyIf(f, fs);
    }
    if
      && RequiredString(f, [Uuid], Lookup(fs, "ownerId"))
      && RequiredString(f, [Uuid], Lookup(fs, "heirId"))
      && OptionalString(f, [Uuid], Lookup(fs, "assetId"))
      && RequiredString(f, [MinLength(1)], Lookup(fs, "condition"))
      && OptionalNumber(true, Some(0), None, Lookup(fs, "delayDays"))
    {
      CreateInheritanceRuleRequestFieldsIf(f, fs);
    }
  }

  /** A rule update: the rule UUID, every other field optional. */
  const UpdateInheritanceRuleRequestSchema: Schema := ZObject([
    ("ruleId", ZString([Uuid])),
    ("heirId", ZOptional(ZString([Uuid]))),
    ("assetId", ZOptional(ZString([Uuid]))),
    ("condition", ZOptional(ZString([MinLength(1)]))),
    ("delayDays", ZOptional(ZNumber(true, Some(0), None)))])

  /** What UpdateInheritanceRuleRequestSchema accepts, field by field. */
  lemma UpdateInheritanceRuleRequestAccepts(f: Formats, v: Json)
    ensures Parse(f, UpdateInheritanceRuleRequestSchema, Some(v)).Success? <==>
      && v.JObj?
      && RequiredString(f, [Uuid], Lookup(v.fields, "ruleId"))
      && OptionalString(f, [Uuid], Lookup(v.fields, "heirId"))
      && OptionalString(f, [Uuid], Lookup(v.fields, "assetId"))
      && OptionalString(f, [MinLength(1)], Lookup(v.fields, "condition"))
      && OptionalNumber(true, Some(0), None, Lookup(v.fields, "delayDays"))
  {
    ObjectAccepts(f, UpdateInheritanceRuleRequestSchema, v);
    if v.JObj? {
      UpdateInheritanceRuleRequestFields(f, v.fields);
    }
  }

  lemma UpdateInheritanceRuleRequestFieldResults(f: Formats, fs: JsObject)
    ensures var sh := UpdateInheritanceRuleRequestSchema.shape;
      && |sh| == 5
      && FieldResult(f, sh, 0, fs) == Parse(f, ZString([Uuid]), Lookup(fs, "ruleId"))
      && FieldResult(f, sh, 1, fs) == Parse(f, ZOptional(ZString([Uuid])), Lookup(fs, "heirId"))
      && FieldResult(f, sh, 2, fs) == Parse(f, ZOptional(ZString([Uuid])), Lookup(fs, "assetId"))
      && FieldResult(f, sh, 3, fs) == Parse(f, ZOptional(ZString([MinLength(1)])), Lookup(fs, "condition"))
      && FieldResult(f, sh, 4, fs) == Parse(f, ZOptional(ZNumber(true, Some(0), None)), Lookup(fs, "delayDays"))
  {
    var sh := UpdateInheritanceRuleRequestSchema.shape;
    assert sh[0] == ("ruleId", ZString([Uuid]));
    assert sh[1] == ("heirId", ZOptional(ZString([Uuid])));
    assert sh[2] == ("assetId", ZOptional(ZString([Uuid])));
    assert sh[3] == ("condition", ZOptional(ZString([MinLength(1)])));
    assert sh[4] == ("delayDays", ZOptional(ZNumber(true, Some(0), None)));
  }

  lemma UpdateInheritanceRuleRequestFieldsOnlyIf(f: Formats, fs: JsObject)
    requires forall j :: 0 <= j < |UpdateInheritanceRuleRequestSchema.shape| ==> FieldResult(f, UpdateInheritanceRuleRequestSchema.shape, j, fs).Success?
    ensures
      && RequiredString(f, [Uuid], Lookup(fs, "ruleId"))
      && OptionalString(f, [Uuid], Lookup(fs, "heirId"))
      && OptionalString(f, [Uuid], Lookup(fs, "assetId"))
      && OptionalString(f, [MinLength(1)], Lookup(fs, "condition"))
      && OptionalNumber(true, Some(0), None, Lookup(fs, "delayDays"))
  {
    var sh := UpdateInheritanceRuleRequestSchema.shape;
    UpdateInheritanceRuleRequestFieldResults(f, fs);
    assert RequiredString(f, [Uuid], Lookup(fs, "ruleId")) by {
      assert FieldResult(f, sh, 0, fs).Success?;
      RequiredStringField(f, [Uuid], Lookup(fs, "ruleId"));
    }
    assert OptionalString(f, [Uuid], Lookup(fs, "heirId")) by {
      assert FieldResult(f, sh, 1, fs).Success?;
      OptionalStringField(f, [Uuid], Lookup(fs, "heirId"));
    }
    assert OptionalString(f, [Uuid], Lookup(fs, "assetId")) by {
      assert FieldResult(f, sh, 2, fs).Success?;
      OptionalStringField(f, [Uuid], Lookup(fs, "assetId"));
    }
    assert OptionalString(f, [MinLength(1)], Lookup(fs, "condition")) by {
      assert FieldResult(f, sh, 3, fs).Success?;
      OptionalStringField(f, [MinLength(1)], Lookup(fs, "condition"));
    }
    assert OptionalNumber(true, Some(0), None, Lookup(fs, "delayDays")) by {
      assert FieldResult(f, sh, 4, fs).Success?;
      OptionalNumberField(true, Some(0), None, f, Lookup(fs, "delayDays"));
    }
  }

  lemma UpdateInheritanceRuleRequestFieldsIf(f: Formats, fs: JsObject)
    requires
      && RequiredString(f, [Uuid], Lookup(fs, "ruleId"))
      && OptionalString(f, [Uuid], Lookup(fs, "heirId"))
      && OptionalString(f, [Uuid], Lookup(fs, "assetId"))
      && OptionalString(f, [MinLength(1)], Lookup(fs, "condition"))
      && OptionalNumber(true, Some(0), None, Lookup(fs, "delayDays"))
    ensures forall j :: 0 <= j < |UpdateInheritanceRuleRequestSchema.shape| ==> FieldResult(f, UpdateInheritanceRuleRequestSchema.shape, j, fs).Success?
  {
    var sh := UpdateInheritanceRuleRequestSchema.shape;
    UpdateInheritanceRuleRequestFieldResults(f, fs);
    forall j | 0 <= j < 5 ensures FieldResult(f, sh, j, fs).Success? {
      if j == 0 {
        RequiredStringField(f, [Uuid], Lookup(fs, "ruleId"));
      } else if j == 1 {
        OptionalStringField(f, [Uuid], Lookup(fs, "heirId"));
      } else if j == 2 {
        OptionalStringField(f, [Uuid], Lookup(fs, "assetId"));
      } else if j == 3 {
        OptionalStringField(f, [MinLength(1)], Lookup(fs, "condition"));
      } else {
        OptionalNumberField(true, Some(0), None, f, Lookup(fs, "delayDays"));
      }
    }
  }

  lemma UpdateInheritanceRuleRequestFields(f: Formats, fs: JsObject)
    ensures (forall j :: 0 <= j < |UpdateInheritanceRuleRequestSchema.shape| ==> FieldResult(f, UpdateInheritanceRuleRequestSchema.shape, j, fs).Success?) <==>
      && RequiredString(f, [Uuid], Lookup(fs, "ruleId"))
      && OptionalString(f, [Uuid], Lookup(fs, "heirId"))
      && OptionalString(f, [Uuid], Lookup(fs, "assetId"))
      && OptionalString(f, [MinLength(1)], Lookup(fs, "condition"))
      && OptionalNumber(true, Some(0), None, Lookup(fs, "delayDays"))
  {
    if forall j :: 0 <= j < |UpdateInheritanceRuleRequestSchema.shape| ==> FieldResult(f, UpdateInheritanceRuleRequestSchema.shape, j, fs).Success? {
      UpdateInheritanceRuleRequestFieldsOnlyIf(f, fs);
    }
    if
      && RequiredString(f, [Uuid], Lookup(fs, "ruleId"))
      && OptionalString(f, [Uuid], Lookup(fs, "heirId"))
      && OptionalString(f, [Uuid], Lookup(fs, "assetId"))
      && OptionalString(f, [MinLength(1)], Lookup(fs, "condition"))
      && OptionalNumber(true, Some(0), None, Lookup(fs, "delayDays"))
    {
      UpdateInheritanceRuleRequestFieldsIf(f, fs);
    }
  }

  /** A rule lookup. */
  const GetInheritanceRuleRequestSchema: Schema := ZObject([
    ("ruleId", ZString([Uuid])),
    ("ownerId", ZOptional(ZString([Uuid])))])

  /** What GetInheritanceRuleRequestSchema accepts, field by field. */
  lemma GetInheritanceRuleRequestAccepts(f: Formats, v: Json)
    ensures Parse(f, GetInheritanceRuleRequestSchema, Some(v)).Success? <==>
      && v.JObj?
      && RequiredString(f, [Uuid], Lookup(v.fields, "ruleId"))
      && OptionalString(f, [Uuid], Lookup(v.fields, "ownerId"))
  {
    ObjectAccepts(f, GetInheritanceRuleRequestSchema, v);
    if v.JObj? {
      GetInheritanceRuleRequestFields(f, v.fields);
    }
  }

  lemma GetInheritanceRuleRequestFieldResults(f: Formats, fs: JsObject)
    ensures var sh := GetInheritanceRuleRequestSchema.shape;
      && |sh| == 2
      && FieldResult(f, sh, 0, fs) == Parse(f, ZString([Uuid]), Lookup(fs, "ruleId"))
      && FieldResult(f, sh, 1, fs) == Parse(f, ZOptional(ZString([Uuid])), Lookup(fs, "ownerId"))
  {
    var sh := GetInheritanceRuleRequestSchema.shape;
    assert sh[0] == ("ruleId", ZString([Uuid]));
    assert sh[1] == ("ownerId", ZOptional(ZString([Uuid])));
  }

  lemma GetInheritanceRuleRequestFieldsOnlyIf(f: Formats, fs: JsObject)
    requires forall j :: 0 <= j < |GetInheritanceRuleRequestSchema.shape| ==> FieldResult(f, GetInheritanceRuleRequestSchema.shape, j, fs).Success?
    ensures
      && RequiredString(f, [Uuid], Lookup(fs, "ruleId"))
      && OptionalString(f, [Uuid], Lookup(fs, "ownerId"))
  {
    var sh := GetInheritanceRuleRequestSchema.shape;
    GetInheritanceRuleRequestFieldResults(f, fs);
    assert RequiredString(f, [Uuid], Lookup(fs, "ruleId")) by {
      assert FieldResult(f, sh, 0, fs).Success?;
      RequiredStringField(f, [Uuid], Lookup(fs, "ruleId"));
    }
    assert OptionalString(f, [Uuid], Lookup(fs, "ownerId")) by {
      assert FieldResult(f, sh, 1, fs).Success?;
      OptionalStringField(f, [Uuid], Lookup(fs, "ownerId"));
    }
  }

  lemma GetInheritanceRuleRequestFieldsIf(f: Formats, fs: JsObject)
    requires
      && RequiredString(f, [Uuid], Lookup(fs, "ruleId"))
      && OptionalString(f, [Uuid], Lookup(fs, "ownerId"))
    ensures forall j :: 0 <= j < |GetInheritanceRuleRequestSchema.shape| ==> FieldResult(f, GetInheritanceRuleRequestSchema.shape, j, fs).Success?
  {
    var sh := GetInheritanceRuleRequestSchema.shape;
    GetInheritanceRuleRequestFieldResults(f, fs);
    forall j | 0 <= j < 2 ensures FieldResult(f, sh, j, fs).Success? {
      if j == 0 {
        RequiredStringField(f, [Uuid], Lookup(fs, "ruleId"));
      } else {
        OptionalStringField(f, [Uuid], Lookup(fs, "ownerId"));
      }
    }
  }

  lemma GetInheritanceRuleRequestFields(f: Formats, fs: JsObject)
    ensures (forall j :: 0 <= j < |GetInheritanceRuleRequestSchema.shape| ==> FieldResult(f, GetInheritanceRuleRequestSchema.shape, j, fs).Success?) <==>
      && RequiredString(f, [Uuid], Lookup(fs, "ruleId"))
      && OptionalString(f, [Uuid], Lookup(fs, "ownerId"))
  {
    if forall j :: 0 <= j < |GetInheritanceRuleRequestSchema.shape| ==> FieldResult(f, GetInheritanceRuleRequestSchema.shape, j, fs).Success? {
      GetInheritanceRuleRequestFieldsOnlyIf(f, fs);
    }
    if
      && RequiredString(f, [Uuid], Lookup(fs, "ruleId"))
      && OptionalString(f, [Uuid], Lookup(fs, "ownerId"))
    {
      GetInheritanceRuleRequestFieldsIf(f, fs);
    }
  }

  /** A rule as returned. */
  const InheritanceRuleResponseSchema: Schema := ZObject([
    ("id", ZString([Uuid])),
    ("ownerId", ZString([Uuid])),
    ("heirId", ZString([Uuid])),
    ("assetId", ZOptional(ZNullable(ZString([Uuid])))),
    ("condition", ZString([])),
    ("delayDays", ZOptional(ZNullable(ZNumber(true, Some(0), None)))),
    ("status", ZEnum(RuleStatuses)),
    ("createdAt", ZString([Datetime])),
    ("updatedAt", ZString([Datetime]))])

  /** What InheritanceRuleResponseSchema accepts, field by field. */
  lemma InheritanceRuleResponseAccepts(f: Formats, v: Json)
    ensures Parse(f, InheritanceRuleResponseSchema, Some(v)).Success? <==>
      && v.JObj?
      && RequiredString(f, [Uuid], Lookup(v.fields, "id"))
      && RequiredString(f, [Uuid], Lookup(v.fields, "ownerId"))
      && RequiredString(f, [Uuid], Lookup(v.fields, "heirId"))
      && OptionalNullableString(f, [Uuid], Lookup(v.fields, "assetId"))
      && RequiredString(f, [], Lookup(v.fields, "condition"))
      && OptionalNullableNumber(true, Some(0), None, Lookup(v.fields, "delayDays"))
      && InEnum(RuleStatuses, Lookup(v.fields, "status"))
      && RequiredString(f, [Datetime], Lookup(v.fields, "createdAt"))
      && RequiredString(f, [Datetime], Lookup(v.fields, "updatedAt"))
  {
    ObjectAccepts(f, InheritanceRuleResponseSchema, v);
    if v.JObj? {
      InheritanceRuleResponseFields(f, v.fields);
    }
  }

  lemma InheritanceRuleResponseFieldResults(f: Formats, fs: JsObject)
    ensures var sh := InheritanceRuleResponseSchema.shape;
      && |sh| == 9
      && FieldResult(f, sh, 0, fs) == Parse(f, ZString([Uuid]), Lookup(fs, "id"))
      && FieldResult(f, sh, 1, fs) == Parse(f, ZString([Uuid]), Lookup(fs, "ownerId"))
      && FieldResult(f, sh, 2, fs) == Parse(f, ZString([Uuid]), Lookup(fs, "heirId"))
      && FieldResult(f, sh, 3, fs) == Parse(f, ZOptional(ZNullable(ZString([Uuid]))), Lookup(fs, "assetId"))
      && FieldResult(f, sh, 4, fs) == Parse(f, ZString([]), Lookup(fs, "condition"))
      && FieldResult(f, sh, 5, fs) == Parse(f, ZOptional(ZNullable(ZNumber(true, Some(0), None))), Lookup(fs, "delayDays"))
      && FieldResult(f, sh, 6, fs) == Parse(f, ZEnum(RuleStatuses), Lookup(fs, "status"))
      && FieldResult(f, sh, 7, fs) == Parse(f, ZString([Datetime]), Lookup(fs, "createdAt"))
      && FieldResult(f, sh, 8, fs) == Parse(f, ZString([Datetime]), Lookup(fs, "updatedAt"))
  {
    var sh := InheritanceRuleResponseSchema.shape;
    assert sh[0] == ("id", ZString([Uuid]));
    assert sh[1] == ("ownerId", ZString([Uuid]));
    assert sh[2] == ("heirId", ZString([Uuid]));
    assert sh[3] == ("assetId", ZOptional(ZNullable(ZString([Uuid]))));
    assert sh[4] == ("condition", ZString([]));
    assert sh[5] == ("delayDays", ZOptional(ZNullable(ZNumber(true, Some(0), None))));
    assert sh[6] == ("status", ZEnum(RuleStatuses));
    assert sh[7] == ("createdAt", ZString([Datetime]));
    assert sh[8] == ("updatedAt", ZString([Datetime]));
  }

  lemma InheritanceRuleResponseFieldsOnlyIf(f: Formats, fs: JsObject)
    requires forall j :: 0 <= j < |InheritanceRuleResponseSchema.shape| ==> FieldResult(f, InheritanceRuleResponseSchema.shape, j, fs).Success?
    ensures
      && RequiredString(f, [Uuid], Lookup(fs, "id"))
      && RequiredString(f, [Uuid], Lookup(fs, "ownerId"))
      && RequiredString(f, [Uuid], Lookup(fs, "heirId"))
      && OptionalNullableString(f, [Uuid], Lookup(fs, "assetId"))
      && RequiredString(f, [], Lookup(fs, "condition"))
      && OptionalNullableNumber(true, Some(0), None, Lookup(fs, "delayDays"))
      && InEnum(RuleStatuses, Lookup(fs, "status"))
      && RequiredString(f, [Datetime], Lookup(fs, "createdAt"))
      && RequiredString(f, [Datetime], Lookup(fs, "updatedAt"))
  {
    var sh := InheritanceRuleResponseSchema.shape;
    InheritanceRuleResponseFieldResults(f, fs);
    assert RequiredString(f, [Uuid], Lookup(fs, "id")) by {
      assert FieldResult(f, sh, 0, fs).Success?;
      RequiredStringField(f, [Uuid], Lookup(fs, "id"));
    }
    assert RequiredString(f, [Uuid], Lookup(fs, "ownerId")) by {
      assert FieldResult(f, sh, 1, fs).Success?;
      RequiredStringField(f, [Uuid], Lookup(fs, "ownerId"));
    }
    assert RequiredString(f, [Uuid], Lookup(fs, "heirId")) by {
      assert FieldResult(f, sh, 2, fs).Success?;
      RequiredStringField(f, [Uuid], Lookup(fs, "heirId"));
    }
    assert OptionalNullableString(f, [Uuid], Lookup(fs, "assetId")) by {
      assert FieldResult(f, sh, 3, fs).Success?;
      OptionalNullableStringField(f, [Uuid], Lookup(fs, "assetId"));
    }
    assert RequiredString(f, [], Lookup(fs, "condition")) by {
      assert FieldResult(f, sh, 4, fs).Success?;
      RequiredStringField(f, [], Lookup(fs, "condition"));
    }
    assert OptionalNullableNumber(true, Some(0), None, Lookup(fs, "delayDays")) by {
      assert FieldResult(f, sh, 5, fs).Success?;
      OptionalNullableNumberField(true, Some(0), None, f, Lookup(fs, "delayDays"));
    }
    assert InEnum(RuleStatuses, Lookup(fs, "status")) by {
      assert FieldResult(f, sh, 6, fs).Success?;
      EnumField(RuleStatuses, f, Lookup(fs, "status"));
    }
    assert RequiredString(f, [Datetime], Lookup(fs, "createdAt")) by {
      assert FieldResult(f, sh, 7, fs).Success?;
      RequiredStringField(f, [Datetime], Lookup(fs, "createdAt"));
    }
    assert RequiredString(f, [Datetime], Lookup(fs, "updatedAt")) by {
      assert FieldResult(f, sh, 8, fs).Success?;
      RequiredStringField(f, [Datetime], Lookup(fs, "updatedAt"));
    }
  }

  lemma InheritanceRuleResponseFieldsIf(f: Formats, fs: JsObject)
    requires
      && RequiredString(f, [Uuid], Lookup(fs, "id"))
      && RequiredString(f, [Uuid], Lookup(fs, "ownerId"))
      && RequiredString(f, [Uuid], Lookup(fs, "heirId"))
      && OptionalNullableString(f, [Uuid], Lookup(fs, "assetId"))
      && RequiredString(f, [], Lookup(fs, "condition"))
      && OptionalNullableNumber(true, Some(0), None, Lookup(fs, "delayDays"))
      && InEnum(RuleStatuses, Lookup(fs, "status"))
      && RequiredString(f, [Datetime], Lookup(fs, "createdAt"))
      && RequiredString(f, [Datetime], Lookup(fs, "updatedAt"))
    ensures forall j :: 0 <= j < |InheritanceRuleResponseSchema.shape| ==> FieldResult(f, InheritanceRuleResponseSchema.shape, j, fs).Success?
  {
    var sh := InheritanceRuleResponseSchema.shape;
    InheritanceRuleResponseFieldResults(f, fs);
    forall j | 0 <= j < 9 ensures FieldResult(f, sh, j, fs).Success? {
      if j == 0 {
        RequiredStringField(f, [Uuid], Lookup(fs, "id"));
      } else if j == 1 {
        RequiredStringField(f, [Uuid], Lookup(fs, "ownerId"));
      } else if j == 2 {
        RequiredStringField(f, [Uuid], Lookup(fs, "heirId"));
      } else if j == 3 {
        OptionalNullableStringField(f, [Uuid], Lookup(fs, "assetId"));
      } else if j == 4 {
        RequiredStringField(f, [], Lookup(fs, "condition"));
      } else if j == 5 {
        OptionalNullableNumberField(true, Some(0), None, f, Lookup(fs, "delayDays"));
      } else if j == 6 {
        EnumField(RuleStatuses, f, Lookup(fs, "status"));
      } else if j == 7 {
        RequiredStringField(f, [Datetime], Lookup(fs, "createdAt"));
      } else {
        RequiredStringField(f, [Datetime], Lookup(fs, "updatedAt"));
      }
    }
  }

  lemma InheritanceRuleResponseFields(f: Formats, fs: JsObject)
    ensures (forall j :: 0 <= j < |InheritanceRuleResponseSchema.shape| ==> FieldResult(f, InheritanceRuleResponseSchema.shape, j, fs).Success?) <==>
      && RequiredString(f, [Uuid], Lookup(fs, "id"))
      && RequiredString(f, [Uuid], Lookup(fs, "ownerId"))
      && RequiredString(f, [Uuid], Lookup(fs, "heirId"))
      && OptionalNullableString(f, [Uuid], Lookup(fs, "assetId"))
      && RequiredString(f, [], Lookup(fs, "condition"))
      && OptionalNullableNumber(true, Some(0), None, Lookup(fs, "delayDays"))
      && InEnum(RuleStatuses, Lookup(fs, "status"))
      && RequiredString(f, [Datetime], Lookup(fs, "createdAt"))
      && RequiredString(f, [Datetime], Lookup(fs, "updatedAt"))
  {
    if forall j :: 0 <= j < |InheritanceRuleResponseSchema.shape| ==> FieldResult(f, InheritanceRuleResponseSchema.shape, j, fs).Success? {
      InheritanceRuleResponseFieldsOnlyIf(f, fs);
    }
    if
      && RequiredString(f, [Uuid], Lookup(fs, "id"))
      && RequiredString(f, [Uuid], Lookup(fs, "ownerId"))
      && RequiredString(f, [Uuid], Lookup(fs, "heirId"))
      && OptionalNullableString(f, [Uuid], Lookup(fs, "assetId"))
      && RequiredString(f, [], Lookup(fs, "condition"))
      && OptionalNullableNumber(true, Some(0), None, Lookup(fs, "delayDays"))
      && InEnum(RuleStatuses, Lookup(fs, "status"))
      && RequiredString(f, [Datetime], Lookup(fs, "createdAt"))
      && RequiredString(f, [Datetime], Lookup(fs, "updatedAt"))
    {
      InheritanceRuleResponseFieldsIf(f, fs);
    }
  }

  const ListInheritanceRulesResponseSchema: Schema := ZArray(InheritanceRuleResponseSchema)

  lemma ListInheritanceRulesResponseAccepts(f: Formats, v: Json)
    ensures Parse(f, ListInheritanceRulesResponseSchema, Some(v)).Success? <==>
      v.JArr? && forall i :: 0 <= i < |v.items| ==> Parse(f, InheritanceRuleResponseSchema, Some(v.items[i])).Success?
  {
    ArrayOfObjects(f, InheritanceRuleResponseSchema, v);
  }

  datatype InheritanceError = RuleNotFound | InvalidData | UnauthorizedAccess

  function InheritanceErrorCode(e: InheritanceError): string {
    match e
    case RuleNotFound => "RULE_NOT_FOUND"
    case InvalidData => "INVALID_DATA"
    case UnauthorizedAccess => "UNAUTHORIZED_ACCESS"
  }

  const InheritanceErrorCodes: seq<string> := ["RULE_NOT_FOUND", "INVALID_DATA", "UNAUTHORIZED_ACCESS"]

  /** The error codes are exactly the three listed, one per kind. */
  lemma InheritanceErrorCodesExact()
    ensures forall c :: c in InheritanceErrorCodes <==> exists e :: InheritanceErrorCode(e) == c
    ensures forall e1, e2 :: InheritanceErrorCode(e1) == InheritanceErrorCode(e2) ==> e1 == e2
  {
    assert InheritanceErrorCode(RuleNotFound) == InheritanceErrorCodes[0];
    assert InheritanceErrorCode(InvalidData) == InheritanceErrorCodes[1];
    assert InheritanceErrorCode(UnauthorizedAccess) == InheritanceErrorCodes[2];
  }
}
