/** The audit service's request, internal and response schemas. */
module AuditContract {
  import opened Wrappers
  import opened Js
  import opened Zod

  const ActorTypes: seq<string> := ["USER", "SYSTEM", "SERVICE"]

  /** The audit query: optional UUID and datetime filters, limit in [1, 100] defaulting to 50, offset at least 0 defaulting to 0. */
  const GetAuditLogRequestSchema: Schema := ZObject([
    ("actorId", ZOptional(ZString([Uuid]))),
    ("targetId", ZOptional(ZString([Uuid]))),
    ("action", ZOptional(ZString([]))),
    ("correlationId", ZOptional(ZString([Uuid]))),
    ("startDate", ZOptional(ZString([Datetime]))),
    ("endDate", ZOptional(ZString([Datetime]))),
    ("limit", ZDefault(ZNumber(true, Some(1), Some(100)), JNum(50.0))),
    ("offset", ZDefault(ZNumber(true, Some(0), None), JNum(0.0)))])

  /** What GetAuditLogRequestSchema accepts, field by field. */
  lemma GetAuditLogRequestAccepts(f: Formats, v: Json)
    ensures Parse(f, GetAuditLogRequestSchema, Some(v)).Success? <==>
      && v.JObj?
      && OptionalString(f, [Uuid], Lookup(v.fields, "actorId"))
      && OptionalString(f, [Uuid], Lookup(v.fields, "targetId"))
      && OptionalString(f, [], Lookup(v.fields, "action"))
      && OptionalString(f, [Uuid], Lookup(v.fields, "correlationId"))
      && OptionalString(f, [Datetime], Lookup(v.fields, "startDate"))
      && OptionalString(f, [Datetime], Lookup(v.fields, "endDate"))
      && OptionalNumber(true, Some(1), Some(100), Lookup(v.fields, "limit"))
      && OptionalNumber(true, Some(0), None, Lookup(v.fields, "offset"))
  {
    ObjectAccepts(f, GetAuditLogRequestSchema, v);
    if v.JObj? {
      GetAuditLogRequestFields(f, v.fields);
    }
  }

  lemma GetAuditLogRequestFieldResults(f: Formats, fs: JsObject)
    ensures var sh := GetAuditLogRequestSchema.shape;
      && |sh| == 8
      && FieldResult(f, sh, 0, fs) == Parse(f, ZOptional(ZString([Uuid])), Lookup(fs, "actorId"))
      && FieldResult(f, sh, 1, fs) == Parse(f, ZOptional(ZString([Uuid])), Lookup(fs, "targetId"))
      && FieldResult(f, sh, 2, fs) == Parse(f, ZOptional(ZString([])), Lookup(fs, "action"))
      && FieldResult(f, sh, 3, fs) == Parse(f, ZOptional(ZString([Uuid])), Lookup(fs, "correlationId"))
      && FieldResult(f, sh, 4, fs) == Parse(f, ZOptional(ZString([Datetime])), Lookup(fs, "startDate"))
      && FieldResult(f, sh, 5, fs) == Parse(f, ZOptional(ZString([Datetime])), Lookup(fs, "endDate"))
      && FieldResult(f, sh, 6, fs) == Parse(f, ZDefault(ZNumber(true, Some(1), Some(100)), JNum(50.0)), Lookup(fs, "limit"))
      && FieldResult(f, sh, 7, fs) == Parse(f, ZDefault(ZNumber(true, Some(0), None), JNum(0.0)), Lookup(fs, "offset"))
  {
    var sh := GetAuditLogRequestSchema.shape;
    assert sh[0] == ("actorId", ZOptional(ZString([Uuid])));
    assert sh[1] == ("targetId", ZOptional(ZString([Uuid])));
    assert sh[2] == ("action", ZOptional(ZString([])));
    assert sh[3] == ("correlationId", ZOptional(ZString([Uuid])));
    assert sh[4] == ("startDate", ZOptional(ZString([Datetime])));
    assert sh[5] == ("endDate", ZOptional(ZString([Datetime])));
    assert sh[6] == ("limit", ZDefault(ZNumber(true, Some(1), Some(100)), JNum(50.0)));
    assert sh[7] == ("offset", ZDefault(ZNumber(true, Some(0), None), JNum(0.0)));
  }

  lemma GetAuditLogRequestFieldsOnlyIf(f: Formats, fs: JsObject)
    requires forall j :: 0 <= j < |GetAuditLogRequestSchema.shape| ==> FieldResult(f, GetAuditLogRequestSchema.shape, j, fs).Success?
    ensures
      && OptionalString(f, [Uuid], Lookup(fs, "actorId"))
      && OptionalString(f, [Uuid], Lookup(fs, "targetId"))
      && OptionalString(f, [], Lookup(fs, "action"))
      && OptionalString(f, [Uuid], Lookup(fs, "correlationId"))
      && OptionalString(f, [Datetime], Lookup(fs, "startDate"))
      && OptionalString(f, [Datetime], Lookup(fs, "endDate"))
      && OptionalNumber(true, Some(1), Some(100), Lookup(fs, "limit"))
      && OptionalNumber(true, Some(0), None, Lookup(fs, "offset"))
  {
    var sh := GetAuditLogRequestSchema.shape;
    GetAuditLogRequestFieldResults(f, fs);
    assert OptionalString(f, [Uuid], Lookup(fs, "actorId")) by {
      assert FieldResult(f, sh, 0, fs).Success?;
      OptionalStringField(f, [Uuid], Lookup(fs, "actorId"));
    }
    assert OptionalString(f, [Uuid], Lookup(fs, "targetId")) by {
      assert FieldResult(f, sh, 1, fs).Success?;
      OptionalStringField(f, [Uuid], Lookup(fs, "targetId"));
    }
    assert OptionalString(f, [], Lookup(fs, "action")) by {
      assert FieldResult(f, sh, 2, fs).Success?;
      OptionalStringField(f, [], Lookup(fs, "action"));
    }
    assert OptionalString(f, [Uuid], Lookup(fs, "correlationId")) by {
      assert FieldResult(f, sh, 3, fs).Success?;
      OptionalStringField(f, [Uuid], Lookup(fs, "correlationId"));
    }
    assert OptionalString(f, [Datetime], Lookup(fs, "startDate")) by {
      assert FieldResult(f, sh, 4, fs).Success?;
      OptionalStringField(f, [Datetime], Lookup(fs, "startDate"));
    }
    assert OptionalString(f, [Datetime], Lookup(fs, "endDate")) by {
      assert FieldResult(f, sh, 5, fs).Success?;
      OptionalStringField(f, [Datetime], Lookup(fs, "endDate"));
    }
    assert OptionalNumber(true, Some(1), Some(100), Lookup(fs, "limit")) by {
      assert FieldResult(f, sh, 6, fs).Success?;
      DefaultNumberField(true, Some(1), Some(100), 50.0, f, Lookup(fs, "limit"));
    }
    assert OptionalNumber(true, Some(0), None, Lookup(fs, "offset")) by {
      assert FieldResult(f, sh, 7, fs).Success?;
      DefaultNumberField(true, Some(0), None, 0.0, f, Lookup(fs, "offset"));
    }
  }

  lemma GetAuditLogRequestFieldsIf(f: Formats, fs: JsObject)
    requires
      && OptionalString(f, [Uuid], Lookup(fs, "actorId"))
      && OptionalString(f, [Uuid], Lookup(fs, "targetId"))
      && OptionalString(f, [], Lookup(fs, "action"))
      && OptionalString(f, [Uuid], Lookup(fs, "correlationId"))
      && OptionalString(f, [Datetime], Lookup(fs, "startDate"))
      && OptionalString(f, [Datetime], Lookup(fs, "endDate"))
      && OptionalNumber(true, Some(1), Some(100), Lookup(fs, "limit"))
      && OptionalNumber(true, Some(0), None, Lookup(fs, "offset"))
    ensures forall j :: 0 <= j < |GetAuditLogRequestSchema.shape| ==> FieldResult(f, GetAuditLogRequestSchema.shape, j, fs).Success?
  {
    var sh := GetAuditLogRequestSchema.shape;
    GetAuditLogRequestFieldResults(f, fs);
    forall j | 0 <= j < 8 ensures FieldResult(f, sh, j, fs).Success? {
      if j == 0 {
        OptionalStringField(f, [Uuid], Lookup(fs, "actorId"));
      } else if j == 1 {
        OptionalStringField(f, [Uuid], Lookup(fs, "targetId"));
      } else if j == 2 {
        OptionalStringField(f, [], Lookup(fs, "action"));
      } else if j == 3 {
        OptionalStringField(f, [Uuid], Lookup(fs, "correlationId"));
      } else if j == 4 {
        OptionalStringField(f, [Datetime], Lookup(fs, "startDate"));
      } else if j == 5 {
        OptionalStringField(f, [Datetime], Lookup(fs, "endDate"));
      } else if j == 6 {
        DefaultNumberField(true, Some(1), Some(100), 50.0, f, Lookup(fs, "limit"));
      } else {
        DefaultNumberField(true, Some(0), None, 0.0, f, Lookup(fs, "offset"));
      }
    }
  }

  lemma GetAuditLogRequestFields(f: Formats, fs: JsObject)
    ensures (forall j :: 0 <= j < |GetAuditLogRequestSchema.shape| ==> FieldResult(f, GetAuditLogRequestSchema.shape, j, fs).Success?) <==>
      && OptionalString(f, [Uuid], Lookup(fs, "actorId"))
      && OptionalString(f, [Uuid], Lookup(fs, "targetId"))
      && OptionalString(f, [], Lookup(fs, "action"))
      && OptionalString(f, [Uuid], Lookup(fs, "correlationId"))
      && OptionalString(f, [Datetime], Lookup(fs, "startDate"))
      && OptionalString(f, [Datetime], Lookup(fs, "endDate"))
      && OptionalNumber(true, Some(1), Some(100), Lookup(fs, "limit"))
      && OptionalNumber(true, Some(0), None, Lookup(fs, "offset"))
  {
    if forall j :: 0 <= j < |GetAuditLogRequestSchema.shape| ==> FieldResult(f, GetAuditLogRequestSchema.shape, j, fs).Success? {
      GetAuditLogRequestFieldsOnlyIf(f, fs);
    }
    if
      && OptionalString(f, [Uuid], Lookup(fs, "actorId"))
      && OptionalString(f, [Uuid], Lookup(fs, "targetId"))
      && OptionalString(f, [], Lookup(fs, "action"))
      && OptionalString(f, [Uuid], Lookup(fs, "correlationId"))
      && OptionalString(f, [Datetime], Lookup(fs, "startDate"))
      && OptionalString(f, [Datetime], Lookup(fs, "endDate"))
      && OptionalNumber(true, Some(1), Some(100), Lookup(fs, "limit"))
      && OptionalNumber(true, Some(0), None, Lookup(fs, "offset"))
    {
      GetAuditLogRequestFieldsIf(f, fs);
    }
  }

  /** The internal create record. The timestamp default is `new Date().toISOString()` evaluated once, when the module loads; `loadedAt` is that string. */
  function InternalCreateAuditLogSchema(loadedAt: string): Schema {
    ZObject([
      ("timestamp", ZDefault(ZString([Datetime]), JStr(loadedAt))),
      ("actorId", ZOptional(ZNullable(ZString([Uuid])))),
      ("actorType", ZEnum(ActorTypes)),
      ("action", ZString([MinLength(1)])),
      ("targetId", ZOptional(ZNullable(ZString([Uuid])))),
      ("targetType", ZOptional(ZNullable(ZString([])))),
      ("correlationId", ZOptional(ZNullable(ZString([Uuid])))),
      ("metadata", ZOptional(ZRecordAny)),
      ("cryptographicHash", ZOptional(ZString([])))])
  }

  /** What InternalCreateAuditLogSchema accepts, field by field. */
  lemma InternalCreateAuditLogAccepts(f: Formats, loadedAt: string, v: Json)
    ensures Parse(f, InternalCreateAuditLogSchema(loadedAt), Some(v)).Success? <==>
      && v.JObj?
      && DefaultedString(f, [Datetime], loadedAt, Lookup(v.fields, "timestamp"))
      && OptionalNullableString(f, [Uuid], Lookup(v.fields, "actorId"))
      && InEnum(ActorTypes, Lookup(v.fields, "actorType"))
      && RequiredString(f, [MinLength(1)], Lookup(v.fields, "action"))
      && OptionalNullableString(f, [Uuid], Lookup(v.fields, "targetId"))
      && OptionalNullableString(f, [], Lookup(v.fields, "targetType"))
      && OptionalNullableString(f, [Uuid], Lookup(v.fields, "correlationId"))
      && (Lookup(v.fields, "metadata").None? || IsRecord(Lookup(v.fields, "metadata")))
      && OptionalString(f, [], Lookup(v.fields, "cryptographicHash"))
  {
    ObjectAccepts(f, InternalCreateAuditLogSchema(loadedAt), v);
    if v.JObj? {
      InternalCreateAuditLogFields(f, loadedAt, v.fields);
    }
  }

  lemma InternalCreateAuditLogFieldResults(f: Formats, loadedAt: string, fs: JsObject)
    ensures var sh := InternalCreateAuditLogSchema(loadedAt).shape;
      && |sh| == 9
      && FieldResult(f, sh, 0, fs) == Parse(f, ZDefault(ZString([Datetime]), JStr(loadedAt)), Lookup(fs, "timestamp"))
      && FieldResult(f, sh, 1, fs) == Parse(f, ZOptional(ZNullable(ZString([Uuid]))), Lookup(fs, "actorId"))
      && FieldResult(f, sh, 2, fs) == Parse(f, ZEnum(ActorTypes), Lookup(fs, "actorType"))
      && FieldResult(f, sh, 3, fs) == Parse(f, ZString([MinLength(1)]), Lookup(fs, "action"))
      && FieldResult(f, sh, 4, fs) == Parse(f, ZOptional(ZNullable(ZString([Uuid]))), Lookup(fs, "targetId"))
      && FieldResult(f, sh, 5, fs) == Parse(f, ZOptional(ZNullable(ZString([]))), Lookup(fs, "targetType"))
      && FieldResult(f, sh, 6, fs) == Parse(f, ZOptional(ZNullable(ZString([Uuid]))), Lookup(fs, "correlationId"))
      && FieldResult(f, sh, 7, fs) == Parse(f, ZOptional(ZRecordAny), Lookup(fs, "metadata"))
      && FieldResult(f, sh, 8, fs) == Parse(f, ZOptional(ZString([])), Lookup(fs, "cryptographicHash"))
  {
    var sh := InternalCreateAuditLogSchema(loadedAt).shape;
    assert sh[0] == ("timestamp", ZDefault(ZString([Datetime]), JStr(loadedAt)));
    assert sh[1] == ("actorId", ZOptional(ZNullable(ZString([Uuid]))));
    assert sh[2] == ("actorType", ZEnum(ActorTypes));
    assert sh[3] == ("action", ZString([MinLength(1)]));
    assert sh[4] == ("targetId", ZOptional(ZNullable(ZString([Uuid]))));
    assert sh[5] == ("targetType", ZOptional(ZNullable(ZString([]))));
    assert sh[6] == ("correlationId", ZOptional(ZNullable(ZString([Uuid]))));
    assert sh[7] == ("metadata", ZOptional(ZRecordAny));
    assert sh[8] == ("cryptographicHash", ZOptional(ZString([])));
  }

  lemma InternalCreateAuditLogFieldsOnlyIf(f: Formats, loadedAt: string, fs: JsObject)
    requires forall j :: 0 <= j < |InternalCreateAuditLogSchema(loadedAt).shape| ==> FieldResult(f, InternalCreateAuditLogSchema(loadedAt).shape, j, fs).Success?
    ensures
      && DefaultedString(f, [Datetime], loadedAt, Lookup(fs, "timestamp"))
      && OptionalNullableString(f, [Uuid], Lookup(fs, "actorId"))
      && InEnum(ActorTypes, Lookup(fs, "actorType"))
      && RequiredString(f, [MinLength(1)], Lookup(fs, "action"))
      && OptionalNullableString(f, [Uuid], Lookup(fs, "targetId"))
      && OptionalNullableString(f, [], Lookup(fs, "targetType"))
      && OptionalNullableString(f, [Uuid], Lookup(fs, "correlationId"))
      && (Lookup(fs, "metadata").None? || IsRecord(Lookup(fs, "metadata")))
      && OptionalString(f, [], Lookup(fs, "cryptographicHash"))
  {
    var sh := InternalCreateAuditLogSchema(loadedAt).shape;
    InternalCreateAuditLogFieldResults(f, loadedAt, fs);
    assert DefaultedString(f, [Datetime], loadedAt, Lookup(fs, "timestamp")) by {
      assert FieldResult(f, sh, 0, fs).Success?;
      DefaultedStringField(f, [Datetime], loadedAt, Lookup(fs, "timestamp"));
    }
    assert OptionalNullableString(f, [Uuid], Lookup(fs, "actorId")) by {
      assert FieldResult(f, sh, 1, fs).Success?;
      OptionalNullableStringField(f, [Uuid], Lookup(fs, "actorId"));
    }
    assert InEnum(ActorTypes, Lookup(fs, "actorType")) by {
      assert FieldResult(f, sh, 2, fs).Success?;
      EnumField(ActorTypes, f, Lookup(fs, "actorType"));
    }
    assert RequiredString(f, [MinLength(1)], Lookup(fs, "action")) by {
      assert FieldResult(f, sh, 3, fs).Success?;
      RequiredStringField(f, [MinLength(1)], Lookup(fs, "action"));
    }
    assert OptionalNullableString(f, [Uuid], Lookup(fs, "targetId")) by {
      assert FieldResult(f, sh, 4, fs).Success?;
      OptionalNullableStringField(f, [Uuid], Lookup(fs, "targetId"));
    }
    assert OptionalNullableString(f, [], Lookup(fs, "targetType")) by {
      assert FieldResult(f, sh, 5, fs).Success?;
      OptionalNullableStringField(f, [], Lookup(fs, "targetType"));
    }
    assert OptionalNullableString(f, [Uuid], Lookup(fs, "correlationId")) by {
      assert FieldResult(f, sh, 6, fs).Success?;
      OptionalNullableStringField(f, [Uuid], Lookup(fs, "correlationId"));
    }
    assert (Lookup(fs, "metadata").None? || IsRecord(Lookup(fs, "metadata"))) by {
      assert FieldResult(f, sh, 7, fs).Success?;
      OptionalRecordField(f, Lookup(fs, "metadata"));
    }
    assert OptionalString(f, [], Lookup(fs, "cryptographicHash")) by {
      assert FieldResult(f, sh, 8, fs).Success?;
      OptionalStringField(f, [], Lookup(fs, "cryptographicHash"));
    }
  }

  lemma InternalCreateAuditLogFieldsIf(f: Formats, loadedAt: string, fs: JsObject)
    requires
      && DefaultedString(f, [Datetime], loadedAt, Lookup(fs, "timestamp"))
      && OptionalNullableString(f, [Uuid], Lookup(fs, "actorId"))
      && InEnum(ActorTypes, Lookup(fs, "actorType"))
      && RequiredString(f, [MinLength(1)], Lookup(fs, "action"))
      && OptionalNullableString(f, [Uuid], Lookup(fs, "targetId"))
      && OptionalNullableString(f, [], Lookup(fs, "targetType"))
      && OptionalNullableString(f, [Uuid], Lookup(fs, "correlationId"))
      && (Lookup(fs, "metadata").None? || IsRecord(Lookup(fs, "metadata")))
      && OptionalString(f, [], Lookup(fs, "cryptographicHash"))
    ensures forall j :: 0 <= j < |InternalCreateAuditLogSchema(loadedAt).shape| ==> FieldResult(f, InternalCreateAuditLogSchema(loadedAt).shape, j, fs).Success?
  {
    var sh := InternalCreateAuditLogSchema(loadedAt).shape;
    InternalCreateAuditLogFieldResults(f, loadedAt, fs);
    forall j | 0 <= j < 9 ensures FieldResult(f, sh, j, fs).Success? {
      if j == 0 {
        DefaultedStringField(f, [Datetime], loadedAt, Lookup(fs, "timestamp"));
      } else if j == 1 {
        OptionalNullableStringField(f, [Uuid], Lookup(fs, "actorId"));
      } else if j == 2 {
        EnumField(ActorTypes, f, Lookup(fs, "actorType"));
      } else if j == 3 {
        RequiredStringField(f, [MinLength(1)], Lookup(fs, "action"));
      } else if j == 4 {
        OptionalNullableStringField(f, [Uuid], Lookup(fs, "targetId"));
      } else if j == 5 {
        OptionalNullableStringField(f, [], Lookup(fs, "targetType"));
      } else if j == 6 {
        OptionalNullableStringField(f, [Uuid], Lookup(fs, "correlationId"));
      } else if j == 7 {
        OptionalRecordField(f, Lookup(fs, "metadata"));
      } else {
        OptionalStringField(f, [], Lookup(fs, "cryptographicHash"));
      }
    }
  }

  lemma InternalCreateAuditLogFields(f: Formats, loadedAt: string, fs: JsObject)
    ensures (forall j :: 0 <= j < |InternalCreateAuditLogSchema(loadedAt).shape| ==> FieldResult(f, InternalCreateAuditLogSchema(loadedAt).shape, j, fs).Success?) <==>
      && DefaultedString(f, [Datetime], loadedAt, Lookup(fs, "timestamp"))
      && OptionalNullableString(f, [Uuid], Lookup(fs, "actorId"))
      && InEnum(ActorTypes, Lookup(fs, "actorType"))
      && RequiredString(f, [MinLength(1)], Lookup(fs, "action"))
      && OptionalNullableString(f, [Uuid], Lookup(fs, "targetId"))
      && OptionalNullableString(f, [], Lookup(fs, "targetType"))
      && OptionalNullableString(f, [Uuid], Lookup(fs, "correlationId"))
      && (Lookup(fs, "metadata").None? || IsRecord(Lookup(fs, "metadata")))
      && OptionalString(f, [], Lookup(fs, "cryptographicHash"))
  {
    if forall j :: 0 <= j < |InternalCreateAuditLogSchema(loadedAt).shape| ==> FieldResult(f, InternalCreateAuditLogSchema(loadedAt).shape, j, fs).Success? {
      InternalCreateAuditLogFieldsOnlyIf(f, loadedAt, fs);
    }
    if
      && DefaultedString(f, [Datetime], loadedAt, Lookup(fs, "timestamp"))
      && OptionalNullableString(f, [Uuid], Lookup(fs, "actorId"))
      && InEnum(ActorTypes, Lookup(fs, "actorType"))
      && RequiredString(f, [MinLength(1)], Lookup(fs, "action"))
      && OptionalNullableString(f, [Uuid], Lookup(fs, "targetId"))
      && OptionalNullableString(f, [], Lookup(fs, "targetType"))
      && OptionalNullableString(f, [Uuid], Lookup(fs, "correlationId"))
      && (Lookup(fs, "metadata").None? || IsRecord(Lookup(fs, "metadata")))
      && OptionalString(f, [], Lookup(fs, "cryptographicHash"))
    {
      InternalCreateAuditLogFieldsIf(f, loadedAt, fs);
    }
  }

  /** A stored audit entry as returned. */
  const AuditLogEntrySchema: Schema := ZObject([
    ("id", ZString([Uuid])),
    ("timestamp", ZString([Datetime])),
    ("actorId", ZNullable(ZString([Uuid]))),
    ("actorType", ZEnum(ActorTypes)),
    ("action", ZString([])),
    ("targetId", ZNullable(ZString([Uuid]))),
    ("targetType", ZNullable(ZString([]))),
    ("correlationId", ZNullable(ZString([Uuid]))),
    ("metadata", ZNullable(ZRecordAny)),
    ("cryptographicHash", ZString([]))])

  /** What AuditLogEntrySchema accepts, field by field. */
  lemma AuditLogEntryAccepts(f: Formats, v: Json)
    ensures Parse(f, AuditLogEntrySchema, Some(v)).Success? <==>
      && v.JObj?
      && RequiredString(f, [Uuid], Lookup(v.fields, "id"))
      && RequiredString(f, [Datetime], Lookup(v.fields, "timestamp"))
      && NullableString(f, [Uuid], Lookup(v.fields, "actorId"))
      && InEnum(ActorTypes, Lookup(v.fields, "actorType"))
      && RequiredString(f, [], Lookup(v.fields, "action"))
      && NullableString(f, [Uuid], Lookup(v.fields, "targetId"))
      && NullableString(f, [], Lookup(v.fields, "targetType"))
      && NullableString(f, [Uuid], Lookup(v.fields, "correlationId"))
      && (Lookup(v.fields, "metadata") == Some(JNull) || IsRecord(Lookup(v.fields, "metadata")))
      && RequiredString(f, [], Lookup(v.fields, "cryptographicHash"))
  {
    ObjectAccepts(f, AuditLogEntrySchema, v);
    if v.JObj? {
      AuditLogEntryFields(f, v.fields);
    }
  }

  lemma AuditLogEntryFieldResults(f: Formats, fs: JsObject)
    ensures var sh := AuditLogEntrySchema.shape;
      && |sh| == 10
      && FieldResult(f, sh, 0, fs) == Parse(f, ZString([Uuid]), Lookup(fs, "id"))
      && FieldResult(f, sh, 1, fs) == Parse(f, ZString([Datetime]), Lookup(fs, "timestamp"))
      && FieldResult(f, sh, 2, fs) == Parse(f, ZNullable(ZString([Uuid])), Lookup(fs, "actorId"))
      && FieldResult(f, sh, 3, fs) == Parse(f, ZEnum(ActorTypes), Lookup(fs, "actorType"))
      && FieldResult(f, sh, 4, fs) == Parse(f, ZString([]), Lookup(fs, "action"))
      && FieldResult(f, sh, 5, fs) == Parse(f, ZNullable(ZString([Uuid])), Lookup(fs, "targetId"))
      && FieldResult(f, sh, 6, fs) == Parse(f, ZNullable(ZString([])), Lookup(fs, "targetType"))
      && FieldResult(f, sh, 7, fs) == Parse(f, ZNullable(ZString([Uuid])), Lookup(fs, "correlationId"))
      && FieldResult(f, sh, 8, fs) == Parse(f, ZNullable(ZRecordAny), Lookup(fs, "metadata"))
      && FieldResult(f, sh, 9, fs) == Parse(f, ZString([]), Lookup(fs, "cryptographicHash"))
  {
    var sh := AuditLogEntrySchema.shape;
    assert sh[0] == ("id", ZString([Uuid]));
    assert sh[1] == ("timestamp", ZString([Datetime]));
    assert sh[2] == ("actorId", ZNullable(ZString([Uuid])));
    assert sh[3] == ("actorType", ZEnum(ActorTypes));
    assert sh[4] == ("action", ZString([]));
    assert sh[5] == ("targetId", ZNullable(ZString([Uuid])));
    assert sh[6] == ("targetType", ZNullable(ZString([])));
    assert sh[7] == ("correlationId", ZNullable(ZString([Uuid])));
    assert sh[8] == ("metadata", ZNullable(ZRecordAny));
    assert sh[9] == ("cryptographicHash", ZString([]));
  }

  lemma AuditLogEntryFieldsOnlyIf(f: Formats, fs: JsObject)
    requires forall j :: 0 <= j < |AuditLogEntrySchema.shape| ==> FieldResult(f, AuditLogEntrySchema.shape, j, fs).Success?
    ensures
      && RequiredString(f, [Uuid], Lookup(fs, "id"))
      && RequiredString(f, [Datetime], Lookup(fs, "timestamp"))
      && NullableString(f, [Uuid], Lookup(fs, "actorId"))
      && InEnum(ActorTypes, Lookup(fs, "actorType"))
      && RequiredString(f, [], Lookup(fs, "action"))
      && NullableString(f, [Uuid], Lookup(fs, "targetId"))
      && NullableString(f, [], Lookup(fs, "targetType"))
      && NullableString(f, [Uuid], Lookup(fs, "correlationId"))
      && (Lookup(fs, "metadata") == Some(JNull) || IsRecord(Lookup(fs, "metadata")))
      && RequiredString(f, [], Lookup(fs, "cryptographicHash"))
  {
    var sh := AuditLogEntrySchema.shape;
    AuditLogEntryFieldResults(f, fs);
    assert RequiredString(f, [Uuid], Lookup(fs, "id")) by {
      assert FieldResult(f, sh, 0, fs).Success?;
      RequiredStringField(f, [Uuid], Lookup(fs, "id"));
    }
    assert RequiredString(f, [Datetime], Lookup(fs, "timestamp")) by {
      assert FieldResult(f, sh, 1, fs).Success?;
      RequiredStringField(f, [Datetime], Lookup(fs, "timestamp"));
    }
    assert NullableString(f, [Uuid], Lookup(fs, "actorId")) by {
      assert FieldResult(f, sh, 2, fs).Success?;
      NullableStringField(f, [Uuid], Lookup(fs, "actorId"));
    }
    assert InEnum(ActorTypes, Lookup(fs, "actorType")) by {
      assert FieldResult(f, sh, 3, fs).Success?;
      EnumField(ActorTypes, f, Lookup(fs, "actorType"));
    }
    assert RequiredString(f, [], Lookup(fs, "action")) by {
      assert FieldResult(f, sh, 4, fs).Success?;
      RequiredStringField(f, [], Lookup(fs, "action"));
    }
    assert NullableString(f, [Uuid], Lookup(fs, "targetId")) by {
      assert FieldResult(f, sh, 5, fs).Success?;
      NullableStringField(f, [Uuid], Lookup(fs, "targetId"));
    }
    assert NullableString(f, [], Lookup(fs, "targetType")) by {
      assert FieldResult(f, sh, 6, fs).Success?;
      NullableStringField(f, [], Lookup(fs, "targetType"));
    }
    assert NullableString(f, [Uuid], Lookup(fs, "correlationId")) by {
      assert FieldResult(f, sh, 7, fs).Success?;
      NullableStringField(f, [Uuid], Lookup(fs, "correlationId"));
    }
    assert (Lookup(fs, "metadata") == Some(JNull) || IsRecord(Lookup(fs, "metadata"))) by {
      assert FieldResult(f, sh, 8, fs).Success?;
      NullableRecordField(f, Lookup(fs, "metadata"));
    }
    assert RequiredString(f, [], Lookup(fs, "cryptographicHash")) by {
      assert FieldResult(f, sh, 9, fs).Success?;
      RequiredStringField(f, [], Lookup(fs, "cryptographicHash"));
    }
  }

  lemma AuditLogEntryFieldsIf(f: Formats, fs: JsObject)
    requires
      && RequiredString(f, [Uuid], Lookup(fs, "id"))
      && RequiredString(f, [Datetime], Lookup(fs, "timestamp"))
      && NullableString(f, [Uuid], Lookup(fs, "actorId"))
      && InEnum(ActorTypes, Lookup(fs, "actorType"))
      && RequiredString(f, [], Lookup(fs, "action"))
      && NullableString(f, [Uuid], Lookup(fs, "targetId"))
      && NullableString(f, [], Lookup(fs, "targetType"))
      && NullableString(f, [Uuid], Lookup(fs, "correlationId"))
      && (Lookup(fs, "metadata") == Some(JNull) || IsRecord(Lookup(fs, "metadata")))
      && RequiredString(f, [], Lookup(fs, "cryptographicHash"))
    ensures forall j :: 0 <= j < |AuditLogEntrySchema.shape| ==> FieldResult(f, AuditLogEntrySchema.shape, j, fs).Success?
  {
    var sh := AuditLogEntrySchema.shape;
    AuditLogEntryFieldResults(f, fs);
    forall j | 0 <= j < 10 ensures FieldResult(f, sh, j, fs).Success? {
      if j == 0 {
        RequiredStringField(f, [Uuid], Lookup(fs, "id"));
      } else if j == 1 {
        RequiredStringField(f, [Datetime], Lookup(fs, "timestamp"));
      } else if j == 2 {
        NullableStringField(f, [Uuid], Lookup(fs, "actorId"));
      } else if j == 3 {
        EnumField(ActorTypes, f, Lookup(fs, "actorType"));
      } else if j == 4 {
        RequiredStringField(f, [], Lookup(fs, "action"));
      } else if j == 5 {
        NullableStringField(f, [Uuid], Lookup(fs, "targetId"));
      } else if j == 6 {
        NullableStringField(f, [], Lookup(fs, "targetType"));
      } else if j == 7 {
        NullableStringField(f, [Uuid], Lookup(fs, "correlationId"));
      } else if j == 8 {
        NullableRecordField(f, Lookup(fs, "metadata"));
      } else {
        RequiredStringField(f, [], Lookup(fs, "cryptographicHash"));
      }
    }
  }

  lemma AuditLogEntryFields(f: Formats, fs: JsObject)
    ensures (forall j :: 0 <= j < |AuditLogEntrySchema.shape| ==> FieldResult(f, AuditLogEntrySchema.shape, j, fs).Success?) <==>
      && RequiredString(f, [Uuid], Lookup(fs, "id"))
      && RequiredString(f, [Datetime], Lookup(fs, "timestamp"))
      && NullableString(f, [Uuid], Lookup(fs, "actorId"))
      && InEnum(ActorTypes, Lookup(fs, "actorType"))
      && RequiredString(f, [], Lookup(fs, "action"))
      && NullableString(f, [Uuid], Lookup(fs, "targetId"))
      && NullableString(f, [], Lookup(fs, "targetType"))
      && NullableString(f, [Uuid], Lookup(fs, "correlationId"))
      && (Lookup(fs, "metadata") == Some(JNull) || IsRecord(Lookup(fs, "metadata")))
      && RequiredString(f, [], Lookup(fs, "cryptographicHash"))
  {
    if forall j :: 0 <= j < |AuditLogEntrySchema.shape| ==> FieldResult(f, AuditLogEntrySchema.shape, j, fs).Success? {
      AuditLogEntryFieldsOnlyIf(f, fs);
    }
    if
      && RequiredString(f, [Uuid], Lookup(fs, "id"))
      && RequiredString(f, [Datetime], Lookup(fs, "timestamp"))
      && NullableString(f, [Uuid], Lookup(fs, "actorId"))
      && InEnum(ActorTypes, Lookup(fs, "actorType"))
      && RequiredString(f, [], Lookup(fs, "action"))
      && NullableString(f, [Uuid], Lookup(fs, "targetId"))
      && NullableString(f, [], Lookup(fs, "targetType"))
      && NullableString(f, [Uuid], Lookup(fs, "correlationId"))
      && (Lookup(fs, "metadata") == Some(JNull) || IsRecord(Lookup(fs, "metadata")))
      && RequiredString(f, [], Lookup(fs, "cryptographicHash"))
    {
      AuditLogEntryFieldsIf(f, fs);
    }
  }

  const ListAuditLogsResponseSchema: Schema := ZArray(AuditLogEntrySchema)

  lemma ListAuditLogsResponseAccepts(f: Formats, v: Json)
    ensures Parse(f, ListAuditLogsResponseSchema, Some(v)).Success? <==>
      v.JArr? && forall i :: 0 <= i < |v.items| ==> Parse(f, AuditLogEntrySchema, Some(v.items[i])).Success?
  {
    ArrayOfObjects(f, AuditLogEntrySchema, v);
  }

  /**
   * A query that passes validation carries an integer limit in [1, 100]
   * (50 when the request gave none) and an integer offset of at least 0
   * (0 when the request gave none).
   */
  lemma GetAuditLogRequestDefaults(f: Formats, v: Json)
    requires Parse(f, GetAuditLogRequestSchema, Some(v)).Success?
    ensures v.JObj?
    ensures var out := Parse(f, GetAuditLogRequestSchema, Some(v)).value;
      && out.Some? && out.value.JObj?
      && RequiredNumber(true, Some(1), Some(100), Lookup(out.value.fields, "limit"))
      && RequiredNumber(true, Some(0), None, Lookup(out.value.fields, "offset"))
      && (Lookup(v.fields, "limit").None? ==> Lookup(out.value.fields, "limit") == Some(JNum(50.0)))
      && (Lookup(v.fields, "offset").None? ==> Lookup(out.value.fields, "offset") == Some(JNum(0.0)))
  {
    var s := GetAuditLogRequestSchema;
    PagingFields();
    DefaultNumberAt(f, s, v, 6, true, Some(1), Some(100), 50.0);
    DefaultNumberAt(f, s, v, 7, true, Some(0), None, 0.0);
  }

  /** Entries 6 and 7 of the query schema are the only `limit` and `offset`, both defaulted numbers. */
  lemma PagingFields()
    ensures var sh := GetAuditLogRequestSchema.shape;
      && |sh| == 8 && UniqueKey(sh, 6) && UniqueKey(sh, 7)
      && sh[6] == ("limit", ZDefault(ZNumber(true, Some(1), Some(100)), JNum(50.0)))
      && sh[7] == ("offset", ZDefault(ZNumber(true, Some(0), None), JNum(0.0)))
      && NumberOk(true, Some(1), Some(100), 50.0) && NumberOk(true, Some(0), None, 0.0)
  {
  }

  /**
   * A create record without a timestamp gets the one fixed when the module
   * loaded, whatever the time of the call.
   */
  lemma InternalCreateAuditLogDefaultTimestamp(f: Formats, loadedAt: string, v: Json)
    requires Parse(f, InternalCreateAuditLogSchema(loadedAt), Some(v)).Success?
    requires v.JObj? && Lookup(v.fields, "timestamp").None?
    ensures var out := Parse(f, InternalCreateAuditLogSchema(loadedAt), Some(v)).value;
      out.Some? && out.value.JObj? && Lookup(out.value.fields, "timestamp") == Some(JStr(loadedAt))
  {
    var s := InternalCreateAuditLogSchema(loadedAt);
    assert s.shape[0] == ("timestamp", ZDefault(ZString([Datetime]), JStr(loadedAt)));
    assert UniqueKey(s.shape, 0);
    DefaultStringAt(f, s, v, 0, [Datetime], loadedAt);
  }

  datatype AuditError = AuditLogNotFound | InvalidQueryParameters | UnauthorizedAccess

  function AuditErrorCode(e: AuditError): string {
    match e
    case AuditLogNotFound => "AUDIT_LOG_NOT_FOUND"
    case InvalidQueryParameters => "INVALID_QUERY_PARAMETERS"
    case UnauthorizedAccess => "UNAUTHORIZED_ACCESS"
  }

  const AuditErrorCodes: seq<string> := ["AUDIT_LOG_NOT_FOUND", "INVALID_QUERY_PARAMETERS", "UNAUTHORIZED_ACCESS"]

  /** The error codes are exactly the three listed, one per kind. */
  lemma AuditErrorCodesExact()
    ensures forall c :: c in AuditErrorCodes <==> exists e :: AuditErrorCode(e) == c
    ensures forall e1, e2 :: AuditErrorCode(e1) == AuditErrorCode(e2) ==> e1 == e2
  {
    assert AuditErrorCode(AuditLogNotFound) == AuditErrorCodes[0];
    assert AuditErrorCode(InvalidQueryParameters) == AuditErrorCodes[1];
    assert AuditErrorCode(UnauthorizedAccess) == AuditErrorCodes[2];
  }
}
