/** The death-verification routes: request validation and the arguments handed to the service. */
module DeathVerificationController {
  import opened Wrappers
  import opened Js
  import opened Zod
  import opened DeathVerification

  /** A death-verification request: the user UUID and a record of supporting data. */
  const CreateDeathVerificationRequestSchema: Schema := ZObject([
    ("userId", ZString([Uuid])),
    ("verificationData", ZRecordAny)])

  /** What CreateDeathVerificationRequestSchema accepts, field by field. */
  lemma CreateDeathVerificationRequestAccepts(f: Formats, v: Json)
    ensures Parse(f, CreateDeathVerificationRequestSchema, Some(v)).Success? <==>
      && v.JObj?
      && RequiredString(f, [Uuid], Lookup(v.fields, "userId"))
      && IsRecord(Lookup(v.fields, "verificationData"))
  {
    ObjectAccepts(f, CreateDeathVerificationRequestSchema, v);
    if v.JObj? {
      CreateDeathVerificationRequestFields(f, v.fields);
    }
  }

  lemma CreateDeathVerificationRequestFieldResults(f: Formats, fs: JsObject)
    ensures var sh := CreateDeathVerificationRequestSchema.shape;
      && |sh| == 2
      && FieldResult(f, sh, 0, fs) == Parse(f, ZString([Uuid]), Lookup(fs, "userId"))
      && FieldResult(f, sh, 1, fs) == Parse(f, ZRecordAny, Lookup(fs, "verificationData"))
  {
    var sh := CreateDeathVerificationRequestSchema.shape;
    assert sh[0] == ("userId", ZString([Uuid]));
    assert sh[1] == ("verificationData", ZRecordAny);
  }

  lemma CreateDeathVerificationRequestFieldsOnlyIf(f: Formats, fs: JsObject)
    requires forall j :: 0 <= j < |CreateDeathVerificationRequestSchema.shape| ==> FieldResult(f, CreateDeathVerificationRequestSchema.shape, j, fs).Success?
    ensures
      && RequiredString(f, [Uuid], Lookup(fs, "userId"))
      && IsRecord(Lookup(fs, "verificationData"))
  {
    var sh := CreateDeathVerificationRequestSchema.shape;
    CreateDeathVerificationRequestFieldResults(f, fs);
    assert RequiredString(f, [Uuid], Lookup(fs, "userId")) by {
      assert FieldResult(f, sh, 0, fs).Success?;
      RequiredStringField(f, [Uuid], Lookup(fs, "userId"));
    }
    assert IsRecord(Lookup(fs, "verificationData")) by {
      assert FieldResult(f, sh, 1, fs).Success?;
      RecordField(f, Lookup(fs, "verificationData"));
    }
  }

  lemma CreateDeathVerificationRequestFieldsIf(f: Formats, fs: JsObject)
    requires
      && RequiredString(f, [Uuid], Lookup(fs, "userId"))
      && IsRecord(Lookup(fs, "verificationData"))
    ensures forall j :: 0 <= j < |CreateDeathVerificationRequestSchema.shape| ==> FieldResult(f, CreateDeathVerificationRequestSchema.shape, j, fs).Success?
  {
    var sh := CreateDeathVerificationRequestSchema.shape;
    CreateDeathVerificationRequestFieldResults(f, fs);
    forall j | 0 <= j < 2 ensures FieldResult(f, sh, j, fs).Success? {
      if j == 0 {
        RequiredStringField(f, [Uuid], Lookup(fs, "userId"));
      } else {
        RecordField(f, Lookup(fs, "verificationData"));
      }
    }
  }

  lemma CreateDeathVerificationRequestFields(f: Formats, fs: JsObject)
    ensures (forall j :: 0 <= j < |CreateDeathVerificationRequestSchema.shape| ==> FieldResult(f, CreateDeathVerificationRequestSchema.shape, j, fs).Success?) <==>
      && RequiredString(f, [Uuid], Lookup(fs, "userId"))
      && IsRecord(Lookup(fs, "verificationData"))
  {
    if forall j :: 0 <= j < |CreateDeathVerificationRequestSchema.shape| ==> FieldResult(f, CreateDeathVerificationRequestSchema.shape, j, fs).Success? {
      CreateDeathVerificationRequestFieldsOnlyIf(f, fs);
    }
    if
      && RequiredString(f, [Uuid], Lookup(fs, "userId"))
      && IsRecord(Lookup(fs, "verificationData"))
    {
      CreateDeathVerificationRequestFieldsIf(f, fs);
    }
  }

  /** A review: one of the stored status values, the reviewer UUID and an optional record of notes. */
  const UpdateDeathVerificationStatusRequestSchema: Schema := ZObject([
    ("status", ZEnum(StatusValues)),
    ("reviewerId", ZString([Uuid])),
    ("reviewerNotes", ZOptional(ZRecordAny))])

  /** What UpdateDeathVerificationStatusRequestSchema accepts, field by field. */
  lemma UpdateDeathVerificationStatusRequestAccepts(f: Formats, v: Json)
    ensures Parse(f, UpdateDeathVerificationStatusRequestSchema, Some(v)).Success? <==>
      && v.JObj?
      && InEnum(StatusValues, Lookup(v.fields, "status"))
      && RequiredString(f, [Uuid], Lookup(v.fields, "reviewerId"))
      && (Lookup(v.fields, "reviewerNotes").None? || IsRecord(Lookup(v.fields, "reviewerNotes")))
  {
    ObjectAccepts(f, UpdateDeathVerificationStatusRequestSchema, v);
    if v.JObj? {
      UpdateDeathVerificationStatusRequestFields(f, v.fields);
    }
  }

  lemma UpdateDeathVerificationStatusRequestFieldResults(f: Formats, fs: JsObject)
    ensures var sh := UpdateDeathVerificationStatusRequestSchema.shape;
      && |sh| == 3
      && FieldResult(f, sh, 0, fs) == Parse(f, ZEnum(StatusValues), Lookup(fs, "status"))
      && FieldResult(f, sh, 1, fs) == Parse(f, ZString([Uuid]), Lookup(fs, "reviewerId"))
      && FieldResult(f, sh, 2, fs) == Parse(f, ZOptional(ZRecordAny), Lookup(fs, "reviewerNotes"))
  {
    var sh := UpdateDeathVerificationStatusRequestSchema.shape;
    assert sh[0] == ("status", ZEnum(StatusValues));
    assert sh[1] == ("reviewerId", ZString([Uuid]));
    assert sh[2] == ("reviewerNotes", ZOptional(ZRecordAny));
  }

  lemma UpdateDeathVerificationStatusRequestFieldsOnlyIf(f: Formats, fs: JsObject)
    requires forall j :: 0 <= j < |UpdateDeathVerificationStatusRequestSchema.shape| ==> FieldResult(f, UpdateDeathVerificationStatusRequestSchema.shape, j, fs).Success?
    ensures
      && InEnum(StatusValues, Lookup(fs, "status"))
      && RequiredString(f, [Uuid], Lookup(fs, "reviewerId"))
      && (Lookup(fs, "reviewerNotes").None? || IsRecord(Lookup(fs, "reviewerNotes")))
  {
    var sh := UpdateDeathVerificationStatusRequestSchema.shape;
    UpdateDeathVerificationStatusRequestFieldResults(f, fs);
    assert InEnum(StatusValues, Lookup(fs, "status")) by {
      assert FieldResult(f, sh, 0, fs).Success?;
      EnumField(StatusValues, f, Lookup(fs, "status"));
    }
    assert RequiredString(f, [Uuid], Lookup(fs, "reviewerId")) by {
      assert FieldResult(f, sh, 1, fs).Success?;
      RequiredStringField(f, [Uuid], Lookup(fs, "reviewerId"));
    }
    assert (Lookup(fs, "reviewerNotes").None? || IsRecord(Lookup(fs, "reviewerNotes"))) by {
      assert FieldResult(f, sh, 2, fs).Success?;
      OptionalRecordField(f, Lookup(fs, "reviewerNotes"));
    }
  }

  lemma UpdateDeathVerificationStatusRequestFieldsIf(f: Formats, fs: JsObject)
    requires
      && InEnum(StatusValues, Lookup(fs, "status"))
      && RequiredString(f, [Uuid], Lookup(fs, "reviewerId"))
      && (Lookup(fs, "reviewerNotes").None? || IsRecord(Lookup(fs, "reviewerNotes")))
    ensures forall j :: 0 <= j < |UpdateDeathVerificationStatusRequestSchema.shape| ==> FieldResult(f, UpdateDeathVerificationStatusRequestSchema.shape, j, fs).Success?
  {
    var sh := UpdateDeathVerificationStatusRequestSchema.shape;
    UpdateDeathVerificationStatusRequestFieldResults(f, fs);
    forall j | 0 <= j < 3 ensures FieldResult(f, sh, j, fs).Success? {
      if j == 0 {
        EnumField(StatusValues, f, Lookup(fs, "status"));
      } else if j == 1 {
        RequiredStringField(f, [Uuid], Lookup(fs, "reviewerId"));
      } else {
        OptionalRecordField(f, Lookup(fs, "reviewerNotes"));
      }
    }
  }

  lemma UpdateDeathVerificationStatusRequestFields(f: Formats, fs: JsObject)
    ensures (forall j :: 0 <= j < |UpdateDeathVerificationStatusRequestSchema.shape| ==> FieldResult(f, UpdateDeathVerificationStatusRequestSchema.shape, j, fs).Success?) <==>
      && InEnum(StatusValues, Lookup(fs, "status"))
      && RequiredString(f, [Uuid], Lookup(fs, "reviewerId"))
      && (Lookup(fs, "reviewerNotes").None? || IsRecord(Lookup(fs, "reviewerNotes")))
  {
    if forall j :: 0 <= j < |UpdateDeathVerificationStatusRequestSchema.shape| ==> FieldResult(f, UpdateDeathVerificationStatusRequestSchema.shape, j, fs).Success? {
      UpdateDeathVerificationStatusRequestFieldsOnlyIf(f, fs);
    }
    if
      && InEnum(StatusValues, Lookup(fs, "status"))
      && RequiredString(f, [Uuid], Lookup(fs, "reviewerId"))
      && (Lookup(fs, "reviewerNotes").None? || IsRecord(Lookup(fs, "reviewerNotes")))
    {
      UpdateDeathVerificationStatusRequestFieldsIf(f, fs);
    }
  }

  /** The arguments `createRequest` hands to the service. */
  datatype CreateCall = CreateCall(userId: string, verificationData: JsObject, correlationId: string)

  /** The arguments `updateStatus` hands to the service. */
  datatype UpdateCall = UpdateCall(id: string, status: Status, reviewerId: string, reviewerNotes: JsObject, correlationId: string)

  /** The validated create body carries the request's own user id and data. */
  lemma CreateDeathVerificationRequestOutput(f: Formats, v: Json)
    requires Parse(f, CreateDeathVerificationRequestSchema, Some(v)).Success?
    ensures v.JObj?
    ensures var out := Parse(f, CreateDeathVerificationRequestSchema, Some(v)).value;
      && out.Some? && out.value.JObj?
      && RequiredString(f, [Uuid], Lookup(v.fields, "userId"))
      && IsRecord(Lookup(v.fields, "verificationData"))
      && Lookup(out.value.fields, "userId") == Lookup(v.fields, "userId")
      && Lookup(out.value.fields, "verificationData") == Lookup(v.fields, "verificationData")
  {
    var s := CreateDeathVerificationRequestSchema;
    CreateKeys();
    PreservedAt(f, s, v, 0);
    PreservedAt(f, s, v, 1);
    CreateDeathVerificationRequestAccepts(f, v);
  }

  lemma CreateKeys()
    ensures var sh := CreateDeathVerificationRequestSchema.shape;
      && |sh| == 2 && UniqueKey(sh, 0) && UniqueKey(sh, 1)
      && sh[0].0 == "userId" && sh[1].0 == "verificationData"
      && Preserving(sh[0].1) && Preserving(sh[1].1)
  {
  }

  /** The validated update body carries the request's own status, reviewer and notes. */
  lemma UpdateDeathVerificationStatusRequestOutput(f: Formats, v: Json)
    requires Parse(f, UpdateDeathVerificationStatusRequestSchema, Some(v)).Success?
    ensures v.JObj?
    ensures var out := Parse(f, UpdateDeathVerificationStatusRequestSchema, Some(v)).value;
      && out.Some? && out.value.JObj?
      && InEnum(StatusValues, Lookup(v.fields, "status"))
      && RequiredString(f, [Uuid], Lookup(v.fields, "reviewerId"))
      && (Lookup(v.fields, "reviewerNotes").None? || IsRecord(Lookup(v.fields, "reviewerNotes")))
      && Lookup(out.value.fields, "status") == Lookup(v.fields, "status")
      && Lookup(out.value.fields, "reviewerId") == Lookup(v.fields, "reviewerId")
      && Lookup(out.value.fields, "reviewerNotes") == Lookup(v.fields, "reviewerNotes")
  {
    var s := UpdateDeathVerificationStatusRequestSchema;
    UpdateKeys();
    PreservedAt(f, s, v, 0);
    PreservedAt(f, s, v, 1);
    PreservedAt(f, s, v, 2);
    UpdateDeathVerificationStatusRequestAccepts(f, v);
  }

  lemma UpdateKeys()
    ensures var sh := UpdateDeathVerificationStatusRequestSchema.shape;
      && |sh| == 3 && UniqueKey(sh, 0) && UniqueKey(sh, 1) && UniqueKey(sh, 2)
      && sh[0].0 == "status" && sh[1].0 == "reviewerId" && sh[2].0 == "reviewerNotes"
      && Preserving(sh[0].1) && Preserving(sh[1].1) && Preserving(sh[2].1)
  {
  }

  /**
   * `createRequest`: the body is validated, and the service gets the
   * validated user id and data with the request's correlation id, or ''.
   */
  function CreateRequest(f: Formats, body: Json, requestCorrelationId: Option<string>): (r: Result<CreateCall, ZodError>)
    ensures r.Success? <==> Parse(f, CreateDeathVerificationRequestSchema, Some(body)).Success?
    ensures r.Success? ==>
      && body.JObj?
      && Lookup(body.fields, "userId") == Some(JStr(r.value.userId))
      && StringOk(f, [Uuid], r.value.userId)
      && Lookup(body.fields, "verificationData") == Some(JObj(r.value.verificationData))
      && r.value.correlationId == OrEmpty(requestCorrelationId)
  {
    var p := Parse(f, CreateDeathVerificationRequestSchema, Some(body));
    if p.Failure? then Failure(p.error)
    else
      CreateDeathVerificationRequestOutput(f, body);
      var out := p.value.value.fields;
      Success(CreateCall(Lookup(out, "userId").value.s, Lookup(out, "verificationData").value.fields,
                         OrEmpty(requestCorrelationId)))
  }

  /**
   * `updateStatus` with the status enum taken from the entity, as the route
   * evidently intends: the body is validated, and the service gets the route's
   * id, the validated status and reviewer, the notes or `{}` when there are
   * none, and the correlation id or ''.
   */
  function UpdateStatusRequest(f: Formats, id: string, body: Json, requestCorrelationId: Option<string>): (r: Result<UpdateCall, ZodError>)
    ensures r.Success? <==> Parse(f, UpdateDeathVerificationStatusRequestSchema, Some(body)).Success?
    ensures r.Success? ==>
      && body.JObj?
      && r.value.id == id
      && Lookup(body.fields, "status") == Some(JStr(StatusValue(r.value.status)))
      && Lookup(body.fields, "reviewerId") == Some(JStr(r.value.reviewerId))
      && StringOk(f, [Uuid], r.value.reviewerId)
      && (Lookup(body.fields, "reviewerNotes").None? ==> r.value.reviewerNotes == [])
      && (Lookup(body.fields, "reviewerNotes").Some? ==> Lookup(body.fields, "reviewerNotes") == Some(JObj(r.value.reviewerNotes)))
      && r.value.correlationId == OrEmpty(requestCorrelationId)
  {
    var p := Parse(f, UpdateDeathVerificationStatusRequestSchema, Some(body));
    if p.Failure? then Failure(p.error)
    else
      UpdateDeathVerificationStatusRequestOutput(f, body);
      var out := p.value.value.fields;
      var notes := Lookup(out, "reviewerNotes");
      Success(UpdateCall(id, StatusOf(Lookup(out, "status").value.s).value, Lookup(out, "reviewerId").value.s,
                         if notes.Some? && Truthy(notes.value) then notes.value.fields else [],
                         OrEmpty(requestCorrelationId)))
  }

  /**
   * How validating an update body ends as written. The route imports
   * `DeathVerificationStatus` from the service module, which imports it from
   * the entity but does not export it, so the status field is
   * `z.nativeEnum(undefined)`. zod refuses a body that is not an object
   * before it looks at any field; for an object, parsing the status field asks
   * for the keys of `undefined` and throws a TypeError.
   */
  datatype AsWrittenRejection = NotAnObject(error: ZodError) | StatusEnumThrows

  /** `updateStatus` as written: no body gets past validation to the service. */
  function UpdateStatusRequestAsWritten(f: Formats, id: string, body: Json, requestCorrelationId: Option<string>): (r: Result<UpdateCall, AsWrittenRejection>)
    ensures r.Failure?
    ensures r.error.NotAnObject? <==> !body.JObj?
  {
    if !body.JObj? then Failure(NotAnObject(ZodError)) else Failure(StatusEnumThrows)
  }

  /**
   * Every review the intended schema (the entity's four values) accepts makes
   * the as-written route throw instead of reaching the service.
   */
  lemma ValidReviewThrowsAsWritten(f: Formats, id: string, body: Json, requestCorrelationId: Option<string>)
    requires UpdateStatusRequest(f, id, body, requestCorrelationId).Success?
    ensures UpdateStatusRequestAsWritten(f, id, body, requestCorrelationId) == Failure(StatusEnumThrows)
  {
  }

  /** Every value of the status enum is accepted as a status, and nothing else is. */
  lemma StatusFieldAccepts(f: Formats, o: Option<Json>)
    ensures Parse(f, ZEnum(StatusValues), o).Success? <==> o.Some? && o.value.JStr? && StatusOf(o.value.s).Some?
  {
  }
}
