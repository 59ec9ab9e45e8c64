/** The user-profile schemas. */
module UserContract {
  import opened Wrappers
  import opened Js
  import opened Zod


  /** A profile lookup. */
  const GetUserProfileRequestSchema: Schema := ZObject([
    ("userId", ZString([Uuid]))])

  /** What GetUserProfileRequestSchema accepts, field by field. */
  lemma GetUserProfileRequestAccepts(f: Formats, v: Json)
    ensures Parse(f, GetUserProfileRequestSchema, Some(v)).Success? <==>
      && v.JObj?
      && RequiredString(f, [Uuid], Lookup(v.fields, "userId"))
  {
    ObjectAccepts(f, GetUserProfileRequestSchema, v);
    if v.JObj? {
      GetUserProfileRequestFields(f, v.fields);
    }
  }

  lemma GetUserProfileRequestFieldResults(f: Formats, fs: JsObject)
    ensures var sh := GetUserProfileRequestSchema.shape;
      && |sh| == 1
      && FieldResult(f, sh, 0, fs) == Parse(f, ZString([Uuid]), Lookup(fs, "userId"))
  {
    var sh := GetUserProfileRequestSchema.shape;
    assert sh[0] == ("userId", ZString([Uuid]));
  }

  lemma GetUserProfileRequestFieldsOnlyIf(f: Formats, fs: JsObject)
    requires forall j :: 0 <= j < |GetUserProfileRequestSchema.shape| ==> FieldResult(f, GetUserProfileRequestSchema.shape, j, fs).Success?
    ensures
      && RequiredString(f, [Uuid], Lookup(fs, "userId"))
  {
    var sh := GetUserProfileRequestSchema.shape;
    GetUserProfileRequestFieldResults(f, fs);
    assert RequiredString(f, [Uuid], Lookup(fs, "userId")) by {
      assert FieldResult(f, sh, 0, fs).Success?;
      RequiredStringField(f, [Uuid], Lookup(fs, "userId"));
    }
  }

  lemma GetUserProfileRequestFieldsIf(f: Formats, fs: JsObject)
    requires
      && RequiredString(f, [Uuid], Lookup(fs, "userId"))
    ensures forall j :: 0 <= j < |GetUserProfileRequestSchema.shape| ==> FieldResult(f, GetUserProfileRequestSchema.shape, j, fs).Success?
  {
    var sh := GetUserProfileRequestSchema.shape;
    GetUserProfileRequestFieldResults(f, fs);
    forall j | 0 <= j < 1 ensures FieldResult(f, sh, j, fs).Success? {
      RequiredStringField(f, [Uuid], Lookup(fs, "userId"));
    }
  }

  lemma GetUserProfileRequestFields(f: Formats, fs: JsObject)
    ensures (forall j :: 0 <= j < |GetUserProfileRequestSchema.shape| ==> FieldResult(f, GetUserProfileRequestSchema.shape, j, fs).Success?) <==>
      && RequiredString(f, [Uuid], Lookup(fs, "userId"))
  {
    if forall j :: 0 <= j < |GetUserProfileRequestSchema.shape| ==> FieldResult(f, GetUserProfileRequestSchema.shape, j, fs).Success? {
      GetUserProfileRequestFieldsOnlyIf(f, fs);
    }
    if
      && RequiredString(f, [Uuid], Lookup(fs, "userId"))
    {
      GetUserProfileRequestFieldsIf(f, fs);
    }
  }

  /** A profile update: the user UUID, non-empty names and a datetime birth date when present. */
  const UpdateUserProfileRequestSchema: Schema := ZObject([
    ("userId", ZString([Uuid])),
    ("firstName", ZOptional(ZString([MinLength(1)]))),
    ("lastName", ZOptional(ZString([MinLength(1)]))),
    ("dateOfBirth", ZOptional(ZString([Datetime])))])

  /** What UpdateUserProfileRequestSchema accepts, field by field. */
  lemma UpdateUserProfileRequestAccepts(f: Formats, v: Json)
    ensures Parse(f, UpdateUserProfileRequestSchema, Some(v)).Success? <==>
      && v.JObj?
      && RequiredString(f, [Uuid], Lookup(v.fields, "userId"))
      && OptionalString(f, [MinLength(1)], Lookup(v.fields, "firstName"))
      && OptionalString(f, [MinLength(1)], Lookup(v.fields, "lastName"))
      && OptionalString(f, [Datetime], Lookup(v.fields, "dateOfBirth"))
  {
    ObjectAccepts(f, UpdateUserProfileRequestSchema, v);
    if v.JObj? {
      UpdateUserProfileRequestFields(f, v.fields);
    }
  }

  lemma UpdateUserProfileRequestFieldResults(f: Formats, fs: JsObject)
    ensures var sh := UpdateUserProfileRequestSchema.shape;
      && |sh| == 4
      && FieldResult(f, sh, 0, fs) == Parse(f, ZString([Uuid]), Lookup(fs, "userId"))
      && FieldResult(f, sh, 1, fs) == Parse(f, ZOptional(ZString([MinLength(1)])), Lookup(fs, "firstName"))
      && FieldResult(f, sh, 2, fs) == Parse(f, ZOptional(ZString([MinLength(1)])), Lookup(fs, "lastName"))
      && FieldResult(f, sh, 3, fs) == Parse(f, ZOptional(ZString([Datetime])), Lookup(fs, "dateOfBirth"))
  {
    var sh := UpdateUserProfileRequestSchema.shape;
    assert sh[0] == ("userId", ZString([Uuid]));
    assert sh[1] == ("firstName", ZOptional(ZString([MinLength(1)])));
    assert sh[2] == ("lastName", ZOptional(ZString([MinLength(1)])));
    assert sh[3] == ("dateOfBirth", ZOptional(ZString([Datetime])));
  }

  lemma UpdateUserProfileRequestFieldsOnlyIf(f: Formats, fs: JsObject)
    requires forall j :: 0 <= j < |UpdateUserProfileRequestSchema.shape| ==> FieldResult(f, UpdateUserProfileRequestSchema.shape, j, fs).Success?
    ensures
      && RequiredString(f, [Uuid], Lookup(fs, "userId"))
      && OptionalString(f, [MinLength(1)], Lookup(fs, "firstName"))
      && OptionalString(f, [MinLength(1)], Lookup(fs, "lastName"))
      && OptionalString(f, [Datetime], Lookup(fs, "dateOfBirth"))
  {
    var sh := UpdateUserProfileRequestSchema.shape;
    UpdateUserProfileRequestFieldResults(f, fs);
    assert RequiredString(f, [Uuid], Lookup(fs, "userId")) by {
      assert FieldResult(f, sh, 0, fs).Success?;
      RequiredStringField(f, [Uuid], Lookup(fs, "userId"));
    }
    assert OptionalString(f, [MinLength(1)], Lookup(fs, "firstName")) by {
      assert FieldResult(f, sh, 1, fs).Success?;
      OptionalStringField(f, [MinLength(1)], Lookup(fs, "firstName"));
    }
    assert OptionalString(f, [MinLength(1)], Lookup(fs, "lastName")) by {
      assert FieldResult(f, sh, 2, fs).Success?;
      OptionalStringField(f, [MinLength(1)], Lookup(fs, "lastName"));
    }
    assert OptionalString(f, [Datetime], Lookup(fs, "dateOfBirth")) by {
      assert FieldResult(f, sh, 3, fs).Success?;
      OptionalStringField(f, [Datetime], Lookup(fs, "dateOfBirth"));
    }
  }

  lemma UpdateUserProfileRequestFieldsIf(f: Formats, fs: JsObject)
    requires
      && RequiredString(f, [Uuid], Lookup(fs, "userId"))
      && OptionalString(f, [MinLength(1)], Lookup(fs, "firstName"))
      && OptionalString(f, [MinLength(1)], Lookup(fs, "lastName"))
      && OptionalString(f, [Datetime], Lookup(fs, "dateOfBirth"))
    ensures forall j :: 0 <= j < |UpdateUserProfileRequestSchema.shape| ==> FieldResult(f, UpdateUserProfileRequestSchema.shape, j, fs).Success?
  {
    var sh := UpdateUserProfileRequestSchema.shape;
    UpdateUserProfileRequestFieldResults(f, fs);
    forall j | 0 <= j < 4 ensures FieldResult(f, sh, j, fs).Success? {
      if j == 0 {
        RequiredStringField(f, [Uuid], Lookup(fs, "userId"));
      } else if j == 1 {
        OptionalStringField(f, [MinLength(1)], Lookup(fs, "firstName"));
      } else if j == 2 {
        OptionalStringField(f, [MinLength(1)], Lookup(fs, "lastName"));
      } else {
        OptionalStringField(f, [Datetime], Lookup(fs, "dateOfBirth"));
      }
    }
  }

  lemma UpdateUserProfileRequestFields(f: Formats, fs: JsObject)
    ensures (forall j :: 0 <= j < |UpdateUserProfileRequestSchema.shape| ==> FieldResult(f, UpdateUserProfileRequestSchema.shape, j, fs).Success?) <==>
      && RequiredString(f, [Uuid], Lookup(fs, "userId"))
      && OptionalString(f, [MinLength(1)], Lookup(fs, "firstName"))
      && OptionalString(f, [MinLength(1)], Lookup(fs, "lastName"))
      && OptionalString(f, [Datetime], Lookup(fs, "dateOfBirth"))
  {
    if forall j :: 0 <= j < |UpdateUserProfileRequestSchema.shape| ==> FieldResult(f, UpdateUserProfileRequestSchema.shape, j, fs).Success? {
      UpdateUserProfileRequestFieldsOnlyIf(f, fs);
    }
    if
      && RequiredString(f, [Uuid], Lookup(fs, "userId"))
      && OptionalString(f, [MinLength(1)], Lookup(fs, "firstName"))
      && OptionalString(f, [MinLength(1)], Lookup(fs, "lastName"))
      && OptionalString(f, [Datetime], Lookup(fs, "dateOfBirth"))
    {
      UpdateUserProfileRequestFieldsIf(f, fs);
    }
  }

  /** A profile as returned. */
  const UserProfileResponseSchema: Schema := ZObject([
    ("id", ZString([Uuid])),
    ("email", ZString([Email])),
    ("firstName", ZOptional(ZNullable(ZString([])))),
    ("lastName", ZOptional(ZNullable(ZString([])))),
    ("dateOfBirth", ZOptional(ZNullable(ZString([Datetime])))),
    ("createdAt", ZString([Datetime])),
    ("updatedAt", ZString([Datetime]))])

  /** What UserProfileResponseSchema accepts, field by field. */
  lemma UserProfileResponseAccepts(f: Formats, v: Json)
    ensures Parse(f, UserProfileResponseSchema, Some(v)).Success? <==>
      && v.JObj?
      && RequiredString(f, [Uuid], Lookup(v.fields, "id"))
      && RequiredString(f, [Email], Lookup(v.fields, "email"))
      && OptionalNullableString(f, [], Lookup(v.fields, "firstName"))
      && OptionalNullableString(f, [], Lookup(v.fields, "lastName"))
      && OptionalNullableString(f, [Datetime], Lookup(v.fields, "dateOfBirth"))
      && RequiredString(f, [Datetime], Lookup(v.fields, "createdAt"))
      && RequiredString(f, [Datetime], Lookup(v.fields, "updatedAt"))
  {
    ObjectAccepts(f, UserProfileResponseSchema, v);
    if v.JObj? {
      UserProfileResponseFields(f, v.fields);
    }
  }

  lemma UserProfileResponseFieldResults(f: Formats, fs: JsObject)
    ensures var sh := UserProfileResponseSchema.shape;
      && |sh| == 7
      && FieldResult(f, sh, 0, fs) == Parse(f, ZString([Uuid]), Lookup(fs, "id"))
      && FieldResult(f, sh, 1, fs) == Parse(f, ZString([Email]), Lookup(fs, "email"))
      && FieldResult(f, sh, 2, fs) == Parse(f, ZOptional(ZNullable(ZString([]))), Lookup(fs, "firstName"))
      && FieldResult(f, sh, 3, fs) == Parse(f, ZOptional(ZNullable(ZString([]))), Lookup(fs, "lastName"))
      && FieldResult(f, sh, 4, fs) == Parse(f, ZOptional(ZNullable(ZString([Datetime]))), Lookup(fs, "dateOfBirth"))
      && FieldResult(f, sh, 5, fs) == Parse(f, ZString([Datetime]), Lookup(fs, "createdAt"))
      && FieldResult(f, sh, 6, fs) == Parse(f, ZString([Datetime]), Lookup(fs, "updatedAt"))
  {
    var sh := UserProfileResponseSchema.shape;
    assert sh[0] == ("id", ZString([Uuid]));
    assert sh[1] == ("email", ZString([Email]));
    assert sh[2] == ("firstName", ZOptional(ZNullable(ZString([]))));
    assert sh[3] == ("lastName", ZOptional(ZNullable(ZString([]))));
    assert sh[4] == ("dateOfBirth", ZOptional(ZNullable(ZString([Datetime]))));
    assert sh[5] == ("createdAt", ZString([Datetime]));
    assert sh[6] == ("updatedAt", ZString([Datetime]));
  }

  lemma UserProfileResponseFieldsOnlyIf(f: Formats, fs: JsObject)
    requires forall j :: 0 <= j < |UserProfileResponseSchema.shape| ==> FieldResult(f, UserProfileResponseSchema.shape, j, fs).Success?
    ensures
      && RequiredString(f, [Uuid], Lookup(fs, "id"))
      && RequiredString(f, [Email], Lookup(fs, "email"))
      && OptionalNullableString(f, [], Lookup(fs, "firstName"))
      && OptionalNullableString(f, [], Lookup(fs, "lastName"))
      && OptionalNullableString(f, [Datetime], Lookup(fs, "dateOfBirth"))
      && RequiredString(f, [Datetime], Lookup(fs, "createdAt"))
      && RequiredString(f, [Datetime], Lookup(fs, "updatedAt"))
  {
    var sh := UserProfileResponseSchema.shape;
    UserProfileResponseFieldResults(f, fs);
    assert RequiredString(f, [Uuid], Lookup(fs, "id")) by {
      assert FieldResult(f, sh, 0, fs).Success?;
      RequiredStringField(f, [Uuid], Lookup(fs, "id"));
    }
    assert RequiredString(f, [Email], Lookup(fs, "email")) by {
      assert FieldResult(f, sh, 1, fs).Success?;
      RequiredStringField(f, [Email], Lookup(fs, "email"));
    }
    assert OptionalNullableString(f, [], Lookup(fs, "firstName")) by {
      assert FieldResult(f, sh, 2, fs).Success?;
      OptionalNullableStringField(f, [], Lookup(fs, "firstName"));
    }
    assert OptionalNullableString(f, [], Lookup(fs, "lastName")) by {
      assert FieldResult(f, sh, 3, fs).Success?;
      OptionalNullableStringField(f, [], Lookup(fs, "lastName"));
    }
    assert OptionalNullableString(f, [Datetime], Lookup(fs, "dateOfBirth")) by {
      assert FieldResult(f, sh, 4, fs).Success?;
      OptionalNullableStringField(f, [Datetime], Lookup(fs, "dateOfBirth"));
    }
    assert RequiredString(f, [Datetime], Lookup(fs, "createdAt")) by {
      assert FieldResult(f, sh, 5, fs).Success?;
      RequiredStringField(f, [Datetime], Lookup(fs, "createdAt"));
    }
    assert RequiredString(f, [Datetime], Lookup(fs, "updatedAt")) by {
      assert FieldResult(f, sh, 6, fs).Success?;
      RequiredStringField(f, [Datetime], Lookup(fs, "updatedAt"));
    }
  }

  lemma UserProfileResponseFieldsIf(f: Formats, fs: JsObject)
    requires
      && RequiredString(f, [Uuid], Lookup(fs, "id"))
      && RequiredString(f, [Email], Lookup(fs, "email"))
      && OptionalNullableString(f, [], Lookup(fs, "firstName"))
      && OptionalNullableString(f, [], Lookup(fs, "lastName"))
      && OptionalNullableString(f, [Datetime], Lookup(fs, "dateOfBirth"))
      && RequiredString(f, [Datetime], Lookup(fs, "createdAt"))
      && RequiredString(f, [Datetime], Lookup(fs, "updatedAt"))
    ensures forall j :: 0 <= j < |UserProfileResponseSchema.shape| ==> FieldResult(f, UserProfileResponseSchema.shape, j, fs).Success?
  {
    var sh := UserProfileResponseSchema.shape;
    UserProfileResponseFieldResults(f, fs);
    forall j | 0 <= j < 7 ensures FieldResult(f, sh, j, fs).Success? {
      if j == 0 {
        RequiredStringField(f, [Uuid], Lookup(fs, "id"));
      } else if j == 1 {
        RequiredStringField(f, [Email], Lookup(fs, "email"));
      } else if j == 2 {
        OptionalNullableStringField(f, [], Lookup(fs, "firstName"));
      } else if j == 3 {
        OptionalNullableStringField(f, [], Lookup(fs, "lastName"));
      } else if j == 4 {
        OptionalNullableStringField(f, [Datetime], Lookup(fs, "dateOfBirth"));
      } else if j == 5 {
        RequiredStringField(f, [Datetime], Lookup(fs, "createdAt"));
      } else {
        RequiredStringField(f, [Datetime], Lookup(fs, "updatedAt"));
      }
    }
  }

  lemma UserProfileResponseFields(f: Formats, fs: JsObject)
    ensures (forall j :: 0 <= j < |UserProfileResponseSchema.shape| ==> FieldResult(f, UserProfileResponseSchema.shape, j, fs).Success?) <==>
      && RequiredString(f, [Uuid], Lookup(fs, "id"))
      && RequiredString(f, [Email], Lookup(fs, "email"))
      && OptionalNullableString(f, [], Lookup(fs, "firstName"))
      && OptionalNullableString(f, [], Lookup(fs, "lastName"))
      && OptionalNullableString(f, [Datetime], Lookup(fs, "dateOfBirth"))
      && RequiredString(f, [Datetime], Lookup(fs, "createdAt"))
      && RequiredString(f, [Datetime], Lookup(fs, "updatedAt"))
  {
    if forall j :: 0 <= j < |UserProfileResponseSchema.shape| ==> FieldResult(f, UserProfileResponseSchema.shape, j, fs).Success? {
      UserProfileResponseFieldsOnlyIf(f, fs);
    }
    if
      && RequiredString(f, [Uuid], Lookup(fs, "id"))
      && RequiredString(f, [Email], Lookup(fs, "email"))
      && OptionalNullableString(f, [], Lookup(fs, "firstName"))
      && OptionalNullableString(f, [], Lookup(fs, "lastName"))
      && OptionalNullableString(f, [Datetime], Lookup(fs, "dateOfBirth"))
      && RequiredString(f, [Datetime], Lookup(fs, "createdAt"))
      && RequiredString(f, [Datetime], Lookup(fs, "updatedAt"))
    {
      UserProfileResponseFieldsIf(f, fs);
    }
  }

  datatype UserError = UserNotFound | InvalidData | UnauthorizedAccess

  function UserErrorCode(e: UserError): string {
    match e
    case UserNotFound => "USER_NOT_FOUND"
    case InvalidData => "INVALID_DATA"
    case UnauthorizedAccess => "UNAUTHORIZED_ACCESS"
  }

  const UserErrorCodes: seq<string> := ["USER_NOT_FOUND", "INVALID_DATA", "UNAUTHORIZED_ACCESS"]

  /** The error codes are exactly the three listed, one per kind. */
  lemma UserErrorCodesExact()
    ensures forall c :: c in UserErrorCodes <==> exists e :: UserErrorCode(e) == c
    ensures forall e1, e2 :: UserErrorCode(e1) == UserErrorCode(e2) ==> e1 == e2
  {
    assert UserErrorCode(UserNotFound) == UserErrorCodes[0];
    assert UserErrorCode(InvalidData) == UserErrorCodes[1];
    assert UserErrorCode(UnauthorizedAccess) == UserErrorCodes[2];
  }
}
