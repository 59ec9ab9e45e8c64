/** The authentication schemas. */
module AuthContract {
  import opened Wrappers
  import opened Js
  import opened Zod


  /** A registration: a valid e-mail and a password of at least eight characters. */
  const RegisterUserRequestSchema: Schema := ZObject([
    ("email", ZString([Email])),
    ("password", ZString([MinLength(8)]))])

  /** What RegisterUserRequestSchema accepts, field by field. */
  lemma RegisterUserRequestAccepts(f: Formats, v: Json)
    ensures Parse(f, RegisterUserRequestSchema, Some(v)).Success? <==>
      && v.JObj?
      && RequiredString(f, [Email], Lookup(v.fields, "email"))
      && RequiredString(f, [MinLength(8)], Lookup(v.fields, "password"))
  {
    ObjectAccepts(f, RegisterUserRequestSchema, v);
    if v.JObj? {
      RegisterUserRequestFields(f, v.fields);
    }
  }

  lemma RegisterUserRequestFieldResults(f: Formats, fs: JsObject)
    ensures var sh := RegisterUserRequestSchema.shape;
      && |sh| == 2
      && FieldResult(f, sh, 0, fs) == Parse(f, ZString([Email]), Lookup(fs, "email"))
      && FieldResult(f, sh, 1, fs) == Parse(f, ZString([MinLength(8)]), Lookup(fs, "password"))
  {
    var sh := RegisterUserRequestSchema.shape;
    assert sh[0] == ("email", ZString([Email]));
    assert sh[1] == ("password", ZString([MinLength(8)]));
  }

  lemma RegisterUserRequestFieldsOnlyIf(f: Formats, fs: JsObject)
    requires forall j :: 0 <= j < |RegisterUserRequestSchema.shape| ==> FieldResult(f, RegisterUserRequestSchema.shape, j, fs).Success?
    ensures
      && RequiredString(f, [Email], Lookup(fs, "email"))
      && RequiredString(f, [MinLength(8)], Lookup(fs, "password"))
  {
    var sh := RegisterUserRequestSchema.shape;
    RegisterUserRequestFieldResults(f, fs);
    assert RequiredString(f, [Email], Lookup(fs, "email")) by {
      assert FieldResult(f, sh, 0, fs).Success?;
      RequiredStringField(f, [Email], Lookup(fs, "email"));
    }
    assert RequiredString(f, [MinLength(8)], Lookup(fs, "password")) by {
      assert FieldResult(f, sh, 1, fs).Success?;
      RequiredStringField(f, [MinLength(8)], Lookup(fs, "password"));
    }
  }

  lemma RegisterUserRequestFieldsIf(f: Formats, fs: JsObject)
    requires
      && RequiredString(f, [Email], Lookup(fs, "email"))
      && RequiredString(f, [MinLength(8)], Lookup(fs, "password"))
    ensures forall j :: 0 <= j < |RegisterUserRequestSchema.shape| ==> FieldResult(f, RegisterUserRequestSchema.shape, j, fs).Success?
  {
    var sh := RegisterUserRequestSchema.shape;
    RegisterUserRequestFieldResults(f, fs);
    forall j | 0 <= j < 2 ensures FieldResult(f, sh, j, fs).Success? {
      if j == 0 {
        RequiredStringField(f, [Email], Lookup(fs, "email"));
      } else {
        RequiredStringField(f, [MinLength(8)], Lookup(fs, "password"));
      }
    }
  }

  lemma RegisterUserRequestFields(f: Formats, fs: JsObject)
    ensures (forall j :: 0 <= j < |RegisterUserRequestSchema.shape| ==> FieldResult(f, RegisterUserRequestSchema.shape, j, fs).Success?) <==>
      && RequiredString(f, [Email], Lookup(fs, "email"))
      && RequiredString(f, [MinLength(8)], Lookup(fs, "password"))
  {
    if forall j :: 0 <= j < |RegisterUserRequestSchema.shape| ==> FieldResult(f, RegisterUserRequestSchema.shape, j, fs).Success? {
      RegisterUserRequestFieldsOnlyIf(f, fs);
    }
    if
      && RequiredString(f, [Email], Lookup(fs, "email"))
      && RequiredString(f, [MinLength(8)], Lookup(fs, "password"))
    {
      RegisterUserRequestFieldsIf(f, fs);
    }
  }

  /** A login, under the same constraints as a registration. */
  const LoginUserRequestSchema: Schema := ZObject([
    ("email", ZString([Email])),
    ("password", ZString([MinLength(8)]))])

  /** What LoginUserRequestSchema accepts, field by field. */
  lemma LoginUserRequestAccepts(f: Formats, v: Json)
    ensures Parse(f, LoginUserRequestSchema, Some(v)).Success? <==>
      && v.JObj?
      && RequiredString(f, [Email], Lookup(v.fields, "email"))
      && RequiredString(f, [MinLength(8)], Lookup(v.fields, "password"))
  {
    ObjectAccepts(f, LoginUserRequestSchema, v);
    if v.JObj? {
      LoginUserRequestFields(f, v.fields);
    }
  }

  lemma LoginUserRequestFieldResults(f: Formats, fs: JsObject)
    ensures var sh := LoginUserRequestSchema.shape;
      && |sh| == 2
      && FieldResult(f, sh, 0, fs) == Parse(f, ZString([Email]), Lookup(fs, "email"))
      && FieldResult(f, sh, 1, fs) == Parse(f, ZString([MinLength(8)]), Lookup(fs, "password"))
  {
    var sh := LoginUserRequestSchema.shape;
    assert sh[0] == ("email", ZString([Email]));
    assert sh[1] == ("password", ZString([MinLength(8)]));
  }

  lemma LoginUserRequestFieldsOnlyIf(f: Formats, fs: JsObject)
    requires forall j :: 0 <= j < |LoginUserRequestSchema.shape| ==> FieldResult(f, LoginUserRequestSchema.shape, j, fs).Success?
    ensures
      && RequiredString(f, [Email], Lookup(fs, "email"))
      && RequiredString(f, [MinLength(8)], Lookup(fs, "password"))
  {
    var sh := LoginUserRequestSchema.shape;
    LoginUserRequestFieldResults(f, fs);
    assert RequiredString(f, [Email], Lookup(fs, "email")) by {
      assert FieldResult(f, sh, 0, fs).Success?;
      RequiredStringField(f, [Email], Lookup(fs, "email"));
    }
    assert RequiredString(f, [MinLength(8)], Lookup(fs, "password")) by {
      assert FieldResult(f, sh, 1, fs).Success?;
      RequiredStringField(f, [MinLength(8)], Lookup(fs, "password"));
    }
  }

  lemma LoginUserRequestFieldsIf(f: Formats, fs: JsObject)
    requires
      && RequiredString(f, [Email], Lookup(fs, "email"))
      && RequiredString(f, [MinLength(8)], Lookup(fs, "password"))
    ensures forall j :: 0 <= j < |LoginUserRequestSchema.shape| ==> FieldResult(f, LoginUserRequestSchema.shape, j, fs).Success?
  {
    var sh := LoginUserRequestSchema.shape;
    LoginUserRequestFieldResults(f, fs);
    forall j | 0 <= j < 2 ensures FieldResult(f, sh, j, fs).Success? {
      if j == 0 {
        RequiredStringField(f, [Email], Lookup(fs, "email"));
      } else {
        RequiredStringField(f, [MinLength(8)], Lookup(fs, "password"));
      }
    }
  }

  lemma LoginUserRequestFields(f: Formats, fs: JsObject)
    ensures (forall j :: 0 <= j < |LoginUserRequestSchema.shape| ==> FieldResult(f, LoginUserRequestSchema.shape, j, fs).Success?) <==>
      && RequiredString(f, [Email], Lookup(fs, "email"))
      && RequiredString(f, [MinLength(8)], Lookup(fs, "password"))
  {
    if forall j :: 0 <= j < |LoginUserRequestSchema.shape| ==> FieldResult(f, LoginUserRequestSchema.shape, j, fs).Success? {
      LoginUserRequestFieldsOnlyIf(f, fs);
    }
    if
      && RequiredString(f, [Email], Lookup(fs, "email"))
      && RequiredString(f, [MinLength(8)], Lookup(fs, "password"))
    {
      LoginUserRequestFieldsIf(f, fs);
    }
  }

  /** The token returned. */
  const AuthResponseSchema: Schema := ZObject([
    ("accessToken", ZString([]))])

  /** What AuthResponseSchema accepts, field by field. */
  lemma AuthResponseAccepts(f: Formats, v: Json)
    ensures Parse(f, AuthResponseSchema, Some(v)).Success? <==>
      && v.JObj?
      && RequiredString(f, [], Lookup(v.fields, "accessToken"))
  {
    ObjectAccepts(f, AuthResponseSchema, v);
    if v.JObj? {
      AuthResponseFields(f, v.fields);
    }
  }

  lemma AuthResponseFieldResults(f: Formats, fs: JsObject)
    ensures var sh := AuthResponseSchema.shape;
      && |sh| == 1
      && FieldResult(f, sh, 0, fs) == Parse(f, ZString([]), Lookup(fs, "accessToken"))
  {
    var sh := AuthResponseSchema.shape;
    assert sh[0] == ("accessToken", ZString([]));
  }

  lemma AuthResponseFieldsOnlyIf(f: Formats, fs: JsObject)
    requires forall j :: 0 <= j < |AuthResponseSchema.shape| ==> FieldResult(f, AuthResponseSchema.shape, j, fs).Success?
    ensures
      && RequiredString(f, [], Lookup(fs, "accessToken"))
  {
    var sh := AuthResponseSchema.shape;
    AuthResponseFieldResults(f, fs);
    assert RequiredString(f, [], Lookup(fs, "accessToken")) by {
      assert FieldResult(f, sh, 0, fs).Success?;
      RequiredStringField(f, [], Lookup(fs, "accessToken"));
    }
  }

  lemma AuthResponseFieldsIf(f: Formats, fs: JsObject)
    requires
      && RequiredString(f, [], Lookup(fs, "accessToken"))
    ensures forall j :: 0 <= j < |AuthResponseSchema.shape| ==> FieldResult(f, AuthResponseSchema.shape, j, fs).Success?
  {
    var sh := AuthResponseSchema.shape;
    AuthResponseFieldResults(f, fs);
    forall j | 0 <= j < 1 ensures FieldResult(f, sh, j, fs).Success? {
      RequiredStringField(f, [], Lookup(fs, "accessToken"));
    }
  }

  lemma AuthResponseFields(f: Formats, fs: JsObject)
    ensures (forall j :: 0 <= j < |AuthResponseSchema.shape| ==> FieldResult(f, AuthResponseSchema.shape, j, fs).Success?) <==>
      && RequiredString(f, [], Lookup(fs, "accessToken"))
  {
    if forall j :: 0 <= j < |AuthResponseSchema.shape| ==> FieldResult(f, AuthResponseSchema.shape, j, fs).Success? {
      AuthResponseFieldsOnlyIf(f, fs);
    }
    if
      && RequiredString(f, [], Lookup(fs, "accessToken"))
    {
      AuthResponseFieldsIf(f, fs);
    }
  }

  datatype AuthError = EmailAlreadyExists | InvalidCredentials | UserNotFound | InvalidToken | Unauthorized

  function AuthErrorCode(e: AuthError): string {
    match e
    case EmailAlreadyExists => "EMAIL_ALREADY_EXISTS"
    case InvalidCredentials => "INVALID_CREDENTIALS"
    case UserNotFound => "USER_NOT_FOUND"
    case InvalidToken => "INVALID_TOKEN"
    case Unauthorized => "UNAUTHORIZED"
  }

  const AuthErrorCodes: seq<string> := ["EMAIL_ALREADY_EXISTS", "INVALID_CREDENTIALS", "USER_NOT_FOUND", "INVALID_TOKEN", "UNAUTHORIZED"]

  /** The error codes are exactly the five listed, one per kind. */
  lemma AuthErrorCodesExact()
    ensures forall c :: c in AuthErrorCodes <==> exists e :: AuthErrorCode(e) == c
    ensures forall e1, e2 :: AuthErrorCode(e1) == AuthErrorCode(e2) ==> e1 == e2
  {
    assert AuthErrorCode(EmailAlreadyExists) == AuthErrorCodes[0];
    assert AuthErrorCode(InvalidCredentials) == AuthErrorCodes[1];
    assert AuthErrorCode(UserNotFound) == AuthErrorCodes[2];
    assert AuthErrorCode(InvalidToken) == AuthErrorCodes[3];
    assert AuthErrorCode(Unauthorized) == AuthErrorCodes[4];
  }

  /**
   * zod's `min(8)` counts UTF-16 code units: a password of four characters
   * outside the Basic Multilingual Plane is long enough, and one of seven
   * ASCII letters is not.
   */
  lemma PasswordLengthInCodeUnits(f: Formats)
    ensures StringOk(f, [MinLength(8)], "\U{1F600}\U{1F600}\U{1F600}\U{1F600}")
    ensures !StringOk(f, [MinLength(8)], "abcdefg")
  {
    assert CheckHolds(f, MinLength(8), "\U{1F600}\U{1F600}\U{1F600}\U{1F600}");
    var checks := [MinLength(8)];
    assert !CheckHolds(f, checks[0], "abcdefg");
  }

  /** Login is held to exactly the constraints of registration. */
  lemma LoginMatchesRegister(f: Formats, v: Json)
    ensures Parse(f, LoginUserRequestSchema, Some(v)).Success? <==> Parse(f, RegisterUserRequestSchema, Some(v)).Success?
  {
    RegisterUserRequestAccepts(f, v);
    LoginUserRequestAccepts(f, v);
  }
}
