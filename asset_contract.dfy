/** The asset-vault service's request and response schemas. */
module AssetContract {
  import opened Wrappers
  import opened Js
  import opened Zod


  /** A new asset: non-empty name and type, any string of encrypted details, the owner UUID, an optional description. */
  const CreateAssetRequestSchema: Schema := ZObject([
    ("name", ZString([MinLength(1)])),
    ("description", ZOptional(ZString([]))),
    ("type", ZString([MinLength(1)])),
    ("encryptedDetails", ZString([])),
    ("ownerId", ZString([Uuid]))])

  /** What CreateAssetRequestSchema accepts, field by field. */
  lemma CreateAssetRequestAccepts(f: Formats, v: Json)
    ensures Parse(f, CreateAssetRequestSchema, Some(v)).Success? <==>
      && v.JObj?
      && RequiredString(f, [MinLength(1)], Lookup(v.fields, "name"))
      && OptionalString(f, [], Lookup(v.fields, "description"))
      && RequiredString(f, [MinLength(1)], Lookup(v.fields, "type"))
      && RequiredString(f, [], Lookup(v.fields, "encryptedDetails"))
      && RequiredString(f, [Uuid], Lookup(v.fields, "ownerId"))
  {
    ObjectAccepts(f, CreateAssetRequestSchema, v);
    if v.JObj? {
      CreateAssetRequestFields(f, v.fields);
    }
  }

  lemma CreateAssetRequestFieldResults(f: Formats, fs: JsObject)
    ensures var sh := CreateAssetRequestSchema.shape;
      && |sh| == 5
      && FieldResult(f, sh, 0, fs) == Parse(f, ZString([MinLength(1)]), Lookup(fs, "name"))
      && FieldResult(f, sh, 1, fs) == Parse(f, ZOptional(ZString([])), Lookup(fs, "description"))
      && FieldResult(f, sh, 2, fs) == Parse(f, ZString([MinLength(1)]), Lookup(fs, "type"))
      && FieldResult(f, sh, 3, fs) == Parse(f, ZString([]), Lookup(fs, "encryptedDetails"))
      && FieldResult(f, sh, 4, fs) == Parse(f, ZString([Uuid]), Lookup(fs, "ownerId"))
  {
    var sh := CreateAssetRequestSchema.shape;
    assert sh[0] == ("name", ZString([MinLength(1)]));
    assert sh[1] == ("description", ZOptional(ZString([])));
    assert sh[2] == ("type", ZString([MinLength(1)]));
    assert sh[3] == ("encryptedDetails", ZString([]));
    assert sh[4] == ("ownerId", ZString([Uuid]));
  }

  lemma CreateAssetRequestFieldsOnlyIf(f: Formats, fs: JsObject)
    requires forall j :: 0 <= j < |CreateAssetRequestSchema.shape| ==> FieldResult(f, CreateAssetRequestSchema.shape, j, fs).Success?
    ensures
      && RequiredString(f, [MinLength(1)], Lookup(fs, "name"))
      && OptionalString(f, [], Lookup(fs, "description"))
      && RequiredString(f, [MinLength(1)], Lookup(fs, "type"))
      && RequiredString(f, [], Lookup(fs, "encryptedDetails"))
      && RequiredString(f, [Uuid], Lookup(fs, "ownerId"))
  {
    var sh := CreateAssetRequestSchema.shape;
    CreateAssetRequestFieldResults(f, fs);
    assert RequiredString(f, [MinLength(1)], Lookup(fs, "name")) by {
      assert FieldResult(f, sh, 0, fs).Success?;
      RequiredStringField(f, [MinLength(1)], Lookup(fs, "name"));
    }
    assert OptionalString(f, [], Lookup(fs, "description")) by {
      assert FieldResult(f, sh, 1, fs).Success?;
      OptionalStringField(f, [], Lookup(fs, "description"));
    }
    assert RequiredString(f, [MinLength(1)], Lookup(fs, "type")) by {
      assert FieldResult(f, sh, 2, fs).Success?;
      RequiredStringField(f, [MinLength(1)], Lookup(fs, "type"));
    }
    assert RequiredString(f, [], Lookup(fs, "encryptedDetails")) by {
      assert FieldResult(f, sh, 3, fs).Success?;
      RequiredStringField(f, [], Lookup(fs, "encryptedDetails"));
    }
    assert RequiredString(f, [Uuid], Lookup(fs, "ownerId")) by {
      assert FieldResult(f, sh, 4, fs).Success?;
      RequiredStringField(f, [Uuid], Lookup(fs, "ownerId"));
    }
  }

  lemma CreateAssetRequestFieldsIf(f: Formats, fs: JsObject)
    requires
      && RequiredString(f, [MinLength(1)], Lookup(fs, "name"))
      && OptionalString(f, [], Lookup(fs, "description"))
      && RequiredString(f, [MinLength(1)], Lookup(fs, "type"))
      && RequiredString(f, [], Lookup(fs, "encryptedDetails"))
      && RequiredString(f, [Uuid], Lookup(fs, "ownerId"))
    ensures forall j :: 0 <= j < |CreateAssetRequestSchema.shape| ==> FieldResult(f, CreateAssetRequestSchema.shape, j, fs).Success?
  {
    var sh := CreateAssetRequestSchema.shape;
    CreateAssetRequestFieldResults(f, fs);
    forall j | 0 <= j < 5 ensures FieldResult(f, sh, j, fs).Success? {
      if j == 0 {
        RequiredStringField(f, [MinLength(1)], Lookup(fs, "name"));
      } else if j == 1 {
        OptionalStringField(f, [], Lookup(fs, "description"));
      } else if j == 2 {
        RequiredStringField(f, [MinLength(1)], Lookup(fs, "type"));
      } else if j == 3 {
        RequiredStringField(f, [], Lookup(fs, "encryptedDetails"));
      } else {
        RequiredStringField(f, [Uuid], Lookup(fs, "ownerId"));
      }
    }
  }

  lemma CreateAssetRequestFields(f: Formats, fs: JsObject)
    ensures (forall j :: 0 <= j < |CreateAssetRequestSchema.shape| ==> FieldResult(f, CreateAssetRequestSchema.shape, j, fs).Success?) <==>
      && RequiredString(f, [MinLength(1)], Lookup(fs, "name"))
      && OptionalString(f, [], Lookup(fs, "description"))
      && RequiredString(f, [MinLength(1)], Lookup(fs, "type"))
      && RequiredString(f, [], Lookup(fs, "encryptedDetails"))
      && RequiredString(f, [Uuid], Lookup(fs, "ownerId"))
  {
    if forall j :: 0 <= j < |CreateAssetRequestSchema.shape| ==> FieldResult(f, CreateAssetRequestSchema.shape, j, fs).Success? {
      CreateAssetRequestFieldsOnlyIf(f, fs);
    }
    if
      && RequiredString(f, [MinLength(1)], Lookup(fs, "name"))
      && OptionalString(f, [], Lookup(fs, "description"))
      && RequiredString(f, [MinLength(1)], Lookup(fs, "type"))
      && RequiredString(f, [], Lookup(fs, "encryptedDetails"))
      && RequiredString(f, [Uuid], Lookup(fs, "ownerId"))
    {
      CreateAssetRequestFieldsIf(f, fs);
    }
  }

  /** An asset update: the asset UUID, every other field optional. */
  const UpdateAssetRequestSchema: Schema := ZObject([
    ("assetId", ZString([Uuid])),
    ("name", ZOptional(ZString([MinLength(1)]))),
    ("description", ZOptional(ZString([]))),
    ("type", ZOptional(ZString([MinLength(1)]))),
    ("encryptedDetails", ZOptional(ZString([])))])

  /** What UpdateAssetRequestSchema accepts, field by field. */
  lemma UpdateAssetRequestAccepts(f: Formats, v: Json)
    ensures Parse(f, UpdateAssetRequestSchema, Some(v)).Success? <==>
      && v.JObj?
      && RequiredString(f, [Uuid], Lookup(v.fields, "assetId"))
      && OptionalString(f, [MinLength(1)], Lookup(v.fields, "name"))
      && OptionalString(f, [], Lookup(v.fields, "description"))
      && OptionalString(f, [MinLength(1)], Lookup(v.fields, "type"))
      && OptionalString(f, [], Lookup(v.fields, "encryptedDetails"))
  {
    ObjectAccepts(f, UpdateAssetRequestSchema, v);
    if v.JObj? {
      UpdateAssetRequestFields(f, v.fields);
    }
  }

  lemma UpdateAssetRequestFieldResults(f: Formats, fs: JsObject)
    ensures var sh := UpdateAssetRequestSchema.shape;
      && |sh| == 5
      && FieldResult(f, sh, 0, fs) == Parse(f, ZString([Uuid]), Lookup(fs, "assetId"))
      && FieldResult(f, sh, 1, fs) == Parse(f, ZOptional(ZString([MinLength(1)])), Lookup(fs, "name"))
      && FieldResult(f, sh, 2, fs) == Parse(f, ZOptional(ZString([])), Lookup(fs, "description"))
      && FieldResult(f, sh, 3, fs) == Parse(f, ZOptional(ZString([MinLength(1)])), Lookup(fs, "type"))
      && FieldResult(f, sh, 4, fs) == Parse(f, ZOptional(ZString([])), Lookup(fs, "encryptedDetails"))
  {
    var sh := UpdateAssetRequestSchema.shape;
    assert sh[0] == ("assetId", ZString([Uuid]));
    assert sh[1] == ("name", ZOptional(ZString([MinLength(1)])));
    assert sh[2] == ("description", ZOptional(ZString([])));
    assert sh[3] == ("type", ZOptional(ZString([MinLength(1)])));
    assert sh[4] == ("encryptedDetails", ZOptional(ZString([])));
  }

  lemma UpdateAssetRequestFieldsOnlyIf(f: Formats, fs: JsObject)
    requires forall j :: 0 <= j < |UpdateAssetRequestSchema.shape| ==> FieldResult(f, UpdateAssetRequestSchema.shape, j, fs).Success?
    ensures
      && RequiredString(f, [Uuid], Lookup(fs, "assetId"))
      && OptionalString(f, [MinLength(1)], Lookup(fs, "name"))
      && OptionalString(f, [], Lookup(fs, "description"))
      && OptionalString(f, [MinLength(1)], Lookup(fs, "type"))
      && OptionalString(f, [], Lookup(fs, "encryptedDetails"))
  {
    var sh := UpdateAssetRequestSchema.shape;
    UpdateAssetRequestFieldResults(f, fs);
    assert RequiredString(f, [Uuid], Lookup(fs, "assetId")) by {
      assert FieldResult(f, sh, 0, fs).Success?;
      RequiredStringField(f, [Uuid], Lookup(fs, "assetId"));
    }
    assert OptionalString(f, [MinLength(1)], Lookup(fs, "name")) by {
      assert FieldResult(f, sh, 1, fs).Success?;
      OptionalStringField(f, [MinLength(1)], Lookup(fs, "name"));
    }
    assert OptionalString(f, [], Lookup(fs, "description")) by {
      assert FieldResult(f, sh, 2, fs).Success?;
      OptionalStringField(f, [], Lookup(fs, "description"));
    }
    assert OptionalString(f, [MinLength(1)], Lookup(fs, "type")) by {
      assert FieldResult(f, sh, 3, fs).Success?;
      OptionalStringField(f, [MinLength(1)], Lookup(fs, "type"));
    }
    assert OptionalString(f, [], Lookup(fs, "encryptedDetails")) by {
      assert FieldResult(f, sh, 4, fs).Success?;
      OptionalStringField(f, [], Lookup(fs, "encryptedDetails"));
    }
  }

  lemma UpdateAssetRequestFieldsIf(f: Formats, fs: JsObject)
    requires
      && RequiredString(f, [Uuid], Lookup(fs, "assetId"))
      && OptionalString(f, [MinLength(1)], Lookup(fs, "name"))
      && OptionalString(f, [], Lookup(fs, "description"))
      && OptionalString(f, [MinLength(1)], Lookup(fs, "type"))
      && OptionalString(f, [], Lookup(fs, "encryptedDetails"))
    ensures forall j :: 0 <= j < |UpdateAssetRequestSchema.shape| ==> FieldResult(f, UpdateAssetRequestSchema.shape, j, fs).Success?
  {
    var sh := UpdateAssetRequestSchema.shape;
    UpdateAssetRequestFieldResults(f, fs);
    forall j | 0 <= j < 5 ensures FieldResult(f, sh, j, fs).Success? {
      if j == 0 {
        RequiredStringField(f, [Uuid], Lookup(fs, "assetId"));
      } else if j == 1 {
        OptionalStringField(f, [MinLength(1)], Lookup(fs, "name"));
      } else if j == 2 {
        OptionalStringField(f, [], Lookup(fs, "description"));
      } else if j == 3 {
        OptionalStringField(f, [MinLength(1)], Lookup(fs, "type"));
      } else {
        OptionalStringField(f, [], Lookup(fs, "encryptedDetails"));
      }
    }
  }

  lemma UpdateAssetRequestFields(f: Formats, fs: JsObject)
    ensures (forall j :: 0 <= j < |UpdateAssetRequestSchema.shape| ==> FieldResult(f, UpdateAssetRequestSchema.shape, j, fs).Success?) <==>
      && RequiredString(f, [Uuid], Lookup(fs, "assetId"))
      && OptionalString(f, [MinLength(1)], Lookup(fs, "name"))
      && OptionalString(f, [], Lookup(fs, "description"))
      && OptionalString(f, [MinLength(1)], Lookup(fs, "type"))
      && OptionalString(f, [], Lookup(fs, "encryptedDetails"))
  {
    if forall j :: 0 <= j < |UpdateAssetRequestSchema.shape| ==> FieldResult(f, UpdateAssetRequestSchema.shape, j, fs).Success? {
      UpdateAssetRequestFieldsOnlyIf(f, fs);
    }
    if
      && RequiredString(f, [Uuid], Lookup(fs, "assetId"))
      && OptionalString(f, [MinLength(1)], Lookup(fs, "name"))
      && OptionalString(f, [], Lookup(fs, "description"))
      && OptionalString(f, [MinLength(1)], Lookup(fs, "type"))
      && OptionalString(f, [], Lookup(fs, "encryptedDetails"))
    {
      UpdateAssetRequestFieldsIf(f, fs);
    }
  }

  /** An asset lookup. */
  const GetAssetRequestSchema: Schema := ZObject([
    ("assetId", ZString([Uuid])),
    ("ownerId", ZOptional(ZString([Uuid])))])

  /** What GetAssetRequestSchema accepts, field by field. */
  lemma GetAssetRequestAccepts(f: Formats, v: Json)
    ensures Parse(f, GetAssetRequestSchema, Some(v)).Success? <==>
      && v.JObj?
      && RequiredString(f, [Uuid], Lookup(v.fields, "assetId"))
      && OptionalString(f, [Uuid], Lookup(v.fields, "ownerId"))
  {
    ObjectAccepts(f, GetAssetRequestSchema, v);
    if v.JObj? {
      GetAssetRequestFields(f, v.fields);
    }
  }

  lemma GetAssetRequestFieldResults(f: Formats, fs: JsObject)
    ensures var sh := GetAssetRequestSchema.shape;
      && |sh| == 2
      && FieldResult(f, sh, 0, fs) == Parse(f, ZString([Uuid]), Lookup(fs, "assetId"))
      && FieldResult(f, sh, 1, fs) == Parse(f, ZOptional(ZString([Uuid])), Lookup(fs, "ownerId"))
  {
    var sh := GetAssetRequestSchema.shape;
    assert sh[0] == ("assetId", ZString([Uuid]));
    assert sh[1] == ("ownerId", ZOptional(ZString([Uuid])));
  }

  lemma GetAssetRequestFieldsOnlyIf(f: Formats, fs: JsObject)
    requires forall j :: 0 <= j < |GetAssetRequestSchema.shape| ==> FieldResult(f, GetAssetRequestSchema.shape, j, fs).Success?
    ensures
      && RequiredString(f, [Uuid], Lookup(fs, "assetId"))
      && OptionalString(f, [Uuid], Lookup(fs, "ownerId"))
  {
    var sh := GetAssetRequestSchema.shape;
    GetAssetRequestFieldResults(f, fs);
    assert RequiredString(f, [Uuid], Lookup(fs, "assetId")) by {
      assert FieldResult(f, sh, 0, fs).Success?;
      RequiredStringField(f, [Uuid], Lookup(fs, "assetId"));
    }
    assert OptionalString(f, [Uuid], Lookup(fs, "ownerId")) by {
      assert FieldResult(f, sh, 1, fs).Success?;
      OptionalStringField(f, [Uuid], Lookup(fs, "ownerId"));
    }
  }

  lemma GetAssetRequestFieldsIf(f: Formats, fs: JsObject)
    requires
      && RequiredString(f, [Uuid], Lookup(fs, "assetId"))
      && OptionalString(f, [Uuid], Lookup(fs, "ownerId"))
    ensures forall j :: 0 <= j < |GetAssetRequestSchema.shape| ==> FieldResult(f, GetAssetRequestSchema.shape, j, fs).Success?
  {
    var sh := GetAssetRequestSchema.shape;
    GetAssetRequestFieldResults(f, fs);
    forall j | 0 <= j < 2 ensures FieldResult(f, sh, j, fs).Success? {
      if j == 0 {
        RequiredStringField(f, [Uuid], Lookup(fs, "assetId"));
      } else {
        OptionalStringField(f, [Uuid], Lookup(fs, "ownerId"));
      }
    }
  }

  lemma GetAssetRequestFields(f: Formats, fs: JsObject)
    ensures (forall j :: 0 <= j < |GetAssetRequestSchema.shape| ==> FieldResult(f, GetAssetRequestSchema.shape, j, fs).Success?) <==>
      && RequiredString(f, [Uuid], Lookup(fs, "assetId"))
      && OptionalString(f, [Uuid], Lookup(fs, "ownerId"))
  {
    if forall j :: 0 <= j < |GetAssetRequestSchema.shape| ==> FieldResult(f, GetAssetRequestSchema.shape, j, fs).Success? {
      GetAssetRequestFieldsOnlyIf(f, fs);
    }
    if
      && RequiredString(f, [Uuid], Lookup(fs, "assetId"))
      && OptionalString(f, [Uuid], Lookup(fs, "ownerId"))
    {
      GetAssetRequestFieldsIf(f, fs);
    }
  }

  /** An asset as returned. */
  const AssetResponseSchema: Schema := ZObject([
    ("id", ZString([Uuid])),
    ("name", ZString([])),
    ("description", ZNullable(ZString([]))),
    ("type", ZString([])),
    ("encryptedDetails", ZString([])),
    ("ownerId", ZString([Uuid])),
    ("isReleasable", ZBoolean),
    ("createdAt", ZString([Datetime])),
    ("updatedAt", ZString([Datetime]))])

  /** What AssetResponseSchema accepts, field by field. */
  lemma AssetResponseAccepts(f: Formats, v: Json)
    ensures Parse(f, AssetResponseSchema, Some(v)).Success? <==>
      && v.JObj?
      && RequiredString(f, [Uuid], Lookup(v.fields, "id"))
      && RequiredString(f, [], Lookup(v.fields, "name"))
      && NullableString(f, [], Lookup(v.fields, "description"))
      && RequiredString(f, [], Lookup(v.fields, "type"))
      && RequiredString(f, [], Lookup(v.fields, "encryptedDetails"))
      && RequiredString(f, [Uuid], Lookup(v.fields, "ownerId"))
      && IsBoolean(Lookup(v.fields, "isReleasable"))
      && RequiredString(f, [Datetime], Lookup(v.fields, "createdAt"))
      && RequiredString(f, [Datetime], Lookup(v.fields, "updatedAt"))
  {
    ObjectAccepts(f, AssetResponseSchema, v);
    if v.JObj? {
      AssetResponseFields(f, v.fields);
    }
  }

  lemma AssetResponseFieldResults(f: Formats, fs: JsObject)
    ensures var sh := AssetResponseSchema.shape;
      && |sh| == 9
      && FieldResult(f, sh, 0, fs) == Parse(f, ZString([Uuid]), Lookup(fs, "id"))
      && FieldResult(f, sh, 1, fs) == Parse(f, ZString([]), Lookup(fs, "name"))
      && FieldResult(f, sh, 2, fs) == Parse(f, ZNullable(ZString([])), Lookup(fs, "description"))
      && FieldResult(f, sh, 3, fs) == Parse(f, ZString([]), Lookup(fs, "type"))
      && FieldResult(f, sh, 4, fs) == Parse(f, ZString([]), Lookup(fs, "encryptedDetails"))
      && FieldResult(f, sh, 5, fs) == Parse(f, ZString([Uuid]), Lookup(fs, "ownerId"))
      && FieldResult(f, sh, 6, fs) == Parse(f, ZBoolean, Lookup(fs, "isReleasable"))
      && FieldResult(f, sh, 7, fs) == Parse(f, ZString([Datetime]), Lookup(fs, "createdAt"))
      && FieldResult(f, sh, 8, fs) == Parse(f, ZString([Datetime]), Lookup(fs, "updatedAt"))
  {
    var sh := AssetResponseSchema.shape;
    assert sh[0] == ("id", ZString([Uuid]));
    assert sh[1] == ("name", ZString([]));
    assert sh[2] == ("description", ZNullable(ZString([])));
    assert sh[3] == ("type", ZString([]));
    assert sh[4] == ("encryptedDetails", ZString([]));
    assert sh[5] == ("ownerId", ZString([Uuid]));
    assert sh[6] == ("isReleasable", ZBoolean);
    assert sh[7] == ("createdAt", ZString([Datetime]));
    assert sh[8] == ("updatedAt", ZString([Datetime]));
  }

  lemma AssetResponseFieldsOnlyIf(f: Formats, fs: JsObject)
    requires forall j :: 0 <= j < |AssetResponseSchema.shape| ==> FieldResult(f, AssetResponseSchema.shape, j, fs).Success?
    ensures
      && RequiredString(f, [Uuid], Lookup(fs, "id"))
      && RequiredString(f, [], Lookup(fs, "name"))
      && NullableString(f, [], Lookup(fs, "description"))
      && RequiredString(f, [], Lookup(fs, "type"))
      && RequiredString(f, [], Lookup(fs, "encryptedDetails"))
      && RequiredString(f, [Uuid], Lookup(fs, "ownerId"))
      && IsBoolean(Lookup(fs, "isReleasable"))
      && RequiredString(f, [Datetime], Lookup(fs, "createdAt"))
      && RequiredString(f, [Datetime], Lookup(fs, "updatedAt"))
  {
    var sh := AssetResponseSchema.shape;
    AssetResponseFieldResults(f, fs);
    assert RequiredString(f, [Uuid], Lookup(fs, "id")) by {
      assert FieldResult(f, sh, 0, fs).Success?;
      RequiredStringField(f, [Uuid], Lookup(fs, "id"));
    }
    assert RequiredString(f, [], Lookup(fs, "name")) by {
      assert FieldResult(f, sh, 1, fs).Success?;
      RequiredStringField(f, [], Lookup(fs, "name"));
    }
    assert NullableString(f, [], Lookup(fs, "description")) by {
      assert FieldResult(f, sh, 2, fs).Success?;
      NullableStringField(f, [], Lookup(fs, "description"));
    }
    assert RequiredString(f, [], Lookup(fs, "type")) by {
      assert FieldResult(f, sh, 3, fs).Success?;
      RequiredStringField(f, [], Lookup(fs, "type"));
    }
    assert RequiredString(f, [], Lookup(fs, "encryptedDetails")) by {
      assert FieldResult(f, sh, 4, fs).Success?;
      RequiredStringField(f, [], Lookup(fs, "encryptedDetails"));
    }
    assert RequiredString(f, [Uuid], Lookup(fs, "ownerId")) by {
      assert FieldResult(f, sh, 5, fs).Success?;
      RequiredStringField(f, [Uuid], Lookup(fs, "ownerId"));
    }
    assert IsBoolean(Lookup(fs, "isReleasable")) by {
      assert FieldResult(f, sh, 6, fs).Success?;
      BooleanField(f, Lookup(fs, "isReleasable"));
    }
    assert RequiredString(f, [Datetime], Lookup(fs, "createdAt")) by {
      assert FieldResult(f, sh, 7, fs).Success?;
      RequiredStringField(f, [Datetime], Lookup(fs, "createdAt"));
    }
    assert RequiredString(f, [Datetime], Lookup(fs, "updatedAt")) by {
      assert FieldResult(f, sh, 8, fs).Success?;
      RequiredStringField(f, [Datetime], Lookup(fs, "updatedAt"));
    }
  }

  lemma AssetResponseFieldsIf(f: Formats, fs: JsObject)
    requires
      && RequiredString(f, [Uuid], Lookup(fs, "id"))
      && RequiredString(f, [], Lookup(fs, "name"))
      && NullableString(f, [], Lookup(fs, "description"))
      && RequiredString(f, [], Lookup(fs, "type"))
      && RequiredString(f, [], Lookup(fs, "encryptedDetails"))
      && RequiredString(f, [Uuid], Lookup(fs, "ownerId"))
      && IsBoolean(Lookup(fs, "isReleasable"))
      && RequiredString(f, [Datetime], Lookup(fs, "createdAt"))
      && RequiredString(f, [Datetime], Lookup(fs, "updatedAt"))
    ensures forall j :: 0 <= j < |AssetResponseSchema.shape| ==> FieldResult(f, AssetResponseSchema.shape, j, fs).Success?
  {
    var sh := AssetResponseSchema.shape;
    AssetResponseFieldResults(f, fs);
    forall j | 0 <= j < 9 ensures FieldResult(f, sh, j, fs).Success? {
      if j == 0 {
        RequiredStringField(f, [Uuid], Lookup(fs, "id"));
      } else if j == 1 {
        RequiredStringField(f, [], Lookup(fs, "name"));
      } else if j == 2 {
        NullableStringField(f, [], Lookup(fs, "description"));
      } else if j == 3 {
        RequiredStringField(f, [], Lookup(fs, "type"));
      } else if j == 4 {
        RequiredStringField(f, [], Lookup(fs, "encryptedDetails"));
      } else if j == 5 {
        RequiredStringField(f, [Uuid], Lookup(fs, "ownerId"));
      } else if j == 6 {
        BooleanField(f, Lookup(fs, "isReleasable"));
      } else if j == 7 {
        RequiredStringField(f, [Datetime], Lookup(fs, "createdAt"));
      } else {
        RequiredStringField(f, [Datetime], Lookup(fs, "updatedAt"));
      }
    }
  }

  lemma AssetResponseFields(f: Formats, fs: JsObject)
    ensures (forall j :: 0 <= j < |AssetResponseSchema.shape| ==> FieldResult(f, AssetResponseSchema.shape, j, fs).Success?) <==>
      && RequiredString(f, [Uuid], Lookup(fs, "id"))
      && RequiredString(f, [], Lookup(fs, "name"))
      && NullableString(f, [], Lookup(fs, "description"))
      && RequiredString(f, [], Lookup(fs, "type"))
      && RequiredString(f, [], Lookup(fs, "encryptedDetails"))
      && RequiredString(f, [Uuid], Lookup(fs, "ownerId"))
      && IsBoolean(Lookup(fs, "isReleasable"))
      && RequiredString(f, [Datetime], Lookup(fs, "createdAt"))
      && RequiredString(f, [Datetime], Lookup(fs, "updatedAt"))
  {
    if forall j :: 0 <= j < |AssetResponseSchema.shape| ==> FieldResult(f, AssetResponseSchema.shape, j, fs).Success? {
      AssetResponseFieldsOnlyIf(f, fs);
    }
    if
      && RequiredString(f, [Uuid], Lookup(fs, "id"))
      && RequiredString(f, [], Lookup(fs, "name"))
      && NullableString(f, [], Lookup(fs, "description"))
      && RequiredString(f, [], Lookup(fs, "type"))
      && RequiredString(f, [], Lookup(fs, "encryptedDetails"))
      && RequiredString(f, [Uuid], Lookup(fs, "ownerId"))
      && IsBoolean(Lookup(fs, "isReleasable"))
      && RequiredString(f, [Datetime], Lookup(fs, "createdAt"))
      && RequiredString(f, [Datetime], Lookup(fs, "updatedAt"))
    {
      AssetResponseFieldsIf(f, fs);
    }
  }

  const ListAssetsResponseSchema: Schema := ZArray(AssetResponseSchema)

  lemma ListAssetsResponseAccepts(f: Formats, v: Json)
    ensures Parse(f, ListAssetsResponseSchema, Some(v)).Success? <==>
      v.JArr? && forall i :: 0 <= i < |v.items| ==> Parse(f, AssetResponseSchema, Some(v.items[i])).Success?
  {
    ArrayOfObjects(f, AssetResponseSchema, v);
  }

  datatype AssetError = AssetNotFound | InvalidData | UnauthorizedAccess

  function AssetErrorCode(e: AssetError): string {
    match e
    case AssetNotFound => "ASSET_NOT_FOUND"
    case InvalidData => "INVALID_DATA"
    case UnauthorizedAccess => "UNAUTHORIZED_ACCESS"
  }

  const AssetErrorCodes: seq<string> := ["ASSET_NOT_FOUND", "INVALID_DATA", "UNAUTHORIZED_ACCESS"]

  /** The error codes are exactly the three listed, one per kind. */
  lemma AssetErrorCodesExact()
    ensures forall c :: c in AssetErrorCodes <==> exists e :: AssetErrorCode(e) == c
    ensures forall e1, e2 :: AssetErrorCode(e1) == AssetErrorCode(e2) ==> e1 == e2
  {
    assert AssetErrorCode(AssetNotFound) == AssetErrorCodes[0];
    assert AssetErrorCode(InvalidData) == AssetErrorCodes[1];
    assert AssetErrorCode(UnauthorizedAccess) == AssetErrorCodes[2];
  }
}
