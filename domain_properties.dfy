/**
 * What the schemas of src/domain.ts promise, stated over the decoders of
 * module Domain: `null` against a missing key, the literal sets, branded ids,
 * all-or-nothing acceptance against an independent description of a
 * well-formed record, and decoding as the inverse of encoding.
 */
module DomainProperties {
  import opened Wrappers
  import opened Domain

  // ---------------------------------------------------------------------------
  // nullToUndefined

  /** Encoding after decoding gives back the original `A | null` value. */
  lemma NullToUndefinedRoundTrip<T>(x: Nullable<T>)
    ensures UndefinedToNull(NullToUndefined(x)) == x
  {
  }

  // ---------------------------------------------------------------------------
  // Which values each property accepts, stated key by key.

  predicate ProfilePropertyOk(k: string, x: Value) {
    x == Undefined ||
    ((k in NullableProfileKeys ==> x == Null || x.Str?) &&
     (k in StrictProfileKeys ==> x.Str?))
  }

  predicate ConformsUserProfile(v: Value) {
    v.Obj? && forall k :: k in v.fields ==> ProfilePropertyOk(k, v.fields[k])
  }

  predicate ConformsCredentials(v: Value) {
    v.Obj? && forall k :: k in v.fields && k in CredentialKeys ==>
      v.fields[k] == Undefined || v.fields[k] == Null || v.fields[k].Obj?
  }

  predicate UserPropertyOk(k: string, x: Value) {
    if x == Undefined then true
    else if k == "id" || k == "realmId" then x.Str?
    else if k == "created" || k == "lastUpdated" then x.DateV?
    else if k == "activated" || k == "lastLogin" || k == "passwordChanged" || k == "statusChanged" then
      x == Null || x.DateV?
    else if k == "status" then x.Str? && x.str in UserStatusLiterals
    else if k == "profile" then ConformsUserProfile(x)
    else if k == "credentials" then ConformsCredentials(x)
    else if k == "_links" then x == Null || x.Obj?
    else true
  }

  /** A user record every property of which has the declared type; other keys are ignored. */
  predicate ConformsUser(v: Value) {
    v.Obj? && forall k :: k in v.fields ==> UserPropertyOk(k, v.fields[k])
  }

  predicate GroupProfilePropertyOk(k: string, x: Value) {
    if x == Undefined then true
    else if k == "name" then x.Str?
    else if k == "description" || k == "externalId" then x == Null || x.Str?
    else true
  }

  predicate ConformsGroupProfile(v: Value) {
    v.Obj? && forall k :: k in v.fields ==> GroupProfilePropertyOk(k, v.fields[k])
  }

  predicate AllStrings(xs: seq<Value>) {
    forall i :: 0 <= i < |xs| ==> xs[i].Str?
  }

  predicate GroupPropertyOk(k: string, x: Value) {
    if x == Undefined then true
    else if k == "id" then x.Str?
    else if k == "created" || k == "lastMembershipUpdated" || k == "lastUpdated" then x.DateV?
    else if k == "type" then x.Str? && x.str in GroupTypeLiterals
    else if k == "profile" then ConformsGroupProfile(x)
    else if k == "objectClass" then x.Arr? && AllStrings(x.elems)
    else if k == "_links" then x == Null || x.Obj?
    else true
  }

  /** A group record every property of which has the declared type; other keys are ignored. */
  predicate ConformsGroup(v: Value) {
    v.Obj? && forall k :: k in v.fields ==> GroupPropertyOk(k, v.fields[k])
  }

  // ---------------------------------------------------------------------------
  // All or nothing: a record decodes exactly when every property has its type.

  predicate ProfileKeyOk(m: map<string, Value>, k: string) {
    k in m ==> ProfilePropertyOk(k, m[k])
  }

  predicate ProfileKeysOk(m: map<string, Value>) {
    ProfileKeyOk(m, "firstName") &&
    ProfileKeyOk(m, "lastName") &&
    ProfileKeyOk(m, "email") &&
    ProfileKeyOk(m, "login") &&
    ProfileKeyOk(m, "mobilePhone") &&
    ProfileKeyOk(m, "displayName") &&
    ProfileKeyOk(m, "department") &&
    ProfileKeyOk(m, "title") &&
    ProfileKeyOk(m, "city") &&
    ProfileKeyOk(m, "state") &&
    ProfileKeyOk(m, "countryCode") &&
    ProfileKeyOk(m, "zipCode") &&
    ProfileKeyOk(m, "employeeNumber") &&
    ProfileKeyOk(m, "costCenter") &&
    ProfileKeyOk(m, "organization") &&
    ProfileKeyOk(m, "division") &&
    ProfileKeyOk(m, "manager") &&
    ProfileKeyOk(m, "managerId") &&
    ProfileKeyOk(m, "primaryPhone") &&
    ProfileKeyOk(m, "secondEmail") &&
    ProfileKeyOk(m, "locale") &&
    ProfileKeyOk(m, "timezone") &&
    ProfileKeyOk(m, "userType")
  }

  /** Every profile property of `m` decodes. */
  predicate ProfilePropertiesDecode(m: map<string, Value>) {
    OptionalNullToUndefinedProperty(m, "firstName", DecodeString).Ok? &&
    OptionalNullToUndefinedProperty(m, "lastName", DecodeString).Ok? &&
    OptionalProperty(m, "email", DecodeString).Ok? &&
    OptionalProperty(m, "login", DecodeString).Ok? &&
    OptionalNullToUndefinedProperty(m, "mobilePhone", DecodeString).Ok? &&
    OptionalNullToUndefinedProperty(m, "displayName", DecodeString).Ok? &&
    OptionalProperty(m, "department", DecodeString).Ok? &&
    OptionalNullToUndefinedProperty(m, "title", DecodeString).Ok? &&
    OptionalNullToUndefinedProperty(m, "city", DecodeString).Ok? &&
    OptionalNullToUndefinedProperty(m, "state", DecodeString).Ok? &&
    OptionalNullToUndefinedProperty(m, "countryCode", DecodeString).Ok? &&
    OptionalNullToUndefinedProperty(m, "zipCode", DecodeString).Ok? &&
    OptionalProperty(m, "employeeNumber", DecodeString).Ok? &&
    OptionalNullToUndefinedProperty(m, "costCenter", DecodeString).Ok? &&
    OptionalNullToUndefinedProperty(m, "organization", DecodeString).Ok? &&
    OptionalNullToUndefinedProperty(m, "division", DecodeString).Ok? &&
    OptionalNullToUndefinedProperty(m, "manager", DecodeString).Ok? &&
    OptionalNullToUndefinedProperty(m, "managerId", DecodeString).Ok? &&
    OptionalNullToUndefinedProperty(m, "primaryPhone", DecodeString).Ok? &&
    OptionalNullToUndefinedProperty(m, "secondEmail", DecodeString).Ok? &&
    OptionalProperty(m, "locale", DecodeString).Ok? &&
    OptionalNullToUndefinedProperty(m, "timezone", DecodeString).Ok? &&
    OptionalNullToUndefinedProperty(m, "userType", DecodeString).Ok?
  }

  lemma ProfileDecodesIffProperties(m: map<string, Value>)
    ensures DecodeUserProfile(Obj(m)).Ok? <==> ProfilePropertiesDecode(m)
  {
  }

  lemma NullableProfileKeyOk(m: map<string, Value>, k: string)
    requires k in NullableProfileKeys
    ensures OptionalNullToUndefinedProperty(m, k, DecodeString).Ok? <==> ProfileKeyOk(m, k)
  {
  }

  lemma StrictProfileKeyOk(m: map<string, Value>, k: string)
    requires k in StrictProfileKeys
    ensures OptionalProperty(m, k, DecodeString).Ok? <==> ProfileKeyOk(m, k)
  {
  }

  lemma ProfilePropertiesIffKeys(m: map<string, Value>)
    ensures ProfilePropertiesDecode(m) <==> ProfileKeysOk(m)
  {
    NullableProfileKeyOk(m, "firstName");
    NullableProfileKeyOk(m, "lastName");
    StrictProfileKeyOk(m, "email");
    StrictProfileKeyOk(m, "login");
    NullableProfileKeyOk(m, "mobilePhone");
    NullableProfileKeyOk(m, "displayName");
    StrictProfileKeyOk(m, "department");
    NullableProfileKeyOk(m, "title");
    NullableProfileKeyOk(m, "city");
    NullableProfileKeyOk(m, "state");
    NullableProfileKeyOk(m, "countryCode");
    NullableProfileKeyOk(m, "zipCode");
    StrictProfileKeyOk(m, "employeeNumber");
    NullableProfileKeyOk(m, "costCenter");
    NullableProfileKeyOk(m, "organization");
    NullableProfileKeyOk(m, "division");
    NullableProfileKeyOk(m, "manager");
    NullableProfileKeyOk(m, "managerId");
    NullableProfileKeyOk(m, "primaryPhone");
    NullableProfileKeyOk(m, "secondEmail");
    StrictProfileKeyOk(m, "locale");
    NullableProfileKeyOk(m, "timezone");
    NullableProfileKeyOk(m, "userType");
  }

  lemma ProfileKeysOkConform(m: map<string, Value>)
    ensures ProfileKeysOk(m) <==> ConformsUserProfile(Obj(m))
  {
    if ProfileKeysOk(m) {
      forall k | k in m ensures ProfilePropertyOk(k, m[k]) {
        assert ProfileKeyOk(m, k);
      }
    }
  }

  lemma UserProfileAccepted(v: Value)
    ensures DecodeUserProfile(v).Ok? <==> ConformsUserProfile(v)
  {
    if v.Obj? {
      ProfileDecodesIffProperties(v.fields);
      ProfilePropertiesIffKeys(v.fields);
      ProfileKeysOkConform(v.fields);
    }
  }

  lemma CredentialsAccepted(v: Value)
    ensures DecodeUserCredentials(v).Ok? <==> ConformsCredentials(v)
  {
  }

  /** `UserPropertyOk` for one named key, true when the key is missing. */
  predicate UserKeyOk(m: map<string, Value>, k: string) {
    k in m ==> UserPropertyOk(k, m[k])
  }

  predicate UserKeysOk(m: map<string, Value>) {
    UserKeyOk(m, "id") && UserKeyOk(m, "created") && UserKeyOk(m, "activated") && UserKeyOk(m, "lastLogin") &&
    UserKeyOk(m, "lastUpdated") && UserKeyOk(m, "passwordChanged") && UserKeyOk(m, "statusChanged") &&
    UserKeyOk(m, "status") && UserKeyOk(m, "profile") && UserKeyOk(m, "realmId") &&
    UserKeyOk(m, "credentials") && UserKeyOk(m, "_links")
  }

  lemma UserKeysOkConform(m: map<string, Value>)
    ensures UserKeysOk(m) <==> ConformsUser(Obj(m))
  {
    if UserKeysOk(m) {
      forall k | k in m ensures UserPropertyOk(k, m[k]) {
        assert UserKeyOk(m, k);
      }
    }
  }

  /** The nested profile and credentials are accepted exactly when they conform. */
  lemma UserNestedKeys(m: map<string, Value>)
    ensures OptionalProperty(m, "profile", DecodeUserProfile).Ok? <==> UserKeyOk(m, "profile")
    ensures OptionalProperty(m, "credentials", DecodeUserCredentials).Ok? <==> UserKeyOk(m, "credentials")
  {
    if "profile" in m {
      UserProfileAccepted(m["profile"]);
    }
    if "credentials" in m {
      CredentialsAccepted(m["credentials"]);
    }
  }

  /** Every user property of `m` decodes. */
  predicate UserPropertiesDecode(m: map<string, Value>) {
    OptionalProperty(m, "id", DecodeUserId).Ok? &&
    OptionalProperty(m, "created", DecodeDate).Ok? &&
    OptionalNullToUndefinedProperty(m, "activated", DecodeDate).Ok? &&
    OptionalNullToUndefinedProperty(m, "lastLogin", DecodeDate).Ok? &&
    OptionalProperty(m, "lastUpdated", DecodeDate).Ok? &&
    OptionalNullToUndefinedProperty(m, "passwordChanged", DecodeDate).Ok? &&
    OptionalNullToUndefinedProperty(m, "statusChanged", DecodeDate).Ok? &&
    OptionalProperty(m, "status", DecodeUserStatus).Ok? &&
    OptionalProperty(m, "profile", DecodeUserProfile).Ok? &&
    OptionalProperty(m, "realmId", DecodeString).Ok? &&
    OptionalProperty(m, "credentials", DecodeUserCredentials).Ok? &&
    OptionalNullToUndefinedProperty(m, "_links", DecodeUnknownRecord).Ok?
  }

  lemma UserDecodesIffProperties(m: map<string, Value>)
    ensures DecodeUser(Obj(m)).Ok? <==> UserPropertiesDecode(m)
  {
  }

  lemma UserDateKeys(m: map<string, Value>)
    ensures OptionalProperty(m, "created", DecodeDate).Ok? <==> UserKeyOk(m, "created")
    ensures OptionalNullToUndefinedProperty(m, "activated", DecodeDate).Ok? <==> UserKeyOk(m, "activated")
    ensures OptionalNullToUndefinedProperty(m, "lastLogin", DecodeDate).Ok? <==> UserKeyOk(m, "lastLogin")
    ensures OptionalProperty(m, "lastUpdated", DecodeDate).Ok? <==> UserKeyOk(m, "lastUpdated")
    ensures OptionalNullToUndefinedProperty(m, "passwordChanged", DecodeDate).Ok? <==> UserKeyOk(m, "passwordChanged")
    ensures OptionalNullToUndefinedProperty(m, "statusChanged", DecodeDate).Ok? <==> UserKeyOk(m, "statusChanged")
  {
  }

  lemma UserScalarKeys(m: map<string, Value>)
    ensures OptionalProperty(m, "id", DecodeUserId).Ok? <==> UserKeyOk(m, "id")
    ensures OptionalProperty(m, "status", DecodeUserStatus).Ok? <==> UserKeyOk(m, "status")
    ensures OptionalProperty(m, "realmId", DecodeString).Ok? <==> UserKeyOk(m, "realmId")
    ensures OptionalNullToUndefinedProperty(m, "_links", DecodeUnknownRecord).Ok? <==> UserKeyOk(m, "_links")
  {
  }

  lemma UserPropertiesIffKeys(m: map<string, Value>)
    ensures UserPropertiesDecode(m) <==> UserKeysOk(m)
  {
    UserDateKeys(m);
    UserScalarKeys(m);
    UserNestedKeys(m);
  }

  lemma UserAccepted(v: Value)
    ensures DecodeUser(v).Ok? <==> ConformsUser(v)
  {
    if v.Obj? {
      UserDecodesIffProperties(v.fields);
      UserPropertiesIffKeys(v.fields);
      UserKeysOkConform(v.fields);
    }
  }

  lemma GroupProfileAccepted(v: Value)
    ensures DecodeGroupProfile(v).Ok? <==> ConformsGroupProfile(v)
  {
  }

  predicate GroupKeyOk(m: map<string, Value>, k: string) {
    k in m ==> GroupPropertyOk(k, m[k])
  }

  predicate GroupKeysOk(m: map<string, Value>) {
    GroupKeyOk(m, "id") &&
    GroupKeyOk(m, "created") &&
    GroupKeyOk(m, "lastMembershipUpdated") &&
    GroupKeyOk(m, "lastUpdated") &&
    GroupKeyOk(m, "type") &&
    GroupKeyOk(m, "profile") &&
    GroupKeyOk(m, "objectClass") &&
    GroupKeyOk(m, "_links")
  }

  lemma GroupKeysOkConform(m: map<string, Value>)
    ensures GroupKeysOk(m) <==> ConformsGroup(Obj(m))
  {
    if GroupKeysOk(m) {
      forall k | k in m ensures GroupPropertyOk(k, m[k]) {
        assert GroupKeyOk(m, k);
      }
    }
  }

  lemma GroupNestedKeys(m: map<string, Value>)
    ensures OptionalProperty(m, "profile", DecodeGroupProfile).Ok? <==> GroupKeyOk(m, "profile")
    ensures OptionalProperty(m, "objectClass", DecodeStringArray).Ok? <==> GroupKeyOk(m, "objectClass")
  {
    if "profile" in m {
      GroupProfileAccepted(m["profile"]);
    }
  }

  /** Every group property of `m` decodes. */
  predicate GroupPropertiesDecode(m: map<string, Value>) {
    OptionalProperty(m, "id", DecodeGroupId).Ok? &&
    OptionalProperty(m, "created", DecodeDate).Ok? &&
    OptionalProperty(m, "lastMembershipUpdated", DecodeDate).Ok? &&
    OptionalProperty(m, "lastUpdated", DecodeDate).Ok? &&
    OptionalProperty(m, "type", DecodeGroupType).Ok? &&
    OptionalProperty(m, "profile", DecodeGroupProfile).Ok? &&
    OptionalProperty(m, "objectClass", DecodeStringArray).Ok? &&
    OptionalNullToUndefinedProperty(m, "_links", DecodeUnknownRecord).Ok?
  }

  lemma GroupDecodesIffProperties(m: map<string, Value>)
    ensures DecodeGroup(Obj(m)).Ok? <==> GroupPropertiesDecode(m)
  {
  }

  lemma GroupDecodesIffKeys(m: map<string, Value>)
    ensures DecodeGroup(Obj(m)).Ok? <==> GroupKeysOk(m)
  {
    GroupDecodesIffProperties(m);
    GroupNestedKeys(m);
  }

  lemma GroupAccepted(v: Value)
    ensures DecodeGroup(v).Ok? <==> ConformsGroup(v)
  {
    if v.Obj? {
      GroupDecodesIffKeys(v.fields);
      GroupKeysOkConform(v.fields);
    }
  }

  // ---------------------------------------------------------------------------
  // Where a failure is reported

  /** A non-object is not a profile; any other failure is reported under one of the declared keys. */
  lemma ProfileErrorAtKey(v: Value)
    ensures !v.Obj? ==> DecodeUserProfile(v) == Err(DecodeError([], AnObject, v))
    ensures v.Obj? && DecodeUserProfile(v).Err? ==> DecodeUserProfile(v).error.path != [] && DecodeUserProfile(v).error.path[0] in ProfileKeys
  {
  }

  /** A non-object is not credentials; any other failure is reported under one of the declared keys. */
  lemma CredentialsErrorAtKey(v: Value)
    ensures !v.Obj? ==> DecodeUserCredentials(v) == Err(DecodeError([], AnObject, v))
    ensures v.Obj? && DecodeUserCredentials(v).Err? ==> DecodeUserCredentials(v).error.path != [] && DecodeUserCredentials(v).error.path[0] in CredentialKeys
  {
  }

  /** A non-object is not a user; any other failure is reported under one of the declared keys. */
  lemma UserErrorAtKey(v: Value)
    ensures !v.Obj? ==> DecodeUser(v) == Err(DecodeError([], AnObject, v))
    ensures v.Obj? && DecodeUser(v).Err? ==> DecodeUser(v).error.path != [] && DecodeUser(v).error.path[0] in UserKeys
  {
  }

  /** A non-object is not a group profile; any other failure is reported under one of the declared keys. */
  lemma GroupProfileErrorAtKey(v: Value)
    ensures !v.Obj? ==> DecodeGroupProfile(v) == Err(DecodeError([], AnObject, v))
    ensures v.Obj? && DecodeGroupProfile(v).Err? ==> DecodeGroupProfile(v).error.path != [] && DecodeGroupProfile(v).error.path[0] in GroupProfileKeys
  {
  }

  /** A non-object is not a group; any other failure is reported under one of the declared keys. */
  lemma GroupErrorAtKey(v: Value)
    ensures !v.Obj? ==> DecodeGroup(v) == Err(DecodeError([], AnObject, v))
    ensures v.Obj? && DecodeGroup(v).Err? ==> DecodeGroup(v).error.path != [] && DecodeGroup(v).error.path[0] in GroupKeys
  {
  }

  // ---------------------------------------------------------------------------
  // `null` against a missing key

  /** Setting `k` to `null` and removing it look the same to a `nullToUndefined` property. */
  lemma NullableSame<T>(m: map<string, Value>, k: string, j: string, schema: Decoder<T>)
    ensures OptionalNullToUndefinedProperty(m[k := Null], j, schema) == OptionalNullToUndefinedProperty(m - {k}, j, schema)
  {
  }

  /** ... and to a plain optional property with another key. */
  lemma OptionalSame<T>(m: map<string, Value>, k: string, j: string, schema: Decoder<T>)
    requires j != k
    ensures OptionalProperty(m[k := Null], j, schema) == OptionalProperty(m - {k}, j, schema)
  {
  }

  /** Whatever `k` holds, a property with another key does not see it. */
  lemma ElsewhereSame<T>(m: map<string, Value>, k: string, x: Value, j: string, schema: Decoder<T>)
    requires j != k
    ensures OptionalProperty(m[k := x], j, schema) == OptionalProperty(m - {k}, j, schema)
    ensures OptionalNullToUndefinedProperty(m[k := x], j, schema) == OptionalNullToUndefinedProperty(m - {k}, j, schema)
  {
  }

  /** Two objects whose first twelve profile properties decode alike. */
  predicate SameProfileFirst(m1: map<string, Value>, m2: map<string, Value>) {
    OptionalNullToUndefinedProperty(m1, "firstName", DecodeString) == OptionalNullToUndefinedProperty(m2, "firstName", DecodeString) &&
    OptionalNullToUndefinedProperty(m1, "lastName", DecodeString) == OptionalNullToUndefinedProperty(m2, "lastName", DecodeString) &&
    OptionalProperty(m1, "email", DecodeString) == OptionalProperty(m2, "email", DecodeString) &&
    OptionalProperty(m1, "login", DecodeString) == OptionalProperty(m2, "login", DecodeString) &&
    OptionalNullToUndefinedProperty(m1, "mobilePhone", DecodeString) == OptionalNullToUndefinedProperty(m2, "mobilePhone", DecodeString) &&
    OptionalNullToUndefinedProperty(m1, "displayName", DecodeString) == OptionalNullToUndefinedProperty(m2, "displayName", DecodeString) &&
    OptionalProperty(m1, "department", DecodeString) == OptionalProperty(m2, "department", DecodeString) &&
    OptionalNullToUndefinedProperty(m1, "title", DecodeString) == OptionalNullToUndefinedProperty(m2, "title", DecodeString) &&
    OptionalNullToUndefinedProperty(m1, "city", DecodeString) == OptionalNullToUndefinedProperty(m2, "city", DecodeString) &&
    OptionalNullToUndefinedProperty(m1, "state", DecodeString) == OptionalNullToUndefinedProperty(m2, "state", DecodeString) &&
    OptionalNullToUndefinedProperty(m1, "countryCode", DecodeString) == OptionalNullToUndefinedProperty(m2, "countryCode", DecodeString) &&
    OptionalNullToUndefinedProperty(m1, "zipCode", DecodeString) == OptionalNullToUndefinedProperty(m2, "zipCode", DecodeString)
  }

  /** Two objects whose last eleven profile properties decode alike. */
  predicate SameProfileLast(m1: map<string, Value>, m2: map<string, Value>) {
    OptionalProperty(m1, "employeeNumber", DecodeString) == OptionalProperty(m2, "employeeNumber", DecodeString) &&
    OptionalNullToUndefinedProperty(m1, "costCenter", DecodeString) == OptionalNullToUndefinedProperty(m2, "costCenter", DecodeString) &&
    OptionalNullToUndefinedProperty(m1, "organization", DecodeString) == OptionalNullToUndefinedProperty(m2, "organization", DecodeString) &&
    OptionalNullToUndefinedProperty(m1, "division", DecodeString) == OptionalNullToUndefinedProperty(m2, "division", DecodeString) &&
    OptionalNullToUndefinedProperty(m1, "manager", DecodeString) == OptionalNullToUndefinedProperty(m2, "manager", DecodeString) &&
    OptionalNullToUndefinedProperty(m1, "managerId", DecodeString) == OptionalNullToUndefinedProperty(m2, "managerId", DecodeString) &&
    OptionalNullToUndefinedProperty(m1, "primaryPhone", DecodeString) == OptionalNullToUndefinedProperty(m2, "primaryPhone", DecodeString) &&
    OptionalNullToUndefinedProperty(m1, "secondEmail", DecodeString) == OptionalNullToUndefinedProperty(m2, "secondEmail", DecodeString) &&
    OptionalProperty(m1, "locale", DecodeString) == OptionalProperty(m2, "locale", DecodeString) &&
    OptionalNullToUndefinedProperty(m1, "timezone", DecodeString) == OptionalNullToUndefinedProperty(m2, "timezone", DecodeString) &&
    OptionalNullToUndefinedProperty(m1, "userType", DecodeString) == OptionalNullToUndefinedProperty(m2, "userType", DecodeString)
  }

  lemma SameProfilePropertiesSameProfile(m1: map<string, Value>, m2: map<string, Value>)
    requires SameProfileFirst(m1, m2) && SameProfileLast(m1, m2)
    ensures DecodeUserProfile(Obj(m1)) == DecodeUserProfile(Obj(m2))
  {
  }

  lemma ProfileNullSameFirst(m: map<string, Value>, k: string)
    requires k in NullableProfileKeys
    ensures SameProfileFirst(m[k := Null], m - {k})
  {
    NullableSame(m, k, "firstName", DecodeString);
    NullableSame(m, k, "lastName", DecodeString);
    OptionalSame(m, k, "email", DecodeString);
    OptionalSame(m, k, "login", DecodeString);
    NullableSame(m, k, "mobilePhone", DecodeString);
    NullableSame(m, k, "displayName", DecodeString);
    OptionalSame(m, k, "department", DecodeString);
    NullableSame(m, k, "title", DecodeString);
    NullableSame(m, k, "city", DecodeString);
    NullableSame(m, k, "state", DecodeString);
    NullableSame(m, k, "countryCode", DecodeString);
    NullableSame(m, k, "zipCode", DecodeString);
  }

  lemma ProfileNullSameLast(m: map<string, Value>, k: string)
    requires k in NullableProfileKeys
    ensures SameProfileLast(m[k := Null], m - {k})
  {
    OptionalSame(m, k, "employeeNumber", DecodeString);
    NullableSame(m, k, "costCenter", DecodeString);
    NullableSame(m, k, "organization", DecodeString);
    NullableSame(m, k, "division", DecodeString);
    NullableSame(m, k, "manager", DecodeString);
    NullableSame(m, k, "managerId", DecodeString);
    NullableSame(m, k, "primaryPhone", DecodeString);
    NullableSame(m, k, "secondEmail", DecodeString);
    OptionalSame(m, k, "locale", DecodeString);
    NullableSame(m, k, "timezone", DecodeString);
    NullableSame(m, k, "userType", DecodeString);
  }

  /** A profile property wrapped in `nullToUndefined` decodes `null` exactly as a missing key. */
  lemma ProfileNullIsMissing(m: map<string, Value>, k: string)
    requires k in NullableProfileKeys
    ensures DecodeUserProfile(Obj(m[k := Null])) == DecodeUserProfile(Obj(m - {k}))
  {
    ProfileNullSameFirst(m, k);
    ProfileNullSameLast(m, k);
    SameProfilePropertiesSameProfile(m[k := Null], m - {k});
  }

  /** `email`, `login`, `department`, `employeeNumber` and `locale` are not nullable: `null` fails the profile. */
  lemma ProfileStrictRejectsNull(m: map<string, Value>, k: string)
    requires k in StrictProfileKeys
    ensures DecodeUserProfile(Obj(m[k := Null])).Err?
  {
  }

  /** Two objects whose user properties decode alike. */
  predicate SameUserProperties(m1: map<string, Value>, m2: map<string, Value>) {
    OptionalProperty(m1, "id", DecodeUserId) == OptionalProperty(m2, "id", DecodeUserId) &&
    OptionalProperty(m1, "created", DecodeDate) == OptionalProperty(m2, "created", DecodeDate) &&
    OptionalNullToUndefinedProperty(m1, "activated", DecodeDate) == OptionalNullToUndefinedProperty(m2, "activated", DecodeDate) &&
    OptionalNullToUndefinedProperty(m1, "lastLogin", DecodeDate) == OptionalNullToUndefinedProperty(m2, "lastLogin", DecodeDate) &&
    OptionalProperty(m1, "lastUpdated", DecodeDate) == OptionalProperty(m2, "lastUpdated", DecodeDate) &&
    OptionalNullToUndefinedProperty(m1, "passwordChanged", DecodeDate) == OptionalNullToUndefinedProperty(m2, "passwordChanged", DecodeDate) &&
    OptionalNullToUndefinedProperty(m1, "statusChanged", DecodeDate) == OptionalNullToUndefinedProperty(m2, "statusChanged", DecodeDate) &&
    OptionalProperty(m1, "status", DecodeUserStatus) == OptionalProperty(m2, "status", DecodeUserStatus) &&
    OptionalProperty(m1, "profile", DecodeUserProfile) == OptionalProperty(m2, "profile", DecodeUserProfile) &&
    OptionalProperty(m1, "realmId", DecodeString) == OptionalProperty(m2, "realmId", DecodeString) &&
    OptionalProperty(m1, "credentials", DecodeUserCredentials) == OptionalProperty(m2, "credentials", DecodeUserCredentials) &&
    OptionalNullToUndefinedProperty(m1, "_links", DecodeUnknownRecord) == OptionalNullToUndefinedProperty(m2, "_links", DecodeUnknownRecord)
  }

  lemma SameUserPropertiesSameUser(m1: map<string, Value>, m2: map<string, Value>)
    requires SameUserProperties(m1, m2)
    ensures DecodeUser(Obj(m1)) == DecodeUser(Obj(m2))
  {
  }

  /** `activated`, `lastLogin`, `passwordChanged`, `statusChanged` and `_links` decode `null` as a missing key. */
  lemma UserNullIsMissing(m: map<string, Value>, k: string)
    requires k in NullableUserKeys
    ensures DecodeUser(Obj(m[k := Null])) == DecodeUser(Obj(m - {k}))
  {
    OptionalSame(m, k, "id", DecodeUserId);
    OptionalSame(m, k, "created", DecodeDate);
    NullableSame(m, k, "activated", DecodeDate);
    NullableSame(m, k, "lastLogin", DecodeDate);
    OptionalSame(m, k, "lastUpdated", DecodeDate);
    NullableSame(m, k, "passwordChanged", DecodeDate);
    NullableSame(m, k, "statusChanged", DecodeDate);
    OptionalSame(m, k, "status", DecodeUserStatus);
    OptionalSame(m, k, "profile", DecodeUserProfile);
    OptionalSame(m, k, "realmId", DecodeString);
    OptionalSame(m, k, "credentials", DecodeUserCredentials);
    NullableSame(m, k, "_links", DecodeUnknownRecord);
    SameUserPropertiesSameUser(m[k := Null], m - {k});
  }

  /** Every other user property, `created` and `lastUpdated` among them, fails the record on `null`. */
  lemma UserStrictRejectsNull(m: map<string, Value>, k: string)
    requires k in StrictUserKeys
    ensures DecodeUser(Obj(m[k := Null])).Err?
  {
  }

  /** A `null` in a strict profile property fails the user record that holds the profile. */
  lemma UserProfileNullFailsUser(m: map<string, Value>, profile: map<string, Value>, k: string)
    requires k in StrictProfileKeys
    ensures DecodeUser(Obj(m["profile" := Obj(profile[k := Null])])).Err?
  {
    var m' := m["profile" := Obj(profile[k := Null])];
    ProfileStrictRejectsNull(profile, k);
    assert OptionalProperty(m', "profile", DecodeUserProfile).Err?;
    UserDecodesIffProperties(m');
  }

  /** The credential records may be `null`, which reads as missing. */
  lemma CredentialsNullIsMissing(m: map<string, Value>, k: string)
    requires k in CredentialKeys
    ensures DecodeUserCredentials(Obj(m[k := Null])) == DecodeUserCredentials(Obj(m - {k}))
  {
  }

  /** A group's `_links` decodes `null` as a missing key. */
  lemma GroupLinksNullIsMissing(m: map<string, Value>)
    ensures DecodeGroup(Obj(m["_links" := Null])) == DecodeGroup(Obj(m - {"_links"}))
  {
    var k := "_links";
    OptionalSame(m, k, "id", DecodeGroupId);
    OptionalSame(m, k, "created", DecodeDate);
    OptionalSame(m, k, "lastMembershipUpdated", DecodeDate);
    OptionalSame(m, k, "lastUpdated", DecodeDate);
    OptionalSame(m, k, "type", DecodeGroupType);
    OptionalSame(m, k, "profile", DecodeGroupProfile);
    OptionalSame(m, k, "objectClass", DecodeStringArray);
    NullableSame(m, k, "_links", DecodeUnknownRecord);
  }

  /** Every other group property fails the record on `null`. */
  lemma GroupStrictRejectsNull(m: map<string, Value>, k: string)
    requires k in StrictGroupKeys
    ensures DecodeGroup(Obj(m[k := Null])).Err?
  {
  }

  /**
   * A group profile's `description` and `externalId` accept `null` and keep it:
   * the record decodes exactly when it would without the key, and the property
   * is then a present `null`, not absent.
   */
  lemma GroupProfileKeepsNull(m: map<string, Value>, k: string)
    requires k == "description" || k == "externalId"
    ensures DecodeGroupProfile(Obj(m[k := Null])).Ok? <==> DecodeGroupProfile(Obj(m - {k})).Ok?
    ensures DecodeGroupProfile(Obj(m[k := Null])).Ok? ==>
      var p := DecodeGroupProfile(Obj(m[k := Null])).value;
      (if k == "description" then p.description else p.externalId) == Present(NullValue)
  {
  }

  /** A group profile's `name` is not nullable. */
  lemma GroupProfileNameRejectsNull(m: map<string, Value>)
    ensures DecodeGroupProfile(Obj(m["name" := Null])).Err?
  {
  }

  // ---------------------------------------------------------------------------
  // `undefined` against a missing key: every property is `Schema.optional`

  /** Setting `k` to `undefined` and removing it look the same to every property. */
  lemma UndefinedSame<T>(m: map<string, Value>, k: string, j: string, schema: Decoder<T>)
    ensures OptionalProperty(m[k := Undefined], j, schema) == OptionalProperty(m - {k}, j, schema)
    ensures OptionalNullToUndefinedProperty(m[k := Undefined], j, schema)
         == OptionalNullToUndefinedProperty(m - {k}, j, schema)
  {
  }

  lemma ProfileUndefinedSameFirst(m: map<string, Value>, k: string)
    ensures SameProfileFirst(m[k := Undefined], m - {k})
  {
    UndefinedSame(m, k, "firstName", DecodeString);
    UndefinedSame(m, k, "lastName", DecodeString);
    UndefinedSame(m, k, "email", DecodeString);
    UndefinedSame(m, k, "login", DecodeString);
    UndefinedSame(m, k, "mobilePhone", DecodeString);
    UndefinedSame(m, k, "displayName", DecodeString);
    UndefinedSame(m, k, "department", DecodeString);
    UndefinedSame(m, k, "title", DecodeString);
    UndefinedSame(m, k, "city", DecodeString);
    UndefinedSame(m, k, "state", DecodeString);
    UndefinedSame(m, k, "countryCode", DecodeString);
    UndefinedSame(m, k, "zipCode", DecodeString);
  }

  lemma ProfileUndefinedSameLast(m: map<string, Value>, k: string)
    ensures SameProfileLast(m[k := Undefined], m - {k})
  {
    UndefinedSame(m, k, "employeeNumber", DecodeString);
    UndefinedSame(m, k, "costCenter", DecodeString);
    UndefinedSame(m, k, "organization", DecodeString);
    UndefinedSame(m, k, "division", DecodeString);
    UndefinedSame(m, k, "manager", DecodeString);
    UndefinedSame(m, k, "managerId", DecodeString);
    UndefinedSame(m, k, "primaryPhone", DecodeString);
    UndefinedSame(m, k, "secondEmail", DecodeString);
    UndefinedSame(m, k, "locale", DecodeString);
    UndefinedSame(m, k, "timezone", DecodeString);
    UndefinedSame(m, k, "userType", DecodeString);
  }

  /** A profile property set to `undefined` decodes exactly as a missing key. */
  lemma ProfileUndefinedIsMissing(m: map<string, Value>, k: string)
    ensures DecodeUserProfile(Obj(m[k := Undefined])) == DecodeUserProfile(Obj(m - {k}))
  {
    ProfileUndefinedSameFirst(m, k);
    ProfileUndefinedSameLast(m, k);
    SameProfilePropertiesSameProfile(m[k := Undefined], m - {k});
  }

  /** A credential set to `undefined` decodes exactly as a missing key. */
  lemma CredentialsUndefinedIsMissing(m: map<string, Value>, k: string)
    ensures DecodeUserCredentials(Obj(m[k := Undefined])) == DecodeUserCredentials(Obj(m - {k}))
  {
    UndefinedSame(m, k, "password", DecodeUnknownRecord);
    UndefinedSame(m, k, "provider", DecodeUnknownRecord);
    UndefinedSame(m, k, "recovery_question", DecodeUnknownRecord);
  }

  /** A user property set to `undefined` decodes exactly as a missing key. */
  lemma UserUndefinedIsMissing(m: map<string, Value>, k: string)
    ensures DecodeUser(Obj(m[k := Undefined])) == DecodeUser(Obj(m - {k}))
  {
    UndefinedSame(m, k, "id", DecodeUserId);
    UndefinedSame(m, k, "created", DecodeDate);
    UndefinedSame(m, k, "activated", DecodeDate);
    UndefinedSame(m, k, "lastLogin", DecodeDate);
    UndefinedSame(m, k, "lastUpdated", DecodeDate);
    UndefinedSame(m, k, "passwordChanged", DecodeDate);
    UndefinedSame(m, k, "statusChanged", DecodeDate);
    UndefinedSame(m, k, "status", DecodeUserStatus);
    UndefinedSame(m, k, "profile", DecodeUserProfile);
    UndefinedSame(m, k, "realmId", DecodeString);
    UndefinedSame(m, k, "credentials", DecodeUserCredentials);
    UndefinedSame(m, k, "_links", DecodeUnknownRecord);
    SameUserPropertiesSameUser(m[k := Undefined], m - {k});
  }

  /** A group profile property set to `undefined` decodes exactly as a missing key. */
  lemma GroupProfileUndefinedIsMissing(m: map<string, Value>, k: string)
    ensures DecodeGroupProfile(Obj(m[k := Undefined])) == DecodeGroupProfile(Obj(m - {k}))
  {
    UndefinedSame(m, k, "name", DecodeString);
    UndefinedSame(m, k, "description", NullOrString);
    UndefinedSame(m, k, "externalId", NullOrString);
  }

  /** Two objects whose group properties decode alike. */
  predicate SameGroupProperties(m1: map<string, Value>, m2: map<string, Value>) {
    OptionalProperty(m1, "id", DecodeGroupId) == OptionalProperty(m2, "id", DecodeGroupId) &&
    OptionalProperty(m1, "created", DecodeDate) == OptionalProperty(m2, "created", DecodeDate) &&
    OptionalProperty(m1, "lastMembershipUpdated", DecodeDate) == OptionalProperty(m2, "lastMembershipUpdated", DecodeDate) &&
    OptionalProperty(m1, "lastUpdated", DecodeDate) == OptionalProperty(m2, "lastUpdated", DecodeDate) &&
    OptionalProperty(m1, "type", DecodeGroupType) == OptionalProperty(m2, "type", DecodeGroupType) &&
    OptionalProperty(m1, "profile", DecodeGroupProfile) == OptionalProperty(m2, "profile", DecodeGroupProfile) &&
    OptionalProperty(m1, "objectClass", DecodeStringArray) == OptionalProperty(m2, "objectClass", DecodeStringArray) &&
    OptionalNullToUndefinedProperty(m1, "_links", DecodeUnknownRecord) == OptionalNullToUndefinedProperty(m2, "_links", DecodeUnknownRecord)
  }

  lemma SameGroupPropertiesSameGroup(m1: map<string, Value>, m2: map<string, Value>)
    requires SameGroupProperties(m1, m2)
    ensures DecodeGroup(Obj(m1)) == DecodeGroup(Obj(m2))
  {
  }

  /** A group property set to `undefined` decodes exactly as a missing key. */
  lemma GroupUndefinedIsMissing(m: map<string, Value>, k: string)
    ensures DecodeGroup(Obj(m[k := Undefined])) == DecodeGroup(Obj(m - {k}))
  {
    UndefinedSame(m, k, "id", DecodeGroupId);
    UndefinedSame(m, k, "created", DecodeDate);
    UndefinedSame(m, k, "lastMembershipUpdated", DecodeDate);
    UndefinedSame(m, k, "lastUpdated", DecodeDate);
    UndefinedSame(m, k, "type", DecodeGroupType);
    UndefinedSame(m, k, "profile", DecodeGroupProfile);
    UndefinedSame(m, k, "objectClass", DecodeStringArray);
    UndefinedSame(m, k, "_links", DecodeUnknownRecord);
    SameGroupPropertiesSameGroup(m[k := Undefined], m - {k});
  }

  // ---------------------------------------------------------------------------
  // Literals and identifiers

  /** A status that is not one of the eight literals fails the whole user record. */
  lemma UserStatusMustBeLiteral(m: map<string, Value>, s: string)
    requires s !in UserStatusLiterals
    ensures DecodeUser(Obj(m["status" := Str(s)])).Err?
  {
  }

  /** A decoded status is the literal that was on the wire. */
  lemma UserStatusDecoded(v: Value, u: OktaUser)
    requires DecodeUser(v) == Ok(u) && u.status.Present?
    ensures v.Obj? && "status" in v.fields && v.fields["status"] == Str(UserStatusLiteral(u.status.value))
  {
  }

  /** A group type that is not one of the three literals fails the whole group record. */
  lemma GroupTypeMustBeLiteral(m: map<string, Value>, s: string)
    requires s !in GroupTypeLiterals
    ensures DecodeGroup(Obj(m["type" := Str(s)])).Err?
  {
  }

  lemma UserIdAcceptance(m: map<string, Value>, s: string)
    ensures DecodeUser(Obj(m["id" := Str(s)])).Ok? <==> DecodeUser(Obj(m - {"id"})).Ok?
  {
    UserDecodesIffProperties(m["id" := Str(s)]);
    UserDecodesIffProperties(m - {"id"});
    ElsewhereSame(m, "id", Str(s), "created", DecodeDate);
    ElsewhereSame(m, "id", Str(s), "activated", DecodeDate);
    ElsewhereSame(m, "id", Str(s), "lastLogin", DecodeDate);
    ElsewhereSame(m, "id", Str(s), "lastUpdated", DecodeDate);
    ElsewhereSame(m, "id", Str(s), "passwordChanged", DecodeDate);
    ElsewhereSame(m, "id", Str(s), "statusChanged", DecodeDate);
    ElsewhereSame(m, "id", Str(s), "status", DecodeUserStatus);
    ElsewhereSame(m, "id", Str(s), "profile", DecodeUserProfile);
    ElsewhereSame(m, "id", Str(s), "realmId", DecodeString);
    ElsewhereSame(m, "id", Str(s), "credentials", DecodeUserCredentials);
    ElsewhereSame(m, "id", Str(s), "_links", DecodeUnknownRecord);
  }

  /** A decoded user's id is what its `id` property decodes to. */
  lemma DecodedUserId(m: map<string, Value>)
    requires DecodeUser(Obj(m)).Ok?
    ensures DecodeUser(Obj(m)).value.id == OptionalProperty(m, "id", DecodeUserId).value
  {
  }

  lemma UserIdDecoded(m: map<string, Value>, s: string)
    ensures DecodeUser(Obj(m["id" := Str(s)])).Ok? ==> DecodeUser(Obj(m["id" := Str(s)])).value.id == Present(UserId(s))
  {
    if DecodeUser(Obj(m["id" := Str(s)])).Ok? {
      DecodedUserId(m["id" := Str(s)]);
    }
  }

  /** Any string is a user id, the empty one included; the id does not otherwise affect acceptance. */
  lemma UserIdAnyString(m: map<string, Value>, s: string)
    ensures DecodeUser(Obj(m["id" := Str(s)])).Ok? <==> DecodeUser(Obj(m - {"id"})).Ok?
    ensures DecodeUser(Obj(m["id" := Str(s)])).Ok? ==> DecodeUser(Obj(m["id" := Str(s)])).value.id == Present(UserId(s))
  {
    UserIdAcceptance(m, s);
    UserIdDecoded(m, s);
  }

  /** A user id that is not a string fails the whole record: no partial record is produced. */
  lemma UserIdMustBeString(m: map<string, Value>, x: Value)
    requires !x.Str? && x != Undefined
    ensures DecodeUser(Obj(m["id" := x])).Err?
  {
  }

  lemma GroupIdAcceptance(m: map<string, Value>, s: string)
    ensures DecodeGroup(Obj(m["id" := Str(s)])).Ok? <==> DecodeGroup(Obj(m - {"id"})).Ok?
  {
    GroupDecodesIffProperties(m["id" := Str(s)]);
    GroupDecodesIffProperties(m - {"id"});
    ElsewhereSame(m, "id", Str(s), "created", DecodeDate);
    ElsewhereSame(m, "id", Str(s), "lastMembershipUpdated", DecodeDate);
    ElsewhereSame(m, "id", Str(s), "lastUpdated", DecodeDate);
    ElsewhereSame(m, "id", Str(s), "type", DecodeGroupType);
    ElsewhereSame(m, "id", Str(s), "profile", DecodeGroupProfile);
    ElsewhereSame(m, "id", Str(s), "objectClass", DecodeStringArray);
    ElsewhereSame(m, "id", Str(s), "_links", DecodeUnknownRecord);
  }

  /** A decoded group's id is what its `id` property decodes to. */
  lemma DecodedGroupId(m: map<string, Value>)
    requires DecodeGroup(Obj(m)).Ok?
    ensures DecodeGroup(Obj(m)).value.id == OptionalProperty(m, "id", DecodeGroupId).value
  {
  }

  /** Any string is a group id, the empty one included; the id does not otherwise affect acceptance. */
  lemma GroupIdAnyString(m: map<string, Value>, s: string)
    ensures DecodeGroup(Obj(m["id" := Str(s)])).Ok? <==> DecodeGroup(Obj(m - {"id"})).Ok?
    ensures DecodeGroup(Obj(m["id" := Str(s)])).Ok? ==> DecodeGroup(Obj(m["id" := Str(s)])).value.id == Present(GroupId(s))
  {
    GroupIdAcceptance(m, s);
    if DecodeGroup(Obj(m["id" := Str(s)])).Ok? {
      DecodedGroupId(m["id" := Str(s)]);
    }
  }

  /** A group id that is not a string fails the whole record. */
  lemma GroupIdMustBeString(m: map<string, Value>, x: Value)
    requires !x.Str? && x != Undefined
    ensures DecodeGroup(Obj(m["id" := x])).Err?
  {
  }

  // ---------------------------------------------------------------------------
  // Encoding: a decoded record written back as an object, absent properties left out.

  function EncodeOpt<T>(o: Opt<T>, enc: T -> Value): Opt<Value> {
    match o
    case Absent => Absent
    case Present(x) => Present(enc(x))
  }

  function StrOf(x: string): Value { Str(x) }
  function DateOf(d: Date): Value { DateV(d) }
  function ObjOf(fields: map<string, Value>): Value { Obj(fields) }
  function UserIdOf(id: UserId): Value { Str(id.value) }
  function UserStatusOf(s: UserStatus): Value { Str(UserStatusLiteral(s)) }

  function ProfileProperty(p: UserProfile, k: string): Opt<Value> {
    var s :=
      if k == "firstName" then p.firstName
      else if k == "lastName" then p.lastName
      else if k == "email" then p.email
      else if k == "login" then p.login
      else if k == "mobilePhone" then p.mobilePhone
      else if k == "displayName" then p.displayName
      else if k == "department" then p.department
      else if k == "title" then p.title
      else if k == "city" then p.city
      else if k == "state" then p.state
      else if k == "countryCode" then p.countryCode
      else if k == "zipCode" then p.zipCode
      else if k == "employeeNumber" then p.employeeNumber
      else if k == "costCenter" then p.costCenter
      else if k == "organization" then p.organization
      else if k == "division" then p.division
      else if k == "manager" then p.manager
      else if k == "managerId" then p.managerId
      else if k == "primaryPhone" then p.primaryPhone
      else if k == "secondEmail" then p.secondEmail
      else if k == "locale" then p.locale
      else if k == "timezone" then p.timezone
      else if k == "userType" then p.userType
      else Absent;
    EncodeOpt(s, StrOf)
  }

  function EncodeUserProfile(p: UserProfile): Value {
    Obj(map k | k in ProfileKeys && ProfileProperty(p, k).Present? :: ProfileProperty(p, k).value)
  }

  /** A profile whose every property decodes to that of `p` is `p`. */
  lemma ProfileFromProperties(m: map<string, Value>, p: UserProfile)
    requires OptionalNullToUndefinedProperty(m, "firstName", DecodeString) == Ok(p.firstName)
    requires OptionalNullToUndefinedProperty(m, "lastName", DecodeString) == Ok(p.lastName)
    requires OptionalProperty(m, "email", DecodeString) == Ok(p.email)
    requires OptionalProperty(m, "login", DecodeString) == Ok(p.login)
    requires OptionalNullToUndefinedProperty(m, "mobilePhone", DecodeString) == Ok(p.mobilePhone)
    requires OptionalNullToUndefinedProperty(m, "displayName", DecodeString) == Ok(p.displayName)
    requires OptionalProperty(m, "department", DecodeString) == Ok(p.department)
    requires OptionalNullToUndefinedProperty(m, "title", DecodeString) == Ok(p.title)
    requires OptionalNullToUndefinedProperty(m, "city", DecodeString) == Ok(p.city)
    requires OptionalNullToUndefinedProperty(m, "state", DecodeString) == Ok(p.state)
    requires OptionalNullToUndefinedProperty(m, "countryCode", DecodeString) == Ok(p.countryCode)
    requires OptionalNullToUndefinedProperty(m, "zipCode", DecodeString) == Ok(p.zipCode)
    requires OptionalProperty(m, "employeeNumber", DecodeString) == Ok(p.employeeNumber)
    requires OptionalNullToUndefinedProperty(m, "costCenter", DecodeString) == Ok(p.costCenter)
    requires OptionalNullToUndefinedProperty(m, "organization", DecodeString) == Ok(p.organization)
    requires OptionalNullToUndefinedProperty(m, "division", DecodeString) == Ok(p.division)
    requires OptionalNullToUndefinedProperty(m, "manager", DecodeString) == Ok(p.manager)
    requires OptionalNullToUndefinedProperty(m, "managerId", DecodeString) == Ok(p.managerId)
    requires OptionalNullToUndefinedProperty(m, "primaryPhone", DecodeString) == Ok(p.primaryPhone)
    requires OptionalNullToUndefinedProperty(m, "secondEmail", DecodeString) == Ok(p.secondEmail)
    requires OptionalProperty(m, "locale", DecodeString) == Ok(p.locale)
    requires OptionalNullToUndefinedProperty(m, "timezone", DecodeString) == Ok(p.timezone)
    requires OptionalNullToUndefinedProperty(m, "userType", DecodeString) == Ok(p.userType)
    ensures DecodeUserProfile(Obj(m)) == Ok(p)
  {
  }

  /** `m` holds `o` at key `k`: present exactly when `o` is, with its value. */
  predicate Holds(m: map<string, Value>, k: string, o: Opt<Value>) {
    (k in m <==> o.Present?) && (k in m ==> m[k] == o.value)
  }

  lemma ProfileFirstProperties(m: map<string, Value>, p: UserProfile)
    requires forall k :: k in ProfileKeys ==> Holds(m, k, ProfileProperty(p, k))
    ensures OptionalNullToUndefinedProperty(m, "firstName", DecodeString) == Ok(p.firstName)
    ensures OptionalNullToUndefinedProperty(m, "lastName", DecodeString) == Ok(p.lastName)
    ensures OptionalProperty(m, "email", DecodeString) == Ok(p.email)
    ensures OptionalProperty(m, "login", DecodeString) == Ok(p.login)
    ensures OptionalNullToUndefinedProperty(m, "mobilePhone", DecodeString) == Ok(p.mobilePhone)
    ensures OptionalNullToUndefinedProperty(m, "displayName", DecodeString) == Ok(p.displayName)
    ensures OptionalProperty(m, "department", DecodeString) == Ok(p.department)
    ensures OptionalNullToUndefinedProperty(m, "title", DecodeString) == Ok(p.title)
    ensures OptionalNullToUndefinedProperty(m, "city", DecodeString) == Ok(p.city)
    ensures OptionalNullToUndefinedProperty(m, "state", DecodeString) == Ok(p.state)
    ensures OptionalNullToUndefinedProperty(m, "countryCode", DecodeString) == Ok(p.countryCode)
    ensures OptionalNullToUndefinedProperty(m, "zipCode", DecodeString) == Ok(p.zipCode)
  {
    assert Holds(m, "firstName", ProfileProperty(p, "firstName"));
    StringHolds(m, "firstName", p.firstName);
    assert Holds(m, "lastName", ProfileProperty(p, "lastName"));
    StringHolds(m, "lastName", p.lastName);
    assert Holds(m, "email", ProfileProperty(p, "email"));
    StringHolds(m, "email", p.email);
    assert Holds(m, "login", ProfileProperty(p, "login"));
    StringHolds(m, "login", p.login);
    assert Holds(m, "mobilePhone", ProfileProperty(p, "mobilePhone"));
    StringHolds(m, "mobilePhone", p.mobilePhone);
    assert Holds(m, "displayName", ProfileProperty(p, "displayName"));
    StringHolds(m, "displayName", p.displayName);
    assert Holds(m, "department", ProfileProperty(p, "department"));
    StringHolds(m, "department", p.department);
    assert Holds(m, "title", ProfileProperty(p, "title"));
    StringHolds(m, "title", p.title);
    assert Holds(m, "city", ProfileProperty(p, "city"));
    StringHolds(m, "city", p.city);
    assert Holds(m, "state", ProfileProperty(p, "state"));
    StringHolds(m, "state", p.state);
    assert Holds(m, "countryCode", ProfileProperty(p, "countryCode"));
    StringHolds(m, "countryCode", p.countryCode);
    assert Holds(m, "zipCode", ProfileProperty(p, "zipCode"));
    StringHolds(m, "zipCode", p.zipCode);
  }

  lemma ProfileLastProperties(m: map<string, Value>, p: UserProfile)
    requires forall k :: k in ProfileKeys ==> Holds(m, k, ProfileProperty(p, k))
    ensures OptionalProperty(m, "employeeNumber", DecodeString) == Ok(p.employeeNumber)
    ensures OptionalNullToUndefinedProperty(m, "costCenter", DecodeString) == Ok(p.costCenter)
    ensures OptionalNullToUndefinedProperty(m, "organization", DecodeString) == Ok(p.organization)
    ensures OptionalNullToUndefinedProperty(m, "division", DecodeString) == Ok(p.division)
    ensures OptionalNullToUndefinedProperty(m, "manager", DecodeString) == Ok(p.manager)
    ensures OptionalNullToUndefinedProperty(m, "managerId", DecodeString) == Ok(p.managerId)
    ensures OptionalNullToUndefinedProperty(m, "primaryPhone", DecodeString) == Ok(p.primaryPhone)
    ensures OptionalNullToUndefinedProperty(m, "secondEmail", DecodeString) == Ok(p.secondEmail)
    ensures OptionalProperty(m, "locale", DecodeString) == Ok(p.locale)
    ensures OptionalNullToUndefinedProperty(m, "timezone", DecodeString) == Ok(p.timezone)
    ensures OptionalNullToUndefinedProperty(m, "userType", DecodeString) == Ok(p.userType)
  {
    assert Holds(m, "employeeNumber", ProfileProperty(p, "employeeNumber"));
    StringHolds(m, "employeeNumber", p.employeeNumber);
    assert Holds(m, "costCenter", ProfileProperty(p, "costCenter"));
    StringHolds(m, "costCenter", p.costCenter);
    assert Holds(m, "organization", ProfileProperty(p, "organization"));
    StringHolds(m, "organization", p.organization);
    assert Holds(m, "division", ProfileProperty(p, "division"));
    StringHolds(m, "division", p.division);
    assert Holds(m, "manager", ProfileProperty(p, "manager"));
    StringHolds(m, "manager", p.manager);
    assert Holds(m, "managerId", ProfileProperty(p, "managerId"));
    StringHolds(m, "managerId", p.managerId);
    assert Holds(m, "primaryPhone", ProfileProperty(p, "primaryPhone"));
    StringHolds(m, "primaryPhone", p.primaryPhone);
    assert Holds(m, "secondEmail", ProfileProperty(p, "secondEmail"));
    StringHolds(m, "secondEmail", p.secondEmail);
    assert Holds(m, "locale", ProfileProperty(p, "locale"));
    StringHolds(m, "locale", p.locale);
    assert Holds(m, "timezone", ProfileProperty(p, "timezone"));
    StringHolds(m, "timezone", p.timezone);
    assert Holds(m, "userType", ProfileProperty(p, "userType"));
    StringHolds(m, "userType", p.userType);
  }

  /** An object holding the encoded properties of `p` decodes to `p`. */
  lemma ProfileFromFields(m: map<string, Value>, p: UserProfile)
    requires forall k :: k in ProfileKeys ==> Holds(m, k, ProfileProperty(p, k))
    ensures DecodeUserProfile(Obj(m)) == Ok(p)
  {
    ProfileFirstProperties(m, p);
    ProfileLastProperties(m, p);
    ProfileFromProperties(m, p);
  }

  /** Decoding an encoded profile gives the profile back. */
  lemma UserProfileRoundTrip(p: UserProfile)
    ensures DecodeUserProfile(EncodeUserProfile(p)) == Ok(p)
  {
    ProfileFromFields(EncodeUserProfile(p).fields, p);
  }

  function CredentialsProperty(c: UserCredentials, k: string): Opt<Value> {
    var r :=
      if k == "password" then c.password
      else if k == "provider" then c.provider
      else if k == "recovery_question" then c.recoveryQuestion
      else Absent;
    EncodeOpt(r, ObjOf)
  }

  function EncodeUserCredentials(c: UserCredentials): Value {
    Obj(map k | k in CredentialKeys && CredentialsProperty(c, k).Present? :: CredentialsProperty(c, k).value)
  }

  /** Decoding encoded credentials gives them back. */
  lemma UserCredentialsRoundTrip(c: UserCredentials)
    ensures DecodeUserCredentials(EncodeUserCredentials(c)) == Ok(c)
  {
  }


  function UserProperty(u: OktaUser, k: string): Opt<Value> {
    if k == "id" then EncodeOpt(u.id, UserIdOf)
    else if k == "created" then EncodeOpt(u.created, DateOf)
    else if k == "activated" then EncodeOpt(u.activated, DateOf)
    else if k == "lastLogin" then EncodeOpt(u.lastLogin, DateOf)
    else if k == "lastUpdated" then EncodeOpt(u.lastUpdated, DateOf)
    else if k == "passwordChanged" then EncodeOpt(u.passwordChanged, DateOf)
    else if k == "statusChanged" then EncodeOpt(u.statusChanged, DateOf)
    else if k == "status" then EncodeOpt(u.status, UserStatusOf)
    else if k == "profile" then EncodeOpt(u.profile, EncodeUserProfile)
    else if k == "realmId" then EncodeOpt(u.realmId, StrOf)
    else if k == "credentials" then EncodeOpt(u.credentials, EncodeUserCredentials)
    else if k == "_links" then EncodeOpt(u.links, ObjOf)
    else Absent
  }

  /** The wire form of a user record. */
  function EncodeUser(u: OktaUser): Value {
    Obj(map k | k in UserKeys && UserProperty(u, k).Present? :: UserProperty(u, k).value)
  }

  /** A user whose every property decodes to that of `u` is `u`. */
  lemma UserFromProperties(m: map<string, Value>, u: OktaUser)
    requires OptionalProperty(m, "id", DecodeUserId) == Ok(u.id)
    requires OptionalProperty(m, "created", DecodeDate) == Ok(u.created)
    requires OptionalNullToUndefinedProperty(m, "activated", DecodeDate) == Ok(u.activated)
    requires OptionalNullToUndefinedProperty(m, "lastLogin", DecodeDate) == Ok(u.lastLogin)
    requires OptionalProperty(m, "lastUpdated", DecodeDate) == Ok(u.lastUpdated)
    requires OptionalNullToUndefinedProperty(m, "passwordChanged", DecodeDate) == Ok(u.passwordChanged)
    requires OptionalNullToUndefinedProperty(m, "statusChanged", DecodeDate) == Ok(u.statusChanged)
    requires OptionalProperty(m, "status", DecodeUserStatus) == Ok(u.status)
    requires OptionalProperty(m, "profile", DecodeUserProfile) == Ok(u.profile)
    requires OptionalProperty(m, "realmId", DecodeString) == Ok(u.realmId)
    requires OptionalProperty(m, "credentials", DecodeUserCredentials) == Ok(u.credentials)
    requires OptionalNullToUndefinedProperty(m, "_links", DecodeUnknownRecord) == Ok(u.links)
    ensures DecodeUser(Obj(m)) == Ok(u)
  {
  }

  lemma DateHolds(m: map<string, Value>, k: string, o: Opt<Date>)
    requires Holds(m, k, EncodeOpt(o, DateOf))
    ensures OptionalProperty(m, k, DecodeDate) == Ok(o)
    ensures OptionalNullToUndefinedProperty(m, k, DecodeDate) == Ok(o)
  {
  }

  lemma StringHolds(m: map<string, Value>, k: string, o: Opt<string>)
    requires Holds(m, k, EncodeOpt(o, StrOf))
    ensures OptionalProperty(m, k, DecodeString) == Ok(o)
    ensures OptionalNullToUndefinedProperty(m, k, DecodeString) == Ok(o)
  {
  }

  lemma RecordHolds(m: map<string, Value>, k: string, o: Opt<map<string, Value>>)
    requires Holds(m, k, EncodeOpt(o, ObjOf))
    ensures OptionalNullToUndefinedProperty(m, k, DecodeUnknownRecord) == Ok(o)
  {
  }

  lemma UserIdHolds(m: map<string, Value>, o: Opt<UserId>)
    requires Holds(m, "id", EncodeOpt(o, UserIdOf))
    ensures OptionalProperty(m, "id", DecodeUserId) == Ok(o)
  {
  }

  lemma UserStatusHolds(m: map<string, Value>, o: Opt<UserStatus>)
    requires Holds(m, "status", EncodeOpt(o, UserStatusOf))
    ensures OptionalProperty(m, "status", DecodeUserStatus) == Ok(o)
  {
    if o.Present? {
      assert DecodeUserStatus(UserStatusOf(o.value)).Ok?;
    }
  }

  lemma UserProfileHolds(m: map<string, Value>, o: Opt<UserProfile>)
    requires Holds(m, "profile", EncodeOpt(o, EncodeUserProfile))
    ensures OptionalProperty(m, "profile", DecodeUserProfile) == Ok(o)
  {
    if o.Present? {
      UserProfileRoundTrip(o.value);
    }
  }

  lemma UserCredentialsHolds(m: map<string, Value>, o: Opt<UserCredentials>)
    requires Holds(m, "credentials", EncodeOpt(o, EncodeUserCredentials))
    ensures OptionalProperty(m, "credentials", DecodeUserCredentials) == Ok(o)
  {
    if o.Present? {
      UserCredentialsRoundTrip(o.value);
    }
  }

  /** An object holding the encoded properties of `u` decodes to `u`. */
  lemma UserFromFields(m: map<string, Value>, u: OktaUser)
    requires forall k :: k in UserKeys ==> Holds(m, k, UserProperty(u, k))
    ensures DecodeUser(Obj(m)) == Ok(u)
  {
    assert Holds(m, "id", UserProperty(u, "id"));
    UserIdHolds(m, u.id);
    assert Holds(m, "created", UserProperty(u, "created"));
    DateHolds(m, "created", u.created);
    assert Holds(m, "activated", UserProperty(u, "activated"));
    DateHolds(m, "activated", u.activated);
    assert Holds(m, "lastLogin", UserProperty(u, "lastLogin"));
    DateHolds(m, "lastLogin", u.lastLogin);
    assert Holds(m, "lastUpdated", UserProperty(u, "lastUpdated"));
    DateHolds(m, "lastUpdated", u.lastUpdated);
    assert Holds(m, "passwordChanged", UserProperty(u, "passwordChanged"));
    DateHolds(m, "passwordChanged", u.passwordChanged);
    assert Holds(m, "statusChanged", UserProperty(u, "statusChanged"));
    DateHolds(m, "statusChanged", u.statusChanged);
    assert Holds(m, "status", UserProperty(u, "status"));
    UserStatusHolds(m, u.status);
    assert Holds(m, "profile", UserProperty(u, "profile"));
    UserProfileHolds(m, u.profile);
    assert Holds(m, "realmId", UserProperty(u, "realmId"));
    StringHolds(m, "realmId", u.realmId);
    assert Holds(m, "credentials", UserProperty(u, "credentials"));
    UserCredentialsHolds(m, u.credentials);
    assert Holds(m, "_links", UserProperty(u, "_links"));
    RecordHolds(m, "_links", u.links);
    UserFromProperties(m, u);
  }

  /** Decoding an encoded user gives the user back: nothing a decoded record holds is lost. */
  lemma UserRoundTrip(u: OktaUser)
    ensures DecodeUser(EncodeUser(u)) == Ok(u)
  {
    UserFromFields(EncodeUser(u).fields, u);
  }

  function NullableStrOf(x: Nullable<string>): Value {
    match x
    case NullValue => Null
    case NonNull(str) => Str(str)
  }

  function GroupProfileProperty(p: GroupProfile, k: string): Opt<Value> {
    if k == "name" then EncodeOpt(p.name, StrOf)
    else if k == "description" then EncodeOpt(p.description, NullableStrOf)
    else if k == "externalId" then EncodeOpt(p.externalId, NullableStrOf)
    else Absent
  }


  function EncodeGroupProfile(p: GroupProfile): Value {
    Obj(map k | k in GroupProfileKeys && GroupProfileProperty(p, k).Present? :: GroupProfileProperty(p, k).value)
  }

  /** Decoding an encoded group profile gives it back, a present `null` included. */
  lemma GroupProfileRoundTrip(p: GroupProfile)
    ensures DecodeGroupProfile(EncodeGroupProfile(p)) == Ok(p)
  {
  }

  function GroupTypeOf(t: GroupType): Value { Str(GroupTypeLiteral(t)) }
  function GroupIdOf(id: GroupId): Value { Str(id.value) }
  function StringArrayOf(xs: seq<string>): Value { Arr(seq(|xs|, i requires 0 <= i < |xs| => Str(xs[i]))) }


  function GroupProperty(g: OktaGroup, k: string): Opt<Value> {
    if k == "id" then EncodeOpt(g.id, GroupIdOf)
    else if k == "created" then EncodeOpt(g.created, DateOf)
    else if k == "lastMembershipUpdated" then EncodeOpt(g.lastMembershipUpdated, DateOf)
    else if k == "lastUpdated" then EncodeOpt(g.lastUpdated, DateOf)
    else if k == "type" then EncodeOpt(g.groupType, GroupTypeOf)
    else if k == "profile" then EncodeOpt(g.profile, EncodeGroupProfile)
    else if k == "objectClass" then EncodeOpt(g.objectClass, StringArrayOf)
    else if k == "_links" then EncodeOpt(g.links, ObjOf)
    else Absent
  }

  /** The wire form of a group record. */
  function EncodeGroup(g: OktaGroup): Value {
    Obj(map k | k in GroupKeys && GroupProperty(g, k).Present? :: GroupProperty(g, k).value)
  }

  lemma GroupTypeHolds(m: map<string, Value>, o: Opt<GroupType>)
    requires Holds(m, "type", EncodeOpt(o, GroupTypeOf))
    ensures OptionalProperty(m, "type", DecodeGroupType) == Ok(o)
  {
    if o.Present? {
      assert DecodeGroupType(GroupTypeOf(o.value)).Ok?;
    }
  }

  lemma GroupProfileHolds(m: map<string, Value>, o: Opt<GroupProfile>)
    requires Holds(m, "profile", EncodeOpt(o, EncodeGroupProfile))
    ensures OptionalProperty(m, "profile", DecodeGroupProfile) == Ok(o)
  {
    if o.Present? {
      GroupProfileRoundTrip(o.value);
    }
  }

  lemma ObjectClassHolds(m: map<string, Value>, o: Opt<seq<string>>)
    requires Holds(m, "objectClass", EncodeOpt(o, StringArrayOf))
    ensures OptionalProperty(m, "objectClass", DecodeStringArray) == Ok(o)
  {
    if o.Present? {
      var xs := o.value;
      var r := DecodeStringArray(StringArrayOf(xs));
      assert r.Ok? && r.value == xs;
    }
  }

  /** A group whose every property decodes to that of `g` is `g`. */
  lemma GroupFromProperties(m: map<string, Value>, g: OktaGroup)
    requires OptionalProperty(m, "id", DecodeGroupId) == Ok(g.id)
    requires OptionalProperty(m, "created", DecodeDate) == Ok(g.created)
    requires OptionalProperty(m, "lastMembershipUpdated", DecodeDate) == Ok(g.lastMembershipUpdated)
    requires OptionalProperty(m, "lastUpdated", DecodeDate) == Ok(g.lastUpdated)
    requires OptionalProperty(m, "type", DecodeGroupType) == Ok(g.groupType)
    requires OptionalProperty(m, "profile", DecodeGroupProfile) == Ok(g.profile)
    requires OptionalProperty(m, "objectClass", DecodeStringArray) == Ok(g.objectClass)
    requires OptionalNullToUndefinedProperty(m, "_links", DecodeUnknownRecord) == Ok(g.links)
    ensures DecodeGroup(Obj(m)) == Ok(g)
  {
  }

  /** An object holding the encoded properties of `g` decodes to `g`. */
  lemma GroupFromFields(m: map<string, Value>, g: OktaGroup)
    requires forall k :: k in GroupKeys ==> Holds(m, k, GroupProperty(g, k))
    ensures DecodeGroup(Obj(m)) == Ok(g)
  {
    assert Holds(m, "id", GroupProperty(g, "id"));
    assert OptionalProperty(m, "id", DecodeGroupId) == Ok(g.id);
    assert Holds(m, "created", GroupProperty(g, "created"));
    DateHolds(m, "created", g.created);
    assert Holds(m, "lastMembershipUpdated", GroupProperty(g, "lastMembershipUpdated"));
    DateHolds(m, "lastMembershipUpdated", g.lastMembershipUpdated);
    assert Holds(m, "lastUpdated", GroupProperty(g, "lastUpdated"));
    DateHolds(m, "lastUpdated", g.lastUpdated);
    assert Holds(m, "type", GroupProperty(g, "type"));
    GroupTypeHolds(m, g.groupType);
    assert Holds(m, "profile", GroupProperty(g, "profile"));
    GroupProfileHolds(m, g.profile);
    assert Holds(m, "objectClass", GroupProperty(g, "objectClass"));
    ObjectClassHolds(m, g.objectClass);
    assert Holds(m, "_links", GroupProperty(g, "_links"));
    RecordHolds(m, "_links", g.links);
    GroupFromProperties(m, g);
  }

  /** Decoding an encoded group gives the group back: nothing a decoded record holds is lost. */
  lemma GroupRoundTrip(g: OktaGroup)
    ensures DecodeGroup(EncodeGroup(g)) == Ok(g)
  {
    GroupFromFields(EncodeGroup(g).fields, g);
  }
}
