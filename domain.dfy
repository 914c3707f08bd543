/**
 * The record validator of src/domain.ts: an untyped value handed over by the
 * identity-provider SDK is decoded into a user or group record, all or nothing.
 *
 * Each Effect schema of the source becomes a decoding function from `Value`
 * to `Result<_, DecodeError>`; struct properties are decoded in declaration
 * order and the first failing one decides the error, as the schema library's
 * default ("first error") mode does.
 */
module Domain {
  import opened Wrappers

  /** An untyped JavaScript value, as far as the schemas below look at it. */
  datatype Value =
    | Null
    | Str(str: string)
    | DateV(date: Date)
    | Obj(fields: map<string, Value>)
    | Arr(elems: seq<Value>)
    | Undefined
    | Other(kind: string)  // numbers, booleans, functions: opaque here

  /** A JavaScript `Date` instance; its internals are not looked at. */
  datatype Date = Date(epochMillis: int)

  /** A struct property declared with `Schema.optional`: the key may be missing. */
  datatype Opt<+T> = Absent | Present(value: T)

  /** `Schema.NullOr(s)`: `null` is a value of its own, distinct from absence. */
  datatype Nullable<+T> = NullValue | NonNull(value: T)

  datatype Expected = AString | ADate | AnObject | AnArray | AStatusLiteral | AGroupTypeLiteral

  /** A parse failure: where it happened (the keys leading to it), what was expected and what was found. */
  datatype DecodeError = DecodeError(path: seq<string>, expected: Expected, actual: Value)

  type Decoder<T> = Value -> Result<T, DecodeError>

  // ---------------------------------------------------------------------------
  // Leaf schemas

  /** `Schema.String` */
  function DecodeString(v: Value): (r: Result<string, DecodeError>)
    ensures r.Ok? <==> v.Str?
    ensures r.Ok? ==> r.value == v.str
  {
    if v.Str? then Ok(v.str) else Err(DecodeError([], AString, v))
  }

  /** `Schema.DateFromSelf`: any `Date` instance, passed through. */
  function DecodeDate(v: Value): (r: Result<Date, DecodeError>)
    ensures r.Ok? <==> v.DateV?
    ensures r.Ok? ==> r.value == v.date
  {
    if v.DateV? then Ok(v.date) else Err(DecodeError([], ADate, v))
  }

  /** `Schema.Record({ key: Schema.String, value: Schema.Unknown })`: any object, contents unchecked. */
  function DecodeUnknownRecord(v: Value): (r: Result<map<string, Value>, DecodeError>)
    ensures r.Ok? <==> v.Obj?
    ensures r.Ok? ==> r.value == v.fields
  {
    if v.Obj? then Ok(v.fields) else Err(DecodeError([], AnObject, v))
  }

  /** The elements of `Schema.Array(Schema.String)`, decoded left to right; the first non-string fails. */
  function DecodeStrings(xs: seq<Value>): (r: Result<seq<string>, DecodeError>)
    ensures r.Ok? <==> forall i :: 0 <= i < |xs| ==> xs[i].Str?
    ensures r.Ok? ==> |r.value| == |xs| && forall i :: 0 <= i < |xs| ==> r.value[i] == xs[i].str
  {
    if xs == [] then Ok([])
    else
      var head :- DecodeString(xs[0]);
      var tail :- DecodeStrings(xs[1..]);
      assert forall i :: 1 <= i < |xs| ==> xs[i] == xs[1..][i - 1];
      Ok([head] + tail)
  }

  /** `Schema.Array(Schema.String)` */
  function DecodeStringArray(v: Value): (r: Result<seq<string>, DecodeError>)
    ensures r.Ok? <==> v.Arr? && forall i :: 0 <= i < |v.elems| ==> v.elems[i].Str?
    ensures r.Ok? ==> |r.value| == |v.elems| && forall i :: 0 <= i < |v.elems| ==> r.value[i] == v.elems[i].str
  {
    if v.Arr? then DecodeStrings(v.elems) else Err(DecodeError([], AnArray, v))
  }

  // ---------------------------------------------------------------------------
  // Branded identifiers: a user id cannot stand where a group id is expected.

  datatype UserId = UserId(value: string)
  datatype GroupId = GroupId(value: string)

  /** `UserIdSchema`: any string, the empty one included, branded as a user id. */
  function DecodeUserId(v: Value): (r: Result<UserId, DecodeError>)
    ensures r.Ok? <==> v.Str?
    ensures r.Ok? ==> r.value == UserId(v.str)
  {
    var s :- DecodeString(v);
    Ok(UserId(s))
  }

  /** `GroupIdSchema`: any string, the empty one included, branded as a group id. */
  function DecodeGroupId(v: Value): (r: Result<GroupId, DecodeError>)
    ensures r.Ok? <==> v.Str?
    ensures r.Ok? ==> r.value == GroupId(v.str)
  {
    var s :- DecodeString(v);
    Ok(GroupId(s))
  }

  // ---------------------------------------------------------------------------
  // Literal schemas

  datatype UserStatus =
    STAGED | PROVISIONED | ACTIVE | RECOVERY | LOCKED_OUT | PASSWORD_EXPIRED | SUSPENDED | DEPROVISIONED

  const UserStatusLiterals: set<string> :=
    {"STAGED", "PROVISIONED", "ACTIVE", "RECOVERY", "LOCKED_OUT", "PASSWORD_EXPIRED", "SUSPENDED", "DEPROVISIONED"}

  /** The literal a status stands for on the wire. */
  function UserStatusLiteral(s: UserStatus): (lit: string)
    ensures lit in UserStatusLiterals
  {
    match s
    case STAGED => "STAGED"
    case PROVISIONED => "PROVISIONED"
    case ACTIVE => "ACTIVE"
    case RECOVERY => "RECOVERY"
    case LOCKED_OUT => "LOCKED_OUT"
    case PASSWORD_EXPIRED => "PASSWORD_EXPIRED"
    case SUSPENDED => "SUSPENDED"
    case DEPROVISIONED => "DEPROVISIONED"
  }

  /** `UserStatusSchema`: one of the eight literals, and nothing else. */
  function DecodeUserStatus(v: Value): (r: Result<UserStatus, DecodeError>)
    ensures r.Ok? <==> v.Str? && v.str in UserStatusLiterals
    ensures r.Ok? ==> v == Str(UserStatusLiteral(r.value))
  {
    if v == Str("STAGED") then Ok(STAGED)
    else if v == Str("PROVISIONED") then Ok(PROVISIONED)
    else if v == Str("ACTIVE") then Ok(ACTIVE)
    else if v == Str("RECOVERY") then Ok(RECOVERY)
    else if v == Str("LOCKED_OUT") then Ok(LOCKED_OUT)
    else if v == Str("PASSWORD_EXPIRED") then Ok(PASSWORD_EXPIRED)
    else if v == Str("SUSPENDED") then Ok(SUSPENDED)
    else if v == Str("DEPROVISIONED") then Ok(DEPROVISIONED)
    else Err(DecodeError([], AStatusLiteral, v))
  }

  datatype GroupType = OKTA_GROUP | APP_GROUP | BUILT_IN

  const GroupTypeLiterals: set<string> := {"OKTA_GROUP", "APP_GROUP", "BUILT_IN"}

  /** The literal a group type stands for on the wire. */
  function GroupTypeLiteral(t: GroupType): (lit: string)
    ensures lit in GroupTypeLiterals
  {
    match t
    case OKTA_GROUP => "OKTA_GROUP"
    case APP_GROUP => "APP_GROUP"
    case BUILT_IN => "BUILT_IN"
  }

  /** `GroupTypeSchema`: one of the three literals, and nothing else. */
  function DecodeGroupType(v: Value): (r: Result<GroupType, DecodeError>)
    ensures r.Ok? <==> v.Str? && v.str in GroupTypeLiterals
    ensures r.Ok? ==> v == Str(GroupTypeLiteral(r.value))
  {
    if v == Str("OKTA_GROUP") then Ok(OKTA_GROUP)
    else if v == Str("APP_GROUP") then Ok(APP_GROUP)
    else if v == Str("BUILT_IN") then Ok(BUILT_IN)
    else Err(DecodeError([], AGroupTypeLiteral, v))
  }

  // ---------------------------------------------------------------------------
  // Null handling

  /** `Schema.NullOr(inner)`: `null` is accepted and kept; anything else goes to `inner`. */
  function DecodeNullOr<T>(v: Value, inner: Decoder<T>): (r: Result<Nullable<T>, DecodeError>)
    ensures v == Null ==> r == Ok(NullValue)
    ensures v != Null ==> (r.Ok? <==> inner(v).Ok?)
    ensures v != Null && r.Ok? ==> r.value == NonNull(inner(v).value)
  {
    if v == Null then Ok(NullValue)
    else
      var x :- inner(v);
      Ok(NonNull(x))
  }

  /** The decode half of the `nullToUndefined` transform. */
  function NullToUndefined<T>(x: Nullable<T>): (o: Opt<T>)
    ensures o.Absent? <==> x.NullValue?
    ensures x.NonNull? ==> o == Present(x.value)
  {
    match x
    case NullValue => Absent
    case NonNull(a) => Present(a)
  }

  /** The encode half of the `nullToUndefined` transform; decoding its result gives back its input. */
  function UndefinedToNull<T>(o: Opt<T>): (x: Nullable<T>)
    ensures NullToUndefined(x) == o
  {
    match o
    case Absent => NullValue
    case Present(a) => NonNull(a)
  }

  /** `nullToUndefined(inner)`: `null` becomes absent, any other value is decoded by `inner`. */
  function DecodeNullToUndefined<T>(v: Value, inner: Decoder<T>): (r: Result<Opt<T>, DecodeError>)
    ensures v == Null ==> r == Ok(Absent)
    ensures v != Null ==> (r.Ok? <==> inner(v).Ok?)
    ensures v != Null && r.Ok? ==> r.value == Present(inner(v).value)
  {
    var x :- DecodeNullOr(v, inner);
    Ok(NullToUndefined(x))
  }

  // ---------------------------------------------------------------------------
  // Struct properties

  /** Prefixes the path of a failure with the key of the property it happened in. */
  function AtKey<T>(key: string, r: Result<T, DecodeError>): Result<T, DecodeError> {
    match r
    case Ok(x) => Ok(x)
    case Err(e) => Err(e.(path := [key] + e.path))
  }

  /**
   * A property `key: Schema.optional(schema)`: a missing key and a key set to
   * `undefined` are absent; any other value must decode, and a failure is
   * reported under `key`.
   */
  function OptionalProperty<T>(m: map<string, Value>, key: string, schema: Decoder<T>): (r: Result<Opt<T>, DecodeError>)
    ensures key !in m || m[key] == Undefined ==> r == Ok(Absent)
    ensures key in m && m[key] != Undefined ==> (r.Ok? <==> schema(m[key]).Ok?)
    ensures key in m && m[key] != Undefined && r.Ok? ==> r.value == Present(schema(m[key]).value)
    ensures r.Err? ==> r.error.path != [] && r.error.path[0] == key
  {
    if key !in m || m[key] == Undefined then Ok(Absent)
    else
      var x :- AtKey(key, schema(m[key]));
      Ok(Present(x))
  }

  /**
   * A property `key: Schema.optional(nullToUndefined(schema))`: missing,
   * `undefined` and `null` all give absent.
   */
  function OptionalNullToUndefinedProperty<T>(m: map<string, Value>, key: string, schema: Decoder<T>)
    : (r: Result<Opt<T>, DecodeError>)
    ensures key !in m || m[key] == Undefined || m[key] == Null ==> r == Ok(Absent)
    ensures key in m && m[key] != Undefined && m[key] != Null ==> (r.Ok? <==> schema(m[key]).Ok?)
    ensures key in m && m[key] != Undefined && m[key] != Null && r.Ok? ==> r.value == Present(schema(m[key]).value)
    ensures r.Err? ==> r.error.path != [] && r.error.path[0] == key
  {
    if key !in m || m[key] == Undefined then Ok(Absent) else AtKey(key, DecodeNullToUndefined(m[key], schema))
  }

  /** The value was not an object where a struct was expected. */
  function NotAnObject<T>(v: Value): Result<T, DecodeError> {
    Err(DecodeError([], AnObject, v))
  }

  // ---------------------------------------------------------------------------
  // User records

  datatype UserProfile = UserProfile(
    firstName: Opt<string>,
    lastName: Opt<string>,
    email: Opt<string>,
    login: Opt<string>,
    mobilePhone: Opt<string>,
    displayName: Opt<string>,
    department: Opt<string>,
    title: Opt<string>,
    city: Opt<string>,
    state: Opt<string>,
    countryCode: Opt<string>,
    zipCode: Opt<string>,
    employeeNumber: Opt<string>,
    costCenter: Opt<string>,
    organization: Opt<string>,
    division: Opt<string>,
    manager: Opt<string>,
    managerId: Opt<string>,
    primaryPhone: Opt<string>,
    secondEmail: Opt<string>,
    locale: Opt<string>,
    timezone: Opt<string>,
    userType: Opt<string>)

  /** Profile properties wrapped in `nullToUndefined`. */
  const NullableProfileKeys: set<string> :=
    {"firstName", "lastName", "mobilePhone", "displayName", "title", "city", "state", "countryCode",
     "zipCode", "costCenter", "organization", "division", "manager", "managerId", "primaryPhone",
     "secondEmail", "timezone", "userType"}

  /** Profile properties declared as plain optional strings: `null` is not a string. */
  const StrictProfileKeys: set<string> := {"email", "login", "department", "employeeNumber", "locale"}

  const ProfileKeys: set<string> := NullableProfileKeys + StrictProfileKeys

  /** `UserProfileSchema` */
  function DecodeUserProfile(v: Value): Result<UserProfile, DecodeError> {
    if !v.Obj? then NotAnObject(v)
    else
      var m := v.fields;
      var firstName :- OptionalNullToUndefinedProperty(m, "firstName", DecodeString);
      var lastName :- OptionalNullToUndefinedProperty(m, "lastName", DecodeString);
      var email :- OptionalProperty(m, "email", DecodeString);
      var login :- OptionalProperty(m, "login", DecodeString);
      var mobilePhone :- OptionalNullToUndefinedProperty(m, "mobilePhone", DecodeString);
      var displayName :- OptionalNullToUndefinedProperty(m, "displayName", DecodeString);
      var department :- OptionalProperty(m, "department", DecodeString);
      var title :- OptionalNullToUndefinedProperty(m, "title", DecodeString);
      var city :- OptionalNullToUndefinedProperty(m, "city", DecodeString);
      var state :- OptionalNullToUndefinedProperty(m, "state", DecodeString);
      var countryCode :- OptionalNullToUndefinedProperty(m, "countryCode", DecodeString);
      var zipCode :- OptionalNullToUndefinedProperty(m, "zipCode", DecodeString);
      var employeeNumber :- OptionalProperty(m, "employeeNumber", DecodeString);
      var costCenter :- OptionalNullToUndefinedProperty(m, "costCenter", DecodeString);
      var organization :- OptionalNullToUndefinedProperty(m, "organization", DecodeString);
      var division :- OptionalNullToUndefinedProperty(m, "division", DecodeString);
      var manager :- OptionalNullToUndefinedProperty(m, "manager", DecodeString);
      var managerId :- OptionalNullToUndefinedProperty(m, "managerId", DecodeString);
      var primaryPhone :- OptionalNullToUndefinedProperty(m, "primaryPhone", DecodeString);
      var secondEmail :- OptionalNullToUndefinedProperty(m, "secondEmail", DecodeString);
      var locale :- OptionalProperty(m, "locale", DecodeString);
      var timezone :- OptionalNullToUndefinedProperty(m, "timezone", DecodeString);
      var userType :- OptionalNullToUndefinedProperty(m, "userType", DecodeString);
      Ok(UserProfile(firstName, lastName, email, login, mobilePhone, displayName, department, title,
                     city, state, countryCode, zipCode, employeeNumber, costCenter, organization,
                     division, manager, managerId, primaryPhone, secondEmail, locale, timezone, userType))
  }

  datatype UserCredentials = UserCredentials(
    password: Opt<map<string, Value>>,
    provider: Opt<map<string, Value>>,
    recoveryQuestion: Opt<map<string, Value>>)

  const CredentialKeys: set<string> := {"password", "provider", "recovery_question"}

  /** `UserCredentialsSchema`: three optional records, each of which may be `null`. */
  function DecodeUserCredentials(v: Value): Result<UserCredentials, DecodeError> {
    if !v.Obj? then NotAnObject(v)
    else
      var m := v.fields;
      var password :- OptionalNullToUndefinedProperty(m, "password", DecodeUnknownRecord);
      var provider :- OptionalNullToUndefinedProperty(m, "provider", DecodeUnknownRecord);
      var recoveryQuestion :- OptionalNullToUndefinedProperty(m, "recovery_question", DecodeUnknownRecord);
      Ok(UserCredentials(password, provider, recoveryQuestion))
  }

  datatype OktaUser = OktaUser(
    id: Opt<UserId>,
    created: Opt<Date>,
    activated: Opt<Date>,
    lastLogin: Opt<Date>,
    lastUpdated: Opt<Date>,
    passwordChanged: Opt<Date>,
    statusChanged: Opt<Date>,
    status: Opt<UserStatus>,
    profile: Opt<UserProfile>,
    realmId: Opt<string>,
    credentials: Opt<UserCredentials>,
    links: Opt<map<string, Value>>)

  /** User properties wrapped in `nullToUndefined`. */
  const NullableUserKeys: set<string> := {"activated", "lastLogin", "passwordChanged", "statusChanged", "_links"}

  /** User properties that are optional but not nullable. */
  const StrictUserKeys: set<string> :=
    {"id", "created", "lastUpdated", "status", "profile", "realmId", "credentials"}

  const UserKeys: set<string> := NullableUserKeys + StrictUserKeys

  /** `OktaUserSchema` */
  function DecodeUser(v: Value): Result<OktaUser, DecodeError> {
    if !v.Obj? then NotAnObject(v)
    else
      var m := v.fields;
      var id :- OptionalProperty(m, "id", DecodeUserId);
      var created :- OptionalProperty(m, "created", DecodeDate);
      var activated :- OptionalNullToUndefinedProperty(m, "activated", DecodeDate);
      var lastLogin :- OptionalNullToUndefinedProperty(m, "lastLogin", DecodeDate);
      var lastUpdated :- OptionalProperty(m, "lastUpdated", DecodeDate);
      var passwordChanged :- OptionalNullToUndefinedProperty(m, "passwordChanged", DecodeDate);
      var statusChanged :- OptionalNullToUndefinedProperty(m, "statusChanged", DecodeDate);
      var status :- OptionalProperty(m, "status", DecodeUserStatus);
      var profile :- OptionalProperty(m, "profile", DecodeUserProfile);
      var realmId :- OptionalProperty(m, "realmId", DecodeString);
      var credentials :- OptionalProperty(m, "credentials", DecodeUserCredentials);
      var links :- OptionalNullToUndefinedProperty(m, "_links", DecodeUnknownRecord);
      Ok(OktaUser(id, created, activated, lastLogin, lastUpdated, passwordChanged, statusChanged,
                  status, profile, realmId, credentials, links))
  }

  // ---------------------------------------------------------------------------
  // Group records

  datatype GroupProfile = GroupProfile(
    name: Opt<string>,
    description: Opt<Nullable<string>>,
    externalId: Opt<Nullable<string>>)

  const GroupProfileKeys: set<string> := {"name", "description", "externalId"}

  /** `GroupProfileSchema`: `description` and `externalId` keep `null` as `null`. */
  function DecodeGroupProfile(v: Value): Result<GroupProfile, DecodeError> {
    if !v.Obj? then NotAnObject(v)
    else
      var m := v.fields;
      var name :- OptionalProperty(m, "name", DecodeString);
      var description :- OptionalProperty(m, "description", NullOrString);
      var externalId :- OptionalProperty(m, "externalId", NullOrString);
      Ok(GroupProfile(name, description, externalId))
  }

  /** `Schema.NullOr(Schema.String)` */
  function NullOrString(v: Value): (r: Result<Nullable<string>, DecodeError>)
    ensures r.Ok? <==> v == Null || v.Str?
    ensures r.Ok? ==> r.value == if v == Null then NullValue else NonNull(v.str)
  {
    DecodeNullOr(v, DecodeString)
  }

  datatype OktaGroup = OktaGroup(
    id: Opt<GroupId>,
    created: Opt<Date>,
    lastMembershipUpdated: Opt<Date>,
    lastUpdated: Opt<Date>,
    groupType: Opt<GroupType>,
    profile: Opt<GroupProfile>,
    objectClass: Opt<seq<string>>,
    links: Opt<map<string, Value>>)

  /** Group properties that are optional but not nullable. */
  const StrictGroupKeys: set<string> :=
    {"id", "created", "lastMembershipUpdated", "lastUpdated", "type", "profile", "objectClass"}

  const GroupKeys: set<string> := StrictGroupKeys + {"_links"}

  /** `OktaGroupSchema` */
  function DecodeGroup(v: Value): Result<OktaGroup, DecodeError> {
    if !v.Obj? then NotAnObject(v)
    else
      var m := v.fields;
      var id :- OptionalProperty(m, "id", DecodeGroupId);
      var created :- OptionalProperty(m, "created", DecodeDate);
      var lastMembershipUpdated :- OptionalProperty(m, "lastMembershipUpdated", DecodeDate);
      var lastUpdated :- OptionalProperty(m, "lastUpdated", DecodeDate);
      var groupType :- OptionalProperty(m, "type", DecodeGroupType);
      var profile :- OptionalProperty(m, "profile", DecodeGroupProfile);
      var objectClass :- OptionalProperty(m, "objectClass", DecodeStringArray);
      var links :- OptionalNullToUndefinedProperty(m, "_links", DecodeUnknownRecord);
      Ok(OktaGroup(id, created, lastMembershipUpdated, lastUpdated, groupType, profile, objectClass, links))
  }
}
