/**
 * The record shapes of the user service and the validation that turns a
 * request body into one of them (models.py).
 *
 * A request body is modelled field by field as `Option`s: `None` is a field
 * that is absent or JSON `null`. Validation either yields the typed model or
 * the list of per-field errors, in the order the fields are declared.
 */
module Models {

  datatype Option<T> = None | Some(value: T)

  datatype Result<T, E> = Success(value: T) | Failure(error: E)

  /** A `datetime`, abstracted to a point on a line. */
  type Time = int

  /** The string form of a document's `_id`. */
  type Id = string

  // ---------------------------------------------------------------------
  // RoleEnum
  // ---------------------------------------------------------------------

  /** The closed set of roles: no other value is representable. */
  datatype Role = Admin | Dev | SimpleMortal

  /** The enum's value, which is also how a role is written in JSON and in the store. */
  function RoleName(r: Role): string
  {
    match r
    case Admin => "admin"
    case Dev => "dev"
    case SimpleMortal => "simple_mortal"
  }

  /** Enum validation: a string is a role exactly when it is one of the three values. */
  function ParseRole(s: string): (r: Option<Role>)
    ensures r.Some? <==> s == "admin" || s == "dev" || s == "simple_mortal"
    ensures r.Some? ==> RoleName(r.value) == s
  {
    if s == "admin" then Some(Admin)
    else if s == "dev" then Some(Dev)
    else if s == "simple_mortal" then Some(SimpleMortal)
    else None
  }

  lemma RoleNameRoundTrip(r: Role)
    ensures ParseRole(RoleName(r)) == Some(r)
  {
  }

  // ---------------------------------------------------------------------
  // Validation errors
  // ---------------------------------------------------------------------

  datatype ErrorKind =
    | Missing                   // a required field is absent
    | InvalidEnum(given: string) // a role outside the enumeration
    | InvalidObjectId           // PyObjectId.validate refused the value

  datatype FieldError = FieldError(field: string, kind: ErrorKind)

  const InvalidObjectIdMessage := "Invalid objectid"

  /**
   * PyObjectId.validate: the id is accepted exactly when the store's
   * validity test accepts it, and is then returned as given.
   */
  function ValidateObjectId(v: string, isValid: string -> bool): (r: Result<Id, string>)
    ensures r.Success? <==> isValid(v)
    ensures r.Success? ==> r.value == v
    ensures r.Failure? ==> r.error == InvalidObjectIdMessage
  {
    if !isValid(v) then Failure(InvalidObjectIdMessage) else Success(v)
  }

  function RequiredError<T>(field: string, v: Option<T>): seq<FieldError>
  {
    if v.None? then [FieldError(field, Missing)] else []
  }

  function RoleError(field: string, v: Option<string>, required: bool): seq<FieldError>
  {
    match v
    case None => if required then [FieldError(field, Missing)] else []
    case Some(s) => if ParseRole(s).None? then [FieldError(field, InvalidEnum(s))] else []
  }

  // ---------------------------------------------------------------------
  // The stored record and CreateUserModel
  // ---------------------------------------------------------------------

  /** A user document as the store holds it, without its `_id`. */
  datatype User = User(
    first_name: string,
    last_name: string,
    role: Role,
    is_active: bool,
    last_login: Option<Time>,
    created_at: Time,
    hashed_pass: string)

  /** A validated CreateUserModel: the id it will be stored under and the document. */
  datatype NewUser = NewUser(id: Id, user: User)

  /** The body of a create request, before validation. */
  datatype CreateUserBody = CreateUserBody(
    id: Option<string>,
    first_name: Option<string>,
    last_name: Option<string>,
    role: Option<string>,
    is_active: Option<bool>,
    last_login: Option<Time>,
    created_at: Option<Time>,
    hashed_pass: Option<string>)

  function CreateUserErrors(body: CreateUserBody, isValidId: string -> bool): seq<FieldError>
  {
    (if body.id.Some? && ValidateObjectId(body.id.value, isValidId).Failure?
     then [FieldError("_id", InvalidObjectId)] else [])
    + RequiredError("first_name", body.first_name)
    + RequiredError("last_name", body.last_name)
    + RoleError("role", body.role, true)
    + RequiredError("hashed_pass", body.hashed_pass)
  }

  /** Which errors the create body produces, field by field. */
  lemma CreateUserErrorsSpec(body: CreateUserBody, isValidId: string -> bool)
    ensures var errors := CreateUserErrors(body, isValidId);
      && (errors == [] <==>
            && body.first_name.Some? && body.last_name.Some? && body.hashed_pass.Some?
            && body.role.Some? && ParseRole(body.role.value).Some?
            && (body.id.Some? ==> isValidId(body.id.value)))
      && (FieldError("first_name", Missing) in errors <==> body.first_name.None?)
      && (FieldError("last_name", Missing) in errors <==> body.last_name.None?)
      && (FieldError("hashed_pass", Missing) in errors <==> body.hashed_pass.None?)
      && (FieldError("role", Missing) in errors <==> body.role.None?)
      && (FieldError("_id", InvalidObjectId) in errors <==>
            body.id.Some? && !isValidId(body.id.value))
      && (body.role.Some? && ParseRole(body.role.value).None? ==>
            FieldError("role", InvalidEnum(body.role.value)) in errors)
      && (forall e :: e in errors ==>
            e.field in {"_id", "first_name", "last_name", "role", "hashed_pass"})
  {
    var idPart := if body.id.Some? && ValidateObjectId(body.id.value, isValidId).Failure?
                  then [FieldError("_id", InvalidObjectId)] else [];
    var first := RequiredError("first_name", body.first_name);
    var last := RequiredError("last_name", body.last_name);
    var role := RoleError("role", body.role, true);
    var pass := RequiredError("hashed_pass", body.hashed_pass);
    var errors := CreateUserErrors(body, isValidId);
    assert errors == idPart + first + last + role + pass;
    forall e | e in errors
      ensures e.field in {"_id", "first_name", "last_name", "role", "hashed_pass"}
    {
      assert e in idPart || e in first || e in last || e in role || e in pass;
    }
  }

  /**
   * Builds a CreateUserModel. `digest` is the password digest, `isValidId`
   * the store's id validity test, `generatedId` the id a fresh ObjectId would
   * get, and `definedAt` the moment the model class was defined: the
   * `created_at` default is that one value, shared by every instance.
   */
  function ValidateCreateUser(body: CreateUserBody, digest: string -> string,
                              isValidId: string -> bool, generatedId: Id,
                              definedAt: Time): (r: Result<NewUser, seq<FieldError>>)
    ensures r.Success? <==>
      && body.first_name.Some? && body.last_name.Some? && body.hashed_pass.Some?
      && body.role.Some? && ParseRole(body.role.value).Some?
      && (body.id.Some? ==> isValidId(body.id.value))
    ensures r.Failure? ==> |r.error| > 0
    ensures r.Failure? ==>
      && (FieldError("first_name", Missing) in r.error <==> body.first_name.None?)
      && (FieldError("last_name", Missing) in r.error <==> body.last_name.None?)
      && (FieldError("hashed_pass", Missing) in r.error <==> body.hashed_pass.None?)
      && (FieldError("role", Missing) in r.error <==> body.role.None?)
      && (FieldError("_id", InvalidObjectId) in r.error <==>
            body.id.Some? && !isValidId(body.id.value))
      && (body.role.Some? && ParseRole(body.role.value).None? ==>
            FieldError("role", InvalidEnum(body.role.value)) in r.error)
    // only the validated fields are ever reported
    ensures r.Failure? ==>
      forall e :: e in r.error ==> e.field in {"_id", "first_name", "last_name", "role", "hashed_pass"}
    ensures r.Success? ==>
      var u := r.value.user;
      // the password is digested exactly once, at construction
      && u.hashed_pass == digest(body.hashed_pass.value)
      && u.first_name == body.first_name.value
      && u.last_name == body.last_name.value
      && RoleName(u.role) == body.role.value
      // defaults: inactive, never logged in, created when the class was defined
      && u.is_active == (body.is_active == Some(true))
      && u.last_login == body.last_login
      && u.created_at == (if body.created_at.Some? then body.created_at.value else definedAt)
      && r.value.id == (if body.id.Some? then body.id.value else generatedId)
  {
    CreateUserErrorsSpec(body, isValidId);
    var errors := CreateUserErrors(body, isValidId);
    if errors != [] then Failure(errors)
    else
      var user := User(
        body.first_name.value,
        body.last_name.value,
        ParseRole(body.role.value).value,
        if body.is_active.Some? then body.is_active.value else false,
        body.last_login,
        if body.created_at.Some? then body.created_at.value else definedAt,
        digest(body.hashed_pass.value));
      Success(NewUser(if body.id.Some? then body.id.value else generatedId, user))
  }

  /**
   * The `created_at` default is evaluated once, when the class is defined:
   * any two creations that leave it out get the same value.
   */
  lemma DefaultCreatedAtShared(b1: CreateUserBody, b2: CreateUserBody, digest: string -> string,
      isValidId: string -> bool, id1: Id, id2: Id, definedAt: Time)
    requires b1.created_at.None? && b2.created_at.None?
    requires ValidateCreateUser(b1, digest, isValidId, id1, definedAt).Success?
    requires ValidateCreateUser(b2, digest, isValidId, id2, definedAt).Success?
    ensures ValidateCreateUser(b1, digest, isValidId, id1, definedAt).value.user.created_at
         == ValidateCreateUser(b2, digest, isValidId, id2, definedAt).value.user.created_at
         == definedAt
  {
  }

  // ---------------------------------------------------------------------
  // UpdateUserModel
  // ---------------------------------------------------------------------

  /** The body of an update request, before validation. */
  datatype UpdateUserBody = UpdateUserBody(
    first_name: Option<string>,
    last_name: Option<string>,
    role: Option<string>)

  /**
   * A validated UpdateUserModel: only names and role, each of them optional;
   * the activity fields, timestamps and credential cannot be expressed.
   */
  datatype UpdateUserModel = UpdateUserModel(
    first_name: Option<string>,
    last_name: Option<string>,
    role: Option<Role>)

  function ValidateUpdate(body: UpdateUserBody): (r: Result<UpdateUserModel, seq<FieldError>>)
    ensures r.Success? <==> (body.role.Some? ==> ParseRole(body.role.value).Some?)
    ensures r.Failure? ==> r.error == [FieldError("role", InvalidEnum(body.role.value))]
    ensures r.Success? ==>
      && r.value.first_name == body.first_name
      && r.value.last_name == body.last_name
      && (r.value.role.Some? <==> body.role.Some?)
      && (r.value.role.Some? ==> RoleName(r.value.role.value) == body.role.value)
  {
    var errors := RoleError("role", body.role, false);
    if errors != [] then Failure(errors)
    else
      Success(UpdateUserModel(
        body.first_name,
        body.last_name,
        if body.role.Some? then ParseRole(body.role.value) else None))
  }

  // ---------------------------------------------------------------------
  // LoginModel
  // ---------------------------------------------------------------------

  datatype LoginBody = LoginBody(
    first_name: Option<string>,
    last_name: Option<string>,
    hashed_pass: Option<string>)

  /** A validated LoginModel. Its `hashed_pass` is taken as sent: nothing digests it here. */
  datatype LoginModel = LoginModel(first_name: string, last_name: string, hashed_pass: string)

  function ValidateLogin(body: LoginBody): (r: Result<LoginModel, seq<FieldError>>)
    ensures r.Success? <==>
      body.first_name.Some? && body.last_name.Some? && body.hashed_pass.Some?
    ensures r.Success? ==>
      r.value == LoginModel(body.first_name.value, body.last_name.value, body.hashed_pass.value)
    ensures r.Failure? ==>
      && (FieldError("first_name", Missing) in r.error <==> body.first_name.None?)
      && (FieldError("last_name", Missing) in r.error <==> body.last_name.None?)
      && (FieldError("hashed_pass", Missing) in r.error <==> body.hashed_pass.None?)
  {
    var errors := RequiredError("first_name", body.first_name)
      + RequiredError("last_name", body.last_name)
      + RequiredError("hashed_pass", body.hashed_pass);
    if errors != [] then Failure(errors)
    else Success(LoginModel(body.first_name.value, body.last_name.value, body.hashed_pass.value))
  }

  // ---------------------------------------------------------------------
  // UserModel: the output projection
  // ---------------------------------------------------------------------

  /** What a response shows of a user: neither the credential nor the id. */
  datatype UserView = UserView(
    first_name: string,
    last_name: string,
    role: Role,
    is_active: bool,
    last_login: Option<Time>,
    created_at: Time)

  /**
   * UserModel as the responses evidently intend it: `last_login` may be
   * unset, as it is on every user who has not logged in yet.
   */
  function Project(u: User): (r: UserView)
    ensures u.last_login.Some? ==> ProjectAsWritten(u) == Some(r)
  {
    UserView(u.first_name, u.last_name, u.role, u.is_active, u.last_login, u.created_at)
  }

  /** The projection keeps every shown field and depends on nothing else. */
  lemma ProjectShowsExactlyTheseFields(u: User, w: User)
    ensures Project(u) == Project(w) <==>
      && u.first_name == w.first_name && u.last_name == w.last_name
      && u.role == w.role && u.is_active == w.is_active
      && u.last_login == w.last_login && u.created_at == w.created_at
  {
  }

  /** Two documents that differ only in their credential look the same in a response. */
  lemma ProjectHidesCredential(u: User, secret: string)
    ensures Project(u.(hashed_pass := secret)) == Project(u)
  {
  }

  /**
   * UserModel as written: `last_login` is a required `datetime`, so the
   * response validation refuses a document whose `last_login` is unset.
   */
  function ProjectAsWritten(u: User): (r: Option<UserView>)
    ensures r.Some? <==> u.last_login.Some?
  {
    if u.last_login.None? then None
    else Some(UserView(u.first_name, u.last_name, u.role, u.is_active, u.last_login, u.created_at))
  }

  /**
   * The discrepancy: every user created with the default `last_login` (for
   * instance the body first_name "John", last_name "Snow", role
   * "simple_mortal", hashed_pass "pw123") cannot be shown until it logs in.
   */
  lemma NewUserNotShowableAsWritten(body: CreateUserBody,
      digest: string -> string, isValidId: string -> bool, generatedId: Id, definedAt: Time)
    requires body.last_login.None?
    requires ValidateCreateUser(body, digest, isValidId, generatedId, definedAt).Success?
    ensures ProjectAsWritten(ValidateCreateUser(body, digest, isValidId, generatedId, definedAt).value.user).None?
  {
  }
}
