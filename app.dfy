/**
 * The HTTP service (app.py): the role gate that runs before every handler,
 * and the handlers as transactions on one table of user documents.
 *
 * The document store is an in-memory map from id to document. A lookup by
 * filter (the store's find_one) yields SOME matching document, not a chosen
 * one; the specifications below say so with existentials. The digest, the
 * store's id validity test and the moment the model classes were defined are
 * fixed when the service is built; the current time and a freshly generated
 * id are passed with each request.
 */
module App {
  import opened Models

  // ---------------------------------------------------------------------
  // Responses
  // ---------------------------------------------------------------------

  datatype Body =
    | NoBody
    | Detail(message: string)
    | Token(hash_pass: string)
    | Document(id: Id, user: User)       // a stored document, id and credential included
    | View(view: UserView)               // one user through the UserModel projection
    | Views(views: seq<UserView>)
    | Invalid(errors: seq<FieldError>)   // the request body failed validation

  datatype Response = Response(status: int, body: Body)

  const Forbidden := Response(403, Detail("User doesn't have the privelage."))
  const Unauthorized := Response(401, Detail("Incorrect credentials."))
  const NoContent := Response(204, NoBody)
  /** An exception that no handler catches. */
  const InternalServerError := Response(500, Detail("Internal Server Error"))

  function NotFound(id: Id): Response
  {
    Response(404, Detail("user " + id + " not found"))
  }

  /** The `users` collection. */
  type Table = map<Id, User>

  /** The most documents one listing returns. */
  const ListLimit := 1000

  function Min(a: int, b: int): int
  {
    if a <= b then a else b
  }

  // ---------------------------------------------------------------------
  // The role gate (verify_request)
  // ---------------------------------------------------------------------

  datatype Decision = Proceed | Refuse

  /** The access policy: the roles a method needs, or None when it needs no caller at all. */
  function RequiredRoles(verb: string): Option<set<Role>>
  {
    if verb == "PUT" then Some({Admin, Dev})
    else if verb == "DELETE" then Some({Admin})
    else None
  }

  /**
   * The decision, given the role of the user the credential header matched
   * (None when it matched nobody or was absent).
   */
  function Gate(verb: string, caller: Option<Role>): (d: Decision)
    ensures d == Proceed <==>
      RequiredRoles(verb).None? || (caller.Some? && caller.value in RequiredRoles(verb).value)
  {
    if verb == "PUT" then
      if caller.Some? && (caller.value == Admin || caller.value == Dev) then Proceed else Refuse
    else if verb == "DELETE" then
      if caller.Some? && caller.value == Admin then Proceed else Refuse
    else Proceed
  }

  // ---------------------------------------------------------------------
  // Store queries
  // ---------------------------------------------------------------------

  datatype Filter =
    | ByCredential(credential: Option<string>)          // {"hashed_pass": header}
    | ByLogin(first: string, last: string, hash: string) // {"first_name", "last_name", "hashed_pass"}

  /** Whether a document satisfies a filter; an absent header matches no stored credential. */
  predicate Matches(u: User, f: Filter)
  {
    match f
    case ByCredential(c) => c == Some(u.hashed_pass)
    case ByLogin(first, last, hash) =>
      u.first_name == first && u.last_name == last && u.hashed_pass == hash
  }

  predicate AnyMatch(t: Table, f: Filter)
  {
    exists id :: id in t && Matches(t[id], f)
  }

  /** Some user the credential matches holds a role the method needs. */
  ghost predicate Privileged(t: Table, verb: string, credential: Option<string>)
  {
    && RequiredRoles(verb).Some?
    && exists id :: id in t && Matches(t[id], ByCredential(credential))
                    && t[id].role in RequiredRoles(verb).value
  }

  /** The credential matches somebody, and every user it matches holds a role the method needs. */
  ghost predicate SurelyPrivileged(t: Table, verb: string, credential: Option<string>)
  {
    && RequiredRoles(verb).Some?
    && AnyMatch(t, ByCredential(credential))
    && forall id :: id in t && Matches(t[id], ByCredential(credential)) ==>
                      t[id].role in RequiredRoles(verb).value
  }

  // ---------------------------------------------------------------------
  // What each handler does to the table, stated on values
  // ---------------------------------------------------------------------

  /** The new table and the response of one handler. */
  datatype Outcome = Outcome(table: Table, response: Response)

  /** The document after a successful login. */
  function Activated(u: User, now: Time): (r: User)
    ensures r.is_active
    ensures u.is_active ==> r == u
    ensures !u.is_active ==> r.last_login == Some(now)
    ensures r.(is_active := u.is_active, last_login := u.last_login) == u
  {
    if !u.is_active then u.(is_active := true, last_login := Some(now)) else u
  }

  /** The document after a logout. */
  function Deactivated(u: User): (r: User)
    ensures !r.is_active
    ensures r.(is_active := u.is_active) == u
  {
    if u.is_active then u.(is_active := false) else u
  }

  /**
   * Login: the credential in the body is digested once and, with the names,
   * picks some matching user, who is activated; no match is a 401.
   */
  ghost predicate LoginStep(digest: string -> string, t: Table, t': Table,
                            input: LoginModel, now: Time, resp: Response)
  {
    var hashPass := digest(input.hashed_pass);
    var f := ByLogin(input.first_name, input.last_name, hashPass);
    if AnyMatch(t, f) then
      && resp == Response(201, Token(hashPass))
      && exists id :: id in t && Matches(t[id], f) && t' == t[id := Activated(t[id], now)]
    else
      resp == Unauthorized && t' == t
  }

  /**
   * Logout: some user the header matches is deactivated. When it matches
   * nobody the handler reads a field of None and fails.
   */
  ghost predicate LogoutStep(t: Table, t': Table, credential: Option<string>, resp: Response)
  {
    var f := ByCredential(credential);
    if AnyMatch(t, f) then
      && resp == NoContent
      && exists id :: id in t && Matches(t[id], f) && t' == t[id := Deactivated(t[id])]
    else
      resp == InternalServerError && t' == t
  }

  /** `views` shows the distinct documents `ids` of the table, in that order. */
  ghost predicate IsListing(t: Table, ids: seq<Id>, views: seq<UserView>)
  {
    && |ids| == |views|
    && (forall i :: 0 <= i < |ids| ==> ids[i] in t && views[i] == Project(t[ids[i]]))
    && (forall i, j :: 0 <= i < j < |ids| ==> ids[i] != ids[j])
  }

  // ShowResponse, CreateOutcome, UpdateOutcome and DeleteOutcome restate the
  // handlers on values, so that lemmas (which cannot call the methods) can
  // relate one request to the next; each method is proved equal to its function.

  function ShowResponse(t: Table, id: Id): Response
  {
    if id in t then Response(200, View(Project(t[id]))) else NotFound(id)
  }

  /** Insertion under an id already in use raises in the store. */
  function CreateOutcome(t: Table, nu: NewUser): Outcome
  {
    if nu.id in t then Outcome(t, InternalServerError)
    else Outcome(t[nu.id := nu.user], Response(201, Document(nu.id, nu.user)))
  }

  /** The reference meaning of an update: each supplied field replaces the stored one. */
  function Merged(u: User, m: UpdateUserModel): User
  {
    u.(first_name := if m.first_name.Some? then m.first_name.value else u.first_name,
       last_name := if m.last_name.Some? then m.last_name.value else u.last_name,
       role := if m.role.Some? then m.role.value else u.role)
  }

  function UpdateOutcome(t: Table, id: Id, m: UpdateUserModel): Outcome
  {
    if id in t then
      var t' := t[id := Merged(t[id], m)];
      Outcome(t', Response(200, View(Project(t'[id]))))
    else Outcome(t, NotFound(id))
  }

  function DeleteOutcome(t: Table, id: Id): Outcome
  {
    if id in t then Outcome(t - {id}, NoContent) else Outcome(t, NotFound(id))
  }

  // ---------------------------------------------------------------------
  // The update patch: a dict of the supplied fields, applied with $set
  // ---------------------------------------------------------------------

  datatype PatchValue = Text(text: string) | RoleValue(role: Role)

  /** The `$set` document of an update. */
  type Patch = map<string, PatchValue>

  /** The fields of an UpdateUserModel that are not None, by name. */
  function NonNoneFields(m: UpdateUserModel): (p: Patch)
    ensures UpdatePatch(p)
    ensures "first_name" in p <==> m.first_name.Some?
    ensures "last_name" in p <==> m.last_name.Some?
    ensures "role" in p <==> m.role.Some?
    ensures m.first_name.Some? ==> p["first_name"] == Text(m.first_name.value)
    ensures m.last_name.Some? ==> p["last_name"] == Text(m.last_name.value)
    ensures m.role.Some? ==> p["role"] == RoleValue(m.role.value)
  {
    var p0: Patch := map[];
    var p1 := if m.first_name.Some? then p0["first_name" := Text(m.first_name.value)] else p0;
    var p2 := if m.last_name.Some? then p1["last_name" := Text(m.last_name.value)] else p1;
    if m.role.Some? then p2["role" := RoleValue(m.role.value)] else p2
  }

  /** A patch is empty exactly when the update supplies no field. */
  lemma EmptyPatchIffNothingSupplied(m: UpdateUserModel)
    ensures |NonNoneFields(m)| == 0 <==> m == UpdateUserModel(None, None, None)
  {
  }

  /**
   * A patch an UpdateUserModel can produce: only the name and role keys,
   * each holding a value of its field's type.
   */
  predicate UpdatePatch(p: Patch)
  {
    && p.Keys <= {"first_name", "last_name", "role"}
    && ("first_name" in p ==> p["first_name"].Text?)
    && ("last_name" in p ==> p["last_name"].Text?)
    && ("role" in p ==> p["role"].RoleValue?)
  }

  /**
   * The store's `$set`: every key of the patch is written, every field it
   * lacks is kept. Patches only ever carry the name and role keys, so the
   * activity flag, the timestamps and the credential are never written.
   */
  function SetFields(u: User, p: Patch): (r: User)
    requires UpdatePatch(p)
    ensures "first_name" in p ==> r.first_name == p["first_name"].text
    ensures "last_name" in p ==> r.last_name == p["last_name"].text
    ensures "role" in p ==> r.role == p["role"].role
    ensures "first_name" !in p ==> r.first_name == u.first_name
    ensures "last_name" !in p ==> r.last_name == u.last_name
    ensures "role" !in p ==> r.role == u.role
    ensures r.is_active == u.is_active && r.last_login == u.last_login
    ensures r.created_at == u.created_at && r.hashed_pass == u.hashed_pass
  {
    u.(first_name := if "first_name" in p then p["first_name"].text else u.first_name,
       last_name := if "last_name" in p then p["last_name"].text else u.last_name,
       role := if "role" in p then p["role"].role else u.role)
  }

  /** Building the patch and applying it with $set is the reference update. */
  lemma SetNonNoneFieldsIsMerge(u: User, m: UpdateUserModel)
    ensures SetFields(u, NonNoneFields(m)) == Merged(u, m)
  {
  }

  // ---------------------------------------------------------------------
  // Routing
  // ---------------------------------------------------------------------

  /** A request after routing: the credential header and the matched endpoint. */
  datatype Route =
    | LoginRoute(login: LoginBody)               // POST /login
    | LogoutRoute                                // GET /logout
    | ListRoute                                  // GET /
    | ShowRoute(id: Id)                          // GET /{id}
    | CreateRoute(create: CreateUserBody)        // POST /
    | UpdateRoute(id: Id, update: UpdateUserBody) // PUT /{id}
    | DeleteRoute(id: Id)                        // DELETE /{id}

  datatype Request = Request(credential: Option<string>, route: Route)

  function MethodOf(r: Route): string
  {
    match r
    case LoginRoute(_) => "POST"
    case LogoutRoute => "GET"
    case ListRoute => "GET"
    case ShowRoute(_) => "GET"
    case CreateRoute(_) => "POST"
    case UpdateRoute(_, _) => "PUT"
    case DeleteRoute(_) => "DELETE"
  }

  /** A body that fails validation never reaches its handler. */
  function Unprocessable(errors: seq<FieldError>): Response
  {
    Response(422, Invalid(errors))
  }

  /** Every stored credential is the digest of something, never a plaintext as sent. */
  ghost predicate IsDigest(digest: string -> string, h: string)
  {
    exists p :: digest(p) == h
  }

  // ---------------------------------------------------------------------
  // The service
  // ---------------------------------------------------------------------

  class UserService {
    /** The password digest (MD5 in the service). */
    const digest: string -> string
    /** The store's test of whether a string is an object id. */
    const isValidObjectId: string -> bool
    /** When the model classes were defined: the one `created_at` default. */
    const modelDefinedAt: Time
    /** The `users` collection. */
    var users: Table

    ghost predicate Valid()
      reads this
    {
      forall id :: id in users ==> IsDigest(digest, users[id].hashed_pass)
    }

    /** Connects to a collection that may already hold documents, all created by the service. */
    constructor (digest: string -> string, isValidObjectId: string -> bool, modelDefinedAt: Time,
                 stored: Table)
      requires forall id :: id in stored ==> IsDigest(digest, stored[id].hashed_pass)
      ensures Valid()
      ensures this.digest == digest && this.isValidObjectId == isValidObjectId
      ensures this.modelDefinedAt == modelDefinedAt
      ensures users == stored
    {
      this.digest := digest;
      this.isValidObjectId := isValidObjectId;
      this.modelDefinedAt := modelDefinedAt;
      users := stored;
    }

    /** find_one: some document satisfying the filter, if there is one. */
    method FindOne(f: Filter) returns (found: Option<Id>)
      ensures found.Some? ==> found.value in users && Matches(users[found.value], f)
      ensures found.None? <==> !AnyMatch(users, f)
    {
      if AnyMatch(users, f) {
        var id :| id in users && Matches(users[id], f);
        found := Some(id);
      } else {
        found := None;
      }
    }

    /** The middleware: PUT and DELETE look the caller up by credential and check its role. */
    method VerifyRequest(verb: string, credential: Option<string>) returns (d: Decision)
      ensures RequiredRoles(verb).None? ==> d == Proceed
      ensures d == Proceed && RequiredRoles(verb).Some? ==> Privileged(users, verb, credential)
      ensures SurelyPrivileged(users, verb, credential) ==> d == Proceed
    {
      if verb == "PUT" || verb == "DELETE" {
        var found := FindOne(ByCredential(credential));
        var caller := if found.Some? then Some(users[found.value].role) else None;
        d := Gate(verb, caller);
      } else {
        d := Gate(verb, None);
      }
    }

    method Login(input: LoginModel, now: Time) returns (resp: Response)
      requires Valid()
      modifies this
      ensures Valid()
      ensures LoginStep(digest, old(users), users, input, now, resp)
    {
      var hashPass := digest(input.hashed_pass);
      var found := FindOne(ByLogin(input.first_name, input.last_name, hashPass));
      if found.Some? {
        var user := users[found.value];
        if !user.is_active {
          user := user.(is_active := true, last_login := Some(now));
          users := users[found.value := user];
        }
        return Response(201, Token(hashPass));
      }
      resp := Unauthorized;
    }

    method Logout(credential: Option<string>) returns (resp: Response)
      requires Valid()
      modifies this
      ensures Valid()
      ensures LogoutStep(old(users), users, credential, resp)
    {
      var found := FindOne(ByCredential(credential));
      if found.None? {
        return InternalServerError;
      }
      var user := users[found.value];
      if user.is_active {
        user := user.(is_active := false);
        users := users[found.value := user];
      }
      resp := NoContent;
    }

    /** find().to_list(1000): distinct documents, as many as there are up to the limit. */
    method ListUsers() returns (views: seq<UserView>, ghost ids: seq<Id>)
      ensures |views| == Min(|users|, ListLimit)
      ensures IsListing(users, ids, views)
    {
      var remaining := users.Keys;
      views, ids := [], [];
      while |views| < ListLimit && remaining != {}
        invariant remaining <= users.Keys
        invariant |views| <= ListLimit
        invariant |remaining| + |ids| == |users.Keys|
        invariant IsListing(users, ids, views)
        invariant forall i :: 0 <= i < |ids| ==> ids[i] !in remaining
        decreases remaining
      {
        var id :| id in remaining;
        views := views + [Project(users[id])];
        ids := ids + [id];
        remaining := remaining - {id};
      }
      assert |users.Keys| == |users|;
    }

    method ShowUser(id: Id) returns (resp: Response)
      ensures resp == ShowResponse(users, id)
    {
      if id in users {
        return Response(200, View(Project(users[id])));
      }
      resp := NotFound(id);
    }

    method CreateUser(nu: NewUser) returns (resp: Response)
      requires Valid() && IsDigest(digest, nu.user.hashed_pass)
      modifies this
      ensures Valid()
      ensures Outcome(users, resp) == CreateOutcome(old(users), nu)
    {
      if nu.id in users {
        return InternalServerError;
      }
      users := users[nu.id := nu.user];
      var created := users[nu.id];
      resp := Response(201, Document(nu.id, created));
    }

    /**
     * Sets the supplied fields; when that modified the document it is read
     * back, otherwise the stored document is read as it is.
     */
    method UpdateUser(id: Id, m: UpdateUserModel) returns (resp: Response)
      requires Valid()
      modifies this
      ensures Valid()
      ensures Outcome(users, resp) == UpdateOutcome(old(users), id, m)
    {
      var patch := NonNoneFields(m);
      if |patch| >= 1 {
        var modified := false;
        if id in users {
          var updated := SetFields(users[id], patch);
          modified := updated != users[id];
          users := users[id := updated];
        }
        if modified {
          return Response(200, View(Project(users[id])));
        }
      }
      if id in users {
        return Response(200, View(Project(users[id])));
      }
      resp := NotFound(id);
    }

    method DeleteUser(id: Id) returns (resp: Response)
      requires Valid()
      modifies this
      ensures Valid()
      ensures Outcome(users, resp) == DeleteOutcome(old(users), id)
    {
      var deleted := id in users;
      users := users - {id};
      if deleted {
        return NoContent;
      }
      resp := NotFound(id);
    }

    /**
     * One request: the role gate first, then body validation, then the
     * handler. `generatedId` is the fresh ObjectId a create would receive.
     */
    method Handle(req: Request, now: Time, generatedId: Id) returns (resp: Response)
      requires Valid()
      requires generatedId !in users
      modifies this
      ensures Valid()
      ensures resp == Forbidden ==> users == old(users)
      ensures RequiredRoles(MethodOf(req.route)).None? ==> resp != Forbidden
      ensures RequiredRoles(MethodOf(req.route)).Some? &&
              !Privileged(old(users), MethodOf(req.route), req.credential) ==>
                resp == Forbidden
      ensures SurelyPrivileged(old(users), MethodOf(req.route), req.credential) ==>
                resp != Forbidden
      ensures resp != Forbidden ==>
        match req.route
        case LoginRoute(body) =>
          var v := ValidateLogin(body);
          if v.Failure? then resp == Unprocessable(v.error) && users == old(users)
          else LoginStep(digest, old(users), users, v.value, now, resp)
        case LogoutRoute => LogoutStep(old(users), users, req.credential, resp)
        case ListRoute =>
          users == old(users) && resp.status == 200 && resp.body.Views? &&
          |resp.body.views| == Min(|users|, ListLimit) &&
          exists ids :: IsListing(users, ids, resp.body.views)
        case ShowRoute(id) => users == old(users) && resp == ShowResponse(users, id)
        case CreateRoute(body) =>
          var v := ValidateCreateUser(body, digest, isValidObjectId, generatedId, modelDefinedAt);
          if v.Failure? then resp == Unprocessable(v.error) && users == old(users)
          else Outcome(users, resp) == CreateOutcome(old(users), v.value)
        case UpdateRoute(id, body) =>
          var v := ValidateUpdate(body);
          if v.Failure? then resp == Unprocessable(v.error) && users == old(users)
          else Outcome(users, resp) == UpdateOutcome(old(users), id, v.value)
        case DeleteRoute(id) => Outcome(users, resp) == DeleteOutcome(old(users), id)
    {
      var d := VerifyRequest(MethodOf(req.route), req.credential);
      if d == Refuse {
        return Forbidden;
      }
      match req.route
      case LoginRoute(body) =>
        var v := ValidateLogin(body);
        if v.Failure? {
          return Unprocessable(v.error);
        }
        resp := Login(v.value, now);
      case LogoutRoute =>
        resp := Logout(req.credential);
      case ListRoute =>
        var views, ids := ListUsers();
        resp := Response(200, Views(views));
      case ShowRoute(id) =>
        resp := ShowUser(id);
      case CreateRoute(body) =>
        var v := ValidateCreateUser(body, digest, isValidObjectId, generatedId, modelDefinedAt);
        if v.Failure? {
          return Unprocessable(v.error);
        }
        resp := CreateUser(v.value);
      case UpdateRoute(id, body) =>
        var v := ValidateUpdate(body);
        if v.Failure? {
          return Unprocessable(v.error);
        }
        resp := UpdateUser(id, v.value);
      case DeleteRoute(id) =>
        resp := DeleteUser(id);
    }
  }
}
