/**
 * Properties of the user service that relate several operations, or one
 * operation to what a later request observes.
 */
module Properties {
  import opened Models
  import opened App

  /** At most one document satisfies the filter. */
  ghost predicate AtMostOneMatch(t: Table, f: Filter)
  {
    forall a, b :: a in t && b in t && Matches(t[a], f) && Matches(t[b], f) ==> a == b
  }

  // ---------------------------------------------------------------------
  // Create, show, delete
  // ---------------------------------------------------------------------

  /** A create under a fresh id stores the document, leaves the others, and shows it back. */
  lemma CreateThenShow(t: Table, nu: NewUser)
    requires nu.id !in t
    ensures var o := CreateOutcome(t, nu);
      && o.response == Response(201, Document(nu.id, nu.user))
      && o.table.Keys == t.Keys + {nu.id}
      && (forall k :: k in t ==> o.table[k] == t[k])
      && ShowResponse(o.table, nu.id) == Response(200, View(Project(nu.user)))
  {
  }

  /** A delete of a known id removes that document alone; the id then shows as not found. */
  lemma DeleteThenShow(t: Table, id: Id)
    ensures var o := DeleteOutcome(t, id);
      && (id in t ==> o.response == NoContent)
      && (id !in t ==> o == Outcome(t, NotFound(id)))
      && o.table.Keys == t.Keys - {id}
      && (forall k :: k in o.table ==> o.table[k] == t[k])
      && ShowResponse(o.table, id) == NotFound(id)
  {
  }

  // ---------------------------------------------------------------------
  // Update
  // ---------------------------------------------------------------------

  /**
   * An update of a known id stores each supplied field as given and keeps
   * every other field of that document, the credential, the activity flag
   * and both timestamps included; no other document changes.
   */
  lemma UpdateChangesOnlySuppliedFields(t: Table, id: Id, m: UpdateUserModel)
    ensures var o := UpdateOutcome(t, id, m);
      && (id !in t ==> o == Outcome(t, NotFound(id)))
      && (id in t ==>
            var u, w := t[id], o.table[id];
            && o.table.Keys == t.Keys
            && (forall k :: k in t && k != id ==> o.table[k] == t[k])
            && w.first_name == (if m.first_name.Some? then m.first_name.value else u.first_name)
            && w.last_name == (if m.last_name.Some? then m.last_name.value else u.last_name)
            && w.role == (if m.role.Some? then m.role.value else u.role)
            && w.is_active == u.is_active && w.last_login == u.last_login
            && w.created_at == u.created_at && w.hashed_pass == u.hashed_pass
            && o.response == Response(200, View(Project(w))))
  {
  }

  /** An update that supplies nothing is a read: same table, same answer as a show. */
  lemma EmptyUpdateIsRead(t: Table, id: Id)
    ensures UpdateOutcome(t, id, UpdateUserModel(None, None, None)) == Outcome(t, ShowResponse(t, id))
  {
  }

  // ---------------------------------------------------------------------
  // Login and logout
  // ---------------------------------------------------------------------

  /**
   * A user created with the plaintext `pw` logs in with the same names and
   * the same plaintext: both sides digest it exactly once, so they meet.
   */
  lemma {:induction false} CreatedUserCanLogIn(digest: string -> string, isValidId: string -> bool,
      generatedId: Id, definedAt: Time, body: CreateUserBody, t0: Table, t2: Table,
      now: Time, resp: Response)
    requires ValidateCreateUser(body, digest, isValidId, generatedId, definedAt).Success?
    requires ValidateCreateUser(body, digest, isValidId, generatedId, definedAt).value.id !in t0
    requires LoginStep(digest,
                       CreateOutcome(t0, ValidateCreateUser(body, digest, isValidId, generatedId, definedAt).value).table,
                       t2,
                       LoginModel(body.first_name.value, body.last_name.value, body.hashed_pass.value),
                       now, resp)
    ensures resp == Response(201, Token(digest(body.hashed_pass.value)))
  {
    var nu := ValidateCreateUser(body, digest, isValidId, generatedId, definedAt).value;
    var t1 := CreateOutcome(t0, nu).table;
    var f := ByLogin(body.first_name.value, body.last_name.value, digest(body.hashed_pass.value));
    assert nu.id in t1 && Matches(t1[nu.id], f);
  }

  /**
   * When the names and credential identify one user, a second login leaves
   * the table as the first left it and answers the same.
   */
  lemma {:induction false} LoginTwice(digest: string -> string, t0: Table, t1: Table, t2: Table,
      input: LoginModel, now1: Time, now2: Time, r1: Response, r2: Response)
    requires AtMostOneMatch(t0, ByLogin(input.first_name, input.last_name, digest(input.hashed_pass)))
    requires LoginStep(digest, t0, t1, input, now1, r1)
    requires LoginStep(digest, t1, t2, input, now2, r2)
    ensures t2 == t1 && r2 == r1
  {
    var f := ByLogin(input.first_name, input.last_name, digest(input.hashed_pass));
    if AnyMatch(t0, f) {
      var id :| id in t0 && Matches(t0[id], f) && t1 == t0[id := Activated(t0[id], now1)];
      assert t1[id].is_active && Matches(t1[id], f);
      var id2 :| id2 in t1 && Matches(t1[id2], f) && t2 == t1[id2 := Activated(t1[id2], now2)];
      assert id2 == id;
      assert t1[id := t1[id]] == t1;
    } else {
      assert !AnyMatch(t1, f);
    }
  }

  /**
   * Logging out twice with a credential that identifies one user changes
   * nothing the second time and answers 204 both times.
   */
  lemma {:induction false} LogoutTwice(t0: Table, t1: Table, t2: Table, credential: Option<string>,
      r1: Response, r2: Response)
    requires AtMostOneMatch(t0, ByCredential(credential))
    requires AnyMatch(t0, ByCredential(credential))
    requires LogoutStep(t0, t1, credential, r1)
    requires LogoutStep(t1, t2, credential, r2)
    ensures t2 == t1 && r1 == NoContent && r2 == NoContent
  {
    var f := ByCredential(credential);
    var id :| id in t0 && Matches(t0[id], f) && t1 == t0[id := Deactivated(t0[id])];
    assert !t1[id].is_active && Matches(t1[id], f);
    var id2 :| id2 in t1 && Matches(t1[id2], f) && t2 == t1[id2 := Deactivated(t1[id2])];
    assert id2 == id;
    assert t1[id := t1[id]] == t1;
  }

  // ---------------------------------------------------------------------
  // Listing
  // ---------------------------------------------------------------------

  lemma {:induction false} DistinctIdsCount(ids: seq<Id>)
    requires forall i, j :: 0 <= i < j < |ids| ==> ids[i] != ids[j]
    ensures |set i | 0 <= i < |ids| :: ids[i]| == |ids|
  {
    if ids != [] {
      var prefix := ids[..|ids| - 1];
      DistinctIdsCount(prefix);
      var last := ids[|ids| - 1];
      assert (set i | 0 <= i < |ids| :: ids[i]) == (set i | 0 <= i < |prefix| :: prefix[i]) + {last};
      assert last !in (set i | 0 <= i < |prefix| :: prefix[i]);
    }
  }

  /**
   * A listing never shows more documents than the table holds. This follows
   * from IsListing alone, whatever produced it; ListUsers states its exact
   * length directly, so this lemma serves as a check that IsListing excludes
   * repeated documents.
   */
  lemma {:induction false} ListingFitsTable(t: Table, ids: seq<Id>, views: seq<UserView>)
    requires IsListing(t, ids, views)
    ensures |views| <= |t|
  {
    DistinctIdsCount(ids);
    var shown := set i | 0 <= i < |ids| :: ids[i];
    var rest := t.Keys - shown;
    assert t.Keys == shown + rest && shown * rest == {};
    assert |t.Keys| == |t|;
  }
}
