/**
  The admin user list: search and role filters, the local list update after
  a delete, and the rule that admins are never offered for deletion. The
  `DELETE /api/admin/users/[id]` route the page calls is modelled alongside,
  since it enforces the same rule on the server.
 */
module AdminUsers {
  import opened Common
  import opened Domain
  import opened Seqs
  import opened Text

  datatype UserFilter = UserFilter(term: string, role: Choice<Role>)

  /** The search term occurs, ignoring case, in the first name, last name or email. */
  predicate MatchesSearch(term: string, u: User)
  {
    || ContainsIgnoringCase(u.firstName, term)
    || ContainsIgnoringCase(u.lastName, term)
    || ContainsIgnoringCase(u.email, term)
  }

  predicate Matches(f: UserFilter, u: User)
  {
    MatchesSearch(f.term, u) && Admits(f.role, u.role)
  }

  /** `filteredUsers`. */
  function FilterUsers(users: seq<User>, f: UserFilter): (r: seq<User>)
    ensures IsSubsequence(r, users)
    ensures forall i :: 0 <= i < |r| ==> Matches(f, r[i])
    ensures forall i :: 0 <= i < |users| && Matches(f, users[i]) ==> users[i] in r
    ensures forall x :: multiset(r)[x] == if Matches(f, x) then multiset(users)[x] else 0
  {
    FilterIsSubsequence(users, (u: User) => Matches(f, u));
    FilterMultiplicity(users, (u: User) => Matches(f, u));
    Filter(users, (u: User) => Matches(f, u))
  }

  /** With no search term and the role select on `'ALL'`, every user is listed. */
  lemma DefaultFilterShowsAll(users: seq<User>)
    ensures FilterUsers(users, UserFilter("", All)) == users
  {
    forall u | u in users
      ensures Matches(UserFilter("", All), u)
    {
      EmptyTermMatches(u.firstName);
    }
    FilterAll(users, (u: User) => Matches(UserFilter("", All), u));
  }

  /** A role picked in the select shows only users with exactly that role. */
  lemma RoleFilterIsExact(users: seq<User>, f: UserFilter, role: Role)
    requires f.role == Only(role)
    ensures forall u :: u in FilterUsers(users, f) ==> u.role == role
  {
  }

  /** The delete button is shown for every user but admins. */
  predicate DeleteOffered(u: User)
  {
    u.role != Admin
  }

  // ---------------------------------------------------------------------------
  // Deleting

  const Unauthorized: int := 401
  const Forbidden: int := 403

  /**
    `DELETE /api/admin/users/[id]`: only an admin session may delete; an
    unknown id is 404, an admin target is 403; otherwise the user is removed.
   */
  function DeleteRoute(users: seq<User>, sessionRole: Option<Role>, id: string): (res: (Response<string>, seq<User>))
    ensures sessionRole != Some(Admin) ==> res == (Fail(Unauthorized, "Unauthorized"), users)
    ensures sessionRole == Some(Admin) && (forall i :: 0 <= i < |users| ==> users[i].id != id) ==>
      res == (Fail(NotFound, "User not found"), users)
    ensures res.0.Fail? ==> res.1 == users
    ensures res.0.Ok? ==>
      sessionRole == Some(Admin) && exists i :: 0 <= i < |users| && users[i].id == id && users[i].role != Admin
    ensures sessionRole == Some(Admin) && (exists i :: 0 <= i < |users| && users[i].id == id) ==>
      ((forall i :: 0 <= i < |users| && users[i].id == id ==> users[i].role != Admin) ==> res.0.Ok?) &&
      ((forall i :: 0 <= i < |users| && users[i].id == id ==> users[i].role == Admin) ==>
         res == (Fail(Forbidden, "Cannot delete admin users"), users))
    ensures res.0.Ok? ==> forall i :: 0 <= i < |res.1| ==> res.1[i].id != id
    ensures res.0.Ok? ==> res.1 == DeleteUser(users, id, true)
  {
    if sessionRole != Some(Admin) then (Fail(Unauthorized, "Unauthorized"), users)
    else
      assert forall i :: 0 <= i < |users| ==> users[i] in users;
      match Find(users, (u: User) => u.id == id)
      case None => (Fail(NotFound, "User not found"), users)
      case Some(u) =>
        if u.role == Admin then (Fail(Forbidden, "Cannot delete admin users"), users)
        else (Ok("User deleted successfully"), DeleteUser(users, id, true))
  }

  /** `handleDeleteUser`: the users with that id are dropped when the request succeeds (`ok`). */
  function DeleteUser(users: seq<User>, id: string, ok: bool): (r: seq<User>)
    ensures !ok ==> r == users
    ensures IsSubsequence(r, users)
    ensures ok ==> forall i :: 0 <= i < |r| ==> r[i].id != id
    ensures forall i :: 0 <= i < |users| && users[i].id != id ==> users[i] in r
    ensures ok ==> forall u :: multiset(r)[u] == if u.id != id then multiset(users)[u] else 0
  {
    if !ok then
      FilterAll(users, (u: User) => true);
      FilterIsSubsequence(users, (u: User) => true);
      users
    else
      FilterIsSubsequence(users, (u: User) => u.id != id);
      FilterMultiplicity(users, (u: User) => u.id != id);
      Filter(users, (u: User) => u.id != id)
  }

  predicate UniqueIds(users: seq<User>)
  {
    forall i, j :: 0 <= i < |users| && 0 <= j < |users| && users[i].id == users[j].id ==> i == j
  }

  /**
    Whatever the page asks, with distinct ids no admin disappears from the
    list: the route refuses admin targets, and the page drops only on success.
   */
  lemma AdminsSurviveDelete(users: seq<User>, sessionRole: Option<Role>, id: string)
    requires UniqueIds(users)
    ensures forall u :: u in users && u.role == Admin ==>
      u in DeleteUser(users, id, DeleteRoute(users, sessionRole, id).0.Ok?)
    ensures forall u :: u in users && u.role == Admin ==> u in DeleteRoute(users, sessionRole, id).1
  {
    var ok := DeleteRoute(users, sessionRole, id).0.Ok?;
    forall u | u in users && u.role == Admin
      ensures u in DeleteUser(users, id, ok)
    {
      if ok {
        var k :| 0 <= k < |users| && users[k].id == id && users[k].role != Admin;
        var m :| 0 <= m < |users| && users[m] == u;
        assert m != k;
      }
    }
  }

  /** Both guards agree: the page offers delete exactly for users the route would delete for an admin. */
  lemma OfferedExactlyWhenRouteDeletes(users: seq<User>, i: int)
    requires UniqueIds(users) && 0 <= i < |users|
    ensures DeleteOffered(users[i]) <==> DeleteRoute(users, Some(Admin), users[i].id).0.Ok?
  {
  }
}
