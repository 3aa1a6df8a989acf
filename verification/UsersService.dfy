/** Account deletion and the administrators' service, call by call over the account service. */
module UsersService {
  import opened Text
  import opened AuthTables
  import opened AuthSpec
  import opened AuthService

  lemma EditFailsIff(db: Db, u: Id, username: Option<string>, dob: Option<Option<Time>>, updated: bool)
    requires u in db.users && UsernamesUnique(db.users)
    requires !updated <==>
      exists v :: v in db.users && v != u && db.users[v].username == Edited(db.users[u], username, dob).username
    ensures !updated <==> username.Some? && NameRowOfOther(db, u, Lower(username.value))
  {
  }

  class Users {
    const auth: Service

    constructor (auth: Service)
      ensures this.auth == auth
    {
      this.auth := auth;
    }

    /** The user's own name and date of birth; a date given that is no date is `Some(None)`. */
    method UpdateOwnProfile(
      now: Time, u: Id, username: Option<string>, dob: Option<Option<Time>>) returns (outcome: Outcome)
      requires u in auth.repo.users && UsernamesUnique(auth.repo.users)
      modifies auth.repo
      ensures Result(auth.Snapshot(), outcome) == AuthSpec.UpdateOwnProfile(old(auth.Snapshot()), now, u, username, dob)
    {
      if auth.repo.users[u].deleted { return Refused(NotFound); }
      if Given(username) {
        var taken := auth.repo.IsUsernameTaken(username.value, u);
        if taken { return Refused(DuplicateUsername); }
      }
      if dob.Some? && !Qualifies(dob.value, now) { return Refused(Underage); }
      var updated := auth.repo.UpdateProfile(u, Edited(auth.repo.users[u], username, dob));
      EditFailsIff(old(auth.Snapshot()), u, username, dob, updated);
      outcome := if updated then Done else Refused(UniqueViolation);
    }

    method AnonymiseAccount(u: Id, p: Pseudonym) returns (outcome: Outcome)
      requires u in auth.repo.users
      modifies auth.repo
      ensures Result(auth.Snapshot(), outcome) == AuthSpec.AnonymiseAccount(old(auth.Snapshot()), u, p)
    {
      var renamed := auth.repo.Anonymise(u, Anonymous(auth.repo.users[u], p));
      if !renamed { return Refused(UniqueViolation); }
      auth.repo.ClearStoredPasswords(u);
      auth.ForceLogout(u);
      outcome := Done;
    }

    method SelfDelete(now: Time, u: Id, s: Id, password: Option<string>, p: Pseudonym) returns (outcome: Outcome)
      requires u in auth.repo.users && Keyed(auth.Snapshot())
      modifies auth.repo
      ensures Result(auth.Snapshot(), outcome) == AuthSpec.SelfDelete(old(auth.Snapshot()), now, u, s, password, p)
    {
      outcome := auth.AssertRecentlyAuthenticated(now, u, s, password);
      if outcome == Done { outcome := AnonymiseAccount(u, p); }
    }
  }

  class AdminUsers {
    const users: Users

    constructor (users: Users)
      ensures this.users == users
    {
      this.users := users;
    }

    /** The roles taken first, then the roles given: one asked for both ways is held. */
    method UpdateRoles(actor: Id, target: Id, add: set<Role>, remove: set<Role>) returns (outcome: Outcome)
      modifies users.auth.repo
      ensures Result(users.auth.Snapshot(), outcome)
        == AuthSpec.UpdateRoles(old(users.auth.Snapshot()), actor, target, add, remove)
    {
      var repo := users.auth.repo;
      if actor !in repo.users || ADMIN !in repo.users[actor].roles { return Refused(AccessDenied); }
      if target !in repo.users { return Refused(NotFound); }
      if target == actor && ADMIN in remove { return Refused(InUse); }
      repo.UpdateUser(target, repo.users[target].(roles := repo.users[target].roles - remove));
      repo.UpdateUser(target, repo.users[target].(roles := repo.users[target].roles + add));
      outcome := Done;
    }

    method SetSuspended(actor: Id, target: Id, suspended: bool) returns (outcome: Outcome)
      modifies users.auth.repo
      ensures Result(users.auth.Snapshot(), outcome)
        == AuthSpec.SetSuspended(old(users.auth.Snapshot()), actor, target, suspended)
    {
      var repo := users.auth.repo;
      if actor !in repo.users || ADMIN !in repo.users[actor].roles { return Refused(AccessDenied); }
      if target == actor { return Refused(InUse); }
      if target !in repo.users { return Refused(NotFound); }
      repo.UpdateUser(target, repo.users[target].(suspended := suspended));
      if suspended { users.auth.ForceLogout(target); }
      outcome := Done;
    }

    method ForceLogout(actor: Id, target: Id) returns (outcome: Outcome)
      modifies users.auth.repo
      ensures Result(users.auth.Snapshot(), outcome) == AuthSpec.ForceLogout(old(users.auth.Snapshot()), actor, target)
    {
      var repo := users.auth.repo;
      if actor !in repo.users || ADMIN !in repo.users[actor].roles { return Refused(AccessDenied); }
      if target !in repo.users { return Refused(NotFound); }
      users.auth.ForceLogout(target);
      outcome := Done;
    }

    method Anonymise(actor: Id, target: Id, p: Pseudonym) returns (outcome: Outcome)
      modifies users.auth.repo
      ensures Result(users.auth.Snapshot(), outcome) == AuthSpec.Anonymise(old(users.auth.Snapshot()), actor, target, p)
    {
      var repo := users.auth.repo;
      if actor !in repo.users || ADMIN !in repo.users[actor].roles { return Refused(AccessDenied); }
      if target == actor { return Refused(InUse); }
      if target !in repo.users { return Refused(NotFound); }
      if repo.users[target].deleted { return Refused(InUse); }
      outcome := users.AnonymiseAccount(target, p);
    }
  }
}
