/** What each request does to the rows of the users there are: one table over requests and their answers, and
    every request of every kind obeys it. */
module AuthRows {
  import opened Text
  import opened AuthTables
  import opened AuthSpec
  import opened AuthInvariant
  import opened AuthHistory
  import opened AuthRuns
  import opened AuthGuarantees

  // ─── The table ─────────────────────────────────────────────────────────────

  predicate IssuedTo(db: Db, t: Id, u: Id) {
    t in db.tokens && db.tokens[t].userId == u
  }

  /** What is left of a deleted user's row. */
  function Removed(row: User, p: Pseudonym): User {
    User("anon-" + p.shortId + "@deleted.invalid", "deleted_" + p.shortId, None, None, row.verified, true, true,
         row.roles)
  }

  /** The row of `u` after an action of `actor`, by how it was answered. */
  function RowAfterAction(row: User, u: Id, actor: Id, action: Action, answer: Outcome): User {
    if answer != Done then row
    else
      match action
      case AskForNewEmail(newEmail, _) => if u == actor then row.(pendingEmail := Some(Normalize(newEmail))) else row
      case SetUpAccount(username) =>
        if u == actor && username.Some? && username.value != "" then row.(username := username.value) else row
      case EditProfile(username, dob) =>
        if u == actor
        then row.(username := if username.Some? then Lower(username.value) else row.username,
                  dob := if dob.Some? then dob.value else row.dob)
        else row
      case AcceptInvitation => if u == actor then row.(roles := row.roles + {VRATMITRA}) else row
      case DeleteMyself(_, p) => if u == actor then Removed(row, p) else row
      case AnonymiseUser(target, p) => if u == target then Removed(row, p) else row
      case Suspend(target, suspended) => if u == target then row.(suspended := suspended) else row
      case ChangeRoles(target, add, remove) => if u == target then row.(roles := row.roles - remove + add) else row
      case _ => row
  }

  /** The row of `u` after a request, by how it was answered. */
  function RowAfter(db: Db, request: Request, answer: Outcome, u: Id): User
    requires u in db.users
  {
    var row := db.users[u];
    match request
    case Verify(t) => if answer == Done && IssuedTo(db, t, u) then row.(verified := true) else row
    case Reset(t, _) => if answer == Done && IssuedTo(db, t, u) then row.(verified := true) else row
    case LinkAccounts(t, _) =>
      if answer.SessionStarted? && IssuedTo(db, t, u) && db.tokens[t].metadata.GoogleIdentity?
         && db.tokens[t].metadata.emailVerified
      then row.(verified := true) else row
    case ConfirmAddress(t) =>
      if answer == Done && IssuedTo(db, t, u) && row.pendingEmail.Some?
      then row.(email := row.pendingEmail.value, pendingEmail := None) else row
    case Bootstrap(rawEmail, _) =>
      if answer == Done && row.email == Trim(rawEmail) && row.email != ""
      then row.(roles := row.roles + {ADMIN}) else row
    case As(s, action) =>
      if s in db.sessions then RowAfterAction(row, u, db.sessions[s].userId, action, answer) else row
    case _ => row
  }

  ghost predicate RowsAfter(db: Db, request: Request, r: Result) {
    forall u :: u in db.users ==> u in r.db.users && r.db.users[u] == RowAfter(db, request, r.outcome, u)
  }

  ghost predicate RowsKept(users: Users, users': Users) {
    forall u :: u in users ==> u in users' && users'[u] == users[u]
  }

  // ─── Requests from outside ─────────────────────────────────────────────────

  lemma RegisterRows(
    db: Db, now: Time, rawEmail: string, password: string, username: string, dob: Option<Time>, known: bool)
    requires UsersOk(db.users, db.next)
    ensures RowsKept(db.users, Register(db, now, rawEmail, password, username, dob, known).db.users)
  {
    RegisterWrites(db, now, rawEmail, password, username, dob, known);
    ReleaseStaleClaimFrame(db, Normalize(rawEmail));
  }

  lemma WithoutAccountRows(
    db: Db, now: Time, googleId: string, rawEmail: string, verified: bool, pending: Option<Id>, random: string)
    requires UsersOk(db.users, db.next)
    ensures RowsKept(db.users, GoogleWithoutAccount(db, now, googleId, rawEmail, verified, pending, random).db.users)
  {
    GoogleWithoutAccountWrites(db, now, googleId, rawEmail, verified, pending, random);
  }

  lemma GoogleRows(
    db: Db, now: Time, googleId: string, rawEmail: string, verified: bool, pending: Option<Id>, random: string)
    requires UsersOk(db.users, db.next)
    ensures RowsKept(db.users, GoogleLogin(db, now, googleId, rawEmail, verified, pending, random).db.users)
  {
    var account := FindAuthAccount(db, GOOGLE, googleId);
    if account.None? {
      WithoutAccountRows(db, now, googleId, rawEmail, verified, pending, random);
    } else if !Live(db, db.accounts[account.value].userId) && pending.Some? {
      var released := ReleaseIdentityClaims(db, db.accounts[account.value].userId);
      WithoutAccountRows(released, now, googleId, rawEmail, verified, pending, random);
    }
  }

  lemma LinkRows(db: Db, now: Time, t: Id, password: string)
    requires OwnersExist(db)
    ensures RowsAfter(db, LinkAccounts(t, password), LinkGoogle(db, now, t, password))
  {
    LinkGoogleWrites(db, now, t, password);
  }

  lemma LoginRows(db: Db, now: Time, rawEmail: string, password: string)
    ensures Login(db, now, rawEmail, password).db.users == db.users
  {
  }

  lemma SigningInRows(db: Db, now: Time, request: Request)
    requires Inv(db) && SigningIn(request) && !request.LinkAccounts?
    ensures RowsKept(db.users, Step(db, now, request).db.users)
  {
    match request
    case SignUp(rawEmail, password, username, dob, known) =>
      RegisterRows(db, now, rawEmail, password, username, dob, known);
    case SignIn(rawEmail, password) => LoginRows(db, now, rawEmail, password);
    case BeginGoogle(username, dob, known) =>
    case ReturnFromGoogle(googleId, rawEmail, verified, pending, random) =>
      GoogleRows(db, now, googleId, rawEmail, verified, pending, random);
  }

  lemma ResetRows(db: Db, now: Time, t: Id, password: string)
    requires OwnersExist(db)
    ensures RowsAfter(db, Reset(t, password), ResetPassword(db, now, t, password))
  {
    ResetPasswordWrites(db, now, t, password);
  }

  lemma VerifyRows(db: Db, now: Time, t: Id)
    requires OwnersExist(db)
    ensures RowsAfter(db, Verify(t), VerifyEmail(db, now, t))
  {
  }

  lemma MovedRows(db: Db, u: Id, email: string, t: Id)
    requires u in db.users && t in db.tokens
    ensures MarkTokenUsed(ApplyEmailChange(ReleaseOtherClaim(db, u, email), u, email), t).users
      == db.users[u := db.users[u].(email := email, pendingEmail := None)]
  {
    ReleaseOtherClaimFrame(db, u, email);
  }

  lemma ConfirmRows(db: Db, now: Time, t: Id)
    requires Inv(db)
    ensures RowsAfter(db, ConfirmAddress(t), ConfirmEmailChange(db, now, t))
  {
    ConfirmedRows(db, now, t);
    ConfirmTable(db, t, ConfirmEmailChange(db, now, t));
  }

  lemma ConfirmTable(db: Db, t: Id, r: Result)
    requires if r.outcome == Done then
        && t in db.tokens && db.tokens[t].userId in db.users && db.users[db.tokens[t].userId].pendingEmail.Some?
        && var u := db.tokens[t].userId;
           r.db.users == db.users[u := db.users[u].(email := db.users[u].pendingEmail.value, pendingEmail := None)]
      else r.db.users == db.users
    ensures RowsAfter(db, ConfirmAddress(t), r)
  {
  }

  lemma ConfirmedRows(db: Db, now: Time, t: Id)
    requires Inv(db)
    ensures var r := ConfirmEmailChange(db, now, t);
      if r.outcome == Done then
        && t in db.tokens
        && var u := db.tokens[t].userId;
           && db.users[u].pendingEmail.Some?
           && r.db.users == db.users[u := db.users[u].(email := db.users[u].pendingEmail.value, pendingEmail := None)]
      else r.db.users == db.users
  {
    ConfirmEmailChangeWrites(db, now, t);
    if ConfirmEmailChange(db, now, t).outcome == Done {
      var u := db.tokens[t].userId;
      MovedRows(db, u, db.users[u].pendingEmail.value, t);
    }
  }

  lemma IssuingRows(db: Db, now: Time, rawEmail: string)
    ensures ResendVerification(db, now, rawEmail).db.users == db.users
    ensures ForgotPassword(db, now, rawEmail).db.users == db.users
  {
  }

  lemma KeptTable(db: Db, request: Request, r: Result)
    requires request.ResendLink? || request.Forgot? || request.Sweep? || request.CleanUp?
    requires r.db.users == db.users
    ensures RowsAfter(db, request, r)
  {
  }

  lemma AskedForLinkRows(db: Db, now: Time, request: Request, r: Result)
    requires OwnersExist(db) && (request.ResendLink? || request.Forgot?) && r == Step(db, now, request)
    ensures RowsAfter(db, request, r)
  {
    IssuingRows(db, now, request.rawEmail);
    KeptTable(db, request, r);
  }

  lemma FollowedLinkRows(db: Db, now: Time, request: Request, r: Result)
    requires OwnersExist(db) && (request.Verify? || request.Reset?) && r == Step(db, now, request)
    ensures RowsAfter(db, request, r)
  {
    match request
    case Verify(t) => VerifyRows(db, now, t);
    case Reset(t, password) => ResetRows(db, now, t, password);
  }

  lemma ByLinkRows(db: Db, now: Time, request: Request, r: Result)
    requires Inv(db) && ByLink(request) && r == Step(db, now, request)
    ensures RowsAfter(db, request, r)
  {
    if request.ResendLink? || request.Forgot? {
      AskedForLinkRows(db, now, request, r);
    } else if request.ConfirmAddress? {
      ConfirmRows(db, now, request.token);
    } else {
      FollowedLinkRows(db, now, request, r);
    }
  }

  lemma FindsHolder(db: Db, u: Id, email: string)
    requires EmailsUnique(db.users) && u in db.users && db.users[u].email == email
    ensures HolderOf(db, email) == Some(u)
  {
  }

  lemma GrantWrites(db: Db, rawEmail: string, allowUnverified: bool)
    ensures var r, holder := GrantAdmin(db, rawEmail, allowUnverified), HolderOf(db, Trim(rawEmail));
      if r.outcome == Done && Trim(rawEmail) != "" then
        && holder.Some?
        && r.db.users == db.users[holder.value :=
             db.users[holder.value].(roles := db.users[holder.value].roles + {ADMIN})]
      else r.db.users == db.users
  {
    var holder := HolderOf(db, Trim(rawEmail));
    if holder.Some? && ADMIN in db.users[holder.value].roles {
      assert db.users[holder.value].roles + {ADMIN} == db.users[holder.value].roles;
    }
  }

  lemma GrantRows(db: Db, rawEmail: string, allowUnverified: bool)
    requires EmailsUnique(db.users)
    ensures RowsAfter(db, Bootstrap(rawEmail, allowUnverified), GrantAdmin(db, rawEmail, allowUnverified))
  {
    GrantWrites(db, rawEmail, allowUnverified);
    forall u | u in db.users && db.users[u].email == Trim(rawEmail)
      ensures HolderOf(db, Trim(rawEmail)) == Some(u)
    {
      FindsHolder(db, u, Trim(rawEmail));
    }
  }

  lemma SweptRows(db: Db, now: Time, request: Request, r: Result)
    requires OwnersExist(db) && (request.Sweep? || request.CleanUp?) && r == Step(db, now, request)
    ensures r.db.users == db.users
  {
  }

  lemma JobRows(db: Db, now: Time, request: Request, r: Result)
    requires OwnersExist(db) && EmailsUnique(db.users) && ByJob(request) && r == Step(db, now, request)
    ensures RowsAfter(db, request, r)
  {
    if request.Bootstrap? {
      GrantRows(db, request.rawEmail, request.allowUnverified);
    } else {
      SweptRows(db, now, request, r);
      KeptTable(db, request, r);
    }
  }

  // ─── Actions on a session ──────────────────────────────────────────────────

  ghost predicate RowsAfterAction(users: Users, actor: Id, action: Action, r: Result) {
    forall u :: u in users ==>
      u in r.db.users && r.db.users[u] == RowAfterAction(users[u], u, actor, action, r.outcome)
  }

  lemma LoginActionRows(db: Db, now: Time, actor: Id, s: Id, action: Action)
    requires actor in db.users
    requires action.Whoami? || action.SignOut? || action.Change? || action.ProveWithGoogle? || action.Unlink?
      || action.LogOut?
    ensures Act(db, now, actor, s, action).db.users == db.users
  {
  }

  lemma AskRows(db: Db, now: Time, actor: Id, s: Id, newEmail: string, proof: Option<string>)
    requires actor in db.users
    ensures RowsAfterAction(db.users, actor, AskForNewEmail(newEmail, proof),
                            RequestEmailChange(db, now, actor, s, newEmail, proof))
  {
    RequestEmailChangeWrites(db, now, actor, s, newEmail, proof);
    ProofWrites(db, now, actor, s, proof);
  }

  /** An action that, granted, writes one row and, refused, none. */
  lemma OneRowWritten(users: Users, actor: Id, action: Action, r: Result, u: Id, row: User)
    requires u in users && r.db.users == if r.outcome == Done then users[u := row] else users
    requires r.outcome == Done ==> row == RowAfterAction(users[u], u, actor, action, Done)
    requires forall v :: v in users && v != u ==> RowAfterAction(users[v], v, actor, action, r.outcome) == users[v]
    ensures RowsAfterAction(users, actor, action, r)
  {
  }

  lemma OnboardingRows(db: Db, actor: Id, username: Option<string>)
    requires actor in db.users
    ensures RowsAfterAction(db.users, actor, SetUpAccount(username), CompleteOnboarding(db, actor, username))
  {
    var row := if Given(username) then db.users[actor].(username := username.value) else db.users[actor];
    OneRowWritten(db.users, actor, SetUpAccount(username), CompleteOnboarding(db, actor, username), actor, row);
  }

  lemma ProfileWrites(db: Db, now: Time, actor: Id, username: Option<string>, dob: Option<Option<Time>>)
    requires actor in db.users
    ensures var r := UpdateOwnProfile(db, now, actor, username, dob);
      r.db.users == if r.outcome == Done then db.users[actor := Edited(db.users[actor], username, dob)] else db.users
  {
  }

  lemma ProfileRows(db: Db, now: Time, actor: Id, username: Option<string>, dob: Option<Option<Time>>, r: Result)
    requires actor in db.users && r == UpdateOwnProfile(db, now, actor, username, dob)
    ensures RowsAfterAction(db.users, actor, EditProfile(username, dob), r)
  {
    ProfileWrites(db, now, actor, username, dob);
    OneRowWritten(db.users, actor, EditProfile(username, dob), r, actor, Edited(db.users[actor], username, dob));
  }

  lemma DeletionRows(db: Db, u: Id, p: Pseudonym)
    requires u in db.users
    ensures var r := AnonymiseAccount(db, u, p);
      forall v :: v in db.users ==>
        v in r.db.users && r.db.users[v] == if r.outcome == Done && v == u then Removed(db.users[v], p) else db.users[v]
  {
  }

  lemma SelfDeleteRows(db: Db, now: Time, actor: Id, s: Id, proof: Option<string>, p: Pseudonym)
    requires actor in db.users
    ensures RowsAfterAction(db.users, actor, DeleteMyself(proof, p), SelfDelete(db, now, actor, s, proof, p))
  {
    ProofWrites(db, now, actor, s, proof);
    DeletionRows(AssertRecentlyAuthenticated(db, now, actor, s, proof).db, actor, p);
  }

  lemma AnonymiseRows(db: Db, actor: Id, target: Id, p: Pseudonym)
    requires actor in db.users
    ensures RowsAfterAction(db.users, actor, AnonymiseUser(target, p), Anonymise(db, actor, target, p))
  {
    if target in db.users { DeletionRows(db, target, p); }
  }

  lemma SuspendWrites(db: Db, actor: Id, target: Id, suspended: bool)
    ensures var r := SetSuspended(db, actor, target, suspended);
      && (r.outcome == Done ==> target in db.users)
      && r.db.users
           == if r.outcome == Done then db.users[target := db.users[target].(suspended := suspended)] else db.users
  {
  }

  lemma SuspendRows(db: Db, actor: Id, target: Id, suspended: bool)
    ensures RowsAfterAction(db.users, actor, Suspend(target, suspended), SetSuspended(db, actor, target, suspended))
  {
    var r := SetSuspended(db, actor, target, suspended);
    SuspendWrites(db, actor, target, suspended);
    if r.outcome == Done {
      OneRowWritten(db.users, actor, Suspend(target, suspended), r, target, db.users[target].(suspended := suspended));
    }
  }

  lemma RolesRows(db: Db, actor: Id, target: Id, add: set<Role>, remove: set<Role>)
    ensures RowsAfterAction(db.users, actor, ChangeRoles(target, add, remove),
                            UpdateRoles(db, actor, target, add, remove))
  {
  }

  lemma InvitedRows(db: Db, actor: Id)
    requires actor in db.users
    ensures RowsAfterAction(db.users, actor, AcceptInvitation, Result(BecomeVratmitra(db, actor), Done))
  {
  }

  lemma ActRows(db: Db, now: Time, actor: Id, s: Id, action: Action)
    requires actor in db.users
    ensures RowsAfterAction(db.users, actor, action, Act(db, now, actor, s, action))
  {
    match action
    case AskForNewEmail(newEmail, proof) => AskRows(db, now, actor, s, newEmail, proof);
    case SetUpAccount(username) => OnboardingRows(db, actor, username);
    case EditProfile(username, dob) =>
      ProfileRows(db, now, actor, username, dob, UpdateOwnProfile(db, now, actor, username, dob));
    case DeleteMyself(proof, p) => SelfDeleteRows(db, now, actor, s, proof, p);
    case AnonymiseUser(target, p) => AnonymiseRows(db, actor, target, p);
    case Suspend(target, suspended) => SuspendRows(db, actor, target, suspended);
    case ChangeRoles(target, add, remove) => RolesRows(db, actor, target, add, remove);
    case AcceptInvitation => InvitedRows(db, actor);
    case _ => LoginActionRows(db, now, actor, s, action);
  }

  lemma SignedInTable(db: Db, s: Id, action: Action, r: Result)
    requires s in db.sessions && RowsAfterAction(db.users, db.sessions[s].userId, action, r)
    ensures RowsAfter(db, As(s, action), r)
  {
  }

  lemma RefusedTable(db: Db, s: Id, action: Action, r: Result)
    requires r.db.users == db.users && r.outcome == Refused(Unauthenticated)
    ensures RowsAfter(db, As(s, action), r)
  {
  }

  lemma ActAsRows(db: Db, now: Time, s: Id, action: Action)
    requires OwnersExist(db)
    ensures RowsAfter(db, As(s, action), ActAs(db, now, s, action))
  {
    ActAsIs(db, now, s, action);
    if Admitted(db, now, s) {
      ActRows(ValidateSession(db, now, s).db, now, db.sessions[s].userId, s, action);
      SignedInTable(db, s, action, ActAs(db, now, s, action));
    } else {
      RefusedTable(db, s, action, ActAs(db, now, s, action));
    }
  }

  // ─── Any request ───────────────────────────────────────────────────────────

  /** Whatever the request and however it is answered, every row there was is afterwards what the table says,
      in every column. */
  lemma StepRows(db: Db, now: Time, request: Request)
    requires Inv(db)
    ensures RowsAfter(db, request, Step(db, now, request))
  {
    if request.As? {
      AsIsActAs(db, now, request.session, request.action);
      ActAsRows(db, now, request.session, request.action);
    } else if ByLink(request) {
      ByLinkRows(db, now, request, Step(db, now, request));
    } else if ByJob(request) {
      JobRows(db, now, request, Step(db, now, request));
    } else if request.LinkAccounts? {
      LinkRows(db, now, request.token, request.password);
    } else {
      SigningInRows(db, now, request);
    }
  }
}
