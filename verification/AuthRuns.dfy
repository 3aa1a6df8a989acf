/** Whole runs of the account service: requests one at a time on a clock that does not go back, and what
    holds in every state they reach. */
module AuthRuns {
  import opened Text
  import opened AuthTables
  import opened AuthSpec
  import opened AuthInvariant
  import opened AuthHistory

  // ─── Requests ──────────────────────────────────────────────────────────────

  /** What a signed-in user may ask for. */
  datatype Action =
    | Whoami
    | SignOut
    | Change(current: string, password: string)
    | ProveWithGoogle(googleId: string)
    | Unlink(provider: Provider, target: Id)
    | AskForNewEmail(newEmail: string, proof: Option<string>)
    | SetUpAccount(username: Option<string>)
    | EditProfile(username: Option<string>, dob: Option<Option<Time>>)
    | AcceptInvitation
    | DeleteMyself(proof: Option<string>, pseudonym: Pseudonym)
    | Suspend(target: Id, suspended: bool)
    | LogOut(target: Id)
    | ChangeRoles(target: Id, add: set<Role>, remove: set<Role>)
    | AnonymiseUser(target: Id, pseudonym: Pseudonym)

  datatype Request =
    | SignUp(rawEmail: string, password: string, username: string, dob: Option<Time>, policiesKnown: bool)
    | SignIn(rawEmail: string, password: string)
    | BeginGoogle(username: string, dob: Option<Time>, policiesKnown: bool)
    | ReturnFromGoogle(googleId: string, rawEmail: string, emailVerified: bool, pending: Option<Id>, random: string)
    | LinkAccounts(token: Id, password: string)
    | Verify(token: Id)
    | ResendLink(rawEmail: string)
    | Forgot(rawEmail: string)
    | Reset(token: Id, password: string)
    | ConfirmAddress(token: Id)
    | Sweep
    | CleanUp
    | Bootstrap(rawEmail: string, allowUnverified: bool)
    | As(session: Id, action: Action)

  /** What takes the ADMIN role. */
  predicate Administers(action: Action) {
    action.Suspend? || action.LogOut? || action.ChangeRoles? || action.AnonymiseUser?
  }

  /** Requests that sign somebody up or in. */
  predicate SigningIn(request: Request) {
    request.SignUp? || request.SignIn? || request.BeginGoogle? || request.ReturnFromGoogle? || request.LinkAccounts?
  }

  /** Requests that ask for a link or follow one. */
  predicate ByLink(request: Request) {
    request.Verify? || request.ResendLink? || request.Forgot? || request.Reset? || request.ConfirmAddress?
  }

  predicate ByJob(request: Request) {
    request.Sweep? || request.CleanUp? || request.Bootstrap?
  }

  ghost function Act(db: Db, now: Time, u: Id, s: Id, action: Action): (r: Result)
    requires u in db.users
    ensures r.db.lockouts == db.lockouts
  {
    match action
    case Whoami => Result(db, Done)
    case SignOut => Result(DeleteSession(db, s), Done)
    case Change(current, password) => ChangePassword(db, now, u, current, password)
    case ProveWithGoogle(googleId) => ReauthenticateWithGoogle(db, now, u, s, googleId)
    case Unlink(provider, target) => Disconnect(db, u, provider, target)
    case AskForNewEmail(newEmail, proof) => RequestEmailChange(db, now, u, s, newEmail, proof)
    case SetUpAccount(username) => CompleteOnboarding(db, u, username)
    case EditProfile(username, dob) => UpdateOwnProfile(db, now, u, username, dob)
    case AcceptInvitation => Result(BecomeVratmitra(db, u), Done)
    case DeleteMyself(proof, pseudonym) => SelfDelete(db, now, u, s, proof, pseudonym)
    case Suspend(target, suspended) => SetSuspended(db, u, target, suspended)
    case LogOut(target) => ForceLogout(db, u, target)
    case ChangeRoles(target, add, remove) => UpdateRoles(db, u, target, add, remove)
    case AnonymiseUser(target, pseudonym) => Anonymise(db, u, target, pseudonym)
  }

  /** A signed-in request carries its session, which is validated first. */
  ghost function ActAs(db: Db, now: Time, s: Id, action: Action): (r: Result)
    requires OwnersExist(db)
    ensures r.db.lockouts == db.lockouts
  {
    var valid := ValidateSession(db, now, s);
    if !valid.outcome.SessionValid? then valid else Act(valid.db, now, valid.outcome.user, s, action)
  }

  ghost function Step(db: Db, now: Time, request: Request): (r: Result)
    requires OwnersExist(db)
    ensures !request.SignIn? ==> r.db.lockouts == db.lockouts
  {
    match request
    case SignUp(rawEmail, password, username, dob, known) => Register(db, now, rawEmail, password, username, dob, known)
    case SignIn(rawEmail, password) => Login(db, now, rawEmail, password)
    case BeginGoogle(username, dob, known) => StartGoogleSignup(db, now, username, dob, known)
    case ReturnFromGoogle(googleId, rawEmail, verified, pending, random) =>
      GoogleLogin(db, now, googleId, rawEmail, verified, pending, random)
    case LinkAccounts(t, password) => LinkGoogle(db, now, t, password)
    case Verify(t) => VerifyEmail(db, now, t)
    case ResendLink(rawEmail) => ResendVerification(db, now, rawEmail)
    case Forgot(rawEmail) => ForgotPassword(db, now, rawEmail)
    case Reset(t, password) => ResetPassword(db, now, t, password)
    case ConfirmAddress(t) => ConfirmEmailChange(db, now, t)
    case Sweep => Result(DeleteExpiredPendingSignups(db, now), Done)
    case CleanUp => Result(CleanUpExpired(db, now), Done)
    case Bootstrap(rawEmail, allowUnverified) => GrantAdmin(db, rawEmail, allowUnverified)
    case As(s, action) => ActAs(db, now, s, action)
  }

  // ─── The invariant holds in every step ─────────────────────────────────────

  lemma AdministeringKeepsInv(db: Db, now: Time, u: Id, s: Id, action: Action)
    requires Inv(db) && u in db.users && Administers(action)
    ensures Inv(Act(db, now, u, s, action).db)
  {
    match action
    case Suspend(target, suspended) => InvSetSuspended(db, u, target, suspended);
    case LogOut(target) => InvForceLogout(db, u, target);
    case ChangeRoles(target, add, remove) => InvUpdateRoles(db, u, target, add, remove);
    case AnonymiseUser(target, pseudonym) => InvAnonymise(db, u, target, pseudonym);
  }

  lemma ActKeepsInv(db: Db, now: Time, u: Id, s: Id, action: Action)
    requires Inv(db) && u in db.users
    ensures Inv(Act(db, now, u, s, action).db)
  {
    match action
    case Whoami =>
    case SignOut => InvFewerSessions(db, db.sessions - {s});
    case Change(current, password) => InvChangePassword(db, now, u, current, password);
    case ProveWithGoogle(googleId) => InvReauthenticateWithGoogle(db, now, u, s, googleId);
    case Unlink(provider, target) => InvDisconnect(db, u, provider, target);
    case AskForNewEmail(newEmail, proof) => InvRequestEmailChange(db, now, u, s, newEmail, proof);
    case SetUpAccount(username) => InvCompleteOnboarding(db, u, username);
    case EditProfile(username, dob) => InvUpdateOwnProfile(db, now, u, username, dob);
    case AcceptInvitation => InvBecomeVratmitra(db, u);
    case DeleteMyself(proof, pseudonym) => InvSelfDelete(db, now, u, s, proof, pseudonym);
    case _ => AdministeringKeepsInv(db, now, u, s, action);
  }

  lemma InvSweep(db: Db, now: Time)
    requires Inv(db)
    ensures Inv(DeleteExpiredPendingSignups(db, now))
  {
    SameTables(db, DeleteExpiredPendingSignups(db, now));
  }

  lemma ActAsKeepsInv(db: Db, now: Time, s: Id, action: Action)
    requires Inv(db)
    ensures Inv(ActAs(db, now, s, action).db)
  {
    var valid := ValidateSession(db, now, s);
    InvValidateSession(db, now, s);
    if valid.outcome.SessionValid? {
      ActKeepsInv(valid.db, now, valid.outcome.user, s, action);
    }
  }

  lemma SigningInKeepsInv(db: Db, now: Time, request: Request)
    requires Inv(db) && SigningIn(request)
    ensures Inv(Step(db, now, request).db)
  {
    match request
    case SignUp(rawEmail, password, username, dob, known) =>
      InvRegister(db, now, rawEmail, password, username, dob, known);
    case SignIn(rawEmail, password) => InvLogin(db, now, rawEmail, password);
    case BeginGoogle(username, dob, known) => InvStartGoogleSignup(db, now, username, dob, known);
    case ReturnFromGoogle(googleId, rawEmail, verified, pending, random) =>
      InvGoogleLogin(db, now, googleId, rawEmail, verified, pending, random);
    case LinkAccounts(t, password) => InvLinkGoogle(db, now, t, password);
  }

  lemma LinkKeepsInv(db: Db, now: Time, request: Request)
    requires Inv(db) && ByLink(request)
    ensures Inv(Step(db, now, request).db)
  {
    match request
    case Verify(t) => InvVerifyEmail(db, now, t);
    case ResendLink(rawEmail) => InvResendVerification(db, now, rawEmail);
    case Forgot(rawEmail) => InvForgotPassword(db, now, rawEmail);
    case Reset(t, password) => InvResetPassword(db, now, t, password);
    case ConfirmAddress(t) => InvConfirmEmailChange(db, now, t);
  }

  lemma JobKeepsInv(db: Db, now: Time, request: Request)
    requires Inv(db) && ByJob(request)
    ensures Inv(Step(db, now, request).db)
  {
    match request
    case Sweep => InvSweep(db, now);
    case CleanUp => InvCleanUpExpired(db, now);
    case Bootstrap(rawEmail, allowUnverified) => InvGrantAdmin(db, rawEmail, allowUnverified);
  }

  /** Every request keeps the invariant of the tables, whatever it asks and however it is answered. */
  lemma StepKeepsInv(db: Db, now: Time, request: Request)
    requires Inv(db)
    ensures Inv(Step(db, now, request).db)
  {
    if request.As? {
      ActAsKeepsInv(db, now, request.session, request.action);
    } else if ByJob(request) {
      JobKeepsInv(db, now, request);
    } else if ByLink(request) {
      LinkKeepsInv(db, now, request);
    } else {
      SigningInKeepsInv(db, now, request);
    }
  }

  // ─── What no request takes back ────────────────────────────────────────────

  /** The birth date an action would put on its user. */
  function CorrectedDob(action: Action): Option<Time> {
    if action.EditProfile? && action.dob.Some? then action.dob.value else None
  }

  lemma AdministeringFollows(db: Db, now: Time, u: Id, s: Id, action: Action, adults: Dobs)
    requires Inv(db) && u in db.users && Administers(action)
    ensures Follows(db, Act(db, now, u, s, action).db, adults)
  {
    match action
    case Suspend(target, suspended) => FollowSetSuspended(db, u, target, suspended, adults);
    case LogOut(target) => FollowForceLogout(db, u, target, adults);
    case ChangeRoles(target, add, remove) => FollowUpdateRoles(db, u, target, add, remove, adults);
    case AnonymiseUser(target, pseudonym) => FollowAnonymise(db, u, target, pseudonym, adults);
  }

  lemma ActFollows(db: Db, now: Time, u: Id, s: Id, action: Action, adults: Dobs)
    requires Inv(db) && u in db.users && (Qualifies(CorrectedDob(action), now) ==> CorrectedDob(action) in adults)
    ensures Follows(db, Act(db, now, u, s, action).db, adults)
  {
    match action
    case Whoami => FollowLockouts(db, db, adults);
    case SignOut => FollowSessions(db, db.sessions - {s}, db.next, adults);
    case Change(current, password) => FollowChangePassword(db, now, u, current, password, adults);
    case ProveWithGoogle(googleId) => FollowReauthenticateWithGoogle(db, now, u, s, googleId, adults);
    case Unlink(provider, target) => FollowDisconnect(db, u, provider, target, adults);
    case AskForNewEmail(newEmail, proof) => FollowRequestEmailChange(db, now, u, s, newEmail, proof, adults);
    case SetUpAccount(username) => FollowCompleteOnboarding(db, u, username, adults);
    case EditProfile(username, dob) => FollowUpdateOwnProfile(db, now, u, username, dob, adults);
    case AcceptInvitation => FollowBecomeVratmitra(db, u, adults);
    case DeleteMyself(proof, pseudonym) => FollowSelfDelete(db, now, u, s, proof, pseudonym, adults);
    case _ => AdministeringFollows(db, now, u, s, action, adults);
  }

  lemma ActAsFollows(db: Db, now: Time, s: Id, action: Action, adults: Dobs)
    requires Inv(db) && (Qualifies(CorrectedDob(action), now) ==> CorrectedDob(action) in adults)
    ensures Follows(db, ActAs(db, now, s, action).db, adults)
  {
    var valid := ValidateSession(db, now, s);
    InvValidateSession(db, now, s);
    FollowValidateSession(db, now, s, adults);
    if valid.outcome.SessionValid? {
      ActFollows(valid.db, now, valid.outcome.user, s, action, adults);
      FollowsTransitive(db, valid.db, ActAs(db, now, s, action).db, adults);
    }
  }

  /** The birth date a request would make a user or a pending signup with, or put on a user. */
  function DobOf(db: Db, request: Request): Option<Time> {
    match request
    case SignUp(_, _, _, dob, _) => dob
    case BeginGoogle(_, dob, _) => dob
    case ReturnFromGoogle(_, _, _, pending, _) => SignupDob(db, pending)
    case As(_, action) => CorrectedDob(action)
    case _ => None
  }

  lemma SigningInFollows(db: Db, now: Time, request: Request, adults: Dobs)
    requires Inv(db) && SigningIn(request) && (Qualifies(DobOf(db, request), now) ==> DobOf(db, request) in adults)
    ensures Follows(db, Step(db, now, request).db, adults)
  {
    match request
    case SignUp(rawEmail, password, username, dob, known) =>
      FollowRegister(db, now, rawEmail, password, username, dob, known, adults);
    case SignIn(rawEmail, password) => FollowLogin(db, now, rawEmail, password, adults);
    case BeginGoogle(username, dob, known) => FollowStartGoogleSignup(db, now, username, dob, known, adults);
    case ReturnFromGoogle(googleId, rawEmail, verified, pending, random) =>
      FollowGoogleLogin(db, now, googleId, rawEmail, verified, pending, random, adults);
    case LinkAccounts(t, password) => FollowLinkGoogle(db, now, t, password, adults);
  }

  lemma LinkFollows(db: Db, now: Time, request: Request, adults: Dobs)
    requires Inv(db) && ByLink(request)
    ensures Follows(db, Step(db, now, request).db, adults)
  {
    match request
    case Verify(t) => FollowVerifyEmail(db, now, t, adults);
    case ResendLink(rawEmail) => FollowResendVerification(db, now, rawEmail, adults);
    case Forgot(rawEmail) => FollowForgotPassword(db, now, rawEmail, adults);
    case Reset(t, password) => FollowResetPassword(db, now, t, password, adults);
    case ConfirmAddress(t) => FollowConfirmEmailChange(db, now, t, adults);
  }

  lemma JobFollows(db: Db, now: Time, request: Request, adults: Dobs)
    requires Inv(db) && ByJob(request)
    ensures Follows(db, Step(db, now, request).db, adults)
  {
    match request
    case Sweep => FollowSweep(db, now, adults);
    case CleanUp => FollowCleanUpExpired(db, now, adults);
    case Bootstrap(rawEmail, allowUnverified) => FollowGrantAdmin(db, rawEmail, allowUnverified, adults);
  }

  lemma AsIsActAs(db: Db, now: Time, s: Id, action: Action)
    requires OwnersExist(db)
    ensures Step(db, now, As(s, action)) == ActAs(db, now, s, action)
    ensures DobOf(db, As(s, action)) == CorrectedDob(action)
  {
  }

  /** No request takes back a user row, a deletion, the end of a session, or the use or removal of a token;
      a birth date it brings in is one of the adults'. */
  lemma StepFollows(db: Db, now: Time, request: Request, adults: Dobs)
    requires Inv(db) && (Qualifies(DobOf(db, request), now) ==> DobOf(db, request) in adults)
    ensures Follows(db, Step(db, now, request).db, adults)
  {
    if request.As? {
      AsIsActAs(db, now, request.session, request.action);
      ActAsFollows(db, now, request.session, request.action, adults);
    } else if ByJob(request) {
      JobFollows(db, now, request, adults);
    } else if ByLink(request) {
      LinkFollows(db, now, request, adults);
    } else {
      SigningInFollows(db, now, request, adults);
    }
  }

  // ─── Runs ──────────────────────────────────────────────────────────────────

  /** A request and the time it is served at. */
  datatype Event = Event(now: Time, request: Request)

  ghost predicate InOrder(run: seq<Event>) {
    && (forall i :: 0 <= i < |run| ==> 0 <= run[i].now)
    && (forall i, j :: 0 <= i <= j < |run| ==> run[i].now <= run[j].now)
  }

  /** The tables after a run from the empty store. */
  ghost function After(run: seq<Event>): (db: Db)
    ensures Inv(db)
  {
    if run == [] then InvEmpty(); EMPTY_DB
    else
      var before, event := After(run[..|run| - 1]), run[|run| - 1];
      StepKeepsInv(before, event.now, event.request);
      Step(before, event.now, event.request).db
  }

  /** The answer to the i-th request of a run. */
  ghost function Answer(run: seq<Event>, i: nat): Outcome
    requires i < |run|
  {
    Step(After(run[..i]), run[i].now, run[i].request).outcome
  }

  /** The answers to the first n requests of a run, in order. */
  ghost function Answers(run: seq<Event>, n: nat): seq<Outcome>
    requires n <= |run|
  {
    if n == 0 then [] else Answers(run, n - 1) + [Answer(run, n - 1)]
  }

  lemma AfterNone(run: seq<Event>)
    ensures After(run[..0]) == EMPTY_DB
  {
  }

  lemma AfterOneMore(run: seq<Event>, i: nat)
    requires i < |run|
    ensures After(run[..i + 1]) == Step(After(run[..i]), run[i].now, run[i].request).db
  {
    assert run[..i + 1][..i] == run[..i];
  }
}
