/** What each request does to the sessions there are, and which it starts: one table over requests and their
    answers, and every request of every kind obeys it. */
module AuthSessions {
  import opened Text
  import opened AuthTables
  import opened AuthSpec
  import opened AuthInvariant
  import opened AuthHistory
  import opened AuthRuns
  import opened AuthGuarantees
  import opened AuthJourneys

  type Sessions = map<Id, Session>

  // ─── The table ─────────────────────────────────────────────────────────────

  /** Passing the door of a sensitive action takes the session's Google proof with it: at most 10 minutes old,
      and no right password given instead. */
  ghost predicate TakesProof(db: Db, now: Time, u: Id, stamp: Option<Time>, proof: Option<string>) {
    && !(proof.Some? && proof.value != "" && RightPassword(db, u, proof.value))
    && stamp.Some? && now <= stamp.value + 600_000
  }

  /** The proof an action comes with, if it is a sensitive one. */
  function SensitiveProof(action: Action): Option<Option<string>> {
    match action
    case AskForNewEmail(_, proof) => Some(proof)
    case DeleteMyself(proof, _) => Some(proof)
    case _ => None
  }

  /** A session after an action of `u`, by how it was answered; `own` is the session the action came in. */
  ghost function SessionLeft(
    db: Db, now: Time, u: Id, action: Action, answer: Outcome, row: Session, own: bool): Option<Session>
  {
    var proof := SensitiveProof(action);
    if ActionEnds(u, action, answer) == Some(row.userId) || (own && action.SignOut?) then None
    else if own && action.ProveWithGoogle? && answer == Done then Some(row.(reauthenticatedAt := Some(now)))
    else if own && proof.Some? && TakesProof(db, now, u, row.reauthenticatedAt, proof.value)
    then Some(row.(reauthenticatedAt := None))
    else Some(row)
  }

  /** The session `x` after a request, by how it was answered: let in, it is good for 30 days from then. */
  ghost function SessionAfter(db: Db, now: Time, request: Request, answer: Outcome, x: Id): Option<Session>
    requires x in db.sessions
  {
    var row := db.sessions[x];
    match request
    case Reset(t, _) =>
      if answer == Done && t in db.tokens && db.tokens[t].userId == row.userId then None else Some(row)
    case CleanUp => if row.expiresAt < now then None else Some(row)
    case As(s, action) =>
      if !Admitted(db, now, s) then if x == s then None else Some(row)
      else
        var rolled := if x == s then row.(expiresAt := now + 2_592_000_000) else row;
        SessionLeft(db, now, db.sessions[s].userId, action, answer, rolled, x == s)
    case _ => Some(row)
  }

  predicate Becomes(sessions: Sessions, x: Id, row: Option<Session>) {
    if x in sessions then row == Some(sessions[x]) else row.None?
  }

  /** The only session that may be new is the one the answer names, good for 30 days. */
  predicate StartedBy(sessions: Sessions, sessions': Sessions, now: Time, answer: Outcome) {
    && (forall x :: x in sessions' && x !in sessions ==> answer.SessionStarted? && x == answer.session)
    && (answer.SessionStarted? ==>
          && answer.session !in sessions && answer.session in sessions'
          && sessions'[answer.session] == Session(answer.user, now + 2_592_000_000, None))
  }

  ghost predicate SessionsAfter(db: Db, now: Time, request: Request, r: Result) {
    && (forall x :: x in db.sessions ==> Becomes(r.db.sessions, x, SessionAfter(db, now, request, r.outcome, x)))
    && StartedBy(db.sessions, r.db.sessions, now, r.outcome)
  }

  predicate SessionsKept(db: Db, now: Time, r: Result) {
    && (forall x :: x in db.sessions ==> x in r.db.sessions && r.db.sessions[x] == db.sessions[x])
    && StartedBy(db.sessions, r.db.sessions, now, r.outcome)
  }

  /** Of the sessions there were, those of `u` and only those are gone; the others are as they were. */
  predicate EndedFor(sessions: Sessions, u: Id, sessions': Sessions) {
    && (forall x :: x in sessions' ==> x in sessions)
    && (forall x :: x in sessions ==>
          if sessions[x].userId == u then x !in sessions' else x in sessions' && sessions'[x] == sessions[x])
  }

  /** No number from the next on is in use. */
  ghost predicate Below(db: Db) {
    forall x :: x in db.sessions ==> x < db.next
  }

  lemma SessionsBelow(db: Db)
    requires Inv(db)
    ensures Below(db)
  {
  }

  // ─── Requests from outside ─────────────────────────────────────────────────

  lemma RegisterSessions(
    db: Db, now: Time, rawEmail: string, password: string, username: string, dob: Option<Time>, known: bool)
    ensures SessionsKept(db, now, Register(db, now, rawEmail, password, username, dob, known))
  {
    RegisterWrites(db, now, rawEmail, password, username, dob, known);
    ReleaseStaleClaimFrame(db, Normalize(rawEmail));
  }

  lemma LoginSessions(db: Db, now: Time, rawEmail: string, password: string)
    requires Below(db)
    ensures SessionsKept(db, now, Login(db, now, rawEmail, password))
  {
  }

  lemma NewGoogleSessionStarted(db: Db, now: Time, user: User, googleId: string, r: Result)
    requires Below(db) && r == Result(NewGoogleSession(db, user, googleId, now), SessionStarted(db.next, db.next + 2))
    ensures SessionsKept(db, now, r)
  {
  }

  lemma NewGoogleSessions(
    db: Db, now: Time, googleId: string, email: string, pending: Option<Id>, random: string, r: Result)
    requires Below(db) && r == GoogleSignup(db, now, googleId, email, pending, random)
    ensures SessionsKept(db, now, r)
  {
    SignupRefused(db, now, googleId, email, pending, random, r);
    if r.outcome.SessionStarted? {
      SignupWrites(db, now, googleId, email, pending, random);
      var signup, consumed := db.pendings[pending.value], DeletePending(db, pending.value);
      NewGoogleSessionStarted(consumed, now,
          NewGoogleUser(email, ClaimUsername(consumed, signup.username, random), signup.dob), googleId, r);
    }
  }

  lemma WithoutAccountSessions(
    db: Db, now: Time, googleId: string, rawEmail: string, verified: bool, pending: Option<Id>, random: string)
    requires Below(db)
    ensures SessionsKept(db, now, GoogleWithoutAccount(db, now, googleId, rawEmail, verified, pending, random))
  {
    NewGoogleSessions(db, now, googleId, Normalize(rawEmail), pending, random,
        GoogleSignup(db, now, googleId, Normalize(rawEmail), pending, random));
  }

  lemma GoogleSessions(
    db: Db, now: Time, googleId: string, rawEmail: string, verified: bool, pending: Option<Id>, random: string)
    requires Below(db)
    ensures SessionsKept(db, now, GoogleLogin(db, now, googleId, rawEmail, verified, pending, random))
  {
    var account := FindAuthAccount(db, GOOGLE, googleId);
    if account.None? {
      WithoutAccountSessions(db, now, googleId, rawEmail, verified, pending, random);
    } else if !Live(db, db.accounts[account.value].userId) && pending.Some? {
      var released := ReleaseIdentityClaims(db, db.accounts[account.value].userId);
      WithoutAccountSessions(released, now, googleId, rawEmail, verified, pending, random);
    }
  }

  lemma LinkSessions(db: Db, now: Time, t: Id, password: string)
    requires OwnersExist(db) && Below(db)
    ensures SessionsKept(db, now, LinkGoogle(db, now, t, password))
  {
    LinkGoogleWrites(db, now, t, password);
  }

  lemma BeginSessions(db: Db, now: Time, username: string, dob: Option<Time>, known: bool)
    ensures SessionsKept(db, now, StartGoogleSignup(db, now, username, dob, known))
  {
  }

  lemma FromGoogleSessions(db: Db, now: Time, request: Request, r: Result)
    requires Below(db) && OwnersExist(db) && r == Step(db, now, request)
    requires request.ReturnFromGoogle? || request.LinkAccounts?
    ensures SessionsKept(db, now, r)
  {
    match request
    case ReturnFromGoogle(googleId, rawEmail, verified, pending, random) =>
      GoogleSessions(db, now, googleId, rawEmail, verified, pending, random);
    case LinkAccounts(t, password) => LinkSessions(db, now, t, password);
  }

  lemma ResetEnds(db: Db, now: Time, t: Id, password: string, r: Result)
    requires OwnersExist(db) && r == ResetPassword(db, now, t, password)
    ensures r.outcome == Done || (r.outcome.Refused? && r.db == db)
    ensures r.outcome == Done ==> t in db.tokens && EndedFor(db.sessions, db.tokens[t].userId, r.db.sessions)
  {
    ResetPasswordWrites(db, now, t, password);
  }

  lemma ResetSessions(db: Db, now: Time, t: Id, password: string, r: Result)
    requires r.outcome == Done || (r.outcome.Refused? && r.db == db)
    requires r.outcome == Done ==> t in db.tokens && EndedFor(db.sessions, db.tokens[t].userId, r.db.sessions)
    ensures SessionsAfter(db, now, Reset(t, password), r)
  {
  }

  lemma ConfirmSessions(db: Db, now: Time, t: Id)
    requires Inv(db)
    ensures SessionsKept(db, now, ConfirmEmailChange(db, now, t))
  {
    ConfirmEmailChangeWrites(db, now, t);
    var u := if t in db.tokens then db.tokens[t].userId else 0;
    if u in db.users && db.users[u].pendingEmail.Some? {
      ReleaseOtherClaimFrame(db, u, db.users[u].pendingEmail.value);
    }
  }

  lemma IssuingSessions(db: Db, now: Time, rawEmail: string)
    ensures SessionsKept(db, now, ResendVerification(db, now, rawEmail))
    ensures SessionsKept(db, now, ForgotPassword(db, now, rawEmail))
  {
  }

  lemma OtherSessions(db: Db, now: Time, request: Request, r: Result)
    requires OwnersExist(db) && r == Step(db, now, request)
    requires request.Verify? || request.Sweep? || request.Bootstrap?
    ensures SessionsKept(db, now, r)
  {
  }

  lemma CleanUpSessions(db: Db, now: Time, r: Result)
    requires r == Result(CleanUpExpired(db, now), Done)
    ensures SessionsAfter(db, now, CleanUp, r)
  {
  }

  lemma KeptTable(db: Db, now: Time, request: Request, r: Result)
    requires SessionsKept(db, now, r) && !request.Reset? && !request.CleanUp? && !request.As?
    ensures SessionsAfter(db, now, request, r)
  {
  }

  // ─── Actions on a session ──────────────────────────────────────────────────

  /** The sessions after an action of the holder `u` of the session `s`. */
  ghost predicate SessionsLeft(db: Db, now: Time, u: Id, s: Id, action: Action, r: Result) {
    && (forall x :: x in db.sessions ==>
          Becomes(r.db.sessions, x, SessionLeft(db, now, u, action, r.outcome, db.sessions[x], x == s)))
    && StartedBy(db.sessions, r.db.sessions, now, r.outcome)
  }

  lemma PlainActions(db: Db, now: Time, u: Id, s: Id, action: Action, r: Result)
    requires u in db.users && r == Act(db, now, u, s, action)
    requires action.Whoami? || action.SignOut? || action.Unlink? || action.SetUpAccount? || action.EditProfile?
      || action.AcceptInvitation? || action.ChangeRoles?
    ensures SessionsLeft(db, now, u, s, action, r)
  {
  }

  lemma ChangeSessions(db: Db, now: Time, u: Id, s: Id, current: string, password: string, r: Result)
    requires Below(db) && r == ChangePassword(db, now, u, current, password)
    ensures SessionsLeft(db, now, u, s, Change(current, password), r)
  {
  }

  lemma ProveSessions(db: Db, now: Time, u: Id, s: Id, googleId: string, r: Result)
    requires r == ReauthenticateWithGoogle(db, now, u, s, googleId)
    ensures SessionsLeft(db, now, u, s, ProveWithGoogle(googleId), r)
  {
  }

  /** The sessions after the proof of a sensitive action has been asked for, passed or not. */
  ghost predicate ProofAsked(
    db: Db, now: Time, u: Id, s: Id, proof: Option<string>, sessions': Sessions)
    requires s in db.sessions
  {
    sessions' == if TakesProof(db, now, u, db.sessions[s].reauthenticatedAt, proof)
                 then db.sessions[s := db.sessions[s].(reauthenticatedAt := None)] else db.sessions
  }

  lemma ProofSessions(db: Db, now: Time, u: Id, s: Id, proof: Option<string>)
    requires OneEmailAccountEach(db.accounts) && s in db.sessions
    ensures ProofAsked(db, now, u, s, proof, AssertRecentlyAuthenticated(db, now, u, s, proof).db.sessions)
  {
    if proof.Some? { PasswordIsRight(db, u, proof.value); }
  }

  lemma AskSessions(db: Db, now: Time, u: Id, s: Id, newEmail: string, proof: Option<string>, r: Result)
    requires OneEmailAccountEach(db.accounts) && Live(db, u) && s in db.sessions
    requires r == RequestEmailChange(db, now, u, s, newEmail, proof)
    ensures r.outcome == Done || r.outcome.Refused?
    ensures ProofAsked(db, now, u, s, proof, r.db.sessions)
  {
    ProofSessions(db, now, u, s, proof);
  }

  lemma AskLeaves(db: Db, now: Time, u: Id, s: Id, newEmail: string, proof: Option<string>, r: Result)
    requires s in db.sessions && (r.outcome == Done || r.outcome.Refused?)
    requires ProofAsked(db, now, u, s, proof, r.db.sessions)
    ensures SessionsLeft(db, now, u, s, AskForNewEmail(newEmail, proof), r)
  {
  }

  lemma GoneSessions(db: Db, u: Id, p: Pseudonym, r: Result)
    requires u in db.users && r == AnonymiseAccount(db, u, p)
    ensures r.outcome == Done || (r.outcome.Refused? && r.db == db)
    ensures r.outcome == Done ==>
      r.db.sessions == map x | x in db.sessions && db.sessions[x].userId != u :: db.sessions[x]
  {
  }

  lemma EndedAfterProof(sessions: Sessions, u: Id, s: Id, proved: Sessions, sessions': Sessions)
    requires s in sessions && sessions[s].userId == u
    requires proved == sessions || proved == sessions[s := sessions[s].(reauthenticatedAt := None)]
    requires sessions' == map x | x in proved && proved[x].userId != u :: proved[x]
    ensures EndedFor(sessions, u, sessions')
  {
  }

  lemma SelfDeleteSessions(db: Db, now: Time, u: Id, s: Id, proof: Option<string>, p: Pseudonym, r: Result)
    requires OneEmailAccountEach(db.accounts) && u in db.users && s in db.sessions && db.sessions[s].userId == u
    requires r == SelfDelete(db, now, u, s, proof, p)
    ensures r.outcome == Done || (r.outcome.Refused? && ProofAsked(db, now, u, s, proof, r.db.sessions))
    ensures r.outcome == Done ==> EndedFor(db.sessions, u, r.db.sessions)
  {
    var proved := AssertRecentlyAuthenticated(db, now, u, s, proof);
    ProofSessions(db, now, u, s, proof);
    ProofWrites(db, now, u, s, proof);
    if proved.outcome == Done {
      GoneSessions(proved.db, u, p, r);
      if r.outcome == Done { EndedAfterProof(db.sessions, u, s, proved.db.sessions, r.db.sessions); }
    }
  }

  lemma SelfDeleteLeaves(db: Db, now: Time, u: Id, s: Id, proof: Option<string>, p: Pseudonym, r: Result)
    requires s in db.sessions && db.sessions[s].userId == u
    requires r.outcome == Done || (r.outcome.Refused? && ProofAsked(db, now, u, s, proof, r.db.sessions))
    requires r.outcome == Done ==> EndedFor(db.sessions, u, r.db.sessions)
    ensures SessionsLeft(db, now, u, s, DeleteMyself(proof, p), r)
  {
  }

  lemma SuspendSessions(db: Db, now: Time, u: Id, s: Id, target: Id, suspended: bool, r: Result)
    requires r == SetSuspended(db, u, target, suspended)
    ensures SessionsLeft(db, now, u, s, Suspend(target, suspended), r)
  {
  }

  lemma LogOutSessions(db: Db, now: Time, u: Id, s: Id, target: Id, r: Result)
    requires r == ForceLogout(db, u, target)
    ensures SessionsLeft(db, now, u, s, LogOut(target), r)
  {
  }

  lemma AnonymiseEnds(db: Db, u: Id, target: Id, p: Pseudonym, r: Result)
    requires r == Anonymise(db, u, target, p)
    ensures r.outcome == Done || (r.outcome.Refused? && r.db == db)
    ensures r.outcome == Done ==> EndedFor(db.sessions, target, r.db.sessions)
  {
    if target in db.users { GoneSessions(db, target, p, AnonymiseAccount(db, target, p)); }
  }

  lemma AnonymiseSessions(db: Db, now: Time, u: Id, s: Id, target: Id, p: Pseudonym, r: Result)
    requires r.outcome == Done || (r.outcome.Refused? && r.db == db)
    requires r.outcome == Done ==> EndedFor(db.sessions, target, r.db.sessions)
    ensures SessionsLeft(db, now, u, s, AnonymiseUser(target, p), r)
  {
  }

  lemma ActSessions(db: Db, now: Time, u: Id, s: Id, action: Action, r: Result)
    requires OneEmailAccountEach(db.accounts) && Below(db) && Live(db, u)
    requires s in db.sessions && db.sessions[s].userId == u && r == Act(db, now, u, s, action)
    ensures SessionsLeft(db, now, u, s, action, r)
  {
    match action
    case Change(current, password) => ChangeSessions(db, now, u, s, current, password, r);
    case ProveWithGoogle(googleId) => ProveSessions(db, now, u, s, googleId, r);
    case AskForNewEmail(newEmail, proof) =>
      AskSessions(db, now, u, s, newEmail, proof, r);
      AskLeaves(db, now, u, s, newEmail, proof, r);
    case DeleteMyself(proof, p) =>
      SelfDeleteSessions(db, now, u, s, proof, p, r);
      SelfDeleteLeaves(db, now, u, s, proof, p, r);
    case Suspend(target, suspended) => SuspendSessions(db, now, u, s, target, suspended, r);
    case LogOut(target) => LogOutSessions(db, now, u, s, target, r);
    case AnonymiseUser(target, p) =>
      AnonymiseEnds(db, u, target, p, r);
      AnonymiseSessions(db, now, u, s, target, p, r);
    case _ => PlainActions(db, now, u, s, action, r);
  }

  lemma ValidSessions(db: Db, now: Time, s: Id, valid: Db)
    requires OwnersExist(db) && valid == ValidateSession(db, now, s).db
    ensures if Admitted(db, now, s)
      then valid == db.(sessions := db.sessions[s := db.sessions[s].(expiresAt := now + 2_592_000_000)])
      else valid == db.(sessions := db.sessions - {s})
  {
  }

  lemma SameAsValidated(db: Db, valid: Db, now: Time, u: Id, stamp: Option<Time>, proof: Option<string>)
    requires valid.accounts == db.accounts
    ensures TakesProof(valid, now, u, stamp, proof) == TakesProof(db, now, u, stamp, proof)
  {
    assert forall a :: IsEmailAccountOf(valid, a, u) == IsEmailAccountOf(db, a, u);
  }

  lemma SameLeft(db: Db, valid: Db, now: Time, u: Id, action: Action, answer: Outcome, row: Session, own: bool)
    requires valid.accounts == db.accounts
    ensures SessionLeft(valid, now, u, action, answer, row, own) == SessionLeft(db, now, u, action, answer, row, own)
  {
    var proof := SensitiveProof(action);
    if proof.Some? { SameAsValidated(db, valid, now, u, row.reauthenticatedAt, proof.value); }
  }

  lemma SignedInTable(db: Db, now: Time, s: Id, action: Action, valid: Db, r: Result)
    requires Admitted(db, now, s) && valid.accounts == db.accounts
    requires valid.sessions == db.sessions[s := db.sessions[s].(expiresAt := now + 2_592_000_000)]
    requires SessionsLeft(valid, now, db.sessions[s].userId, s, action, r)
    ensures SessionsAfter(db, now, As(s, action), r)
  {
    var u := db.sessions[s].userId;
    forall x | x in db.sessions
      ensures SessionAfter(db, now, As(s, action), r.outcome, x)
        == SessionLeft(valid, now, u, action, r.outcome, valid.sessions[x], x == s)
    {
      SameLeft(db, valid, now, u, action, r.outcome, valid.sessions[x], x == s);
    }
  }

  lemma RefusedTable(db: Db, now: Time, s: Id, action: Action, r: Result)
    requires !Admitted(db, now, s) && r.db.sessions == db.sessions - {s} && r.outcome.Refused?
    ensures SessionsAfter(db, now, As(s, action), r)
  {
  }

  lemma ActAsSessions(db: Db, now: Time, s: Id, action: Action, r: Result)
    requires Inv(db) && r == ActAs(db, now, s, action)
    ensures SessionsAfter(db, now, As(s, action), r)
  {
    var valid := ValidateSession(db, now, s).db;
    ActAsIs(db, now, s, action);
    ValidSessions(db, now, s, valid);
    if Admitted(db, now, s) {
      SessionsBelow(db);
      ActSessions(valid, now, db.sessions[s].userId, s, action, r);
      SignedInTable(db, now, s, action, valid, r);
    } else {
      RefusedTable(db, now, s, action, r);
    }
  }

  lemma PlainSessions(db: Db, now: Time, request: Request, r: Result)
    requires Inv(db) && r == Step(db, now, request)
    requires !request.Reset? && !request.CleanUp? && !request.As? && !request.ConfirmAddress?
    ensures SessionsKept(db, now, r)
  {
    SessionsBelow(db);
    match request
    case SignUp(rawEmail, password, username, dob, known) =>
      RegisterSessions(db, now, rawEmail, password, username, dob, known);
    case SignIn(rawEmail, password) => LoginSessions(db, now, rawEmail, password);
    case BeginGoogle(username, dob, known) => BeginSessions(db, now, username, dob, known);
    case ResendLink(rawEmail) => IssuingSessions(db, now, rawEmail);
    case Forgot(rawEmail) => IssuingSessions(db, now, rawEmail);
    case ReturnFromGoogle(_, _, _, _, _) => FromGoogleSessions(db, now, request, r);
    case LinkAccounts(_, _) => FromGoogleSessions(db, now, request, r);
    case _ => OtherSessions(db, now, request, r);
  }

  // ─── Any request ───────────────────────────────────────────────────────────

  /** Whatever the request and however it is answered: every session there was is afterwards what the table
      says, and the only one that is new is the one the answer names. */
  lemma StepSessions(db: Db, now: Time, request: Request)
    requires Inv(db)
    ensures SessionsAfter(db, now, request, Step(db, now, request))
  {
    var r := Step(db, now, request);
    match request
    case As(s, action) =>
      AsIsActAs(db, now, s, action);
      ActAsSessions(db, now, s, action, r);
    case Reset(t, password) =>
      ResetEnds(db, now, t, password, r);
      ResetSessions(db, now, t, password, r);
    case CleanUp => CleanUpSessions(db, now, r);
    case ConfirmAddress(t) =>
      ConfirmSessions(db, now, t);
      KeptTable(db, now, request, r);
    case _ =>
      PlainSessions(db, now, request, r);
      KeptTable(db, now, request, r);
  }
}
