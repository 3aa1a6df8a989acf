/** What a run of the account service guarantees, over every run from the empty store. */
module AuthGuarantees {
  import opened Text
  import opened AuthTables
  import opened AuthSpec
  import opened AuthInvariant
  import opened AuthHistory
  import opened AuthRuns

  // ─── From one state of a run to a later one ────────────────────────────────

  ghost const ANY_DOB: Dobs := iset dob: Option<Time> | true

  lemma FollowsItself(db: Db, adults: Dobs)
    ensures Follows(db, db, adults)
  {
  }

  lemma OneMoreFollows(run: seq<Event>, j: nat)
    requires j < |run|
    ensures Follows(After(run[..j]), After(run[..j + 1]), ANY_DOB)
  {
    AfterOneMore(run, j);
    StepFollows(After(run[..j]), run[j].now, run[j].request, ANY_DOB);
  }

  lemma {:induction false} PrefixFollows(run: seq<Event>, i: nat)
    requires i <= |run|
    ensures Follows(After(run[..i]), After(run), ANY_DOB)
  {
    if i == |run| {
      assert run[..i] == run;
      FollowsItself(After(run), ANY_DOB);
    } else {
      var before := run[..|run| - 1];
      assert before[..i] == run[..i];
      PrefixFollows(before, i);
      LastFollows(run);
      FollowsTransitive(After(run[..i]), After(before), After(run), ANY_DOB);
    }
  }

  lemma {:induction false} LastFollows(run: seq<Event>)
    requires run != []
    ensures Follows(After(run[..|run| - 1]), After(run), ANY_DOB)
  {
    var last := |run| - 1;
    StepFollows(After(run[..last]), run[last].now, run[last].request, ANY_DOB);
  }

  lemma RunFollows(run: seq<Event>, i: nat, j: nat)
    requires i <= j <= |run|
    ensures Follows(After(run[..i]), After(run[..j]), ANY_DOB)
  {
    assert run[..j][..i] == run[..i];
    PrefixFollows(run[..j], i);
  }

  // ─── The age gate ──────────────────────────────────────────────────────────

  lemma OldEnoughFollows(db: Db, db': Db, now: Time)
    requires EveryoneOldEnough(db, now) && Follows(db, db', Adults(now))
    ensures EveryoneOldEnough(db', now)
  {
    forall u | Live(db', u)
      ensures Qualifies(db'.users[u].dob, now)
    {
      if u in db.users { assert Live(db, u); } else { assert db'.users[u].dob in Adults(now); }
    }
    forall p | p in db'.pendings
      ensures Qualifies(Some(db'.pendings[p].dob), now)
    {
      if p !in db.pendings || db'.pendings[p] != db.pendings[p] { assert Some(db'.pendings[p].dob) in Adults(now); }
    }
  }

  lemma StepKeepsAges(db: Db, now: Time, request: Request, later: Time)
    requires Inv(db) && EveryoneOldEnough(db, now) && 0 <= now <= later
    ensures EveryoneOldEnough(Step(db, now, request).db, later)
  {
    StepFollows(db, now, request, Adults(now));
    OldEnoughFollows(db, Step(db, now, request).db, now);
    EveryoneOldEnoughLater(Step(db, now, request).db, now, later);
  }

  /** In every state of every run, and ever after, each live user and each pending signup is old enough. */
  lemma {:induction false} EveryUserIsOldEnough(run: seq<Event>, later: Time)
    requires InOrder(run) && 0 <= later && (run == [] || run[|run| - 1].now <= later)
    ensures EveryoneOldEnough(After(run), later)
  {
    if run != [] {
      var last := |run| - 1;
      var before, event := run[..last], run[last];
      EveryUserIsOldEnough(before, event.now);
      StepKeepsAges(After(before), event.now, event.request, later);
    }
  }

  // ─── Sessions do not come back ─────────────────────────────────────────────

  lemma GoneForGood(run: seq<Event>, i: nat, j: nat, s: Id)
    requires i <= j <= |run|
    requires s < After(run[..i]).next && s !in After(run[..i]).sessions
    ensures s !in After(run[..j]).sessions
  {
    RunFollows(run, i, j);
  }

  /** The user whose every session the action ends, when it is answered so. */
  function ActionEnds(u: Id, action: Action, answer: Outcome): Option<Id> {
    match action
    case Change(_, _) => if answer.SessionStarted? then Some(u) else None
    case LogOut(target) => if answer == Done then Some(target) else None
    case Suspend(target, suspended) => if answer == Done && suspended then Some(target) else None
    case AnonymiseUser(target, _) => if answer == Done then Some(target) else None
    case DeleteMyself(_, _) => if answer == Done then Some(u) else None
    case _ => None
  }

  function EndsSessionsOf(db: Db, request: Request, answer: Outcome): Option<Id> {
    match request
    case Reset(t, _) => if answer == Done && t in db.tokens then Some(db.tokens[t].userId) else None
    case As(s, action) => if s in db.sessions then ActionEnds(db.sessions[s].userId, action, answer) else None
    case _ => None
  }

  ghost predicate NoneOf(sessions: map<Id, Session>, u: Id, next: Id) {
    forall s :: s in sessions && s < next ==> sessions[s].userId != u
  }

  lemma ResetEndsSessions(db: Db, now: Time, t: Id, password: string)
    requires OwnersExist(db) && ResetPassword(db, now, t, password).outcome == Done
    ensures NoneOf(ResetPassword(db, now, t, password).db.sessions, db.tokens[t].userId, db.next)
  {
    ResetPasswordWrites(db, now, t, password);
  }

  lemma ChangeEndsSessions(db: Db, now: Time, u: Id, current: string, password: string)
    requires ChangePassword(db, now, u, current, password).outcome.SessionStarted?
    ensures NoneOf(ChangePassword(db, now, u, current, password).db.sessions, u, db.next)
  {
  }

  lemma AnonymiseEndsSessions(db: Db, u: Id, p: Pseudonym)
    requires u in db.users && AnonymiseAccount(db, u, p).outcome == Done
    ensures NoneOf(AnonymiseAccount(db, u, p).db.sessions, u, db.next)
  {
  }

  lemma ActEndsSessions(db: Db, now: Time, u: Id, s: Id, action: Action)
    requires u in db.users
    requires ActionEnds(u, action, Act(db, now, u, s, action).outcome).Some?
    ensures var r := Act(db, now, u, s, action); NoneOf(r.db.sessions, ActionEnds(u, action, r.outcome).value, db.next)
  {
    match action
    case Change(current, password) => ChangeEndsSessions(db, now, u, current, password);
    case LogOut(target) =>
    case Suspend(target, suspended) =>
    case AnonymiseUser(target, p) => AnonymiseEndsSessions(db, target, p);
    case DeleteMyself(proof, p) => AnonymiseEndsSessions(AssertRecentlyAuthenticated(db, now, u, s, proof).db, u, p);
  }

  lemma ActAsEndsSessions(db: Db, now: Time, s: Id, action: Action)
    requires OwnersExist(db) && EndsSessionsOf(db, As(s, action), ActAs(db, now, s, action).outcome).Some?
    ensures NoneOf(ActAs(db, now, s, action).db.sessions,
                   EndsSessionsOf(db, As(s, action), ActAs(db, now, s, action).outcome).value, db.next)
  {
    var valid, u := ValidateSession(db, now, s), db.sessions[s].userId;
    if valid.outcome.SessionValid? {
      ActEndsSessions(valid.db, now, u, s, action);
    }
  }

  lemma StepEndsSessions(db: Db, now: Time, request: Request)
    requires OwnersExist(db) && EndsSessionsOf(db, request, Step(db, now, request).outcome).Some?
    ensures var r := Step(db, now, request);
      NoneOf(r.db.sessions, EndsSessionsOf(db, request, r.outcome).value, db.next)
  {
    match request
    case Reset(t, password) => ResetEndsSessions(db, now, t, password);
    case As(s, action) => ActAsEndsSessions(db, now, s, action);
    case _ =>
  }

  lemma StepRefusesGone(db: Db, now: Time, s: Id, action: Action)
    requires OwnersExist(db) && s !in db.sessions
    ensures Step(db, now, As(s, action)) == Refuse(db, Unauthenticated)
  {
  }

  lemma EndedNow(run: seq<Event>, i: nat, s: Id)
    requires i < |run| && s in After(run[..i]).sessions
    requires EndsSessionsOf(After(run[..i]), run[i].request, Answer(run, i)) == Some(After(run[..i]).sessions[s].userId)
    ensures s < After(run[..i + 1]).next && s !in After(run[..i + 1]).sessions
  {
    AfterOneMore(run, i);
    StepEndsSessions(After(run[..i]), run[i].now, run[i].request);
    RunFollows(run, i, i + 1);
    KnownIds(After(run[..i]), s);
  }

  lemma KnownIds(db: Db, s: Id)
    requires Inv(db) && s in db.sessions
    ensures s < db.next
  {
  }

  /** After a reset, a password change, a forced logout, a suspension or a deletion, no session the user
      held before is ever accepted again: not even once the suspension is lifted. Asking with one is
      refused and changes nothing. */
  lemma OldSessionsStayRefused(run: seq<Event>, i: nat, j: nat, s: Id, action: Action)
    requires i < j < |run|
    requires s in After(run[..i]).sessions
    requires EndsSessionsOf(After(run[..i]), run[i].request, Answer(run, i)) == Some(After(run[..i]).sessions[s].userId)
    requires run[j].request == As(s, action)
    ensures Answer(run, j) == Refused(Unauthenticated)
    ensures After(run[..j + 1]) == After(run[..j])
  {
    EndedNow(run, i, s);
    GoneForGood(run, i + 1, j, s);
    StepRefusesGone(After(run[..j]), run[j].now, s, action);
    AfterOneMore(run, j);
  }

  lemma ActNeverUnauthenticated(db: Db, now: Time, u: Id, s: Id, action: Action)
    requires u in db.users
    ensures Act(db, now, u, s, action).outcome != Refused(Unauthenticated)
  {
    match action
    case Whoami =>
    case SignOut =>
    case Change(current, password) =>
    case ProveWithGoogle(googleId) =>
    case Unlink(provider, target) =>
    case AskForNewEmail(newEmail, proof) =>
    case SetUpAccount(username) =>
    case EditProfile(username, dob) =>
    case AcceptInvitation =>
    case DeleteMyself(proof, p) =>
    case Suspend(target, suspended) =>
    case LogOut(target) =>
    case ChangeRoles(target, add, remove) =>
    case AnonymiseUser(target, p) =>
  }

  predicate Admitted(db: Db, now: Time, s: Id) {
    && s in db.sessions && now <= db.sessions[s].expiresAt
    && Live(db, db.sessions[s].userId) && !db.users[db.sessions[s].userId].suspended
  }

  /** What a signed-in request does, once it is known whether its session is good. */
  lemma ActAsIs(db: Db, now: Time, s: Id, action: Action)
    requires OwnersExist(db)
    ensures var valid, r := ValidateSession(db, now, s), ActAs(db, now, s, action);
      && valid.db.users == db.users
      && if Admitted(db, now, s)
         then var u := db.sessions[s].userId;
           valid.outcome == SessionValid(u) && Live(valid.db, u) && r == Act(valid.db, now, u, s, action)
         else r == Result(valid.db, Refused(Unauthenticated))
  {
  }

  /** A signed-in request gets past the door exactly when its session has not run out and its holder is
      neither deleted nor suspended. */
  lemma AdmittedIff(db: Db, now: Time, s: Id, action: Action)
    requires OwnersExist(db)
    ensures Step(db, now, As(s, action)).outcome != Refused(Unauthenticated) <==> Admitted(db, now, s)
  {
    var valid := ValidateSession(db, now, s);
    if valid.outcome.SessionValid? {
      ActNeverUnauthenticated(valid.db, now, valid.outcome.user, s, action);
    }
  }

  /** Being let in rolls the session over: with nothing in between, it is let in again for 30 days and not
      after. */
  lemma SessionsRollOver(db: Db, now: Time, s: Id, later: Time, action: Action)
    requires OwnersExist(db) && Step(db, now, As(s, Whoami)).outcome == Done
    ensures var db' := Step(db, now, As(s, Whoami)).db;
      && OwnersExist(db')
      && (Step(db', later, As(s, action)).outcome != Refused(Unauthenticated) <==> later <= now + 2_592_000_000)
  {
    AdmittedIff(db, now, s, Whoami);
    AdmittedIff(ValidateSession(db, now, s).db, later, s, action);
  }

  // ─── Tokens act once ───────────────────────────────────────────────────────

  /** The token a request is made with. */
  function TokenOf(request: Request): Option<Id> {
    match request
    case LinkAccounts(t, _) => Some(t)
    case Verify(t) => Some(t)
    case Reset(t, _) => Some(t)
    case ConfirmAddress(t) => Some(t)
    case _ => None
  }

  /** The token has been handed out and cannot be used: it is marked, or was cleaned up since. */
  predicate Finished(db: Db, t: Id) {
    t < db.next && (t in db.tokens ==> db.tokens[t].used)
  }

  lemma KnownToken(db: Db, t: Id)
    requires Inv(db) && t in db.tokens
    ensures t < db.next
  {
  }

  predicate Marked(db: Db, db': Db, t: Id) {
    t in db.tokens && t in db'.tokens && db'.tokens[t].used && db.next <= db'.next
  }

  lemma LinkMarks(db: Db, now: Time, t: Id, password: string)
    requires Inv(db) && !LinkGoogle(db, now, t, password).outcome.Refused?
    ensures Marked(db, LinkGoogle(db, now, t, password).db, t)
  {
    LinkGoogleWrites(db, now, t, password);
  }

  lemma ResetMarks(db: Db, now: Time, t: Id, password: string)
    requires OwnersExist(db) && !ResetPassword(db, now, t, password).outcome.Refused?
    ensures Marked(db, ResetPassword(db, now, t, password).db, t)
  {
    ResetPasswordWrites(db, now, t, password);
  }

  lemma ConfirmMarks(db: Db, now: Time, t: Id)
    requires Inv(db) && !ConfirmEmailChange(db, now, t).outcome.Refused?
    ensures Marked(db, ConfirmEmailChange(db, now, t).db, t)
  {
    ConfirmEmailChangeWrites(db, now, t);
  }

  lemma StepFinishes(db: Db, now: Time, request: Request, t: Id)
    requires Inv(db) && TokenOf(request) == Some(t) && !Step(db, now, request).outcome.Refused?
    ensures Finished(Step(db, now, request).db, t)
  {
    match request {
      case LinkAccounts(_, password) => LinkMarks(db, now, t, password);
      case Verify(_) =>
      case Reset(_, password) => ResetMarks(db, now, t, password);
      case ConfirmAddress(_) => ConfirmMarks(db, now, t);
    }
    KnownToken(db, t);
  }

  lemma FinishedIsRefused(db: Db, now: Time, request: Request, t: Id)
    requires OwnersExist(db) && TokenOf(request) == Some(t) && Finished(db, t)
    ensures Step(db, now, request) == Refuse(db, TokenInvalid)
  {
  }

  /** A token that has been acted on is refused from then on, for whatever purpose it is offered. */
  lemma TokensActOnce(run: seq<Event>, i: nat, j: nat, t: Id)
    requires i < j < |run| && TokenOf(run[i].request) == Some(t) && TokenOf(run[j].request) == Some(t)
    requires !Answer(run, i).Refused?
    ensures Answer(run, j) == Refused(TokenInvalid)
    ensures After(run[..j + 1]) == After(run[..j])
  {
    AfterOneMore(run, i);
    StepFinishes(After(run[..i]), run[i].now, run[i].request, t);
    StaysFinished(run, i + 1, j, t);
    FinishedIsRefused(After(run[..j]), run[j].now, run[j].request, t);
    AfterOneMore(run, j);
  }

  lemma StaysFinished(run: seq<Event>, i: nat, j: nat, t: Id)
    requires i <= j <= |run| && Finished(After(run[..i]), t)
    ensures Finished(After(run[..j]), t)
  {
    RunFollows(run, i, j);
  }

  predicate Redeemable(db: Db, now: Time, p: Id) {
    p in db.pendings && now <= db.pendings[p].expiresAt
  }

  /** The clean-up job takes nothing anybody can still use: from then on exactly the same sessions are let
      in, the same tokens may be acted on and the same pending signups redeemed as without it. */
  lemma CleanUpTakesNothingUsable(db: Db, now: Time, later: Time)
    requires OwnersExist(db) && now <= later
    ensures var cleaned := Step(db, now, CleanUp).db;
      && (forall s :: Admitted(cleaned, later, s) <==> Admitted(db, later, s))
      && (forall t, kind :: TokenRefusal(cleaned, later, t, kind).None? <==> TokenRefusal(db, later, t, kind).None?)
      && (forall p :: Redeemable(cleaned, later, p) <==> Redeemable(db, later, p))
  {
    var cleaned := CleanUpExpired(db, now);
    assert Step(db, now, CleanUp).db == cleaned;
    assert forall s :: Live(cleaned, s) == Live(db, s);
  }

  /** An unused email-change token names its user's pending address exactly while that user lives. */
  lemma {:induction false} ChangeTokensNamePending(run: seq<Event>, t: Id)
    requires UsableToken(After(run), t, EMAIL_CHANGE)
    ensures var db := After(run);
      NamesPending(db.users[db.tokens[t].userId], db.tokens[t]) <==> Live(db, db.tokens[t].userId)
  {
    var db := After(run);
    assert TokensNamePending(db.users, db.tokens) && EmailsNormal(db.users);
  }
}
