/** Suspension: who may suspend whom, what it does to the one suspended, and that it lasts, along any run, until
    it is lifted. */
module AuthSuspension {
  import opened Text
  import opened AuthTables
  import opened AuthSpec
  import opened AuthRuns
  import opened AuthGuarantees
  import opened AuthRows
  import opened AuthJourneys
  import Lockout

  /** The request comes in an admitted session of an administrator. */
  predicate ByAdmin(db: Db, now: Time, s: Id) {
    Admitted(db, now, s) && ADMIN in db.users[db.sessions[s].userId].roles
  }

  // ─── One request ───────────────────────────────────────────────────────────

  lemma SuspendingIs(db: Db, u: Id, target: Id, suspended: bool)
    requires u in db.users
    ensures var r := SetSuspended(db, u, target, suspended);
      && (r.outcome == Done <==> ADMIN in db.users[u].roles && target != u && target in db.users)
      && (r.outcome == Done ==>
            && r.db.accounts == db.accounts && r.db.tokens == db.tokens && r.db.lockouts == db.lockouts
            && (forall t :: t in r.db.sessions <==>
                  t in db.sessions && !(suspended && db.sessions[t].userId == target))
            && forall t :: t in r.db.sessions ==> r.db.sessions[t] == db.sessions[t])
  {
  }

  lemma AskedToSuspend(db: Db, now: Time, s: Id, target: Id, suspended: bool, r: Result)
    requires OwnersExist(db) && r == ActAs(db, now, s, Suspend(target, suspended))
    ensures r.outcome == Done <==> ByAdmin(db, now, s) && target != db.sessions[s].userId && target in db.users
    ensures r.outcome == Done ==> r.db.accounts == db.accounts && r.db.lockouts == db.lockouts
  {
    ActAsIs(db, now, s, Suspend(target, suspended));
    if Admitted(db, now, s) {
      var valid := ValidateSession(db, now, s).db;
      SuspendingIs(valid, db.sessions[s].userId, target, suspended);
      assert valid.accounts == db.accounts && valid.lockouts == db.lockouts;
    }
  }

  lemma SuspendTable(db: Db, s: Id, target: Id, suspended: bool, r: Result)
    requires RowsAfter(db, As(s, Suspend(target, suspended)), r) && s in db.sessions && r.outcome == Done
    ensures forall u :: u in db.users ==>
      u in r.db.users && r.db.users[u] == if u == target then db.users[u].(suspended := suspended) else db.users[u]
  {
  }

  /** A suspension, or its end, is granted exactly to an administrator about somebody else; the target's flag
      is then the one asked for, and no other column of any row has changed. */
  lemma SuspensionGrantedIff(db: Db, now: Time, s: Id, target: Id, suspended: bool)
    requires Inv(db)
    ensures var r := Step(db, now, As(s, Suspend(target, suspended)));
      && (r.outcome == Done <==>
            ByAdmin(db, now, s) && target != db.sessions[s].userId && target in db.users)
      && (r.outcome == Done ==>
            && target in db.users && target in r.db.users
            && r.db.users[target] == db.users[target].(suspended := suspended)
            && (forall u :: u in db.users && u != target ==> u in r.db.users && r.db.users[u] == db.users[u])
            && r.db.accounts == db.accounts && r.db.lockouts == db.lockouts)
  {
    var action := Suspend(target, suspended);
    AsIsActAs(db, now, s, action);
    AskedToSuspend(db, now, s, target, suspended, ActAs(db, now, s, action));
    StepRows(db, now, As(s, action));
    if Step(db, now, As(s, action)).outcome == Done {
      SuspendTable(db, s, target, suspended, Step(db, now, As(s, action)));
    }
  }

  predicate Suspended(db: Db, u: Id) {
    u in db.users && db.users[u].suspended
  }

  /** The request is the end of the user's suspension, granted. */
  predicate Lifts(request: Request, answer: Outcome, u: Id) {
    request.As? && request.action == Suspend(u, false) && answer == Done
  }

  /** Nothing else ends a suspension. */
  lemma StaysSuspended(db: Db, now: Time, request: Request, u: Id)
    requires Inv(db) && Suspended(db, u)
    ensures var r := Step(db, now, request); Suspended(r.db, u) || Lifts(request, r.outcome, u)
  {
    StepRows(db, now, request);
    TableKeepsSuspension(db, request, Step(db, now, request), u);
  }

  lemma TableKeepsSuspension(db: Db, request: Request, r: Result, u: Id)
    requires RowsAfter(db, request, r) && Suspended(db, u)
    ensures Suspended(r.db, u) || Lifts(request, r.outcome, u)
  {
  }

  // ─── What it does ──────────────────────────────────────────────────────────

  /** No session of a suspended user is let in. */
  lemma SuspendedIsKeptOut(db: Db, now: Time, s: Id, action: Action)
    requires OwnersExist(db) && s in db.sessions && Suspended(db, db.sessions[s].userId)
    ensures ActAs(db, now, s, action).outcome == Refused(Unauthenticated)
  {
    ActAsIs(db, now, s, action);
  }

  /** No sign-in starts a session of a suspended user; the right password on a verified address, the lock not
      being in force, is answered by the suspension, and nothing changes. */
  lemma SuspendedCannotSignIn(db: Db, now: Time, rawEmail: string, password: string, u: Id)
    requires Inv(db) && Suspended(db, u)
    ensures var r := Login(db, now, rawEmail, password);
      && (r.outcome.SessionStarted? ==> r.outcome.user != u)
      && ((exists a :: Opens(db, u, a, rawEmail, password)) && db.users[u].verified
          && !Lockout.Locked(Lockout.Look(db.lockouts, Normalize(rawEmail)), now) ==>
            r == Refuse(db, AccountSuspended))
  {
    if a :| Opens(db, u, a, rawEmail, password) {
      OpensIsFound(db, u, a, rawEmail, password);
    }
    if Login(db, now, rawEmail, password).outcome.SessionStarted? { LoginIsTheirs(db, now, rawEmail, password); }
  }

  /** Nor does Google: an identity linked to a suspended user is answered by the suspension. */
  lemma SuspendedCannotReturn(
    db: Db, now: Time, a: Id, googleId: string, rawEmail: string, verified: bool, pending: Option<Id>, random: string)
    requires Inv(db) && IsAccount(db, a, GOOGLE, googleId)
    requires Live(db, db.accounts[a].userId) && Suspended(db, db.accounts[a].userId)
    ensures GoogleLogin(db, now, googleId, rawEmail, verified, pending, random) == Refuse(db, AccountSuspended)
  {
    LinkedIdentitySignsIn(db, now, a, googleId, rawEmail, verified, pending, random);
  }

  // ─── Along a run ───────────────────────────────────────────────────────────

  /** From the i-th request up to the j-th nobody lifts the suspension. */
  ghost predicate NotLifted(run: seq<Event>, i: nat, j: nat, u: Id)
    requires j <= |run|
  {
    forall k :: i <= k < j ==> !Lifts(run[k].request, Answer(run, k), u)
  }

  lemma StillSuspended(run: seq<Event>, k: nat, u: Id)
    requires k < |run| && Suspended(After(run[..k]), u) && !Lifts(run[k].request, Answer(run, k), u)
    ensures Suspended(After(run[..k + 1]), u)
  {
    AfterOneMore(run, k);
    StaysSuspended(After(run[..k]), run[k].now, run[k].request, u);
  }

  lemma {:induction false} SuspensionLasts(run: seq<Event>, i: nat, j: nat, u: Id)
    requires i <= j <= |run| && Suspended(After(run[..i]), u) && NotLifted(run, i, j, u)
    ensures Suspended(After(run[..j]), u)
    decreases j - i
  {
    if i < j {
      SuspensionLasts(run, i, j - 1, u);
      StillSuspended(run, j - 1, u);
    }
  }

  lemma SuspendedNow(run: seq<Event>, i: nat, s: Id, u: Id)
    requires i < |run| && run[i].request == As(s, Suspend(u, true)) && Answer(run, i) == Done
    ensures Suspended(After(run[..i + 1]), u)
  {
    AfterOneMore(run, i);
    SuspensionGrantedIff(After(run[..i]), run[i].now, s, u, true);
  }

  /** From a granted suspension until it is lifted, whatever else is asked for by whomever: the user is
      suspended, so that no session is let in, and every sign-in is answered as above. */
  lemma SuspensionHolds(run: seq<Event>, i: nat, j: nat, s: Id, u: Id)
    requires i < j <= |run| && run[i].request == As(s, Suspend(u, true)) && Answer(run, i) == Done
    requires NotLifted(run, i + 1, j, u)
    ensures Suspended(After(run[..j]), u)
  {
    SuspendedNow(run, i, s, u);
    SuspensionLasts(run, i + 1, j, u);
  }

  /** A sign-in of a suspended user with the right password, as the run answers it. */
  lemma SuspendedIsToldSo(run: seq<Event>, i: nat, j: nat, s: Id, u: Id, a: Id, rawEmail: string, password: string)
    requires i < j < |run| && run[i].request == As(s, Suspend(u, true)) && Answer(run, i) == Done
    requires NotLifted(run, i + 1, j, u) && run[j].request == SignIn(rawEmail, password)
    requires var db := After(run[..j]);
      && Opens(db, u, a, rawEmail, password) && db.users[u].verified
      && !Lockout.Locked(Lockout.Look(db.lockouts, Normalize(rawEmail)), run[j].now)
    ensures Answer(run, j) == Refused(AccountSuspended) && After(run[..j + 1]) == After(run[..j])
  {
    SuspensionHolds(run, i, j, s, u);
    SuspendedCannotSignIn(After(run[..j]), run[j].now, rawEmail, password, u);
    AfterOneMore(run, j);
  }

  /** Once it is lifted, the password that was right before is right again. */
  lemma LiftedGetsIn(
    db: Db, now: Time, s: Id, u: Id, a: Id, rawEmail: string, password: string, later: Time)
    requires Inv(db) && Step(db, now, As(s, Suspend(u, false))).outcome == Done
    requires Opens(db, u, a, rawEmail, password) && db.users[u].verified
    requires !Lockout.Locked(Lockout.Look(db.lockouts, Normalize(rawEmail)), later)
    ensures var lifted := Step(db, now, As(s, Suspend(u, false))).db;
      Login(lifted, later, rawEmail, password).outcome == SessionStarted(u, lifted.next)
  {
    var lifted := Step(db, now, As(s, Suspend(u, false))).db;
    SuspensionGrantedIff(db, now, s, u, false);
    StepKeepsInv(db, now, As(s, Suspend(u, false)));
    assert Opens(lifted, u, a, rawEmail, password);
    LoginSucceedsIff(lifted, later, rawEmail, password, u);
  }
}
