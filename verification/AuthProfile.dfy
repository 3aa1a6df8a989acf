/** The date of birth on file: which requests change it, when they may, and what it is along a run. */
module AuthProfile {
  import opened Text
  import opened AuthTables
  import opened AuthSpec
  import opened AuthInvariant
  import opened AuthRuns
  import opened AuthGuarantees
  import opened AuthIdentity

  // ─── One request ───────────────────────────────────────────────────────────

  /** Nobody else holds the name asked for, and no row of anybody else has it. */
  predicate NameFree(db: Db, u: Id, username: Option<string>) {
    && (Given(username) ==> !NameHeldByOther(db, u, username.value))
    && (username.Some? ==> !NameRowOfOther(db, u, Lower(username.value)))
  }

  /** The date of birth the action puts on its user: one that qualifies, under a name that is free. */
  function Corrects(db: Db, now: Time, u: Id, action: Action): Option<Time> {
    if Qualifies(CorrectedDob(action), now) && NameFree(db, u, action.username) then CorrectedDob(action) else None
  }

  /** The date of birth the request puts on the user: it has to come in that user's own session, and the
      session has to be let in. */
  function Correction(db: Db, now: Time, request: Request, u: Id): Option<Time> {
    if request.As? && Admitted(db, now, request.session) && db.sessions[request.session].userId == u
    then Corrects(db, now, u, request.action)
    else None
  }

  function Corrected(dob: Option<Time>, correction: Option<Time>): Option<Time> {
    if correction.Some? then correction else dob
  }

  /** Whoever lives on keeps the date of birth, but for `u`, who gets the correction. */
  ghost predicate DatesAre(users: Users, users': Users, u: Id, correction: Option<Time>) {
    forall v :: v in users && LiveIn(users', v) ==>
      users'[v].dob == Corrected(users[v].dob, if v == u then correction else None)
  }

  lemma UndisturbedDates(db: Db, db': Db, u: Id)
    requires StandingKept(db, db')
    ensures DatesAre(db.users, db'.users, u, None)
  {
  }

  lemma EditDates(db: Db, now: Time, u: Id, username: Option<string>, dob: Option<Option<Time>>)
    requires Live(db, u)
    ensures var r := UpdateOwnProfile(db, now, u, username, dob);
      var correction := Corrects(db, now, u, EditProfile(username, dob));
      && DatesAre(db.users, r.db.users, u, correction)
      && (dob.Some? ==> (r.outcome == Done <==> correction.Some?))
  {
  }

  lemma DeletionDates(db: Db, u: Id, p: Pseudonym, v: Id)
    requires u in db.users
    ensures DatesAre(db.users, AnonymiseAccount(db, u, p).db.users, v, None)
  {
  }

  lemma SelfDeleteDates(db: Db, now: Time, u: Id, s: Id, proof: Option<string>, p: Pseudonym)
    requires u in db.users
    ensures DatesAre(db.users, SelfDelete(db, now, u, s, proof, p).db.users, u, None)
  {
    var proved := AssertRecentlyAuthenticated(db, now, u, s, proof).db;
    ProofWrites(db, now, u, s, proof);
    assert proved.users == db.users;
    DeletionDates(proved, u, p, u);
  }

  /** The other actions that change somebody's standing. */
  lemma StandingDates(db: Db, now: Time, u: Id, s: Id, action: Action)
    requires u in db.users
    requires action.AcceptInvitation? || action.Suspend? || action.ChangeRoles? || action.AnonymiseUser?
    ensures DatesAre(db.users, Act(db, now, u, s, action).db.users, u, None)
  {
    if action.AnonymiseUser? && action.target in db.users {
      DeletionDates(db, action.target, action.pseudonym, u);
    }
  }

  lemma ActDates(db: Db, now: Time, u: Id, s: Id, action: Action)
    requires Live(db, u)
    ensures DatesAre(db.users, Act(db, now, u, s, action).db.users, u, Corrects(db, now, u, action))
  {
    if action.EditProfile? {
      EditDates(db, now, u, action.username, action.dob);
    } else if !ChangesStanding(action) {
      ActUndisturbed(db, now, u, s, action);
      UndisturbedDates(db, Act(db, now, u, s, action).db, u);
    } else if action.DeleteMyself? {
      SelfDeleteDates(db, now, u, s, action.proof, action.pseudonym);
    } else {
      StandingDates(db, now, u, s, action);
    }
  }

  lemma SameUsersSameCorrection(db: Db, db': Db, now: Time, u: Id, action: Action)
    requires db'.users == db.users
    ensures Corrects(db', now, u, action) == Corrects(db, now, u, action)
  {
    if action.EditProfile? && action.username.Some? {
      var name := action.username.value;
      assert NameHeldByOther(db, u, name) == NameHeldByOther(db', u, name);
      assert NameRowOfOther(db, u, Lower(name)) == NameRowOfOther(db', u, Lower(name));
    }
  }

  predicate DateIs(users: Users, users': Users, u: Id, correction: Option<Time>) {
    u in users && LiveIn(users', u) ==> users'[u].dob == Corrected(users[u].dob, correction)
  }

  lemma ActAsDates(db: Db, now: Time, s: Id, action: Action, u: Id)
    requires OwnersExist(db)
    ensures DateIs(db.users, ActAs(db, now, s, action).db.users, u, Correction(db, now, As(s, action), u))
  {
    ActAsIs(db, now, s, action);
    if Admitted(db, now, s) {
      var valid, actor := ValidateSession(db, now, s).db, db.sessions[s].userId;
      SameUsersSameCorrection(db, valid, now, actor, action);
      ActDates(valid, now, actor, s, action);
    }
  }

  lemma RegisterDates(
    db: Db, now: Time, rawEmail: string, password: string, username: string, dob: Option<Time>, known: bool, u: Id)
    requires Inv(db)
    ensures DateIs(db.users, Register(db, now, rawEmail, password, username, dob, known).db.users, u, None)
  {
    RegisterMakes(db, now, rawEmail, password, username, dob, known);
  }

  lemma GoogleDates(
    db: Db, now: Time, googleId: string, rawEmail: string, emailVerified: bool, pending: Option<Id>, random: string,
    u: Id)
    requires Inv(db)
    ensures DateIs(db.users, GoogleLogin(db, now, googleId, rawEmail, emailVerified, pending, random).db.users, u, None)
  {
    GoogleLoginMakes(db, now, googleId, rawEmail, emailVerified, pending, random);
  }

  lemma SignUpDates(db: Db, now: Time, request: Request, u: Id)
    requires Inv(db) && (request.SignUp? || request.ReturnFromGoogle?)
    ensures DateIs(db.users, Step(db, now, request).db.users, u, None)
  {
    match request
    case SignUp(rawEmail, password, username, dob, known) =>
      RegisterDates(db, now, rawEmail, password, username, dob, known, u);
    case ReturnFromGoogle(googleId, rawEmail, verified, pending, random) =>
      GoogleDates(db, now, googleId, rawEmail, verified, pending, random, u);
  }

  lemma GrantDates(db: Db, rawEmail: string, allowUnverified: bool, u: Id)
    ensures DateIs(db.users, GrantAdmin(db, rawEmail, allowUnverified).db.users, u, None)
  {
  }

  lemma OutsideDates(db: Db, now: Time, request: Request, u: Id)
    requires Inv(db) && FromOutside(request)
    ensures DateIs(db.users, Step(db, now, request).db.users, u, None)
  {
    OutsideUndisturbed(db, now, request);
  }

  lemma OthersDates(db: Db, now: Time, request: Request, u: Id)
    requires Inv(db) && !request.As?
    ensures DateIs(db.users, Step(db, now, request).db.users, u, None)
  {
    if request.SignUp? || request.ReturnFromGoogle? {
      SignUpDates(db, now, request, u);
    } else if request.Bootstrap? {
      GrantDates(db, request.rawEmail, request.allowUnverified, u);
    } else {
      OutsideDates(db, now, request, u);
    }
  }

  lemma StepDates(db: Db, now: Time, request: Request, u: Id)
    requires Inv(db)
    ensures DateIs(db.users, Step(db, now, request).db.users, u, Correction(db, now, request, u))
  {
    if request.As? {
      AsIsActAs(db, now, request.session, request.action);
      ActAsDates(db, now, request.session, request.action, u);
    } else {
      OthersDates(db, now, request, u);
    }
  }

  /** A live user's date of birth is changed by exactly one kind of request: an edit of the profile in an
      admitted session of that user, under a free name, with another date, which qualifies. It is then the
      date asked for. Every other request, whoever's, leaves it as it was. */
  lemma BirthDateChangesIff(db: Db, now: Time, request: Request, u: Id)
    requires Inv(db) && Live(db, u) && Live(Step(db, now, request).db, u)
    ensures var db', correction := Step(db, now, request).db, Correction(db, now, request, u);
      && (db'.users[u].dob != db.users[u].dob <==> correction.Some? && correction != db.users[u].dob)
      && (correction.Some? ==> db'.users[u].dob == correction && Qualifies(correction, now))
  {
    StepDates(db, now, request, u);
  }

  /** The edit is answered as done exactly when it is granted on the state it meets. */
  lemma CorrectionGrantedIff(db: Db, now: Time, s: Id, username: Option<string>, dob: Option<Time>)
    requires OwnersExist(db) && s in db.sessions
    ensures var edit := EditProfile(username, Some(dob));
      ActAs(db, now, s, edit).outcome == Done <==> Correction(db, now, As(s, edit), db.sessions[s].userId).Some?
  {
    var edit := EditProfile(username, Some(dob));
    ActAsIs(db, now, s, edit);
    if Admitted(db, now, s) {
      var valid, actor := ValidateSession(db, now, s).db, db.sessions[s].userId;
      SameUsersSameCorrection(db, valid, now, actor, edit);
      EditDates(valid, now, actor, username, Some(dob));
    }
  }

  // ─── Along a run ───────────────────────────────────────────────────────────

  /** From the tables before an event to those after it: rows stay, nobody comes back to life, and whoever
      lives on has the date there was, corrected. */
  ghost predicate DateGoesOn(before: Db, event: Event, after: Db, u: Id) {
    u in before.users ==>
      && u in after.users
      && (Live(after, u) ==>
            && Live(before, u)
            && after.users[u].dob
                 == Corrected(before.users[u].dob, Correction(before, event.now, event.request, u)))
  }

  lemma StepGoesOn(before: Db, event: Event, u: Id)
    requires Inv(before)
    ensures DateGoesOn(before, event, Step(before, event.now, event.request).db, u)
  {
    StepFollows(before, event.now, event.request, ANY_DOB);
    StepDates(before, event.now, event.request, u);
  }

  /** The tables at the start of a run and after each of its events. */
  ghost function States(run: seq<Event>): (states: seq<Db>)
    ensures |states| == |run| + 1
  {
    if run == [] then [After([])] else States(run[..|run| - 1]) + [After(run)]
  }

  lemma {:induction false} StateIs(run: seq<Event>, k: nat)
    requires k <= |run|
    ensures States(run)[k] == After(run[..k])
  {
    if k == |run| {
      assert run[..k] == run;
    } else {
      var before := run[..|run| - 1];
      assert before[..k] == run[..k];
      StateIs(before, k);
    }
  }

  lemma {:induction false} OneMoreGoesOn(run: seq<Event>, k: nat, u: Id)
    requires k < |run|
    ensures DateGoesOn(States(run)[k], run[k], States(run)[k + 1], u)
  {
    StateIs(run, k);
    StateIs(run, k + 1);
    AfterOneMore(run, k);
    StepGoesOn(After(run[..k]), run[k], u);
  }

  /** The last correction granted by the events from the i-th up to the j-th, or what was on file at the
      i-th if there was none. */
  function LastCorrected(states: seq<Db>, run: seq<Event>, i: nat, j: nat, u: Id): Option<Time>
    requires i <= j <= |run| < |states| && u in states[i].users
    decreases j - i
  {
    if i == j then states[i].users[u].dob
    else
      Corrected(LastCorrected(states, run, i, j - 1, u),
                Correction(states[j - 1], run[j - 1].now, run[j - 1].request, u))
  }

  ghost predicate DateAlong(states: seq<Db>, run: seq<Event>, i: nat, j: nat, u: Id)
    requires i <= j <= |run| < |states| && u in states[i].users
  {
    && u in states[j].users
    && (Live(states[j], u) ==>
          Live(states[i], u) && states[j].users[u].dob == LastCorrected(states, run, i, j, u))
  }

  lemma {:induction false} DatesGoOn(states: seq<Db>, run: seq<Event>, i: nat, j: nat, u: Id)
    requires i <= j <= |run| < |states| && u in states[i].users
    requires forall k :: 0 <= k < |run| ==> DateGoesOn(states[k], run[k], states[k + 1], u)
    ensures DateAlong(states, run, i, j, u)
    decreases j - i
  {
    if i < j {
      DatesGoOn(states, run, i, j - 1, u);
      assert DateGoesOn(states[j - 1], run[j - 1], states[j - 1 + 1], u);
    }
  }

  /** As long as a user lives, the date of birth on file is the last correction granted, or the first one
      given if there was none. */
  lemma {:induction false} BirthDateAlong(run: seq<Event>, i: nat, j: nat, u: Id)
    requires i <= j <= |run| && u in States(run)[i].users
    ensures DateAlong(States(run), run, i, j, u)
  {
    forall k | 0 <= k < |run|
      ensures DateGoesOn(States(run)[k], run[k], States(run)[k + 1], u)
    {
      OneMoreGoesOn(run, k, u);
    }
    DatesGoOn(States(run), run, i, j, u);
  }
}
