/** Who is new after a request, and under which row; and what becomes of the signups that wait for Google. */
module AuthNewcomers {
  import opened Text
  import opened AuthTables
  import opened AuthSpec
  import opened AuthInvariant
  import opened AuthHistory
  import AuthIdentity
  import opened AuthRuns
  import opened AuthRows
  import opened AuthAnswers
  import opened AuthJourneys
  import opened AuthRecovery

  // ─── New users ─────────────────────────────────────────────────────────────

  /** The request, so answered, makes `u` with this row. */
  ghost predicate Makes(db: Db, request: Request, answer: Outcome, u: Id, row: User) {
    match request
    case SignUp(rawEmail, _, username, dob, _) =>
      && answer == UserCreated(u)
      && row == User(Normalize(rawEmail), username, None, dob, false, false, false, {VRATARTHI})
    case ReturnFromGoogle(_, rawEmail, _, pending, random) =>
      && answer.SessionStarted? && answer.user == u && pending.Some? && pending.value in db.pendings
      && var signup := db.pendings[pending.value];
         row == User(Normalize(rawEmail), ClaimUsername(db, signup.username, random), None, Some(signup.dob), true,
                     false, false, {VRATARTHI})
    case _ => false
  }

  /** The rows that are new are exactly those the request makes. */
  ghost predicate NewAfter(db: Db, request: Request, r: Result) {
    && (forall u :: u in r.db.users && u !in db.users ==> Makes(db, request, r.outcome, u, r.db.users[u]))
    && (r.outcome.UserCreated? ==> r.outcome.user in r.db.users && r.outcome.user !in db.users)
    && (r.outcome.SessionStarted? ==> r.outcome.user in r.db.users)
  }

  lemma NoneIsNew(db: Db, request: Request, r: Result)
    requires forall u :: u in r.db.users ==> u in db.users
    requires !r.outcome.UserCreated? && (r.outcome.SessionStarted? ==> r.outcome.user in r.db.users)
    ensures NewAfter(db, request, r)
  {
  }

  lemma RegisterMakesOne(
    db: Db, now: Time, rawEmail: string, password: string, username: string, dob: Option<Time>, known: bool, r: Result)
    requires db.next !in db.users && r == Register(db, now, rawEmail, password, username, dob, known)
    ensures NewAfter(db, SignUp(rawEmail, password, username, dob, known), r)
  {
    RegisterWrites(db, now, rawEmail, password, username, dob, known);
    ReleaseStaleClaimFrame(db, Normalize(rawEmail));
  }

  lemma SignupMakesOne(
    db: Db, now: Time, googleId: string, email: string, pending: Option<Id>, random: string, r: Result)
    requires db.next !in db.users && r == GoogleSignup(db, now, googleId, email, pending, random)
    ensures r.outcome.SessionStarted? ==>
      && pending.Some? && pending.value in db.pendings
      && var signup := db.pendings[pending.value];
         && r.outcome.user == db.next
         && r.db.users == db.users[db.next :=
              User(email, ClaimUsername(db, signup.username, random), None, Some(signup.dob), true, false, false,
                   {VRATARTHI})]
    ensures !r.outcome.SessionStarted? ==> r.outcome.Refused? && r.db.users == db.users
  {
    SignupRefused(db, now, googleId, email, pending, random, r);
    SignupWrites(db, now, googleId, email, pending, random);
    if r.outcome.SessionStarted? {
      SameClaim(db, DeletePending(db, pending.value), db.pendings[pending.value].username, random);
    }
  }

  lemma WithoutAccountMakes(
    db: Db, now: Time, googleId: string, rawEmail: string, verified: bool, pending: Option<Id>, random: string,
    r: Result)
    requires db.next !in db.users
    requires r == GoogleWithoutAccount(db, now, googleId, rawEmail, verified, pending, random)
    ensures NewAfter(db, ReturnFromGoogle(googleId, rawEmail, verified, pending, random), r)
  {
    SignupMakesOne(db, now, googleId, Normalize(rawEmail), pending, random,
        GoogleSignup(db, now, googleId, Normalize(rawEmail), pending, random));
  }

  lemma ReleasedMakes(db: Db, released: Db, request: Request, r: Result)
    requires released.users == db.users && released.pendings == db.pendings && NewAfter(released, request, r)
    ensures NewAfter(db, request, r)
  {
    if request.ReturnFromGoogle? && request.pending.Some? && request.pending.value in db.pendings {
      SameClaim(db, released, db.pendings[request.pending.value].username, request.random);
    }
  }

  lemma ReturnMakes(
    db: Db, now: Time, googleId: string, rawEmail: string, verified: bool, pending: Option<Id>, random: string,
    r: Result)
    requires Inv(db) && r == GoogleLogin(db, now, googleId, rawEmail, verified, pending, random)
    ensures NewAfter(db, ReturnFromGoogle(googleId, rawEmail, verified, pending, random), r)
  {
    var request := ReturnFromGoogle(googleId, rawEmail, verified, pending, random);
    var account := FindAuthAccount(db, GOOGLE, googleId);
    NextIsNobody(db);
    if account.None? {
      WithoutAccountMakes(db, now, googleId, rawEmail, verified, pending, random, r);
    } else if !Live(db, db.accounts[account.value].userId) && pending.Some? {
      var released := ReleaseIdentityClaims(db, db.accounts[account.value].userId);
      WithoutAccountMakes(released, now, googleId, rawEmail, verified, pending, random, r);
      ReleasedMakes(db, released, request, r);
    } else {
      NoneIsNew(db, request, r);
    }
  }

  lemma NextIsNobody(db: Db)
    requires Inv(db)
    ensures db.next !in db.users
  {
  }

  lemma OpensOnce(db: Db, request: Request, answer: Outcome)
    requires OwnersExist(db) && !request.SignUp? && !request.ReturnFromGoogle?
    requires answer.Refused? || Answered(db, request, answer)
    ensures !answer.UserCreated? && (answer.SessionStarted? ==> answer.user in db.users)
  {
  }

  lemma OthersMakeNobody(db: Db, now: Time, request: Request, r: Result)
    requires Inv(db) && r == Step(db, now, request) && !request.ReturnFromGoogle? && !request.SignUp?
    ensures NewAfter(db, request, r)
  {
    if !AuthIdentity.NobodyNew(db, r.db) { AuthIdentity.OnlySigningUpMakesUsers(db, now, request); }
    StepIsAnswered(db, now, request);
    OpensOnce(db, request, r.outcome);
    StepRows(db, now, request);
    NoneIsNew(db, request, r);
  }

  /** Whatever the request, the rows that are new afterwards are exactly those it makes: one on a sign-up, one on
      a sign-up by Google, each holding what was chosen and nothing more than the first role. */
  lemma StepMakes(db: Db, now: Time, request: Request)
    requires Inv(db)
    ensures NewAfter(db, request, Step(db, now, request))
  {
    var r := Step(db, now, request);
    if request.ReturnFromGoogle? {
      ReturnMakes(db, now, request.googleId, request.rawEmail, request.emailVerified, request.pending,
          request.random, r);
    } else if request.SignUp? {
      NextIsNobody(db);
      RegisterMakesOne(db, now, request.rawEmail, request.password, request.username, request.dob,
          request.policiesKnown, r);
    } else {
      OthersMakeNobody(db, now, request, r);
    }
  }

  // ─── Signups that wait for Google ──────────────────────────────────────────

  /** Coming back from Google gets as far as the signup: no live user holds the identity or has the address. */
  ghost predicate ReachesSignup(db: Db, googleId: string, email: string) {
    && (forall a :: IsAccount(db, a, GOOGLE, googleId) ==> !Live(db, db.accounts[a].userId))
    && (forall u :: !IsUserByEmail(db, u, email))
  }

  /** The signup `p` after a request: taken by whoever comes back with it, good or not, or run out. */
  ghost function PendingAfter(db: Db, now: Time, request: Request, p: Id): Option<PendingSignup>
    requires p in db.pendings
  {
    var row := db.pendings[p];
    if request.ReturnFromGoogle? && request.pending == Some(p)
       && ReachesSignup(db, request.googleId, Normalize(request.rawEmail))
    then None
    else if (request.Sweep? || request.CleanUp?) && row.expiresAt < now then None
    else Some(row)
  }

  ghost predicate PendingsAfter(db: Db, now: Time, request: Request, r: Result) {
    && (forall p :: p in db.pendings ==>
          var row := PendingAfter(db, now, request, p);
          if p in r.db.pendings then row == Some(r.db.pendings[p]) else row.None?)
    && (forall p :: p in r.db.pendings && p !in db.pendings ==> r.outcome == SignupPending(p))
    && (r.outcome.SignupPending? ==>
          && request.BeginGoogle? && request.dob.Some?
          && r.outcome.pending !in db.pendings && r.outcome.pending in r.db.pendings
          && r.db.pendings[r.outcome.pending] == PendingSignup(request.username, request.dob.value, now + 900_000))
  }

  lemma BegunPendings(
    db: Db, now: Time, username: string, dob: Option<Time>, known: bool, begun: PendingSignup, r: Result)
    requires db.next !in db.pendings && dob.Some? && begun == PendingSignup(username, dob.value, now + 900_000)
    requires (r.outcome.Refused? && r.db == db)
      || (r.outcome == SignupPending(db.next) && r.db.pendings == db.pendings[db.next := begun])
    ensures PendingsAfter(db, now, BeginGoogle(username, dob, known), r)
  {
  }

  lemma BeginPendings(db: Db, now: Time, username: string, dob: Option<Time>, known: bool, r: Result)
    requires db.next !in db.pendings && r == StartGoogleSignup(db, now, username, dob, known)
    ensures PendingsAfter(db, now, BeginGoogle(username, dob, known), r)
  {
    BeginAnswers(db, now, username, dob, known, r);
    if dob.Some? {
      BegunPendings(db, now, username, dob, known, PendingSignup(username, dob.value, now + 900_000), r);
    }
  }

  lemma PendingsBelow(db: Db)
    requires Inv(db)
    ensures db.next !in db.pendings
  {
  }

  lemma NothingToTake(db: Db, now: Time, googleId: string, email: string, pending: Option<Id>, random: string)
    requires pending.None? || pending.value !in db.pendings
    ensures GoogleSignup(db, now, googleId, email, pending, random) == Refuse(db, SignupRequired)
  {
  }

  lemma NewSessionKeepsPendings(db: Db, user: User, googleId: string, now: Time)
    ensures NewGoogleSession(db, user, googleId, now).pendings == db.pendings
  {
  }

  lemma SignupTakes(db: Db, now: Time, googleId: string, email: string, p: Id, random: string, r: Result)
    requires p in db.pendings && r == GoogleSignup(db, now, googleId, email, Some(p), random)
    ensures !r.outcome.SignupPending? && r.db.pendings == db.pendings - {p}
  {
    var signup, consumed := db.pendings[p], DeletePending(db, p);
    var user := NewGoogleUser(email, ClaimUsername(consumed, signup.username, random), signup.dob);
    NewSessionKeepsPendings(consumed, user, googleId, now);
  }

  lemma WithoutAccountTakes(
    db: Db, now: Time, googleId: string, rawEmail: string, verified: bool, pending: Option<Id>, random: string,
    r: Result)
    requires r == GoogleWithoutAccount(db, now, googleId, rawEmail, verified, pending, random)
    ensures !r.outcome.SignupPending?
    ensures var reached := forall u :: !IsUserByEmail(db, u, Normalize(rawEmail));
      r.db.pendings
        == if reached && pending.Some? && pending.value in db.pendings then db.pendings - {pending.value}
           else db.pendings
  {
    if pending.Some? && pending.value in db.pendings {
      SignupTakes(db, now, googleId, Normalize(rawEmail), pending.value, random,
          GoogleSignup(db, now, googleId, Normalize(rawEmail), pending, random));
    } else {
      NothingToTake(db, now, googleId, Normalize(rawEmail), pending, random);
    }
  }

  lemma ReturnTakes(
    db: Db, now: Time, googleId: string, rawEmail: string, verified: bool, pending: Option<Id>, random: string,
    r: Result)
    requires IdentitiesUnique(db.accounts) && r == GoogleLogin(db, now, googleId, rawEmail, verified, pending, random)
    ensures !r.outcome.SignupPending?
    ensures r.db.pendings
      == if ReachesSignup(db, googleId, Normalize(rawEmail)) && pending.Some? && pending.value in db.pendings
         then db.pendings - {pending.value} else db.pendings
  {
    var account := FindAuthAccount(db, GOOGLE, googleId);
    if account.None? {
      WithoutAccountTakes(db, now, googleId, rawEmail, verified, pending, random, r);
    } else {
      forall a: Id | IsAccount(db, a, GOOGLE, googleId)
        ensures a == account.value
      {
        FindsIdentity(db, a, GOOGLE, googleId);
      }
      if !Live(db, db.accounts[account.value].userId) && pending.Some? {
        var released := ReleaseIdentityClaims(db, db.accounts[account.value].userId);
        assert forall u :: IsUserByEmail(released, u, Normalize(rawEmail)) == IsUserByEmail(db, u, Normalize(rawEmail));
        WithoutAccountTakes(released, now, googleId, rawEmail, verified, pending, random, r);
      }
    }
  }

  lemma ReturnPendings(
    db: Db, now: Time, googleId: string, rawEmail: string, verified: bool, pending: Option<Id>, random: string,
    r: Result)
    requires !r.outcome.SignupPending?
    requires r.db.pendings
      == if ReachesSignup(db, googleId, Normalize(rawEmail)) && pending.Some? && pending.value in db.pendings
         then db.pendings - {pending.value} else db.pendings
    ensures PendingsAfter(db, now, ReturnFromGoogle(googleId, rawEmail, verified, pending, random), r)
  {
  }

  lemma KeptPendings(db: Db, now: Time, request: Request, r: Result)
    requires !request.ReturnFromGoogle? && !request.Sweep? && !request.CleanUp?
    requires r.db.pendings == db.pendings
    requires !request.BeginGoogle? && (r.outcome.Refused? || Answered(db, request, r.outcome))
    ensures PendingsAfter(db, now, request, r)
  {
  }

  lemma ActKeepsPendings(db: Db, now: Time, u: Id, s: Id, action: Action, r: Result)
    requires u in db.users && !action.DeleteMyself? && !action.AskForNewEmail? && !action.AnonymiseUser?
    requires r == Act(db, now, u, s, action)
    ensures r.db.pendings == db.pendings
  {
  }

  lemma DeletingKeepsPendings(db: Db, now: Time, u: Id, s: Id, action: Action, r: Result)
    requires u in db.users && (action.DeleteMyself? || action.AnonymiseUser?) && r == Act(db, now, u, s, action)
    ensures r.db.pendings == db.pendings
  {
    if action.DeleteMyself? { ProofWrites(db, now, u, s, action.proof); }
  }

  lemma AskingKeepsPendings(db: Db, now: Time, u: Id, s: Id, newEmail: string, proof: Option<string>, r: Result)
    requires r == RequestEmailChange(db, now, u, s, newEmail, proof)
    ensures r.db.pendings == db.pendings
  {
    RequestEmailChangeWrites(db, now, u, s, newEmail, proof);
    ProofWrites(db, now, u, s, proof);
  }

  lemma ActAsKeepsPendings(db: Db, now: Time, s: Id, action: Action, r: Result)
    requires OwnersExist(db) && r == ActAs(db, now, s, action)
    ensures r.db.pendings == db.pendings
  {
    var valid := ValidateSession(db, now, s);
    assert valid.db.pendings == db.pendings;
    if valid.outcome.SessionValid? {
      var u := valid.outcome.user;
      if action.AskForNewEmail? {
        AskingKeepsPendings(valid.db, now, u, s, action.newEmail, action.proof, r);
      } else if action.DeleteMyself? || action.AnonymiseUser? {
        DeletingKeepsPendings(valid.db, now, u, s, action, r);
      } else {
        ActKeepsPendings(valid.db, now, u, s, action, r);
      }
    }
  }

  lemma RegisterKeepsPendings(
    db: Db, now: Time, rawEmail: string, password: string, username: string, dob: Option<Time>, known: bool)
    ensures Register(db, now, rawEmail, password, username, dob, known).db.pendings == db.pendings
  {
    RegisterWrites(db, now, rawEmail, password, username, dob, known);
    ReleaseStaleClaimFrame(db, Normalize(rawEmail));
  }

  lemma LoginKeepsPendings(db: Db, now: Time, rawEmail: string, password: string)
    ensures Login(db, now, rawEmail, password).db.pendings == db.pendings
  {
  }

  lemma LinkKeepsPendings(db: Db, now: Time, t: Id, password: string)
    requires OwnersExist(db)
    ensures LinkGoogle(db, now, t, password).db.pendings == db.pendings
  {
    LinkGoogleWrites(db, now, t, password);
  }

  lemma ResetKeepsPendings(db: Db, now: Time, t: Id, password: string)
    requires OwnersExist(db)
    ensures ResetPassword(db, now, t, password).db.pendings == db.pendings
  {
    ResetPasswordWrites(db, now, t, password);
  }

  lemma ConfirmKeepsPendings(db: Db, now: Time, t: Id, r: Result)
    requires Inv(db) && r == ConfirmEmailChange(db, now, t)
    ensures r.db.pendings == db.pendings
  {
    ConfirmEmailChangeWrites(db, now, t);
    if r.outcome == Done {
      ReleaseOtherClaimFrame(db, db.tokens[t].userId, db.users[db.tokens[t].userId].pendingEmail.value);
    }
  }

  lemma IssuingKeepsPendings(db: Db, now: Time, rawEmail: string)
    ensures ResendVerification(db, now, rawEmail).db.pendings == db.pendings
    ensures ForgotPassword(db, now, rawEmail).db.pendings == db.pendings
  {
  }

  lemma LinksKeepPendings(db: Db, now: Time, request: Request, r: Result)
    requires Inv(db) && (ByLink(request) || request.Bootstrap?) && r == Step(db, now, request)
    ensures r.db.pendings == db.pendings
  {
    if request.Reset? {
      ResetKeepsPendings(db, now, request.token, request.password);
    } else if request.ConfirmAddress? {
      ConfirmKeepsPendings(db, now, request.token, r);
    } else if request.ResendLink? || request.Forgot? {
      IssuingKeepsPendings(db, now, request.rawEmail);
    }
  }

  lemma SweepPendings(db: Db, now: Time, request: Request, r: Result)
    requires OwnersExist(db) && (request.Sweep? || request.CleanUp?) && r == Step(db, now, request)
    ensures PendingsAfter(db, now, request, r)
  {
  }

  lemma OthersKeepPendings(db: Db, now: Time, request: Request, r: Result)
    requires Inv(db) && r == Step(db, now, request)
    requires !request.BeginGoogle? && !request.ReturnFromGoogle? && !request.Sweep? && !request.CleanUp?
    ensures r.db.pendings == db.pendings
  {
    if request.As? {
      ActAsKeepsPendings(db, now, request.session, request.action, r);
    } else if ByLink(request) || request.Bootstrap? {
      LinksKeepPendings(db, now, request, r);
    } else if request.SignUp? {
      RegisterKeepsPendings(db, now, request.rawEmail, request.password, request.username, request.dob,
          request.policiesKnown);
    } else if request.SignIn? {
      LoginKeepsPendings(db, now, request.rawEmail, request.password);
    } else {
      LinkKeepsPendings(db, now, request.token, request.password);
    }
  }

  /** Whatever the request: a signup waits, as it was chosen, until somebody comes back with it or a job finds it
      run out, 15 minutes after it began; only beginning one adds one. */
  lemma StepPendings(db: Db, now: Time, request: Request)
    requires Inv(db)
    ensures PendingsAfter(db, now, request, Step(db, now, request))
  {
    var r := Step(db, now, request);
    if request.BeginGoogle? {
      PendingsBelow(db);
      BeginPendings(db, now, request.username, request.dob, request.policiesKnown, r);
    } else if request.ReturnFromGoogle? {
      ReturnTakes(db, now, request.googleId, request.rawEmail, request.emailVerified, request.pending,
          request.random, r);
      ReturnPendings(db, now, request.googleId, request.rawEmail, request.emailVerified, request.pending,
          request.random, r);
    } else if request.Sweep? || request.CleanUp? {
      SweepPendings(db, now, request, r);
    } else {
      OthersKeepPendings(db, now, request, r);
      StepIsAnswered(db, now, request);
      KeptPendings(db, now, request, r);
    }
  }
}
