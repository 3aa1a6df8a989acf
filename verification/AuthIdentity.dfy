/** Who may come into being and under which address: user creation, unique identities, and the exact cases
    in which an operation meets a unique index. */
module AuthIdentity {
  import opened Text
  import opened AuthTables
  import opened AuthSpec
  import opened AuthInvariant
  import opened AuthHistory
  import opened AuthRuns
  import opened AuthGuarantees
  import Age

  // ─── New users ─────────────────────────────────────────────────────────────

  ghost predicate NobodyNew(db: Db, db': Db) {
    forall u :: u in db'.users ==> u in db.users
  }

  ghost predicate OneNewUser(db: Db, db': Db, u: Id) {
    u !in db.users && u in db'.users && forall v :: v in db'.users ==> v in db.users || v == u
  }

  /** Coming back from Google makes a user only with a pending signup that has not run out and whose birth
      date qualifies, and uses that signup up. */
  ghost predicate GoogleMade(db: Db, now: Time, pending: Option<Id>, db': Db, u: Id) {
    && pending.Some? && pending.value in db.pendings && pending.value !in db'.pendings
    && now <= db.pendings[pending.value].expiresAt
    && Qualifies(Some(db.pendings[pending.value].dob), now)
    && OneNewUser(db, db', u) && db'.users[u].dob == Some(db.pendings[pending.value].dob)
  }

  /** Nobody `db` knows has been deleted, suspended, restored, given or taken a role, or put to another
      date of birth. */
  ghost predicate StandingKept(db: Db, db': Db) {
    forall u :: u in db.users ==> u in db'.users && SameStanding(db.users[u], db'.users[u])
  }

  predicate SameStanding(user: User, user': User) {
    && user'.deleted == user.deleted && user'.suspended == user.suspended
    && user'.roles == user.roles && user'.dob == user.dob
  }

  ghost predicate Registered(db: Db, now: Time, dob: Option<Time>, db': Db, u: Id) {
    OneNewUser(db, db', u) && Qualifies(dob, now) && db'.users[u].dob == dob
  }

  /** The same people, standing as they stood. */
  ghost predicate Undisturbed(db: Db, db': Db) {
    NobodyNew(db, db') && StandingKept(db, db')
  }

  lemma SameUsersUndisturbed(db: Db, db': Db)
    requires db'.users == db.users
    ensures Undisturbed(db, db')
  {
  }

  lemma SignupMakes(db: Db, p: Id, user: User, googleId: string, now: Time)
    requires UsersOk(db.users, db.next)
    ensures var db' := NewGoogleSession(DeletePending(db, p), user, googleId, now);
      StandingKept(db, db') && OneNewUser(db, db', db.next) && db'.users[db.next] == user && p !in db'.pendings
  {
  }

  lemma GoogleWithoutAccountMakes(
    db: Db, now: Time, googleId: string, rawEmail: string, emailVerified: bool, pending: Option<Id>, random: string)
    requires UsersOk(db.users, db.next)
    ensures var db' := GoogleWithoutAccount(db, now, googleId, rawEmail, emailVerified, pending, random).db;
      StandingKept(db, db') && (NobodyNew(db, db') || GoogleMade(db, now, pending, db', db.next))
  {
    var r := GoogleWithoutAccount(db, now, googleId, rawEmail, emailVerified, pending, random);
    GoogleWithoutAccountWrites(db, now, googleId, rawEmail, emailVerified, pending, random);
    if r.db.users == db.users {
      SameUsersUndisturbed(db, r.db);
    } else {
      var signup, consumed := db.pendings[pending.value], DeletePending(db, pending.value);
      var user := NewGoogleUser(Normalize(rawEmail), ClaimUsername(consumed, signup.username, random), signup.dob);
      SignupMakes(db, pending.value, user, googleId, now);
    }
  }

  lemma ReleasedMakes(
    db: Db, u: Id, now: Time, googleId: string, rawEmail: string, emailVerified: bool, pending: Option<Id>,
    random: string)
    requires UsersOk(db.users, db.next)
    ensures var released := ReleaseIdentityClaims(db, u);
      var db' := GoogleWithoutAccount(released, now, googleId, rawEmail, emailVerified, pending, random).db;
      StandingKept(db, db') && (NobodyNew(db, db') || GoogleMade(db, now, pending, db', db.next))
  {
    GoogleWithoutAccountMakes(ReleaseIdentityClaims(db, u), now, googleId, rawEmail, emailVerified, pending, random);
  }

  lemma GoogleLoginMakes(
    db: Db, now: Time, googleId: string, rawEmail: string, emailVerified: bool, pending: Option<Id>, random: string)
    requires UsersOk(db.users, db.next)
    ensures var db' := GoogleLogin(db, now, googleId, rawEmail, emailVerified, pending, random).db;
      StandingKept(db, db') && (NobodyNew(db, db') || GoogleMade(db, now, pending, db', db.next))
  {
    var account := FindAuthAccount(db, GOOGLE, googleId);
    if account.None? {
      GoogleWithoutAccountMakes(db, now, googleId, rawEmail, emailVerified, pending, random);
    } else if !Live(db, db.accounts[account.value].userId) && pending.Some? {
      ReleasedMakes(db, db.accounts[account.value].userId, now, googleId, rawEmail, emailVerified, pending, random);
    } else {
      assert Undisturbed(db, GoogleLogin(db, now, googleId, rawEmail, emailVerified, pending, random).db);
    }
  }

  lemma RegisterMakes(
    db: Db, now: Time, rawEmail: string, password: string, username: string, dob: Option<Time>, known: bool)
    requires UsersOk(db.users, db.next)
    ensures var db' := Register(db, now, rawEmail, password, username, dob, known).db;
      StandingKept(db, db') && (NobodyNew(db, db') || Registered(db, now, dob, db', db.next))
  {
    RegisterWrites(db, now, rawEmail, password, username, dob, known);
    ReleaseStaleClaimFrame(db, Normalize(rawEmail));
  }

  lemma LoginUndisturbed(db: Db, now: Time, rawEmail: string, password: string)
    ensures Undisturbed(db, Login(db, now, rawEmail, password).db)
  {
  }

  lemma LinkUndisturbed(db: Db, now: Time, t: Id, password: string)
    requires OwnersExist(db)
    ensures Undisturbed(db, LinkGoogle(db, now, t, password).db)
  {
    LinkGoogleWrites(db, now, t, password);
  }

  lemma BeginGoogleUndisturbed(db: Db, now: Time, username: string, dob: Option<Time>, known: bool)
    ensures Undisturbed(db, StartGoogleSignup(db, now, username, dob, known).db)
  {
    var r := StartGoogleSignup(db, now, username, dob, known);
    assert r.db.users == db.users;
    SameUsersUndisturbed(db, r.db);
  }

  lemma VerifyUndisturbed(db: Db, now: Time, t: Id)
    requires OwnersExist(db)
    ensures Undisturbed(db, VerifyEmail(db, now, t).db)
  {
  }

  lemma IssuingUndisturbed(db: Db, now: Time, rawEmail: string)
    ensures Undisturbed(db, ResendVerification(db, now, rawEmail).db)
    ensures Undisturbed(db, ForgotPassword(db, now, rawEmail).db)
  {
  }

  lemma ResetUndisturbed(db: Db, now: Time, t: Id, password: string)
    requires OwnersExist(db)
    ensures Undisturbed(db, ResetPassword(db, now, t, password).db)
  {
    ResetPasswordWrites(db, now, t, password);
  }

  lemma MoveUndisturbed(db: Db, u: Id, email: string, t: Id)
    requires u in db.users && t in db.tokens
    ensures Undisturbed(db, MarkTokenUsed(ApplyEmailChange(ReleaseOtherClaim(db, u, email), u, email), t))
  {
    ReleaseOtherClaimFrame(db, u, email);
  }

  lemma ConfirmUndisturbed(db: Db, now: Time, t: Id)
    requires Inv(db)
    ensures Undisturbed(db, ConfirmEmailChange(db, now, t).db)
  {
    ConfirmEmailChangeWrites(db, now, t);
    if ConfirmEmailChange(db, now, t).outcome == Done {
      var u := db.tokens[t].userId;
      MoveUndisturbed(db, u, db.users[u].pendingEmail.value, t);
    }
  }

  lemma ChangePasswordUndisturbed(db: Db, now: Time, u: Id, current: string, password: string)
    ensures Undisturbed(db, ChangePassword(db, now, u, current, password).db)
  {
  }

  lemma RequestEmailChangeUndisturbed(db: Db, now: Time, u: Id, s: Id, newEmail: string, password: Option<string>)
    ensures Undisturbed(db, RequestEmailChange(db, now, u, s, newEmail, password).db)
  {
    RequestEmailChangeWrites(db, now, u, s, newEmail, password);
  }

  lemma OnboardingUndisturbed(db: Db, u: Id, username: Option<string>)
    requires u in db.users
    ensures Undisturbed(db, CompleteOnboarding(db, u, username).db)
  {
    SameUsersUndisturbed(db, db);
    if Given(username) { SetUserUndisturbed(db, u, db.users[u].(username := username.value)); }
  }

  lemma SetUserUndisturbed(db: Db, u: Id, user: User)
    requires u in db.users && SameStanding(db.users[u], user)
    ensures Undisturbed(db, SetUser(db, u, user))
  {
  }

  /** The actions that may change somebody's standing. */
  predicate ChangesStanding(action: Action) {
    || action.EditProfile? || action.AcceptInvitation? || action.DeleteMyself?
    || action.Suspend? || action.ChangeRoles? || action.AnonymiseUser?
  }

  lemma ActUndisturbed(db: Db, now: Time, u: Id, s: Id, action: Action)
    requires u in db.users && !ChangesStanding(action)
    ensures Undisturbed(db, Act(db, now, u, s, action).db)
  {
    match action
    case Whoami =>
    case SignOut =>
    case Change(current, password) => ChangePasswordUndisturbed(db, now, u, current, password);
    case ProveWithGoogle(googleId) =>
    case Unlink(provider, target) =>
    case AskForNewEmail(newEmail, proof) => RequestEmailChangeUndisturbed(db, now, u, s, newEmail, proof);
    case SetUpAccount(username) => OnboardingUndisturbed(db, u, username);
    case LogOut(target) =>
  }

  lemma StandingMakesNobody(db: Db, now: Time, u: Id, s: Id, action: Action)
    requires u in db.users && ChangesStanding(action)
    ensures NobodyNew(db, Act(db, now, u, s, action).db)
  {
  }

  lemma ActAsMakesNobody(db: Db, now: Time, s: Id, action: Action)
    requires OwnersExist(db)
    ensures NobodyNew(db, ActAs(db, now, s, action).db)
  {
    var valid := ValidateSession(db, now, s);
    if valid.outcome.SessionValid? {
      if ChangesStanding(action) {
        StandingMakesNobody(valid.db, now, valid.outcome.user, s, action);
      } else {
        ActUndisturbed(valid.db, now, valid.outcome.user, s, action);
      }
    }
  }

  lemma GrantMakesNobody(db: Db, rawEmail: string, allowUnverified: bool)
    ensures NobodyNew(db, GrantAdmin(db, rawEmail, allowUnverified).db)
  {
  }

  /** A request of a visitor, or of the clock, that does not sign anybody up. */
  predicate FromOutside(request: Request) {
    !request.SignUp? && !request.ReturnFromGoogle? && !request.Bootstrap? && !request.As?
  }

  lemma OutsideUndisturbed(db: Db, now: Time, request: Request)
    requires Inv(db) && FromOutside(request)
    ensures Undisturbed(db, Step(db, now, request).db)
  {
    match request
    case SignIn(rawEmail, password) => LoginUndisturbed(db, now, rawEmail, password);
    case BeginGoogle(username, dob, known) => BeginGoogleUndisturbed(db, now, username, dob, known);
    case LinkAccounts(t, password) => LinkUndisturbed(db, now, t, password);
    case Verify(t) => VerifyUndisturbed(db, now, t);
    case ResendLink(rawEmail) => IssuingUndisturbed(db, now, rawEmail);
    case Forgot(rawEmail) => IssuingUndisturbed(db, now, rawEmail);
    case Reset(t, password) => ResetUndisturbed(db, now, t, password);
    case ConfirmAddress(t) => ConfirmUndisturbed(db, now, t);
    case Sweep =>
    case CleanUp =>
  }

  /** Only two requests ever make a user, one user at a time: registering with a birth date that
      qualifies, and coming back from Google with a pending signup. */
  lemma OnlySigningUpMakesUsers(db: Db, now: Time, request: Request)
    requires Inv(db) && !NobodyNew(db, Step(db, now, request).db)
    ensures var db' := Step(db, now, request).db;
      || (request.SignUp? && Registered(db, now, request.dob, db', db.next))
      || (request.ReturnFromGoogle? && GoogleMade(db, now, request.pending, db', db.next))
  {
    match request
    case SignUp(rawEmail, password, username, dob, known) =>
      RegisterMakes(db, now, rawEmail, password, username, dob, known);
    case ReturnFromGoogle(googleId, rawEmail, verified, pending, random) =>
      GoogleLoginMakes(db, now, googleId, rawEmail, verified, pending, random);
    case As(s, action) => ActAsMakesNobody(db, now, s, action);
    case Bootstrap(rawEmail, allowUnverified) => GrantMakesNobody(db, rawEmail, allowUnverified);
    case _ => OutsideUndisturbed(db, now, request);
  }

  /** A pending signup makes at most one user: once it has, coming back with it again makes nobody. */
  lemma SignupsWorkOnce(run: seq<Event>, i: nat, j: nat)
    requires i < j < |run| && run[i].request.ReturnFromGoogle? && run[j].request.ReturnFromGoogle?
    requires run[i].request.pending == run[j].request.pending
    requires !NobodyNew(After(run[..i]), After(run[..i + 1]))
    ensures NobodyNew(After(run[..j]), After(run[..j + 1]))
  {
    var p := UsedUp(run, i);
    PendingStaysGone(run, i + 1, j, p);
    if !NobodyNew(After(run[..j]), After(run[..j + 1])) {
      var q := UsedUp(run, j);
      assert false;
    }
  }

  lemma UsedUp(run: seq<Event>, i: nat) returns (p: Id)
    requires i < |run| && run[i].request.ReturnFromGoogle?
    requires !NobodyNew(After(run[..i]), After(run[..i + 1]))
    ensures run[i].request.pending == Some(p) && p in After(run[..i]).pendings
    ensures p < After(run[..i + 1]).next && p !in After(run[..i + 1]).pendings
  {
    AfterOneMore(run, i);
    OnlySigningUpMakesUsers(After(run[..i]), run[i].now, run[i].request);
    p := run[i].request.pending.value;
    OneMoreFollows(run, i);
    KnownPending(After(run[..i]), p);
  }

  lemma KnownPending(db: Db, p: Id)
    requires Inv(db) && p in db.pendings
    ensures p < db.next
  {
  }

  lemma PendingStaysGone(run: seq<Event>, i: nat, j: nat, p: Id)
    requires i <= j <= |run| && p < After(run[..i]).next && p !in After(run[..i]).pendings
    ensures p !in After(run[..j]).pendings
  {
    RunFollows(run, i, j);
  }

  // ─── Unique indexes ────────────────────────────────────────────────────────

  /** A live user's EMAIL account is spoken for by the user row as well. */
  lemma LiveClaimIsInUse(db: Db, u: Id, email: string)
    requires Inv(db) && LiveClaimByOther(db, u, email)
    ensures EmailInUse(db, email)
  {
    var claim := FindAuthAccount(db, EMAIL, email).value;
    assert EmailAccountsInStep(db.users, db.accounts);
    assert db.users[db.accounts[claim].userId].email == email;
  }

  lemma OnlyDeletedHoldIt(db: Db, email: string)
    requires Inv(db) && EmailInUse(db, email) && FindUserByEmail(db, email).None?
    ensures Pseudonymous(email)
  {
    var u :| u in db.users && db.users[u].email == email;
    assert !IsUserByEmail(db, u, email);
    assert DeletedUnderPseudonym(db.users);
  }

  /** Whoever held the address as an EMAIL identity, nobody does once the stale claim is let go. */
  lemma StaleClaimReleased(db: Db, email: string)
    requires Inv(db) && FindUserByEmail(db, email).None?
    ensures FindAuthAccount(ReleaseStaleClaim(db, email), EMAIL, email).None?
  {
    var claim := FindAuthAccount(db, EMAIL, email);
    if claim.Some? && Live(db, db.accounts[claim.value].userId) {
      assert EmailAccountsInStep(db.users, db.accounts);
      assert IsUserByEmail(db, db.accounts[claim.value].userId, email);
    }
    var released := ReleaseStaleClaim(db, email);
    assert forall a :: IsAccount(released, a, EMAIL, email) ==> IsAccount(db, a, EMAIL, email);
  }

  lemma SameNames(db: Db, db': Db, email: string, username: string)
    requires db'.users == db.users
    ensures EmailInUse(db', email) == EmailInUse(db, email)
    ensures UsernameInUse(db', username) == UsernameInUse(db, username)
  {
    assert EmailInUse(db, email) ==> exists u :: u in db'.users && db'.users[u].email == email;
    assert UsernameInUse(db, username) ==> exists u :: u in db'.users && db'.users[u].username == username;
    assert EmailInUse(db', email) ==> exists u :: u in db.users && db.users[u].email == email;
    assert UsernameInUse(db', username) ==> exists u :: u in db.users && db.users[u].username == username;
  }

  /** Registration never meets the index on EMAIL identities, even while a deleted account still holds the
      address. It fails on a unique index exactly when the name is in use, or the address is a deleted
      user's pseudonym: never on an ordinary address. */
  lemma RegisterCollidesIff(
    db: Db, now: Time, rawEmail: string, password: string, username: string, dob: Option<Time>, known: bool)
    requires Inv(db)
    ensures var outcome := Register(db, now, rawEmail, password, username, dob, known).outcome;
      var email := Normalize(rawEmail);
      && (outcome == Refused(UniqueViolation) <==>
           && Qualifies(dob, now) && FindUserByEmail(db, email).None? && known
           && (EmailInUse(db, email) || UsernameInUse(db, username)))
      && (outcome == Refused(UniqueViolation) && !Pseudonymous(email) ==> UsernameInUse(db, username))
  {
    var email := Normalize(rawEmail);
    ReleaseStaleClaimFrame(db, email);
    SameNames(db, ReleaseStaleClaim(db, email), email, username);
    if FindUserByEmail(db, email).None? {
      StaleClaimReleased(db, email);
      if EmailInUse(db, email) { OnlyDeletedHoldIt(db, email); }
    }
  }

  /** When a confirmation succeeds: the token is usable, its user lives, and no user row holds the address
      that user is waiting for. */
  predicate Confirmable(db: Db, now: Time, t: Id) {
    && UsableToken(db, t, EMAIL_CHANGE) && now <= db.tokens[t].expiresAt
    && Live(db, db.tokens[t].userId)
    && var pending := db.users[db.tokens[t].userId].pendingEmail;
       pending.Some? && pending.value != "" && !EmailInUse(db, pending.value)
  }

  lemma ConfirmableNames(db: Db, now: Time, t: Id)
    requires Inv(db) && UsableToken(db, t, EMAIL_CHANGE) && Live(db, db.tokens[t].userId)
    ensures NamesPending(db.users[db.tokens[t].userId], db.tokens[t])
  {
    assert TokensNamePending(db.users, db.tokens);
  }

  /** Confirming an address never meets a unique index, and succeeds exactly when it is confirmable. */
  lemma ConfirmSucceedsIff(db: Db, now: Time, t: Id)
    requires Inv(db)
    ensures ConfirmEmailChange(db, now, t).outcome != Refused(UniqueViolation)
    ensures ConfirmEmailChange(db, now, t).outcome == Done <==> Confirmable(db, now, t)
  {
    ConfirmEmailChangeWrites(db, now, t);
    if TokenRefusal(db, now, t, EMAIL_CHANGE).None? {
      var u := db.tokens[t].userId;
      if db.users[u].pendingEmail.Some? {
        var email := db.users[u].pendingEmail.value;
        PendingIsNormal(db, u);
        ConfirmableNames(db, now, t);
        if LiveClaimByOther(db, u, email) { LiveClaimIsInUse(db, u, email); }
        if !EmailInUse(db, email) { ChangeNeverCollides(db, u, email); }
      }
    }
  }

  /** After it, the user and the user's EMAIL account are both at the confirmed address. */
  lemma ConfirmMovesBoth(db: Db, now: Time, t: Id)
    requires Inv(db) && ConfirmEmailChange(db, now, t).outcome == Done
    ensures var db', u := ConfirmEmailChange(db, now, t).db, db.tokens[t].userId;
      && u in db'.users && db'.users[u].email == db.users[u].pendingEmail.value && db'.users[u].pendingEmail.None?
      && forall a :: IsEmailAccountOf(db', a, u) ==> db'.accounts[a].identifier == db'.users[u].email
  {
    ConfirmEmailChangeWrites(db, now, t);
  }

  /** The one insert that can fail on the EMAIL identity: a first password for an account whose address a
      deleted user still holds as an identity. It fails in no other case. */
  lemma FirstPasswordCollidesIff(db: Db, now: Time, t: Id, password: string)
    requires Inv(db)
    ensures ResetPassword(db, now, t, password).outcome == Refused(UniqueViolation) <==>
      && UsableToken(db, t, PASSWORD_RESET) && now <= db.tokens[t].expiresAt
      && var u := db.tokens[t].userId;
         && Live(db, u) && (forall a :: !IsEmailAccountOf(db, a, u))
         && exists a :: IsAccount(db, a, EMAIL, db.users[u].email) && !Live(db, db.accounts[a].userId)
  {
    if UsableToken(db, t, PASSWORD_RESET) && Live(db, db.tokens[t].userId) {
      var u := db.tokens[t].userId;
      var claim := FindAuthAccount(db, EMAIL, db.users[u].email);
      if claim.Some? && (forall a :: !IsEmailAccountOf(db, a, u)) {
        HolderIsDeleted(db, u, claim.value);
        assert IsAccount(db, claim.value, EMAIL, db.users[u].email);
      }
      if FindEmailAccountByUserId(db, u).Some? {
        assert IsEmailAccountOf(db, FindEmailAccountByUserId(db, u).value, u);
      }
    }
  }

  lemma HolderIsDeleted(db: Db, u: Id, a: Id)
    requires Inv(db) && Live(db, u) && IsAccount(db, a, EMAIL, db.users[u].email) && !IsEmailAccountOf(db, a, u)
    ensures !Live(db, db.accounts[a].userId)
  {
    assert EmailAccountsInStep(db.users, db.accounts) && EmailsUnique(db.users);
  }

  // ─── A way to sign in always remains ───────────────────────────────────────

  /** `target` is an account of the user and provider, if there is one. */
  ghost predicate Listed(db: Db, u: Id, provider: Provider, target: Id) {
    (exists a :: IsAccountOf(db, a, u, provider)) ==> IsAccountOf(db, target, u, provider)
  }

  /** Disconnecting is granted exactly when the user has such an account and can still sign in without it. */
  lemma DisconnectIffLoginRemains(db: Db, u: Id, provider: Provider, target: Id)
    requires Listed(db, u, provider, target)
    ensures var outcome := Disconnect(db, u, provider, target).outcome;
      && (outcome == Refused(NotFound) <==> forall a :: !IsAccountOf(db, a, u, provider))
      && (outcome == Done <==> IsAccountOf(db, target, u, provider) && HasLogin(db.accounts - {target}, u))
      && outcome in {Done, Refused(InUse), Refused(NotFound)}
  {
    if OtherLogin(db, u, target) {
      var b :| b != target && IsLogin(db.accounts, b, u);
      assert IsLogin(db.accounts - {target}, b, u);
    }
    if HasLogin(db.accounts - {target}, u) {
      var b :| IsLogin(db.accounts - {target}, b, u);
      assert b != target && IsLogin(db.accounts, b, u);
    }
  }

  // ─── Names claimed on the way back from Google ─────────────────────────────

  predicate AllTaken(db: Db, chosen: string, n: nat, k: nat) {
    forall m: nat :: n <= m < k ==> UsernameTaken(db, Candidate(chosen, m))
  }

  /** The search stops at the first free variant, `k`, or past the last. */
  lemma {:induction false} NumberedIsFirstFree(db: Db, chosen: string, n: nat, random: string) returns (k: nat)
    requires n <= 100
    ensures n <= k <= 100 && AllTaken(db, chosen, n, k)
    ensures k <= 99 ==> NumberedUsername(db, chosen, n, random) == Candidate(chosen, k)
    ensures k <= 99 ==> !UsernameTaken(db, Candidate(chosen, k))
    ensures k == 100 ==> NumberedUsername(db, chosen, n, random) == RandomName(chosen, random)
    decreases 100 - n
  {
    if n <= 99 && UsernameTaken(db, Candidate(chosen, n)) {
      k := NumberedIsFirstFree(db, chosen, n + 1, random);
    } else {
      k := n;
    }
  }

  /** The number in decimal, without a zero in front. */
  predicate InDecimal(n: nat, digits: string) {
    Age.AllDigits(digits) && Age.DigitsValue(digits) == n && digits != "" && digits[0] != '0'
  }

  /** A variant is the name, cut after 25 characters, an underscore and the number; with the random ending the
      name is cut after 22. */
  lemma VariantsAre(chosen: string, n: nat, random: string)
    requires 2 <= n <= 99
    ensures exists digits ::
      InDecimal(n, digits) && Candidate(chosen, n) == chosen[..if |chosen| < 25 then |chosen| else 25] + "_" + digits
    ensures RandomName(chosen, random) == chosen[..if |chosen| < 22 then |chosen| else 22] + "_" + random
  {
    var digits := Age.Pad(n, if n < 10 then 1 else 2);
    Age.PowersOfTen();
    Age.PadReads(n, if n < 10 then 1 else 2);
    assert chosen[..|chosen|] == chosen;
    if digits[0] == '0' { LeadingZero(digits); }
    assert InDecimal(n, digits);
  }

  lemma {:induction false} LeadingZero(digits: string)
    requires Age.AllDigits(digits) && 1 <= |digits| <= 2 && digits[0] == '0'
    ensures Age.DigitsValue(digits) < 10 && (|digits| == 1 ==> Age.DigitsValue(digits) == 0)
  {
    if |digits| == 2 {
      var first := digits[..1];
      assert Age.DigitsValue(first) == 10 * Age.DigitsValue(first[..0]) + (first[0] - '0') as int;
    }
  }

  /** The chosen name if it is free, else its first free numbered variant, else, with all of them taken,
      the start of the chosen name with the random ending, free or not. */
  lemma ClaimedNameIsFirstFree(db: Db, chosen: string, random: string)
    ensures var name := ClaimUsername(db, chosen, random);
      || (name == chosen && !UsernameTaken(db, chosen))
      || (UsernameTaken(db, chosen)
          && exists k: nat ::
               2 <= k <= 99 && name == Candidate(chosen, k) && !UsernameTaken(db, name) && AllTaken(db, chosen, 2, k))
      || (UsernameTaken(db, chosen) && AllTaken(db, chosen, 2, 100) && name == RandomName(chosen, random))
  {
    var k := NumberedIsFirstFree(db, chosen, 2, random);
    if UsernameTaken(db, chosen) && k <= 99 {
      assert ClaimUsername(db, chosen, random) == Candidate(chosen, k);
    }
  }
}
