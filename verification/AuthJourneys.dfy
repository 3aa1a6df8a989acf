/** What one operation makes possible for the next: the ways through sign-up, sign-in, recovery, change of
    address and return after deletion, each on every sound state. */
module AuthJourneys {
  import opened Text
  import opened AuthTables
  import opened AuthSpec
  import opened AuthInvariant
  import opened AuthHistory
  import opened AuthIdentity
  import Lockout

  // ─── Signing in ────────────────────────────────────────────────────────────

  /** The credentials are those of this user. */
  predicate Opens(db: Db, u: Id, a: Id, rawEmail: string, password: string) {
    && IsUserByEmail(db, u, Normalize(rawEmail)) && IsEmailAccountOf(db, a, u)
    && db.accounts[a].passwordHash == Some(Bcrypt(password))
  }

  /** At most one user is found at an address, and one EMAIL account of a user. */
  ghost predicate OneFound(db: Db) {
    EmailsUnique(db.users) && OneEmailAccountEach(db.accounts)
  }

  lemma OpensIsFound(db: Db, u: Id, a: Id, rawEmail: string, password: string)
    requires OneFound(db) && Opens(db, u, a, rawEmail, password)
    ensures FindUserByEmail(db, Normalize(rawEmail)) == Some(u) && PasswordOf(db, u) == Some(Bcrypt(password))
  {
    FindsUser(db, u, Normalize(rawEmail));
    FindsPassword(db, u, a);
  }

  /** A session starts if and only if the address is not locked out and the credentials are those of a
      verified, unsuspended user, whose session it is. */
  lemma LoginSucceedsIff(db: Db, now: Time, rawEmail: string, password: string, u: Id)
    requires OneFound(db)
    ensures Login(db, now, rawEmail, password).outcome == SessionStarted(u, db.next) <==>
      && !Lockout.Locked(Lockout.Look(db.lockouts, Normalize(rawEmail)), now)
      && (exists a :: Opens(db, u, a, rawEmail, password)) && db.users[u].verified && !db.users[u].suspended
  {
    var found := FindUserByEmail(db, Normalize(rawEmail));
    if a :| Opens(db, u, a, rawEmail, password) { OpensIsFound(db, u, a, rawEmail, password); }
    if found == Some(u) && PasswordOf(db, u) == Some(Bcrypt(password)) {
      assert Opens(db, u, FindEmailAccountByUserId(db, u).value, rawEmail, password);
    }
  }

  /** Nobody else's session: whatever is typed, a session started is of the user at that address. */
  lemma LoginIsTheirs(db: Db, now: Time, rawEmail: string, password: string)
    ensures var r := Login(db, now, rawEmail, password);
      r.outcome.SessionStarted? ==>
        && r.outcome.session == db.next && r.db.sessions == db.sessions[db.next := NewSession(r.outcome.user, now)]
        && IsUserByEmail(db, r.outcome.user, Normalize(rawEmail))
  {
  }

  // ─── Registering, verifying, signing in ────────────────────────────────────

  /** The user with this account has yet to follow the link of this token. */
  predicate AwaitsVerification(
    db: Db, u: Id, a: Id, t: Id, rawEmail: string, password: string, expiresAt: Time) {
    && Opens(db, u, a, rawEmail, password) && !db.users[u].verified && !db.users[u].suspended
    && t in db.tokens && db.tokens[t] == NewToken(u, EMAIL_VERIFICATION, NoMetadata, expiresAt)
  }

  lemma NewcomerAwaits(db: Db, rawEmail: string, username: string, dob: Option<Time>, password: string, expiresAt: Time)
    ensures var email := Normalize(rawEmail);
      AwaitsVerification(
        InsertToken(InsertUser(db, NewEmailUser(email, username, dob), EMAIL, email, Some(Bcrypt(password))),
                    NewToken(db.next, EMAIL_VERIFICATION, NoMetadata, expiresAt)),
        db.next, db.next + 1, db.next + 2, rawEmail, password, expiresAt)
  {
  }

  lemma RegisteredSoundly(
    db: Db, now: Time, rawEmail: string, password: string, username: string, dob: Option<Time>, known: bool)
    requires Inv(db)
    ensures var registered := Register(db, now, rawEmail, password, username, dob, known).db;
      OneFound(registered) && OwnersExist(registered)
  {
    InvRegister(db, now, rawEmail, password, username, dob, known);
  }

  lemma VerifiedBy(db: Db, now: Time, t: Id)
    requires OneFound(db) && OwnersExist(db)
    requires UsableToken(db, t, EMAIL_VERIFICATION) && now <= db.tokens[t].expiresAt
    ensures var r, u := VerifyEmail(db, now, t), db.tokens[t].userId;
      && r.outcome == Done && OneFound(r.db) && r.db.accounts == db.accounts
      && r.db.users == db.users[u := db.users[u].(verified := true)]
  {
  }

  lemma LoginOnceVerified(db: Db, verified: Db, u: Id, a: Id, rawEmail: string, password: string, later: Time)
    requires Opens(db, u, a, rawEmail, password) && !db.users[u].suspended
    requires !Lockout.Locked(Lockout.Look(db.lockouts, Normalize(rawEmail)), later)
    requires OneFound(verified) && verified.accounts == db.accounts && verified.lockouts == db.lockouts
    requires verified.users == db.users[u := db.users[u].(verified := true)]
    ensures Login(verified, later, rawEmail, password).outcome == SessionStarted(u, verified.next)
  {
    assert Opens(verified, u, a, rawEmail, password);
    LoginSucceedsIff(verified, later, rawEmail, password, u);
  }

  lemma VerifyThenLogin(
    db: Db, u: Id, a: Id, t: Id, rawEmail: string, password: string, expiresAt: Time, followed: Time, later: Time)
    requires OneFound(db) && OwnersExist(db)
    requires AwaitsVerification(db, u, a, t, rawEmail, password, expiresAt) && followed <= expiresAt
    requires !Lockout.Locked(Lockout.Look(db.lockouts, Normalize(rawEmail)), later)
    ensures Login(db, later, rawEmail, password).outcome == Refused(EmailNotVerified)
    ensures VerifyEmail(db, followed, t).outcome == Done
    ensures var verified := VerifyEmail(db, followed, t).db;
      Login(verified, later, rawEmail, password).outcome == SessionStarted(u, verified.next)
  {
    OpensIsFound(db, u, a, rawEmail, password);
    VerifiedBy(db, followed, t);
    LoginOnceVerified(db, VerifyEmail(db, followed, t).db, u, a, rawEmail, password, later);
  }

  lemma RegisteredIs(
    db: Db, now: Time, rawEmail: string, password: string, username: string, dob: Option<Time>, known: bool,
    registered: Db, u: Id)
    requires Register(db, now, rawEmail, password, username, dob, known) == Result(registered, UserCreated(u))
    ensures registered.lockouts == db.lockouts
    ensures AwaitsVerification(registered, u, u + 1, u + 2, rawEmail, password, now + VERIFICATION_TOKEN_TTL)
  {
    var released := ReleaseStaleClaim(db, Normalize(rawEmail));
    RegisterWrites(db, now, rawEmail, password, username, dob, known);
    ReleaseStaleClaimFrame(db, Normalize(rawEmail));
    NewcomerAwaits(released, rawEmail, username, dob, password, now + VERIFICATION_TOKEN_TTL);
  }

  /** Whoever registers is kept out until the address is verified, and gets in with the password chosen as
      soon as the link has been followed, at any time in its 24 hours and no later. */
  lemma RegisterVerifyLogin(
    db: Db, now: Time, rawEmail: string, password: string, username: string, dob: Option<Time>, known: bool,
    registered: Db, u: Id,
    followed: Time, later: Time)
    requires Inv(db)
    requires Register(db, now, rawEmail, password, username, dob, known) == Result(registered, UserCreated(u))
    requires !Lockout.Locked(Lockout.Look(db.lockouts, Normalize(rawEmail)), later)
    ensures Login(registered, later, rawEmail, password).outcome == Refused(EmailNotVerified)
    ensures OwnersExist(registered)
    ensures VerifyEmail(registered, followed, u + 2).outcome
      == if followed <= now + 86_400_000 then Done else Refused(TokenExpired)
    ensures followed <= now + 86_400_000 ==>
      var verified := VerifyEmail(registered, followed, u + 2).db;
      Login(verified, later, rawEmail, password).outcome == SessionStarted(u, verified.next)
  {
    RegisteredSoundly(db, now, rawEmail, password, username, dob, known);
    RegisteredIs(db, now, rawEmail, password, username, dob, known, registered, u);
    var expiresAt := now + 86_400_000;
    if followed <= expiresAt {
      VerifyThenLogin(registered, u, u + 1, u + 2, rawEmail, password, expiresAt, followed, later);
    } else {
      VerifyThenLogin(registered, u, u + 1, u + 2, rawEmail, password, expiresAt, expiresAt, later);
      LateIsRefused(registered, u + 2, u, expiresAt, followed);
    }
  }

  lemma LateIsRefused(db: Db, t: Id, u: Id, expiresAt: Time, followed: Time)
    requires OwnersExist(db) && t in db.tokens && expiresAt < followed
    requires db.tokens[t] == NewToken(u, EMAIL_VERIFICATION, NoMetadata, expiresAt)
    ensures VerifyEmail(db, followed, t) == Refuse(db, TokenExpired)
  {
  }

  // ─── Recovering and changing a password ────────────────────────────────────

  lemma StoredOpens(db: Db, t: Id, password: string) returns (a: Id)
    requires Inv(db) && t in db.tokens && Live(db, db.tokens[t].userId)
    requires FindEmailAccountByUserId(db, db.tokens[t].userId).None? ==> db.next !in db.accounts
    ensures var stored, u := PasswordStored(db, t, password), db.tokens[t].userId;
      && stored.users == db.users && stored.tokens == db.tokens
      && IsEmailAccountOf(stored, a, u) && stored.accounts[a].passwordHash == Some(Bcrypt(password))
  {
    var account := FindEmailAccountByUserId(db, db.tokens[t].userId);
    a := if account.Some? then account.value else db.next;
  }

  lemma FinishedOpens(db: Db, u: Id, t: Id, a: Id, password: string)
    requires u in db.users && t in db.tokens && IsEmailAccountOf(db, a, u)
    requires db.accounts[a].passwordHash == Some(Bcrypt(password))
    requires !db.users[u].deleted && Normalize(db.users[u].email) == db.users[u].email
    ensures var done := FinishReset(db, u, t);
      Opens(done, u, a, db.users[u].email, password) && done.users[u] == db.users[u].(verified := true)
  {
  }

  lemma AccountsBelow(db: Db)
    requires Inv(db)
    ensures db.next !in db.accounts
  {
  }

  lemma ResetStores(db: Db, now: Time, t: Id, password: string, db': Db) returns (a: Id)
    requires Inv(db) && ResetPassword(db, now, t, password) == Result(db', Done) && Live(db, db.tokens[t].userId)
    ensures var u := db.tokens[t].userId;
      && Inv(db') && db'.lockouts == db.lockouts && Opens(db', u, a, db.users[u].email, password)
      && db'.users[u] == db.users[u].(verified := true)
  {
    InvResetPassword(db, now, t, password);
    ResetPasswordWrites(db, now, t, password);
    AccountsBelow(db);
    LiveEmailNormal(db, db.tokens[t].userId);
    a := StoredOpens(db, t, password);
    FinishedOpens(PasswordStored(db, t, password), db.tokens[t].userId, t, a, password);
  }

  lemma LiveEmailNormal(db: Db, u: Id)
    requires Inv(db) && Live(db, u)
    ensures Normalize(db.users[u].email) == db.users[u].email
  {
    assert EmailsNormal(db.users);
  }

  /** A reset, or a first password for a Google account, leaves exactly the new password opening the
      account: with it the user gets in, verified or not before; with any other, not. */
  lemma ResetThenLogin(db: Db, now: Time, t: Id, password: string, db': Db, tried: string, later: Time)
    requires Inv(db) && ResetPassword(db, now, t, password) == Result(db', Done)
    requires var u := db.tokens[t].userId;
      && Live(db, u) && !db.users[u].suspended
      && !Lockout.Locked(Lockout.Look(db.lockouts, db.users[u].email), later)
    ensures var u := db.tokens[t].userId;
      Login(db', later, db.users[u].email, tried).outcome
        == if tried == password then SessionStarted(u, db'.next) else Refused(InvalidCredentials)
  {
    var u := db.tokens[t].userId;
    var a := ResetStores(db, now, t, password, db');
    LiveEmailNormal(db, u);
    OpensIsFound(db', u, a, db.users[u].email, password);
    LoginSucceedsIff(db', later, db.users[u].email, password, u);
  }

  /** Changing a password takes the current one, and leaves exactly the new one opening the account. */
  lemma ChangeThenVerify(db: Db, now: Time, u: Id, current: string, password: string, tried: string)
    requires Inv(db) && u in db.users
    ensures var r := ChangePassword(db, now, u, current, password);
      && (r.outcome.SessionStarted? <==> PasswordOf(db, u) == Some(Bcrypt(current)))
      && (r.outcome.SessionStarted? ==>
            && r.outcome == SessionStarted(u, db.next) && db.next in r.db.sessions
            && (PasswordOf(r.db, u) == Some(Bcrypt(tried)) <==> tried == password))
  {
    InvChangePassword(db, now, u, current, password);
    var r, account := ChangePassword(db, now, u, current, password), FindEmailAccountByUserId(db, u);
    if r.outcome.SessionStarted? {
      assert IsEmailAccountOf(r.db, account.value, u);
      FindsPassword(r.db, u, account.value);
    }
  }

  // ─── Coming back through Google ────────────────────────────────────────────

  /** A linked identity signs its user in, whatever address Google reports and whatever signup is pending. */
  lemma LinkedIdentitySignsIn(
    db: Db, now: Time, a: Id, googleId: string, rawEmail: string, verified: bool, pending: Option<Id>, random: string)
    requires Inv(db) && IsAccount(db, a, GOOGLE, googleId)
    ensures var r, u := GoogleLogin(db, now, googleId, rawEmail, verified, pending, random), db.accounts[a].userId;
      && (Live(db, u) && !db.users[u].suspended ==> r.outcome == SessionStarted(u, db.next))
      && (Live(db, u) && db.users[u].suspended ==> r == Refuse(db, AccountSuspended))
      && (!Live(db, u) && pending.None? ==> r == Refuse(db, AccountDeleted))
  {
    FindsIdentity(db, a, GOOGLE, googleId);
  }

  /** Whoever a Google sign-in makes is live, at the address Google reported and in the session started,
      and is signed in by that identity from then on, whatever is reported with it. */
  lemma GoogleSignupThenReturn(
    db: Db, now: Time, googleId: string, rawEmail: string, verified: bool, pending: Option<Id>, random: string,
    db': Db, u: Id, s: Id, later: Time, reported: string, again: Option<Id>)
    requires Inv(db) && u !in db.users
    requires GoogleLogin(db, now, googleId, rawEmail, verified, pending, random) == Result(db', SessionStarted(u, s))
    ensures u == db.next && Live(db', u) && db'.users[u].email == Normalize(rawEmail)
    ensures s in db'.sessions && db'.sessions[s].userId == u
    ensures GoogleLogin(db', later, googleId, reported, verified, again, random).outcome == SessionStarted(u, db'.next)
  {
    SignupStateIs(db, now, googleId, rawEmail, verified, pending, random, db', u, s);
    SignupThenReturn(SignupState(db, googleId), now, googleId, rawEmail, verified, pending, random, db', u, s, later,
        reported, again);
  }

  lemma SignupThenReturn(
    db: Db, now: Time, googleId: string, rawEmail: string, verified: bool, pending: Option<Id>, random: string,
    db': Db, u: Id, s: Id, later: Time, reported: string, again: Option<Id>)
    requires Inv(db)
    requires GoogleWithoutAccount(db, now, googleId, rawEmail, verified, pending, random)
      == Result(db', SessionStarted(u, s))
    ensures u == db.next && Live(db', u) && db'.users[u].email == Normalize(rawEmail)
    ensures s in db'.sessions && db'.sessions[s].userId == u
    ensures GoogleLogin(db', later, googleId, reported, verified, again, random).outcome == SessionStarted(u, db'.next)
  {
    MadeSoundly(db, now, googleId, rawEmail, verified, pending, random, db', u, s);
    LinkedIdentitySignsIn(db', later, u + 1, googleId, reported, verified, again, random);
  }

  /** The tables as a sign-up finds them: without the identities of a deleted user who holds this one. */
  ghost function SignupState(db: Db, googleId: string): Db {
    var account := FindAuthAccount(db, GOOGLE, googleId);
    if account.Some? && !Live(db, db.accounts[account.value].userId)
    then ReleaseIdentityClaims(db, db.accounts[account.value].userId)
    else db
  }

  lemma SignupStateIs(
    db: Db, now: Time, googleId: string, rawEmail: string, verified: bool, pending: Option<Id>, random: string,
    db': Db, u: Id, s: Id)
    requires Inv(db) && u !in db.users
    requires GoogleLogin(db, now, googleId, rawEmail, verified, pending, random) == Result(db', SessionStarted(u, s))
    ensures var released := SignupState(db, googleId);
      && Inv(released) && released.next == db.next
      && GoogleWithoutAccount(released, now, googleId, rawEmail, verified, pending, random)
           == Result(db', SessionStarted(u, s))
  {
    var account := FindAuthAccount(db, GOOGLE, googleId);
    if account.Some? && !Live(db, db.accounts[account.value].userId) {
      InvReleaseIdentityClaims(db, db.accounts[account.value].userId);
    }
  }

  lemma MadeSoundly(
    db: Db, now: Time, googleId: string, rawEmail: string, verified: bool, pending: Option<Id>, random: string,
    db': Db, u: Id, s: Id)
    requires Inv(db)
    requires GoogleWithoutAccount(db, now, googleId, rawEmail, verified, pending, random)
      == Result(db', SessionStarted(u, s))
    ensures Inv(db') && u == db.next && IsAccount(db', u + 1, GOOGLE, googleId) && db'.accounts[u + 1].userId == u
    ensures Live(db', u) && !db'.users[u].suspended && db'.users[u].email == Normalize(rawEmail)
    ensures s in db'.sessions && db'.sessions[s].userId == u
  {
    InvGoogleWithoutAccount(db, now, googleId, rawEmail, verified, pending, random);
    MadeByGoogle(db, now, googleId, Normalize(rawEmail), pending, random, db', u, s);
  }

  lemma SignupWrites(db: Db, now: Time, googleId: string, email: string, pending: Option<Id>, random: string)
    ensures var r := GoogleSignup(db, now, googleId, email, pending, random);
      r.outcome.SessionStarted? ==>
        && pending.Some? && pending.value in db.pendings
        && var signup, consumed := db.pendings[pending.value], DeletePending(db, pending.value);
           var user := NewGoogleUser(email, ClaimUsername(consumed, signup.username, random), signup.dob);
           r == Result(NewGoogleSession(consumed, user, googleId, now), SessionStarted(db.next, db.next + 2))
  {
  }

  lemma SignupRefused(
    db: Db, now: Time, googleId: string, email: string, pending: Option<Id>, random: string, r: Result)
    requires r == GoogleSignup(db, now, googleId, email, pending, random)
    ensures r.outcome.SessionStarted? || (r.outcome.Refused? && r.db == db.(pendings := r.db.pendings))
  {
  }

  lemma NewSessionRows(db: Db, user: User, googleId: string, now: Time)
    ensures var db', u := NewGoogleSession(db, user, googleId, now), db.next;
      && IsAccount(db', u + 1, GOOGLE, googleId) && db'.accounts[u + 1].userId == u
      && u in db'.users && db'.users[u] == user && u + 2 in db'.sessions && db'.sessions[u + 2].userId == u
  {
  }

  lemma MadeByGoogle(
    db: Db, now: Time, googleId: string, email: string, pending: Option<Id>, random: string, db': Db, u: Id, s: Id)
    requires GoogleSignup(db, now, googleId, email, pending, random) == Result(db', SessionStarted(u, s))
    ensures u == db.next && IsAccount(db', u + 1, GOOGLE, googleId) && db'.accounts[u + 1].userId == u
    ensures Live(db', u) && !db'.users[u].suspended && db'.users[u].email == email
    ensures s in db'.sessions && db'.sessions[s].userId == u
  {
    SignupWrites(db, now, googleId, email, pending, random);
    var signup, consumed := db.pendings[pending.value], DeletePending(db, pending.value);
    NewSessionRows(consumed, NewGoogleUser(email, ClaimUsername(consumed, signup.username, random), signup.dob),
        googleId, now);
  }

  lemma LinkedTo(db: Db, now: Time, t: Id, password: string, db': Db, u: Id, s: Id)
    requires Inv(db) && LinkGoogle(db, now, t, password) == Result(db', SessionStarted(u, s))
    ensures UsableToken(db, t, GOOGLE_LINK) && u == db.tokens[t].userId && db.tokens[t].metadata.GoogleIdentity?
    ensures IsAccount(db', db.next, GOOGLE, db.tokens[t].metadata.googleId) && db'.accounts[db.next].userId == u
    ensures u in db'.users
    ensures db'.users[u] == db.users[u].(verified := db.users[u].verified || db.tokens[t].metadata.emailVerified)
    ensures PasswordOf(db, u) == Some(Bcrypt(password))
  {
    LinkGoogleWrites(db, now, t, password);
  }

  /** Linking takes the password of the user the token was issued to; from then on that identity signs that
      user in, and the address counts as verified only if Google said so. */
  lemma LinkThenReturn(
    db: Db, now: Time, t: Id, password: string, db': Db, u: Id, s: Id, later: Time, reported: string, verified: bool,
    pending: Option<Id>,
    random: string)
    requires Inv(db) && LinkGoogle(db, now, t, password) == Result(db', SessionStarted(u, s)) && Live(db, u)
    requires !db.users[u].suspended
    ensures u == db.tokens[t].userId && PasswordOf(db, u) == Some(Bcrypt(password))
    ensures GoogleLogin(db', later, db.tokens[t].metadata.googleId, reported, verified, pending, random).outcome
      == SessionStarted(u, db'.next)
  {
    InvLinkGoogle(db, now, t, password);
    LinkedTo(db, now, t, password, db', u, s);
    LinkedIdentitySignsIn(db', later, db.next, db.tokens[t].metadata.googleId, reported, verified, pending, random);
  }

  // ─── A new address ─────────────────────────────────────────────────────────

  lemma Granted(
    db: Db, now: Time, u: Id, s: Id, newEmail: string, password: Option<string>, asked: Db) returns (proved: Db)
    requires Inv(db) && RequestEmailChange(db, now, u, s, newEmail, password) == Result(asked, Done)
    ensures Inv(proved) && proved == db.(sessions := proved.sessions)
    ensures Live(proved, u) && !EmailInUse(proved, Normalize(newEmail))
    ensures asked == AskForEmail(proved, u, Normalize(newEmail), now)
  {
    proved := AssertRecentlyAuthenticated(db, now, u, s, password).db;
    InvAssertRecentlyAuthenticated(db, now, u, s, password);
    ProofWrites(db, now, u, s, password);
  }

  lemma AskWrites(db: Db, u: Id, address: string, now: Time)
    requires u in db.users && db.next !in db.tokens && !EmailInUse(db, address)
    ensures var asked := AskForEmail(db, u, address, now);
      && asked.next == db.next + 1 && asked.users == db.users[u := db.users[u].(pendingEmail := Some(address))]
      && db.next in asked.tokens
      && asked.tokens[db.next] == NewToken(u, EMAIL_CHANGE, NewEmail(address), now + PASSWORD_RESET_TOKEN_TTL)
      && (forall t :: t in db.tokens && Outstanding(db.tokens[t], u, EMAIL_CHANGE) ==>
            t in asked.tokens && asked.tokens[t].used)
      && (forall t :: t in db.tokens && db.tokens[t].used ==> t in asked.tokens && asked.tokens[t].used)
      && !EmailInUse(asked, address)
  {
    var asked := AskForEmail(db, u, address, now);
    assert forall v :: v in asked.users ==> v in db.users && asked.users[v].email == db.users[v].email;
  }

  lemma AskedFor(db: Db, now: Time, u: Id, s: Id, newEmail: string, password: Option<string>, asked: Db)
    requires Inv(db) && RequestEmailChange(db, now, u, s, newEmail, password) == Result(asked, Done)
    ensures Inv(asked) && Live(db, u) && !EmailInUse(asked, Normalize(newEmail))
    ensures asked.users == db.users[u := db.users[u].(pendingEmail := Some(Normalize(newEmail)))]
    ensures db.next in asked.tokens
    ensures asked.tokens[db.next]
      == NewToken(u, EMAIL_CHANGE, NewEmail(Normalize(newEmail)), now + PASSWORD_RESET_TOKEN_TTL)
    ensures forall t :: t in db.tokens && db.tokens[t].userId == u && db.tokens[t].kind == EMAIL_CHANGE ==>
      t in asked.tokens && asked.tokens[t].used
  {
    InvRequestEmailChange(db, now, u, s, newEmail, password);
    var proved := Granted(db, now, u, s, newEmail, password, asked);
    TokensBelow(db);
    AskWrites(proved, u, Normalize(newEmail), now);
    assert forall t :: t in db.tokens && db.tokens[t].userId == u && db.tokens[t].kind == EMAIL_CHANGE ==>
      db.tokens[t].used || Outstanding(db.tokens[t], u, EMAIL_CHANGE);
  }

  lemma TokensBelow(db: Db)
    requires Inv(db)
    ensures db.next !in db.tokens
  {
  }

  /** A request granted can be confirmed at once and for an hour, no longer, and the user is then at the address
      asked for, in its canonical form; only an empty address cannot. */
  lemma AskThenConfirm(
    db: Db, now: Time, u: Id, s: Id, newEmail: string, password: Option<string>, asked: Db, followed: Time)
    requires Inv(db) && RequestEmailChange(db, now, u, s, newEmail, password) == Result(asked, Done)
    ensures OwnersExist(asked)
    ensures ConfirmEmailChange(asked, followed, db.next).outcome == Done <==>
      followed <= now + 3_600_000 && Normalize(newEmail) != ""
    ensures ConfirmEmailChange(asked, followed, db.next).outcome == Done ==>
      var confirmed := ConfirmEmailChange(asked, followed, db.next).db;
      u in confirmed.users && confirmed.users[u].email == Normalize(newEmail)
  {
    AskedFor(db, now, u, s, newEmail, password, asked);
    ConfirmSucceedsIff(asked, followed, db.next);
    if ConfirmEmailChange(asked, followed, db.next).outcome == Done { ConfirmMovesBoth(asked, followed, db.next); }
  }

  /** Asking again makes the earlier link worthless. */
  lemma AskingAgainReplaces(
    db: Db, now: Time, u: Id, s: Id, newEmail: string, password: Option<string>, asked: Db, earlier: Id, followed: Time)
    requires Inv(db) && RequestEmailChange(db, now, u, s, newEmail, password) == Result(asked, Done)
    requires earlier in db.tokens && db.tokens[earlier].userId == u && db.tokens[earlier].kind == EMAIL_CHANGE
    ensures OwnersExist(asked) && ConfirmEmailChange(asked, followed, earlier) == Refuse(asked, TokenInvalid)
  {
    AskedFor(db, now, u, s, newEmail, password, asked);
    SpentIsRefusedHere(asked, followed, earlier);
  }

  lemma SpentIsRefusedHere(db: Db, now: Time, t: Id)
    requires OwnersExist(db) && t in db.tokens && db.tokens[t].used
    ensures ConfirmEmailChange(db, now, t) == Refuse(db, TokenInvalid)
  {
  }

  // ─── Leaving and coming back ───────────────────────────────────────────────

  lemma Gone(db: Db, u: Id, p: Pseudonym, gone: Db)
    requires Inv(db) && Live(db, u) && !Pseudonymous(db.users[u].email)
    requires AnonymiseAccount(db, u, p) == Result(gone, Done)
    ensures Inv(gone) && !EmailInUse(gone, db.users[u].email)
  {
    InvAnonymiseAccount(db, u, p);
    assert Pseudonymous(PseudonymEmail(p));
    assert EmailsUnique(db.users);
  }

  /** Whoever deletes their account can register again with the same address, under any name not in use,
      though the old account's identity still holds the address. */
  lemma DeleteThenRegister(
    db: Db, u: Id, p: Pseudonym, gone: Db, now: Time, rawEmail: string, password: string, username: string,
    dob: Option<Time>)
    requires Inv(db) && Live(db, u) && !Pseudonymous(db.users[u].email)
    requires AnonymiseAccount(db, u, p) == Result(gone, Done)
    requires Normalize(rawEmail) == db.users[u].email && Qualifies(dob, now)
    ensures Register(gone, now, rawEmail, password, username, dob, true).outcome
      == if UsernameInUse(gone, username) then Refused(UniqueViolation) else UserCreated(gone.next)
  {
    Gone(db, u, p, gone);
    NobodyThere(gone, db.users[u].email);
    RegisterCollidesIff(gone, now, rawEmail, password, username, dob, true);
    RegisterWrites(gone, now, rawEmail, password, username, dob, true);
  }

  lemma NobodyThere(db: Db, email: string)
    requires !EmailInUse(db, email)
    ensures FindUserByEmail(db, email).None?
  {
    assert forall u :: !IsUserByEmail(db, u, email);
  }
}
