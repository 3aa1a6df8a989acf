/** What no operation takes back: users that stay, dates of birth that keep qualifying, sessions that do not
    return and tokens that stay spent. */
module AuthHistory {
  import opened Text
  import opened AuthTables
  import opened AuthSpec
  import opened AuthInvariant

  type Dobs = iset<Option<Time>>

  /** The dates of birth the age gate lets through at this moment. */
  ghost function Adults(now: Time): Dobs {
    iset dob: Option<Time> | Qualifies(dob, now)
  }

  /** Rows of users stay, deletion is for good, a live user's date of birth stays or becomes one of the
      adults', and whoever is new is among the adults. */
  ghost predicate UsersFollow(users: Users, users': Users, next: Id, adults: Dobs) {
    && (forall u :: u in users ==> u in users')
    && (forall u :: u in users && users[u].deleted ==> users'[u].deleted)
    && (forall u :: u in users && !users'[u].deleted ==> users'[u].dob == users[u].dob || users'[u].dob in adults)
    && (forall u :: u in users' && u !in users ==> next <= u && (users'[u].deleted || users'[u].dob in adults))
  }

  /** A session gone is gone: numbers are not reused, and a session keeps its holder. */
  ghost predicate SessionsFollow(sessions: map<Id, Session>, sessions': map<Id, Session>, next: Id) {
    forall s :: s in sessions' && s < next ==> s in sessions && sessions'[s].userId == sessions[s].userId
  }

  predicate TokenFollows(token: Token, token': Token) {
    token' == token || token' == token.(used := true)
  }

  /** A token gone is gone, and a token kept says what it said, used or not. */
  ghost predicate TokensFollow(tokens: Tokens, tokens': Tokens, next: Id) {
    forall t :: t in tokens' && t < next ==> t in tokens && TokenFollows(tokens[t], tokens'[t])
  }

  ghost predicate PendingsFollow(
    pendings: map<Id, PendingSignup>, pendings': map<Id, PendingSignup>, next: Id, adults: Dobs) {
    forall p :: p in pendings' ==>
      (p in pendings && pendings'[p] == pendings[p]) || (next <= p && Some(pendings'[p].dob) in adults)
  }

  ghost predicate Follows(db: Db, db': Db, adults: Dobs) {
    && db.next <= db'.next
    && UsersFollow(db.users, db'.users, db.next, adults)
    && SessionsFollow(db.sessions, db'.sessions, db.next)
    && TokensFollow(db.tokens, db'.tokens, db.next)
    && PendingsFollow(db.pendings, db'.pendings, db.next, adults)
  }

  lemma FollowsTransitive(a: Db, b: Db, c: Db, adults: Dobs)
    requires Follows(a, b, adults) && Follows(b, c, adults)
    ensures Follows(a, c, adults)
  {
  }

  // ─── Writes ────────────────────────────────────────────────────────────────

  lemma FollowSessions(db: Db, sessions: map<Id, Session>, next: Id, adults: Dobs)
    requires db.next <= next && SessionsFollow(db.sessions, sessions, db.next)
    ensures Follows(db, db.(sessions := sessions, next := next), adults)
  {
  }

  lemma FollowTokens(db: Db, tokens: Tokens, next: Id, adults: Dobs)
    requires db.next <= next && TokensFollow(db.tokens, tokens, db.next)
    ensures Follows(db, db.(tokens := tokens, next := next), adults)
  {
  }

  lemma FollowAccounts(db: Db, accounts: Accounts, next: Id, adults: Dobs)
    requires db.next <= next
    ensures Follows(db, db.(accounts := accounts, next := next), adults)
  {
  }

  lemma FollowLockouts(db: Db, db': Db, adults: Dobs)
    requires db' == db.(lockouts := db'.lockouts)
    ensures Follows(db, db', adults)
  {
  }

  lemma FollowPendings(db: Db, pendings: map<Id, PendingSignup>, next: Id, adults: Dobs)
    requires db.next <= next && PendingsFollow(db.pendings, pendings, db.next, adults)
    ensures Follows(db, db.(pendings := pendings, next := next), adults)
  {
  }

  lemma FollowSetUser(db: Db, u: Id, user: User, adults: Dobs)
    requires u in db.users && (db.users[u].deleted ==> user.deleted)
    requires user.deleted || user.dob == db.users[u].dob || user.dob in adults
    ensures Follows(db, SetUser(db, u, user), adults)
  {
  }

  lemma FollowInsertUser(
    db: Db, user: User, provider: Provider, identifier: string, hash: Option<PasswordHash>, adults: Dobs)
    requires UsersOk(db.users, db.next) && user.dob in adults
    ensures Follows(db, InsertUser(db, user, provider, identifier, hash), adults)
  {
  }

  lemma FollowInsertSession(db: Db, session: Session, adults: Dobs)
    ensures Follows(db, InsertSession(db, session), adults)
  {
    FollowSessions(db, InsertSession(db, session).sessions, db.next + 1, adults);
  }

  lemma FollowMarkTokenUsed(db: Db, t: Id, adults: Dobs)
    requires t in db.tokens
    ensures Follows(db, MarkTokenUsed(db, t), adults)
  {
    FollowTokens(db, MarkTokenUsed(db, t).tokens, db.next, adults);
  }

  lemma ReissueFollows(db: Db, u: Id, kind: TokenType, metadata: Metadata, expiresAt: Time)
    requires forall t :: t in db.tokens ==> t < db.next
    ensures TokensFollow(db.tokens, Reissue(db, u, kind, metadata, expiresAt).tokens, db.next)
  {
  }

  lemma FollowReissue(db: Db, u: Id, kind: TokenType, metadata: Metadata, expiresAt: Time, adults: Dobs)
    requires Inv(db)
    ensures Follows(db, Reissue(db, u, kind, metadata, expiresAt), adults)
  {
    ReissueFollows(db, u, kind, metadata, expiresAt);
    FollowTokens(db, Reissue(db, u, kind, metadata, expiresAt).tokens, db.next + 1, adults);
  }

  lemma FollowDeleteAllUserSessions(db: Db, u: Id, adults: Dobs)
    ensures Follows(db, DeleteAllUserSessions(db, u), adults)
  {
    FollowSessions(db, DeleteAllUserSessions(db, u).sessions, db.next, adults);
  }

  lemma FollowSetSession(db: Db, s: Id, session: Session, adults: Dobs)
    requires s in db.sessions && session.userId == db.sessions[s].userId
    ensures Follows(db, SetSession(db, s, session), adults)
  {
    FollowSessions(db, SetSession(db, s, session).sessions, db.next, adults);
  }

  // ─── Operations ────────────────────────────────────────────────────────────

  lemma FollowRegister(
    db: Db, now: Time, rawEmail: string, password: string, username: string, dob: Option<Time>, known: bool,
    adults: Dobs)
    requires Inv(db) && (Qualifies(dob, now) ==> dob in adults)
    ensures Follows(db, Register(db, now, rawEmail, password, username, dob, known).db, adults)
  {
    var email := Normalize(rawEmail);
    var released := ReleaseStaleClaim(db, email);
    RegisterWrites(db, now, rawEmail, password, username, dob, known);
    ReleaseStaleClaimFrame(db, email);
    FollowAccounts(db, released.accounts, db.next, adults);
    if Register(db, now, rawEmail, password, username, dob, known).outcome.UserCreated? {
      FollowNewUserWithToken(released, NewEmailUser(email, username, dob), Bcrypt(password),
          now + VERIFICATION_TOKEN_TTL, adults);
      FollowsTransitive(db, released, Register(db, now, rawEmail, password, username, dob, known).db, adults);
    }
  }

  lemma ReleaseStaleClaimFrame(db: Db, email: string)
    ensures ReleaseStaleClaim(db, email) == db.(accounts := ReleaseStaleClaim(db, email).accounts)
    ensures forall a :: a in ReleaseStaleClaim(db, email).accounts ==>
      a in db.accounts && ReleaseStaleClaim(db, email).accounts[a] == db.accounts[a]
  {
  }

  lemma FollowNewUserWithToken(db: Db, user: User, hash: PasswordHash, expiresAt: Time, adults: Dobs)
    requires UsersOk(db.users, db.next) && TokensOk(db.users, db.tokens, db.next) && user.dob in adults
    ensures Follows(db, InsertToken(InsertUser(db, user, EMAIL, user.email, Some(hash)),
                                    NewToken(db.next, EMAIL_VERIFICATION, NoMetadata, expiresAt)), adults)
  {
    var created := InsertUser(db, user, EMAIL, user.email, Some(hash));
    var token := NewToken(db.next, EMAIL_VERIFICATION, NoMetadata, expiresAt);
    FollowInsertUser(db, user, EMAIL, user.email, Some(hash), adults);
    FollowTokens(created, InsertToken(created, token).tokens, created.next + 1, adults);
    FollowsTransitive(db, created, InsertToken(created, token), adults);
  }

  lemma FollowLogin(db: Db, now: Time, rawEmail: string, password: string, adults: Dobs)
    ensures Follows(db, Login(db, now, rawEmail, password).db, adults)
  {
    var email := Normalize(rawEmail);
    FollowLockouts(db, db, adults);
    FollowLockouts(db, RecordFailure(db, email, now), adults);
    var cleared := db.(lockouts := db.lockouts - {email});
    if FindUserByEmail(db, email).Some? {
      var session := NewSession(FindUserByEmail(db, email).value, now);
      FollowLockouts(db, cleared, adults);
      FollowInsertSession(cleared, session, adults);
      FollowsTransitive(db, cleared, InsertSession(cleared, session), adults);
    }
  }

  lemma FollowStartGoogleSignup(db: Db, now: Time, username: string, dob: Option<Time>, known: bool, adults: Dobs)
    requires Qualifies(dob, now) ==> dob in adults
    ensures Follows(db, StartGoogleSignup(db, now, username, dob, known).db, adults)
  {
    FollowLockouts(db, db, adults);
    if StartGoogleSignup(db, now, username, dob, known).outcome.SignupPending? {
      var pending := PendingSignup(username, dob.value, now + PENDING_SIGNUP_TTL);
      FollowPendings(db, InsertPending(db, pending).pendings, db.next + 1, adults);
    }
  }

  /** The birth date a pending signup carries. */
  function SignupDob(db: Db, pending: Option<Id>): Option<Time> {
    if pending.Some? && pending.value in db.pendings then Some(db.pendings[pending.value].dob) else None
  }

  lemma FollowGoogleWithoutAccount(
    db: Db, now: Time, googleId: string, rawEmail: string, emailVerified: bool, pending: Option<Id>, random: string,
    adults: Dobs)
    requires Inv(db) && (Qualifies(SignupDob(db, pending), now) ==> SignupDob(db, pending) in adults)
    ensures Follows(db, GoogleWithoutAccount(db, now, googleId, rawEmail, emailVerified, pending, random).db, adults)
  {
    var email := Normalize(rawEmail);
    var existing := FindUserByEmail(db, email);
    GoogleWithoutAccountWrites(db, now, googleId, rawEmail, emailVerified, pending, random);
    FollowLockouts(db, db, adults);
    if existing.Some? {
      FollowReissue(db, existing.value, GOOGLE_LINK, GoogleIdentity(googleId, emailVerified),
          now + GOOGLE_LINK_TOKEN_TTL, adults);
    } else if pending.Some? && pending.value in db.pendings {
      var signup, consumed := db.pendings[pending.value], DeletePending(db, pending.value);
      var user := NewGoogleUser(email, ClaimUsername(consumed, signup.username, random), signup.dob);
      FollowPendings(db, consumed.pendings, db.next, adults);
      if user.dob in adults {
        FollowNewGoogleUser(consumed, user, googleId, now, adults);
        FollowsTransitive(db, consumed, NewGoogleSession(consumed, user, googleId, now), adults);
      }
    }
  }

  lemma FollowNewGoogleUser(db: Db, user: User, googleId: string, now: Time, adults: Dobs)
    requires UsersOk(db.users, db.next) && user.dob in adults
    ensures Follows(db, NewGoogleSession(db, user, googleId, now), adults)
  {
    var created := InsertUser(db, user, GOOGLE, googleId, None);
    FollowInsertUser(db, user, GOOGLE, googleId, None, adults);
    FollowInsertSession(created, NewSession(db.next, now), adults);
    FollowsTransitive(db, created, InsertSession(created, NewSession(db.next, now)), adults);
  }

  lemma FollowGoogleLogin(
    db: Db, now: Time, googleId: string, rawEmail: string, emailVerified: bool, pending: Option<Id>, random: string,
    adults: Dobs)
    requires Inv(db) && (Qualifies(SignupDob(db, pending), now) ==> SignupDob(db, pending) in adults)
    ensures Follows(db, GoogleLogin(db, now, googleId, rawEmail, emailVerified, pending, random).db, adults)
  {
    var account := FindAuthAccount(db, GOOGLE, googleId);
    FollowLockouts(db, db, adults);
    if account.None? {
      FollowGoogleWithoutAccount(db, now, googleId, rawEmail, emailVerified, pending, random, adults);
    } else {
      var u := db.accounts[account.value].userId;
      if Live(db, u) {
        FollowInsertSession(db, NewSession(u, now), adults);
      } else {
        var released := ReleaseIdentityClaims(db, u);
        InvReleaseIdentityClaims(db, u);
        FollowAccounts(db, released.accounts, db.next, adults);
        FollowGoogleWithoutAccount(released, now, googleId, rawEmail, emailVerified, pending, random, adults);
        FollowsTransitive(db, released,
            GoogleWithoutAccount(released, now, googleId, rawEmail, emailVerified, pending, random).db, adults);
      }
    }
  }

  lemma FollowVerified(db: Db, u: Id, adults: Dobs)
    requires u in db.users
    ensures Follows(db, SetVerified(db, u), adults)
  {
    FollowSetUser(db, u, db.users[u].(verified := true), adults);
  }

  lemma FollowLink(db: Db, t: Id, account: Account, verify: bool, session: Session, adults: Dobs)
    requires t in db.tokens && account.userId in db.users
    ensures var linked := MarkTokenUsed(InsertAccount(db, account), t);
      Follows(db, InsertSession(if verify then SetVerified(linked, account.userId) else linked, session), adults)
  {
    var inserted := InsertAccount(db, account);
    var linked := MarkTokenUsed(inserted, t);
    var verified := if verify then SetVerified(linked, account.userId) else linked;
    FollowAccounts(db, inserted.accounts, db.next + 1, adults);
    FollowMarkTokenUsed(inserted, t, adults);
    FollowsTransitive(db, inserted, linked, adults);
    FollowVerified(linked, account.userId, adults);
    if verify { FollowsTransitive(db, linked, verified, adults); }
    FollowInsertSession(verified, session, adults);
    FollowsTransitive(db, verified, InsertSession(verified, session), adults);
  }

  lemma FollowLinkGoogle(db: Db, now: Time, t: Id, password: string, adults: Dobs)
    requires OwnersExist(db)
    ensures Follows(db, LinkGoogle(db, now, t, password).db, adults)
  {
    LinkGoogleWrites(db, now, t, password);
    FollowLockouts(db, db, adults);
    if LinkGoogle(db, now, t, password).outcome.SessionStarted? {
      var u, identity := db.tokens[t].userId, db.tokens[t].metadata;
      FollowLink(db, t, Account(u, GOOGLE, identity.googleId, None), identity.emailVerified, NewSession(u, now),
          adults);
    }
  }

  lemma FollowVerifyEmail(db: Db, now: Time, t: Id, adults: Dobs)
    requires OwnersExist(db)
    ensures Follows(db, VerifyEmail(db, now, t).db, adults)
  {
    FollowLockouts(db, db, adults);
    if TokenRefusal(db, now, t, EMAIL_VERIFICATION).None? {
      var spent := MarkTokenUsed(db, t);
      FollowMarkTokenUsed(db, t, adults);
      FollowVerified(spent, db.tokens[t].userId, adults);
      FollowsTransitive(db, spent, SetVerified(spent, db.tokens[t].userId), adults);
    }
  }

  lemma FollowResendVerification(db: Db, now: Time, rawEmail: string, adults: Dobs)
    requires Inv(db)
    ensures Follows(db, ResendVerification(db, now, rawEmail).db, adults)
  {
    var found := FindUserByEmail(db, Normalize(rawEmail));
    FollowLockouts(db, db, adults);
    if found.Some? {
      FollowReissue(db, found.value, EMAIL_VERIFICATION, NoMetadata, now + VERIFICATION_TOKEN_TTL, adults);
    }
  }

  lemma FollowForgotPassword(db: Db, now: Time, rawEmail: string, adults: Dobs)
    requires Inv(db)
    ensures Follows(db, ForgotPassword(db, now, rawEmail).db, adults)
  {
    var found := FindUserByEmail(db, Normalize(rawEmail));
    FollowLockouts(db, db, adults);
    if found.Some? {
      FollowReissue(db, found.value, PASSWORD_RESET, NoMetadata, now + PASSWORD_RESET_TOKEN_TTL, adults);
    }
  }

  lemma FollowFinishReset(db: Db, u: Id, t: Id, adults: Dobs)
    requires u in db.users && t in db.tokens
    ensures Follows(db, FinishReset(db, u, t), adults)
  {
    var spent := MarkTokenUsed(db, t);
    var verified := SetVerified(spent, u);
    FollowMarkTokenUsed(db, t, adults);
    FollowVerified(spent, u, adults);
    FollowsTransitive(db, spent, verified, adults);
    FollowDeleteAllUserSessions(verified, u, adults);
    FollowsTransitive(db, verified, DeleteAllUserSessions(verified, u), adults);
  }

  lemma FollowResetPassword(db: Db, now: Time, t: Id, password: string, adults: Dobs)
    requires OwnersExist(db)
    ensures Follows(db, ResetPassword(db, now, t, password).db, adults)
  {
    ResetPasswordWrites(db, now, t, password);
    FollowLockouts(db, db, adults);
    if ResetPassword(db, now, t, password).outcome == Done {
      var accounts := PasswordStored(db, t, password);
      FollowAccounts(db, accounts.accounts, accounts.next, adults);
      FollowFinishReset(accounts, db.tokens[t].userId, t, adults);
      FollowsTransitive(db, accounts, FinishReset(accounts, db.tokens[t].userId, t), adults);
    }
  }

  /** The tables once the reset has stored the password. */
  ghost function PasswordStored(db: Db, t: Id, password: string): Db
    requires t in db.tokens && db.tokens[t].userId in db.users
  {
    var u := db.tokens[t].userId;
    var account := FindEmailAccountByUserId(db, u);
    if account.Some? then SetPasswordHash(db, account.value, Bcrypt(password))
    else InsertAccount(db, Account(u, EMAIL, db.users[u].email, Some(Bcrypt(password))))
  }

  lemma ResetPasswordWrites(db: Db, now: Time, t: Id, password: string)
    requires OwnersExist(db)
    ensures var r := ResetPassword(db, now, t, password);
      || (r.outcome.Refused? && r.db == db)
      || (&& UsableToken(db, t, PASSWORD_RESET) && r.outcome == Done
          && r.db == FinishReset(PasswordStored(db, t, password), db.tokens[t].userId, t))
  {
  }

  lemma FollowChangePassword(db: Db, now: Time, u: Id, current: string, password: string, adults: Dobs)
    ensures Follows(db, ChangePassword(db, now, u, current, password).db, adults)
  {
    FollowLockouts(db, db, adults);
    var account := FindEmailAccountByUserId(db, u);
    if ChangePassword(db, now, u, current, password).outcome.SessionStarted? {
      var changed := SetPasswordHash(db, account.value, Bcrypt(password));
      var ended := DeleteAllUserSessions(changed, u);
      FollowAccounts(db, changed.accounts, db.next, adults);
      FollowDeleteAllUserSessions(changed, u, adults);
      FollowsTransitive(db, changed, ended, adults);
      FollowInsertSession(ended, NewSession(u, now), adults);
      FollowsTransitive(db, ended, InsertSession(ended, NewSession(u, now)), adults);
    }
  }

  lemma FollowAssertRecentlyAuthenticated(db: Db, now: Time, u: Id, s: Id, password: Option<string>, adults: Dobs)
    ensures Follows(db, AssertRecentlyAuthenticated(db, now, u, s, password).db, adults)
  {
    FollowLockouts(db, db, adults);
    if s in db.sessions { FollowSetSession(db, s, db.sessions[s].(reauthenticatedAt := None), adults); }
  }

  lemma FollowReauthenticateWithGoogle(db: Db, now: Time, u: Id, s: Id, googleId: string, adults: Dobs)
    ensures Follows(db, ReauthenticateWithGoogle(db, now, u, s, googleId).db, adults)
  {
    FollowLockouts(db, db, adults);
    if s in db.sessions { FollowSetSession(db, s, db.sessions[s].(reauthenticatedAt := Some(now)), adults); }
  }

  lemma FollowDisconnect(db: Db, u: Id, provider: Provider, target: Id, adults: Dobs)
    ensures Follows(db, Disconnect(db, u, provider, target).db, adults)
  {
    FollowAccounts(db, db.accounts, db.next, adults);
    FollowAccounts(db, db.accounts - {target}, db.next, adults);
  }

  lemma FollowAskForEmail(db: Db, u: Id, address: string, now: Time, adults: Dobs)
    requires Inv(db) && Live(db, u)
    ensures Follows(db, AskForEmail(db, u, address, now), adults)
  {
    var asked := SetUser(db, u, db.users[u].(pendingEmail := Some(address)));
    var tokens := AskForEmail(db, u, address, now).tokens;
    FollowSetUser(db, u, db.users[u].(pendingEmail := Some(address)), adults);
    assert forall t :: t in db.tokens ==> t < db.next;
    FollowTokens(asked, tokens, db.next + 1, adults);
    FollowsTransitive(db, asked, AskForEmail(db, u, address, now), adults);
  }

  lemma FollowRequestEmailChange(
    db: Db, now: Time, u: Id, s: Id, newEmail: string, password: Option<string>, adults: Dobs)
    requires Inv(db)
    ensures Follows(db, RequestEmailChange(db, now, u, s, newEmail, password).db, adults)
  {
    var proved := AssertRecentlyAuthenticated(db, now, u, s, password).db;
    InvAssertRecentlyAuthenticated(db, now, u, s, password);
    RequestEmailChangeWrites(db, now, u, s, newEmail, password);
    FollowLockouts(db, db, adults);
    FollowAssertRecentlyAuthenticated(db, now, u, s, password, adults);
    if RequestEmailChange(db, now, u, s, newEmail, password).outcome == Done {
      FollowAskForEmail(proved, u, Normalize(newEmail), now, adults);
      FollowsTransitive(db, proved, AskForEmail(proved, u, Normalize(newEmail), now), adults);
    }
  }

  lemma FollowApply(db: Db, u: Id, email: string, t: Id, adults: Dobs)
    requires u in db.users && t in db.tokens
    ensures Follows(db, MarkTokenUsed(ApplyEmailChange(db, u, email), t), adults)
  {
    var renamed := SetUser(db, u, db.users[u].(email := email, pendingEmail := None));
    var applied := ApplyEmailChange(db, u, email);
    FollowSetUser(db, u, db.users[u].(email := email, pendingEmail := None), adults);
    FollowAccounts(renamed, applied.accounts, db.next, adults);
    FollowsTransitive(db, renamed, applied, adults);
    FollowMarkTokenUsed(applied, t, adults);
    FollowsTransitive(db, applied, MarkTokenUsed(applied, t), adults);
  }

  lemma FollowConfirmEmailChange(db: Db, now: Time, t: Id, adults: Dobs)
    requires Inv(db)
    ensures Follows(db, ConfirmEmailChange(db, now, t).db, adults)
  {
    ConfirmEmailChangeWrites(db, now, t);
    FollowLockouts(db, db, adults);
    if ConfirmEmailChange(db, now, t).outcome == Done {
      var u := db.tokens[t].userId;
      var email := db.users[u].pendingEmail.value;
      var released := ReleaseOtherClaim(db, u, email);
      ReleaseOtherClaimFrame(db, u, email);
      FollowAccounts(db, released.accounts, db.next, adults);
      FollowApply(released, u, email, t, adults);
      FollowsTransitive(db, released, MarkTokenUsed(ApplyEmailChange(released, u, email), t), adults);
    }
  }

  lemma FollowValidateSession(db: Db, now: Time, s: Id, adults: Dobs)
    requires Inv(db)
    ensures Follows(db, ValidateSession(db, now, s).db, adults)
  {
    FollowLockouts(db, db, adults);
    FollowSessions(db, db.sessions - {s}, db.next, adults);
    if s in db.sessions { FollowSetSession(db, s, db.sessions[s].(expiresAt := now + SESSION_TTL), adults); }
  }

  lemma FollowCompleteOnboarding(db: Db, u: Id, username: Option<string>, adults: Dobs)
    requires u in db.users
    ensures Follows(db, CompleteOnboarding(db, u, username).db, adults)
  {
    FollowLockouts(db, db, adults);
    if Given(username) { FollowSetUser(db, u, db.users[u].(username := username.value), adults); }
  }

  lemma FollowGrantAdmin(db: Db, rawEmail: string, allowUnverified: bool, adults: Dobs)
    ensures Follows(db, GrantAdmin(db, rawEmail, allowUnverified).db, adults)
  {
    var holder := HolderOf(db, Trim(rawEmail));
    FollowLockouts(db, db, adults);
    if holder.Some? {
      FollowSetUser(db, holder.value, db.users[holder.value].(roles := db.users[holder.value].roles + {ADMIN}), adults);
    }
  }

  lemma FollowUpdateOwnProfile(
    db: Db, now: Time, u: Id, username: Option<string>, dob: Option<Option<Time>>, adults: Dobs)
    requires u in db.users && (dob.Some? && Qualifies(dob.value, now) ==> dob.value in adults)
    ensures Follows(db, UpdateOwnProfile(db, now, u, username, dob).db, adults)
  {
    FollowLockouts(db, db, adults);
    if !(dob.Some? && !Qualifies(dob.value, now)) { FollowSetUser(db, u, Edited(db.users[u], username, dob), adults); }
  }

  lemma FollowBecomeVratmitra(db: Db, u: Id, adults: Dobs)
    requires u in db.users
    ensures Follows(db, BecomeVratmitra(db, u), adults)
  {
    FollowSetUser(db, u, db.users[u].(roles := db.users[u].roles + {VRATMITRA}), adults);
  }

  lemma FollowCleanUpExpired(db: Db, now: Time, adults: Dobs)
    ensures Follows(db, CleanUpExpired(db, now), adults)
  {
    var cleaned := CleanUpExpired(db, now);
    var fewer := db.(tokens := cleaned.tokens);
    var fewest := fewer.(sessions := cleaned.sessions);
    FollowTokens(db, cleaned.tokens, db.next, adults);
    FollowSessions(fewer, cleaned.sessions, db.next, adults);
    FollowsTransitive(db, fewer, fewest, adults);
    FollowPendings(fewest, cleaned.pendings, db.next, adults);
    FollowsTransitive(db, fewest, cleaned, adults);
  }

  lemma FollowSetSuspended(db: Db, actor: Id, target: Id, suspended: bool, adults: Dobs)
    ensures Follows(db, SetSuspended(db, actor, target, suspended).db, adults)
  {
    FollowLockouts(db, db, adults);
    if target in db.users {
      var marked := SetUser(db, target, db.users[target].(suspended := suspended));
      FollowSetUser(db, target, db.users[target].(suspended := suspended), adults);
      FollowDeleteAllUserSessions(marked, target, adults);
      FollowsTransitive(db, marked, DeleteAllUserSessions(marked, target), adults);
    }
  }

  lemma FollowForceLogout(db: Db, actor: Id, target: Id, adults: Dobs)
    ensures Follows(db, ForceLogout(db, actor, target).db, adults)
  {
    FollowLockouts(db, db, adults);
    FollowDeleteAllUserSessions(db, target, adults);
  }

  lemma FollowUpdateRoles(db: Db, actor: Id, target: Id, add: set<Role>, remove: set<Role>, adults: Dobs)
    ensures Follows(db, UpdateRoles(db, actor, target, add, remove).db, adults)
  {
    FollowLockouts(db, db, adults);
    if target in db.users {
      FollowSetUser(db, target, db.users[target].(roles := db.users[target].roles - remove + add), adults);
    }
  }

  lemma FollowAnonymiseAccount(db: Db, u: Id, p: Pseudonym, adults: Dobs)
    requires u in db.users
    ensures Follows(db, AnonymiseAccount(db, u, p).db, adults)
  {
    var renamed := SetUser(db, u, Anonymous(db.users[u], p));
    var cleared := ClearStoredPasswords(renamed, u);
    FollowLockouts(db, db, adults);
    FollowSetUser(db, u, Anonymous(db.users[u], p), adults);
    FollowAccounts(renamed, cleared.accounts, db.next, adults);
    FollowsTransitive(db, renamed, cleared, adults);
    FollowDeleteAllUserSessions(cleared, u, adults);
    FollowsTransitive(db, cleared, DeleteAllUserSessions(cleared, u), adults);
  }

  lemma FollowAnonymise(db: Db, actor: Id, target: Id, p: Pseudonym, adults: Dobs)
    ensures Follows(db, Anonymise(db, actor, target, p).db, adults)
  {
    FollowLockouts(db, db, adults);
    if target in db.users { FollowAnonymiseAccount(db, target, p, adults); }
  }

  lemma FollowSelfDelete(db: Db, now: Time, u: Id, s: Id, password: Option<string>, p: Pseudonym, adults: Dobs)
    requires u in db.users
    ensures Follows(db, SelfDelete(db, now, u, s, password, p).db, adults)
  {
    var proved := AssertRecentlyAuthenticated(db, now, u, s, password).db;
    FollowAssertRecentlyAuthenticated(db, now, u, s, password, adults);
    FollowAnonymiseAccount(proved, u, p, adults);
    FollowsTransitive(db, proved, AnonymiseAccount(proved, u, p).db, adults);
  }

  lemma FollowSweep(db: Db, now: Time, adults: Dobs)
    ensures Follows(db, DeleteExpiredPendingSignups(db, now), adults)
  {
    FollowPendings(db, DeleteExpiredPendingSignups(db, now).pendings, db.next, adults);
  }
}
