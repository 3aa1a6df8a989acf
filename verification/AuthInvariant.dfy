/** Every operation keeps the invariant of the tables. */
module AuthInvariant {
  import opened Text
  import opened AuthTables
  import opened AuthSpec

  /** Rows the invariant does not read may change freely. */
  lemma SameTables(db: Db, db': Db)
    requires Inv(db)
    requires db'.users == db.users && db'.accounts == db.accounts && db'.tokens == db.tokens
    requires db'.sessions == db.sessions && db'.next == db.next
    requires forall p :: p in db'.pendings ==> p in db.pendings
    ensures Inv(db')
  {
  }

  lemma InvInsertSession(db: Db, u: Id, now: Time)
    requires Inv(db) && u in db.users
    ensures Inv(InsertSession(db, NewSession(u, now)))
  {
    InvSessions(db, InsertSession(db, NewSession(u, now)).sessions, db.next + 1);
  }

  lemma InvFewerSessions(db: Db, sessions: map<Id, Session>)
    requires Inv(db) && forall s :: s in sessions ==> s in db.sessions && sessions[s].userId == db.sessions[s].userId
    ensures Inv(db.(sessions := sessions))
  {
    InvSessions(db, sessions, db.next);
  }

  lemma InvSetVerified(db: Db, u: Id)
    requires Inv(db) && u in db.users
    ensures Inv(SetVerified(db, u))
  {
    OtherNames(db, u);
    InvSetUser(db, u, db.users[u].(verified := true));
  }

  lemma InvReissue(db: Db, u: Id, kind: TokenType, metadata: Metadata, expiresAt: Time)
    requires Inv(db) && u in db.users
    requires kind == EMAIL_CHANGE && Live(db, u) ==>
      db.users[u].pendingEmail.Some? && metadata == NewEmail(db.users[u].pendingEmail.value)
    ensures Inv(Reissue(db, u, kind, metadata, expiresAt))
  {
    InvInvalidateTokens(db, u, kind);
    InvInsertToken(InvalidateTokens(db, u, kind), NewToken(u, kind, metadata, expiresAt));
  }

  lemma InvReleaseStaleClaim(db: Db, email: string)
    requires Inv(db)
    ensures Inv(ReleaseStaleClaim(db, email))
  {
    var claim := FindAuthAccount(db, EMAIL, email);
    if claim.Some? && !Live(db, db.accounts[claim.value].userId) {
      InvReleaseIdentityClaims(db, db.accounts[claim.value].userId);
    }
  }

  lemma NormalNormalize(raw: string)
    ensures Normal(Normalize(raw))
  {
    NormalizeIdempotent(raw);
  }

  lemma NoTokensYet(db: Db, user: User, provider: Provider, identifier: string, hash: Option<PasswordHash>)
    requires Inv(db)
    ensures var created := InsertUser(db, user, provider, identifier, hash);
      forall t, kind :: t in created.tokens ==> !Outstanding(created.tokens[t], db.next, kind)
  {
    assert forall t :: t in db.tokens ==> db.tokens[t].userId in db.users;
  }

  lemma InvNewUserWithToken(db: Db, user: User, hash: PasswordHash, expiresAt: Time)
    requires Inv(db) && !InsertCollides(db, user.email, user.username, EMAIL, user.email)
    requires Normal(user.email) && user.pendingEmail.None? && !user.deleted
    ensures Inv(InsertToken(InsertUser(db, user, EMAIL, user.email, Some(hash)),
                            NewToken(db.next, EMAIL_VERIFICATION, NoMetadata, expiresAt)))
  {
    var created := InsertUser(db, user, EMAIL, user.email, Some(hash));
    InvInsertUser(db, user, EMAIL, user.email, Some(hash));
    NoTokensYet(db, user, EMAIL, user.email, Some(hash));
    InvInsertToken(created, NewToken(db.next, EMAIL_VERIFICATION, NoMetadata, expiresAt));
  }

  lemma RegisterWrites(
    db: Db, now: Time, rawEmail: string, password: string, username: string, dob: Option<Time>, known: bool)
    ensures var r, email := Register(db, now, rawEmail, password, username, dob, known), Normalize(rawEmail);
      var released := ReleaseStaleClaim(db, email);
      || (r.outcome.Refused? && (r.db == db || r.db == released))
      || (&& r.outcome == UserCreated(db.next)
          && Qualifies(dob, now) && FindUserByEmail(db, email).None?
          && !InsertCollides(released, email, username, EMAIL, email)
          && r.db == InsertToken(InsertUser(released, NewEmailUser(email, username, dob), EMAIL, email,
                                            Some(Bcrypt(password))),
                                 NewToken(db.next, EMAIL_VERIFICATION, NoMetadata, now + VERIFICATION_TOKEN_TTL)))
  {
  }

  lemma InvRegister(
    db: Db, now: Time, rawEmail: string, password: string, username: string, dob: Option<Time>, known: bool)
    requires Inv(db)
    ensures Inv(Register(db, now, rawEmail, password, username, dob, known).db)
  {
    var email := Normalize(rawEmail);
    var released := ReleaseStaleClaim(db, email);
    InvReleaseStaleClaim(db, email);
    NormalNormalize(rawEmail);
    RegisterWrites(db, now, rawEmail, password, username, dob, known);
    if Register(db, now, rawEmail, password, username, dob, known).outcome.UserCreated? {
      InvNewUserWithToken(released, NewEmailUser(email, username, dob), Bcrypt(password), now + VERIFICATION_TOKEN_TTL);
    }
  }

  lemma InvLogin(db: Db, now: Time, rawEmail: string, password: string)
    requires Inv(db)
    ensures Inv(Login(db, now, rawEmail, password).db)
  {
    var email := Normalize(rawEmail);
    SameTables(db, RecordFailure(db, email, now));
    var cleared := db.(lockouts := db.lockouts - {email});
    SameTables(db, cleared);
    if FindUserByEmail(db, email).Some? {
      InvInsertSession(cleared, FindUserByEmail(db, email).value, now);
    }
  }

  lemma InvStartGoogleSignup(db: Db, now: Time, username: string, dob: Option<Time>, known: bool)
    requires Inv(db)
    ensures Inv(StartGoogleSignup(db, now, username, dob, known).db)
  {
    if dob.Some? {
      InvInsertPending(db, PendingSignup(username, dob.value, now + PENDING_SIGNUP_TTL));
    }
  }

  lemma InvInsertPending(db: Db, pending: PendingSignup)
    requires Inv(db)
    ensures Inv(InsertPending(db, pending))
  {
  }

  /** The new user, the Google account and the first session. */
  function NewGoogleSession(db: Db, user: User, googleId: string, now: Time): Db {
    InsertSession(InsertUser(db, user, GOOGLE, googleId, None), NewSession(db.next, now))
  }

  lemma GoogleWithoutAccountWrites(
    db: Db, now: Time, googleId: string, rawEmail: string, emailVerified: bool, pending: Option<Id>, random: string)
    ensures var r := GoogleWithoutAccount(db, now, googleId, rawEmail, emailVerified, pending, random);
      var email := Normalize(rawEmail);
      var existing := FindUserByEmail(db, email);
      if existing.Some? then
        r.db == Reissue(db, existing.value, GOOGLE_LINK, GoogleIdentity(googleId, emailVerified),
                        now + GOOGLE_LINK_TOKEN_TTL)
      else if pending.None? || pending.value !in db.pendings then r.db == db
      else
        var signup, consumed := db.pendings[pending.value], DeletePending(db, pending.value);
        var user := NewGoogleUser(email, ClaimUsername(consumed, signup.username, random), signup.dob);
        || r.db == consumed
        || (&& now <= signup.expiresAt && Qualifies(user.dob, now)
            && !InsertCollides(consumed, email, user.username, GOOGLE, googleId)
            && r.db == NewGoogleSession(consumed, user, googleId, now))
  {
  }

  lemma InvNewGoogleSession(db: Db, user: User, googleId: string, now: Time)
    requires Inv(db) && !InsertCollides(db, user.email, user.username, GOOGLE, googleId)
    requires Normal(user.email) && user.pendingEmail.None? && !user.deleted
    ensures Inv(NewGoogleSession(db, user, googleId, now))
  {
    InvInsertUser(db, user, GOOGLE, googleId, None);
    InvInsertSession(InsertUser(db, user, GOOGLE, googleId, None), db.next, now);
  }

  lemma InvGoogleWithoutAccount(
    db: Db, now: Time, googleId: string, rawEmail: string, emailVerified: bool, pending: Option<Id>, random: string)
    requires Inv(db)
    ensures Inv(GoogleWithoutAccount(db, now, googleId, rawEmail, emailVerified, pending, random).db)
  {
    var email := Normalize(rawEmail);
    var existing := FindUserByEmail(db, email);
    GoogleWithoutAccountWrites(db, now, googleId, rawEmail, emailVerified, pending, random);
    NormalNormalize(rawEmail);
    if existing.Some? {
      InvReissue(db, existing.value, GOOGLE_LINK, GoogleIdentity(googleId, emailVerified), now + GOOGLE_LINK_TOKEN_TTL);
    } else if pending.Some? && pending.value in db.pendings {
      var signup, consumed := db.pendings[pending.value], DeletePending(db, pending.value);
      var user := NewGoogleUser(email, ClaimUsername(consumed, signup.username, random), signup.dob);
      SameTables(db, consumed);
      if !InsertCollides(consumed, email, user.username, GOOGLE, googleId) {
        InvNewGoogleSession(consumed, user, googleId, now);
      }
    }
  }

  lemma InvGoogleLogin(
    db: Db, now: Time, googleId: string, rawEmail: string, emailVerified: bool, pending: Option<Id>, random: string)
    requires Inv(db)
    ensures Inv(GoogleLogin(db, now, googleId, rawEmail, emailVerified, pending, random).db)
  {
    var account := FindAuthAccount(db, GOOGLE, googleId);
    if account.None? {
      InvGoogleWithoutAccount(db, now, googleId, rawEmail, emailVerified, pending, random);
    } else {
      var u := db.accounts[account.value].userId;
      if Live(db, u) {
        InvInsertSession(db, u, now);
      } else {
        InvReleaseIdentityClaims(db, u);
        InvGoogleWithoutAccount(ReleaseIdentityClaims(db, u), now, googleId, rawEmail, emailVerified, pending, random);
      }
    }
  }

  lemma InvLink(db: Db, t: Id, googleId: string, verify: bool, now: Time)
    requires Inv(db) && t in db.tokens && FindAuthAccount(db, GOOGLE, googleId).None?
    ensures var u := db.tokens[t].userId;
      var linked := MarkTokenUsed(InsertAccount(db, Account(u, GOOGLE, googleId, None)), t);
      Inv(InsertSession(if verify then SetVerified(linked, u) else linked, NewSession(u, now)))
  {
    var u := db.tokens[t].userId;
    var inserted := InsertAccount(db, Account(u, GOOGLE, googleId, None));
    var linked := MarkTokenUsed(inserted, t);
    InvInsertAccount(db, Account(u, GOOGLE, googleId, None));
    InvMarkTokenUsed(inserted, t);
    if verify {
      InvSetVerified(linked, u);
      InvInsertSession(SetVerified(linked, u), u, now);
    } else {
      InvInsertSession(linked, u, now);
    }
  }

  lemma LinkGoogleWrites(db: Db, now: Time, t: Id, password: string)
    requires OwnersExist(db)
    ensures var r := LinkGoogle(db, now, t, password);
      || (r.outcome.Refused? && r.db == db)
      || (&& UsableToken(db, t, GOOGLE_LINK) && now <= db.tokens[t].expiresAt && db.tokens[t].metadata.GoogleIdentity?
          && var u, identity := db.tokens[t].userId, db.tokens[t].metadata;
          && FindAuthAccount(db, GOOGLE, identity.googleId).None?
          && r.outcome == SessionStarted(u, db.next + 1)
          && var linked := MarkTokenUsed(InsertAccount(db, Account(u, GOOGLE, identity.googleId, None)), t);
             r.db == InsertSession(if identity.emailVerified then SetVerified(linked, u) else linked,
                                   NewSession(u, now)))
  {
  }

  lemma InvLinkGoogle(db: Db, now: Time, t: Id, password: string)
    requires Inv(db)
    ensures Inv(LinkGoogle(db, now, t, password).db)
  {
    LinkGoogleWrites(db, now, t, password);
    if LinkGoogle(db, now, t, password).outcome.SessionStarted? {
      var identity := db.tokens[t].metadata;
      InvLink(db, t, identity.googleId, identity.emailVerified, now);
    }
  }

  lemma InvVerifyEmail(db: Db, now: Time, t: Id)
    requires Inv(db)
    ensures Inv(VerifyEmail(db, now, t).db)
  {
    if TokenRefusal(db, now, t, EMAIL_VERIFICATION).None? {
      InvMarkTokenUsed(db, t);
      InvSetVerified(MarkTokenUsed(db, t), db.tokens[t].userId);
    }
  }

  lemma InvResendVerification(db: Db, now: Time, rawEmail: string)
    requires Inv(db)
    ensures Inv(ResendVerification(db, now, rawEmail).db)
  {
    var found := FindUserByEmail(db, Normalize(rawEmail));
    if found.Some? {
      InvReissue(db, found.value, EMAIL_VERIFICATION, NoMetadata, now + VERIFICATION_TOKEN_TTL);
    }
  }

  lemma InvForgotPassword(db: Db, now: Time, rawEmail: string)
    requires Inv(db)
    ensures Inv(ForgotPassword(db, now, rawEmail).db)
  {
    var found := FindUserByEmail(db, Normalize(rawEmail));
    if found.Some? {
      InvReissue(db, found.value, PASSWORD_RESET, NoMetadata, now + PASSWORD_RESET_TOKEN_TTL);
    }
  }

  lemma InvFinishReset(db: Db, u: Id, t: Id)
    requires Inv(db) && u in db.users && t in db.tokens
    ensures Inv(FinishReset(db, u, t))
  {
    InvMarkTokenUsed(db, t);
    InvSetVerified(MarkTokenUsed(db, t), u);
    var verified := SetVerified(MarkTokenUsed(db, t), u);
    InvFewerSessions(verified, DeleteAllUserSessions(verified, u).sessions);
  }

  lemma InvResetPassword(db: Db, now: Time, t: Id, password: string)
    requires Inv(db)
    ensures Inv(ResetPassword(db, now, t, password).db)
  {
    if TokenRefusal(db, now, t, PASSWORD_RESET).None? {
      var u := db.tokens[t].userId;
      var account := FindEmailAccountByUserId(db, u);
      if account.Some? {
        InvSetPasswordHash(db, account.value, Bcrypt(password));
        InvFinishReset(SetPasswordHash(db, account.value, Bcrypt(password)), u, t);
      } else if Live(db, u) && FindAuthAccount(db, EMAIL, db.users[u].email).None? {
        var first := Account(u, EMAIL, db.users[u].email, Some(Bcrypt(password)));
        InvInsertAccount(db, first);
        InvFinishReset(InsertAccount(db, first), u, t);
      }
    }
  }

  lemma InvChangePassword(db: Db, now: Time, u: Id, current: string, password: string)
    requires Inv(db) && u in db.users
    ensures Inv(ChangePassword(db, now, u, current, password).db)
  {
    var account := FindEmailAccountByUserId(db, u);
    if account.Some? {
      var changed := SetPasswordHash(db, account.value, Bcrypt(password));
      InvSetPasswordHash(db, account.value, Bcrypt(password));
      InvFewerSessions(changed, DeleteAllUserSessions(changed, u).sessions);
      InvInsertSession(DeleteAllUserSessions(changed, u), u, now);
    }
  }

  lemma InvSetSession(db: Db, s: Id, session: Session)
    requires Inv(db) && s in db.sessions && session.userId == db.sessions[s].userId
    ensures Inv(SetSession(db, s, session))
  {
    InvFewerSessions(db, db.sessions[s := session]);
  }

  lemma InvAssertRecentlyAuthenticated(db: Db, now: Time, u: Id, s: Id, password: Option<string>)
    requires Inv(db)
    ensures Inv(AssertRecentlyAuthenticated(db, now, u, s, password).db)
    ensures AssertRecentlyAuthenticated(db, now, u, s, password).db.users == db.users
  {
    ProofWrites(db, now, u, s, password);
    if s in db.sessions {
      InvSetSession(db, s, db.sessions[s].(reauthenticatedAt := None));
    }
  }

  lemma ProofWrites(db: Db, now: Time, u: Id, s: Id, password: Option<string>)
    ensures var db' := AssertRecentlyAuthenticated(db, now, u, s, password).db;
      db' == db || (s in db.sessions && db' == SetSession(db, s, db.sessions[s].(reauthenticatedAt := None)))
  {
  }

  lemma InvReauthenticateWithGoogle(db: Db, now: Time, u: Id, s: Id, googleId: string)
    requires Inv(db)
    ensures Inv(ReauthenticateWithGoogle(db, now, u, s, googleId).db)
  {
    if s in db.sessions {
      InvSetSession(db, s, db.sessions[s].(reauthenticatedAt := Some(now)));
    }
  }

  lemma InvDisconnect(db: Db, u: Id, provider: Provider, target: Id)
    requires Inv(db)
    ensures Inv(Disconnect(db, u, provider, target).db)
  {
    if IsAccountOf(db, target, u, provider) && OtherLogin(db, u, target) {
      var b :| b != target && IsLogin(db.accounts, b, u);
      InvDeleteAccount(db, target, b);
    }
  }

  /** The pending address and its token change together: spending the old tokens first gives the same
      rows. */
  lemma InvAskForEmail(db: Db, u: Id, address: string, expiresAt: Time)
    requires Inv(db) && Live(db, u) && Normal(address)
    ensures Inv(Reissue(SetUser(db, u, db.users[u].(pendingEmail := Some(address))), u, EMAIL_CHANGE, NewEmail(address),
                        expiresAt))
  {
    var user := db.users[u].(pendingEmail := Some(address));
    var spent := InvalidateTokens(db, u, EMAIL_CHANGE);
    InvInvalidateTokens(db, u, EMAIL_CHANGE);
    OtherNames(spent, u);
    InvSetUser(spent, u, user);
    InvInsertToken(SetUser(spent, u, user), NewToken(u, EMAIL_CHANGE, NewEmail(address), expiresAt));
    assert SetUser(spent, u, user) == InvalidateTokens(SetUser(db, u, user), u, EMAIL_CHANGE);
  }

  lemma RequestEmailChangeWrites(db: Db, now: Time, u: Id, s: Id, newEmail: string, password: Option<string>)
    ensures var r, proved := RequestEmailChange(db, now, u, s, newEmail, password),
                             AssertRecentlyAuthenticated(db, now, u, s, password).db;
      && proved.users == db.users
      && (|| (r.outcome.Refused? && (r.db == db || r.db == proved))
          || (r.outcome == Done && Live(db, u) && r.db == AskForEmail(proved, u, Normalize(newEmail), now)))
  {
  }

  lemma InvRequestEmailChange(db: Db, now: Time, u: Id, s: Id, newEmail: string, password: Option<string>)
    requires Inv(db)
    ensures Inv(RequestEmailChange(db, now, u, s, newEmail, password).db)
  {
    InvAssertRecentlyAuthenticated(db, now, u, s, password);
    NormalNormalize(newEmail);
    RequestEmailChangeWrites(db, now, u, s, newEmail, password);
    if Live(db, u) {
      InvAskForEmail(AssertRecentlyAuthenticated(db, now, u, s, password).db, u, Normalize(newEmail),
                     now + PASSWORD_RESET_TOKEN_TTL);
    }
  }

  lemma InvReleaseOtherClaim(db: Db, u: Id, email: string)
    requires Inv(db) && !LiveClaimByOther(db, u, email)
    ensures Inv(ReleaseOtherClaim(db, u, email))
    ensures var released := ReleaseOtherClaim(db, u, email);
      forall a :: IsAccount(released, a, EMAIL, email) ==> released.accounts[a].userId == u
  {
    var claim := FindAuthAccount(db, EMAIL, email);
    if claim.Some? && db.accounts[claim.value].userId != u {
      InvReleaseIdentityClaims(db, db.accounts[claim.value].userId);
    }
    var released := ReleaseOtherClaim(db, u, email);
    forall a | IsAccount(released, a, EMAIL, email)
      ensures released.accounts[a].userId == u
    {
      assert IsAccount(db, a, EMAIL, email);
    }
  }

  lemma SpentTokenLeavesNone(db: Db, t: Id)
    requires Inv(db) && UsableToken(db, t, EMAIL_CHANGE)
    ensures var tokens := MarkTokenUsed(db, t).tokens;
      forall s :: s in tokens ==> !Outstanding(tokens[s], db.tokens[t].userId, EMAIL_CHANGE)
  {
  }

  /** The address moves and the token is spent together: spending it first gives the same rows. */
  lemma InvMoveAddress(db: Db, u: Id, t: Id, email: string)
    requires Inv(db) && UsableToken(db, t, EMAIL_CHANGE) && db.tokens[t].userId == u
    requires Live(db, u) && Normal(email) && !EmailInUse(db, email)
    requires forall a :: IsAccount(db, a, EMAIL, email) ==> db.accounts[a].userId == u
    ensures Inv(MarkTokenUsed(ApplyEmailChange(db, u, email), t))
  {
    var spent := MarkTokenUsed(db, t);
    InvMarkTokenUsed(db, t);
    SpentTokenLeavesNone(db, t);
    InvApplyEmailChangeOn(spent, db, u, email);
    SpendThenMove(db, u, t, email);
  }

  lemma SpendThenMove(db: Db, u: Id, t: Id, email: string)
    requires u in db.users && t in db.tokens
    ensures ApplyEmailChange(MarkTokenUsed(db, t), u, email) == MarkTokenUsed(ApplyEmailChange(db, u, email), t)
  {
  }

  /** The same with the claims on the address read before the token was spent. */
  lemma InvApplyEmailChangeOn(spent: Db, db: Db, u: Id, email: string)
    requires Inv(spent) && spent.users == db.users && spent.accounts == db.accounts
    requires Live(db, u) && Normal(email) && !EmailInUse(db, email)
    requires forall a :: IsAccount(db, a, EMAIL, email) ==> db.accounts[a].userId == u
    requires forall t :: t in spent.tokens ==> !Outstanding(spent.tokens[t], u, EMAIL_CHANGE)
    ensures Inv(ApplyEmailChange(spent, u, email))
  {
    assert forall a :: IsAccount(spent, a, EMAIL, email) ==> IsAccount(db, a, EMAIL, email);
    InvApplyEmailChange(spent, u, email);
  }

  lemma PendingIsNormal(db: Db, u: Id)
    requires Inv(db) && u in db.users && db.users[u].pendingEmail.Some?
    ensures Live(db, u) && Normal(db.users[u].pendingEmail.value)
  {
    assert EmailsNormal(db.users);
  }

  lemma ReleaseOtherClaimFrame(db: Db, u: Id, email: string)
    ensures var released := ReleaseOtherClaim(db, u, email);
      released == db.(accounts := released.accounts)
  {
  }

  lemma ConfirmEmailChangeWrites(db: Db, now: Time, t: Id)
    requires Inv(db)
    ensures var r := ConfirmEmailChange(db, now, t);
      || (r.outcome.Refused? && r.db == db)
      || (&& UsableToken(db, t, EMAIL_CHANGE) && now <= db.tokens[t].expiresAt
          && var u := db.tokens[t].userId;
          && db.users[u].pendingEmail.Some?
          && var email := db.users[u].pendingEmail.value;
          && !EmailInUse(db, email) && !LiveClaimByOther(db, u, email)
          && r == Result(MarkTokenUsed(ApplyEmailChange(ReleaseOtherClaim(db, u, email), u, email), t), Done))
  {
    var u := if t in db.tokens then db.tokens[t].userId else 0;
    if u in db.users && db.users[u].pendingEmail.Some? {
      var email := db.users[u].pendingEmail.value;
      if !EmailInUse(db, email) && !LiveClaimByOther(db, u, email) { ChangeNeverCollides(db, u, email); }
    }
  }

  /** Once the two checks have passed and a deleted user's claim is let go, moving the address breaks no
      unique index. */
  lemma ChangeNeverCollides(db: Db, u: Id, email: string)
    requires Inv(db) && !EmailInUse(db, email) && !LiveClaimByOther(db, u, email)
    ensures var released := ReleaseOtherClaim(db, u, email);
      !ChangeCollides(released.users, released.accounts, u, email)
  {
    ReleaseOtherClaimFrame(db, u, email);
    InvReleaseOtherClaim(db, u, email);
    var released := ReleaseOtherClaim(db, u, email);
    forall a | a in released.accounts && Identifies(released.accounts[a], EMAIL, email)
      ensures released.accounts[a].userId == u
    {
      assert IsAccount(released, a, EMAIL, email);
    }
  }

  lemma InvConfirmEmailChange(db: Db, now: Time, t: Id)
    requires Inv(db)
    ensures Inv(ConfirmEmailChange(db, now, t).db)
  {
    ConfirmEmailChangeWrites(db, now, t);
    if ConfirmEmailChange(db, now, t).outcome == Done {
      var u := db.tokens[t].userId;
      var email := db.users[u].pendingEmail.value;
      PendingIsNormal(db, u);
      InvReleaseOtherClaim(db, u, email);
      ReleaseOtherClaimFrame(db, u, email);
      InvMoveAddress(ReleaseOtherClaim(db, u, email), u, t, email);
    }
  }

  lemma InvValidateSession(db: Db, now: Time, s: Id)
    requires Inv(db)
    ensures Inv(ValidateSession(db, now, s).db)
  {
    if s in db.sessions {
      InvFewerSessions(db, db.sessions - {s});
      InvSetSession(db, s, db.sessions[s].(expiresAt := now + SESSION_TTL));
    }
  }

  lemma InvCompleteOnboarding(db: Db, u: Id, username: Option<string>)
    requires Inv(db) && u in db.users
    ensures Inv(CompleteOnboarding(db, u, username).db)
  {
    OtherNames(db, u);
    if Given(username) && !NameRowOfOther(db, u, username.value) {
      InvSetUser(db, u, db.users[u].(username := username.value));
    }
  }

  lemma InvUpdateOwnProfile(db: Db, now: Time, u: Id, username: Option<string>, dob: Option<Option<Time>>)
    requires Inv(db) && u in db.users
    ensures Inv(UpdateOwnProfile(db, now, u, username, dob).db)
  {
    OtherNames(db, u);
    if !(username.Some? && NameRowOfOther(db, u, Lower(username.value))) {
      InvSetUser(db, u, Edited(db.users[u], username, dob));
    }
  }

  lemma InvBecomeVratmitra(db: Db, u: Id)
    requires Inv(db) && u in db.users
    ensures Inv(BecomeVratmitra(db, u))
  {
    InvSetFlags(db, u, db.users[u].suspended, db.users[u].roles + {VRATMITRA});
  }

  lemma InvFewerTokens(db: Db, tokens: Tokens)
    requires Inv(db) && forall t :: t in tokens ==> t in db.tokens && tokens[t] == db.tokens[t]
    ensures Inv(db.(tokens := tokens))
  {
  }

  lemma InvCleanUpExpired(db: Db, now: Time)
    requires Inv(db)
    ensures Inv(CleanUpExpired(db, now))
  {
    var cleaned := CleanUpExpired(db, now);
    InvFewerTokens(db, cleaned.tokens);
    InvFewerSessions(db.(tokens := cleaned.tokens), cleaned.sessions);
    SameTables(db.(tokens := cleaned.tokens, sessions := cleaned.sessions), cleaned);
  }

  lemma InvSetFlags(db: Db, u: Id, suspended: bool, roles: set<Role>)
    requires Inv(db) && u in db.users
    ensures Inv(SetUser(db, u, db.users[u].(suspended := suspended, roles := roles)))
  {
    OtherNames(db, u);
    InvSetUser(db, u, db.users[u].(suspended := suspended, roles := roles));
  }

  lemma InvGrantAdmin(db: Db, rawEmail: string, allowUnverified: bool)
    requires Inv(db)
    ensures Inv(GrantAdmin(db, rawEmail, allowUnverified).db)
  {
    var holder := HolderOf(db, Trim(rawEmail));
    if holder.Some? {
      InvSetFlags(db, holder.value, db.users[holder.value].suspended, db.users[holder.value].roles + {ADMIN});
    }
  }

  lemma InvDeleteAllUserSessions(db: Db, u: Id)
    requires Inv(db)
    ensures Inv(DeleteAllUserSessions(db, u))
  {
    InvFewerSessions(db, DeleteAllUserSessions(db, u).sessions);
  }

  lemma InvSetSuspended(db: Db, actor: Id, target: Id, suspended: bool)
    requires Inv(db)
    ensures Inv(SetSuspended(db, actor, target, suspended).db)
  {
    if target in db.users {
      InvSetFlags(db, target, suspended, db.users[target].roles);
      InvDeleteAllUserSessions(SetUser(db, target, db.users[target].(suspended := suspended)), target);
    }
  }

  lemma InvForceLogout(db: Db, actor: Id, target: Id)
    requires Inv(db)
    ensures Inv(ForceLogout(db, actor, target).db)
  {
    InvDeleteAllUserSessions(db, target);
  }

  lemma InvUpdateRoles(db: Db, actor: Id, target: Id, add: set<Role>, remove: set<Role>)
    requires Inv(db)
    ensures Inv(UpdateRoles(db, actor, target, add, remove).db)
  {
    if target in db.users {
      InvSetFlags(db, target, db.users[target].suspended, db.users[target].roles - remove + add);
    }
  }

  lemma InvAnonymiseAccount(db: Db, u: Id, p: Pseudonym)
    requires Inv(db) && u in db.users
    ensures Inv(AnonymiseAccount(db, u, p).db)
  {
    if !PseudonymCollides(db, u, p) {
      var renamed := SetUser(db, u, Anonymous(db.users[u], p));
      InvSetUser(db, u, Anonymous(db.users[u], p));
      InvClearStoredPasswords(renamed, u);
      InvDeleteAllUserSessions(ClearStoredPasswords(renamed, u), u);
    }
  }

  lemma InvAnonymise(db: Db, actor: Id, target: Id, p: Pseudonym)
    requires Inv(db)
    ensures Inv(Anonymise(db, actor, target, p).db)
  {
    if target in db.users { InvAnonymiseAccount(db, target, p); }
  }

  lemma InvSelfDelete(db: Db, now: Time, u: Id, s: Id, password: Option<string>, p: Pseudonym)
    requires Inv(db) && u in db.users
    ensures Inv(SelfDelete(db, now, u, s, password, p).db)
  {
    InvAssertRecentlyAuthenticated(db, now, u, s, password);
    InvAnonymiseAccount(AssertRecentlyAuthenticated(db, now, u, s, password).db, u, p);
  }
}
