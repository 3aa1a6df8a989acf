/** The links sent and what following them does: recovery, verification, linking with Google, and the proof of
    presence, each from the request that starts it to the one that ends it, with its time written out. */
module AuthRecovery {
  import opened Text
  import opened AuthTables
  import opened AuthSpec
  import opened AuthInvariant
  import opened AuthIdentity
  import opened AuthJourneys
  import Lockout

  // ─── Issuing ───────────────────────────────────────────────────────────────

  /** Between the two states one token has been issued: it is as given and carries the next number, every
      earlier one of that user and kind is spent, and nothing else has changed. */
  ghost predicate Issued(db: Db, db': Db, token: Token) {
    && db' == db.(tokens := db'.tokens, next := db.next + 1)
    && db.next in db'.tokens && db'.tokens[db.next] == token
    && (forall t :: t in db'.tokens ==> t in db.tokens || t == db.next)
    && (forall t :: t in db.tokens ==>
          && t in db'.tokens
          && db'.tokens[t] == if db.tokens[t].userId == token.userId && db.tokens[t].kind == token.kind
                              then db.tokens[t].(used := true) else db.tokens[t])
  }

  lemma ReissueIssues(db: Db, u: Id, kind: TokenType, metadata: Metadata, expiresAt: Time)
    requires Inv(db)
    ensures Issued(db, Reissue(db, u, kind, metadata, expiresAt), Token(u, kind, metadata, expiresAt, false))
  {
  }

  lemma IssuedOwners(db: Db, db': Db, token: Token)
    requires OwnersExist(db) && Issued(db, db', token) && token.userId in db.users
    ensures OwnersExist(db')
  {
  }

  /** The user at this address, if a live one is. */
  lemma TheOneFound(db: Db, rawEmail: string, u: Id)
    requires Inv(db) && IsUserByEmail(db, u, Normalize(rawEmail))
    ensures FindUserByEmail(db, Normalize(rawEmail)) == Some(u)
  {
    FindsUser(db, u, Normalize(rawEmail));
  }

  // ─── Recovering a password ─────────────────────────────────────────────────

  ghost predicate HasPassword(db: Db, u: Id) {
    exists a :: IsEmailAccountOf(db, a, u) && db.accounts[a].passwordHash.Some?
  }

  lemma PasswordIsSome(db: Db, u: Id)
    requires Inv(db)
    ensures PasswordOf(db, u).Some? <==> HasPassword(db, u)
  {
    if a :| IsEmailAccountOf(db, a, u) { FindsPassword(db, u, a); }
  }

  /** Asking for a reset is answered by whether there is a live user at the address and whether that user has a
      password. Either way the user is issued one token, good for an hour, and loses the earlier ones. */
  lemma ForgotAnswers(db: Db, now: Time, rawEmail: string, u: Id, r: Result)
    requires Inv(db) && r == ForgotPassword(db, now, rawEmail)
    ensures IsUserByEmail(db, u, Normalize(rawEmail)) ==>
      && r.outcome == (if HasPassword(db, u) then ResetSent else SetPasswordSent)
      && Issued(db, r.db, Token(u, PASSWORD_RESET, NoMetadata, now + 3_600_000, false))
    ensures (forall v :: !IsUserByEmail(db, v, Normalize(rawEmail))) <==> r == Result(db, NoAccount)
  {
    if IsUserByEmail(db, u, Normalize(rawEmail)) {
      TheOneFound(db, rawEmail, u);
      PasswordIsSome(db, u);
      ReissueIssues(db, u, PASSWORD_RESET, NoMetadata, now + 3_600_000);
    }
  }

  /** The first password of this user would meet a deleted user's claim on the address. */
  ghost predicate FirstPasswordMeetsClaim(db: Db, u: Id)
    requires u in db.users
  {
    && (forall a :: !IsEmailAccountOf(db, a, u))
    && exists a :: IsAccount(db, a, EMAIL, db.users[u].email) && !Live(db, db.accounts[a].userId)
  }

  lemma SameClaims(db: Db, sent: Db, u: Id)
    requires sent.users == db.users && sent.accounts == db.accounts && u in db.users
    ensures FirstPasswordMeetsClaim(sent, u) <==> FirstPasswordMeetsClaim(db, u)
  {
    assert forall a :: IsEmailAccountOf(sent, a, u) == IsEmailAccountOf(db, a, u);
    assert forall a :: IsAccount(sent, a, EMAIL, db.users[u].email) == IsAccount(db, a, EMAIL, db.users[u].email);
    assert forall v :: Live(sent, v) == Live(db, v);
  }

  lemma ResetAnswers(db: Db, now: Time, t: Id, password: string)
    requires Inv(db) && UsableToken(db, t, PASSWORD_RESET) && Live(db, db.tokens[t].userId)
    ensures ResetPassword(db, now, t, password).outcome
      == if db.tokens[t].expiresAt < now then Refused(TokenExpired)
         else if FirstPasswordMeetsClaim(db, db.tokens[t].userId) then Refused(UniqueViolation)
         else Done
  {
    FirstPasswordCollidesIff(db, now, t, password);
  }

  /** The link works for an hour, with any password, unless it would be a first password on an address a deleted
      user still claims. */
  lemma ForgotThenReset(
    db: Db, now: Time, rawEmail: string, u: Id, sent: Db, followed: Time, password: string)
    requires Inv(db) && IsUserByEmail(db, u, Normalize(rawEmail)) && sent == ForgotPassword(db, now, rawEmail).db
    ensures Inv(sent) && ResetPassword(sent, followed, db.next, password).outcome
      == if now + 3_600_000 < followed then Refused(TokenExpired)
         else if FirstPasswordMeetsClaim(db, u) then Refused(UniqueViolation)
         else Done
  {
    ForgotAnswers(db, now, rawEmail, u, ForgotPassword(db, now, rawEmail));
    InvForgotPassword(db, now, rawEmail);
    SameClaims(db, sent, u);
    ResetAnswers(sent, followed, db.next, password);
  }

  /** Every earlier reset token of that user is refused from then on. */
  lemma ForgettingAgainReplaces(
    db: Db, now: Time, rawEmail: string, u: Id, sent: Db, earlier: Id, followed: Time, password: string)
    requires Inv(db) && IsUserByEmail(db, u, Normalize(rawEmail)) && sent == ForgotPassword(db, now, rawEmail).db
    requires earlier in db.tokens && db.tokens[earlier].userId == u && db.tokens[earlier].kind == PASSWORD_RESET
    ensures Inv(sent) && ResetPassword(sent, followed, earlier, password) == Refuse(sent, TokenInvalid)
  {
    ForgotAnswers(db, now, rawEmail, u, ForgotPassword(db, now, rawEmail));
    InvForgotPassword(db, now, rawEmail);
  }

  /** From having forgotten the password to being in again: after the reset exactly the new password is right. */
  lemma ForgotThenLogin(
    db: Db, now: Time, rawEmail: string, u: Id, sent: Db, followed: Time, password: string, done: Db, tried: string,
    later: Time)
    requires Inv(db) && IsUserByEmail(db, u, Normalize(rawEmail)) && !db.users[u].suspended
    requires sent == ForgotPassword(db, now, rawEmail).db && followed <= now + 3_600_000
    requires !FirstPasswordMeetsClaim(db, u) && !Lockout.Locked(Lockout.Look(db.lockouts, db.users[u].email), later)
    requires Inv(sent) && done == ResetPassword(sent, followed, db.next, password).db
    ensures Login(done, later, db.users[u].email, tried).outcome
      == if tried == password then SessionStarted(u, done.next) else Refused(InvalidCredentials)
  {
    ForgotThenReset(db, now, rawEmail, u, sent, followed, password);
    ForgotAnswers(db, now, rawEmail, u, ForgotPassword(db, now, rawEmail));
    ResetThenLogin(sent, followed, db.next, password, done, tried, later);
  }

  // ─── Verifying an address ──────────────────────────────────────────────────

  /** The user may be sent another verification link: live, unverified, with an EMAIL account. */
  ghost predicate AwaitsLink(db: Db, u: Id, email: string) {
    IsUserByEmail(db, u, email) && !db.users[u].verified && exists a :: IsEmailAccountOf(db, a, u)
  }

  lemma FoundAwaits(db: Db, rawEmail: string, found: Option<Id>)
    requires Inv(db) && found == FindUserByEmail(db, Normalize(rawEmail))
    ensures (exists v :: AwaitsLink(db, v, Normalize(rawEmail))) <==>
      found.Some? && !db.users[found.value].verified && FindEmailAccountByUserId(db, found.value).Some?
  {
    forall v: Id | AwaitsLink(db, v, Normalize(rawEmail))
      ensures found == Some(v)
    {
      TheOneFound(db, rawEmail, v);
    }
    if found.Some? && !db.users[found.value].verified && FindEmailAccountByUserId(db, found.value).Some? {
      assert AwaitsLink(db, found.value, Normalize(rawEmail));
    }
  }

  /** Asking for another link is always answered alike; a link good for 24 hours goes out exactly to an
      unverified user with an EMAIL account at the address, who loses the earlier ones. */
  lemma ResendAnswers(db: Db, now: Time, rawEmail: string, u: Id, r: Result)
    requires Inv(db) && r == ResendVerification(db, now, rawEmail)
    ensures r.outcome == Done
    ensures AwaitsLink(db, u, Normalize(rawEmail)) ==>
      Issued(db, r.db, Token(u, EMAIL_VERIFICATION, NoMetadata, now + 86_400_000, false))
    ensures (forall v :: !AwaitsLink(db, v, Normalize(rawEmail))) <==> r.db == db
  {
    var found := FindUserByEmail(db, Normalize(rawEmail));
    FoundAwaits(db, rawEmail, found);
    if AwaitsLink(db, u, Normalize(rawEmail)) { TheOneFound(db, rawEmail, u); }
    if found.Some? { ReissueIssues(db, found.value, EMAIL_VERIFICATION, NoMetadata, now + 86_400_000); }
  }

  lemma VerifyAnswers(db: Db, now: Time, t: Id, r: Result)
    requires OwnersExist(db) && t in db.tokens && db.tokens[t].kind == EMAIL_VERIFICATION
    requires r == VerifyEmail(db, now, t)
    ensures var u := db.tokens[t].userId;
      if db.tokens[t].used then r == Refuse(db, TokenInvalid)
      else if db.tokens[t].expiresAt < now then r == Refuse(db, TokenExpired)
      else r.outcome == Done && u in r.db.users && r.db.users[u] == db.users[u].(verified := true)
  {
  }

  /** The link sent verifies the address for 24 hours; every earlier one is refused. */
  lemma ResendThenVerify(db: Db, now: Time, rawEmail: string, u: Id, sent: Db, followed: Time, earlier: Id)
    requires Inv(db) && AwaitsLink(db, u, Normalize(rawEmail)) && sent == ResendVerification(db, now, rawEmail).db
    requires earlier in db.tokens && db.tokens[earlier].userId == u && db.tokens[earlier].kind == EMAIL_VERIFICATION
    ensures OwnersExist(sent) && VerifyEmail(sent, followed, earlier) == Refuse(sent, TokenInvalid)
    ensures var r := VerifyEmail(sent, followed, db.next);
      if now + 86_400_000 < followed then r == Refuse(sent, TokenExpired)
      else r.outcome == Done && u in r.db.users && r.db.users[u] == db.users[u].(verified := true)
  {
    var token := Token(u, EMAIL_VERIFICATION, NoMetadata, now + 86_400_000, false);
    ResendAnswers(db, now, rawEmail, u, ResendVerification(db, now, rawEmail));
    IssuedOwners(db, sent, token);
    VerifyAnswers(sent, followed, earlier, VerifyEmail(sent, followed, earlier));
    VerifyAnswers(sent, followed, db.next, VerifyEmail(sent, followed, db.next));
  }

  // ─── Linking with Google ───────────────────────────────────────────────────

  /** An identity Google reports that nobody here holds. */
  ghost predicate Unlinked(db: Db, googleId: string) {
    forall a :: !IsAccount(db, a, GOOGLE, googleId)
  }

  /** Coming back from Google with an identity nobody holds, at the address of a live user, signs nobody in: it
      issues that user a link token naming the identity, good for 15 minutes. */
  lemma OfferAnswers(
    db: Db, now: Time, googleId: string, rawEmail: string, emailVerified: bool, pending: Option<Id>, random: string,
    u: Id, r: Result)
    requires Inv(db) && Unlinked(db, googleId) && IsUserByEmail(db, u, Normalize(rawEmail))
    requires r == GoogleLogin(db, now, googleId, rawEmail, emailVerified, pending, random)
    ensures r.outcome == LinkPending(db.next)
    ensures Issued(db, r.db, Token(u, GOOGLE_LINK, GoogleIdentity(googleId, emailVerified), now + 900_000, false))
  {
    TheOneFound(db, rawEmail, u);
    ReissueIssues(db, u, GOOGLE_LINK, GoogleIdentity(googleId, emailVerified), now + 900_000);
  }

  lemma LinkAnswers(db: Db, now: Time, t: Id, password: string, r: Result)
    requires OwnersExist(db) && OneEmailAccountEach(db.accounts)
    requires UsableToken(db, t, GOOGLE_LINK) && db.tokens[t].metadata.GoogleIdentity?
    requires Unlinked(db, db.tokens[t].metadata.googleId) && r == LinkGoogle(db, now, t, password)
    ensures var u := db.tokens[t].userId;
      if db.tokens[t].expiresAt < now then r == Refuse(db, TokenExpired)
      else if !RightPassword(db, u, password) then r == Refuse(db, InvalidCredentials)
      else if db.tokens[t].metadata.googleId == "" then r == Refuse(db, TokenInvalid)
      else r.outcome == SessionStarted(u, db.next + 1)
  {
    PasswordIsRight(db, db.tokens[t].userId, password);
    assert FindAuthAccount(db, GOOGLE, db.tokens[t].metadata.googleId).None?;
  }

  lemma SamePassword(db: Db, sent: Db, u: Id, password: string)
    requires sent.accounts == db.accounts
    ensures RightPassword(sent, u, password) <==> RightPassword(db, u, password)
  {
    assert forall a :: IsEmailAccountOf(sent, a, u) == IsEmailAccountOf(db, a, u);
  }

  /** Within those 15 minutes the user's password, and nothing else, links the identity and signs in. */
  lemma OfferThenLink(
    db: Db, now: Time, googleId: string, rawEmail: string, emailVerified: bool, pending: Option<Id>, random: string,
    u: Id, sent: Db, followed: Time, password: string)
    requires Inv(db) && Unlinked(db, googleId) && IsUserByEmail(db, u, Normalize(rawEmail))
    requires sent == GoogleLogin(db, now, googleId, rawEmail, emailVerified, pending, random).db
    ensures Inv(sent)
    ensures var r := LinkGoogle(sent, followed, db.next, password);
      if now + 900_000 < followed then r == Refuse(sent, TokenExpired)
      else if !RightPassword(db, u, password) then r == Refuse(sent, InvalidCredentials)
      else if googleId == "" then r == Refuse(sent, TokenInvalid)
      else r.outcome == SessionStarted(u, sent.next + 1)
  {
    OfferAnswers(db, now, googleId, rawEmail, emailVerified, pending, random, u,
        GoogleLogin(db, now, googleId, rawEmail, emailVerified, pending, random));
    InvGoogleLogin(db, now, googleId, rawEmail, emailVerified, pending, random);
    StillUnlinked(db, sent, googleId);
    SamePassword(db, sent, u, password);
    LinkAnswers(sent, followed, db.next, password, LinkGoogle(sent, followed, db.next, password));
  }

  // ─── Signing up with Google ────────────────────────────────────────────────

  /** A pending signup is kept exactly for somebody old enough, under a name no live user holds, who accepted
      the policies; it holds what was chosen, for 15 minutes. */
  lemma BeginAnswers(db: Db, now: Time, username: string, dob: Option<Time>, known: bool, r: Result)
    requires r == StartGoogleSignup(db, now, username, dob, known)
    ensures if Qualifies(dob, now) && !UsernameTaken(db, username) && known
      then
        && r.outcome == SignupPending(db.next) && dob.Some?
        && r.db == db.(pendings := db.pendings[db.next := PendingSignup(username, dob.value, now + 900_000)],
                       next := db.next + 1)
      else r.outcome.Refused? && r.db == db
  {
  }

  lemma SignupAnswers(
    db: Db, now: Time, googleId: string, email: string, p: Id, random: string, name: string, consumed: Db, r: Result)
    requires p in db.pendings && consumed == DeletePending(db, p)
    requires FindAuthAccount(consumed, GOOGLE, googleId).None? && !EmailInUse(consumed, email)
    requires name == ClaimUsername(consumed, db.pendings[p].username, random)
    requires r == GoogleSignup(db, now, googleId, email, Some(p), random)
    ensures p !in r.db.pendings
    ensures if db.pendings[p].expiresAt < now then r.outcome == Refused(SignupRequired)
      else if !Qualifies(Some(db.pendings[p].dob), now) then r.outcome == Refused(Underage)
      else if UsernameInUse(consumed, name) then r.outcome == Refused(UniqueViolation)
      else
        && r.outcome == SessionStarted(db.next, db.next + 2) && db.next in r.db.users
        && r.db.users[db.next] == User(email, name, None, Some(db.pendings[p].dob), true, false, false, {VRATARTHI})
  {
  }

  lemma ReturnAnswers(
    db: Db, now: Time, googleId: string, rawEmail: string, emailVerified: bool, p: Id, random: string, name: string,
    r: Result)
    requires Unlinked(db, googleId) && !EmailInUse(db, Normalize(rawEmail)) && p in db.pendings
    requires name == ClaimUsername(db, db.pendings[p].username, random)
    requires r == GoogleLogin(db, now, googleId, rawEmail, emailVerified, Some(p), random)
    ensures p !in r.db.pendings
    ensures if db.pendings[p].expiresAt < now then r.outcome == Refused(SignupRequired)
      else if !Qualifies(Some(db.pendings[p].dob), now) then r.outcome == Refused(Underage)
      else if UsernameInUse(db, name) then r.outcome == Refused(UniqueViolation)
      else
        && r.outcome == SessionStarted(db.next, db.next + 2) && db.next in r.db.users
        && r.db.users[db.next]
             == User(Normalize(rawEmail), name, None, Some(db.pendings[p].dob), true, false, false, {VRATARTHI})
  {
    var email, consumed := Normalize(rawEmail), DeletePending(db, p);
    assert FindAuthAccount(db, GOOGLE, googleId).None?;
    NobodyThere(db, email);
    SameClaim(db, consumed, db.pendings[p].username, random);
    SameNames(db, consumed, email, name);
    StillUnlinked(db, consumed, googleId);
    SignupAnswers(db, now, googleId, email, p, random, name, consumed, r);
  }

  lemma StillUnlinked(db: Db, db': Db, googleId: string)
    requires Unlinked(db, googleId) && db'.accounts == db.accounts
    ensures Unlinked(db', googleId) && FindAuthAccount(db', GOOGLE, googleId).None?
  {
    assert forall a :: IsAccount(db', a, GOOGLE, googleId) == IsAccount(db, a, GOOGLE, googleId);
  }

  lemma SameTaken(db: Db, db': Db, username: string)
    requires db'.users == db.users
    ensures UsernameTaken(db', username) == UsernameTaken(db, username)
  {
    assert UsernameTaken(db, username) ==>
      exists u :: u in db'.users && !db'.users[u].deleted && db'.users[u].username == Lower(username);
    assert UsernameTaken(db', username) ==>
      exists u :: u in db.users && !db.users[u].deleted && db.users[u].username == Lower(username);
  }

  lemma {:induction false} SameNumbered(db: Db, db': Db, chosen: string, n: nat, random: string)
    requires db'.users == db.users
    ensures NumberedUsername(db', chosen, n, random) == NumberedUsername(db, chosen, n, random)
    decreases 100 - n
  {
    if n <= 99 {
      SameTaken(db, db', Candidate(chosen, n));
      SameNumbered(db, db', chosen, n + 1, random);
    }
  }

  lemma SameClaim(db: Db, db': Db, chosen: string, random: string)
    requires db'.users == db.users
    ensures ClaimUsername(db', chosen, random) == ClaimUsername(db, chosen, random)
  {
    SameTaken(db, db', chosen);
    SameNumbered(db, db', chosen, 2, random);
  }

  /** From choosing a name to being signed up: within 15 minutes an identity nobody holds, at an address nobody
      has, makes the user under the chosen name and birth date, unless the name went in the meantime. */
  lemma BeginThenReturn(
    db: Db, now: Time, username: string, dob: Option<Time>, begun: Db, later: Time, googleId: string, rawEmail: string,
    emailVerified: bool, random: string, r: Result)
    requires Inv(db) && StartGoogleSignup(db, now, username, dob, true) == Result(begun, SignupPending(db.next))
    requires Unlinked(db, googleId) && !EmailInUse(db, Normalize(rawEmail)) && 0 <= now <= later
    requires r == GoogleLogin(begun, later, googleId, rawEmail, emailVerified, Some(db.next), random)
    ensures if now + 900_000 < later then r.outcome == Refused(SignupRequired)
      else if UsernameInUse(db, username) then r.outcome == Refused(UniqueViolation)
      else
        && r.outcome == SessionStarted(begun.next, begun.next + 2) && begun.next in r.db.users
        && r.db.users[begun.next]
             == User(Normalize(rawEmail), username, None, dob, true, false, false, {VRATARTHI})
  {
    BeginAnswers(db, now, username, dob, true, StartGoogleSignup(db, now, username, dob, true));
    StillUnlinked(db, begun, googleId);
    SameNames(db, begun, Normalize(rawEmail), username);
    SameTaken(db, begun, username);
    OldEnoughLater(dob, now, later);
    ReturnAnswers(begun, later, googleId, rawEmail, emailVerified, db.next, random, username, r);
  }

  // ─── Proving presence ──────────────────────────────────────────────────────

  /** Google proves the presence of exactly the user the identity is linked to. */
  lemma ProveAnswers(db: Db, now: Time, u: Id, s: Id, a: Id, googleId: string, r: Result)
    requires Inv(db) && s in db.sessions && r == ReauthenticateWithGoogle(db, now, u, s, googleId)
    ensures IsAccount(db, a, GOOGLE, googleId) && db.accounts[a].userId == u ==>
      r == Result(db.(sessions := db.sessions[s := db.sessions[s].(reauthenticatedAt := Some(now))]), Done)
    ensures r.outcome == Done <==> exists b :: IsAccount(db, b, GOOGLE, googleId) && db.accounts[b].userId == u
    ensures r.outcome != Done ==> r == Refuse(db, AccessDenied)
  {
    if b :| IsAccount(db, b, GOOGLE, googleId) { FindsIdentity(db, b, GOOGLE, googleId); }
    if IsAccount(db, a, GOOGLE, googleId) { FindsIdentity(db, a, GOOGLE, googleId); }
  }

  /** A sensitive request passes with the right password, which leaves a Google proof where it is, or with a
      Google proof no more than 10 minutes old, which it uses up. */
  lemma PassAnswers(db: Db, now: Time, u: Id, s: Id, password: Option<string>, r: Result)
    requires OneEmailAccountEach(db.accounts) && s in db.sessions
    requires r == AssertRecentlyAuthenticated(db, now, u, s, password)
    ensures var stamp := db.sessions[s].reauthenticatedAt;
      if password.Some? && password.value != "" && RightPassword(db, u, password.value) then r == Result(db, Done)
      else if stamp.Some? && now <= stamp.value + 600_000
      then r == Result(db.(sessions := db.sessions[s := db.sessions[s].(reauthenticatedAt := None)]), Done)
      else r.outcome.Refused? && r.db == db
  {
    if password.Some? { PasswordIsRight(db, u, password.value); }
  }

  lemma StampAnswers(db: Db, now: Time, u: Id, s: Id, r: Result)
    requires s in db.sessions && r == AssertRecentlyAuthenticated(db, now, u, s, None)
    ensures var stamp := db.sessions[s].reauthenticatedAt;
      if stamp.Some? && now <= stamp.value + 600_000
      then r.outcome == Done && s in r.db.sessions && r.db.sessions[s].reauthenticatedAt.None?
      else r == Refuse(db, ReauthenticationRequired)
  {
  }

  /** The proof lets one request through, within 10 minutes. */
  lemma ProveThenPass(
    db: Db, now: Time, u: Id, s: Id, a: Id, googleId: string, proved: Db, later: Time, passed: Db, again: Time)
    requires Inv(db) && s in db.sessions && IsAccount(db, a, GOOGLE, googleId) && db.accounts[a].userId == u
    requires proved == ReauthenticateWithGoogle(db, now, u, s, googleId).db
    requires passed == AssertRecentlyAuthenticated(proved, later, u, s, None).db
    ensures AssertRecentlyAuthenticated(proved, later, u, s, None).outcome
      == if later <= now + 600_000 then Done else Refused(ReauthenticationRequired)
    ensures later <= now + 600_000 ==>
      AssertRecentlyAuthenticated(passed, again, u, s, None) == Refuse(passed, ReauthenticationRequired)
  {
    ProveAnswers(db, now, u, s, a, googleId, ReauthenticateWithGoogle(db, now, u, s, googleId));
    StampAnswers(proved, later, u, s, AssertRecentlyAuthenticated(proved, later, u, s, None));
    if later <= now + 600_000 {
      StampAnswers(passed, again, u, s, AssertRecentlyAuthenticated(passed, again, u, s, None));
    }
  }
}
