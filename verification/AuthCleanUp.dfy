/** The clean-up job goes unnoticed: a run with a clean-up in it answers every later request as the run
    without it, except that a token which has run out is called unknown once it is gone. */
module AuthCleanUp {
  import opened Text
  import opened AuthTables
  import opened AuthSpec
  import opened AuthRuns

  // ─── Less of what has run out ──────────────────────────────────────────────

  ghost predicate SessionsTrimmed(sessions: map<Id, Session>, kept: map<Id, Session>, now: Time) {
    && (forall s :: s in kept ==> s in sessions && kept[s] == sessions[s])
    && (forall s :: s in sessions && s !in kept ==> sessions[s].expiresAt < now)
  }

  ghost predicate TokensTrimmed(tokens: Tokens, kept: Tokens, now: Time) {
    && (forall t :: t in kept ==> t in tokens && kept[t] == tokens[t])
    && (forall t :: t in tokens && t !in kept ==> tokens[t].expiresAt < now)
  }

  ghost predicate PendingsTrimmed(pendings: map<Id, PendingSignup>, kept: map<Id, PendingSignup>, now: Time) {
    && (forall p :: p in kept ==> p in pendings && kept[p] == pendings[p])
    && (forall p :: p in pendings && p !in kept ==> pendings[p].expiresAt < now)
  }

  /** The same tables without some of the sessions, tokens and pending signups that have run out. */
  ghost predicate Trimmed(db: Db, lean: Db, now: Time) {
    && lean == db.(sessions := lean.sessions, tokens := lean.tokens, pendings := lean.pendings)
    && SessionsTrimmed(db.sessions, lean.sessions, now)
    && TokensTrimmed(db.tokens, lean.tokens, now)
    && PendingsTrimmed(db.pendings, lean.pendings, now)
  }

  /** Nobody can tell the answers apart, but for a token that has run out. */
  predicate SameAnswer(answer: Outcome, answer': Outcome) {
    answer' == answer || (answer == Refused(TokenExpired) && answer' == Refused(TokenInvalid))
  }

  ghost predicate Unnoticed(r: Result, r': Result, now: Time) {
    SameAnswer(r.outcome, r'.outcome) && Trimmed(r.db, r'.db, now)
  }

  lemma TrimmedLater(db: Db, lean: Db, now: Time, later: Time)
    requires Trimmed(db, lean, now) && now <= later
    ensures Trimmed(db, lean, later)
  {
  }

  /** What is looked up is on at most one row. */
  ghost predicate OneRowEach(db: Db) {
    EmailsUnique(db.users) && IdentitiesUnique(db.accounts) && OneEmailAccountEach(db.accounts)
  }

  // ─── The same rows are found ───────────────────────────────────────────────

  lemma SameUser(db: Db, lean: Db, email: string)
    requires EmailsUnique(db.users) && lean.users == db.users
    ensures FindUserByEmail(lean, email) == FindUserByEmail(db, email)
  {
    assert forall u :: IsUserByEmail(lean, u, email) == IsUserByEmail(db, u, email);
  }

  lemma SameEmailHolder(db: Db, lean: Db, email: string)
    requires EmailsUnique(db.users) && lean.users == db.users
    ensures HolderOf(lean, email) == HolderOf(db, email)
  {
  }

  lemma SameAccount(db: Db, lean: Db, provider: Provider, identifier: string)
    requires IdentitiesUnique(db.accounts) && lean.accounts == db.accounts
    ensures FindAuthAccount(lean, provider, identifier) == FindAuthAccount(db, provider, identifier)
  {
    assert forall a :: IsAccount(lean, a, provider, identifier) == IsAccount(db, a, provider, identifier);
  }

  lemma SamePassword(db: Db, lean: Db, u: Id)
    requires OneEmailAccountEach(db.accounts) && lean.accounts == db.accounts
    ensures FindEmailAccountByUserId(lean, u) == FindEmailAccountByUserId(db, u)
    ensures PasswordOf(lean, u) == PasswordOf(db, u)
  {
    assert forall a :: IsEmailAccountOf(lean, a, u) == IsEmailAccountOf(db, a, u);
  }

  lemma SameNames(db: Db, lean: Db, username: string)
    requires lean.users == db.users
    ensures UsernameTaken(lean, username) == UsernameTaken(db, username)
    ensures UsernameInUse(lean, username) == UsernameInUse(db, username)
  {
  }

  lemma SameCollisions(db: Db, lean: Db, email: string, username: string, provider: Provider, identifier: string)
    requires lean.users == db.users && lean.accounts == db.accounts
    ensures EmailInUse(lean, email) == EmailInUse(db, email)
    ensures InsertCollides(lean, email, username, provider, identifier)
         == InsertCollides(db, email, username, provider, identifier)
  {
    SameNames(db, lean, username);
    assert forall a :: IsAccount(lean, a, provider, identifier) == IsAccount(db, a, provider, identifier);
  }

  lemma SameOthers(db: Db, lean: Db, u: Id, name: string)
    requires lean.users == db.users
    ensures NameHeldByOther(lean, u, name) == NameHeldByOther(db, u, name)
    ensures NameRowOfOther(lean, u, name) == NameRowOfOther(db, u, name)
  {
  }

  lemma SameOtherLogin(db: Db, lean: Db, u: Id, target: Id)
    requires lean.accounts == db.accounts
    ensures OtherLogin(lean, u, target) == OtherLogin(db, u, target)
  {
  }

  // ─── Writes ────────────────────────────────────────────────────────────────

  /** Rows written elsewhere make no difference to what was trimmed. */
  lemma TrimmedElsewhere(db: Db, lean: Db, now: Time, db': Db, lean': Db)
    requires Trimmed(db, lean, now)
    requires db'.sessions == db.sessions && db'.tokens == db.tokens && db'.pendings == db.pendings
    requires lean' == db'.(sessions := lean.sessions, tokens := lean.tokens, pendings := lean.pendings)
    ensures Trimmed(db', lean', now)
  {
  }

  lemma TrimmedInsertToken(db: Db, lean: Db, now: Time, token: Token)
    requires Trimmed(db, lean, now)
    ensures Trimmed(InsertToken(db, token), InsertToken(lean, token), now)
  {
  }

  lemma TrimmedDeletePending(db: Db, lean: Db, now: Time, p: Id)
    requires Trimmed(db, lean, now)
    ensures Trimmed(DeletePending(db, p), DeletePending(lean, p), now)
  {
  }

  lemma TrimmedDeleteSession(db: Db, lean: Db, now: Time, s: Id)
    requires Trimmed(db, lean, now)
    ensures Trimmed(DeleteSession(db, s), DeleteSession(lean, s), now)
    ensures s !in lean.sessions ==> Trimmed(DeleteSession(db, s), lean, now)
  {
  }

  lemma TrimmedInsertUser(
    db: Db, lean: Db, now: Time, user: User, provider: Provider, identifier: string, hash: Option<PasswordHash>)
    requires Trimmed(db, lean, now)
    ensures Trimmed(InsertUser(db, user, provider, identifier, hash),
                    InsertUser(lean, user, provider, identifier, hash), now)
  {
  }

  lemma TrimmedSetUser(db: Db, lean: Db, now: Time, u: Id, user: User)
    requires Trimmed(db, lean, now)
    ensures Trimmed(SetUser(db, u, user), SetUser(lean, u, user), now)
  {
  }

  lemma TrimmedFailure(db: Db, lean: Db, now: Time, email: string)
    requires Trimmed(db, lean, now)
    ensures Trimmed(RecordFailure(db, email, now), RecordFailure(lean, email, now), now)
  {
  }

  lemma TrimmedInsertSession(db: Db, lean: Db, now: Time, session: Session)
    requires Trimmed(db, lean, now) && session.expiresAt >= now
    ensures Trimmed(InsertSession(db, session), InsertSession(lean, session), now)
  {
  }

  lemma TrimmedSetSession(db: Db, lean: Db, now: Time, s: Id, session: Session)
    requires Trimmed(db, lean, now)
    ensures Trimmed(SetSession(db, s, session), SetSession(lean, s, session), now)
  {
  }

  lemma TrimmedReissue(db: Db, lean: Db, now: Time, u: Id, kind: TokenType, metadata: Metadata, expiresAt: Time)
    requires Trimmed(db, lean, now)
    ensures Trimmed(Reissue(db, u, kind, metadata, expiresAt), Reissue(lean, u, kind, metadata, expiresAt), now)
  {
  }

  lemma TrimmedMarkTokenUsed(db: Db, lean: Db, now: Time, t: Id)
    requires Trimmed(db, lean, now) && t in db.tokens && t in lean.tokens
    ensures Trimmed(MarkTokenUsed(db, t), MarkTokenUsed(lean, t), now)
  {
  }

  lemma TrimmedNoSessions(db: Db, lean: Db, now: Time, u: Id)
    requires Trimmed(db, lean, now)
    ensures Trimmed(DeleteAllUserSessions(db, u), DeleteAllUserSessions(lean, u), now)
  {
  }

  lemma TrimmedRelease(db: Db, lean: Db, now: Time, email: string)
    requires IdentitiesUnique(db.accounts) && Trimmed(db, lean, now)
    ensures Trimmed(ReleaseStaleClaim(db, email), ReleaseStaleClaim(lean, email), now)
  {
    SameAccount(db, lean, EMAIL, email);
  }

  /** A token meets the same refusal, or none, or has run out. */
  lemma SameRefusal(db: Db, lean: Db, now: Time, t: Id, kind: TokenType)
    requires Trimmed(db, lean, now)
    ensures var refusal, refusal' := TokenRefusal(db, now, t, kind), TokenRefusal(lean, now, t, kind);
      && (refusal.None? <==> refusal'.None?)
      && (refusal.Some? ==> Unnoticed(Refuse(db, refusal.value), Refuse(lean, refusal'.value), now))
    ensures TokenRefusal(db, now, t, kind).None? ==> t in lean.tokens && lean.tokens[t] == db.tokens[t]
  {
  }

  // ─── Signing up and in ─────────────────────────────────────────────────────

  lemma RegisterUnnoticed(
    db: Db, lean: Db, now: Time, rawEmail: string, password: string, username: string, dob: Option<Time>, known: bool)
    requires OneRowEach(db) && Trimmed(db, lean, now)
    ensures Unnoticed(Register(db, now, rawEmail, password, username, dob, known),
                      Register(lean, now, rawEmail, password, username, dob, known), now)
  {
    var email := Normalize(rawEmail);
    SameUser(db, lean, email);
    TrimmedRelease(db, lean, now, email);
    var released, released' := ReleaseStaleClaim(db, email), ReleaseStaleClaim(lean, email);
    SameCollisions(released, released', email, username, EMAIL, email);
    var user, hash := NewEmailUser(email, username, dob), Some(Bcrypt(password));
    TrimmedInsertUser(released, released', now, user, EMAIL, email, hash);
    TrimmedInsertToken(InsertUser(released, user, EMAIL, email, hash), InsertUser(released', user, EMAIL, email, hash),
                       now, NewToken(db.next, EMAIL_VERIFICATION, NoMetadata, now + VERIFICATION_TOKEN_TTL));
  }

  lemma LetInUnnoticed(db: Db, lean: Db, now: Time, email: string, u: Id)
    requires Trimmed(db, lean, now)
    ensures Trimmed(InsertSession(db.(lockouts := db.lockouts - {email}), NewSession(u, now)),
                    InsertSession(lean.(lockouts := lean.lockouts - {email}), NewSession(u, now)), now)
  {
    var cleared, cleared' := db.(lockouts := db.lockouts - {email}), lean.(lockouts := lean.lockouts - {email});
    TrimmedElsewhere(db, lean, now, cleared, cleared');
    TrimmedInsertSession(cleared, cleared', now, NewSession(u, now));
  }

  lemma LoginUnnoticed(db: Db, lean: Db, now: Time, rawEmail: string, password: string)
    requires OneRowEach(db) && Trimmed(db, lean, now)
    ensures Unnoticed(Login(db, now, rawEmail, password), Login(lean, now, rawEmail, password), now)
  {
    var email := Normalize(rawEmail);
    SameUser(db, lean, email);
    var found := FindUserByEmail(db, email);
    if found.Some? { SamePassword(db, lean, found.value); }
    if found.Some? && PasswordOf(db, found.value) == Some(Bcrypt(password)) {
      LetInUnnoticed(db, lean, now, email, found.value);
    } else {
      TrimmedFailure(db, lean, now, email);
    }
  }

  lemma StartUnnoticed(db: Db, lean: Db, now: Time, username: string, dob: Option<Time>, known: bool)
    requires OneRowEach(db) && Trimmed(db, lean, now)
    ensures Unnoticed(StartGoogleSignup(db, now, username, dob, known),
                      StartGoogleSignup(lean, now, username, dob, known), now)
  {
    SameNames(db, lean, username);
  }

  lemma {:induction false} SameNumbered(db: Db, lean: Db, chosen: string, n: nat, random: string)
    requires lean.users == db.users
    ensures NumberedUsername(lean, chosen, n, random) == NumberedUsername(db, chosen, n, random)
    decreases 100 - n
  {
    if n <= 99 {
      SameNames(db, lean, Candidate(chosen, n));
      SameNumbered(db, lean, chosen, n + 1, random);
    }
  }

  lemma SameClaim(db: Db, lean: Db, chosen: string, random: string)
    requires lean.users == db.users
    ensures ClaimUsername(lean, chosen, random) == ClaimUsername(db, chosen, random)
  {
    SameNames(db, lean, chosen);
    SameNumbered(db, lean, chosen, 2, random);
  }

  lemma NewcomerUnnoticed(db: Db, lean: Db, now: Time, user: User, googleId: string)
    requires Trimmed(db, lean, now)
    ensures Trimmed(InsertSession(InsertUser(db, user, GOOGLE, googleId, None), NewSession(db.next, now)),
                    InsertSession(InsertUser(lean, user, GOOGLE, googleId, None), NewSession(db.next, now)), now)
  {
    TrimmedInsertUser(db, lean, now, user, GOOGLE, googleId, None);
    TrimmedInsertSession(InsertUser(db, user, GOOGLE, googleId, None), InsertUser(lean, user, GOOGLE, googleId, None),
                         now, NewSession(db.next, now));
  }

  /** The end of a sign-up through Google, the pending row taken and the name chosen. */
  ghost function SignedUp(db: Db, now: Time, googleId: string, email: string, signup: PendingSignup, username: string)
    : Result
  {
    if signup.expiresAt < now then Refuse(db, SignupRequired)
    else if !Qualifies(Some(signup.dob), now) then Refuse(db, Underage)
    else if InsertCollides(db, email, username, GOOGLE, googleId) then Refuse(db, UniqueViolation)
    else
      var created := InsertUser(db, NewGoogleUser(email, username, signup.dob), GOOGLE, googleId, None);
      Result(InsertSession(created, NewSession(db.next, now)), SessionStarted(db.next, db.next + 2))
  }

  lemma SignupIs(db: Db, now: Time, googleId: string, email: string, p: Id, random: string, username: string)
    requires p in db.pendings
    requires username == ClaimUsername(DeletePending(db, p), db.pendings[p].username, random)
    ensures GoogleSignup(db, now, googleId, email, Some(p), random)
         == SignedUp(DeletePending(db, p), now, googleId, email, db.pendings[p], username)
  {
  }

  lemma SignedUpUnnoticed(
    db: Db, lean: Db, now: Time, googleId: string, email: string, signup: PendingSignup, username: string)
    requires Trimmed(db, lean, now)
    ensures Unnoticed(SignedUp(db, now, googleId, email, signup, username),
                      SignedUp(lean, now, googleId, email, signup, username), now)
  {
    SameCollisions(db, lean, email, username, GOOGLE, googleId);
    NewcomerUnnoticed(db, lean, now, NewGoogleUser(email, username, signup.dob), googleId);
  }

  lemma SignupUnnoticed(
    db: Db, lean: Db, now: Time, googleId: string, email: string, p: Id, random: string)
    requires Trimmed(db, lean, now) && p in db.pendings && p in lean.pendings
    ensures Unnoticed(GoogleSignup(db, now, googleId, email, Some(p), random),
                      GoogleSignup(lean, now, googleId, email, Some(p), random), now)
  {
    var signup, consumed, consumed' := db.pendings[p], DeletePending(db, p), DeletePending(lean, p);
    var username := ClaimUsername(consumed, signup.username, random);
    TrimmedDeletePending(db, lean, now, p);
    SameClaim(consumed, consumed', signup.username, random);
    SignupIs(db, now, googleId, email, p, random, username);
    SignupIs(lean, now, googleId, email, p, random, username);
    SignedUpUnnoticed(consumed, consumed', now, googleId, email, signup, username);
  }

  lemma ExpiredSignupUnnoticed(
    db: Db, lean: Db, now: Time, googleId: string, email: string, pending: Option<Id>, random: string)
    requires Trimmed(db, lean, now) && (pending.None? || pending.value !in lean.pendings)
    ensures Unnoticed(GoogleSignup(db, now, googleId, email, pending, random),
                      GoogleSignup(lean, now, googleId, email, pending, random), now)
  {
  }

  lemma WithoutAccountUnnoticed(
    db: Db, lean: Db, now: Time, googleId: string, rawEmail: string, verified: bool, pending: Option<Id>,
    random: string)
    requires EmailsUnique(db.users) && Trimmed(db, lean, now)
    ensures Unnoticed(GoogleWithoutAccount(db, now, googleId, rawEmail, verified, pending, random),
                      GoogleWithoutAccount(lean, now, googleId, rawEmail, verified, pending, random), now)
  {
    var email := Normalize(rawEmail);
    SameUser(db, lean, email);
    var existing := FindUserByEmail(db, email);
    if existing.Some? {
      TrimmedReissue(db, lean, now, existing.value, GOOGLE_LINK, GoogleIdentity(googleId, verified),
                     now + GOOGLE_LINK_TOKEN_TTL);
    } else if pending.Some? && pending.value in lean.pendings {
      SignupUnnoticed(db, lean, now, googleId, email, pending.value, random);
    } else {
      ExpiredSignupUnnoticed(db, lean, now, googleId, email, pending, random);
    }
  }

  lemma GoogleUnnoticed(
    db: Db, lean: Db, now: Time, googleId: string, rawEmail: string, verified: bool, pending: Option<Id>,
    random: string)
    requires OneRowEach(db) && Trimmed(db, lean, now)
    ensures Unnoticed(GoogleLogin(db, now, googleId, rawEmail, verified, pending, random),
                      GoogleLogin(lean, now, googleId, rawEmail, verified, pending, random), now)
  {
    SameAccount(db, lean, GOOGLE, googleId);
    var account := FindAuthAccount(db, GOOGLE, googleId);
    if account.None? {
      WithoutAccountUnnoticed(db, lean, now, googleId, rawEmail, verified, pending, random);
    } else {
      var u := db.accounts[account.value].userId;
      if !Live(db, u) {
        WithoutAccountUnnoticed(ReleaseIdentityClaims(db, u), ReleaseIdentityClaims(lean, u), now, googleId, rawEmail,
                                verified, pending, random);
      } else {
        TrimmedInsertSession(db, lean, now, NewSession(u, now));
      }
    }
  }

  lemma LinkedUnnoticed(db: Db, lean: Db, now: Time, t: Id, token: Token)
    requires Trimmed(db, lean, now) && t in db.tokens && t in lean.tokens && token.userId in db.users
    requires token.metadata.GoogleIdentity?
    ensures var account := Account(token.userId, GOOGLE, token.metadata.googleId, None);
      var linked := MarkTokenUsed(InsertAccount(db, account), t);
      var linked' := MarkTokenUsed(InsertAccount(lean, account), t);
      var verified := if token.metadata.emailVerified then SetVerified(linked, token.userId) else linked;
      var verified' := if token.metadata.emailVerified then SetVerified(linked', token.userId) else linked';
      Trimmed(InsertSession(verified, NewSession(token.userId, now)),
              InsertSession(verified', NewSession(token.userId, now)), now)
  {
    var account, u := Account(token.userId, GOOGLE, token.metadata.googleId, None), token.userId;
    var linked, linked' := MarkTokenUsed(InsertAccount(db, account), t), MarkTokenUsed(InsertAccount(lean, account), t);
    TrimmedElsewhere(db, lean, now, InsertAccount(db, account), InsertAccount(lean, account));
    TrimmedMarkTokenUsed(InsertAccount(db, account), InsertAccount(lean, account), now, t);
    TrimmedSetUser(linked, linked', now, u, linked.users[u].(verified := true));
    TrimmedInsertSession(linked, linked', now, NewSession(u, now));
    TrimmedInsertSession(SetVerified(linked, u), SetVerified(linked', u), now, NewSession(u, now));
  }

  /** The same row found and the same password on it, the link is made, or refused, alike. */
  lemma LinkDecided(db: Db, lean: Db, now: Time, t: Id, password: string)
    requires OwnersExist(db) && OwnersExist(lean) && Trimmed(db, lean, now)
    requires TokenRefusal(db, now, t, GOOGLE_LINK).None? && t in lean.tokens
    requires PasswordOf(lean, db.tokens[t].userId) == PasswordOf(db, db.tokens[t].userId)
    requires db.tokens[t].metadata.GoogleIdentity? ==>
      FindAuthAccount(lean, GOOGLE, db.tokens[t].metadata.googleId)
      == FindAuthAccount(db, GOOGLE, db.tokens[t].metadata.googleId)
    ensures Unnoticed(LinkGoogle(db, now, t, password), LinkGoogle(lean, now, t, password), now)
  {
    if db.tokens[t].metadata.GoogleIdentity? { LinkedUnnoticed(db, lean, now, t, db.tokens[t]); }
  }

  lemma LinkUnnoticed(db: Db, lean: Db, now: Time, t: Id, password: string)
    requires OneRowEach(db) && OwnersExist(db) && OwnersExist(lean) && Trimmed(db, lean, now)
    ensures Unnoticed(LinkGoogle(db, now, t, password), LinkGoogle(lean, now, t, password), now)
  {
    SameRefusal(db, lean, now, t, GOOGLE_LINK);
    if TokenRefusal(db, now, t, GOOGLE_LINK).None? {
      SamePassword(db, lean, db.tokens[t].userId);
      if db.tokens[t].metadata.GoogleIdentity? { SameAccount(db, lean, GOOGLE, db.tokens[t].metadata.googleId); }
      LinkDecided(db, lean, now, t, password);
    }
  }

  // ─── By link ───────────────────────────────────────────────────────────────

  lemma VerifyUnnoticed(db: Db, lean: Db, now: Time, t: Id)
    requires OneRowEach(db) && OwnersExist(db) && OwnersExist(lean) && Trimmed(db, lean, now)
    ensures Unnoticed(VerifyEmail(db, now, t), VerifyEmail(lean, now, t), now)
  {
    SameRefusal(db, lean, now, t, EMAIL_VERIFICATION);
    if TokenRefusal(db, now, t, EMAIL_VERIFICATION).None? { TrimmedMarkTokenUsed(db, lean, now, t); }
  }

  lemma ResendUnnoticed(db: Db, lean: Db, now: Time, rawEmail: string)
    requires OneRowEach(db) && Trimmed(db, lean, now)
    ensures Unnoticed(ResendVerification(db, now, rawEmail), ResendVerification(lean, now, rawEmail), now)
  {
    var found := FindUserByEmail(db, Normalize(rawEmail));
    SameUser(db, lean, Normalize(rawEmail));
    if found.Some? {
      SamePassword(db, lean, found.value);
      TrimmedReissue(db, lean, now, found.value, EMAIL_VERIFICATION, NoMetadata, now + VERIFICATION_TOKEN_TTL);
    }
  }

  lemma ForgotUnnoticed(db: Db, lean: Db, now: Time, rawEmail: string)
    requires OneRowEach(db) && Trimmed(db, lean, now)
    ensures Unnoticed(ForgotPassword(db, now, rawEmail), ForgotPassword(lean, now, rawEmail), now)
  {
    var found := FindUserByEmail(db, Normalize(rawEmail));
    SameUser(db, lean, Normalize(rawEmail));
    if found.Some? {
      SamePassword(db, lean, found.value);
      TrimmedReissue(db, lean, now, found.value, PASSWORD_RESET, NoMetadata, now + PASSWORD_RESET_TOKEN_TTL);
    }
  }

  lemma FinishUnnoticed(db: Db, lean: Db, now: Time, u: Id, t: Id)
    requires Trimmed(db, lean, now) && u in db.users && t in db.tokens && t in lean.tokens
    ensures Trimmed(FinishReset(db, u, t), FinishReset(lean, u, t), now)
  {
    TrimmedMarkTokenUsed(db, lean, now, t);
    TrimmedNoSessions(SetVerified(MarkTokenUsed(db, t), u), SetVerified(MarkTokenUsed(lean, t), u), now, u);
  }

  lemma ResetOnAccount(db: Db, lean: Db, now: Time, u: Id, t: Id, a: Id, hash: PasswordHash)
    requires Trimmed(db, lean, now) && u in db.users && t in db.tokens && t in lean.tokens && a in db.accounts
    ensures Trimmed(FinishReset(SetPasswordHash(db, a, hash), u, t),
                    FinishReset(SetPasswordHash(lean, a, hash), u, t), now)
  {
    var changed, changed' := SetPasswordHash(db, a, hash), SetPasswordHash(lean, a, hash);
    TrimmedElsewhere(db, lean, now, changed, changed');
    FinishUnnoticed(changed, changed', now, u, t);
  }

  lemma ResetWithout(db: Db, lean: Db, now: Time, u: Id, t: Id, account: Account)
    requires Trimmed(db, lean, now) && u in db.users && t in db.tokens && t in lean.tokens
    ensures Trimmed(FinishReset(InsertAccount(db, account), u, t), FinishReset(InsertAccount(lean, account), u, t), now)
  {
    TrimmedElsewhere(db, lean, now, InsertAccount(db, account), InsertAccount(lean, account));
    FinishUnnoticed(InsertAccount(db, account), InsertAccount(lean, account), now, u, t);
  }

  lemma ResetUnnoticed(db: Db, lean: Db, now: Time, t: Id, password: string)
    requires OneRowEach(db) && OwnersExist(db) && OwnersExist(lean) && Trimmed(db, lean, now)
    ensures Unnoticed(ResetPassword(db, now, t, password), ResetPassword(lean, now, t, password), now)
  {
    SameRefusal(db, lean, now, t, PASSWORD_RESET);
    if TokenRefusal(db, now, t, PASSWORD_RESET).None? {
      var u, hash := db.tokens[t].userId, Bcrypt(password);
      var account := FindEmailAccountByUserId(db, u);
      SamePassword(db, lean, u);
      SameAccount(db, lean, EMAIL, db.users[u].email);
      if account.Some? {
        ResetOnAccount(db, lean, now, u, t, account.value, hash);
      } else {
        ResetWithout(db, lean, now, u, t, Account(u, EMAIL, db.users[u].email, Some(hash)));
      }
    }
  }

  lemma ConfirmUnnoticed(db: Db, lean: Db, now: Time, t: Id)
    requires OneRowEach(db) && OwnersExist(db) && OwnersExist(lean) && Trimmed(db, lean, now)
    ensures Unnoticed(ConfirmEmailChange(db, now, t), ConfirmEmailChange(lean, now, t), now)
  {
    SameRefusal(db, lean, now, t, EMAIL_CHANGE);
    if TokenRefusal(db, now, t, EMAIL_CHANGE).None? {
      var u := db.tokens[t].userId;
      var pending := db.users[u].pendingEmail;
      if pending.Some? { ApplyUnnoticed(db, lean, now, u, pending.value, t); }
    }
  }

  lemma ApplyUnnoticed(db: Db, lean: Db, now: Time, u: Id, email: string, t: Id)
    requires OneRowEach(db) && Trimmed(db, lean, now) && u in db.users && t in db.tokens && t in lean.tokens
    ensures EmailInUse(lean, email) == EmailInUse(db, email)
    ensures LiveClaimByOther(lean, u, email) == LiveClaimByOther(db, u, email)
    ensures var released, released' := ReleaseOtherClaim(db, u, email), ReleaseOtherClaim(lean, u, email);
      && Trimmed(released, released', now)
      && Trimmed(MarkTokenUsed(ApplyEmailChange(released, u, email), t),
                 MarkTokenUsed(ApplyEmailChange(released', u, email), t), now)
  {
    SameAccount(db, lean, EMAIL, email);
    var released, released' := ReleaseOtherClaim(db, u, email), ReleaseOtherClaim(lean, u, email);
    var changed, changed' := ApplyEmailChange(released, u, email), ApplyEmailChange(released', u, email);
    TrimmedElsewhere(db, lean, now, released, released');
    TrimmedElsewhere(released, released', now, changed, changed');
    TrimmedMarkTokenUsed(changed, changed', now, t);
  }

  // ─── On a session ──────────────────────────────────────────────────────────

  /** What the rest of a signed-in request relies on. */
  ghost predicate OnSession(db: Db, lean: Db, now: Time, u: Id, s: Id) {
    OneRowEach(db) && Trimmed(db, lean, now) && u in db.users && s in db.sessions && s in lean.sessions
  }

  lemma ChangeUnnoticed(db: Db, lean: Db, now: Time, u: Id, current: string, password: string)
    requires OneRowEach(db) && Trimmed(db, lean, now)
    ensures Unnoticed(ChangePassword(db, now, u, current, password),
                      ChangePassword(lean, now, u, current, password), now)
  {
    SamePassword(db, lean, u);
    var account := FindEmailAccountByUserId(db, u);
    if account.Some? {
      var changed := SetPasswordHash(db, account.value, Bcrypt(password));
      var changed' := SetPasswordHash(lean, account.value, Bcrypt(password));
      TrimmedNoSessions(changed, changed', now, u);
      TrimmedInsertSession(DeleteAllUserSessions(changed, u), DeleteAllUserSessions(changed', u), now,
                           NewSession(u, now));
    }
  }

  lemma ProofUnnoticed(db: Db, lean: Db, now: Time, u: Id, s: Id, password: Option<string>)
    requires OnSession(db, lean, now, u, s)
    ensures var proof := AssertRecentlyAuthenticated(db, now, u, s, password);
      var proof' := AssertRecentlyAuthenticated(lean, now, u, s, password);
      proof'.outcome == proof.outcome && Trimmed(proof.db, proof'.db, now)
  {
    SamePassword(db, lean, u);
    TrimmedSetSession(db, lean, now, s, db.sessions[s].(reauthenticatedAt := None));
  }

  lemma ReauthenticateUnnoticed(db: Db, lean: Db, now: Time, u: Id, s: Id, googleId: string)
    requires OnSession(db, lean, now, u, s)
    ensures Unnoticed(ReauthenticateWithGoogle(db, now, u, s, googleId),
                      ReauthenticateWithGoogle(lean, now, u, s, googleId), now)
  {
    SameAccount(db, lean, GOOGLE, googleId);
    TrimmedSetSession(db, lean, now, s, db.sessions[s].(reauthenticatedAt := Some(now)));
  }

  lemma DisconnectUnnoticed(db: Db, lean: Db, now: Time, u: Id, provider: Provider, target: Id)
    requires Trimmed(db, lean, now)
    ensures Unnoticed(Disconnect(db, u, provider, target), Disconnect(lean, u, provider, target), now)
  {
    SameOtherLogin(db, lean, u, target);
    TrimmedElsewhere(db, lean, now, DeleteAccount(db, target), DeleteAccount(lean, target));
  }

  lemma AskedUnnoticed(db: Db, lean: Db, now: Time, u: Id, address: string)
    requires OneRowEach(db) && Trimmed(db, lean, now) && u in db.users
    ensures EmailInUse(lean, address) == EmailInUse(db, address)
    ensures LiveClaimByOther(lean, u, address) == LiveClaimByOther(db, u, address)
    ensures Trimmed(AskForEmail(db, u, address, now), AskForEmail(lean, u, address, now), now)
  {
    SameAccount(db, lean, EMAIL, address);
    SameCollisions(db, lean, address, "", EMAIL, address);
    var asked := db.users[u].(pendingEmail := Some(address));
    TrimmedSetUser(db, lean, now, u, asked);
    TrimmedReissue(SetUser(db, u, asked), SetUser(lean, u, asked), now, u, EMAIL_CHANGE, NewEmail(address),
                   now + PASSWORD_RESET_TOKEN_TTL);
  }

  lemma AskIs(db: Db, now: Time, u: Id, s: Id, newEmail: string, password: Option<string>, proof: Result)
    requires u in db.users && proof == AssertRecentlyAuthenticated(db, now, u, s, password)
    ensures proof.db.users == db.users && proof.db.accounts == db.accounts
    ensures var address, r := Normalize(newEmail), RequestEmailChange(db, now, u, s, newEmail, password);
      r == if !Live(db, u) then Refuse(db, NotFound)
           else if proof.outcome != Done then proof
           else if address == Lower(db.users[u].email) || EmailInUse(proof.db, address)
                   || LiveClaimByOther(proof.db, u, address)
           then Refuse(proof.db, DuplicateEmail)
           else Result(AskForEmail(proof.db, u, address, now), Done)
  {
  }

  lemma AskUnnoticed(db: Db, lean: Db, now: Time, u: Id, s: Id, newEmail: string, password: Option<string>)
    requires OnSession(db, lean, now, u, s)
    ensures Unnoticed(RequestEmailChange(db, now, u, s, newEmail, password),
                      RequestEmailChange(lean, now, u, s, newEmail, password), now)
  {
    var address := Normalize(newEmail);
    var proof := AssertRecentlyAuthenticated(db, now, u, s, password);
    var proof' := AssertRecentlyAuthenticated(lean, now, u, s, password);
    ProofUnnoticed(db, lean, now, u, s, password);
    AskIs(db, now, u, s, newEmail, password, proof);
    AskIs(lean, now, u, s, newEmail, password, proof');
    AskedUnnoticed(proof.db, proof'.db, now, u, address);
  }

  lemma ProfileUnnoticed(db: Db, lean: Db, now: Time, u: Id, username: Option<string>, dob: Option<Option<Time>>)
    requires Trimmed(db, lean, now) && u in db.users
    ensures Unnoticed(UpdateOwnProfile(db, now, u, username, dob), UpdateOwnProfile(lean, now, u, username, dob), now)
  {
    if username.Some? {
      SameOthers(db, lean, u, username.value);
      SameOthers(db, lean, u, Lower(username.value));
    }
    TrimmedSetUser(db, lean, now, u, Edited(db.users[u], username, dob));
  }

  lemma OnboardingUnnoticed(db: Db, lean: Db, now: Time, u: Id, username: Option<string>)
    requires Trimmed(db, lean, now) && u in db.users
    ensures Unnoticed(CompleteOnboarding(db, u, username), CompleteOnboarding(lean, u, username), now)
  {
    if username.Some? {
      SameOthers(db, lean, u, username.value);
      TrimmedSetUser(db, lean, now, u, db.users[u].(username := username.value));
    }
  }

  lemma AnonymiseUnnoticed(db: Db, lean: Db, now: Time, u: Id, p: Pseudonym)
    requires Trimmed(db, lean, now) && u in db.users
    ensures Unnoticed(AnonymiseAccount(db, u, p), AnonymiseAccount(lean, u, p), now)
  {
    assert PseudonymCollides(lean, u, p) == PseudonymCollides(db, u, p);
    var gone := Anonymous(db.users[u], p);
    TrimmedNoSessions(ClearStoredPasswords(SetUser(db, u, gone), u), ClearStoredPasswords(SetUser(lean, u, gone), u),
                      now, u);
  }

  lemma SelfDeleteUnnoticed(db: Db, lean: Db, now: Time, u: Id, s: Id, password: Option<string>, p: Pseudonym)
    requires OnSession(db, lean, now, u, s)
    ensures Unnoticed(SelfDelete(db, now, u, s, password, p), SelfDelete(lean, now, u, s, password, p), now)
  {
    ProofUnnoticed(db, lean, now, u, s, password);
    var proved := AssertRecentlyAuthenticated(db, now, u, s, password).db;
    var proved' := AssertRecentlyAuthenticated(lean, now, u, s, password).db;
    AnonymiseUnnoticed(proved, proved', now, u, p);
  }

  lemma SuspendUnnoticed(db: Db, lean: Db, now: Time, u: Id, target: Id, suspended: bool)
    requires Trimmed(db, lean, now)
    ensures Unnoticed(SetSuspended(db, u, target, suspended), SetSuspended(lean, u, target, suspended), now)
  {
    if target in db.users {
      var set' := db.users[target].(suspended := suspended);
      TrimmedSetUser(db, lean, now, target, set');
      TrimmedNoSessions(SetUser(db, target, set'), SetUser(lean, target, set'), now, target);
    }
  }

  lemma LogoutUnnoticed(db: Db, lean: Db, now: Time, u: Id, target: Id)
    requires Trimmed(db, lean, now)
    ensures Unnoticed(ForceLogout(db, u, target), ForceLogout(lean, u, target), now)
  {
    TrimmedNoSessions(db, lean, now, target);
  }

  lemma RolesUnnoticed(db: Db, lean: Db, now: Time, u: Id, target: Id, add: set<Role>, remove: set<Role>)
    requires Trimmed(db, lean, now)
    ensures Unnoticed(UpdateRoles(db, u, target, add, remove), UpdateRoles(lean, u, target, add, remove), now)
  {
    if target in db.users {
      var user := db.users[target];
      TrimmedSetUser(db, lean, now, target, user.(roles := user.roles - remove + add));
    }
  }

  lemma AnonymiseUserUnnoticed(db: Db, lean: Db, now: Time, u: Id, target: Id, p: Pseudonym)
    requires Trimmed(db, lean, now)
    ensures Unnoticed(Anonymise(db, u, target, p), Anonymise(lean, u, target, p), now)
  {
    if target in db.users { AnonymiseUnnoticed(db, lean, now, target, p); }
  }

  lemma AdministeringUnnoticed(db: Db, lean: Db, now: Time, u: Id, s: Id, action: Action)
    requires OnSession(db, lean, now, u, s) && Administers(action)
    ensures Unnoticed(Act(db, now, u, s, action), Act(lean, now, u, s, action), now)
  {
    match action
    case Suspend(target, suspended) => SuspendUnnoticed(db, lean, now, u, target, suspended);
    case LogOut(target) => LogoutUnnoticed(db, lean, now, u, target);
    case ChangeRoles(target, add, remove) => RolesUnnoticed(db, lean, now, u, target, add, remove);
    case AnonymiseUser(target, p) => AnonymiseUserUnnoticed(db, lean, now, u, target, p);
  }

  predicate OnOwnRow(action: Action) {
    action.Whoami? || action.SignOut? || action.SetUpAccount? || action.EditProfile? || action.AcceptInvitation?
  }

  lemma OwnRowUnnoticed(db: Db, lean: Db, now: Time, u: Id, s: Id, action: Action)
    requires OnSession(db, lean, now, u, s) && OnOwnRow(action)
    ensures Unnoticed(Act(db, now, u, s, action), Act(lean, now, u, s, action), now)
  {
    match action
    case Whoami =>
    case SignOut => TrimmedDeleteSession(db, lean, now, s);
    case SetUpAccount(username) => OnboardingUnnoticed(db, lean, now, u, username);
    case EditProfile(username, dob) => ProfileUnnoticed(db, lean, now, u, username, dob);
    case AcceptInvitation => TrimmedSetUser(db, lean, now, u, db.users[u].(roles := db.users[u].roles + {VRATMITRA}));
  }

  lemma LoginsUnnoticed(db: Db, lean: Db, now: Time, u: Id, s: Id, action: Action)
    requires OnSession(db, lean, now, u, s) && !OnOwnRow(action) && !Administers(action)
    ensures Unnoticed(Act(db, now, u, s, action), Act(lean, now, u, s, action), now)
  {
    match action
    case Change(current, password) => ChangeUnnoticed(db, lean, now, u, current, password);
    case ProveWithGoogle(googleId) => ReauthenticateUnnoticed(db, lean, now, u, s, googleId);
    case Unlink(provider, target) => DisconnectUnnoticed(db, lean, now, u, provider, target);
    case AskForNewEmail(newEmail, proof) => AskUnnoticed(db, lean, now, u, s, newEmail, proof);
    case DeleteMyself(proof, pseudonym) => SelfDeleteUnnoticed(db, lean, now, u, s, proof, pseudonym);
  }

  lemma ActUnnoticed(db: Db, lean: Db, now: Time, u: Id, s: Id, action: Action)
    requires OnSession(db, lean, now, u, s)
    ensures Unnoticed(Act(db, now, u, s, action), Act(lean, now, u, s, action), now)
  {
    if Administers(action) {
      AdministeringUnnoticed(db, lean, now, u, s, action);
    } else if OnOwnRow(action) {
      OwnRowUnnoticed(db, lean, now, u, s, action);
    } else {
      LoginsUnnoticed(db, lean, now, u, s, action);
    }
  }

  lemma ValidateUnnoticed(db: Db, lean: Db, now: Time, s: Id)
    requires OneRowEach(db) && OwnersExist(db) && OwnersExist(lean) && Trimmed(db, lean, now)
    ensures var valid, valid' := ValidateSession(db, now, s), ValidateSession(lean, now, s);
      && valid'.outcome == valid.outcome && Trimmed(valid.db, valid'.db, now) && OneRowEach(valid.db)
      && (valid.outcome.SessionValid? ==> s in valid.db.sessions && s in valid'.db.sessions)
  {
    TrimmedDeleteSession(db, lean, now, s);
    if s in db.sessions && s in lean.sessions {
      TrimmedSetSession(db, lean, now, s, db.sessions[s].(expiresAt := now + SESSION_TTL));
    }
  }

  lemma ActAsUnnoticed(db: Db, lean: Db, now: Time, s: Id, action: Action)
    requires OneRowEach(db) && OwnersExist(db) && OwnersExist(lean) && Trimmed(db, lean, now)
    ensures Unnoticed(ActAs(db, now, s, action), ActAs(lean, now, s, action), now)
  {
    ValidateUnnoticed(db, lean, now, s);
    var valid := ValidateSession(db, now, s);
    if valid.outcome.SessionValid? {
      ActUnnoticed(valid.db, ValidateSession(lean, now, s).db, now, valid.outcome.user, s, action);
    }
  }

  // ─── Any request ───────────────────────────────────────────────────────────

  lemma GrantUnnoticed(db: Db, lean: Db, now: Time, rawEmail: string, allowUnverified: bool)
    requires OneRowEach(db) && Trimmed(db, lean, now)
    ensures Unnoticed(GrantAdmin(db, rawEmail, allowUnverified), GrantAdmin(lean, rawEmail, allowUnverified), now)
  {
    var holder := HolderOf(db, Trim(rawEmail));
    SameEmailHolder(db, lean, Trim(rawEmail));
    if holder.Some? {
      var user := db.users[holder.value];
      TrimmedSetUser(db, lean, now, holder.value, user.(roles := user.roles + {ADMIN}));
    }
  }

  lemma SweepUnnoticed(db: Db, lean: Db, now: Time)
    requires Trimmed(db, lean, now)
    ensures Trimmed(DeleteExpiredPendingSignups(db, now), DeleteExpiredPendingSignups(lean, now), now)
  {
  }

  lemma CleanUnnoticed(db: Db, lean: Db, now: Time)
    requires Trimmed(db, lean, now)
    ensures Trimmed(CleanUpExpired(db, now), CleanUpExpired(lean, now), now)
  {
    SweepUnnoticed(db, lean, now);
  }

  lemma JobUnnoticed(db: Db, lean: Db, now: Time, request: Request)
    requires OneRowEach(db) && OwnersExist(db) && OwnersExist(lean) && Trimmed(db, lean, now) && ByJob(request)
    ensures Unnoticed(Step(db, now, request), Step(lean, now, request), now)
  {
    match request
    case Sweep => SweepUnnoticed(db, lean, now);
    case CleanUp => CleanUnnoticed(db, lean, now);
    case Bootstrap(rawEmail, allowUnverified) => GrantUnnoticed(db, lean, now, rawEmail, allowUnverified);
  }

  lemma ByLinkUnnoticed(db: Db, lean: Db, now: Time, request: Request)
    requires OneRowEach(db) && OwnersExist(db) && OwnersExist(lean) && Trimmed(db, lean, now) && ByLink(request)
    ensures Unnoticed(Step(db, now, request), Step(lean, now, request), now)
  {
    match request
    case Verify(t) => VerifyUnnoticed(db, lean, now, t);
    case ResendLink(rawEmail) => ResendUnnoticed(db, lean, now, rawEmail);
    case Forgot(rawEmail) => ForgotUnnoticed(db, lean, now, rawEmail);
    case Reset(t, password) => ResetUnnoticed(db, lean, now, t, password);
    case ConfirmAddress(t) => ConfirmUnnoticed(db, lean, now, t);
  }

  lemma SigningInUnnoticed(db: Db, lean: Db, now: Time, request: Request)
    requires OneRowEach(db) && OwnersExist(db) && OwnersExist(lean) && Trimmed(db, lean, now) && SigningIn(request)
    ensures Unnoticed(Step(db, now, request), Step(lean, now, request), now)
  {
    match request
    case SignUp(rawEmail, password, username, dob, known) =>
      RegisterUnnoticed(db, lean, now, rawEmail, password, username, dob, known);
    case SignIn(rawEmail, password) => LoginUnnoticed(db, lean, now, rawEmail, password);
    case BeginGoogle(username, dob, known) => StartUnnoticed(db, lean, now, username, dob, known);
    case ReturnFromGoogle(googleId, rawEmail, verified, pending, random) =>
      GoogleUnnoticed(db, lean, now, googleId, rawEmail, verified, pending, random);
    case LinkAccounts(t, password) => LinkUnnoticed(db, lean, now, t, password);
  }

  /** No request can tell the two apart, and none makes a difference that it could tell. */
  lemma StepUnnoticed(db: Db, lean: Db, now: Time, request: Request)
    requires OneRowEach(db) && OwnersExist(db) && OwnersExist(lean) && Trimmed(db, lean, now)
    ensures Unnoticed(Step(db, now, request), Step(lean, now, request), now)
  {
    if request.As? {
      ActAsUnnoticed(db, lean, now, request.session, request.action);
    } else if ByJob(request) {
      JobUnnoticed(db, lean, now, request);
    } else if ByLink(request) {
      ByLinkUnnoticed(db, lean, now, request);
    } else {
      SigningInUnnoticed(db, lean, now, request);
    }
  }

  // ─── Whole runs ────────────────────────────────────────────────────────────

  lemma CleanedIsTrimmed(db: Db, now: Time)
    requires OwnersExist(db)
    ensures Trimmed(db, Step(db, now, CleanUp).db, now)
  {
  }

  lemma OneMoreUnnoticed(db: Db, lean: Db, now: Time, event: Event)
    requires Inv(db) && Inv(lean) && Trimmed(db, lean, now) && now <= event.now
    ensures Unnoticed(Step(db, event.now, event.request), Step(lean, event.now, event.request), event.now)
  {
    TrimmedLater(db, lean, now, event.now);
    StepUnnoticed(db, lean, event.now, event.request);
  }

  lemma {:induction false} AfterStep(run: seq<Event>, event: Event)
    ensures After(run + [event]) == Step(After(run), event.now, event.request).db
  {
    assert (run + [event])[..|run|] == run;
  }

  /** The run with a clean-up at that moment put in. */
  function Cleaned(first: seq<Event>, now: Time, rest: seq<Event>): seq<Event> {
    first + [Event(now, CleanUp)] + rest
  }

  /** The time of the last of these events, or of the clean-up before them. */
  function LastTime(now: Time, rest: seq<Event>): Time {
    if rest == [] then now else rest[|rest| - 1].now
  }

  lemma {:induction false} StaysTrimmed(first: seq<Event>, now: Time, rest: seq<Event>)
    requires InOrder(Cleaned(first, now, rest))
    ensures Trimmed(After(first + rest), After(Cleaned(first, now, rest)), LastTime(now, rest))
    decreases |rest|
  {
    if rest == [] {
      assert first + rest == first && Cleaned(first, now, rest) == first + [Event(now, CleanUp)];
      CleanedIsTrimmed(After(first), now);
      AfterStep(first, Event(now, CleanUp));
    } else {
      var before, last := rest[..|rest| - 1], rest[|rest| - 1];
      OneLess(first, now, before, last);
      assert rest == before + [last];
      StaysTrimmed(first, now, before);
      OneMoreUnnoticed(After(first + before), After(Cleaned(first, now, before)), LastTime(now, before), last);
      AfterStep(first + before, last);
      AfterStep(Cleaned(first, now, before), last);
    }
  }

  lemma OneLess(first: seq<Event>, now: Time, before: seq<Event>, last: Event)
    ensures first + (before + [last]) == first + before + [last]
    ensures Cleaned(first, now, before + [last]) == Cleaned(first, now, before) + [last]
    ensures InOrder(Cleaned(first, now, before + [last])) ==>
      InOrder(Cleaned(first, now, before)) && LastTime(now, before) <= last.now
  {
    var run := Cleaned(first, now, before + [last]);
    assert run == Cleaned(first, now, before) + [last];
    assert run[|run| - 2].now == LastTime(now, before) && run[|run| - 1] == last;
    assert forall i :: 0 <= i < |run| - 1 ==> Cleaned(first, now, before)[i] == run[i];
  }

  /** Whatever happens before the clean-up and after it, the next request is answered as it would be had
      there been no clean-up, unless it follows a link that has run out. */
  lemma CleanUpGoesUnnoticed(first: seq<Event>, now: Time, rest: seq<Event>, event: Event)
    requires InOrder(Cleaned(first, now, rest + [event]))
    ensures var run, cleaned := first + rest + [event], Cleaned(first, now, rest) + [event];
      SameAnswer(Answer(run, |first| + |rest|), Answer(cleaned, |first| + 1 + |rest|))
  {
    var run, cleaned := first + rest + [event], Cleaned(first, now, rest) + [event];
    OneLess(first, now, rest, event);
    StaysTrimmed(first, now, rest);
    OneMoreUnnoticed(After(first + rest), After(Cleaned(first, now, rest)), LastTime(now, rest), event);
    assert run[..|first| + |rest|] == first + rest;
    assert cleaned[..|first| + 1 + |rest|] == Cleaned(first, now, rest);
  }
}
