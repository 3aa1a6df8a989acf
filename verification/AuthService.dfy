/** The account service over the repository and the lockout store, call by call. Each method leaves the
    tables as its operation in AuthSpec says and answers as it says. */
module AuthService {
  import opened Text
  import opened AuthTables
  import opened AuthSpec
  import opened AuthInvariant
  import opened AuthRepository
  import Lockout

  /** The part of the invariant the service relies on to find the one row it looks for. */
  ghost predicate Keyed(db: Db) {
    EmailsUnique(db.users) && IdentitiesUnique(db.accounts) && OneEmailAccountEach(db.accounts) && OwnersExist(db)
  }

  lemma InvIsKeyed(db: Db)
    requires Inv(db)
    ensures Keyed(db)
  {
  }

  // ─── What the queries find is unique ───────────────────────────────────────

  lemma TheUser(db: Db, email: string, found: Option<Id>)
    requires EmailsUnique(db.users)
    requires found.Some? ==> LiveIn(db.users, found.value) && db.users[found.value].email == email
    requires found.None? ==> forall u :: LiveIn(db.users, u) ==> db.users[u].email != email
    ensures found == FindUserByEmail(db, email)
  {
    var spec := FindUserByEmail(db, email);
    if spec.Some? { assert IsUserByEmail(db, spec.value, email); }
    if found.Some? { assert IsUserByEmail(db, found.value, email); }
  }

  lemma TheAccount(db: Db, provider: Provider, identifier: string, found: Option<Id>)
    requires IdentitiesUnique(db.accounts)
    requires found.Some? ==> found.value in db.accounts && Identifies(db.accounts[found.value], provider, identifier)
    requires found.None? ==> forall a :: a in db.accounts ==> !Identifies(db.accounts[a], provider, identifier)
    ensures found == FindAuthAccount(db, provider, identifier)
  {
    var spec := FindAuthAccount(db, provider, identifier);
    if spec.Some? { assert IsAccount(db, spec.value, provider, identifier); }
    if found.Some? { assert IsAccount(db, found.value, provider, identifier); }
  }

  lemma TheEmailAccount(db: Db, u: Id, found: Option<Id>)
    requires OneEmailAccountEach(db.accounts)
    requires found.Some? ==>
      found.value in db.accounts && db.accounts[found.value].userId == u && db.accounts[found.value].provider == EMAIL
    requires found.None? ==>
      forall a :: a in db.accounts ==> db.accounts[a].userId != u || db.accounts[a].provider != EMAIL
    ensures found == FindEmailAccountByUserId(db, u)
  {
    var spec := FindEmailAccountByUserId(db, u);
    if spec.Some? { assert IsEmailAccountOf(db, spec.value, u); }
    if found.Some? { assert IsEmailAccountOf(db, found.value, u); }
  }

  lemma WhenInsertCollides(db: Db, email: string, username: string, provider: Provider, identifier: string)
    ensures InsertCollides(db, email, username, provider, identifier) <==>
      || (exists u :: u in db.users && db.users[u].email == email)
      || (exists u :: u in db.users && db.users[u].username == username)
      || (exists a :: a in db.accounts && Identifies(db.accounts[a], provider, identifier))
  {
    var found := FindAuthAccount(db, provider, identifier);
    if found.Some? { assert IsAccount(db, found.value, provider, identifier); }
    if a :| a in db.accounts && Identifies(db.accounts[a], provider, identifier) {
      assert IsAccount(db, a, provider, identifier);
    }
  }

  lemma ReleaseKeepsNext(db: Db, email: string)
    ensures ReleaseStaleClaim(db, email).next == db.next
  {
  }

  lemma WhenTaken(db: Db, provider: Provider, identifier: string)
    ensures FindAuthAccount(db, provider, identifier).Some? <==>
      exists a :: a in db.accounts && Identifies(db.accounts[a], provider, identifier)
  {
    var found := FindAuthAccount(db, provider, identifier);
    if found.Some? { assert IsAccount(db, found.value, provider, identifier); }
    if a :| a in db.accounts && Identifies(db.accounts[a], provider, identifier) {
      assert IsAccount(db, a, provider, identifier);
    }
  }

  lemma TakenIff(db: Db, username: string, holder: Option<Id>)
    requires holder.Some? ==> LiveIn(db.users, holder.value) && db.users[holder.value].username == Lower(username)
    requires holder.None? ==> forall u :: LiveIn(db.users, u) ==> db.users[u].username != Lower(username)
    ensures UsernameTaken(db, username) <==> holder.Some?
  {
    assert forall u :: u in db.users && !db.users[u].deleted ==> LiveIn(db.users, u);
  }

  lemma HeldByOtherIff(db: Db, u: Id, username: string, holder: Option<Id>)
    requires UsernamesUnique(db.users)
    requires holder.Some? ==> LiveIn(db.users, holder.value) && db.users[holder.value].username == Lower(username)
    requires holder.None? ==> forall v :: LiveIn(db.users, v) ==> db.users[v].username != Lower(username)
    ensures NameHeldByOther(db, u, username) <==> holder.Some? && holder.value != u
  {
    assert forall v :: v in db.users && !db.users[v].deleted ==> LiveIn(db.users, v);
  }

  lemma RemainIff(db: Db, u: Id, target: Id, others: set<Id>)
    requires forall b :: b in others <==>
      b in db.accounts && b != target && db.accounts[b].userId == u && Authenticates(db.accounts[b])
    ensures OtherLogin(db, u, target) <==> others != {}
  {
    if b :| b in others { assert b != target && IsLogin(db.accounts, b, u); }
    if OtherLogin(db, u, target) {
      var b :| b != target && IsLogin(db.accounts, b, u);
      assert b in others;
    }
  }

  lemma OneKey(keys: map<string, Lockout.Hash>, keys': map<string, Lockout.Hash>, email: string)
    requires keys' - {email} == keys - {email}
    ensures keys' == if email in keys' then keys[email := keys'[email]] else keys - {email}
  {
    forall k | k in keys || k in keys'
      ensures k != email ==> (k in keys <==> k in keys') && (k in keys ==> keys[k] == keys'[k])
    {
      assert k in keys - {email} <==> k in keys' - {email};
      assert k in keys - {email} ==> (keys - {email})[k] == (keys' - {email})[k];
    }
  }

  lemma NothingToDelete(db: Db, p: Id)
    requires p !in db.pendings
    ensures db.pendings - {p} == db.pendings
  {
  }

  /** Accounts without the user's, all else kept, are what releasing the user's claims leaves. */
  lemma ReleasedIs(db: Db, u: Id, accounts: Accounts)
    requires forall a :: a in accounts ==> accounts[a].userId != u
    requires forall a :: a in accounts ==> a in db.accounts && accounts[a] == db.accounts[a]
    requires forall a :: a in db.accounts && db.accounts[a].userId != u ==> a in accounts
    ensures db.(accounts := accounts) == ReleaseIdentityClaims(db, u)
  {
    assert accounts == ReleaseIdentityClaims(db, u).accounts;
  }

  lemma SpentIs(before: Tokens, u: Id, kind: TokenType, tokens: Tokens)
    requires tokens.Keys == before.Keys
    requires forall t :: t in tokens && Outstanding(before[t], u, kind) ==> tokens[t] == before[t].(used := true)
    requires forall t :: t in tokens && !Outstanding(before[t], u, kind) ==> tokens[t] == before[t]
    ensures tokens == Spent(before, u, kind)
  {
  }

  lemma ProofKeepsKeys(db: Db, now: Time, u: Id, s: Id, password: Option<string>)
    requires Keyed(db)
    ensures Keyed(AuthSpec.AssertRecentlyAuthenticated(db, now, u, s, password).db)
  {
  }

  class Service {
    const repo: Repository
    const redis: Lockout.LockoutStore

    constructor ()
      ensures fresh(repo) && fresh(redis) && Snapshot() == EMPTY_DB
    {
      repo := new Repository();
      redis := new Lockout.LockoutStore();
    }

    ghost function Snapshot(): Db
      reads repo, redis
    {
      Db(repo.users, repo.accounts, repo.sessions, repo.tokens, repo.pendings, redis.keys, repo.next)
    }

    method ReleaseStaleClaim(email: string)
      requires Keyed(Snapshot())
      modifies repo
      ensures Snapshot() == AuthSpec.ReleaseStaleClaim(old(Snapshot()), email)
    {
      var claim := repo.FindAuthAccount(EMAIL, email);
      TheAccount(Snapshot(), EMAIL, email, claim);
      if claim.Some? {
        var holder := repo.accounts[claim.value].userId;
        if holder !in repo.users || repo.users[holder].deleted {
          repo.ReleaseIdentityClaims(holder);
          ReleasedIs(old(Snapshot()), holder, repo.accounts);
        }
      }
    }

    method CreateEmailUser(user: User, hash: PasswordHash, expiresAt: Time) returns (created: Option<Id>)
      modifies repo
      ensures created.Some? <==> !InsertCollides(old(Snapshot()), user.email, user.username, EMAIL, user.email)
      ensures created.None? ==> Snapshot() == old(Snapshot())
      ensures created.Some? ==>
        && created.value == old(Snapshot()).next
        && Snapshot() == InsertToken(InsertUser(old(Snapshot()), user, EMAIL, user.email, Some(hash)),
                                     NewToken(created.value, EMAIL_VERIFICATION, NoMetadata, expiresAt))
    {
      WhenInsertCollides(Snapshot(), user.email, user.username, EMAIL, user.email);
      created := repo.CreateUser(user, EMAIL, user.email, Some(hash));
      if created.Some? {
        var t := repo.CreateVerificationToken(NewToken(created.value, EMAIL_VERIFICATION, NoMetadata, expiresAt));
      }
    }

    method Register(
      now: Time, rawEmail: string, password: string, username: string, dob: Option<Time>, policiesKnown: bool)
      returns (outcome: Outcome)
      requires Keyed(Snapshot())
      modifies repo
      ensures Result(Snapshot(), outcome)
        == AuthSpec.Register(old(Snapshot()), now, rawEmail, password, username, dob, policiesKnown)
    {
      ghost var before := Snapshot();
      var email := Normalize(rawEmail);
      if !Qualifies(dob, now) { return Refused(Underage); }
      var existing := repo.FindUserByEmail(email);
      TheUser(before, email, existing);
      if existing.Some? { return Refused(DuplicateEmail); }
      ReleaseStaleClaim(email);
      if !policiesKnown { return Refused(UnknownPolicy); }
      var created := CreateEmailUser(NewEmailUser(email, username, dob), Bcrypt(password),
          now + VERIFICATION_TOKEN_TTL);
      ReleaseKeepsNext(before, email);
      outcome := if created.Some? then UserCreated(created.value) else Refused(UniqueViolation);
    }

    // ─── Signing in with a password ────────────────────────────────────────

    /** The user whose address and password these are. */
    method CheckCredentials(email: string, password: string) returns (found: Option<Id>)
      requires Keyed(Snapshot())
      ensures var user := FindUserByEmail(Snapshot(), email);
        found == if user.None? || PasswordOf(Snapshot(), user.value) != Some(Bcrypt(password)) then None else user
    {
      found := repo.FindUserByEmail(email);
      TheUser(Snapshot(), email, found);
      if found.None? { return None; }
      var valid := VerifyPassword(found.value, password);
      if !valid { found := None; }
    }

    method VerifyPassword(u: Id, password: string) returns (valid: bool)
      requires Keyed(Snapshot())
      ensures valid <==> PasswordOf(Snapshot(), u) == Some(Bcrypt(password))
    {
      var account := repo.FindEmailAccountByUserId(u);
      TheEmailAccount(Snapshot(), u, account);
      valid := account.Some? && repo.accounts[account.value].passwordHash == Some(Bcrypt(password));
    }

    method Login(now: Time, rawEmail: string, password: string) returns (outcome: Outcome)
      requires Keyed(Snapshot())
      modifies repo, redis
      ensures Result(Snapshot(), outcome) == AuthSpec.Login(old(Snapshot()), now, rawEmail, password)
    {
      var email := Normalize(rawEmail);
      var locked, _ := redis.CheckLockout(email, now);
      if locked { return Refused(AccountLocked); }
      var found := CheckCredentials(email, password);
      if found.None? {
        redis.RecordFailedLogin(email, Lockout.Timing(now, now, now, now));
        OneKey(old(redis.keys), redis.keys, email);
        return Refused(InvalidCredentials);
      }
      var user := repo.users[found.value];
      if !user.verified { return Refused(EmailNotVerified); }
      if user.suspended { return Refused(AccountSuspended); }
      redis.ClearLockout(email);
      OneKey(old(redis.keys), redis.keys, email);
      var s := repo.CreateSession(NewSession(found.value, now));
      outcome := SessionStarted(found.value, s);
    }

    // ─── Google ────────────────────────────────────────────────────────────

    method StartGoogleSignup(
      now: Time, username: string, dob: Option<Time>, policiesKnown: bool) returns (outcome: Outcome)
      modifies repo
      ensures Result(Snapshot(), outcome)
        == AuthSpec.StartGoogleSignup(old(Snapshot()), now, username, dob, policiesKnown)
    {
      if !Qualifies(dob, now) { return Refused(Underage); }
      var holder := repo.FindUserByUsername(username);
      TakenIff(Snapshot(), username, holder);
      if holder.Some? { return Refused(DuplicateUsername); }
      if !policiesKnown { return Refused(UnknownPolicy); }
      var p := repo.CreatePendingSignup(PendingSignup(username, dob.value, now + PENDING_SIGNUP_TTL));
      outcome := SignupPending(p);
    }

    method ClaimUsername(chosen: string, random: string) returns (name: string)
      ensures name == AuthSpec.ClaimUsername(Snapshot(), chosen, random)
    {
      var holder := repo.FindUserByUsername(chosen);
      TakenIff(Snapshot(), chosen, holder);
      if holder.None? { return chosen; }
      var n := 2;
      while n <= 99
        invariant 2 <= n <= 100
        invariant NumberedUsername(Snapshot(), chosen, 2, random) == NumberedUsername(Snapshot(), chosen, n, random)
      {
        var candidate := Candidate(chosen, n);
        holder := repo.FindUserByUsername(candidate);
        TakenIff(Snapshot(), candidate, holder);
        if holder.None? { return candidate; }
        n := n + 1;
      }
      name := RandomName(chosen, random);
    }

    method IssueToken(u: Id, kind: TokenType, metadata: Metadata, expiresAt: Time) returns (t: Id)
      modifies repo
      ensures t == old(Snapshot()).next && Snapshot() == Reissue(old(Snapshot()), u, kind, metadata, expiresAt)
    {
      repo.InvalidateTokens(u, kind);
      SpentIs(old(repo.tokens), u, kind, repo.tokens);
      t := repo.CreateVerificationToken(NewToken(u, kind, metadata, expiresAt));
    }

    method CreateGoogleUser(user: User, googleId: string, now: Time) returns (outcome: Outcome)
      modifies repo
      ensures InsertCollides(old(Snapshot()), user.email, user.username, GOOGLE, googleId) ==>
        Snapshot() == old(Snapshot()) && outcome == Refused(UniqueViolation)
      ensures !InsertCollides(old(Snapshot()), user.email, user.username, GOOGLE, googleId) ==>
        && Snapshot() == NewGoogleSession(old(Snapshot()), user, googleId, now)
        && outcome == SessionStarted(old(Snapshot()).next, old(Snapshot()).next + 2)
    {
      WhenInsertCollides(Snapshot(), user.email, user.username, GOOGLE, googleId);
      var created := repo.CreateUser(user, GOOGLE, googleId, None);
      if created.None? { return Refused(UniqueViolation); }
      var s := repo.CreateSession(NewSession(created.value, now));
      outcome := SessionStarted(created.value, s);
    }

    method GoogleWithoutAccount(
      now: Time, googleId: string, rawEmail: string, emailVerified: bool, pending: Option<Id>, random: string)
      returns (outcome: Outcome)
      requires EmailsUnique(Snapshot().users)
      modifies repo
      ensures Result(Snapshot(), outcome) ==
        AuthSpec.GoogleWithoutAccount(old(Snapshot()), now, googleId, rawEmail, emailVerified, pending, random)
    {
      var email := Normalize(rawEmail);
      var existing := repo.FindUserByEmail(email);
      TheUser(Snapshot(), email, existing);
      if existing.Some? {
        var t := IssueToken(existing.value, GOOGLE_LINK, GoogleIdentity(googleId, emailVerified),
            now + GOOGLE_LINK_TOKEN_TTL);
        return LinkPending(t);
      }
      outcome := GoogleSignup(now, googleId, email, pending, random);
    }

    method GoogleSignup(now: Time, googleId: string, email: string, pending: Option<Id>, random: string)
      returns (outcome: Outcome)
      modifies repo
      ensures Result(Snapshot(), outcome)
        == AuthSpec.GoogleSignup(old(Snapshot()), now, googleId, email, pending, random)
    {
      if pending.None? { return Refused(SignupRequired); }
      if pending.value !in repo.pendings { NothingToDelete(Snapshot(), pending.value); }
      var signup := repo.ConsumePendingSignup(pending.value, now);
      if signup.None? { return Refused(SignupRequired); }
      if !Qualifies(Some(signup.value.dob), now) { return Refused(Underage); }
      var username := ClaimUsername(signup.value.username, random);
      outcome := CreateGoogleUser(NewGoogleUser(email, username, signup.value.dob), googleId, now);
    }

    method HandleGoogleLogin(
      now: Time, googleId: string, rawEmail: string, emailVerified: bool, pending: Option<Id>, random: string)
      returns (outcome: Outcome)
      requires Keyed(Snapshot())
      modifies repo
      ensures Result(Snapshot(), outcome) ==
        AuthSpec.GoogleLogin(old(Snapshot()), now, googleId, rawEmail, emailVerified, pending, random)
    {
      var account := repo.FindAuthAccount(GOOGLE, googleId);
      TheAccount(Snapshot(), GOOGLE, googleId, account);
      if account.Some? {
        var u := repo.accounts[account.value].userId;
        if u in repo.users && !repo.users[u].deleted {
          if repo.users[u].suspended { return Refused(AccountSuspended); }
          var s := repo.CreateSession(NewSession(u, now));
          return SessionStarted(u, s);
        }
        if pending.None? { return Refused(AccountDeleted); }
        repo.ReleaseIdentityClaims(u);
        ReleasedIs(old(Snapshot()), u, repo.accounts);
      }
      outcome := GoogleWithoutAccount(now, googleId, rawEmail, emailVerified, pending, random);
    }

    /** The token if it may be acted on, or why not. */
    method UsableTokenOrRefusal(now: Time, t: Id, kind: TokenType) returns (token: Option<Token>, refusal: Outcome)
      ensures token == if TokenRefusal(Snapshot(), now, t, kind).None? then Some(repo.tokens[t]) else None
      ensures token.None? ==> refusal == Refused(TokenRefusal(Snapshot(), now, t, kind).value)
    {
      token := repo.FindVerificationToken(t, kind);
      refusal := Refused(TokenInvalid);
      if token.Some? && token.value.expiresAt < now { token, refusal := None, Refused(TokenExpired); }
    }

    method MarkEmailVerified(u: Id)
      requires u in repo.users
      modifies repo
      ensures Snapshot() == SetVerified(old(Snapshot()), u)
    {
      repo.UpdateUser(u, repo.users[u].(verified := true));
    }

    method LinkGoogleAccount(now: Time, t: Id, password: string) returns (outcome: Outcome)
      requires Keyed(Snapshot())
      modifies repo
      ensures Result(Snapshot(), outcome) == AuthSpec.LinkGoogle(old(Snapshot()), now, t, password)
    {
      var token, refusal := UsableTokenOrRefusal(now, t, GOOGLE_LINK);
      if token.None? { return refusal; }
      var u, metadata := token.value.userId, token.value.metadata;
      var valid := VerifyPassword(u, password);
      if !valid { return Refused(InvalidCredentials); }
      if !metadata.GoogleIdentity? || metadata.googleId == "" { return Refused(TokenInvalid); }
      outcome := Link(now, t, u, metadata.googleId, metadata.emailVerified);
    }

    method Link(now: Time, t: Id, u: Id, googleId: string, verify: bool) returns (outcome: Outcome)
      requires u in repo.users && t in repo.tokens
      modifies repo
      ensures FindAuthAccount(old(Snapshot()), GOOGLE, googleId).Some? ==>
        Snapshot() == old(Snapshot()) && outcome == Refused(UniqueViolation)
      ensures FindAuthAccount(old(Snapshot()), GOOGLE, googleId).None? ==>
        && outcome == SessionStarted(u, old(Snapshot()).next + 1)
        && var linked := MarkTokenUsed(InsertAccount(old(Snapshot()), Account(u, GOOGLE, googleId, None)), t);
           Snapshot() == InsertSession(if verify then SetVerified(linked, u) else linked, NewSession(u, now))
    {
      WhenTaken(Snapshot(), GOOGLE, googleId);
      var created := repo.CreateAccount(Account(u, GOOGLE, googleId, None));
      if !created { return Refused(UniqueViolation); }
      repo.MarkTokenUsed(t);
      if verify { MarkEmailVerified(u); }
      var s := repo.CreateSession(NewSession(u, now));
      outcome := SessionStarted(u, s);
    }

    // ─── Verification and passwords ────────────────────────────────────────

    method VerifyEmail(now: Time, t: Id) returns (outcome: Outcome)
      requires Keyed(Snapshot())
      modifies repo
      ensures Result(Snapshot(), outcome) == AuthSpec.VerifyEmail(old(Snapshot()), now, t)
    {
      var token, refusal := UsableTokenOrRefusal(now, t, EMAIL_VERIFICATION);
      if token.None? { return refusal; }
      repo.MarkTokenUsed(t);
      MarkEmailVerified(token.value.userId);
      outcome := Done;
    }

    method ResendVerification(now: Time, rawEmail: string) returns (outcome: Outcome)
      requires Keyed(Snapshot())
      modifies repo
      ensures Result(Snapshot(), outcome) == AuthSpec.ResendVerification(old(Snapshot()), now, rawEmail)
    {
      outcome := Done;
      var found := repo.FindUserByEmail(Normalize(rawEmail));
      TheUser(Snapshot(), Normalize(rawEmail), found);
      if found.None? || repo.users[found.value].verified { return; }
      var account := repo.FindEmailAccountByUserId(found.value);
      TheEmailAccount(Snapshot(), found.value, account);
      if account.None? { return; }
      var t := IssueToken(found.value, EMAIL_VERIFICATION, NoMetadata, now + VERIFICATION_TOKEN_TTL);
    }

    method ForgotPassword(now: Time, rawEmail: string) returns (outcome: Outcome)
      requires Keyed(Snapshot())
      modifies repo
      ensures Result(Snapshot(), outcome) == AuthSpec.ForgotPassword(old(Snapshot()), now, rawEmail)
    {
      var found := repo.FindUserByEmail(Normalize(rawEmail));
      TheUser(Snapshot(), Normalize(rawEmail), found);
      if found.None? { return NoAccount; }
      var account := repo.FindEmailAccountByUserId(found.value);
      TheEmailAccount(Snapshot(), found.value, account);
      var hasPassword := account.Some? && repo.accounts[account.value].passwordHash.Some?;
      var t := IssueToken(found.value, PASSWORD_RESET, NoMetadata, now + PASSWORD_RESET_TOKEN_TTL);
      outcome := if hasPassword then ResetSent else SetPasswordSent;
    }

    method ForceLogout(u: Id)
      modifies repo
      ensures Snapshot() == DeleteAllUserSessions(old(Snapshot()), u)
    {
      repo.DeleteAllUserSessions(u);
    }

    method FinishReset(u: Id, t: Id)
      requires u in repo.users && t in repo.tokens
      modifies repo
      ensures Snapshot() == AuthSpec.FinishReset(old(Snapshot()), u, t)
    {
      repo.MarkTokenUsed(t);
      MarkEmailVerified(u);
      ForceLogout(u);
    }

    method ResetPassword(now: Time, t: Id, password: string) returns (outcome: Outcome)
      requires Keyed(Snapshot())
      modifies repo
      ensures Result(Snapshot(), outcome) == AuthSpec.ResetPassword(old(Snapshot()), now, t, password)
    {
      var token, refusal := UsableTokenOrRefusal(now, t, PASSWORD_RESET);
      if token.None? { return refusal; }
      var u := token.value.userId;
      var account := repo.FindEmailAccountByUserId(u);
      TheEmailAccount(Snapshot(), u, account);
      if account.Some? {
        repo.UpdatePasswordHash(account.value, Bcrypt(password));
      } else {
        if repo.users[u].deleted { return Refused(NotFound); }
        var email := repo.users[u].email;
        WhenTaken(Snapshot(), EMAIL, email);
        var created := repo.CreateAccount(Account(u, EMAIL, email, Some(Bcrypt(password))));
        if !created { return Refused(UniqueViolation); }
      }
      FinishReset(u, t);
      outcome := Done;
    }

    method ChangePassword(now: Time, u: Id, current: string, password: string) returns (outcome: Outcome)
      requires Keyed(Snapshot())
      modifies repo
      ensures Result(Snapshot(), outcome) == AuthSpec.ChangePassword(old(Snapshot()), now, u, current, password)
    {
      var account := repo.FindEmailAccountByUserId(u);
      TheEmailAccount(Snapshot(), u, account);
      if account.None? || repo.accounts[account.value].passwordHash.None? { return Refused(NoPasswordSet); }
      if repo.accounts[account.value].passwordHash != Some(Bcrypt(current)) { return Refused(PasswordIncorrect); }
      repo.UpdatePasswordHash(account.value, Bcrypt(password));
      ForceLogout(u);
      var s := repo.CreateSession(NewSession(u, now));
      outcome := SessionStarted(u, s);
    }

    // ─── Re-authentication ─────────────────────────────────────────────────

    method AssertRecentlyAuthenticated(now: Time, u: Id, s: Id, password: Option<string>) returns (outcome: Outcome)
      requires Keyed(Snapshot())
      modifies repo
      ensures Result(Snapshot(), outcome) == AuthSpec.AssertRecentlyAuthenticated(old(Snapshot()), now, u, s, password)
    {
      if Given(password) {
        var valid := VerifyPassword(u, password.value);
        if valid { return Done; }
      }
      var consumed := repo.ConsumeSessionReauthentication(s, now - REAUTH_WINDOW);
      if consumed { return Done; }
      outcome := Refused(if Given(password) then PasswordIncorrect else ReauthenticationRequired);
    }

    method ReauthenticateWithGoogle(now: Time, u: Id, s: Id, googleId: string) returns (outcome: Outcome)
      requires Keyed(Snapshot())
      modifies repo
      ensures Result(Snapshot(), outcome) == AuthSpec.ReauthenticateWithGoogle(old(Snapshot()), now, u, s, googleId)
    {
      var account := repo.FindAuthAccount(GOOGLE, googleId);
      TheAccount(Snapshot(), GOOGLE, googleId, account);
      if account.None? || repo.accounts[account.value].userId != u { return Refused(AccessDenied); }
      if s !in repo.sessions { return Refused(NotFound); }
      repo.UpdateSession(s, repo.sessions[s].(reauthenticatedAt := Some(now)));
      outcome := Done;
    }

    // ─── Connected accounts and the address ────────────────────────────────

    /** `target` is the account of the provider that the listing has first, if it has one. */
    method DisconnectAccount(u: Id, provider: Provider, target: Id) returns (outcome: Outcome)
      modifies repo
      ensures Result(Snapshot(), outcome) == Disconnect(old(Snapshot()), u, provider, target)
    {
      if !(target in repo.accounts && repo.accounts[target].userId == u && repo.accounts[target].provider == provider) {
        return Refused(NotFound);
      }
      var others := set b |
        b in repo.accounts && b != target && repo.accounts[b].userId == u && Authenticates(repo.accounts[b]);
      RemainIff(Snapshot(), u, target, others);
      if others == {} { return Refused(InUse); }
      repo.DeleteAuthAccount(target);
      outcome := Done;
    }

    method LiveClaimByOther(u: Id, email: string) returns (claimed: bool)
      requires Keyed(Snapshot())
      ensures claimed <==> AuthSpec.LiveClaimByOther(Snapshot(), u, email)
    {
      var claim := repo.FindAuthAccount(EMAIL, email);
      TheAccount(Snapshot(), EMAIL, email, claim);
      claimed := claim.Some? && repo.accounts[claim.value].userId != u
        && repo.accounts[claim.value].userId in repo.users && !repo.users[repo.accounts[claim.value].userId].deleted;
    }

    method RequestEmailChange(
      now: Time, u: Id, s: Id, newEmail: string, password: Option<string>) returns (outcome: Outcome)
      requires Keyed(Snapshot())
      modifies repo
      ensures Result(Snapshot(), outcome) == AuthSpec.RequestEmailChange(old(Snapshot()), now, u, s, newEmail, password)
    {
      var address := Normalize(newEmail);
      if u !in repo.users || repo.users[u].deleted { return Refused(NotFound); }
      outcome := AssertRecentlyAuthenticated(now, u, s, password);
      if outcome != Done { return; }
      ProofKeepsKeys(old(Snapshot()), now, u, s, password);
      if address == Lower(repo.users[u].email) { return Refused(DuplicateEmail); }
      var inUse := repo.EmailInUse(address);
      if inUse { return Refused(DuplicateEmail); }
      var claimed := LiveClaimByOther(u, address);
      if claimed { return Refused(DuplicateEmail); }
      repo.UpdateUser(u, repo.users[u].(pendingEmail := Some(address)));
      var t := IssueToken(u, EMAIL_CHANGE, NewEmail(address), now + PASSWORD_RESET_TOKEN_TTL);
    }

    method ConfirmEmailChange(now: Time, t: Id) returns (outcome: Outcome)
      requires Keyed(Snapshot())
      modifies repo
      ensures Result(Snapshot(), outcome) == AuthSpec.ConfirmEmailChange(old(Snapshot()), now, t)
    {
      var token, refusal := UsableTokenOrRefusal(now, t, EMAIL_CHANGE);
      if token.None? { return refusal; }
      var u, metadata := token.value.userId, token.value.metadata;
      var pending := repo.users[u].pendingEmail;
      if pending.None? || pending.value == "" || !metadata.NewEmail? || metadata.address == ""
         || Lower(pending.value) != Lower(metadata.address) {
        return Refused(TokenInvalid);
      }
      var inUse := repo.EmailInUse(pending.value);
      if inUse { return Refused(DuplicateEmail); }
      var claimed := LiveClaimByOther(u, pending.value);
      if claimed { return Refused(DuplicateEmail); }
      outcome := MoveAddress(u, pending.value, t);
    }

    /** Lets go of a deleted user's claim on the address and moves the user and the EMAIL account to it. */
    method MoveAddress(u: Id, email: string, t: Id) returns (outcome: Outcome)
      requires Keyed(Snapshot()) && u in repo.users && t in repo.tokens
      modifies repo
      ensures var released := AuthSpec.ReleaseOtherClaim(old(Snapshot()), u, email);
        && released.users == old(repo.users) && released.tokens == old(repo.tokens)
        && Result(Snapshot(), outcome) ==
             if ChangeCollides(released.users, released.accounts, u, email) then Refuse(released, UniqueViolation)
             else Result(MarkTokenUsed(ApplyEmailChange(released, u, email), t), Done)
    {
      ReleaseOtherClaim(u, email);
      var applied := repo.ApplyEmailChange(u, email);
      if !applied { return Refused(UniqueViolation); }
      repo.MarkTokenUsed(t);
      outcome := Done;
    }

    method ReleaseOtherClaim(u: Id, email: string)
      requires Keyed(Snapshot())
      modifies repo`accounts
      ensures Snapshot() == AuthSpec.ReleaseOtherClaim(old(Snapshot()), u, email)
    {
      var claim := repo.FindAuthAccount(EMAIL, email);
      TheAccount(Snapshot(), EMAIL, email, claim);
      if claim.Some? && repo.accounts[claim.value].userId != u {
        var holder := repo.accounts[claim.value].userId;
        repo.ReleaseIdentityClaims(holder);
        ReleasedIs(old(Snapshot()), holder, repo.accounts);
      }
    }

    // ─── Sessions and onboarding ───────────────────────────────────────────

    method ValidateSession(now: Time, s: Id) returns (outcome: Outcome)
      requires Keyed(Snapshot())
      modifies repo
      ensures Result(Snapshot(), outcome) == AuthSpec.ValidateSession(old(Snapshot()), now, s)
    {
      if s !in repo.sessions { return Refused(Unauthenticated); }
      var session := repo.sessions[s];
      var user := repo.users[session.userId];
      if session.expiresAt < now || user.deleted || user.suspended {
        repo.DeleteSession(s);
        return Refused(Unauthenticated);
      }
      repo.UpdateSession(s, session.(expiresAt := now + SESSION_TTL));
      outcome := SessionValid(session.userId);
    }

    method CompleteOnboarding(u: Id, username: Option<string>) returns (outcome: Outcome)
      requires u in repo.users && UsernamesUnique(repo.users)
      modifies repo
      ensures Result(Snapshot(), outcome) == AuthSpec.CompleteOnboarding(old(Snapshot()), u, username)
    {
      if !Given(username) { return Done; }
      var holder := repo.FindUserByUsername(username.value);
      HeldByOtherIff(Snapshot(), u, username.value, holder);
      if holder.Some? && holder.value != u { return Refused(DuplicateUsername); }
      var renamed := repo.UpdateUsername(u, username.value);
      outcome := if renamed then Done else Refused(UniqueViolation);
    }
  }
}
