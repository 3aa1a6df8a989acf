/** Each operation of the account service as a function of the tables, one operation at a time: the state
    it leaves, on success and on every refusal, and what it answers. Randomness, the clock and the policy
    documents on file are arguments. */
module AuthSpec {
  import opened Text
  import opened AuthTables
  import Age
  import Lockout

  const MINUTE := 60_000
  const HOUR := 3_600_000
  const DAY := 86_400_000
  const SESSION_TTL := 30 * DAY
  const PENDING_SIGNUP_TTL := 15 * MINUTE
  const VERIFICATION_TOKEN_TTL := 24 * HOUR
  const PASSWORD_RESET_TOKEN_TTL := HOUR
  const GOOGLE_LINK_TOKEN_TTL := 15 * MINUTE
  const REAUTH_WINDOW := 10 * MINUTE

  datatype AuthError =
    | Underage | DuplicateEmail | DuplicateUsername | UnknownPolicy | UniqueViolation
    | AccountLocked | InvalidCredentials | EmailNotVerified | AccountSuspended | AccountDeleted
    | SignupRequired | TokenInvalid | TokenExpired | NotFound | NoPasswordSet | PasswordIncorrect
    | ReauthenticationRequired | InUse | Unauthenticated | AccessDenied

  datatype Outcome =
    | Done
    | NoAccount
    | ResetSent
    | SetPasswordSent
    | UserCreated(user: Id)
    | SessionStarted(user: Id, session: Id)
    | LinkPending(token: Id)
    | SignupPending(pending: Id)
    | SessionValid(user: Id)
    | Refused(error: AuthError)

  datatype Result = Result(db: Db, outcome: Outcome)

  function Refuse(db: Db, error: AuthError): Result {
    Result(db, Refused(error))
  }

  function NewSession(u: Id, now: Time): Session {
    Session(u, now + SESSION_TTL, None)
  }

  function NewToken(u: Id, kind: TokenType, metadata: Metadata, expiresAt: Time): Token {
    Token(u, kind, metadata, expiresAt, false)
  }

  /** A fresh token, after the user's earlier ones of the kind are spent. */
  function Reissue(db: Db, u: Id, kind: TokenType, metadata: Metadata, expiresAt: Time): Db {
    InsertToken(InvalidateTokens(db, u, kind), NewToken(u, kind, metadata, expiresAt))
  }

  // ─── Sign-up and sign-in with a password ───────────────────────────────────

  /** A deleted account may still hold the address as an EMAIL identity; it is let go. */
  ghost function ReleaseStaleClaim(db: Db, email: string): Db {
    var claim := FindAuthAccount(db, EMAIL, email);
    if claim.Some? && !Live(db, db.accounts[claim.value].userId)
    then ReleaseIdentityClaims(db, db.accounts[claim.value].userId)
    else db
  }

  /** Whether inserting a user with this identity breaks a unique index. */
  ghost predicate InsertCollides(db: Db, email: string, username: string, provider: Provider, identifier: string) {
    EmailInUse(db, email) || UsernameInUse(db, username) || FindAuthAccount(db, provider, identifier).Some?
  }

  function NewEmailUser(email: string, username: string, dob: Option<Time>): User {
    User(email, username, None, dob, false, false, false, {VRATARTHI})
  }

  ghost function Register(
    db: Db, now: Time, rawEmail: string, password: string, username: string, dob: Option<Time>, policiesKnown: bool)
    : (r: Result)
    ensures r.db.lockouts == db.lockouts
  {
    var email := Normalize(rawEmail);
    if !Qualifies(dob, now) then Refuse(db, Underage)
    else if FindUserByEmail(db, email).Some? then Refuse(db, DuplicateEmail)
    else
      var released := ReleaseStaleClaim(db, email);
      if !policiesKnown then Refuse(released, UnknownPolicy)
      else if InsertCollides(released, email, username, EMAIL, email) then Refuse(released, UniqueViolation)
      else
        var created := InsertUser(released, NewEmailUser(email, username, dob), EMAIL, email, Some(Bcrypt(password)));
        var token := NewToken(db.next, EMAIL_VERIFICATION, NoMetadata, now + VERIFICATION_TOKEN_TTL);
        Result(InsertToken(created, token), UserCreated(db.next))
  }

  function RecordFailure(db: Db, email: string, now: Time): Db {
    var h := Lockout.Recorded(Lockout.Look(db.lockouts, email), Lockout.Timing(now, now, now, now));
    db.(lockouts := if h.Some? then db.lockouts[email := h.value] else db.lockouts - {email})
  }

  ghost function Login(db: Db, now: Time, rawEmail: string, password: string): Result {
    var email := Normalize(rawEmail);
    if Lockout.Locked(Lockout.Look(db.lockouts, email), now) then Refuse(db, AccountLocked)
    else
      var found := FindUserByEmail(db, email);
      if found.None? || PasswordOf(db, found.value) != Some(Bcrypt(password))
      then Refuse(RecordFailure(db, email, now), InvalidCredentials)
      else
        var u := found.value;
        if !db.users[u].verified then Refuse(db, EmailNotVerified)
        else if db.users[u].suspended then Refuse(db, AccountSuspended)
        else
          var cleared := db.(lockouts := db.lockouts - {email});
          Result(InsertSession(cleared, NewSession(u, now)), SessionStarted(u, db.next))
  }

  // ─── Google ────────────────────────────────────────────────────────────────

  ghost function StartGoogleSignup(
    db: Db, now: Time, username: string, dob: Option<Time>, policiesKnown: bool): (r: Result)
    ensures r.db.users == db.users
    ensures r.db.lockouts == db.lockouts
  {
    if !Qualifies(dob, now) then Refuse(db, Underage)
    else if UsernameTaken(db, username) then Refuse(db, DuplicateUsername)
    else if !policiesKnown then Refuse(db, UnknownPolicy)
    else Result(InsertPending(db, PendingSignup(username, dob.value, now + PENDING_SIGNUP_TTL)), SignupPending(db.next))
  }

  function Candidate(chosen: string, n: nat): string {
    (if |chosen| > 25 then chosen[..25] else chosen) + "_" + Age.Pad(n, if n < 10 then 1 else 2)
  }

  function RandomName(chosen: string, random: string): string {
    (if |chosen| > 22 then chosen[..22] else chosen) + "_" + random
  }

  ghost function NumberedUsername(db: Db, chosen: string, n: nat, random: string): string
    decreases 100 - n
  {
    if n > 99 then RandomName(chosen, random)
    else if !UsernameTaken(db, Candidate(chosen, n)) then Candidate(chosen, n)
    else NumberedUsername(db, chosen, n + 1, random)
  }

  /** The chosen name, or the first numbered variant of it no live user holds. */
  ghost function ClaimUsername(db: Db, chosen: string, random: string): string {
    if !UsernameTaken(db, chosen) then chosen else NumberedUsername(db, chosen, 2, random)
  }

  function NewGoogleUser(email: string, username: string, dob: Time): User {
    User(email, username, None, Some(dob), true, false, false, {VRATARTHI})
  }

  ghost function GoogleLogin(
    db: Db, now: Time, googleId: string, rawEmail: string, emailVerified: bool, pending: Option<Id>, random: string)
    : (r: Result)
    ensures r.db.lockouts == db.lockouts
  {
    var account := FindAuthAccount(db, GOOGLE, googleId);
    if account.None? then GoogleWithoutAccount(db, now, googleId, rawEmail, emailVerified, pending, random)
    else
      var u := db.accounts[account.value].userId;
      if !Live(db, u) then
        if pending.None? then Refuse(db, AccountDeleted)
        else GoogleWithoutAccount(ReleaseIdentityClaims(db, u), now, googleId, rawEmail, emailVerified, pending, random)
      else if db.users[u].suspended then Refuse(db, AccountSuspended)
      else Result(InsertSession(db, NewSession(u, now)), SessionStarted(u, db.next))
  }

  ghost function GoogleWithoutAccount(
    db: Db, now: Time, googleId: string, rawEmail: string, emailVerified: bool, pending: Option<Id>, random: string)
    : (r: Result)
    ensures r.db.lockouts == db.lockouts
  {
    var email := Normalize(rawEmail);
    var existing := FindUserByEmail(db, email);
    if existing.Some? then
      var identity := GoogleIdentity(googleId, emailVerified);
      Result(Reissue(db, existing.value, GOOGLE_LINK, identity, now + GOOGLE_LINK_TOKEN_TTL), LinkPending(db.next))
    else GoogleSignup(db, now, googleId, email, pending, random)
  }

  /** The only way back from Google that makes a user; it takes the pending signup with it, good or not. */
  ghost function GoogleSignup(
    db: Db, now: Time, googleId: string, email: string, pending: Option<Id>, random: string): (r: Result)
    ensures r.db.lockouts == db.lockouts
  {
    if pending.None? || pending.value !in db.pendings then Refuse(db, SignupRequired)
    else
      var signup, consumed := db.pendings[pending.value], DeletePending(db, pending.value);
      if signup.expiresAt < now then Refuse(consumed, SignupRequired)
      else if !Qualifies(Some(signup.dob), now) then Refuse(consumed, Underage)
      else
        var username := ClaimUsername(consumed, signup.username, random);
        if InsertCollides(consumed, email, username, GOOGLE, googleId) then Refuse(consumed, UniqueViolation)
        else
          var created := InsertUser(consumed, NewGoogleUser(email, username, signup.dob), GOOGLE, googleId, None);
          Result(InsertSession(created, NewSession(db.next, now)), SessionStarted(db.next, db.next + 2))
  }

  /** The refusal a token of a kind meets before it is acted on, if any. */
  function TokenRefusal(db: Db, now: Time, t: Id, kind: TokenType): Option<AuthError> {
    if !UsableToken(db, t, kind) then Some(TokenInvalid)
    else if db.tokens[t].expiresAt < now then Some(TokenExpired)
    else None
  }

  function SetVerified(db: Db, u: Id): Db
    requires u in db.users
  {
    SetUser(db, u, db.users[u].(verified := true))
  }

  ghost function LinkGoogle(db: Db, now: Time, t: Id, password: string): (r: Result)
    requires OwnersExist(db)
    ensures r.db.lockouts == db.lockouts
  {
    var refusal := TokenRefusal(db, now, t, GOOGLE_LINK);
    if refusal.Some? then Refuse(db, refusal.value)
    else
      var token := db.tokens[t];
      if PasswordOf(db, token.userId) != Some(Bcrypt(password)) then Refuse(db, InvalidCredentials)
      else if !token.metadata.GoogleIdentity? || token.metadata.googleId == "" then Refuse(db, TokenInvalid)
      else if FindAuthAccount(db, GOOGLE, token.metadata.googleId).Some? then Refuse(db, UniqueViolation)
      else
        var linked := MarkTokenUsed(InsertAccount(db, Account(token.userId, GOOGLE, token.metadata.googleId, None)), t);
        var verified := if token.metadata.emailVerified then SetVerified(linked, token.userId) else linked;
        Result(InsertSession(verified, NewSession(token.userId, now)), SessionStarted(token.userId, db.next + 1))
  }

  // ─── Verification and passwords ────────────────────────────────────────────

  ghost function VerifyEmail(db: Db, now: Time, t: Id): (r: Result)
    requires OwnersExist(db)
    ensures r.db.lockouts == db.lockouts
  {
    var refusal := TokenRefusal(db, now, t, EMAIL_VERIFICATION);
    if refusal.Some? then Refuse(db, refusal.value)
    else Result(SetVerified(MarkTokenUsed(db, t), db.tokens[t].userId), Done)
  }

  ghost function ResendVerification(db: Db, now: Time, rawEmail: string): (r: Result)
    ensures r.db.lockouts == db.lockouts
  {
    var found := FindUserByEmail(db, Normalize(rawEmail));
    if found.None? || db.users[found.value].verified || FindEmailAccountByUserId(db, found.value).None?
    then Result(db, Done)
    else Result(Reissue(db, found.value, EMAIL_VERIFICATION, NoMetadata, now + VERIFICATION_TOKEN_TTL), Done)
  }

  ghost function ForgotPassword(db: Db, now: Time, rawEmail: string): (r: Result)
    ensures r.db.lockouts == db.lockouts
  {
    var found := FindUserByEmail(db, Normalize(rawEmail));
    if found.None? then Result(db, NoAccount)
    else
      Result(Reissue(db, found.value, PASSWORD_RESET, NoMetadata, now + PASSWORD_RESET_TOKEN_TTL),
             if PasswordOf(db, found.value).None? then SetPasswordSent else ResetSent)
  }

  /** Marks the reset done: the token is spent, the address proven, every session ended. */
  function FinishReset(db: Db, u: Id, t: Id): Db
    requires u in db.users && t in db.tokens
  {
    DeleteAllUserSessions(SetVerified(MarkTokenUsed(db, t), u), u)
  }

  ghost function ResetPassword(db: Db, now: Time, t: Id, password: string): (r: Result)
    requires OwnersExist(db)
    ensures r.db.lockouts == db.lockouts
  {
    var refusal := TokenRefusal(db, now, t, PASSWORD_RESET);
    if refusal.Some? then Refuse(db, refusal.value)
    else
      var u := db.tokens[t].userId;
      var account := FindEmailAccountByUserId(db, u);
      if account.Some? then Result(FinishReset(SetPasswordHash(db, account.value, Bcrypt(password)), u, t), Done)
      else if !Live(db, u) then Refuse(db, NotFound)
      else if FindAuthAccount(db, EMAIL, db.users[u].email).Some? then Refuse(db, UniqueViolation)
      else
        var created := InsertAccount(db, Account(u, EMAIL, db.users[u].email, Some(Bcrypt(password))));
        Result(FinishReset(created, u, t), Done)
  }

  ghost function ChangePassword(db: Db, now: Time, u: Id, current: string, password: string): (r: Result)
    ensures r.db.lockouts == db.lockouts
  {
    var account := FindEmailAccountByUserId(db, u);
    if PasswordOf(db, u).None? then Refuse(db, NoPasswordSet)
    else if PasswordOf(db, u) != Some(Bcrypt(current)) then Refuse(db, PasswordIncorrect)
    else
      var changed := DeleteAllUserSessions(SetPasswordHash(db, account.value, Bcrypt(password)), u);
      Result(InsertSession(changed, NewSession(u, now)), SessionStarted(u, db.next))
  }

  // ─── Re-authentication ─────────────────────────────────────────────────────

  predicate Given(password: Option<string>) {
    password.Some? && password.value != ""
  }

  /** The Google proof on the session is recent enough to spend. */
  predicate ProofFresh(db: Db, s: Id, now: Time) {
    && s in db.sessions && db.sessions[s].reauthenticatedAt.Some?
    && now - REAUTH_WINDOW <= db.sessions[s].reauthenticatedAt.value
  }

  ghost function AssertRecentlyAuthenticated(db: Db, now: Time, u: Id, s: Id, password: Option<string>): (r: Result)
    ensures r.db.lockouts == db.lockouts
  {
    if Given(password) && PasswordOf(db, u) == Some(Bcrypt(password.value)) then Result(db, Done)
    else if ProofFresh(db, s, now) then Result(SetSession(db, s, db.sessions[s].(reauthenticatedAt := None)), Done)
    else Refuse(db, if Given(password) then PasswordIncorrect else ReauthenticationRequired)
  }

  ghost function ReauthenticateWithGoogle(db: Db, now: Time, u: Id, s: Id, googleId: string): (r: Result)
    ensures r.db.lockouts == db.lockouts
  {
    var account := FindAuthAccount(db, GOOGLE, googleId);
    if account.None? || db.accounts[account.value].userId != u then Refuse(db, AccessDenied)
    else if s !in db.sessions then Refuse(db, NotFound)
    else Result(SetSession(db, s, db.sessions[s].(reauthenticatedAt := Some(now))), Done)
  }

  // ─── Connected accounts and the address ────────────────────────────────────

  predicate IsAccountOf(db: Db, a: Id, u: Id, provider: Provider) {
    a in db.accounts && db.accounts[a].userId == u && db.accounts[a].provider == provider
  }

  ghost predicate OtherLogin(db: Db, u: Id, target: Id) {
    exists b :: b != target && IsLogin(db.accounts, b, u)
  }

  /** `target` is the account of that provider the query happened to list first. */
  ghost function Disconnect(db: Db, u: Id, provider: Provider, target: Id): (r: Result)
    ensures r.db.lockouts == db.lockouts
  {
    if !IsAccountOf(db, target, u, provider) then Refuse(db, NotFound)
    else if !OtherLogin(db, u, target) then Refuse(db, InUse)
    else Result(DeleteAccount(db, target), Done)
  }

  /** The address is spoken for by a live user's EMAIL account other than this user's. */
  ghost predicate LiveClaimByOther(db: Db, u: Id, email: string) {
    var claim := FindAuthAccount(db, EMAIL, email);
    claim.Some? && db.accounts[claim.value].userId != u && Live(db, db.accounts[claim.value].userId)
  }

  /** The address waits to be confirmed, with a fresh token that names it. */
  function AskForEmail(db: Db, u: Id, address: string, now: Time): Db
    requires u in db.users
  {
    Reissue(SetUser(db, u, db.users[u].(pendingEmail := Some(address))), u, EMAIL_CHANGE, NewEmail(address),
            now + PASSWORD_RESET_TOKEN_TTL)
  }

  ghost function RequestEmailChange(
    db: Db, now: Time, u: Id, s: Id, newEmail: string, password: Option<string>): (r: Result)
    ensures r.db.lockouts == db.lockouts
  {
    var address := Normalize(newEmail);
    if !Live(db, u) then Refuse(db, NotFound)
    else
      var proof := AssertRecentlyAuthenticated(db, now, u, s, password);
      var proved := proof.db;
      if proof.outcome != Done then proof
      else if address == Lower(db.users[u].email) || EmailInUse(proved, address) || LiveClaimByOther(proved, u, address)
      then Refuse(proved, DuplicateEmail)
      else Result(AskForEmail(proved, u, address, now), Done)
  }

  ghost function ConfirmEmailChange(db: Db, now: Time, t: Id): (r: Result)
    requires OwnersExist(db)
    ensures r.db.lockouts == db.lockouts
  {
    var refusal := TokenRefusal(db, now, t, EMAIL_CHANGE);
    if refusal.Some? then Refuse(db, refusal.value)
    else
      var u, metadata := db.tokens[t].userId, db.tokens[t].metadata;
      var pending := db.users[u].pendingEmail;
      if pending.None? || pending.value == "" || !metadata.NewEmail? || metadata.address == ""
         || Lower(pending.value) != Lower(metadata.address)
      then Refuse(db, TokenInvalid)
      else if EmailInUse(db, pending.value) || LiveClaimByOther(db, u, pending.value) then Refuse(db, DuplicateEmail)
      else
        var released := ReleaseOtherClaim(db, u, pending.value);
        if ChangeCollides(released.users, released.accounts, u, pending.value) then Refuse(released, UniqueViolation)
        else Result(MarkTokenUsed(ApplyEmailChange(released, u, pending.value), t), Done)
  }

  ghost function ReleaseOtherClaim(db: Db, u: Id, email: string): Db {
    var claim := FindAuthAccount(db, EMAIL, email);
    if claim.Some? && db.accounts[claim.value].userId != u
    then ReleaseIdentityClaims(db, db.accounts[claim.value].userId)
    else db
  }

  // ─── Sessions ──────────────────────────────────────────────────────────────

  ghost function ValidateSession(db: Db, now: Time, s: Id): (r: Result)
    requires OwnersExist(db)
    ensures r.db.lockouts == db.lockouts
  {
    if s !in db.sessions then Refuse(db, Unauthenticated)
    else
      var session := db.sessions[s];
      var user := db.users[session.userId];
      if session.expiresAt < now || user.deleted || user.suspended then Refuse(DeleteSession(db, s), Unauthenticated)
      else Result(SetSession(db, s, session.(expiresAt := now + SESSION_TTL)), SessionValid(session.userId))
  }

  // ─── Profile, housekeeping, administration ─────────────────────────────────

  predicate NameHeldByOther(db: Db, u: Id, username: string) {
    exists v :: v in db.users && v != u && !db.users[v].deleted && db.users[v].username == Lower(username)
  }

  predicate NameRowOfOther(db: Db, u: Id, username: string) {
    exists v :: v in db.users && v != u && db.users[v].username == username
  }

  function CompleteOnboarding(db: Db, u: Id, username: Option<string>): (r: Result)
    requires u in db.users
    ensures r.db.lockouts == db.lockouts
  {
    if !Given(username) then Result(db, Done)
    else if NameHeldByOther(db, u, username.value) then Refuse(db, DuplicateUsername)
    else if NameRowOfOther(db, u, username.value) then Refuse(db, UniqueViolation)
    else Result(SetUser(db, u, db.users[u].(username := username.value)), Done)
  }

  /** What a user may correct about themselves: the name, and the date of birth, which has to qualify
      again. A date given that is no date is `Some(None)`. */
  function UpdateOwnProfile(db: Db, now: Time, u: Id, username: Option<string>, dob: Option<Option<Time>>): (r: Result)
    requires u in db.users
    ensures r.db.lockouts == db.lockouts
  {
    if db.users[u].deleted then Refuse(db, NotFound)
    else if Given(username) && NameHeldByOther(db, u, username.value) then Refuse(db, DuplicateUsername)
    else if dob.Some? && !Qualifies(dob.value, now) then Refuse(db, Underage)
    else if username.Some? && NameRowOfOther(db, u, Lower(username.value)) then Refuse(db, UniqueViolation)
    else Result(SetUser(db, u, Edited(db.users[u], username, dob)), Done)
  }

  function Edited(user: User, username: Option<string>, dob: Option<Option<Time>>): User {
    user.(username := if username.Some? then Lower(username.value) else user.username,
          dob := if dob.Some? then dob.value else user.dob)
  }

  /** Accepting an invitation gives the role; the invitation's own checks are not part of this model. */
  function BecomeVratmitra(db: Db, u: Id): Db
    requires u in db.users
  {
    SetUser(db, u, db.users[u].(roles := db.users[u].roles + {VRATMITRA}))
  }

  function DeleteExpiredPendingSignups(db: Db, now: Time): Db {
    db.(pendings := map p | p in db.pendings && now <= db.pendings[p].expiresAt :: db.pendings[p])
  }

  /** The clean-up job: every session, token and pending signup that has run out. */
  function CleanUpExpired(db: Db, now: Time): Db {
    db.(sessions := map s | s in db.sessions && now <= db.sessions[s].expiresAt :: db.sessions[s],
        tokens := map t | t in db.tokens && now <= db.tokens[t].expiresAt :: db.tokens[t],
        pendings := DeleteExpiredPendingSignups(db, now).pendings)
  }

  predicate IsAdmin(db: Db, u: Id) {
    u in db.users && ADMIN in db.users[u].roles
  }

  ghost function HolderOf(db: Db, email: string): Option<Id> {
    if u :| u in db.users && db.users[u].email == email then Some(u) else None
  }

  /** The job that makes a first administrator, by address. */
  ghost function GrantAdmin(db: Db, rawEmail: string, allowUnverified: bool): (r: Result)
    ensures r.db.lockouts == db.lockouts
  {
    var email := Trim(rawEmail);
    var holder := HolderOf(db, email);
    if email == "" then Result(db, Done)
    else if holder.None? then Refuse(db, NotFound)
    else if ADMIN in db.users[holder.value].roles then Result(db, Done)
    else if !db.users[holder.value].verified && !allowUnverified then Refuse(db, EmailNotVerified)
    else
      var user := db.users[holder.value];
      Result(SetUser(db, holder.value, user.(roles := user.roles + {ADMIN})), Done)
  }

  function SetSuspended(db: Db, actor: Id, target: Id, suspended: bool): (r: Result)
    ensures r.db.lockouts == db.lockouts
  {
    if !IsAdmin(db, actor) then Refuse(db, AccessDenied)
    else if target == actor then Refuse(db, InUse)
    else if target !in db.users then Refuse(db, NotFound)
    else
      var set' := SetUser(db, target, db.users[target].(suspended := suspended));
      Result(if suspended then DeleteAllUserSessions(set', target) else set', Done)
  }

  function ForceLogout(db: Db, actor: Id, target: Id): (r: Result)
    ensures r.db.lockouts == db.lockouts
  {
    if !IsAdmin(db, actor) then Refuse(db, AccessDenied)
    else if target !in db.users then Refuse(db, NotFound)
    else Result(DeleteAllUserSessions(db, target), Done)
  }

  function UpdateRoles(db: Db, actor: Id, target: Id, add: set<Role>, remove: set<Role>): (r: Result)
    ensures r.db.lockouts == db.lockouts
  {
    if !IsAdmin(db, actor) then Refuse(db, AccessDenied)
    else if target !in db.users then Refuse(db, NotFound)
    else if target == actor && ADMIN in remove then Refuse(db, InUse)
    else Result(SetUser(db, target, db.users[target].(roles := db.users[target].roles - remove + add)), Done)
  }

  predicate PseudonymCollides(db: Db, u: Id, p: Pseudonym) {
    exists v :: v in db.users && v != u
      && (db.users[v].email == PseudonymEmail(p) || db.users[v].username == PseudonymUsername(p))
  }

  function Anonymous(user: User, p: Pseudonym): User {
    user.(email := PseudonymEmail(p), username := PseudonymUsername(p), dob := None, pendingEmail := None,
          deleted := true, suspended := true)
  }

  /** Deletion keeps the row and the accounts, under a pseudonym, without birth date, pending address,
      password or session. */
  function AnonymiseAccount(db: Db, u: Id, p: Pseudonym): (r: Result)
    requires u in db.users
    ensures r.db.lockouts == db.lockouts
  {
    if PseudonymCollides(db, u, p) then Refuse(db, UniqueViolation)
    else
      Result(DeleteAllUserSessions(ClearStoredPasswords(SetUser(db, u, Anonymous(db.users[u], p)), u), u), Done)
  }

  function Anonymise(db: Db, actor: Id, target: Id, p: Pseudonym): (r: Result)
    ensures r.db.lockouts == db.lockouts
  {
    if !IsAdmin(db, actor) then Refuse(db, AccessDenied)
    else if target == actor then Refuse(db, InUse)
    else if target !in db.users then Refuse(db, NotFound)
    else if db.users[target].deleted then Refuse(db, InUse)
    else AnonymiseAccount(db, target, p)
  }

  ghost function SelfDelete(db: Db, now: Time, u: Id, s: Id, password: Option<string>, p: Pseudonym): (r: Result)
    requires u in db.users
    ensures r.db.lockouts == db.lockouts
  {
    var proof := AssertRecentlyAuthenticated(db, now, u, s, password);
    if proof.outcome != Done then proof else AnonymiseAccount(proof.db, u, p)
  }
}
