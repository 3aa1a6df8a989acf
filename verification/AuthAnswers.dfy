/** How every request is answered: one table that says, from the state the request meets, whether it is refused
    and with which reason, and every request of every kind obeys it. */
module AuthAnswers {
  import opened Text
  import opened AuthTables
  import opened AuthSpec
  import opened AuthInvariant
  import opened AuthHistory
  import opened AuthIdentity
  import opened AuthRuns
  import opened AuthGuarantees
  import opened AuthJourneys
  import opened AuthRecovery
  import Lockout

  // ─── What the reasons ask of the rows ──────────────────────────────────────

  predicate AddressHeld(users: Users, email: string) {
    exists u :: u in users && users[u].email == email
  }

  predicate LiveAt(users: Users, email: string) {
    exists u :: u in users && !users[u].deleted && users[u].email == email
  }

  predicate NameHeld(users: Users, name: string) {
    exists u :: u in users && users[u].username == name
  }

  predicate NameOfOther(users: Users, u: Id, name: string) {
    exists v :: v in users && v != u && users[v].username == name
  }

  predicate NameOfLiveOther(users: Users, u: Id, name: string) {
    exists v :: v in users && v != u && !users[v].deleted && users[v].username == name
  }

  predicate PasswordStored(accounts: Accounts, u: Id) {
    exists a :: a in accounts && accounts[a].userId == u && accounts[a].provider == EMAIL
      && accounts[a].passwordHash.Some?
  }

  predicate PasswordRight(accounts: Accounts, u: Id, password: string) {
    exists a :: a in accounts && accounts[a].userId == u && accounts[a].provider == EMAIL
      && accounts[a].passwordHash == Some(Bcrypt(password))
  }

  predicate LinkedTo(accounts: Accounts, googleId: string, u: Id) {
    exists a :: a in accounts && accounts[a].provider == GOOGLE && accounts[a].identifier == googleId
      && accounts[a].userId == u
  }

  predicate AnotherLogin(accounts: Accounts, u: Id, target: Id) {
    exists b :: b in accounts && b != target && accounts[b].userId == u
      && (accounts[b].provider == GOOGLE || accounts[b].passwordHash.Some?)
  }

  predicate Filled(text: Option<string>) {
    text.Some? && text.value != ""
  }

  /** Why a sensitive action is turned away at the door: no right password, and no Google proof of the last 10
      minutes on the session. */
  function DoorReason(
    accounts: Accounts, stamp: Option<Time>, now: Time, u: Id, proof: Option<string>): Option<AuthError>
  {
    if Filled(proof) && PasswordRight(accounts, u, proof.value) then None
    else if stamp.Some? && now <= stamp.value + 600_000 then None
    else Some(if Filled(proof) then PasswordIncorrect else ReauthenticationRequired)
  }

  function FirstOf(reason: Option<AuthError>, next: Option<AuthError>): Option<AuthError> {
    if reason.Some? then reason else next
  }

  function When(holds: bool, error: AuthError): Option<AuthError> {
    if holds then Some(error) else None
  }

  // ─── The table ─────────────────────────────────────────────────────────────

  function AdminReason(users: Users, u: Id, action: Action): Option<AuthError>
    requires u in users && Administers(action)
  {
    if ADMIN !in users[u].roles then Some(AccessDenied)
    else
      match action
      case Suspend(target, _) => FirstOf(When(target == u, InUse), When(target !in users, NotFound))
      case LogOut(target) => When(target !in users, NotFound)
      case ChangeRoles(target, _, remove) =>
        FirstOf(When(target !in users, NotFound), When(target == u && ADMIN in remove, InUse))
      case AnonymiseUser(target, p) =>
        if target == u then Some(InUse)
        else if target !in users then Some(NotFound)
        else if users[target].deleted then Some(InUse)
        else When(AddressOrNameOfOther(users, target, p), UniqueViolation)
  }

  predicate AddressOrNameOfOther(users: Users, u: Id, p: Pseudonym) {
    exists v :: v in users && v != u
      && (users[v].email == "anon-" + p.shortId + "@deleted.invalid" || users[v].username == "deleted_" + p.shortId)
  }

  /** Why an action of `u`, whose session was let in with this proof on it, is refused. */
  function ActionReason(
    users: Users, accounts: Accounts, stamp: Option<Time>, now: Time, u: Id, action: Action): Option<AuthError>
    requires u in users
  {
    match action
    case Change(current, _) =>
      if !PasswordStored(accounts, u) then Some(NoPasswordSet)
      else When(!PasswordRight(accounts, u, current), PasswordIncorrect)
    case ProveWithGoogle(googleId) => When(!LinkedTo(accounts, googleId, u), AccessDenied)
    case Unlink(provider, target) =>
      if !(target in accounts && accounts[target].userId == u && accounts[target].provider == provider)
      then Some(NotFound)
      else When(!AnotherLogin(accounts, u, target), InUse)
    case AskForNewEmail(newEmail, proof) =>
      FirstOf(DoorReason(accounts, stamp, now, u, proof), When(AddressHeld(users, Normalize(newEmail)), DuplicateEmail))
    case SetUpAccount(username) =>
      if !Filled(username) then None
      else if NameOfLiveOther(users, u, Lower(username.value)) then Some(DuplicateUsername)
      else When(NameOfOther(users, u, username.value), UniqueViolation)
    case EditProfile(username, dob) =>
      if Filled(username) && NameOfLiveOther(users, u, Lower(username.value)) then Some(DuplicateUsername)
      else if dob.Some? && !Qualifies(dob.value, now) then Some(Underage)
      else When(username.Some? && NameOfOther(users, u, Lower(username.value)), UniqueViolation)
    case DeleteMyself(proof, p) =>
      FirstOf(DoorReason(accounts, stamp, now, u, proof), When(AddressOrNameOfOther(users, u, p), UniqueViolation))
    case _ => if Administers(action) then AdminReason(users, u, action) else None
  }

  function TokenReason(db: Db, now: Time, t: Id, kind: TokenType): Option<AuthError> {
    if t !in db.tokens || db.tokens[t].kind != kind || db.tokens[t].used then Some(TokenInvalid)
    else When(db.tokens[t].expiresAt < now, TokenExpired)
  }

  ghost function SignInReason(db: Db, now: Time, rawEmail: string, password: string): Option<AuthError> {
    if Lockout.Locked(Lockout.Look(db.lockouts, Normalize(rawEmail)), now) then Some(AccountLocked)
    else if u, a :| Opens(db, u, a, rawEmail, password) then
      FirstOf(When(!db.users[u].verified, EmailNotVerified), When(db.users[u].suspended, AccountSuspended))
    else Some(InvalidCredentials)
  }

  /** Why nobody is signed up who comes back from Google with an identity nobody holds. */
  ghost function GoogleSignupReason(db: Db, now: Time, email: string, pending: Option<Id>, random: string)
    : Option<AuthError>
  {
    if LiveAt(db.users, email) then None
    else if pending.None? || pending.value !in db.pendings || db.pendings[pending.value].expiresAt < now
    then Some(SignupRequired)
    else
      var signup := db.pendings[pending.value];
      if !Qualifies(Some(signup.dob), now) then Some(Underage)
      else
        When(AddressHeld(db.users, email) || NameHeld(db.users, ClaimUsername(db, signup.username, random)),
             UniqueViolation)
  }

  ghost function ReturnReason(
    db: Db, now: Time, googleId: string, email: string, pending: Option<Id>, random: string): Option<AuthError>
    requires forall a :: a in db.accounts ==> db.accounts[a].userId in db.users
  {
    if a :| IsAccount(db, a, GOOGLE, googleId) then
      var user := db.users[db.accounts[a].userId];
      if !user.deleted then When(user.suspended, AccountSuspended)
      else FirstOf(When(pending.None?, AccountDeleted), GoogleSignupReason(db, now, email, pending, random))
    else GoogleSignupReason(db, now, email, pending, random)
  }

  ghost function LinkReason(db: Db, now: Time, t: Id, password: string): Option<AuthError> {
    var reason := TokenReason(db, now, t, GOOGLE_LINK);
    if reason.Some? then reason
    else
      var metadata := db.tokens[t].metadata;
      if !PasswordRight(db.accounts, db.tokens[t].userId, password) then Some(InvalidCredentials)
      else if !metadata.GoogleIdentity? || metadata.googleId == "" then Some(TokenInvalid)
      else When(exists a :: IsAccount(db, a, GOOGLE, metadata.googleId), UniqueViolation)
  }

  ghost function ResetReason(db: Db, now: Time, t: Id): Option<AuthError>
    requires OwnersExist(db)
  {
    var reason := TokenReason(db, now, t, PASSWORD_RESET);
    if reason.Some? then reason
    else
      var u := db.tokens[t].userId;
      if exists a :: IsEmailAccountOf(db, a, u) then None
      else
        FirstOf(When(db.users[u].deleted, NotFound),
                When(exists a :: IsAccount(db, a, EMAIL, db.users[u].email), UniqueViolation))
  }

  function ConfirmReason(db: Db, now: Time, t: Id): Option<AuthError>
    requires OwnersExist(db)
  {
    var reason := TokenReason(db, now, t, EMAIL_CHANGE);
    if reason.Some? then reason
    else
      var pending := db.users[db.tokens[t].userId].pendingEmail;
      if pending.None? || pending.value == "" then Some(TokenInvalid)
      else When(AddressHeld(db.users, pending.value), DuplicateEmail)
  }

  ghost function BootstrapReason(users: Users, email: string, allowUnverified: bool): Option<AuthError> {
    if email == "" then None
    else if u :| u in users && users[u].email == email then
      When(ADMIN !in users[u].roles && !users[u].verified && !allowUnverified, EmailNotVerified)
    else Some(NotFound)
  }

  /** Everything on file belongs to somebody. */
  ghost predicate AllOwned(db: Db) {
    OwnersExist(db) && forall a :: a in db.accounts ==> db.accounts[a].userId in db.users
  }

  lemma OwnedByInv(db: Db)
    requires Inv(db)
    ensures AllOwned(db)
  {
  }

  /** Why the request is refused, if it is. */
  ghost function Reason(db: Db, now: Time, request: Request): Option<AuthError>
    requires AllOwned(db)
  {
    match request
    case SignUp(rawEmail, _, username, dob, known) =>
      if !Qualifies(dob, now) then Some(Underage)
      else if LiveAt(db.users, Normalize(rawEmail)) then Some(DuplicateEmail)
      else if !known then Some(UnknownPolicy)
      else When(AddressHeld(db.users, Normalize(rawEmail)) || NameHeld(db.users, username), UniqueViolation)
    case SignIn(rawEmail, password) => SignInReason(db, now, rawEmail, password)
    case BeginGoogle(username, dob, known) =>
      if !Qualifies(dob, now) then Some(Underage)
      else if UsernameTaken(db, username) then Some(DuplicateUsername)
      else When(!known, UnknownPolicy)
    case ReturnFromGoogle(googleId, rawEmail, _, pending, random) =>
      ReturnReason(db, now, googleId, Normalize(rawEmail), pending, random)
    case LinkAccounts(t, password) => LinkReason(db, now, t, password)
    case Verify(t) => TokenReason(db, now, t, EMAIL_VERIFICATION)
    case Reset(t, _) => ResetReason(db, now, t)
    case ConfirmAddress(t) => ConfirmReason(db, now, t)
    case Bootstrap(rawEmail, allowUnverified) => BootstrapReason(db.users, Trim(rawEmail), allowUnverified)
    case As(s, action) =>
      if !Admitted(db, now, s) then Some(Unauthenticated)
      else
        var session := db.sessions[s];
        ActionReason(db.users, db.accounts, session.reauthenticatedAt, now, session.userId, action)
    case _ => None
  }

  predicate Told(answer: Outcome, reason: Option<AuthError>) {
    if reason.Some? then answer == Refused(reason.value) else !answer.Refused?
  }

  // ─── Signing up and in ─────────────────────────────────────────────────────

  lemma SameHeld(db: Db, email: string, username: string)
    ensures EmailInUse(db, email) == AddressHeld(db.users, email)
    ensures UsernameInUse(db, username) == NameHeld(db.users, username)
    ensures FindUserByEmail(db, email).Some? == LiveAt(db.users, email)
  {
    if LiveAt(db.users, email) {
      var u :| u in db.users && !db.users[u].deleted && db.users[u].email == email;
      assert IsUserByEmail(db, u, email);
    }
  }

  lemma RegisterRefusals(
    db: Db, now: Time, rawEmail: string, password: string, username: string, dob: Option<Time>, known: bool, r: Result)
    requires r == Register(db, now, rawEmail, password, username, dob, known)
    ensures if !Qualifies(dob, now) then r.outcome == Refused(Underage)
      else if FindUserByEmail(db, Normalize(rawEmail)).Some? then r.outcome == Refused(DuplicateEmail)
      else if !known then r.outcome == Refused(UnknownPolicy)
      else r.outcome == Refused(UniqueViolation) || r.outcome.UserCreated?
  {
  }

  lemma RegisterTable(
    db: Db, now: Time, rawEmail: string, password: string, username: string, dob: Option<Time>, known: bool,
    answer: Outcome)
    requires AllOwned(db)
    requires if !Qualifies(dob, now) then answer == Refused(Underage)
      else if LiveAt(db.users, Normalize(rawEmail)) then answer == Refused(DuplicateEmail)
      else if !known then answer == Refused(UnknownPolicy)
      else if AddressHeld(db.users, Normalize(rawEmail)) || NameHeld(db.users, username)
      then answer == Refused(UniqueViolation)
      else answer.UserCreated?
    ensures Told(answer, Reason(db, now, SignUp(rawEmail, password, username, dob, known)))
  {
  }

  lemma RegisterTold(
    db: Db, now: Time, rawEmail: string, password: string, username: string, dob: Option<Time>, known: bool, r: Result)
    requires Inv(db) && r == Register(db, now, rawEmail, password, username, dob, known)
    ensures AllOwned(db) && Told(r.outcome, Reason(db, now, SignUp(rawEmail, password, username, dob, known)))
  {
    OwnedByInv(db);
    SameHeld(db, Normalize(rawEmail), username);
    RegisterCollidesIff(db, now, rawEmail, password, username, dob, known);
    RegisterRefusals(db, now, rawEmail, password, username, dob, known, r);
    RegisterTable(db, now, rawEmail, password, username, dob, known, r.outcome);
  }

  lemma LoginTold(db: Db, now: Time, rawEmail: string, password: string, r: Result)
    requires OneFound(db) && r == Login(db, now, rawEmail, password)
    ensures Told(r.outcome, SignInReason(db, now, rawEmail, password))
  {
    forall u: Id, a: Id | Opens(db, u, a, rawEmail, password)
      ensures FindUserByEmail(db, Normalize(rawEmail)) == Some(u) && PasswordOf(db, u) == Some(Bcrypt(password))
    {
      OpensIsFound(db, u, a, rawEmail, password);
    }
    var found := FindUserByEmail(db, Normalize(rawEmail));
    if found.Some? && PasswordOf(db, found.value) == Some(Bcrypt(password)) {
      assert Opens(db, found.value, FindEmailAccountByUserId(db, found.value).value, rawEmail, password);
    }
  }

  lemma BeginTold(db: Db, now: Time, username: string, dob: Option<Time>, known: bool)
    requires AllOwned(db)
    ensures Told(StartGoogleSignup(db, now, username, dob, known).outcome,
                 Reason(db, now, BeginGoogle(username, dob, known)))
  {
  }

  lemma SignupTold(
    db: Db, now: Time, googleId: string, email: string, pending: Option<Id>, random: string, r: Result)
    requires FindAuthAccount(db, GOOGLE, googleId).None? && FindUserByEmail(db, email).None?
    requires r == GoogleSignup(db, now, googleId, email, pending, random)
    ensures Told(r.outcome, GoogleSignupReason(db, now, email, pending, random))
  {
    SameHeld(db, email, "");
    if pending.Some? && pending.value in db.pendings {
      var p, consumed := pending.value, DeletePending(db, pending.value);
      var name := ClaimUsername(db, db.pendings[p].username, random);
      assert Unlinked(db, googleId);
      StillUnlinked(db, consumed, googleId);
      SameClaim(db, consumed, db.pendings[p].username, random);
      SameHeld(consumed, email, name);
      SignupCollides(db, now, googleId, email, p, random, name, consumed, r);
    }
  }

  lemma SignupCollides(
    db: Db, now: Time, googleId: string, email: string, p: Id, random: string, name: string, consumed: Db, r: Result)
    requires p in db.pendings && consumed == DeletePending(db, p)
    requires FindAuthAccount(consumed, GOOGLE, googleId).None?
    requires name == ClaimUsername(consumed, db.pendings[p].username, random)
    requires r == GoogleSignup(db, now, googleId, email, Some(p), random)
    ensures if db.pendings[p].expiresAt < now then r.outcome == Refused(SignupRequired)
      else if !Qualifies(Some(db.pendings[p].dob), now) then r.outcome == Refused(Underage)
      else if EmailInUse(consumed, email) || UsernameInUse(consumed, name) then r.outcome == Refused(UniqueViolation)
      else r.outcome.SessionStarted?
  {
  }

  lemma WithoutAccountTold(
    db: Db, now: Time, googleId: string, rawEmail: string, verified: bool, pending: Option<Id>, random: string,
    r: Result)
    requires FindAuthAccount(db, GOOGLE, googleId).None?
    requires r == GoogleWithoutAccount(db, now, googleId, rawEmail, verified, pending, random)
    ensures Told(r.outcome, GoogleSignupReason(db, now, Normalize(rawEmail), pending, random))
  {
    var email := Normalize(rawEmail);
    SameHeld(db, email, "");
    if FindUserByEmail(db, email).None? { SignupTold(db, now, googleId, email, pending, random, r); }
  }

  lemma ReleasedReason(db: Db, released: Db, now: Time, email: string, pending: Option<Id>, random: string)
    requires released.users == db.users && released.pendings == db.pendings
    ensures GoogleSignupReason(released, now, email, pending, random)
      == GoogleSignupReason(db, now, email, pending, random)
  {
    if pending.Some? && pending.value in db.pendings {
      SameClaim(db, released, db.pendings[pending.value].username, random);
    }
  }

  lemma ReleasedIsUnlinked(db: Db, a: Id, googleId: string)
    requires IdentitiesUnique(db.accounts) && IsAccount(db, a, GOOGLE, googleId)
    ensures FindAuthAccount(ReleaseIdentityClaims(db, db.accounts[a].userId), GOOGLE, googleId).None?
  {
    var released := ReleaseIdentityClaims(db, db.accounts[a].userId);
    assert forall b :: IsAccount(released, b, GOOGLE, googleId) ==> IsAccount(db, b, GOOGLE, googleId);
  }

  lemma HolderReason(
    db: Db, now: Time, googleId: string, email: string, pending: Option<Id>, random: string, a: Id)
    requires forall b :: b in db.accounts ==> db.accounts[b].userId in db.users
    requires IdentitiesUnique(db.accounts) && IsAccount(db, a, GOOGLE, googleId)
    ensures ReturnReason(db, now, googleId, email, pending, random)
      == var user := db.users[db.accounts[a].userId];
         if !user.deleted then When(user.suspended, AccountSuspended)
         else FirstOf(When(pending.None?, AccountDeleted), GoogleSignupReason(db, now, email, pending, random))
  {
  }

  lemma ReturnTold(
    db: Db, now: Time, googleId: string, rawEmail: string, verified: bool, pending: Option<Id>, random: string,
    r: Result)
    requires Inv(db) && r == GoogleLogin(db, now, googleId, rawEmail, verified, pending, random)
    ensures Told(r.outcome, ReturnReason(db, now, googleId, Normalize(rawEmail), pending, random))
  {
    var account, email := FindAuthAccount(db, GOOGLE, googleId), Normalize(rawEmail);
    if account.None? {
      WithoutAccountTold(db, now, googleId, rawEmail, verified, pending, random, r);
    } else {
      HolderReason(db, now, googleId, email, pending, random, account.value);
      if !Live(db, db.accounts[account.value].userId) && pending.Some? {
        var released := ReleaseIdentityClaims(db, db.accounts[account.value].userId);
        ReleasedIsUnlinked(db, account.value, googleId);
        ReleasedReason(db, released, now, email, pending, random);
        WithoutAccountTold(released, now, googleId, rawEmail, verified, pending, random, r);
      }
    }
  }

  lemma SamePasswordOf(db: Db, u: Id, password: string)
    requires OneEmailAccountEach(db.accounts)
    ensures (PasswordOf(db, u) == Some(Bcrypt(password))) == PasswordRight(db.accounts, u, password)
    ensures PasswordOf(db, u).Some? == PasswordStored(db.accounts, u)
  {
    var found := FindEmailAccountByUserId(db, u);
    forall a | a in db.accounts && db.accounts[a].userId == u && db.accounts[a].provider == EMAIL
      ensures found == Some(a)
    {
      FindsPassword(db, u, a);
    }
  }

  lemma LinkTold(db: Db, now: Time, t: Id, password: string, r: Result)
    requires OwnersExist(db) && OneEmailAccountEach(db.accounts) && r == LinkGoogle(db, now, t, password)
    ensures Told(r.outcome, LinkReason(db, now, t, password))
  {
    if TokenReason(db, now, t, GOOGLE_LINK).None? { SamePasswordOf(db, db.tokens[t].userId, password); }
  }

  // ─── By link ───────────────────────────────────────────────────────────────

  lemma ResetTold(db: Db, now: Time, t: Id, password: string, r: Result)
    requires OwnersExist(db) && r == ResetPassword(db, now, t, password)
    ensures Told(r.outcome, ResetReason(db, now, t))
  {
  }

  lemma ConfirmTold(db: Db, now: Time, t: Id, r: Result)
    requires Inv(db) && r == ConfirmEmailChange(db, now, t)
    ensures Told(r.outcome, ConfirmReason(db, now, t))
  {
    ConfirmSucceedsIff(db, now, t);
    if TokenReason(db, now, t, EMAIL_CHANGE).None? {
      var u := db.tokens[t].userId;
      var pending := db.users[u].pendingEmail;
      if pending.Some? {
        SameHeld(db, pending.value, "");
        PendingIsLive(db, u);
        ConfirmableNames(db, now, t);
      }
    }
    ConfirmRefusals(db, now, t, r);
  }

  lemma PendingIsLive(db: Db, u: Id)
    requires Inv(db) && u in db.users && db.users[u].pendingEmail.Some?
    ensures Live(db, u)
  {
  }

  lemma ConfirmRefusals(db: Db, now: Time, t: Id, r: Result)
    requires OwnersExist(db) && r == ConfirmEmailChange(db, now, t)
    ensures var reason := TokenReason(db, now, t, EMAIL_CHANGE);
      if reason.Some? then r.outcome == Refused(reason.value)
      else
        var pending := db.users[db.tokens[t].userId].pendingEmail;
        if pending.None? || pending.value == "" then r.outcome == Refused(TokenInvalid)
        else
          NamesPending(db.users[db.tokens[t].userId], db.tokens[t]) ==>
            (EmailInUse(db, pending.value) ==> r.outcome == Refused(DuplicateEmail))
            && (r.outcome == Refused(DuplicateEmail) || r.outcome == Refused(UniqueViolation) || r.outcome == Done)
  {
  }

  lemma BootstrapTold(db: Db, rawEmail: string, allowUnverified: bool, r: Result)
    requires EmailsUnique(db.users) && r == GrantAdmin(db, rawEmail, allowUnverified)
    ensures Told(r.outcome, BootstrapReason(db.users, Trim(rawEmail), allowUnverified))
  {
  }

  // ─── Actions on a session ──────────────────────────────────────────────────

  lemma DoorTold(db: Db, now: Time, u: Id, s: Id, proof: Option<string>, r: Result)
    requires OneEmailAccountEach(db.accounts) && s in db.sessions
    requires r == AssertRecentlyAuthenticated(db, now, u, s, proof)
    ensures var reason := DoorReason(db.accounts, db.sessions[s].reauthenticatedAt, now, u, proof);
      if reason.Some? then r.outcome == Refused(reason.value) else r.outcome == Done
    ensures r.db.users == db.users && r.db.accounts == db.accounts
  {
    if proof.Some? { SamePasswordOf(db, u, proof.value); }
  }

  lemma ClaimMeansHeld(db: Db, u: Id, email: string)
    requires Inv(db) && LiveClaimByOther(db, u, email)
    ensures AddressHeld(db.users, email)
  {
    LiveClaimIsInUse(db, u, email);
  }

  lemma OwnAddressIsHeld(db: Db, u: Id)
    requires Inv(db) && Live(db, u)
    ensures AddressHeld(db.users, Lower(db.users[u].email))
  {
    LiveEmailNormal(db, u);
    NormalNormalize(db.users[u].email);
  }

  lemma AskRefusals(db: Db, proved: Db, now: Time, u: Id, s: Id, newEmail: string, proof: Option<string>, r: Result)
    requires Live(db, u) && r == RequestEmailChange(db, now, u, s, newEmail, proof)
    requires proved == AssertRecentlyAuthenticated(db, now, u, s, proof).db
    requires AssertRecentlyAuthenticated(db, now, u, s, proof).outcome == Done
    ensures var address := Normalize(newEmail);
      if address == Lower(db.users[u].email) || EmailInUse(proved, address) || LiveClaimByOther(proved, u, address)
      then r.outcome == Refused(DuplicateEmail) else r.outcome == Done
  {
  }

  /** An address nobody holds is neither the user's own nor claimed by anybody alive. */
  lemma AddressIsFree(db: Db, proved: Db, u: Id, address: string)
    requires Inv(db) && Inv(proved) && Live(db, u) && proved.users == db.users
    ensures AddressHeld(db.users, address) <==>
      address == Lower(db.users[u].email) || EmailInUse(proved, address) || LiveClaimByOther(proved, u, address)
  {
    OwnAddressIsHeld(db, u);
    SameHeld(proved, address, "");
    if LiveClaimByOther(proved, u, address) { ClaimMeansHeld(proved, u, address); }
  }

  lemma AskTold(db: Db, now: Time, u: Id, s: Id, newEmail: string, proof: Option<string>, r: Result)
    requires Inv(db) && s in db.sessions && Live(db, u) && r == RequestEmailChange(db, now, u, s, newEmail, proof)
    ensures Told(r.outcome, FirstOf(DoorReason(db.accounts, db.sessions[s].reauthenticatedAt, now, u, proof),
                                    When(AddressHeld(db.users, Normalize(newEmail)), DuplicateEmail)))
  {
    var proved := AssertRecentlyAuthenticated(db, now, u, s, proof);
    DoorTold(db, now, u, s, proof, proved);
    InvAssertRecentlyAuthenticated(db, now, u, s, proof);
    if proved.outcome == Done {
      AskRefusals(db, proved.db, now, u, s, newEmail, proof, r);
      AddressIsFree(db, proved.db, u, Normalize(newEmail));
    } else {
      TurnedAwayAtTheDoor(db, now, u, s, newEmail, proof, r);
    }
  }

  lemma TurnedAwayAtTheDoor(db: Db, now: Time, u: Id, s: Id, newEmail: string, proof: Option<string>, r: Result)
    requires Live(db, u) && r == RequestEmailChange(db, now, u, s, newEmail, proof)
    ensures var proved := AssertRecentlyAuthenticated(db, now, u, s, proof);
      proved.outcome != Done ==> r == proved
  {
  }

  lemma ChangeTold(db: Db, now: Time, u: Id, current: string, password: string, r: Result)
    requires OneEmailAccountEach(db.accounts) && r == ChangePassword(db, now, u, current, password)
    ensures Told(r.outcome, if !PasswordStored(db.accounts, u) then Some(NoPasswordSet)
                            else When(!PasswordRight(db.accounts, u, current), PasswordIncorrect))
  {
    SamePasswordOf(db, u, current);
  }

  lemma ProveTold(db: Db, now: Time, u: Id, s: Id, googleId: string, r: Result)
    requires IdentitiesUnique(db.accounts) && s in db.sessions && r == ReauthenticateWithGoogle(db, now, u, s, googleId)
    ensures Told(r.outcome, When(!LinkedTo(db.accounts, googleId, u), AccessDenied))
  {
    if a :| a in db.accounts && db.accounts[a].provider == GOOGLE && db.accounts[a].identifier == googleId
            && db.accounts[a].userId == u {
      FindsIdentity(db, a, GOOGLE, googleId);
    }
  }

  lemma UnlinkTold(db: Db, u: Id, provider: Provider, target: Id, r: Result)
    requires r == Disconnect(db, u, provider, target)
    ensures Told(r.outcome,
                 if !(target in db.accounts && db.accounts[target].userId == u
                      && db.accounts[target].provider == provider)
                 then Some(NotFound)
                 else When(!AnotherLogin(db.accounts, u, target), InUse))
  {
    if OtherLogin(db, u, target) {
      var b :| b != target && IsLogin(db.accounts, b, u);
      assert b in db.accounts && db.accounts[b].userId == u;
    }
    if AnotherLogin(db.accounts, u, target) {
      var b :| b in db.accounts && b != target && db.accounts[b].userId == u
        && (db.accounts[b].provider == GOOGLE || db.accounts[b].passwordHash.Some?);
      assert IsLogin(db.accounts, b, u);
    }
  }

  lemma NamesTold(db: Db, now: Time, u: Id, action: Action, r: Result, stamp: Option<Time>)
    requires Live(db, u)
    requires (action.SetUpAccount? && r == CompleteOnboarding(db, u, action.username))
      || (action.EditProfile? && r == UpdateOwnProfile(db, now, u, action.username, action.dob))
    ensures Told(r.outcome, ActionReason(db.users, db.accounts, stamp, now, u, action))
  {
  }

  lemma DeleteTold(db: Db, now: Time, u: Id, s: Id, proof: Option<string>, p: Pseudonym, r: Result)
    requires OneEmailAccountEach(db.accounts) && s in db.sessions && u in db.users
    requires r == SelfDelete(db, now, u, s, proof, p)
    ensures Told(r.outcome, ActionReason(db.users, db.accounts, db.sessions[s].reauthenticatedAt, now, u,
                                         DeleteMyself(proof, p)))
  {
    var proved := AssertRecentlyAuthenticated(db, now, u, s, proof);
    DoorTold(db, now, u, s, proof, proved);
    if proved.outcome == Done { PseudonymTold(proved.db, u, p); }
  }

  lemma PseudonymTold(db: Db, u: Id, p: Pseudonym)
    requires u in db.users
    ensures var r := AnonymiseAccount(db, u, p);
      if AddressOrNameOfOther(db.users, u, p) then r.outcome == Refused(UniqueViolation) else r.outcome == Done
  {
  }

  lemma AdminTold(db: Db, now: Time, u: Id, s: Id, action: Action, r: Result)
    requires u in db.users && Administers(action) && r == Act(db, now, u, s, action)
    ensures Told(r.outcome, AdminReason(db.users, u, action))
  {
    if action.AnonymiseUser? && action.target in db.users { PseudonymTold(db, action.target, action.pseudonym); }
  }

  /** The actions nothing stands in the way of. */
  predicate Always(action: Action) {
    action.Whoami? || action.SignOut? || action.AcceptInvitation?
  }

  lemma AlwaysTold(db: Db, now: Time, u: Id, s: Id, action: Action, r: Result, stamp: Option<Time>)
    requires u in db.users && Always(action) && r == Act(db, now, u, s, action)
    ensures Told(r.outcome, ActionReason(db.users, db.accounts, stamp, now, u, action))
  {
  }

  lemma OwnAccountTold(db: Db, now: Time, u: Id, s: Id, action: Action, r: Result, stamp: Option<Time>)
    requires Inv(db) && s in db.sessions && Live(db, u) && r == Act(db, now, u, s, action)
    requires action.Change? || action.ProveWithGoogle? || action.Unlink?
    ensures Told(r.outcome, ActionReason(db.users, db.accounts, stamp, now, u, action))
  {
    match action
    case Change(current, password) => ChangeTold(db, now, u, current, password, r);
    case ProveWithGoogle(googleId) => ProveTold(db, now, u, s, googleId, r);
    case Unlink(provider, target) => UnlinkTold(db, u, provider, target, r);
  }

  lemma ActTold(db: Db, now: Time, u: Id, s: Id, action: Action, r: Result)
    requires Inv(db) && s in db.sessions && Live(db, u) && r == Act(db, now, u, s, action)
    ensures Told(r.outcome, ActionReason(db.users, db.accounts, db.sessions[s].reauthenticatedAt, now, u, action))
  {
    var stamp := db.sessions[s].reauthenticatedAt;
    if Always(action) {
      AlwaysTold(db, now, u, s, action, r, stamp);
    } else if action.SetUpAccount? || action.EditProfile? {
      NamesTold(db, now, u, action, r, stamp);
    } else if action.AskForNewEmail? {
      AskTold(db, now, u, s, action.newEmail, action.proof, r);
    } else if action.DeleteMyself? {
      DeleteTold(db, now, u, s, action.proof, action.pseudonym, r);
    } else if Administers(action) {
      AdminTold(db, now, u, s, action, r);
    } else {
      OwnAccountTold(db, now, u, s, action, r, stamp);
    }
  }

  lemma ActAsTold(db: Db, now: Time, s: Id, action: Action, r: Result)
    requires Inv(db) && r == ActAs(db, now, s, action)
    ensures AllOwned(db) && Told(r.outcome, Reason(db, now, As(s, action)))
  {
    var valid := ValidateSession(db, now, s).db;
    ActAsIs(db, now, s, action);
    InvValidateSession(db, now, s);
    if Admitted(db, now, s) {
      assert valid == db.(sessions := db.sessions[s := db.sessions[s].(expiresAt := valid.sessions[s].expiresAt)]);
      ActTold(valid, now, db.sessions[s].userId, s, action, r);
    }
  }

  // ─── Any request ───────────────────────────────────────────────────────────

  lemma SigningInTold(db: Db, now: Time, request: Request, r: Result)
    requires Inv(db) && SigningIn(request) && r == Step(db, now, request)
    ensures AllOwned(db) && Told(r.outcome, Reason(db, now, request))
  {
    match request
    case SignUp(rawEmail, password, username, dob, known) =>
      RegisterTold(db, now, rawEmail, password, username, dob, known, r);
    case SignIn(rawEmail, password) => LoginTold(db, now, rawEmail, password, r);
    case BeginGoogle(username, dob, known) => BeginTold(db, now, username, dob, known);
    case ReturnFromGoogle(googleId, rawEmail, verified, pending, random) =>
      ReturnTold(db, now, googleId, rawEmail, verified, pending, random, r);
    case LinkAccounts(t, password) => LinkTold(db, now, t, password, r);
  }

  lemma JobTold(db: Db, now: Time, request: Request, r: Result)
    requires AllOwned(db) && EmailsUnique(db.users) && r == Step(db, now, request)
    requires ByJob(request) || request.Verify? || request.ResendLink? || request.Forgot?
    ensures Told(r.outcome, Reason(db, now, request))
  {
    if request.Bootstrap? { BootstrapTold(db, request.rawEmail, request.allowUnverified, r); }
  }

  lemma ResetStepTold(db: Db, now: Time, t: Id, password: string, r: Result)
    requires AllOwned(db) && r == Step(db, now, Reset(t, password))
    ensures Told(r.outcome, Reason(db, now, Reset(t, password)))
  {
    ResetTold(db, now, t, password, r);
  }

  lemma ConfirmStepTold(db: Db, now: Time, t: Id, r: Result)
    requires AllOwned(db) && r == Step(db, now, ConfirmAddress(t)) && Told(r.outcome, ConfirmReason(db, now, t))
    ensures Told(r.outcome, Reason(db, now, ConfirmAddress(t)))
  {
  }

  lemma ByLinkTold(db: Db, now: Time, request: Request, r: Result)
    requires Inv(db) && (ByLink(request) || ByJob(request)) && r == Step(db, now, request)
    ensures AllOwned(db) && Told(r.outcome, Reason(db, now, request))
  {
    OwnedByInv(db);
    if request.Reset? {
      ResetStepTold(db, now, request.token, request.password, r);
    } else if request.ConfirmAddress? {
      ConfirmTold(db, now, request.token, r);
      ConfirmStepTold(db, now, request.token, r);
    } else {
      JobTold(db, now, request, r);
    }
  }

  /** Every request is refused exactly when the table gives a reason, and with that reason. */
  lemma StepAnswers(db: Db, now: Time, request: Request)
    requires Inv(db)
    ensures AllOwned(db) && Told(Step(db, now, request).outcome, Reason(db, now, request))
  {
    var r := Step(db, now, request);
    if request.As? {
      AsIsActAs(db, now, request.session, request.action);
      ActAsTold(db, now, request.session, request.action, r);
    } else if SigningIn(request) {
      SigningInTold(db, now, request, r);
    } else {
      ByLinkTold(db, now, request, r);
    }
  }

  // ─── What the others are answered ──────────────────────────────────────────

  /** The answer to a request that is not refused. */
  ghost predicate Answered(db: Db, request: Request, answer: Outcome) {
    match request
    case SignUp(_, _, _, _, _) => answer == UserCreated(db.next)
    case SignIn(rawEmail, password) =>
      answer.SessionStarted? && exists a :: Opens(db, answer.user, a, rawEmail, password)
    case BeginGoogle(_, _, _) => answer == SignupPending(db.next)
    case ReturnFromGoogle(googleId, rawEmail, _, _, _) =>
      if exists a :: IsAccount(db, a, GOOGLE, googleId) && Live(db, db.accounts[a].userId)
      then answer.SessionStarted? && LinkedTo(db.accounts, googleId, answer.user)
      else if LiveAt(db.users, Normalize(rawEmail)) then answer == LinkPending(db.next)
      else answer.SessionStarted? && answer.user == db.next
    case LinkAccounts(t, _) => answer.SessionStarted? && t in db.tokens && answer.user == db.tokens[t].userId
    case Forgot(rawEmail) =>
      if exists u :: IsUserByEmail(db, u, Normalize(rawEmail)) && PasswordStored(db.accounts, u)
      then answer == ResetSent
      else if LiveAt(db.users, Normalize(rawEmail)) then answer == SetPasswordSent
      else answer == NoAccount
    case As(s, action) =>
      if action.Change? then s in db.sessions && answer.SessionStarted? && answer.user == db.sessions[s].userId
      else answer == Done
    case _ => answer == Done
  }

  lemma RegisterAnswered(
    db: Db, now: Time, rawEmail: string, password: string, username: string, dob: Option<Time>, known: bool)
    ensures var answer := Register(db, now, rawEmail, password, username, dob, known).outcome;
      answer.Refused? || answer == UserCreated(db.next)
  {
    RegisterWrites(db, now, rawEmail, password, username, dob, known);
  }

  lemma LoginAnswered(db: Db, now: Time, rawEmail: string, password: string)
    ensures var answer := Login(db, now, rawEmail, password).outcome;
      answer.Refused? || Answered(db, SignIn(rawEmail, password), answer)
  {
    var answer := Login(db, now, rawEmail, password).outcome;
    if answer.SessionStarted? {
      assert Opens(db, answer.user, FindEmailAccountByUserId(db, answer.user).value, rawEmail, password);
    }
  }

  lemma WithoutAccountAnswered(
    db: Db, now: Time, googleId: string, rawEmail: string, verified: bool, pending: Option<Id>, random: string)
    ensures var answer := GoogleWithoutAccount(db, now, googleId, rawEmail, verified, pending, random).outcome;
      || answer.Refused?
      || (if LiveAt(db.users, Normalize(rawEmail)) then answer == LinkPending(db.next)
          else answer.SessionStarted? && answer.user == db.next)
  {
    SameHeld(db, Normalize(rawEmail), "");
    var r := GoogleSignup(db, now, googleId, Normalize(rawEmail), pending, random);
    SignupRefused(db, now, googleId, Normalize(rawEmail), pending, random, r);
    SignupWrites(db, now, googleId, Normalize(rawEmail), pending, random);
  }

  lemma ReturnAnswered(
    db: Db, now: Time, googleId: string, rawEmail: string, verified: bool, pending: Option<Id>, random: string)
    requires IdentitiesUnique(db.accounts)
    ensures var answer := GoogleLogin(db, now, googleId, rawEmail, verified, pending, random).outcome;
      answer.Refused? || Answered(db, ReturnFromGoogle(googleId, rawEmail, verified, pending, random), answer)
  {
    var account := FindAuthAccount(db, GOOGLE, googleId);
    if account.None? {
      WithoutAccountAnswered(db, now, googleId, rawEmail, verified, pending, random);
    } else {
      forall a: Id | IsAccount(db, a, GOOGLE, googleId)
        ensures a == account.value
      {
        FindsIdentity(db, a, GOOGLE, googleId);
      }
      if !Live(db, db.accounts[account.value].userId) && pending.Some? {
        var released := ReleaseIdentityClaims(db, db.accounts[account.value].userId);
        WithoutAccountAnswered(released, now, googleId, rawEmail, verified, pending, random);
      }
    }
  }

  lemma LinkAnswered(db: Db, now: Time, t: Id, password: string)
    requires OwnersExist(db)
    ensures var answer := LinkGoogle(db, now, t, password).outcome;
      answer.Refused? || Answered(db, LinkAccounts(t, password), answer)
  {
    LinkGoogleWrites(db, now, t, password);
  }

  lemma ForgotAnswered(db: Db, now: Time, rawEmail: string)
    requires Inv(db)
    ensures Answered(db, Forgot(rawEmail), ForgotPassword(db, now, rawEmail).outcome)
  {
    var found := FindUserByEmail(db, Normalize(rawEmail));
    SameHeld(db, Normalize(rawEmail), "");
    if found.Some? {
      SamePasswordOf(db, found.value, "");
      forall u: Id | IsUserByEmail(db, u, Normalize(rawEmail))
        ensures u == found.value
      {
        TheOneFound(db, rawEmail, u);
      }
    }
  }

  lemma ActAnswered(db: Db, now: Time, u: Id, s: Id, action: Action, answer: Outcome)
    requires u in db.users && answer == Act(db, now, u, s, action).outcome
    ensures answer.Refused? || (if action.Change? then answer == SessionStarted(u, db.next) else answer == Done)
  {
  }

  lemma ActAsAnswered(db: Db, now: Time, s: Id, action: Action, answer: Outcome)
    requires OwnersExist(db) && answer == ActAs(db, now, s, action).outcome
    ensures answer.Refused? || Answered(db, As(s, action), answer)
  {
    ActAsIs(db, now, s, action);
    if Admitted(db, now, s) {
      ActAnswered(ValidateSession(db, now, s).db, now, db.sessions[s].userId, s, action, answer);
    }
  }

  lemma ByLinkDone(db: Db, now: Time, request: Request, answer: Outcome)
    requires OwnersExist(db) && (request.Verify? || request.Reset?) && answer == Step(db, now, request).outcome
    ensures answer.Refused? || answer == Done
  {
    if request.Reset? { ResetPasswordWrites(db, now, request.token, request.password); }
  }

  lemma ConfirmDone(db: Db, now: Time, t: Id)
    requires Inv(db)
    ensures var answer := ConfirmEmailChange(db, now, t).outcome; answer.Refused? || answer == Done
  {
    ConfirmEmailChangeWrites(db, now, t);
  }

  lemma DoneIsAnswer(db: Db, request: Request, answer: Outcome)
    requires request.Verify? || request.Reset? || request.ConfirmAddress?
    requires answer.Refused? || answer == Done
    ensures answer.Refused? || Answered(db, request, answer)
  {
  }

  lemma ByLinkAnswered(db: Db, now: Time, request: Request, answer: Outcome)
    requires Inv(db) && (request.Verify? || request.Reset? || request.ConfirmAddress?)
    requires answer == Step(db, now, request).outcome
    ensures answer.Refused? || Answered(db, request, answer)
  {
    if request.ConfirmAddress? {
      ConfirmDone(db, now, request.token);
    } else {
      ByLinkDone(db, now, request, answer);
    }
    DoneIsAnswer(db, request, answer);
  }

  lemma OthersAnswered(db: Db, now: Time, request: Request, answer: Outcome)
    requires OwnersExist(db) && (request.BeginGoogle? || request.ResendLink? || ByJob(request))
    requires answer == Step(db, now, request).outcome
    ensures answer.Refused? || Answered(db, request, answer)
  {
  }

  lemma SigningInAnswered(db: Db, now: Time, request: Request, answer: Outcome)
    requires Inv(db) && SigningIn(request) && !request.BeginGoogle? && answer == Step(db, now, request).outcome
    ensures answer.Refused? || Answered(db, request, answer)
  {
    match request
    case SignUp(rawEmail, password, username, dob, known) =>
      RegisterAnswered(db, now, rawEmail, password, username, dob, known);
    case SignIn(rawEmail, password) => LoginAnswered(db, now, rawEmail, password);
    case ReturnFromGoogle(googleId, rawEmail, verified, pending, random) =>
      ReturnAnswered(db, now, googleId, rawEmail, verified, pending, random);
    case LinkAccounts(t, password) => LinkAnswered(db, now, t, password);
  }

  lemma VisitorAnswered(db: Db, now: Time, request: Request, answer: Outcome)
    requires Inv(db) && !request.As? && answer == Step(db, now, request).outcome
    ensures answer.Refused? || Answered(db, request, answer)
  {
    if request.Forgot? {
      ForgotAnswered(db, now, request.rawEmail);
    } else if request.Verify? || request.Reset? || request.ConfirmAddress? {
      ByLinkAnswered(db, now, request, answer);
    } else if request.BeginGoogle? || request.ResendLink? || ByJob(request) {
      OthersAnswered(db, now, request, answer);
    } else {
      SigningInAnswered(db, now, request, answer);
    }
  }

  /** A request that is not refused is answered as the second table says. */
  lemma StepIsAnswered(db: Db, now: Time, request: Request)
    requires Inv(db)
    ensures var answer := Step(db, now, request).outcome; answer.Refused? || Answered(db, request, answer)
  {
    var answer := Step(db, now, request).outcome;
    if request.As? {
      AsIsActAs(db, now, request.session, request.action);
      ActAsAnswered(db, now, request.session, request.action, answer);
    } else {
      VisitorAnswered(db, now, request, answer);
    }
  }
}
