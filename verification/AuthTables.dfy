/** The tables behind sign-in as one value, the queries and single-row writes of the repository, and the
    invariant every operation keeps. Row ids and secret tokens are one fresh number each, handed out in
    order; times are milliseconds. */
module AuthTables {
  import opened Text
  import Age
  import Lockout

  type Id = nat
  type Time = int

  datatype Role = VRATARTHI | VRATMITRA | MODERATOR | ADMIN
  datatype Provider = EMAIL | GOOGLE
  datatype TokenType = EMAIL_VERIFICATION | PASSWORD_RESET | EMAIL_CHANGE | GOOGLE_LINK

  /** A stored hash: it matches the password it was made from and no other. */
  datatype PasswordHash = Bcrypt(of: string)

  datatype Metadata = NoMetadata | NewEmail(address: string) | GoogleIdentity(googleId: string, emailVerified: bool)

  datatype User = User(
    email: string, username: string, pendingEmail: Option<string>, dob: Option<Time>,
    verified: bool, suspended: bool, deleted: bool, roles: set<Role>)

  datatype Account = Account(userId: Id, provider: Provider, identifier: string, passwordHash: Option<PasswordHash>)
  datatype Session = Session(userId: Id, expiresAt: Time, reauthenticatedAt: Option<Time>)
  datatype Token = Token(userId: Id, kind: TokenType, metadata: Metadata, expiresAt: Time, used: bool)
  datatype PendingSignup = PendingSignup(username: string, dob: Time, expiresAt: Time)

  datatype Db = Db(
    users: map<Id, User>, accounts: map<Id, Account>, sessions: map<Id, Session>, tokens: map<Id, Token>,
    pendings: map<Id, PendingSignup>, lockouts: map<string, Lockout.Hash>, next: Id)

  const EMPTY_DB := Db(map[], map[], map[], map[], map[], map[], 0)

  predicate Live(db: Db, u: Id) {
    u in db.users && !db.users[u].deleted
  }

  predicate Authenticates(a: Account) {
    a.provider != EMAIL || a.passwordHash.Some?
  }

  predicate Identifies(a: Account, provider: Provider, identifier: string) {
    a.provider == provider && a.identifier == identifier
  }

  /** What replaces a deleted user's address and name: made from a short form of the user's id. */
  datatype Pseudonym = Pseudonym(shortId: string)

  function PseudonymEmail(p: Pseudonym): string {
    "anon-" + p.shortId + "@deleted.invalid"
  }

  function PseudonymUsername(p: Pseudonym): string {
    "deleted_" + p.shortId
  }

  /** An address of the reserved form. */
  ghost predicate Pseudonymous(email: string) {
    exists p :: email == PseudonymEmail(p)
  }

  // ─── Queries ───────────────────────────────────────────────────────────────

  predicate IsUserByEmail(db: Db, u: Id, email: string) {
    Live(db, u) && db.users[u].email == email
  }

  ghost function FindUserByEmail(db: Db, email: string): (r: Option<Id>)
    ensures r.Some? ==> IsUserByEmail(db, r.value, email)
    ensures r.None? ==> forall u :: !IsUserByEmail(db, u, email)
  {
    if u: Id :| IsUserByEmail(db, u, email) then Some(u) else None
  }

  /** Whatever its state, some user row holds the address. */
  predicate EmailInUse(db: Db, email: string) {
    exists u :: u in db.users && db.users[u].email == email
  }

  /** A live user row holds the name. */
  predicate UsernameTaken(db: Db, username: string) {
    exists u :: u in db.users && !db.users[u].deleted && db.users[u].username == Lower(username)
  }

  predicate UsernameInUse(db: Db, username: string) {
    exists u :: u in db.users && db.users[u].username == username
  }

  predicate IsAccount(db: Db, a: Id, provider: Provider, identifier: string) {
    a in db.accounts && Identifies(db.accounts[a], provider, identifier)
  }

  ghost function FindAuthAccount(db: Db, provider: Provider, identifier: string): (r: Option<Id>)
    ensures r.Some? ==> IsAccount(db, r.value, provider, identifier)
    ensures r.None? ==> forall a :: !IsAccount(db, a, provider, identifier)
  {
    if a: Id :| IsAccount(db, a, provider, identifier) then Some(a) else None
  }

  predicate IsEmailAccountOf(db: Db, a: Id, u: Id) {
    a in db.accounts && db.accounts[a].userId == u && db.accounts[a].provider == EMAIL
  }

  ghost function FindEmailAccountByUserId(db: Db, u: Id): (r: Option<Id>)
    ensures r.Some? ==> IsEmailAccountOf(db, r.value, u)
    ensures r.None? ==> forall a :: !IsEmailAccountOf(db, a, u)
  {
    if a: Id :| IsEmailAccountOf(db, a, u) then Some(a) else None
  }

  /** The hash a password of this user is compared with. */
  ghost function PasswordOf(db: Db, u: Id): Option<PasswordHash> {
    var a := FindEmailAccountByUserId(db, u);
    if a.Some? then db.accounts[a.value].passwordHash else None
  }

  predicate UsableToken(db: Db, t: Id, kind: TokenType) {
    t in db.tokens && db.tokens[t].kind == kind && !db.tokens[t].used
  }

  // ─── Writes ────────────────────────────────────────────────────────────────

  function ReleaseIdentityClaims(db: Db, u: Id): Db {
    db.(accounts := map a | a in db.accounts && db.accounts[a].userId != u :: db.accounts[a])
  }

  /** The user row and its first account, in one transaction. */
  function InsertUser(db: Db, user: User, provider: Provider, identifier: string, hash: Option<PasswordHash>): Db {
    db.(users := db.users[db.next := user],
        accounts := db.accounts[db.next + 1 := Account(db.next, provider, identifier, hash)],
        next := db.next + 2)
  }

  function InsertAccount(db: Db, account: Account): Db {
    db.(accounts := db.accounts[db.next := account], next := db.next + 1)
  }

  function DeleteAccount(db: Db, a: Id): Db {
    db.(accounts := db.accounts - {a})
  }

  function SetPasswordHash(db: Db, a: Id, hash: PasswordHash): Db
    requires a in db.accounts
  {
    db.(accounts := db.accounts[a := db.accounts[a].(passwordHash := Some(hash))])
  }

  function SetUser(db: Db, u: Id, user: User): Db {
    db.(users := db.users[u := user])
  }

  function InsertToken(db: Db, token: Token): Db {
    db.(tokens := db.tokens[db.next := token], next := db.next + 1)
  }

  function MarkTokenUsed(db: Db, t: Id): Db
    requires t in db.tokens
  {
    db.(tokens := db.tokens[t := db.tokens[t].(used := true)])
  }

  predicate Outstanding(t: Token, u: Id, kind: TokenType) {
    t.userId == u && t.kind == kind && !t.used
  }

  function Spent(tokens: Tokens, u: Id, kind: TokenType): Tokens {
    map t | t in tokens :: if Outstanding(tokens[t], u, kind) then tokens[t].(used := true) else tokens[t]
  }

  function InvalidateTokens(db: Db, u: Id, kind: TokenType): Db {
    db.(tokens := Spent(db.tokens, u, kind))
  }

  function InsertSession(db: Db, session: Session): Db {
    db.(sessions := db.sessions[db.next := session], next := db.next + 1)
  }

  function DeleteSession(db: Db, s: Id): Db {
    db.(sessions := db.sessions - {s})
  }

  function DeleteAllUserSessions(db: Db, u: Id): Db {
    db.(sessions := map s | s in db.sessions && db.sessions[s].userId != u :: db.sessions[s])
  }

  function SetSession(db: Db, s: Id, session: Session): Db {
    db.(sessions := db.sessions[s := session])
  }

  function Renamed(accounts: Accounts, u: Id, email: string): Accounts {
    map a | a in accounts ::
      if accounts[a].userId == u && accounts[a].provider == EMAIL then accounts[a].(identifier := email)
      else accounts[a]
  }

  /** Whether moving the user and the user's EMAIL account to the address breaks a unique index. */
  predicate ChangeCollides(users: Users, accounts: Accounts, u: Id, email: string) {
    || (exists v :: v in users && v != u && users[v].email == email)
    || (exists a, b :: a in accounts && b in accounts && a != b
          && accounts[a].userId == u && accounts[a].provider == EMAIL
          && ((accounts[b].userId == u && accounts[b].provider == EMAIL) || Identifies(accounts[b], EMAIL, email)))
  }

  /** The address and the EMAIL account's identifier, in one transaction. */
  function ApplyEmailChange(db: Db, u: Id, email: string): Db
    requires u in db.users
  {
    db.(users := db.users[u := db.users[u].(email := email, pendingEmail := None)],
        accounts := Renamed(db.accounts, u, email))
  }

  function ClearStoredPasswords(db: Db, u: Id): Db {
    db.(accounts := WithoutPasswords(db.accounts, u))
  }

  function InsertPending(db: Db, pending: PendingSignup): Db {
    db.(pendings := db.pendings[db.next := pending], next := db.next + 1)
  }

  function DeletePending(db: Db, p: Id): Db {
    db.(pendings := db.pendings - {p})
  }

  // ─── The invariant ─────────────────────────────────────────────────────────

  type Users = map<Id, User>
  type Accounts = map<Id, Account>
  type Tokens = map<Id, Token>

  predicate LiveIn(users: Users, u: Id) {
    u in users && !users[u].deleted
  }

  ghost predicate EmailsUnique(users: Users) {
    forall u, v :: u in users && v in users && users[u].email == users[v].email ==> u == v
  }

  ghost predicate UsernamesUnique(users: Users) {
    forall u, v :: u in users && v in users && users[u].username == users[v].username ==> u == v
  }

  predicate Normal(email: string) {
    Normalize(email) == email
  }

  /** Live users' addresses are stored in their one canonical form, and only a live user waits for one to
      be confirmed. */
  ghost predicate EmailsNormal(users: Users) {
    && (forall u :: LiveIn(users, u) ==> Normal(users[u].email))
    && (forall u :: u in users && users[u].pendingEmail.Some? ==>
          !users[u].deleted && Normal(users[u].pendingEmail.value))
  }

  ghost predicate DeletedUnderPseudonym(users: Users) {
    forall u :: u in users && users[u].deleted ==> Pseudonymous(users[u].email)
  }

  ghost predicate IdentitiesUnique(accounts: Accounts) {
    forall a, b :: a in accounts && b in accounts
      && accounts[a].provider == accounts[b].provider && accounts[a].identifier == accounts[b].identifier
      ==> a == b
  }

  ghost predicate OneEmailAccountEach(accounts: Accounts) {
    forall a, b :: a in accounts && b in accounts && accounts[a].provider == EMAIL && accounts[b].provider == EMAIL
      && accounts[a].userId == accounts[b].userId
      ==> a == b
  }

  /** A live user's EMAIL account is named by the user's address. */
  ghost predicate EmailAccountsInStep(users: Users, accounts: Accounts) {
    forall a :: a in accounts && accounts[a].provider == EMAIL && LiveIn(users, accounts[a].userId) ==>
      accounts[a].identifier == users[accounts[a].userId].email
  }

  predicate IsLogin(accounts: Accounts, a: Id, u: Id) {
    a in accounts && accounts[a].userId == u && Authenticates(accounts[a])
  }

  ghost predicate HasLogin(accounts: Accounts, u: Id) {
    exists a :: IsLogin(accounts, a, u)
  }

  ghost predicate EveryoneCanSignIn(users: Users, accounts: Accounts) {
    forall u :: LiveIn(users, u) ==> HasLogin(accounts, u)
  }

  ghost predicate OneTokenEach(tokens: Tokens) {
    forall s, t :: s in tokens && t in tokens && !tokens[s].used && !tokens[t].used
      && tokens[s].userId == tokens[t].userId && tokens[s].kind == tokens[t].kind
      ==> s == t
  }

  predicate NamesPending(user: User, token: Token) {
    user.pendingEmail.Some? && token.metadata == NewEmail(user.pendingEmail.value)
  }

  /** An unused email-change token of a live user names the address that user is waiting to confirm. */
  ghost predicate TokensNamePending(users: Users, tokens: Tokens) {
    forall t :: t in tokens && tokens[t].kind == EMAIL_CHANGE && !tokens[t].used && LiveIn(users, tokens[t].userId) ==>
      NamesPending(users[tokens[t].userId], tokens[t])
  }

  ghost predicate UsersOk(users: Users, next: Id) {
    && (forall u :: u in users ==> u < next)
    && EmailsUnique(users) && UsernamesUnique(users) && EmailsNormal(users) && DeletedUnderPseudonym(users)
  }

  ghost predicate AccountsOk(users: Users, accounts: Accounts, next: Id) {
    && (forall a :: a in accounts ==> a < next && accounts[a].userId in users)
    && IdentitiesUnique(accounts) && OneEmailAccountEach(accounts)
    && EmailAccountsInStep(users, accounts) && EveryoneCanSignIn(users, accounts)
  }

  ghost predicate TokensOk(users: Users, tokens: Tokens, next: Id) {
    && (forall t :: t in tokens ==> t < next && tokens[t].userId in users)
    && OneTokenEach(tokens) && TokensNamePending(users, tokens)
  }

  ghost predicate SessionsOk(users: Users, sessions: map<Id, Session>, next: Id) {
    forall s :: s in sessions ==> s < next && sessions[s].userId in users
  }

  ghost predicate PendingsOk(pendings: map<Id, PendingSignup>, next: Id) {
    forall p :: p in pendings ==> p < next
  }

  /** What every reachable state satisfies, the age rule apart. */
  ghost predicate Inv(db: Db) {
    && UsersOk(db.users, db.next)
    && AccountsOk(db.users, db.accounts, db.next)
    && TokensOk(db.users, db.tokens, db.next)
    && SessionsOk(db.users, db.sessions, db.next)
    && PendingsOk(db.pendings, db.next)
  }

  /** Tokens and sessions belong to somebody. */
  ghost predicate OwnersExist(db: Db) {
    && (forall t :: t in db.tokens ==> db.tokens[t].userId in db.users)
    && (forall s :: s in db.sessions ==> db.sessions[s].userId in db.users)
  }

  lemma InvEmpty()
    ensures Inv(EMPTY_DB)
  {
  }

  // ─── Finding the one row ───────────────────────────────────────────────────

  lemma FindsUser(db: Db, u: Id, email: string)
    requires EmailsUnique(db.users) && IsUserByEmail(db, u, email)
    ensures FindUserByEmail(db, email) == Some(u)
  {
    assert IsUserByEmail(db, FindUserByEmail(db, email).value, email);
  }

  lemma FindsPassword(db: Db, u: Id, a: Id)
    requires OneEmailAccountEach(db.accounts) && IsEmailAccountOf(db, a, u)
    ensures FindEmailAccountByUserId(db, u) == Some(a) && PasswordOf(db, u) == db.accounts[a].passwordHash
  {
    assert IsEmailAccountOf(db, FindEmailAccountByUserId(db, u).value, u);
  }

  lemma FindsIdentity(db: Db, a: Id, provider: Provider, identifier: string)
    requires IdentitiesUnique(db.accounts) && IsAccount(db, a, provider, identifier)
    ensures FindAuthAccount(db, provider, identifier) == Some(a)
  {
    assert IsAccount(db, FindAuthAccount(db, provider, identifier).value, provider, identifier);
  }

  ghost predicate RightPassword(db: Db, u: Id, password: string) {
    exists a :: IsEmailAccountOf(db, a, u) && db.accounts[a].passwordHash == Some(Bcrypt(password))
  }

  lemma PasswordIsRight(db: Db, u: Id, password: string)
    requires OneEmailAccountEach(db.accounts)
    ensures PasswordOf(db, u) == Some(Bcrypt(password)) <==> RightPassword(db, u, password)
  {
  }

  // ─── Each write keeps the invariant ────────────────────────────────────────

  /** The users who must be able to sign in still have a login each. */
  lemma LoginsKept(users: Users, accounts: Accounts, users': Users, accounts': Accounts)
    requires EveryoneCanSignIn(users, accounts)
    requires forall u :: LiveIn(users', u) ==> LiveIn(users, u)
    requires forall a, u :: LiveIn(users', u) && IsLogin(accounts, a, u) ==> IsLogin(accounts', a, u)
    ensures EveryoneCanSignIn(users', accounts')
  {
    forall u | LiveIn(users', u)
      ensures HasLogin(accounts', u)
    {
      assert HasLogin(accounts, u);
      var a :| IsLogin(accounts, a, u);
      assert IsLogin(accounts', a, u);
    }
  }

  lemma InvReleaseIdentityClaims(db: Db, u: Id)
    requires Inv(db) && !Live(db, u)
    ensures Inv(ReleaseIdentityClaims(db, u))
  {
    LoginsKept(db.users, db.accounts, db.users, ReleaseIdentityClaims(db, u).accounts);
  }

  lemma UsersOkInsert(users: Users, u: Id, user: User)
    requires UsersOk(users, u)
    requires forall v :: v in users ==> users[v].email != user.email && users[v].username != user.username
    requires Normal(user.email) && user.pendingEmail.None? && !user.deleted
    ensures UsersOk(users[u := user], u + 2)
  {
  }

  lemma AccountsOkNewUser(users: Users, accounts: Accounts, u: Id, user: User, account: Account)
    requires AccountsOk(users, accounts, u) && u !in users && account.userId == u
    requires forall a :: a in accounts ==> !Identifies(accounts[a], account.provider, account.identifier)
    requires account.provider == EMAIL ==> account.identifier == user.email
    requires Authenticates(account)
    ensures AccountsOk(users[u := user], accounts[u + 1 := account], u + 2)
  {
    var users', accounts' := users[u := user], accounts[u + 1 := account];
    forall v | LiveIn(users', v)
      ensures HasLogin(accounts', v)
    {
      if v == u {
        assert IsLogin(accounts', u + 1, v);
      } else {
        assert LiveIn(users, v) && HasLogin(accounts, v);
        var a :| IsLogin(accounts, a, v);
        assert IsLogin(accounts', a, v);
      }
    }
  }

  lemma TokensOkNewUser(users: Users, tokens: Tokens, u: Id, user: User)
    requires TokensOk(users, tokens, u) && u !in users
    ensures TokensOk(users[u := user], tokens, u + 2)
  {
  }

  lemma SessionsOkNewUser(users: Users, sessions: map<Id, Session>, u: Id, user: User)
    requires SessionsOk(users, sessions, u)
    ensures SessionsOk(users[u := user], sessions, u + 2)
  {
  }

  lemma InvInsertUser(db: Db, user: User, provider: Provider, identifier: string, hash: Option<PasswordHash>)
    requires Inv(db) && !EmailInUse(db, user.email) && !UsernameInUse(db, user.username)
    requires FindAuthAccount(db, provider, identifier).None?
    requires provider == EMAIL ==> identifier == user.email && hash.Some?
    requires Normal(user.email) && user.pendingEmail.None? && !user.deleted
    ensures Inv(InsertUser(db, user, provider, identifier, hash))
  {
    FreeIdentity(db, provider, identifier);
    FreeNames(db, user.email, user.username);
    UsersOkInsert(db.users, db.next, user);
    AccountsOkNewUser(db.users, db.accounts, db.next, user, Account(db.next, provider, identifier, hash));
    TokensOkNewUser(db.users, db.tokens, db.next, user);
    SessionsOkNewUser(db.users, db.sessions, db.next, user);
  }

  lemma FreeNames(db: Db, email: string, username: string)
    requires !EmailInUse(db, email) && !UsernameInUse(db, username)
    ensures forall v :: v in db.users ==> db.users[v].email != email && db.users[v].username != username
  {
  }

  lemma FreeIdentity(db: Db, provider: Provider, identifier: string)
    requires FindAuthAccount(db, provider, identifier).None?
    ensures forall a :: a in db.accounts ==> !Identifies(db.accounts[a], provider, identifier)
  {
    assert forall a :: a in db.accounts ==> !IsAccount(db, a, provider, identifier);
  }

  lemma NoEmailAccount(db: Db, u: Id)
    requires FindEmailAccountByUserId(db, u).None?
    ensures forall a :: a in db.accounts && db.accounts[a].userId == u ==> db.accounts[a].provider != EMAIL
  {
    assert forall a :: a in db.accounts ==> !IsEmailAccountOf(db, a, u);
  }

  lemma AccountsOkInsert(users: Users, accounts: Accounts, a: Id, account: Account)
    requires AccountsOk(users, accounts, a) && account.userId in users
    requires forall b :: b in accounts ==> !Identifies(accounts[b], account.provider, account.identifier)
    requires account.provider == EMAIL ==>
      && (forall b :: b in accounts && accounts[b].userId == account.userId ==> accounts[b].provider != EMAIL)
      && (LiveIn(users, account.userId) ==> account.identifier == users[account.userId].email)
    ensures AccountsOk(users, accounts[a := account], a + 1)
  {
    LoginsKept(users, accounts, users, accounts[a := account]);
  }

  lemma InvInsertAccount(db: Db, account: Account)
    requires Inv(db) && account.userId in db.users
    requires FindAuthAccount(db, account.provider, account.identifier).None?
    requires account.provider == EMAIL ==>
      && FindEmailAccountByUserId(db, account.userId).None?
      && (Live(db, account.userId) ==> account.identifier == db.users[account.userId].email)
    ensures Inv(InsertAccount(db, account))
  {
    FreeIdentity(db, account.provider, account.identifier);
    if account.provider == EMAIL { NoEmailAccount(db, account.userId); }
    AccountsOkInsert(db.users, db.accounts, db.next, account);
  }

  lemma AccountsOkDelete(users: Users, accounts: Accounts, a: Id, b: Id, next: Id)
    requires AccountsOk(users, accounts, next) && a in accounts
    requires b != a && IsLogin(accounts, b, accounts[a].userId)
    ensures AccountsOk(users, accounts - {a}, next)
  {
    forall v | LiveIn(users, v)
      ensures HasLogin(accounts - {a}, v)
    {
      assert HasLogin(accounts, v);
      var c :| IsLogin(accounts, c, v);
      assert IsLogin(accounts - {a}, if c == a then b else c, v);
    }
  }

  /** An account may go while another of the same user's can still sign the user in. */
  lemma InvDeleteAccount(db: Db, a: Id, b: Id)
    requires Inv(db) && a in db.accounts
    requires b != a && IsLogin(db.accounts, b, db.accounts[a].userId)
    ensures Inv(DeleteAccount(db, a))
  {
    AccountsOkDelete(db.users, db.accounts, a, b, db.next);
  }

  lemma InvSetPasswordHash(db: Db, a: Id, hash: PasswordHash)
    requires Inv(db) && a in db.accounts
    ensures Inv(SetPasswordHash(db, a, hash))
  {
    LoginsKept(db.users, db.accounts, db.users, SetPasswordHash(db, a, hash).accounts);
  }

  lemma UsersOkUpdate(users: Users, u: Id, user: User, next: Id)
    requires UsersOk(users, next) && u in users
    requires forall v :: v in users && v != u ==> users[v].email != user.email && users[v].username != user.username
    requires if user.deleted then Pseudonymous(user.email) else Normal(user.email)
    requires user.pendingEmail.Some? ==> !user.deleted && Normal(user.pendingEmail.value)
    ensures UsersOk(users[u := user], next)
  {
  }

  /** A write to one user row that leaves address and deletion alone, or deletes it. */
  lemma InvSetUser(db: Db, u: Id, user: User)
    requires Inv(db) && u in db.users
    requires forall v :: v in db.users && v != u ==>
      db.users[v].username != user.username && db.users[v].email != user.email
    requires user.deleted || (!db.users[u].deleted && user.email == db.users[u].email)
    requires user.deleted ==> user.pendingEmail.None? && Pseudonymous(user.email)
    requires !user.deleted ==>
      || user.pendingEmail == db.users[u].pendingEmail
      || (&& user.pendingEmail.Some? && Normal(user.pendingEmail.value)
          && forall t :: t in db.tokens ==> !Outstanding(db.tokens[t], u, EMAIL_CHANGE))
    ensures Inv(SetUser(db, u, user))
  {
    assert !user.deleted ==> LiveIn(db.users, u);
    UsersOkUpdate(db.users, u, user, db.next);
    LoginsKept(db.users, db.accounts, db.users[u := user], db.accounts);
  }

  lemma OtherNames(db: Db, u: Id)
    requires Inv(db) && u in db.users
    ensures db.users[u].deleted ==> db.users[u].pendingEmail.None? && Pseudonymous(db.users[u].email)
    ensures forall v :: v in db.users && v != u ==>
      db.users[v].email != db.users[u].email && db.users[v].username != db.users[u].username
  {
  }

  lemma TokensOkInsert(users: Users, tokens: Tokens, t: Id, token: Token)
    requires TokensOk(users, tokens, t) && token.userId in users
    requires forall s :: s in tokens ==> !Outstanding(tokens[s], token.userId, token.kind)
    requires token.kind == EMAIL_CHANGE && LiveIn(users, token.userId) ==> NamesPending(users[token.userId], token)
    ensures TokensOk(users, tokens[t := token], t + 1)
  {
  }

  lemma InvInsertToken(db: Db, token: Token)
    requires Inv(db) && token.userId in db.users
    requires forall t :: t in db.tokens ==> !Outstanding(db.tokens[t], token.userId, token.kind)
    requires token.kind == EMAIL_CHANGE && Live(db, token.userId) ==> NamesPending(db.users[token.userId], token)
    ensures Inv(InsertToken(db, token))
  {
    TokensOkInsert(db.users, db.tokens, db.next, token);
  }

  lemma InvMarkTokenUsed(db: Db, t: Id)
    requires Inv(db) && t in db.tokens
    ensures Inv(MarkTokenUsed(db, t))
  {
  }

  lemma TokensOkSpent(users: Users, tokens: Tokens, u: Id, kind: TokenType, next: Id)
    requires TokensOk(users, tokens, next)
    ensures TokensOk(users, Spent(tokens, u, kind), next)
  {
  }

  lemma InvInvalidateTokens(db: Db, u: Id, kind: TokenType)
    requires Inv(db)
    ensures Inv(InvalidateTokens(db, u, kind))
    ensures var tokens := InvalidateTokens(db, u, kind).tokens;
      forall t :: t in tokens ==> !Outstanding(tokens[t], u, kind)
  {
    TokensOkSpent(db.users, db.tokens, u, kind, db.next);
  }

  lemma InvSessions(db: Db, sessions: map<Id, Session>, next: Id)
    requires Inv(db) && next >= db.next && SessionsOk(db.users, sessions, next)
    ensures Inv(db.(sessions := sessions, next := next))
  {
  }

  lemma RenamedUnique(accounts: Accounts, u: Id, email: string)
    requires IdentitiesUnique(accounts) && OneEmailAccountEach(accounts)
    requires forall a :: a in accounts && Identifies(accounts[a], EMAIL, email) ==> accounts[a].userId == u
    ensures IdentitiesUnique(Renamed(accounts, u, email)) && OneEmailAccountEach(Renamed(accounts, u, email))
  {
    var renamed := Renamed(accounts, u, email);
    forall a, b | a in renamed && b in renamed
      && renamed[a].provider == renamed[b].provider && renamed[a].identifier == renamed[b].identifier
      ensures a == b
    {
      assert Identifies(accounts[a], EMAIL, email) ==> accounts[a].userId == u;
      assert Identifies(accounts[b], EMAIL, email) ==> accounts[b].userId == u;
    }
  }

  lemma AccountsOkApply(users: Users, accounts: Accounts, u: Id, user: User, next: Id)
    requires AccountsOk(users, accounts, next) && LiveIn(users, u) && !user.deleted
    requires forall a :: a in accounts && Identifies(accounts[a], EMAIL, user.email) ==> accounts[a].userId == u
    ensures AccountsOk(users[u := user], Renamed(accounts, u, user.email), next)
  {
    RenamedUnique(accounts, u, user.email);
    LoginsKept(users, accounts, users[u := user], Renamed(accounts, u, user.email));
  }

  lemma TokensOkApply(users: Users, tokens: Tokens, u: Id, user: User, next: Id)
    requires TokensOk(users, tokens, next) && u in users
    requires forall t :: t in tokens ==> !Outstanding(tokens[t], u, EMAIL_CHANGE)
    ensures TokensOk(users[u := user], tokens, next)
  {
  }

  lemma NoOtherClaim(db: Db, u: Id, email: string)
    requires forall a :: IsAccount(db, a, EMAIL, email) ==> db.accounts[a].userId == u
    ensures forall a :: a in db.accounts && Identifies(db.accounts[a], EMAIL, email) ==> db.accounts[a].userId == u
  {
    assert forall a :: a in db.accounts && Identifies(db.accounts[a], EMAIL, email) ==> IsAccount(db, a, EMAIL, email);
  }

  lemma NobodyAt(db: Db, email: string)
    requires !EmailInUse(db, email)
    ensures forall v :: v in db.users ==> db.users[v].email != email
  {
  }

  lemma InvApplyEmailChange(db: Db, u: Id, email: string)
    requires Inv(db) && Live(db, u) && Normal(email) && !EmailInUse(db, email)
    requires forall a :: IsAccount(db, a, EMAIL, email) ==> db.accounts[a].userId == u
    requires forall t :: t in db.tokens ==> !Outstanding(db.tokens[t], u, EMAIL_CHANGE)
    ensures Inv(ApplyEmailChange(db, u, email))
  {
    NobodyAt(db, email);
    OtherNames(db, u);
    NoOtherClaim(db, u, email);
    var user := db.users[u].(email := email, pendingEmail := None);
    UsersOkUpdate(db.users, u, user, db.next);
    AccountsOkApply(db.users, db.accounts, u, user, db.next);
    TokensOkApply(db.users, db.tokens, u, user, db.next);
  }

  function WithoutPasswords(accounts: Accounts, u: Id): Accounts {
    map a | a in accounts :: if accounts[a].userId == u then accounts[a].(passwordHash := None) else accounts[a]
  }

  lemma AccountsOkClear(users: Users, accounts: Accounts, u: Id, next: Id)
    requires AccountsOk(users, accounts, next) && !LiveIn(users, u)
    ensures AccountsOk(users, WithoutPasswords(accounts, u), next)
  {
    LoginsKept(users, accounts, users, WithoutPasswords(accounts, u));
  }

  lemma InvClearStoredPasswords(db: Db, u: Id)
    requires Inv(db) && !Live(db, u)
    ensures Inv(ClearStoredPasswords(db, u))
  {
    AccountsOkClear(db.users, db.accounts, u, db.next);
  }

  // ─── The age rule ──────────────────────────────────────────────────────────

  predicate Qualifies(dob: Option<Time>, now: Time) {
    dob.Some? && Age.MeetsMinimumAge(dob.value, now)
  }

  /** Every live user, and everyone on the way to Google and back, is old enough now. */
  ghost predicate EveryoneOldEnough(db: Db, now: Time) {
    && (forall u :: Live(db, u) ==> Qualifies(db.users[u].dob, now))
    && (forall p :: p in db.pendings ==> Qualifies(Some(db.pendings[p].dob), now))
  }

  lemma OldEnoughLater(dob: Option<Time>, now: Time, later: Time)
    requires 0 <= now <= later && Qualifies(dob, now)
    ensures Qualifies(dob, later)
  {
    Age.SinceTheEpoch(now);
    Age.StaysOldEnough(dob.value, now, later);
  }

  /** Time passing lets nobody drop below the age. */
  lemma EveryoneOldEnoughLater(db: Db, now: Time, later: Time)
    requires EveryoneOldEnough(db, now) && 0 <= now <= later
    ensures EveryoneOldEnough(db, later)
  {
    forall u | Live(db, u)
      ensures Qualifies(db.users[u].dob, later)
    {
      OldEnoughLater(db.users[u].dob, now, later);
    }
    forall p | p in db.pendings
      ensures Qualifies(Some(db.pendings[p].dob), later)
    {
      OldEnoughLater(Some(db.pendings[p].dob), now, later);
    }
  }
}
