/** What each request does to the identities there are, their passwords among them, and which it adds: one table
    over requests and their answers, and every request of every kind obeys it. */
module AuthAccounts {
  import opened Text
  import opened AuthTables
  import opened AuthSpec
  import opened AuthInvariant
  import opened AuthHistory
  import opened AuthRuns
  import opened AuthGuarantees
  import opened AuthJourneys

  // ─── The table ─────────────────────────────────────────────────────────────

  /** A deleted user still holds this identity. */
  ghost predicate StaleHolder(db: Db, u: Id, provider: Provider, identifier: string) {
    !Live(db, u) && exists b :: IsAccount(db, b, provider, identifier) && db.accounts[b].userId == u
  }

  ghost predicate NobodyAtAddress(db: Db, email: string) {
    forall u :: !IsUserByEmail(db, u, email)
  }

  predicate IsEmailOf(row: Account, u: Id) {
    row.userId == u && row.provider == EMAIL
  }

  /** The identity `a` after an action of `actor`, by how it was answered. */
  function AccountAfterAction(row: Account, a: Id, actor: Id, action: Action, answer: Outcome): Option<Account> {
    match action
    case Change(_, password) =>
      Some(if answer.SessionStarted? && IsEmailOf(row, actor) then row.(passwordHash := Some(Bcrypt(password)))
           else row)
    case Unlink(_, target) => if answer == Done && a == target then None else Some(row)
    case DeleteMyself(_, _) => Some(if answer == Done && row.userId == actor then row.(passwordHash := None) else row)
    case AnonymiseUser(target, _) =>
      Some(if answer == Done && row.userId == target then row.(passwordHash := None) else row)
    case _ => Some(row)
  }

  /** The identity `a` after a request, by how it was answered. */
  ghost function AccountAfter(db: Db, now: Time, request: Request, answer: Outcome, a: Id): Option<Account>
    requires OwnersExist(db) && a in db.accounts
  {
    var row := db.accounts[a];
    match request
    case SignUp(rawEmail, _, _, dob, _) =>
      var email := Normalize(rawEmail);
      if Qualifies(dob, now) && NobodyAtAddress(db, email) && StaleHolder(db, row.userId, EMAIL, email) then None
      else Some(row)
    case ReturnFromGoogle(googleId, _, _, pending, _) =>
      if pending.Some? && StaleHolder(db, row.userId, GOOGLE, googleId) then None else Some(row)
    case Reset(t, password) =>
      Some(if answer == Done && t in db.tokens && IsEmailOf(row, db.tokens[t].userId)
           then row.(passwordHash := Some(Bcrypt(password))) else row)
    case ConfirmAddress(t) =>
      if answer != Done || t !in db.tokens || db.users[db.tokens[t].userId].pendingEmail.None? then Some(row)
      else
        var u, email := db.tokens[t].userId, db.users[db.tokens[t].userId].pendingEmail.value;
        if row.userId != u && StaleHolder(db, row.userId, EMAIL, email) then None
        else Some(if IsEmailOf(row, u) then row.(identifier := email) else row)
    case As(s, action) =>
      if s in db.sessions then AccountAfterAction(row, a, db.sessions[s].userId, action, answer) else Some(row)
    case _ => Some(row)
  }

  /** The request, so answered, adds this identity. */
  ghost predicate Adds(db: Db, request: Request, answer: Outcome, account: Account)
    requires OwnersExist(db)
  {
    match request
    case SignUp(rawEmail, password, _, _, _) =>
      answer == UserCreated(account.userId)
      && account == Account(account.userId, EMAIL, Normalize(rawEmail), Some(Bcrypt(password)))
    case ReturnFromGoogle(googleId, _, _, _, _) =>
      answer.SessionStarted? && answer.user !in db.users && account == Account(answer.user, GOOGLE, googleId, None)
    case LinkAccounts(t, _) =>
      answer.SessionStarted? && t in db.tokens && db.tokens[t].metadata.GoogleIdentity?
      && account == Account(db.tokens[t].userId, GOOGLE, db.tokens[t].metadata.googleId, None)
    case Reset(t, password) =>
      answer == Done && t in db.tokens && (forall a :: !IsEmailAccountOf(db, a, db.tokens[t].userId))
      && account == Account(db.tokens[t].userId, EMAIL, db.users[db.tokens[t].userId].email, Some(Bcrypt(password)))
    case _ => false
  }

  predicate Becomes(accounts: Accounts, a: Id, row: Option<Account>) {
    if a in accounts then row == Some(accounts[a]) else row.None?
  }

  predicate AddedAs(accounts: Accounts, accounts': Accounts, n: Id, account: Account) {
    && n !in accounts && n in accounts' && accounts'[n] == account
    && forall a :: a in accounts' ==> a in accounts || a == n
  }

  ghost predicate AccountsAfter(db: Db, now: Time, request: Request, r: Result)
    requires OwnersExist(db)
  {
    && (forall a :: a in db.accounts ==> Becomes(r.db.accounts, a, AccountAfter(db, now, request, r.outcome, a)))
    && (forall account :: Adds(db, request, r.outcome, account) ==>
          exists n :: AddedAs(db.accounts, r.db.accounts, n, account))
    && ((forall account :: !Adds(db, request, r.outcome, account)) ==>
          forall a :: a in r.db.accounts ==> a in db.accounts)
  }

  lemma AddedTable(db: Db, now: Time, request: Request, r: Result, n: Id, account: Account)
    requires OwnersExist(db) && AddedAs(db.accounts, r.db.accounts, n, account)
    requires forall a :: a in db.accounts ==> Becomes(r.db.accounts, a, AccountAfter(db, now, request, r.outcome, a))
    requires Adds(db, request, r.outcome, account)
    requires forall other :: Adds(db, request, r.outcome, other) ==> other == account
    ensures AccountsAfter(db, now, request, r)
  {
  }

  lemma KeptTable(db: Db, now: Time, request: Request, r: Result)
    requires OwnersExist(db) && r.db.accounts == db.accounts
    requires forall account :: !Adds(db, request, r.outcome, account)
    requires forall a :: a in db.accounts ==> AccountAfter(db, now, request, r.outcome, a) == Some(db.accounts[a])
    ensures AccountsAfter(db, now, request, r)
  {
  }

  lemma NothingAdded(db: Db, now: Time, request: Request, r: Result)
    requires OwnersExist(db) && (forall a :: a in r.db.accounts ==> a in db.accounts)
    requires forall account :: !Adds(db, request, r.outcome, account)
    requires forall a :: a in db.accounts ==> Becomes(r.db.accounts, a, AccountAfter(db, now, request, r.outcome, a))
    ensures AccountsAfter(db, now, request, r)
  {
  }

  lemma NextIsFree(db: Db)
    requires Inv(db)
    ensures db.next !in db.accounts && db.next + 1 !in db.accounts
  {
  }

  // ─── Signing up and in ─────────────────────────────────────────────────────

  /** Exactly the identities of the deleted user who holds this one are let go. */
  ghost predicate LetGo(db: Db, accounts': Accounts, provider: Provider, identifier: string) {
    && (forall a :: a in accounts' ==> a in db.accounts)
    && (forall a :: a in db.accounts ==>
          Becomes(accounts', a,
                  if StaleHolder(db, db.accounts[a].userId, provider, identifier) then None else Some(db.accounts[a])))
  }

  lemma HolderLetGo(db: Db, provider: Provider, identifier: string)
    requires IdentitiesUnique(db.accounts)
    ensures var claim := FindAuthAccount(db, provider, identifier);
      var released := if claim.Some? && !Live(db, db.accounts[claim.value].userId)
                      then ReleaseIdentityClaims(db, db.accounts[claim.value].userId) else db;
      LetGo(db, released.accounts, provider, identifier)
  {
    var claim := FindAuthAccount(db, provider, identifier);
    if claim.Some? {
      forall b | IsAccount(db, b, provider, identifier)
        ensures b == claim.value
      {
        FindsIdentity(db, b, provider, identifier);
      }
    }
  }

  lemma TurnedAway(
    db: Db, now: Time, rawEmail: string, password: string, username: string, dob: Option<Time>, known: bool, r: Result)
    requires r == Register(db, now, rawEmail, password, username, dob, known)
    ensures if !Qualifies(dob, now) || !NobodyAtAddress(db, Normalize(rawEmail))
      then r.outcome.Refused? && r.db == db
      else r.outcome.Refused? ==> r.db == ReleaseStaleClaim(db, Normalize(rawEmail))
  {
  }

  lemma RegisteredAccounts(
    db: Db, now: Time, rawEmail: string, password: string, username: string, dob: Option<Time>, known: bool, r: Result,
    released: Db)
    requires r == Register(db, now, rawEmail, password, username, dob, known)
    requires released == ReleaseStaleClaim(db, Normalize(rawEmail))
    ensures r.outcome.Refused?
      || (&& r.outcome == UserCreated(db.next)
          && var account := Account(db.next, EMAIL, Normalize(rawEmail), Some(Bcrypt(password)));
             r.db.accounts == released.accounts[db.next + 1 := account])
  {
    RegisterWrites(db, now, rawEmail, password, username, dob, known);
    ReleaseStaleClaimFrame(db, Normalize(rawEmail));
  }

  lemma RegisterTable(
    db: Db, now: Time, rawEmail: string, password: string, username: string, dob: Option<Time>, known: bool, r: Result,
    released: Accounts)
    requires OwnersExist(db) && db.next + 1 !in db.accounts
    requires Qualifies(dob, now) && NobodyAtAddress(db, Normalize(rawEmail))
    requires LetGo(db, released, EMAIL, Normalize(rawEmail))
    requires if r.outcome == UserCreated(db.next)
      then r.db.accounts
        == released[db.next + 1 := Account(db.next, EMAIL, Normalize(rawEmail), Some(Bcrypt(password)))]
      else r.outcome.Refused? && r.db.accounts == released
    ensures AccountsAfter(db, now, SignUp(rawEmail, password, username, dob, known), r)
  {
    var request := SignUp(rawEmail, password, username, dob, known);
    if r.outcome.Refused? {
      NothingAdded(db, now, request, r);
    } else {
      AddedTable(db, now, request, r, db.next + 1,
          Account(db.next, EMAIL, Normalize(rawEmail), Some(Bcrypt(password))));
    }
  }

  lemma TurnedAwayTable(
    db: Db, now: Time, rawEmail: string, password: string, username: string, dob: Option<Time>, known: bool, r: Result)
    requires OwnersExist(db) && (!Qualifies(dob, now) || !NobodyAtAddress(db, Normalize(rawEmail)))
    requires r.outcome.Refused? && r.db.accounts == db.accounts
    ensures AccountsAfter(db, now, SignUp(rawEmail, password, username, dob, known), r)
  {
    KeptTable(db, now, SignUp(rawEmail, password, username, dob, known), r);
  }

  lemma RegisterAccounts(
    db: Db, now: Time, rawEmail: string, password: string, username: string, dob: Option<Time>, known: bool, r: Result)
    requires Inv(db) && r == Register(db, now, rawEmail, password, username, dob, known)
    ensures AccountsAfter(db, now, SignUp(rawEmail, password, username, dob, known), r)
  {
    var email := Normalize(rawEmail);
    TurnedAway(db, now, rawEmail, password, username, dob, known, r);
    if !Qualifies(dob, now) || !NobodyAtAddress(db, email) {
      TurnedAwayTable(db, now, rawEmail, password, username, dob, known, r);
    } else {
      var released := ReleaseStaleClaim(db, email);
      NextIsFree(db);
      HolderLetGo(db, EMAIL, email);
      RegisteredAccounts(db, now, rawEmail, password, username, dob, known, r, released);
      RegisterTable(db, now, rawEmail, password, username, dob, known, r, released.accounts);
    }
  }

  /** What a sign-up by Google does to the identities, once a deleted holder's are let go. */
  predicate GoogleAdds(accounts: Accounts, r: Result, googleId: string, next: Id) {
    if r.outcome == SessionStarted(next, next + 2)
    then r.db.accounts == accounts[next + 1 := Account(next, GOOGLE, googleId, None)]
    else !r.outcome.SessionStarted? && r.db.accounts == accounts
  }

  lemma NewUserAdds(db: Db, now: Time, user: User, googleId: string, r: Result)
    requires r == Result(NewGoogleSession(db, user, googleId, now), SessionStarted(db.next, db.next + 2))
    ensures GoogleAdds(db.accounts, r, googleId, db.next)
  {
  }

  lemma SignupAdds(
    db: Db, now: Time, googleId: string, email: string, pending: Option<Id>, random: string, r: Result)
    requires r == GoogleSignup(db, now, googleId, email, pending, random)
    ensures GoogleAdds(db.accounts, r, googleId, db.next)
  {
    SignupRefused(db, now, googleId, email, pending, random, r);
    if r.outcome.SessionStarted? {
      SignupWrites(db, now, googleId, email, pending, random);
      var signup, consumed := db.pendings[pending.value], DeletePending(db, pending.value);
      NewUserAdds(consumed, now, NewGoogleUser(email, ClaimUsername(consumed, signup.username, random), signup.dob),
          googleId, r);
    }
  }

  lemma WithoutAccountAdds(
    db: Db, now: Time, googleId: string, rawEmail: string, verified: bool, pending: Option<Id>, random: string,
    r: Result)
    requires r == GoogleWithoutAccount(db, now, googleId, rawEmail, verified, pending, random)
    ensures GoogleAdds(db.accounts, r, googleId, db.next)
  {
    var existing := FindUserByEmail(db, Normalize(rawEmail));
    if existing.None? { SignupAdds(db, now, googleId, Normalize(rawEmail), pending, random, r); }
  }

  /** Coming back from Google: signed in and nothing changed, or refused at once, or the rest on the tables
      without the identities of a deleted holder. */
  lemma ReturnedAccounts(
    db: Db, now: Time, googleId: string, rawEmail: string, verified: bool, pending: Option<Id>, random: string,
    r: Result)
    requires r == GoogleLogin(db, now, googleId, rawEmail, verified, pending, random)
    ensures var account := FindAuthAccount(db, GOOGLE, googleId);
      if account.Some? && Live(db, db.accounts[account.value].userId)
      then r.db.accounts == db.accounts && (r.outcome.SessionStarted? ==> r.outcome.user in db.users)
      else if account.Some? && pending.None? then r.db.accounts == db.accounts && r.outcome.Refused?
      else
        var released := if account.Some? then ReleaseIdentityClaims(db, db.accounts[account.value].userId) else db;
        GoogleAdds(released.accounts, r, googleId, db.next)
  {
    var account := FindAuthAccount(db, GOOGLE, googleId);
    if account.None? {
      WithoutAccountAdds(db, now, googleId, rawEmail, verified, pending, random, r);
    } else if !Live(db, db.accounts[account.value].userId) && pending.Some? {
      var released := ReleaseIdentityClaims(db, db.accounts[account.value].userId);
      WithoutAccountAdds(released, now, googleId, rawEmail, verified, pending, random, r);
    }
  }

  lemma ReturnTable(
    db: Db, now: Time, googleId: string, rawEmail: string, verified: bool, pending: Option<Id>, random: string,
    r: Result, released: Accounts)
    requires OwnersExist(db) && db.next !in db.users && db.next + 1 !in db.accounts
    requires LetGo(db, released, GOOGLE, googleId)
    requires pending.None? ==> forall a :: !IsAccount(db, a, GOOGLE, googleId)
    requires GoogleAdds(released, r, googleId, db.next)
    ensures AccountsAfter(db, now, ReturnFromGoogle(googleId, rawEmail, verified, pending, random), r)
  {
    var request := ReturnFromGoogle(googleId, rawEmail, verified, pending, random);
    if r.outcome.SessionStarted? {
      AddedTable(db, now, request, r, db.next + 1, Account(db.next, GOOGLE, googleId, None));
    } else {
      NothingAdded(db, now, request, r);
    }
  }

  lemma HolderIsOne(db: Db, a: Id, googleId: string, u: Id)
    requires IdentitiesUnique(db.accounts) && IsAccount(db, a, GOOGLE, googleId)
    ensures StaleHolder(db, u, GOOGLE, googleId) <==> !Live(db, u) && u == db.accounts[a].userId
  {
  }

  lemma StayingTable(
    db: Db, now: Time, googleId: string, rawEmail: string, verified: bool, pending: Option<Id>, random: string,
    r: Result, a: Id)
    requires Inv(db) && IsAccount(db, a, GOOGLE, googleId) && r.db.accounts == db.accounts
    requires Live(db, db.accounts[a].userId) || pending.None?
    requires r.outcome.SessionStarted? ==> r.outcome.user in db.users
    ensures AccountsAfter(db, now, ReturnFromGoogle(googleId, rawEmail, verified, pending, random), r)
  {
    forall u
      ensures StaleHolder(db, u, GOOGLE, googleId) <==> !Live(db, u) && u == db.accounts[a].userId
    {
      HolderIsOne(db, a, googleId, u);
    }
    KeptTable(db, now, ReturnFromGoogle(googleId, rawEmail, verified, pending, random), r);
  }

  lemma UsersBelow(db: Db)
    requires Inv(db)
    ensures db.next !in db.users
  {
  }

  lemma ReturnAccounts(
    db: Db, now: Time, googleId: string, rawEmail: string, verified: bool, pending: Option<Id>, random: string,
    r: Result)
    requires Inv(db) && r == GoogleLogin(db, now, googleId, rawEmail, verified, pending, random)
    ensures AccountsAfter(db, now, ReturnFromGoogle(googleId, rawEmail, verified, pending, random), r)
  {
    var account := FindAuthAccount(db, GOOGLE, googleId);
    ReturnedAccounts(db, now, googleId, rawEmail, verified, pending, random, r);
    if account.Some? && (Live(db, db.accounts[account.value].userId) || pending.None?) {
      StayingTable(db, now, googleId, rawEmail, verified, pending, random, r, account.value);
    } else {
      var released := if account.Some? then ReleaseIdentityClaims(db, db.accounts[account.value].userId) else db;
      NextIsFree(db);
      UsersBelow(db);
      HolderLetGo(db, GOOGLE, googleId);
      ReturnTable(db, now, googleId, rawEmail, verified, pending, random, r, released.accounts);
    }
  }

  lemma LinkedAccounts(db: Db, now: Time, t: Id, password: string, r: Result)
    requires OwnersExist(db) && r == LinkGoogle(db, now, t, password)
    ensures (r.outcome.Refused? && r.db == db)
      || (&& t in db.tokens && db.tokens[t].metadata.GoogleIdentity? && r.outcome.SessionStarted?
          && r.db.accounts
               == db.accounts[db.next := Account(db.tokens[t].userId, GOOGLE, db.tokens[t].metadata.googleId, None)])
  {
    LinkGoogleWrites(db, now, t, password);
  }

  lemma LinkTable(db: Db, now: Time, t: Id, password: string, r: Result)
    requires OwnersExist(db) && db.next !in db.accounts
    requires (r.outcome.Refused? && r.db == db)
      || (&& t in db.tokens && db.tokens[t].metadata.GoogleIdentity? && r.outcome.SessionStarted?
          && r.db.accounts
               == db.accounts[db.next := Account(db.tokens[t].userId, GOOGLE, db.tokens[t].metadata.googleId, None)])
    ensures AccountsAfter(db, now, LinkAccounts(t, password), r)
  {
    if r.outcome.Refused? {
      KeptTable(db, now, LinkAccounts(t, password), r);
    } else {
      AddedTable(db, now, LinkAccounts(t, password), r, db.next,
          Account(db.tokens[t].userId, GOOGLE, db.tokens[t].metadata.googleId, None));
    }
  }

  // ─── By link ───────────────────────────────────────────────────────────────

  /** What a reset of the password of `u` does to the identities. */
  predicate PasswordSet(accounts: Accounts, accounts': Accounts, u: Id, email: string, password: string, next: Id) {
    if exists a :: a in accounts && IsEmailOf(accounts[a], u)
    then
      && (forall a :: a in accounts' ==> a in accounts)
      && (forall a :: a in accounts ==>
            && a in accounts'
            && accounts'[a] == if IsEmailOf(accounts[a], u) then accounts[a].(passwordHash := Some(Bcrypt(password)))
                               else accounts[a])
    else accounts' == accounts[next := Account(u, EMAIL, email, Some(Bcrypt(password)))]
  }

  lemma ResetAccounts(db: Db, now: Time, t: Id, password: string, r: Result)
    requires OwnersExist(db) && OneEmailAccountEach(db.accounts) && r == ResetPassword(db, now, t, password)
    ensures (r.outcome.Refused? && r.db == db)
      || (&& r.outcome == Done && t in db.tokens
          && var u := db.tokens[t].userId;
             PasswordSet(db.accounts, r.db.accounts, u, db.users[u].email, password, db.next))
  {
    ResetPasswordWrites(db, now, t, password);
    if r.outcome == Done { StoredAccounts(db, t, password); }
  }

  lemma StoredAccounts(db: Db, t: Id, password: string)
    requires OneEmailAccountEach(db.accounts) && t in db.tokens && db.tokens[t].userId in db.users
    ensures var u := db.tokens[t].userId;
      PasswordSet(db.accounts, PasswordStored(db, t, password).accounts, u, db.users[u].email, password, db.next)
  {
    var u := db.tokens[t].userId;
    var account := FindEmailAccountByUserId(db, u);
    if a :| a in db.accounts && IsEmailOf(db.accounts[a], u) { assert IsEmailAccountOf(db, a, u); }
    if account.Some? { assert IsEmailOf(db.accounts[account.value], u); }
  }

  lemma ResetTable(db: Db, now: Time, t: Id, password: string, r: Result)
    requires OwnersExist(db) && db.next !in db.accounts
    requires (r.outcome.Refused? && r.db == db)
      || (&& r.outcome == Done && t in db.tokens
          && var u := db.tokens[t].userId;
             PasswordSet(db.accounts, r.db.accounts, u, db.users[u].email, password, db.next))
    ensures AccountsAfter(db, now, Reset(t, password), r)
  {
    if r.outcome == Done {
      var u := db.tokens[t].userId;
      if a :| a in db.accounts && IsEmailOf(db.accounts[a], u) {
        assert IsEmailAccountOf(db, a, u);
        NothingAdded(db, now, Reset(t, password), r);
      } else {
        AddedTable(db, now, Reset(t, password), r, db.next,
            Account(u, EMAIL, db.users[u].email, Some(Bcrypt(password))));
      }
    } else {
      KeptTable(db, now, Reset(t, password), r);
    }
  }

  lemma ConfirmedAccounts(db: Db, now: Time, t: Id, r: Result)
    requires Inv(db) && r == ConfirmEmailChange(db, now, t)
    ensures (r.outcome.Refused? && r.db == db)
      || (&& r.outcome == Done && t in db.tokens && db.users[db.tokens[t].userId].pendingEmail.Some?
          && var u, email := db.tokens[t].userId, db.users[db.tokens[t].userId].pendingEmail.value;
             && !LiveClaimByOther(db, u, email)
             && r.db.accounts == Renamed(ReleaseOtherClaim(db, u, email).accounts, u, email))
  {
    ConfirmEmailChangeWrites(db, now, t);
  }

  /** The identities after a move of `u` to the address: another holder's, deleted, are let go, and `u`'s EMAIL
      identity is at the address. */
  lemma MovedAccounts(db: Db, u: Id, email: string, a: Id)
    requires IdentitiesUnique(db.accounts) && !LiveClaimByOther(db, u, email) && a in db.accounts
    ensures var row, moved := db.accounts[a], Renamed(ReleaseOtherClaim(db, u, email).accounts, u, email);
      && (forall b :: b in moved ==> b in db.accounts)
      && Becomes(moved, a,
                 if row.userId != u && StaleHolder(db, row.userId, EMAIL, email) then None
                 else Some(if IsEmailOf(row, u) then row.(identifier := email) else row))
  {
    var claim := FindAuthAccount(db, EMAIL, email);
    if claim.Some? {
      forall b | IsAccount(db, b, EMAIL, email)
        ensures b == claim.value
      {
        FindsIdentity(db, b, EMAIL, email);
      }
    }
  }

  lemma ConfirmTable(db: Db, now: Time, t: Id, r: Result)
    requires OwnersExist(db) && IdentitiesUnique(db.accounts)
    requires (r.outcome.Refused? && r.db == db)
      || (&& r.outcome == Done && t in db.tokens && db.users[db.tokens[t].userId].pendingEmail.Some?
          && var u, email := db.tokens[t].userId, db.users[db.tokens[t].userId].pendingEmail.value;
             && !LiveClaimByOther(db, u, email)
             && r.db.accounts == Renamed(ReleaseOtherClaim(db, u, email).accounts, u, email))
    ensures AccountsAfter(db, now, ConfirmAddress(t), r)
  {
    if r.outcome == Done {
      var u, email := db.tokens[t].userId, db.users[db.tokens[t].userId].pendingEmail.value;
      forall a | a in db.accounts
        ensures Becomes(r.db.accounts, a, AccountAfter(db, now, ConfirmAddress(t), r.outcome, a))
      {
        MovedAccounts(db, u, email, a);
      }
      NothingAdded(db, now, ConfirmAddress(t), r);
    } else {
      KeptTable(db, now, ConfirmAddress(t), r);
    }
  }

  lemma UntouchedAccounts(db: Db, now: Time, request: Request, r: Result)
    requires OwnersExist(db) && r == Step(db, now, request)
    requires request.SignIn? || request.BeginGoogle? || request.Verify? || request.ResendLink? || request.Forgot?
      || ByJob(request)
    ensures r.db.accounts == db.accounts
  {
  }

  // ─── Actions on a session ──────────────────────────────────────────────────

  ghost predicate ActionLeaves(accounts: Accounts, actor: Id, action: Action, r: Result) {
    && (forall a :: a in r.db.accounts ==> a in accounts)
    && (forall a :: a in accounts ==>
          Becomes(r.db.accounts, a, AccountAfterAction(accounts[a], a, actor, action, r.outcome)))
  }

  lemma OtherActions(db: Db, now: Time, u: Id, s: Id, action: Action, r: Result)
    requires u in db.users && r == Act(db, now, u, s, action)
    requires !action.Change? && !action.Unlink? && !action.DeleteMyself? && !action.AnonymiseUser?
    ensures r.db.accounts == db.accounts
  {
  }

  lemma ChangeLeaves(db: Db, now: Time, u: Id, current: string, password: string, r: Result)
    requires OneEmailAccountEach(db.accounts) && r == ChangePassword(db, now, u, current, password)
    ensures ActionLeaves(db.accounts, u, Change(current, password), r)
  {
  }

  lemma UnlinkLeaves(db: Db, u: Id, provider: Provider, target: Id, r: Result)
    requires r == Disconnect(db, u, provider, target)
    ensures ActionLeaves(db.accounts, u, Unlink(provider, target), r)
  {
  }

  /** Refused, nothing is written; done, the passwords of `u` are gone and nothing else. */
  lemma GoneAccounts(db: Db, u: Id, p: Pseudonym, r: Result)
    requires u in db.users && r == AnonymiseAccount(db, u, p)
    ensures (r.outcome.Refused? && r.db == db) || (r.outcome == Done && PasswordsGone(db.accounts, u, r.db.accounts))
  {
  }

  predicate PasswordsGone(accounts: Accounts, u: Id, accounts': Accounts) {
    && (forall a :: a in accounts' ==> a in accounts)
    && (forall a :: a in accounts ==>
          && a in accounts'
          && accounts'[a] == if accounts[a].userId == u then accounts[a].(passwordHash := None) else accounts[a])
  }

  lemma DeleteMyselfAccounts(db: Db, now: Time, u: Id, s: Id, proof: Option<string>, p: Pseudonym, r: Result)
    requires u in db.users && r == SelfDelete(db, now, u, s, proof, p)
    ensures (r.outcome.Refused? && r.db.accounts == db.accounts)
      || (r.outcome == Done && PasswordsGone(db.accounts, u, r.db.accounts))
  {
    var proved := AssertRecentlyAuthenticated(db, now, u, s, proof);
    ProofWrites(db, now, u, s, proof);
    if proved.outcome == Done { GoneAccounts(proved.db, u, p, r); }
  }

  lemma AnonymiseUserAccounts(db: Db, u: Id, target: Id, p: Pseudonym, r: Result)
    requires r == Anonymise(db, u, target, p)
    ensures (r.outcome.Refused? && r.db.accounts == db.accounts)
      || (r.outcome == Done && PasswordsGone(db.accounts, target, r.db.accounts))
  {
    if target in db.users { GoneAccounts(db, target, p, AnonymiseAccount(db, target, p)); }
  }

  lemma DeletionLeaves(accounts: Accounts, u: Id, action: Action, target: Id, r: Result)
    requires (action.DeleteMyself? && target == u) || (action.AnonymiseUser? && action.target == target)
    requires (r.outcome.Refused? && r.db.accounts == accounts)
      || (r.outcome == Done && PasswordsGone(accounts, target, r.db.accounts))
    ensures ActionLeaves(accounts, u, action, r)
  {
  }

  lemma ActLeaves(db: Db, now: Time, u: Id, s: Id, action: Action, r: Result)
    requires OneEmailAccountEach(db.accounts) && u in db.users && r == Act(db, now, u, s, action)
    ensures ActionLeaves(db.accounts, u, action, r)
  {
    match action
    case Change(current, password) => ChangeLeaves(db, now, u, current, password, r);
    case Unlink(provider, target) => UnlinkLeaves(db, u, provider, target, r);
    case DeleteMyself(proof, p) =>
      DeleteMyselfAccounts(db, now, u, s, proof, p, r);
      DeletionLeaves(db.accounts, u, action, u, r);
    case AnonymiseUser(target, p) =>
      AnonymiseUserAccounts(db, u, target, p, r);
      DeletionLeaves(db.accounts, u, action, target, r);
    case _ => OtherActions(db, now, u, s, action, r);
  }

  lemma SignedInTable(db: Db, now: Time, s: Id, action: Action, r: Result)
    requires OwnersExist(db) && s in db.sessions && ActionLeaves(db.accounts, db.sessions[s].userId, action, r)
    ensures AccountsAfter(db, now, As(s, action), r)
  {
    NothingAdded(db, now, As(s, action), r);
  }

  lemma UnadmittedTable(db: Db, now: Time, s: Id, action: Action, r: Result)
    requires OwnersExist(db) && r.db.accounts == db.accounts && r.outcome.Refused?
    ensures AccountsAfter(db, now, As(s, action), r)
  {
    KeptTable(db, now, As(s, action), r);
  }

  lemma ActAsAccounts(db: Db, now: Time, s: Id, action: Action, r: Result)
    requires OwnersExist(db) && OneEmailAccountEach(db.accounts) && r == ActAs(db, now, s, action)
    ensures AccountsAfter(db, now, As(s, action), r)
  {
    var valid := ValidateSession(db, now, s).db;
    ActAsIs(db, now, s, action);
    assert valid.accounts == db.accounts;
    if Admitted(db, now, s) {
      ActLeaves(valid, now, db.sessions[s].userId, s, action, r);
      SignedInTable(db, now, s, action, r);
    } else {
      UnadmittedTable(db, now, s, action, r);
    }
  }

  // ─── Any request ───────────────────────────────────────────────────────────

  lemma UntouchedTable(db: Db, now: Time, request: Request, r: Result)
    requires OwnersExist(db) && r.db.accounts == db.accounts
    requires request.SignIn? || request.BeginGoogle? || request.Verify? || request.ResendLink? || request.Forgot?
      || ByJob(request)
    ensures AccountsAfter(db, now, request, r)
  {
    KeptTable(db, now, request, r);
  }

  /** Whatever the request and however it is answered: every identity there was is afterwards what the table
      says, and at most one is new, whose and with what the table says as well. */
  lemma StepAccounts(db: Db, now: Time, request: Request)
    requires Inv(db)
    ensures AccountsAfter(db, now, request, Step(db, now, request))
  {
    var r := Step(db, now, request);
    match request
    case SignUp(rawEmail, password, username, dob, known) =>
      RegisterAccounts(db, now, rawEmail, password, username, dob, known, r);
    case ReturnFromGoogle(googleId, rawEmail, verified, pending, random) =>
      ReturnAccounts(db, now, googleId, rawEmail, verified, pending, random, r);
    case LinkAccounts(t, password) =>
      NextIsFree(db);
      LinkedAccounts(db, now, t, password, r);
      LinkTable(db, now, t, password, r);
    case Reset(t, password) =>
      NextIsFree(db);
      ResetAccounts(db, now, t, password, r);
      ResetTable(db, now, t, password, r);
    case ConfirmAddress(t) =>
      ConfirmedAccounts(db, now, t, r);
      ConfirmTable(db, now, t, r);
    case As(s, action) =>
      AsIsActAs(db, now, s, action);
      ActAsAccounts(db, now, s, action, r);
    case _ =>
      UntouchedAccounts(db, now, request, r);
      UntouchedTable(db, now, request, r);
  }
}
