/** Runs from the empty store that end in each of the rare answers the other modules say when to expect. */
module AuthEdges {
  import opened Text
  import opened AuthTables
  import opened AuthSpec
  import opened AuthRuns
  import opened AdminUsers
  import Age

  /** Who the runs are about: anybody old enough, at any ordinary address, with any password that is not
      empty; the moment it all happens at; and the pseudonym the account goes under once deleted. */
  datatype Person = Person(email: string, password: string, dob: Time, today: Time, p: Pseudonym)

  predicate Ordinary(who: Person) {
    Normal(who.email) && who.email != "" && who.password != "" && who.email != PseudonymEmail(who.p)
  }

  predicate OldEnough(who: Person) {
    0 <= who.today && Qualifies(Some(who.dob), who.today)
  }

  /** There are such people: born on 1 January 1970, on 1 January 2020. */
  lemma SomebodyIs(who: Person)
    requires who.email == "m" && who.password != "" && who.p.shortId == "0"
    requires 0 <= who.dob < 86_400_000 && 18262 * 86_400_000 <= who.today < 18263 * 86_400_000
    ensures Ordinary(who) && OldEnough(who) && Normal(PseudonymEmail(who.p))
  {
    var reserved := PseudonymEmail(who.p);
    TrimTrims("m");
    assert Lower("m") == "m";
    TrimTrims(reserved);
    assert Lower(reserved) == reserved;
    Age.BornIn1970(who.dob, who.today);
  }

  function Runs(who: Person, requests: seq<Request>): (run: seq<Event>)
    ensures |run| == |requests|
    ensures forall i :: 0 <= i < |run| ==> run[i] == Event(who.today, requests[i])
  {
    seq(|requests|, i requires 0 <= i < |requests| => Event(who.today, requests[i]))
  }

  lemma RunsInOrder(who: Person, requests: seq<Request>)
    requires 0 <= who.today
    ensures InOrder(Runs(who, requests))
  {
  }

  lemma NormalIsTrimmed(email: string)
    requires Normal(email)
    ensures Trim(email) == email
  {
    TrimTrims(email);
    assert Trimmed(Lower(Trim(email)));
  }

  // ─── The states passed through ─────────────────────────────────────────────

  function Member(who: Person, verified: bool, roles: set<Role>, pending: Option<string>): User {
    User(who.email, "a", pending, Some(who.dob), verified, false, false, roles)
  }

  function Link(who: Person, used: bool): Token {
    Token(0, EMAIL_VERIFICATION, NoMetadata, who.today + VERIFICATION_TOKEN_TTL, used)
  }

  /** One user, number 0, with one EMAIL account, number 1. */
  function One(
    who: Person, user: User, hash: Option<PasswordHash>, sessions: map<Id, Session>, tokens: Tokens, next: Id): Db {
    Db(map[0 := user], map[1 := Account(0, EMAIL, who.email, hash)], sessions, tokens, map[], map[], next)
  }

  function Registered(who: Person): Db {
    One(who, Member(who, false, {VRATARTHI}, None), Some(Bcrypt(who.password)), map[], map[2 := Link(who, false)], 3)
  }

  function Verified(who: Person, roles: set<Role>): Db {
    One(who, Member(who, true, roles, None), Some(Bcrypt(who.password)), map[], map[2 := Link(who, true)], 3)
  }

  function SignedIn(who: Person, roles: set<Role>): Db {
    One(who, Member(who, true, roles, None), Some(Bcrypt(who.password)),
        map[3 := NewSession(0, who.today)], map[2 := Link(who, true)], 4)
  }

  function Asked(who: Person, other: string): Db {
    var token := NewToken(0, EMAIL_CHANGE, NewEmail(other), who.today + PASSWORD_RESET_TOKEN_TTL);
    One(who, Member(who, true, {VRATARTHI}, Some(other)), Some(Bcrypt(who.password)),
        map[3 := NewSession(0, who.today)], map[2 := Link(who, true), 4 := token], 5)
  }

  function Gone(who: Person, before: Db): Db
    requires 0 in before.users
  {
    One(who, Anonymous(before.users[0], who.p), None, map[], before.tokens, before.next)
  }

  // ─── The steps between them ────────────────────────────────────────────────

  /** Registering where neither the address nor the name is in use. */
  lemma SignUpIs(
    db: Db, now: Time, email: string, password: string, username: string, dob: Option<Time>)
    requires Normal(email) && Qualifies(dob, now) && FindAuthAccount(db, EMAIL, email).None?
    requires !EmailInUse(db, email) && !UsernameInUse(db, username)
    ensures Register(db, now, email, password, username, dob, true)
      == Result(InsertToken(InsertUser(db, NewEmailUser(email, username, dob), EMAIL, email, Some(Bcrypt(password))),
                            NewToken(db.next, EMAIL_VERIFICATION, NoMetadata, now + VERIFICATION_TOKEN_TTL)),
                UserCreated(db.next))
  {
    assert FindUserByEmail(db, email).None?;
  }

  lemma FirstInserted(who: Person, db: Db)
    requires db == EMPTY_DB
    ensures var user := NewEmailUser(who.email, "a", Some(who.dob));
      InsertToken(InsertUser(db, user, EMAIL, who.email, Some(Bcrypt(who.password))),
                  NewToken(db.next, EMAIL_VERIFICATION, NoMetadata, who.today + VERIFICATION_TOKEN_TTL))
      == Registered(who)
  {
  }

  lemma NobodyYet(who: Person, db: Db)
    requires db == EMPTY_DB
    ensures FindAuthAccount(db, EMAIL, who.email).None? && !EmailInUse(db, who.email) && !UsernameInUse(db, "a")
  {
  }

  lemma SignUpStep(who: Person, db: Db)
    requires Ordinary(who) && OldEnough(who) && db == EMPTY_DB
    ensures Register(db, who.today, who.email, who.password, "a", Some(who.dob), true)
      == Result(Registered(who), UserCreated(0))
  {
    NobodyYet(who, db);
    FirstInserted(who, db);
    SignUpIs(db, who.today, who.email, who.password, "a", Some(who.dob));
  }

  lemma VerifyStep(who: Person)
    ensures OwnersExist(Registered(who))
    ensures VerifyEmail(Registered(who), who.today, 2) == Result(Verified(who, {VRATARTHI}), Done)
  {
    var db := Registered(who);
    assert VerifyEmail(db, who.today, 2).db.users == Verified(who, {VRATARTHI}).users;
    assert VerifyEmail(db, who.today, 2).db.tokens == Verified(who, {VRATARTHI}).tokens;
  }

  lemma SignInStep(who: Person, roles: set<Role>)
    requires Ordinary(who)
    ensures Login(Verified(who, roles), who.today, who.email, who.password)
      == Result(SignedIn(who, roles), SessionStarted(0, 3))
  {
    var db := Verified(who, roles);
    assert IsUserByEmail(db, 0, who.email);
    assert IsEmailAccountOf(db, 1, 0);
    assert FindUserByEmail(db, who.email) == Some(0);
    assert FindEmailAccountByUserId(db, 0) == Some(1);
    assert db.lockouts - {who.email} == map[];
  }

  lemma ExtendStep(who: Person, db: Db, user: User)
    requires db.users == map[0 := user] && db.sessions == map[3 := NewSession(0, who.today)] && !user.deleted
    requires !user.suspended
    requires OwnersExist(db)
    ensures ValidateSession(db, who.today, 3) == Result(db, SessionValid(0))
  {
    assert SetSession(db, 3, NewSession(0, who.today)).sessions == db.sessions;
  }

  lemma SignedInAct(db: Db, now: Time, s: Id, u: Id, action: Action)
    requires OwnersExist(db) && u in db.users && ValidateSession(db, now, s) == Result(db, SessionValid(u))
    ensures ActAs(db, now, s, action) == Act(db, now, u, s, action)
  {
  }

  lemma RightProof(who: Person, db: Db)
    requires Ordinary(who) && db.accounts == map[1 := Account(0, EMAIL, who.email, Some(Bcrypt(who.password)))]
    ensures AssertRecentlyAuthenticated(db, who.today, 0, 3, Some(who.password)) == Result(db, Done)
  {
    assert IsEmailAccountOf(db, 1, 0);
  }

  lemma DeleteStep(who: Person, db: Db, user: User)
    requires Ordinary(who) && !user.deleted && !user.suspended
    requires db == One(who, user, Some(Bcrypt(who.password)), map[3 := NewSession(0, who.today)], db.tokens, db.next)
    requires OwnersExist(db)
    ensures ActAs(db, who.today, 3, DeleteMyself(Some(who.password), who.p)) == Result(Gone(who, db), Done)
  {
    ExtendStep(who, db, user);
    SignedInAct(db, who.today, 3, 0, Delete(who).action);
    RightProof(who, db);
    var r := AnonymiseAccount(db, 0, who.p);
    assert r.outcome == Done;
    assert r.db.users == Gone(who, db).users;
    assert r.db.accounts == Gone(who, db).accounts;
    assert r.db.sessions == map[];
  }

  /** One request of a run, given where the run has come to. */
  lemma Reached(who: Person, requests: seq<Request>, k: nat, request: Request, db: Db, db': Db, outcome: Outcome)
    requires k < |requests| && requests[k] == request && After(Runs(who, requests)[..k]) == db && OwnersExist(db)
    requires Step(db, who.today, request) == Result(db', outcome)
    ensures After(Runs(who, requests)[..k + 1]) == db' && Answer(Runs(who, requests), k) == outcome
  {
    AfterOneMore(Runs(who, requests), k);
  }

  // ─── Joining, with or without the role ─────────────────────────────────────

  function Join(who: Person): Request {
    SignUp(who.email, who.password, "a", Some(who.dob), true)
  }

  function Delete(who: Person): Request {
    As(3, DeleteMyself(Some(who.password), who.p))
  }

  lemma Joined(who: Person, requests: seq<Request>)
    requires Ordinary(who) && OldEnough(who) && |requests| >= 1 && requests[0] == Join(who)
    ensures After(Runs(who, requests)[..1]) == Registered(who)
  {
    var run := Runs(who, requests);
    AfterNone(run);
    SignUpStep(who, EMPTY_DB);
    Reached(who, requests, 0, Join(who), EMPTY_DB, Registered(who), UserCreated(0));
  }

  lemma JoinedAndVerified(who: Person, requests: seq<Request>)
    requires Ordinary(who) && OldEnough(who) && |requests| >= 2 && requests[0] == Join(who) && requests[1] == Verify(2)
    ensures After(Runs(who, requests)[..2]) == Verified(who, {VRATARTHI})
  {
    Joined(who, requests);
    VerifyStep(who);
    Reached(who, requests, 1, Verify(2), Registered(who), Verified(who, {VRATARTHI}), Done);
  }

  predicate Entering(who: Person, requests: seq<Request>) {
    && |requests| >= 3 && requests[0] == Join(who) && requests[1] == Verify(2)
    && requests[2] == SignIn(who.email, who.password)
  }

  lemma Entered(who: Person, requests: seq<Request>)
    requires Ordinary(who) && OldEnough(who) && Entering(who, requests)
    ensures After(Runs(who, requests)[..3]) == SignedIn(who, {VRATARTHI})
  {
    JoinedAndVerified(who, requests);
    SignInStep(who, {VRATARTHI});
    Reached(who, requests, 2, SignIn(who.email, who.password), Verified(who, {VRATARTHI}), SignedIn(who, {VRATARTHI}),
        SessionStarted(0, 3));
  }

  // ─── The last administrator leaves ─────────────────────────────────────────

  lemma BootstrapStep(who: Person)
    requires Ordinary(who)
    ensures GrantAdmin(Verified(who, {VRATARTHI}), who.email, false) == Result(Verified(who, {VRATARTHI, ADMIN}), Done)
  {
    NormalIsTrimmed(who.email);
    var db := Verified(who, {VRATARTHI});
    assert HolderOf(db, who.email) == Some(0) by { assert 0 in db.users && db.users[0].email == who.email; }
    assert db.users[0].roles + {ADMIN} == {VRATARTHI, ADMIN};
  }

  lemma GrantIsStep(db: Db, now: Time, email: string, allowUnverified: bool)
    requires OwnersExist(db)
    ensures Step(db, now, Bootstrap(email, allowUnverified)) == GrantAdmin(db, email, allowUnverified)
  {
  }

  predicate Reign(who: Person, requests: seq<Request>) {
    && |requests| == 5 && requests[0] == Join(who) && requests[1] == Verify(2)
    && requests[2] == Bootstrap(who.email, false) && requests[3] == SignIn(who.email, who.password)
    && requests[4] == Delete(who)
  }

  lemma GrantReached(who: Person, requests: seq<Request>, k: nat, db: Db, db': Db)
    requires Ordinary(who) && k < |requests| && requests[k] == Bootstrap(who.email, false)
    requires db == Verified(who, {VRATARTHI}) && db' == Verified(who, {VRATARTHI, ADMIN})
    requires After(Runs(who, requests)[..k]) == db
    ensures After(Runs(who, requests)[..k + 1]) == db'
  {
    BootstrapStep(who);
    GrantIsStep(db, who.today, who.email, false);
    Reached(who, requests, k, Bootstrap(who.email, false), db, db', Done);
  }

  lemma Crowned(who: Person, requests: seq<Request>)
    requires Ordinary(who) && OldEnough(who) && Reign(who, requests)
    ensures After(Runs(who, requests)[..3]) == Verified(who, {VRATARTHI, ADMIN})
  {
    var db, crowned := Verified(who, {VRATARTHI}), Verified(who, {VRATARTHI, ADMIN});
    JoinedAndVerified(who, requests);
    GrantReached(who, requests, 2, db, crowned);
  }

  lemma Reigns(who: Person, requests: seq<Request>)
    requires Ordinary(who) && OldEnough(who) && Reign(who, requests)
    ensures After(Runs(who, requests)[..4]) == SignedIn(who, {VRATARTHI, ADMIN})
  {
    var roles := {VRATARTHI, ADMIN};
    Crowned(who, requests);
    SignInStep(who, roles);
    Reached(who, requests, 3, SignIn(who.email, who.password), Verified(who, roles), SignedIn(who, roles),
        SessionStarted(0, 3));
  }

  /** Deleting the account, wherever in a run the user is signed in. */
  lemma Deleted(who: Person, requests: seq<Request>, k: nat, db: Db, user: User)
    requires Ordinary(who) && k < |requests| && requests[k] == Delete(who) && !user.deleted && !user.suspended
    requires db == One(who, user, Some(Bcrypt(who.password)), map[3 := NewSession(0, who.today)], db.tokens, db.next)
    requires OwnersExist(db) && After(Runs(who, requests)[..k]) == db
    ensures After(Runs(who, requests)[..k + 1]) == Gone(who, db) && Answer(Runs(who, requests), k) == Done
  {
    DeleteStep(who, db, user);
    Reached(who, requests, k, Delete(who), db, Gone(who, db), Done);
  }

  lemma Abdicates(who: Person, requests: seq<Request>)
    requires Ordinary(who) && OldEnough(who) && Reign(who, requests)
    ensures var run, db := Runs(who, requests), SignedIn(who, {VRATARTHI, ADMIN});
      After(run[..4]) == db && After(run[..5]) == Gone(who, db) && Answer(run, 4) == Done
  {
    var db := SignedIn(who, {VRATARTHI, ADMIN});
    Reigns(who, requests);
    Deleted(who, requests, 4, db, db.users[0]);
  }

  /** It happens: whoever is the one administrator may delete the account, and then there is none. */
  lemma LastAdminMayLeave(who: Person, requests: seq<Request>)
    requires Ordinary(who) && OldEnough(who) && Reign(who, requests)
    ensures var run := Runs(who, requests);
      && InOrder(run) && AdminExists(After(run[..4]))
      && Answer(run, 4) == Done && !AdminExists(After(run[..5]))
  {
    RunsInOrder(who, requests);
    Abdicates(who, requests);
    assert ActiveAdmin(SignedIn(who, {VRATARTHI, ADMIN}), 0);
  }

  // ─── A token outlives what it is for ───────────────────────────────────────

  lemma AskStep(who: Person, other: string)
    requires Ordinary(who) && Normal(other) && other != who.email
    ensures var db := SignedIn(who, {VRATARTHI});
      RequestEmailChange(db, who.today, 0, 3, other, Some(who.password)) == Result(Asked(who, other), Done)
  {
    var db := SignedIn(who, {VRATARTHI});
    RightProof(who, db);
    NormalizeIdempotent(who.email);
    assert FindAuthAccount(db, EMAIL, other).None?;
    var asked := SetUser(db, 0, db.users[0].(pendingEmail := Some(other)));
    assert asked.users == Asked(who, other).users;
    assert Spent(asked.tokens, 0, EMAIL_CHANGE) == asked.tokens;
  }

  predicate Abandon(who: Person, other: string, requests: seq<Request>) {
    && |requests| == 5 && Entering(who, requests)
    && requests[3] == As(3, AskForNewEmail(other, Some(who.password))) && requests[4] == Delete(who)
  }

  lemma SignedInAsk(db: Db, now: Time, s: Id, u: Id, newEmail: string, proof: Option<string>, r: Result)
    requires OwnersExist(db) && u in db.users && ValidateSession(db, now, s) == Result(db, SessionValid(u))
    requires RequestEmailChange(db, now, u, s, newEmail, proof) == r
    ensures ActAs(db, now, s, AskForNewEmail(newEmail, proof)) == r
  {
  }

  lemma Extended(who: Person, db: Db)
    requires db == SignedIn(who, {VRATARTHI})
    ensures OwnersExist(db) && 0 in db.users && ValidateSession(db, who.today, 3) == Result(db, SessionValid(0))
  {
    ExtendStep(who, db, db.users[0]);
  }

  lemma AskReached(who: Person, requests: seq<Request>, k: nat, db: Db, other: string)
    requires Ordinary(who) && Normal(other) && other != who.email && db == SignedIn(who, {VRATARTHI})
    requires k < |requests| && requests[k] == As(3, AskForNewEmail(other, Some(who.password)))
    requires After(Runs(who, requests)[..k]) == db
    ensures After(Runs(who, requests)[..k + 1]) == Asked(who, other)
  {
    Extended(who, db);
    AskStep(who, other);
    SignedInAsk(db, who.today, 3, 0, other, Some(who.password), Result(Asked(who, other), Done));
    Reached(who, requests, k, As(3, AskForNewEmail(other, Some(who.password))), db, Asked(who, other), Done);
  }

  lemma HasAsked(who: Person, other: string, requests: seq<Request>)
    requires Ordinary(who) && OldEnough(who) && Normal(other) && other != who.email && Abandon(who, other, requests)
    ensures After(Runs(who, requests)[..4]) == Asked(who, other)
  {
    Entered(who, requests);
    AskReached(who, requests, 3, SignedIn(who, {VRATARTHI}), other);
  }

  lemma HasAbandoned(who: Person, other: string, requests: seq<Request>)
    requires Ordinary(who) && OldEnough(who) && Normal(other) && other != who.email && Abandon(who, other, requests)
    ensures After(Runs(who, requests)[..5]) == Gone(who, Asked(who, other))
  {
    HasAsked(who, other, requests);
    Deleted(who, requests, 4, Asked(who, other), Asked(who, other).users[0]);
  }

  /** It happens: a user asks for another address and deletes the account, and the token stays unused for an
      address nobody waits for. */
  lemma TokenMayNameNothing(who: Person, other: string, requests: seq<Request>)
    requires Ordinary(who) && OldEnough(who) && Normal(other) && other != who.email && Abandon(who, other, requests)
    ensures var run := Runs(who, requests); var db := After(run[..5]);
      && InOrder(run) && UsableToken(db, 4, EMAIL_CHANGE)
      && db.tokens[4].userId in db.users && !NamesPending(db.users[db.tokens[4].userId], db.tokens[4])
  {
    RunsInOrder(who, requests);
    HasAbandoned(who, other, requests);
  }

  // ─── Registering fails on a unique index ───────────────────────────────────

  predicate SameNameTwice(who: Person, other: string, requests: seq<Request>) {
    && |requests| == 2 && requests[0] == Join(who)
    && requests[1] == SignUp(other, who.password, "a", Some(who.dob), true)
  }

  lemma NameTakenStep(who: Person, other: string)
    requires OldEnough(who) && Normal(other) && other != who.email
    ensures Register(Registered(who), who.today, other, who.password, "a", Some(who.dob), true)
      == Refuse(Registered(who), UniqueViolation)
  {
    var db := Registered(who);
    assert UsernameInUse(db, "a") by { assert 0 in db.users && db.users[0].username == "a"; }
    assert FindUserByEmail(db, other).None? && FindAuthAccount(db, EMAIL, other).None?;
  }

  /** It happens: two people register under one name. */
  lemma NameMayBeInUse(who: Person, other: string, requests: seq<Request>)
    requires Ordinary(who) && OldEnough(who) && Normal(other) && other != who.email
    requires SameNameTwice(who, other, requests)
    ensures InOrder(Runs(who, requests)) && Answer(Runs(who, requests), 1) == Refused(UniqueViolation)
  {
    var db := Registered(who);
    RunsInOrder(who, requests);
    Joined(who, requests);
    NameTakenStep(who, other);
    Reached(who, requests, 1, SignUp(other, who.password, "a", Some(who.dob), true), db, db, Refused(UniqueViolation));
  }

  predicate Impersonate(who: Person, requests: seq<Request>) {
    && |requests| == 5 && Entering(who, requests) && requests[3] == Delete(who)
    && requests[4] == SignUp(PseudonymEmail(who.p), who.password, "b", Some(who.dob), true)
  }

  function Left(who: Person): Db {
    Gone(who, SignedIn(who, {VRATARTHI}))
  }

  lemma HasLeft(who: Person, requests: seq<Request>)
    requires Ordinary(who) && OldEnough(who) && Entering(who, requests) && |requests| >= 4 && requests[3] == Delete(who)
    ensures After(Runs(who, requests)[..4]) == Left(who)
  {
    var db := SignedIn(who, {VRATARTHI});
    Entered(who, requests);
    Deleted(who, requests, 3, db, db.users[0]);
  }

  lemma PseudonymTakenStep(who: Person)
    requires Ordinary(who) && OldEnough(who) && Normal(PseudonymEmail(who.p))
    ensures Register(Left(who), who.today, PseudonymEmail(who.p), who.password, "b", Some(who.dob), true)
      == Refuse(Left(who), UniqueViolation)
  {
    var db, email := Left(who), PseudonymEmail(who.p);
    assert EmailInUse(db, email) by { assert 0 in db.users && db.users[0].email == email; }
    assert FindUserByEmail(db, email).None? && FindAuthAccount(db, EMAIL, email).None?;
  }

  /** It happens: somebody registers the very address a deleted account went under. */
  lemma PseudonymMayBeInUse(who: Person, requests: seq<Request>)
    requires Ordinary(who) && OldEnough(who) && Normal(PseudonymEmail(who.p)) && Impersonate(who, requests)
    ensures InOrder(Runs(who, requests)) && Answer(Runs(who, requests), 4) == Refused(UniqueViolation)
  {
    RunsInOrder(who, requests);
    HasLeft(who, requests);
    PseudonymTakenStep(who);
    Reached(who, requests, 4, SignUp(PseudonymEmail(who.p), who.password, "b", Some(who.dob), true),
            Left(who), Left(who), Refused(UniqueViolation));
  }

  // ─── A first password meets a claim left behind ────────────────────────────

  predicate BackThroughGoogle(who: Person, requests: seq<Request>) {
    && |requests| == 8 && Entering(who, requests) && requests[3] == Delete(who)
    && requests[4] == BeginGoogle("b", Some(who.dob), true)
    && requests[5] == ReturnFromGoogle("g", who.email, true, Some(4), "")
    && requests[6] == Forgot(who.email) && requests[7] == Reset(8, who.password)
  }

  function Started(who: Person): Db {
    Left(who).(pendings := map[4 := PendingSignup("b", who.dob, who.today + PENDING_SIGNUP_TTL)], next := 5)
  }

  function Back(who: Person): Db {
    Db(map[0 := Left(who).users[0], 5 := NewGoogleUser(who.email, "b", who.dob)],
       map[1 := Account(0, EMAIL, who.email, None), 6 := Account(5, GOOGLE, "g", None)],
       map[7 := NewSession(5, who.today)], map[2 := Link(who, true)], map[], map[], 8)
  }

  function Forgetful(who: Person): Db {
    var token := NewToken(5, PASSWORD_RESET, NoMetadata, who.today + PASSWORD_RESET_TOKEN_TTL);
    Back(who).(tokens := map[2 := Link(who, true), 8 := token], next := 9)
  }

  lemma NobodyIsB(who: Person, db: Db)
    requires Ordinary(who) && db.users == Left(who).users && db.accounts == Left(who).accounts
    ensures !UsernameTaken(db, "b") && !InsertCollides(db, who.email, "b", GOOGLE, "g")
    ensures FindUserByEmail(db, who.email).None? && FindAuthAccount(db, GOOGLE, "g").None?
  {
    assert db.users[0].username[0] == 'd';
    assert "b"[0] == 'b';
  }

  lemma BeginIs(db: Db, now: Time, username: string, dob: Time)
    requires Qualifies(Some(dob), now) && !UsernameTaken(db, username)
    ensures StartGoogleSignup(db, now, username, Some(dob), true)
      == Result(InsertPending(db, PendingSignup(username, dob, now + PENDING_SIGNUP_TTL)), SignupPending(db.next))
  {
  }

  lemma StartedIs(who: Person, db: Db)
    requires db == Left(who)
    ensures InsertPending(db, PendingSignup("b", who.dob, who.today + PENDING_SIGNUP_TTL)) == Started(who)
    ensures db.next == 4
  {
  }

  lemma BeginStep(who: Person, db: Db)
    requires Ordinary(who) && OldEnough(who) && db == Left(who)
    ensures StartGoogleSignup(db, who.today, "b", Some(who.dob), true) == Result(Started(who), SignupPending(4))
  {
    NobodyIsB(who, db);
    StartedIs(who, db);
    BeginIs(db, who.today, "b", who.dob);
  }

  /** Coming back from Google with a good signup, nobody having the identity, the address or the name. */
  lemma ReturnIs(
    db: Db, now: Time, googleId: string, email: string, p: Id, random: string, consumed: Db, signup: PendingSignup)
    requires Normal(email) && FindAuthAccount(db, GOOGLE, googleId).None? && FindUserByEmail(db, email).None?
    requires p in db.pendings && signup == db.pendings[p] && consumed == DeletePending(db, p)
    requires now <= signup.expiresAt && Qualifies(Some(signup.dob), now)
    requires !UsernameTaken(consumed, signup.username)
    requires !InsertCollides(consumed, email, signup.username, GOOGLE, googleId)
    ensures var user := NewGoogleUser(email, signup.username, signup.dob);
      GoogleLogin(db, now, googleId, email, true, Some(p), random)
      == Result(InsertSession(InsertUser(consumed, user, GOOGLE, googleId, None), NewSession(db.next, now)),
                SessionStarted(db.next, db.next + 2))
  {
  }

  lemma BackIs(who: Person, consumed: Db)
    requires consumed == DeletePending(Started(who), 4)
    ensures InsertSession(InsertUser(consumed, NewGoogleUser(who.email, "b", who.dob), GOOGLE, "g", None),
                          NewSession(5, who.today)) == Back(who)
  {
    assert consumed.pendings == map[];
  }

  lemma ReturnStep(who: Person)
    requires Ordinary(who) && OldEnough(who)
    ensures GoogleLogin(Started(who), who.today, "g", who.email, true, Some(4), "")
      == Result(Back(who), SessionStarted(5, 7))
  {
    var db, consumed := Started(who), DeletePending(Started(who), 4);
    NobodyIsB(who, db);
    NobodyIsB(who, consumed);
    BackIs(who, consumed);
    ReturnIs(db, who.today, "g", who.email, 4, "", consumed, db.pendings[4]);
  }

  lemma ForgotStep(who: Person)
    requires Ordinary(who)
    ensures ForgotPassword(Back(who), who.today, who.email) == Result(Forgetful(who), SetPasswordSent)
  {
    var db := Back(who);
    assert IsUserByEmail(db, 5, who.email);
    assert FindUserByEmail(db, who.email) == Some(5);
    assert FindEmailAccountByUserId(db, 5).None?;
    assert Spent(db.tokens, 5, PASSWORD_RESET) == db.tokens;
  }

  lemma ResetStep(who: Person)
    ensures OwnersExist(Forgetful(who))
    ensures ResetPassword(Forgetful(who), who.today, 8, who.password) == Refuse(Forgetful(who), UniqueViolation)
  {
    var db := Forgetful(who);
    assert FindEmailAccountByUserId(db, 5).None?;
    assert IsAccount(db, 1, EMAIL, who.email);
  }

  lemma BeginReached(who: Person, requests: seq<Request>, k: nat, db: Db, db': Db)
    requires Ordinary(who) && OldEnough(who) && db == Left(who) && db' == Started(who)
    requires k < |requests| && requests[k] == BeginGoogle("b", Some(who.dob), true)
    requires After(Runs(who, requests)[..k]) == db
    ensures After(Runs(who, requests)[..k + 1]) == db'
  {
    BeginStep(who, db);
    Reached(who, requests, k, BeginGoogle("b", Some(who.dob), true), db, db', SignupPending(4));
  }

  lemma ReturnReached(who: Person, requests: seq<Request>, k: nat, db: Db, db': Db)
    requires Ordinary(who) && OldEnough(who) && db == Started(who) && db' == Back(who)
    requires k < |requests| && requests[k] == ReturnFromGoogle("g", who.email, true, Some(4), "")
    requires After(Runs(who, requests)[..k]) == db
    ensures After(Runs(who, requests)[..k + 1]) == db'
  {
    ReturnStep(who);
    Reached(who, requests, k, ReturnFromGoogle("g", who.email, true, Some(4), ""), db, db', SessionStarted(5, 7));
  }

  lemma ForgotReached(who: Person, requests: seq<Request>, k: nat, db: Db, db': Db)
    requires Ordinary(who) && db == Back(who) && db' == Forgetful(who)
    requires k < |requests| && requests[k] == Forgot(who.email) && After(Runs(who, requests)[..k]) == db
    ensures After(Runs(who, requests)[..k + 1]) == db'
  {
    ForgotStep(who);
    Reached(who, requests, k, Forgot(who.email), db, db', SetPasswordSent);
  }

  /** The way back through Google, from wherever the account has just been deleted. */
  lemma HasForgotten(who: Person, requests: seq<Request>)
    requires Ordinary(who) && OldEnough(who) && |requests| >= 7 && After(Runs(who, requests)[..4]) == Left(who)
    requires requests[4] == BeginGoogle("b", Some(who.dob), true)
    requires requests[5] == ReturnFromGoogle("g", who.email, true, Some(4), "") && requests[6] == Forgot(who.email)
    ensures After(Runs(who, requests)[..7]) == Forgetful(who)
  {
    BeginReached(who, requests, 4, Left(who), Started(who));
    ReturnReached(who, requests, 5, Started(who), Back(who));
    ForgotReached(who, requests, 6, Back(who), Forgetful(who));
  }

  lemma ResetReached(who: Person, requests: seq<Request>, k: nat, db: Db)
    requires db == Forgetful(who) && k < |requests| && requests[k] == Reset(8, who.password)
    requires After(Runs(who, requests)[..k]) == db
    ensures Answer(Runs(who, requests), k) == Refused(UniqueViolation)
  {
    ResetStep(who);
    Reached(who, requests, k, Reset(8, who.password), db, db, Refused(UniqueViolation));
  }

  /** It happens: somebody deletes an account, comes back through Google with the same address, and is
      refused the password they are sent a link to choose. */
  lemma FirstPasswordMayCollide(who: Person, requests: seq<Request>)
    requires Ordinary(who) && OldEnough(who) && BackThroughGoogle(who, requests)
    ensures InOrder(Runs(who, requests)) && Answer(Runs(who, requests), 7) == Refused(UniqueViolation)
  {
    RunsInOrder(who, requests);
    HasLeft(who, requests);
    HasForgotten(who, requests);
    ResetReached(who, requests, 7, Forgetful(who));
  }
}
