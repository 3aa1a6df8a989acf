/** What no interleaving breaks: every change of an address goes back to a request its user made. */
module Provenance {
  import opened Text
  import opened AuthTables
  import opened AuthSpec
  import opened AuthHistory
  import opened Interleaving

  // ─── What the logs and the tables say of each other ────────────────────────

  predicate PendingsNormal(users: Users) {
    forall u :: u in users && users[u].pendingEmail.Some? ==> Normal(users[u].pendingEmail.value)
  }

  /** The token names the user and the address of the request it was issued for. */
  predicate IssuedFor(issued: Issued, asks: seq<Ask>) {
    && issued.token.kind == EMAIL_CHANGE && issued.token.metadata.NewEmail? && Normal(issued.token.metadata.address)
    && issued.ask < |asks| && asks[issued.ask].user == issued.token.userId
    && asks[issued.ask].address == issued.token.metadata.address
  }

  predicate IssuedAsked(issued: map<Id, Issued>, asks: seq<Ask>) {
    forall t :: t in issued ==> IssuedFor(issued[t], asks)
  }

  /** An email-change token in the table says what it said when it was issued. */
  predicate TokensIssued(tokens: Tokens, issued: map<Id, Issued>) {
    forall t :: t in tokens && tokens[t].kind == EMAIL_CHANGE ==>
      t in issued && TokenFollows(issued[t].token, tokens[t])
  }

  /** The pass let this very request through: the same user, in the same session, for this address. */
  predicate PassedFor(ask: Ask, pass: Pass) {
    && pass.user == ask.user && pass.session == ask.session
    && pass.goal.ForAddress? && pass.goal.address == ask.address
  }

  /** Every recorded request for an address came after a proof passed for it. */
  predicate AsksPassed(asks: seq<Ask>, passes: seq<Pass>) {
    forall i :: 0 <= i < |asks| ==>
      asks[i].pass < asks[i].passed <= |passes| && PassedFor(asks[i], passes[asks[i].pass])
  }

  predicate ForChange(issued: map<Id, Issued>, t: Id, u: Id, address: string, checkedAt: Time) {
    && t in issued && issued[t].token.userId == u && issued[t].token.metadata == NewEmail(address)
    && checkedAt <= issued[t].token.expiresAt
  }

  /** The change was confirmed with a token that was found unused, was issued to that user for that address
      and had not expired when it was checked; and the request it was issued for came before the change. */
  predicate ChangeSound(c: Change, logs: Logs) {
    && c.found in logs.finds && ForChange(logs.issued, c.found.token, c.user, c.address, c.checkedAt)
    && logs.issued[c.found.token].ask < c.asked <= |logs.asks|
  }

  predicate ChangesSound(logs: Logs) {
    forall i :: 0 <= i < |logs.changes| ==> ChangeSound(logs.changes[i], logs)
  }

  predicate StampsLinked(stamps: seq<Stamp>, checks: set<(string, Id, nat)>) {
    forall k :: 0 <= k < |stamps| ==> (stamps[k].googleId, stamps[k].user, stamps[k].checked) in checks
  }

  /** A session's proof is the last stamp put on it. */
  predicate Carries(session: Session, s: Id, current: map<Id, nat>, stamps: seq<Stamp>) {
    && s in current && current[s] < |stamps| && session.reauthenticatedAt == Some(stamps[current[s]].at)
    && stamps[current[s]].session == s && stamps[current[s]].user == session.userId
  }

  predicate SessionsStamped(sessions: map<Id, Session>, current: map<Id, nat>, stamps: seq<Stamp>) {
    forall s :: s in sessions && sessions[s].reauthenticatedAt.Some? ==> Carries(sessions[s], s, current, stamps)
  }

  predicate SpentBy(pass: Pass, stamps: seq<Stamp>) {
    pass.proof.ByGoogle? ==>
      && pass.proof.stamp < |stamps| && stamps[pass.proof.stamp].session == pass.session
      && stamps[pass.proof.stamp].user == pass.user && pass.readAt - REAUTH_WINDOW <= stamps[pass.proof.stamp].at
  }

  predicate PassesStamped(passes: seq<Pass>, stamps: seq<Stamp>) {
    forall p :: 0 <= p < |passes| ==> SpentBy(passes[p], stamps)
  }

  predicate PassesInject(passes: seq<Pass>) {
    forall p, q ::
      0 <= p < |passes| && 0 <= q < |passes| && passes[p].proof.ByGoogle? && passes[p].proof == passes[q].proof ==>
        p == q
  }

  predicate Unspent(stamp: nat, passes: seq<Pass>) {
    forall p :: 0 <= p < |passes| ==> passes[p].proof != ByGoogle(stamp)
  }

  predicate ProofsUnspent(sessions: map<Id, Session>, current: map<Id, nat>, passes: seq<Pass>) {
    forall s :: s in sessions && sessions[s].reauthenticatedAt.Some? && s in current ==> Unspent(current[s], passes)
  }

  predicate TablesOk(db: Db) {
    && (forall u :: u in db.users ==> u < db.next)
    && (forall s :: s in db.sessions ==> s < db.next && db.sessions[s].userId in db.users)
    && (forall t :: t in db.tokens ==> t < db.next)
  }

  predicate AddressesOk(db: Db, logs: Logs) {
    && (forall t :: t in logs.issued ==> t < db.next)
    && PendingsNormal(db.users) && IssuedAsked(logs.issued, logs.asks) && TokensIssued(db.tokens, logs.issued)
    && AsksPassed(logs.asks, logs.passes) && ChangesSound(logs)
  }

  predicate ProofsOk(db: Db, logs: Logs) {
    && StampsLinked(logs.stamps, logs.checks)
    && SessionsStamped(db.sessions, logs.current, logs.stamps) && PassesStamped(logs.passes, logs.stamps)
    && PassesInject(logs.passes) && ProofsUnspent(db.sessions, logs.current, logs.passes)
  }

  // ─── What a request in flight knows ────────────────────────────────────────

  predicate Holds(db: Db, u: Id, s: Id) {
    u in db.users && s < db.next && (s in db.sessions ==> db.sessions[s].userId == u)
  }

  predicate GoalOk(goal: Goal) {
    goal.ForAddress? ==> Normal(goal.address)
  }

  predicate ProvedFor(db: Db, passes: seq<Pass>, u: Id, s: Id, address: string, pass: nat) {
    && u in db.users && Normal(address) && pass < |passes|
    && PassedFor(Ask(u, s, address, pass, |passes|), passes[pass])
  }

  predicate Known(logs: Logs, t: Found, u: Id, metadata: Metadata) {
    && t in logs.finds && t.token in logs.issued
    && logs.issued[t.token].token.userId == u && logs.issued[t.token].token.metadata == metadata
  }

  predicate Confirming(logs: Logs, t: Found, u: Id, address: string, checkedAt: Time) {
    t in logs.finds && ForChange(logs.issued, t.token, u, address, checkedAt)
  }

  predicate StoredFor(db: Db, asks: seq<Ask>, u: Id, address: string, ask: nat) {
    && u in db.users && Normal(address)
    && ask < |asks| && asks[ask].user == u && asks[ask].address == address
  }

  predicate ThreadOk(db: Db, logs: Logs, thread: Thread) {
    match thread
    case FindUser(u, s, _, _) => Holds(db, u, s)
    case CheckPassword(u, s, goal, _) => Holds(db, u, s) && GoalOk(goal)
    case ReadClock(u, s, goal) => Holds(db, u, s) && GoalOk(goal)
    case Consume(u, s, goal, _) => Holds(db, u, s) && GoalOk(goal)
    case CheckInUse(u, s, address, pass) => ProvedFor(db, logs.passes, u, s, address, pass)
    case CheckClaim(u, s, address, pass) => ProvedFor(db, logs.passes, u, s, address, pass)
    case StorePending(u, s, address, pass) => ProvedFor(db, logs.passes, u, s, address, pass)
    case SpendOld(u, address, ask) => StoredFor(db, logs.asks, u, address, ask)
    case Issue(u, address, ask) => StoredFor(db, logs.asks, u, address, ask)
    case CheckExpiry(t, u, metadata, expiresAt) =>
      Known(logs, t, u, metadata) && logs.issued[t.token].token.expiresAt == expiresAt
    case ReadPending(t, u, metadata, checkedAt) =>
      Known(logs, t, u, metadata) && checkedAt <= logs.issued[t.token].token.expiresAt
    case RecheckInUse(t, u, address, checkedAt) => Confirming(logs, t, u, address, checkedAt)
    case RecheckClaim(t, u, address, checkedAt) => Confirming(logs, t, u, address, checkedAt)
    case ReleaseClaim(t, u, address, checkedAt, _) => Confirming(logs, t, u, address, checkedAt)
    case Apply(t, u, address, checkedAt) => Confirming(logs, t, u, address, checkedAt)
    case CheckLink(u, s, _) => Holds(db, u, s)
    case ReadStampClock(u, s, googleId, checked) => Holds(db, u, s) && (googleId, u, checked) in logs.checks
    case WriteStamp(u, s, googleId, checked, _) => Holds(db, u, s) && (googleId, u, checked) in logs.checks
    case _ => true
  }

  predicate ThreadsOk(db: Db, logs: Logs, threads: map<nat, Thread>) {
    forall k :: k in threads ==> ThreadOk(db, logs, threads[k])
  }

  predicate Sound(w: World) {
    TablesOk(w.db) && AddressesOk(w.db, w.logs) && ProofsOk(w.db, w.logs) && ThreadsOk(w.db, w.logs, w.threads)
  }

  // ─── What a request knows stays so ─────────────────────────────────────────

  /** Users stay, sessions keep their holder, the logs only grow. */
  ghost predicate Grows(db: Db, logs: Logs, db': Db, logs': Logs) {
    && db.next <= db'.next
    && (forall u :: u in db.users ==> u in db'.users)
    && SessionsFollow(db.sessions, db'.sessions, db.next)
    && (forall t :: t in logs.issued ==> t in logs'.issued && logs'.issued[t] == logs.issued[t])
    && logs.asks <= logs'.asks && logs.passes <= logs'.passes
    && logs.checks <= logs'.checks && logs.finds <= logs'.finds
  }

  lemma ThreadStaysOk(db: Db, logs: Logs, db': Db, logs': Logs, thread: Thread)
    requires Grows(db, logs, db', logs') && ThreadOk(db, logs, thread)
    ensures ThreadOk(db', logs', thread)
  {
  }

  lemma ThreadsStayOk(w: World, w': World)
    requires ThreadsOk(w.db, w.logs, w.threads) && Grows(w.db, w.logs, w'.db, w'.logs)
    ensures ThreadsOk(w'.db, w'.logs, w.threads)
  {
    forall k | k in w.threads
      ensures ThreadOk(w'.db, w'.logs, w.threads[k])
    {
      ThreadStaysOk(w.db, w.logs, w'.db, w'.logs, w.threads[k]);
    }
  }

  lemma ThreadMovesOn(w: World, w': World, k: nat, next: Thread)
    requires ThreadsOk(w.db, w.logs, w.threads) && Grows(w.db, w.logs, w'.db, w'.logs)
    requires w'.threads == w.threads[k := next] && ThreadOk(w'.db, w'.logs, next)
    ensures ThreadsOk(w'.db, w'.logs, w'.threads)
  {
    ThreadsStayOk(w, w');
  }

  // ─── The steps that only read ──────────────────────────────────────────────

  lemma NormalLower(email: string)
    requires Normal(email)
    ensures Lower(email) == email
  {
    NormalizeIdempotent(email);
  }

  lemma PendingMatches(users: Users, logs: Logs, t: Id, u: Id)
    requires PendingsNormal(users) && IssuedAsked(logs.issued, logs.asks)
    requires t in logs.issued && u in users && users[u].pendingEmail.Some?
    requires Lower(users[u].pendingEmail.value) == Lower(logs.issued[t].token.metadata.address)
    ensures logs.issued[t].token.metadata == NewEmail(users[u].pendingEmail.value)
  {
    NormalLower(users[u].pendingEmail.value);
    NormalLower(logs.issued[t].token.metadata.address);
  }

  lemma RequestReads(db: Db, logs: Logs, now: Time, thread: Thread)
    requires ThreadOk(db, logs, thread)
    requires thread.FindUser? || thread.ReadClock? || thread.CheckInUse? || thread.CheckClaim?
    ensures ThreadOk(db, logs, Read(db, now, thread))
  {
    if thread.FindUser? { NormalizeIdempotent(thread.newEmail); }
  }

  lemma PendingReads(db: Db, logs: Logs, now: Time, thread: Thread)
    requires PendingsNormal(db.users) && IssuedAsked(logs.issued, logs.asks)
    requires ThreadOk(db, logs, thread) && thread.ReadPending?
    ensures ThreadOk(db, logs, Read(db, now, thread))
  {
    if Read(db, now, thread) != Over { PendingMatches(db.users, logs, thread.found.token, thread.u); }
  }

  lemma ConfirmReads(db: Db, logs: Logs, now: Time, thread: Thread)
    requires ThreadOk(db, logs, thread) && (thread.CheckExpiry? || thread.RecheckInUse? || thread.RecheckClaim?)
    ensures ThreadOk(db, logs, Read(db, now, thread))
  {
  }

  lemma ReadKeeps(w: World, k: nat)
    requires Sound(w) && k in w.threads && !Writes(w.threads[k])
    ensures Sound(Advance(w, k))
  {
    var thread := w.threads[k];
    var next := Read(w.db, w.now, thread);
    match thread {
      case FindUser(_, _, _, _) => RequestReads(w.db, w.logs, w.now, thread);
      case ReadClock(_, _, _) => RequestReads(w.db, w.logs, w.now, thread);
      case CheckInUse(_, _, _, _) => RequestReads(w.db, w.logs, w.now, thread);
      case CheckClaim(_, _, _, _) => RequestReads(w.db, w.logs, w.now, thread);
      case ReadStampClock(_, _, _, _) =>
      case CheckExpiry(_, _, _, _) => ConfirmReads(w.db, w.logs, w.now, thread);
      case ReadPending(_, _, _, _) => PendingReads(w.db, w.logs, w.now, thread);
      case RecheckInUse(_, _, _, _) => ConfirmReads(w.db, w.logs, w.now, thread);
      case RecheckClaim(_, _, _, _) => ConfirmReads(w.db, w.logs, w.now, thread);
      case Over =>
    }
    MovedKeeps(w, k, next);
  }

  /** Moving one request on, with nothing written. */
  lemma MovedKeeps(w: World, k: nat, next: Thread)
    requires Sound(w) && ThreadOk(w.db, w.logs, next)
    ensures Sound(Moved(w, k, next))
  {
    ThreadMovesOn(w, Moved(w, k, next), k, next);
  }

  // ─── Passing a proof ───────────────────────────────────────────────────────

  lemma PassLogged(logs: Logs, pass: Pass)
    requires AsksPassed(logs.asks, logs.passes) && PassesStamped(logs.passes, logs.stamps) && PassesInject(logs.passes)
    requires SpentBy(pass, logs.stamps) && (pass.proof.ByGoogle? ==> Unspent(pass.proof.stamp, logs.passes))
    ensures var passes := logs.passes + [pass];
      AsksPassed(logs.asks, passes) && PassesStamped(passes, logs.stamps) && PassesInject(passes)
  {
  }

  lemma CheckPasswordKeeps(w: World, k: nat)
    requires Sound(w) && k in w.threads && w.threads[k].CheckPassword?
    ensures Sound(Advance(w, k))
  {
    var CheckPassword(u, s, goal, password) := w.threads[k];
    if Given(password) && PasswordOf(w.db, u) == Some(Bcrypt(password.value)) {
      PassedKeeps(w, k, Pass(s, u, ByPassword, w.now, goal));
    } else {
      MovedKeeps(w, k, ReadClock(u, s, goal));
    }
  }

  lemma PassedKeeps(w: World, k: nat, pass: Pass)
    requires Sound(w) && GoalOk(pass.goal) && pass.user in w.db.users && pass.proof == ByPassword
    ensures Sound(Passed(w, k, pass))
  {
    var w' := Passed(w, k, pass);
    PassLogged(w.logs, pass);
    assert w'.logs.passes[|w.logs.passes|] == pass;
    ThreadMovesOn(w, w', k, After(pass.goal, pass.user, pass.session, |w.logs.passes|));
  }

  lemma ProofSpent(w: World, s: Id, u: Id, readAt: Time, goal: Goal)
    requires ProofsOk(w.db, w.logs) && TablesOk(w.db) && Holds(w.db, u, s) && ProofFresh(w.db, s, readAt)
    ensures var pass := Pass(s, u, ByGoogle(StampOn(w.logs, s)), readAt, goal);
      var db := SetSession(w.db, s, w.db.sessions[s].(reauthenticatedAt := None));
      ProofsOk(db, w.logs.(passes := w.logs.passes + [pass])) && AsksPassedStill(w.logs, pass)
  {
    var pass := Pass(s, u, ByGoogle(StampOn(w.logs, s)), readAt, goal);
    assert Carries(w.db.sessions[s], s, w.logs.current, w.logs.stamps);
    assert Unspent(w.logs.current[s], w.logs.passes);
    SpendingInjects(w.logs.passes, w.logs.stamps, pass);
    OthersUnspent(w.db.sessions, w.logs, s, pass);
  }

  predicate AsksPassedStill(logs: Logs, pass: Pass) {
    AsksPassed(logs.asks, logs.passes) ==> AsksPassed(logs.asks, logs.passes + [pass])
  }

  lemma SpendingInjects(passes: seq<Pass>, stamps: seq<Stamp>, pass: Pass)
    requires PassesStamped(passes, stamps) && PassesInject(passes) && SpentBy(pass, stamps)
    requires pass.proof.ByGoogle? && Unspent(pass.proof.stamp, passes)
    ensures PassesStamped(passes + [pass], stamps) && PassesInject(passes + [pass])
  {
  }

  /** No other session carries the stamp just spent: a stamp is on one session. */
  lemma OthersUnspent(sessions: map<Id, Session>, logs: Logs, s: Id, pass: Pass)
    requires SessionsStamped(sessions, logs.current, logs.stamps) && ProofsUnspent(sessions, logs.current, logs.passes)
    requires s in sessions && sessions[s].reauthenticatedAt.Some? && pass.proof == ByGoogle(logs.current[s])
    ensures ProofsUnspent(sessions[s := sessions[s].(reauthenticatedAt := None)], logs.current, logs.passes + [pass])
  {
    var sessions' := sessions[s := sessions[s].(reauthenticatedAt := None)];
    forall r | r in sessions' && sessions'[r].reauthenticatedAt.Some? && r in logs.current
      ensures Unspent(logs.current[r], logs.passes + [pass])
    {
      assert r != s && Carries(sessions[r], r, logs.current, logs.stamps);
      assert Carries(sessions[s], s, logs.current, logs.stamps);
      assert Unspent(logs.current[r], logs.passes);
    }
  }

  lemma ConsumeKeeps(w: World, k: nat)
    requires Sound(w) && k in w.threads && w.threads[k].Consume?
    ensures Sound(Advance(w, k))
  {
    var Consume(u, s, goal, readAt) := w.threads[k];
    if ProofFresh(w.db, s, readAt) {
      var w' := Advance(w, k);
      ProofSpent(w, s, u, readAt, goal);
      assert w'.logs.passes[|w.logs.passes|] == Pass(s, u, ByGoogle(StampOn(w.logs, s)), readAt, goal);
      ThreadMovesOn(w, w', k, After(goal, u, s, |w.logs.passes|));
    } else {
      MovedKeeps(w, k, Over);
    }
  }

  // ─── Asking for an address ─────────────────────────────────────────────────

  lemma AskLogged(logs: Logs, ask: Ask)
    requires IssuedAsked(logs.issued, logs.asks) && ChangesSound(logs)
    ensures var logs' := logs.(asks := logs.asks + [ask]); IssuedAsked(logs'.issued, logs'.asks) && ChangesSound(logs')
  {
    var logs' := logs.(asks := logs.asks + [ask]);
    forall t | t in logs.issued
      ensures IssuedFor(logs.issued[t], logs'.asks)
    {
      assert IssuedFor(logs.issued[t], logs.asks);
    }
    forall i | 0 <= i < |logs.changes|
      ensures ChangeSound(logs.changes[i], logs')
    {
      assert ChangeSound(logs.changes[i], logs);
    }
  }

  lemma StorePendingKeeps(w: World, k: nat)
    requires Sound(w) && k in w.threads && w.threads[k].StorePending?
    ensures Sound(Advance(w, k))
  {
    var StorePending(u, s, address, pass) := w.threads[k];
    var ask := Ask(u, s, address, pass, |w.logs.passes|);
    assert ProvedFor(w.db, w.logs.passes, u, s, address, pass);
    StoreOne(w, k, ask);
  }

  lemma StoreOne(w: World, k: nat, ask: Ask)
    requires Sound(w) && ProvedFor(w.db, w.logs.passes, ask.user, ask.session, ask.address, ask.pass)
    requires ask.passed == |w.logs.passes|
    ensures Sound(StorePendingStep(w, k, ask))
  {
    var w' := StorePendingStep(w, k, ask);
    AskLogged(w.logs, ask);
    assert w'.logs.asks[|w.logs.asks|] == ask;
    ThreadMovesOn(w, w', k, SpendOld(ask.user, ask.address, |w.logs.asks|));
  }

  // ─── Tokens ────────────────────────────────────────────────────────────────

  /** Tokens may be marked used or taken away. */
  predicate FewerTokens(tokens: Tokens, tokens': Tokens) {
    forall t :: t in tokens' ==> t in tokens && TokenFollows(tokens[t], tokens'[t])
  }

  lemma TokenWriteKeeps(w: World, tokens: Tokens)
    requires Sound(w) && FewerTokens(w.db.tokens, tokens)
    ensures Sound(w.(db := w.db.(tokens := tokens)))
  {
    ThreadsStayOk(w, w.(db := w.db.(tokens := tokens)));
  }

  lemma NewTokenKeeps(w: World, token: Token)
    requires Sound(w) && token.kind != EMAIL_CHANGE
    ensures Sound(w.(db := InsertToken(w.db, token)))
  {
    ThreadsStayOk(w, w.(db := InsertToken(w.db, token)));
  }

  lemma SpendOldKeeps(w: World, k: nat)
    requires Sound(w) && k in w.threads && w.threads[k].SpendOld?
    ensures Sound(Advance(w, k))
  {
    var SpendOld(u, address, ask) := w.threads[k];
    MovedKeeps(w, k, Issue(u, address, ask));
    TokenWriteKeeps(Moved(w, k, Issue(u, address, ask)), AuthTables.Spent(w.db.tokens, u, EMAIL_CHANGE));
  }

  function IssuedBy(w: World, thread: Thread): Issued
    requires thread.Issue?
  {
    Issued(TokenFor(thread.u, thread.address, w.now), thread.ask)
  }

  lemma IssueAdvances(w: World, k: nat)
    requires k in w.threads && w.threads[k].Issue?
    ensures Advance(w, k) == IssueStep(w, k, IssuedBy(w, w.threads[k]))
  {
  }

  lemma IssueKeeps(w: World, k: nat)
    requires Sound(w) && k in w.threads && w.threads[k].Issue?
    ensures Sound(Advance(w, k))
  {
    IssueAdvances(w, k);
    KnowsAsked(w, k);
    IssueOne(w, k, IssuedBy(w, w.threads[k]));
  }

  lemma KnowsAsked(w: World, k: nat)
    requires Sound(w) && k in w.threads && w.threads[k].Issue?
    ensures IssuedFor(IssuedBy(w, w.threads[k]), w.logs.asks)
  {
    assert ThreadOk(w.db, w.logs, w.threads[k]);
  }

  lemma IssueLogged(logs: Logs, t: Id, issued: Issued)
    requires ChangesSound(logs) && t !in logs.issued
    ensures ChangesSound(logs.(issued := logs.issued[t := issued]))
  {
    var logs' := logs.(issued := logs.issued[t := issued]);
    forall i | 0 <= i < |logs.changes|
      ensures ChangeSound(logs.changes[i], logs')
    {
      assert ChangeSound(logs.changes[i], logs);
    }
  }

  lemma IssueOne(w: World, k: nat, issued: Issued)
    requires Sound(w) && IssuedFor(issued, w.logs.asks)
    ensures Sound(IssueStep(w, k, issued))
  {
    var w' := IssueStep(w, k, issued);
    assert w.db.next !in w.logs.issued;
    IssueLogged(w.logs, w.db.next, issued);
    ThreadMovesOn(w, w', k, Over);
  }

  lemma SpendTokenKeeps(w: World, k: nat)
    requires Sound(w) && k in w.threads && w.threads[k].SpendToken?
    ensures Sound(Advance(w, k))
  {
    var t := w.threads[k].t;
    MovedKeeps(w, k, Over);
    if t in w.db.tokens { TokenWriteKeeps(Moved(w, k, Over), MarkTokenUsed(w.db, t).tokens); }
  }

  // ─── Accounts and the change itself ────────────────────────────────────────

  lemma AccountWriteKeeps(w: World, accounts: Accounts, next: Id)
    requires Sound(w) && w.db.next <= next
    ensures Sound(w.(db := w.db.(accounts := accounts, next := next)))
  {
    ThreadsStayOk(w, w.(db := w.db.(accounts := accounts, next := next)));
  }

  lemma ReleaseClaimKeeps(w: World, k: nat)
    requires Sound(w) && k in w.threads && w.threads[k].ReleaseClaim?
    ensures Sound(Advance(w, k))
  {
    var ReleaseClaim(t, u, address, checkedAt, holder) := w.threads[k];
    MovedKeeps(w, k, Apply(t, u, address, checkedAt));
    AccountWriteKeeps(Moved(w, k, Apply(t, u, address, checkedAt)), ReleaseIdentityClaims(w.db, holder).accounts,
        w.db.next);
  }

  lemma ChangeLogged(logs: Logs, c: Change)
    requires ChangesSound(logs) && ChangeSound(c, logs)
    ensures ChangesSound(logs.(changes := logs.changes + [c]))
  {
    var logs' := logs.(changes := logs.changes + [c]);
    forall i | 0 <= i < |logs'.changes|
      ensures ChangeSound(logs'.changes[i], logs')
    {
      assert i < |logs.changes| ==> ChangeSound(logs.changes[i], logs);
    }
  }

  lemma ApplyAdvances(w: World, k: nat)
    requires k in w.threads && w.threads[k].Apply?
    ensures var thread := w.threads[k];
      Advance(w, k) == ApplyStep(w, k, thread.found, thread.u, thread.address, thread.checkedAt)
  {
  }

  lemma KnowsConfirming(w: World, k: nat)
    requires Sound(w) && k in w.threads && w.threads[k].Apply?
    ensures var Apply(t, u, address, checkedAt) := w.threads[k];
      ChangeSound(Change(u, address, t, checkedAt, |w.logs.asks|), w.logs)
  {
    assert ThreadOk(w.db, w.logs, w.threads[k]);
  }

  lemma ApplyKeeps(w: World, k: nat)
    requires Sound(w) && k in w.threads && w.threads[k].Apply?
    ensures Sound(Advance(w, k))
  {
    var Apply(t, u, address, checkedAt) := w.threads[k];
    ApplyAdvances(w, k);
    KnowsConfirming(w, k);
    if u !in w.db.users || ChangeCollides(w.db.users, w.db.accounts, u, address) {
      MovedKeeps(w, k, Over);
    } else {
      ApplyOne(w, k, Change(u, address, t, checkedAt, |w.logs.asks|));
    }
  }

  lemma ApplyOne(w: World, k: nat, c: Change)
    requires Sound(w) && c.user in w.db.users && ChangeSound(c, w.logs)
    ensures Sound(Moved(w, k, SpendToken(c.found.token)).(
      db := ApplyEmailChange(w.db, c.user, c.address), logs := w.logs.(changes := w.logs.changes + [c])))
  {
    var w' := Moved(w, k, SpendToken(c.found.token)).(
      db := ApplyEmailChange(w.db, c.user, c.address), logs := w.logs.(changes := w.logs.changes + [c]));
    ChangeLogged(w.logs, c);
    ThreadMovesOn(w, w', k, SpendToken(c.found.token));
  }

  lemma FindsLogged(logs: Logs, found: Found)
    requires ChangesSound(logs)
    ensures ChangesSound(logs.(finds := logs.finds + {found}))
  {
    var logs' := logs.(finds := logs.finds + {found});
    forall i | 0 <= i < |logs.changes|
      ensures ChangeSound(logs.changes[i], logs')
    {
      assert ChangeSound(logs.changes[i], logs);
    }
  }

  lemma FindTokenKeeps(w: World, k: nat)
    requires Sound(w) && k in w.threads && w.threads[k].FindToken?
    ensures Sound(Advance(w, k))
  {
    var t := w.threads[k].t;
    var w' := FindTokenStep(w, k, t);
    assert Advance(w, k) == w';
    if UsableToken(w.db, t, EMAIL_CHANGE) {
      FindsLogged(w.logs, Found(t, w.turn));
      ThreadMovesOn(w, w', k, w'.threads[k]);
    } else {
      MovedKeeps(w, k, Over);
    }
  }

  // ─── Stamps ────────────────────────────────────────────────────────────────

  lemma StampLogged(sessions: map<Id, Session>, logs: Logs, s: Id, stamp: Stamp)
    requires StampsLinked(logs.stamps, logs.checks) && (stamp.googleId, stamp.user, stamp.checked) in logs.checks
    requires SessionsStamped(sessions, logs.current, logs.stamps) && PassesStamped(logs.passes, logs.stamps)
    requires ProofsUnspent(sessions, logs.current, logs.passes)
    requires s in sessions && stamp.session == s && stamp.user == sessions[s].userId
    ensures var stamps, current := logs.stamps + [stamp], logs.current[s := |logs.stamps|];
      var sessions' := sessions[s := sessions[s].(reauthenticatedAt := Some(stamp.at))];
      && StampsLinked(stamps, logs.checks) && SessionsStamped(sessions', current, stamps)
      && PassesStamped(logs.passes, stamps) && ProofsUnspent(sessions', current, logs.passes)
  {
    var stamps, current := logs.stamps + [stamp], logs.current[s := |logs.stamps|];
    var sessions' := sessions[s := sessions[s].(reauthenticatedAt := Some(stamp.at))];
    assert Unspent(|logs.stamps|, logs.passes) by {
      assert forall p :: 0 <= p < |logs.passes| ==> SpentBy(logs.passes[p], logs.stamps);
    }
    forall r | r in sessions' && sessions'[r].reauthenticatedAt.Some?
      ensures Carries(sessions'[r], r, current, stamps) && Unspent(current[r], logs.passes)
    {
      if r != s { assert Carries(sessions[r], r, logs.current, logs.stamps); }
    }
    forall p | 0 <= p < |logs.passes|
      ensures SpentBy(logs.passes[p], stamps)
    {
      assert SpentBy(logs.passes[p], logs.stamps);
    }
  }

  lemma WriteStampKeeps(w: World, k: nat)
    requires Sound(w) && k in w.threads && w.threads[k].WriteStamp?
    ensures Sound(Advance(w, k))
  {
    var thread := w.threads[k];
    WriteStampAdvances(w, k);
    if thread.s in w.db.sessions {
      KnowsLinked(w, k);
      StampOne(w, k, StampOf(thread));
    } else {
      MovedKeeps(w, k, Over);
    }
  }

  lemma WriteStampAdvances(w: World, k: nat)
    requires k in w.threads && w.threads[k].WriteStamp?
    ensures Advance(w, k) == WriteStampStep(w, k, StampOf(w.threads[k]))
  {
  }

  function StampOf(thread: Thread): Stamp
    requires thread.WriteStamp?
  {
    Stamp(thread.s, thread.u, thread.googleId, thread.checked, thread.at)
  }

  lemma KnowsLinked(w: World, k: nat)
    requires Sound(w) && k in w.threads && w.threads[k].WriteStamp?
    ensures var thread := w.threads[k];
      Holds(w.db, thread.u, thread.s) && (thread.googleId, thread.u, thread.checked) in w.logs.checks
  {
    assert ThreadOk(w.db, w.logs, w.threads[k]);
  }

  lemma StampOne(w: World, k: nat, stamp: Stamp)
    requires Sound(w) && stamp.session in w.db.sessions && stamp.user == w.db.sessions[stamp.session].userId
    requires (stamp.googleId, stamp.user, stamp.checked) in w.logs.checks
    ensures Sound(WriteStampStep(w, k, stamp))
  {
    StampLogged(w.db.sessions, w.logs, stamp.session, stamp);
    ThreadMovesOn(w, WriteStampStep(w, k, stamp), k, Over);
  }

  lemma CheckLinkKeeps(w: World, k: nat)
    requires Sound(w) && k in w.threads && w.threads[k].CheckLink?
    ensures Sound(Advance(w, k))
  {
    var CheckLink(u, s, googleId) := w.threads[k];
    if FoundLinked(w.db, u, googleId) {
      ThreadMovesOn(w, CheckLinkStep(w, k, u, s, googleId), k, ReadStampClock(u, s, googleId, w.turn));
    } else {
      MovedKeeps(w, k, Over);
    }
  }

  lemma TurnKeeps(w: World, k: nat)
    requires Sound(w)
    ensures Sound(Advance(w, k))
  {
    if k in w.threads {
      match w.threads[k]
      case CheckPassword(_, _, _, _) => CheckPasswordKeeps(w, k);
      case Consume(_, _, _, _) => ConsumeKeeps(w, k);
      case StorePending(_, _, _, _) => StorePendingKeeps(w, k);
      case FindToken(_) => FindTokenKeeps(w, k);
      case SpendOld(_, _, _) => SpendOldKeeps(w, k);
      case Issue(_, _, _) => IssueKeeps(w, k);
      case ReleaseClaim(_, _, _, _, _) => ReleaseClaimKeeps(w, k);
      case Apply(_, _, _, _) => ApplyKeeps(w, k);
      case SpendToken(_) => SpendTokenKeeps(w, k);
      case CheckLink(_, _, _) => CheckLinkKeeps(w, k);
      case WriteStamp(_, _, _, _, _) => WriteStampKeeps(w, k);
      case _ => ReadKeeps(w, k);
    }
  }

  // ─── Everything else ───────────────────────────────────────────────────────

  /** Other writes to the users leave no address pending that is not canonical. */
  lemma UserWriteOk(w: World, users: Users, accounts: Accounts, next: Id)
    requires Sound(w) && w.db.next <= next && PendingsNormal(users)
    requires forall u :: u in w.db.users ==> u in users
    requires forall u :: u in users ==> u < next
    ensures Sound(w.(db := w.db.(users := users, accounts := accounts, next := next)))
  {
    ThreadsStayOk(w, w.(db := w.db.(users := users, accounts := accounts, next := next)));
  }

  lemma SessionWriteKeeps(w: World, sessions: map<Id, Session>, next: Id)
    requires Sound(w) && w.db.next <= next && SessionsFollow(w.db.sessions, sessions, w.db.next)
    requires forall s :: s in sessions ==> s < next && sessions[s].userId in w.db.users
    requires forall s :: s in sessions && sessions[s].reauthenticatedAt.Some? ==>
      && s in w.db.sessions && sessions[s].reauthenticatedAt == w.db.sessions[s].reauthenticatedAt
      && sessions[s].userId == w.db.sessions[s].userId
    ensures Sound(w.(db := w.db.(sessions := sessions, next := next)))
  {
    forall s | s in sessions && sessions[s].reauthenticatedAt.Some?
      ensures Carries(sessions[s], s, w.logs.current, w.logs.stamps)
    {
      assert Carries(w.db.sessions[s], s, w.logs.current, w.logs.stamps);
    }
    ThreadsStayOk(w, w.(db := w.db.(sessions := sessions, next := next)));
  }

  lemma UserWriteKeeps(w: World, write: Write)
    requires Sound(w) && (write.AddUser? || write.TouchUser? || write.DeleteUser?)
    ensures Sound(Perform(w, write))
  {
    var w' := Perform(w, write);
    UserWriteOk(w, w'.db.users, w'.db.accounts, w'.db.next);
  }

  lemma SessionsChangeKeeps(w: World, write: Write)
    requires Sound(w) && (write.AddSession? || write.RenewSession? || write.RemoveSessions?)
    ensures Sound(Perform(w, write))
  {
    match write
    case AddSession(u, expiresAt) =>
      if u in w.db.users {
        SessionWriteKeeps(w, w.db.sessions[w.db.next := Session(u, expiresAt, None)], w.db.next + 1);
      }
    case RenewSession(s, expiresAt) =>
      if s in w.db.sessions {
        SessionWriteKeeps(w, w.db.sessions[s := w.db.sessions[s].(expiresAt := expiresAt)], w.db.next);
      }
    case RemoveSessions(gone) => SessionWriteKeeps(w, w.db.sessions - gone, w.db.next);
  }

  lemma PerformKeeps(w: World, write: Write)
    requires Sound(w)
    ensures Sound(Perform(w, write))
  {
    match write
    case AddAccount(account) => AccountWriteKeeps(w, InsertAccount(w.db, account).accounts, w.db.next + 1);
    case RemoveAccounts(gone) => AccountWriteKeeps(w, w.db.accounts - gone, w.db.next);
    case ChangeHash(a, hash) =>
      if a in w.db.accounts {
        AccountWriteKeeps(w, w.db.accounts[a := w.db.accounts[a].(passwordHash := hash)], w.db.next);
      }
    case AddToken(u, kind, metadata, expiresAt) =>
      if u in w.db.users && kind != EMAIL_CHANGE { NewTokenKeeps(w, NewToken(u, kind, metadata, expiresAt)); }
    case UseTokens(spent) => TokenWriteKeeps(w, Used(w.db.tokens, spent));
    case RemoveTokens(gone) => TokenWriteKeeps(w, w.db.tokens - gone);
    case AddUser(_, _, _, _, _, _, _) => UserWriteKeeps(w, write);
    case TouchUser(_, _, _, _, _, _) => UserWriteKeeps(w, write);
    case DeleteUser(_, _) => UserWriteKeeps(w, write);
    case _ => SessionsChangeKeeps(w, write);
  }

  lemma ArriveKeeps(w: World, k: nat, arrival: Arrival)
    requires Sound(w)
    ensures Sound(Taken(w, Arrive(k, arrival)))
  {
    if k !in w.threads { MovedKeeps(w, k, Started(w.db, arrival)); }
  }

  lemma NextKeeps(w: World, step: Step)
    requires Sound(w)
    ensures Sound(Next(w, step))
  {
    TakenKeeps(w, step);
    TurnDoesNotMatter(Taken(w, step), w.turn + 1);
  }

  lemma TurnDoesNotMatter(w: World, turn: nat)
    requires Sound(w)
    ensures Sound(w.(turn := turn))
  {
  }

  lemma TakenKeeps(w: World, step: Step)
    requires Sound(w)
    ensures Sound(Taken(w, step))
  {
    match step
    case Tick(_) =>
    case Elsewhere(write) => PerformKeeps(w, write);
    case Arrive(k, arrival) => ArriveKeeps(w, k, arrival);
    case Turn(k) => TurnKeeps(w, k);
  }

  lemma {:induction false} RunIsSound(start: Time, steps: seq<Step>)
    ensures Sound(Run(start, steps))
  {
    if steps != [] {
      RunIsSound(start, steps[..|steps| - 1]);
      NextKeeps(Run(start, steps[..|steps| - 1]), steps[|steps| - 1]);
    }
  }

  // ─── Where an address comes from ───────────────────────────────────────────

  /** The request the change was confirmed for: the one its token was issued for. */
  function RequestOf(logs: Logs, c: Change): nat
    requires c.found.token in logs.issued
  {
    logs.issued[c.found.token].ask
  }

  /** Before the change, its request asked for its address, for its user; before that the user passed a proof
      for it in the session the request came in; and the token that confirmed it was issued for that request,
      to that user for that address, and had not expired when it was checked. */
  predicate Justified(logs: Logs, c: Change) {
    && ForChange(logs.issued, c.found.token, c.user, c.address, c.checkedAt)
    && var j := RequestOf(logs, c);
       && j < c.asked <= |logs.asks| && logs.asks[j].user == c.user && logs.asks[j].address == c.address
       && logs.asks[j].pass < logs.asks[j].passed <= |logs.passes|
       && PassedFor(logs.asks[j], logs.passes[logs.asks[j].pass])
  }

  lemma ChangeIsJustified(db: Db, logs: Logs, i: nat)
    requires AddressesOk(db, logs) && i < |logs.changes|
    ensures Justified(logs, logs.changes[i])
  {
    var c := logs.changes[i];
    assert ChangeSound(c, logs);
    assert IssuedFor(logs.issued[c.found.token], logs.asks);
  }

  /** However requests interleave: every change of an address was asked for by its user, after passing a
      proof for it, and confirmed with the token issued for that request, unexpired when checked. */
  lemma {:induction false} EveryChangeWasAskedForAndConfirmed(start: Time, steps: seq<Step>, i: nat)
    requires i < |Run(start, steps).logs.changes|
    ensures Justified(Run(start, steps).logs, Run(start, steps).logs.changes[i])
  {
    RunIsSound(start, steps);
    ChangeIsJustified(Run(start, steps).db, Run(start, steps).logs, i);
  }

  /** The step logged one change, of this user to this address. */
  predicate LoggedChange(logs: Logs, logs': Logs, u: Id, address: string) {
    && |logs'.changes| == |logs.changes| + 1 && logs'.changes[..|logs.changes|] == logs.changes
    && logs'.changes[|logs.changes|].user == u && logs'.changes[|logs.changes|].address == address
  }

  /** What a step does to the address of a user there is. */
  ghost predicate AddressMoves(w: World, w': World, u: Id) {
    && u in w.db.users && u in w'.db.users
    && (|| w'.db.users[u].email == w.db.users[u].email
        || (w'.db.users[u].deleted && Pseudonymous(w'.db.users[u].email))
        || LoggedChange(w.logs, w'.logs, u, w'.db.users[u].email))
  }

  predicate AddressStays(w: World, w': World, u: Id) {
    u in w.db.users && u in w'.db.users && w'.db.users[u].email == w.db.users[u].email
  }

  lemma ReadStays(w: World, k: nat, u: Id)
    requires u in w.db.users && k in w.threads && !Writes(w.threads[k])
    ensures AddressStays(w, Advance(w, k), u)
  {
    assert Advance(w, k) == Moved(w, k, Read(w.db, w.now, w.threads[k]));
  }

  lemma WriteStays(w: World, k: nat, u: Id)
    requires u in w.db.users && k in w.threads && Writes(w.threads[k]) && !w.threads[k].Apply?
    ensures AddressStays(w, Advance(w, k), u)
  {
  }

  lemma ApplyMoves(w: World, k: nat, u: Id)
    requires u in w.db.users && k in w.threads && w.threads[k].Apply?
    ensures AddressMoves(w, Advance(w, k), u)
  {
    ApplyAdvances(w, k);
  }

  lemma TurnMoves(w: World, k: nat, u: Id)
    requires u in w.db.users && k in w.threads
    ensures AddressMoves(w, Advance(w, k), u)
  {
    if w.threads[k].Apply? {
      ApplyMoves(w, k, u);
    } else if Writes(w.threads[k]) {
      WriteStays(w, k, u);
    } else {
      ReadStays(w, k, u);
    }
  }

  lemma DeleteMoves(w: World, v: Id, p: Pseudonym, u: Id)
    requires u in w.db.users
    ensures AddressMoves(w, Perform(w, DeleteUser(v, p)), u)
  {
    assert Pseudonymous(PseudonymEmail(p));
  }

  lemma OtherWriteStays(w: World, write: Write, u: Id)
    requires TablesOk(w.db) && u in w.db.users && !write.DeleteUser?
    ensures AddressStays(w, Perform(w, write), u)
  {
  }

  lemma PerformMoves(w: World, write: Write, u: Id)
    requires TablesOk(w.db) && u in w.db.users
    ensures AddressMoves(w, Perform(w, write), u)
  {
    if write.DeleteUser? {
      DeleteMoves(w, write.u, write.pseudonym, u);
    } else {
      OtherWriteStays(w, write, u);
    }
  }

  lemma NextMoves(w: World, step: Step, u: Id)
    requires Sound(w) && u in w.db.users
    ensures AddressMoves(w, Next(w, step), u)
  {
    match step
    case Tick(_) =>
    case Elsewhere(write) => PerformMoves(w, write, u);
    case Arrive(_, _) =>
    case Turn(k) =>
      if k in w.threads { TurnMoves(w, k, u); }
  }

  /** And nothing else moves one: in each step of a run a user's address stays, or the user is deleted under a
      pseudonym, or the step logs exactly one change, justified as above, of that user to that address. */
  lemma {:induction false} AddressesMoveByJustifiedChanges(start: Time, steps: seq<Step>, step: Step, u: Id)
    requires u in Run(start, steps).db.users
    ensures var w, w' := Run(start, steps), Run(start, steps + [step]);
      && w' == Next(w, step) && u in w'.db.users
      && (|| w'.db.users[u].email == w.db.users[u].email
          || (w'.db.users[u].deleted && Pseudonymous(w'.db.users[u].email))
          || (&& LoggedChange(w.logs, w'.logs, u, w'.db.users[u].email)
              && Justified(w'.logs, w'.logs.changes[|w.logs.changes|])))
  {
    var w, w' := Run(start, steps), Run(start, steps + [step]);
    assert (steps + [step])[..|steps|] == steps;
    RunIsSound(start, steps);
    RunIsSound(start, steps + [step]);
    NextMoves(w, step, u);
    if LoggedChange(w.logs, w'.logs, u, w'.db.users[u].email) {
      ChangeIsJustified(w'.db, w'.logs, |w.logs.changes|);
    }
  }
}
