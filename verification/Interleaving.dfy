/** Email change and re-authentication when requests run at the same time: every repository call is one
    atomic step, the steps of all requests in flight interleave in any order, and anything else the system
    does may happen in between. Logs, which the steps never read, record what was proved, asked for and
    changed. */
module Interleaving {
  import opened Text
  import opened AuthTables
  import opened AuthSpec

  // ─── Requests in flight ────────────────────────────────────────────────────

  /** What a passed proof is wanted for: a new address, or some other sensitive action. */
  datatype Goal = ForAddress(address: string, seen: string) | ForOther

  /** A token a confirmation found unused, and the step at which it did. */
  datatype Found = Found(token: Id, turn: nat)

  /** A request, at the step it takes next. */
  datatype Thread =
    // A sensitive action on a session
    | FindUser(u: Id, s: Id, newEmail: string, password: Option<string>)
    | CheckPassword(u: Id, s: Id, goal: Goal, password: Option<string>)
    | ReadClock(u: Id, s: Id, goal: Goal)
    | Consume(u: Id, s: Id, goal: Goal, readAt: Time)
    // The rest of a request for a new address
    | CheckInUse(u: Id, s: Id, address: string, pass: nat)
    | CheckClaim(u: Id, s: Id, address: string, pass: nat)
    | StorePending(u: Id, s: Id, address: string, pass: nat)
    | SpendOld(u: Id, address: string, ask: nat)
    | Issue(u: Id, address: string, ask: nat)
    // A confirmation
    | FindToken(t: Id)
    | CheckExpiry(found: Found, u: Id, metadata: Metadata, expiresAt: Time)
    | ReadPending(found: Found, u: Id, metadata: Metadata, checkedAt: Time)
    | RecheckInUse(found: Found, u: Id, address: string, checkedAt: Time)
    | RecheckClaim(found: Found, u: Id, address: string, checkedAt: Time)
    | ReleaseClaim(found: Found, u: Id, address: string, checkedAt: Time, holder: Id)
    | Apply(found: Found, u: Id, address: string, checkedAt: Time)
    | SpendToken(t: Id)
    // A re-authentication through Google
    | CheckLink(u: Id, s: Id, googleId: string)
    | ReadStampClock(u: Id, s: Id, googleId: string, checked: nat)
    | WriteStamp(u: Id, s: Id, googleId: string, checked: nat, at: Time)
    | Over

  // ─── Logs ──────────────────────────────────────────────────────────────────

  datatype Proof = ByPassword | ByGoogle(stamp: nat)

  /** `checked` is the step at which the identity was found linked to the user. */
  datatype Stamp = Stamp(session: Id, user: Id, googleId: string, checked: nat, at: Time)
  datatype Pass = Pass(session: Id, user: Id, proof: Proof, readAt: Time, goal: Goal)
  /** `passed` is how many proofs had been passed when the address was asked for. */
  datatype Ask = Ask(user: Id, session: Id, address: string, pass: nat, passed: nat)
  /** `asked` is how many requests for an address had been recorded when the address was changed. */
  datatype Change = Change(user: Id, address: string, found: Found, checkedAt: Time, asked: nat)

  /** An email-change token as it was issued, and the request it was issued for. */
  datatype Issued = Issued(token: Token, ask: nat)

  /** The last stamp of each session, the identities found linked, the tokens found unused and the
      email-change tokens issued, beside the four lists. */
  datatype Logs = Logs(
    stamps: seq<Stamp>, passes: seq<Pass>, asks: seq<Ask>, changes: seq<Change>,
    current: map<Id, nat>, checks: set<(string, Id, nat)>, finds: set<Found>, issued: map<Id, Issued>)

  /** The stamp a session carries, by its place in the log. */
  function StampOn(logs: Logs, s: Id): nat {
    if s in logs.current then logs.current[s] else 0
  }

  /** `turn` counts the steps taken. */
  datatype World = World(db: Db, now: Time, threads: map<nat, Thread>, logs: Logs, turn: nat)

  // ─── One request's next step ───────────────────────────────────────────────

  function After(goal: Goal, u: Id, s: Id, pass: nat): Thread {
    match goal
    case ForOther => Over
    case ForAddress(address, seen) => if address == Lower(seen) then Over else CheckInUse(u, s, address, pass)
  }

  /** A step that only reads. */
  ghost function Read(db: Db, now: Time, thread: Thread): Thread {
    match thread
    case FindUser(u, s, newEmail, password) =>
      if Live(db, u) then CheckPassword(u, s, ForAddress(Normalize(newEmail), db.users[u].email), password) else Over
    case ReadClock(u, s, goal) => Consume(u, s, goal, now)
    case CheckInUse(u, s, address, pass) => if EmailInUse(db, address) then Over else CheckClaim(u, s, address, pass)
    case CheckClaim(u, s, address, pass) =>
      if LiveClaimByOther(db, u, address) then Over else StorePending(u, s, address, pass)
    case CheckExpiry(t, u, metadata, expiresAt) => if expiresAt < now then Over else ReadPending(t, u, metadata, now)
    case ReadPending(t, u, metadata, checkedAt) =>
      if u in db.users && db.users[u].pendingEmail.Some? && db.users[u].pendingEmail.value != ""
         && metadata.NewEmail? && metadata.address != ""
         && Lower(db.users[u].pendingEmail.value) == Lower(metadata.address)
      then RecheckInUse(t, u, db.users[u].pendingEmail.value, checkedAt) else Over
    case RecheckInUse(t, u, address, checkedAt) =>
      if EmailInUse(db, address) then Over else RecheckClaim(t, u, address, checkedAt)
    case RecheckClaim(t, u, address, checkedAt) =>
      var claim := FindAuthAccount(db, EMAIL, address);
      if claim.None? || db.accounts[claim.value].userId == u then Apply(t, u, address, checkedAt)
      else if Live(db, db.accounts[claim.value].userId) then Over
      else ReleaseClaim(t, u, address, checkedAt, db.accounts[claim.value].userId)
    case ReadStampClock(u, s, googleId, checked) => WriteStamp(u, s, googleId, checked, now)
    case _ => Over
  }

  /** A step that writes to the tables or the logs. */
  predicate Writes(thread: Thread) {
    || thread.CheckPassword? || thread.Consume? || thread.StorePending? || thread.SpendOld? || thread.Issue?
    || thread.FindToken? || thread.ReleaseClaim? || thread.Apply? || thread.SpendToken?
    || thread.CheckLink? || thread.WriteStamp?
  }

  function Moved(w: World, k: nat, next: Thread): World {
    w.(threads := w.threads[k := next])
  }

  /** The passing of a proof is logged, and the request goes on. */
  function Passed(w: World, k: nat, pass: Pass): World {
    Moved(w, k, After(pass.goal, pass.user, pass.session, |w.logs.passes|)).(
      logs := w.logs.(passes := w.logs.passes + [pass]))
  }

  ghost function CheckPasswordStep(w: World, k: nat, u: Id, s: Id, goal: Goal, password: Option<string>): World {
    if Given(password) && PasswordOf(w.db, u) == Some(Bcrypt(password.value))
    then Passed(w, k, Pass(s, u, ByPassword, w.now, goal))
    else Moved(w, k, ReadClock(u, s, goal))
  }

  /** The conditional update: the proof is cleared only if it is recent enough when the row is written. */
  function ConsumeStep(w: World, k: nat, u: Id, s: Id, goal: Goal, readAt: Time): World {
    if ProofFresh(w.db, s, readAt)
    then
      var spent := w.(db := SetSession(w.db, s, w.db.sessions[s].(reauthenticatedAt := None)));
      Passed(spent, k, Pass(s, u, ByGoogle(StampOn(w.logs, s)), readAt, goal))
    else Moved(w, k, Over)
  }

  function StorePendingStep(w: World, k: nat, ask: Ask): World {
    if ask.user !in w.db.users then Moved(w, k, Over)
    else
      Moved(w, k, SpendOld(ask.user, ask.address, |w.logs.asks|)).(
        db := SetUser(w.db, ask.user, w.db.users[ask.user].(pendingEmail := Some(ask.address))),
        logs := w.logs.(asks := w.logs.asks + [ask]))
  }

  function TokenFor(u: Id, address: string, now: Time): Token {
    NewToken(u, EMAIL_CHANGE, NewEmail(address), now + PASSWORD_RESET_TOKEN_TTL)
  }

  function IssueStep(w: World, k: nat, issued: Issued): World {
    Moved(w, k, Over).(
      db := InsertToken(w.db, issued.token), logs := w.logs.(issued := w.logs.issued[w.db.next := issued]))
  }

  function FindTokenStep(w: World, k: nat, t: Id): World {
    if UsableToken(w.db, t, EMAIL_CHANGE)
    then
      var found, token := Found(t, w.turn), w.db.tokens[t];
      Moved(w, k, CheckExpiry(found, token.userId, token.metadata, token.expiresAt)).(
        logs := w.logs.(finds := w.logs.finds + {found}))
    else Moved(w, k, Over)
  }

  function ApplyStep(w: World, k: nat, t: Found, u: Id, address: string, checkedAt: Time): World {
    if u !in w.db.users || ChangeCollides(w.db.users, w.db.accounts, u, address) then Moved(w, k, Over)
    else
      Moved(w, k, SpendToken(t.token)).(
        db := ApplyEmailChange(w.db, u, address),
        logs := w.logs.(changes := w.logs.changes + [Change(u, address, t, checkedAt, |w.logs.asks|)]))
  }

  /** The Google identity is linked to the user. */
  ghost predicate HasIdentity(db: Db, u: Id, googleId: string) {
    exists a :: IsAccount(db, a, GOOGLE, googleId) && db.accounts[a].userId == u
  }

  ghost predicate FoundLinked(db: Db, u: Id, googleId: string) {
    var account := FindAuthAccount(db, GOOGLE, googleId);
    account.Some? && db.accounts[account.value].userId == u
  }

  ghost function CheckLinkStep(w: World, k: nat, u: Id, s: Id, googleId: string): World {
    if FoundLinked(w.db, u, googleId)
    then Moved(w, k, ReadStampClock(u, s, googleId, w.turn)).(
           logs := w.logs.(checks := w.logs.checks + {(googleId, u, w.turn)}))
    else Moved(w, k, Over)
  }

  function WriteStampStep(w: World, k: nat, stamp: Stamp): World {
    var s := stamp.session;
    if s !in w.db.sessions then Moved(w, k, Over)
    else
      Moved(w, k, Over).(
        db := SetSession(w.db, s, w.db.sessions[s].(reauthenticatedAt := Some(stamp.at))),
        logs := w.logs.(stamps := w.logs.stamps + [stamp], current := w.logs.current[s := |w.logs.stamps|]))
  }

  ghost function Advance(w: World, k: nat): World {
    if k !in w.threads then w
    else
      match w.threads[k]
      case CheckPassword(u, s, goal, password) => CheckPasswordStep(w, k, u, s, goal, password)
      case Consume(u, s, goal, readAt) => ConsumeStep(w, k, u, s, goal, readAt)
      case StorePending(u, s, address, pass) => StorePendingStep(w, k, Ask(u, s, address, pass, |w.logs.passes|))
      case SpendOld(u, address, ask) =>
        Moved(w, k, Issue(u, address, ask)).(db := InvalidateTokens(w.db, u, EMAIL_CHANGE))
      case Issue(u, address, ask) => IssueStep(w, k, Issued(TokenFor(u, address, w.now), ask))
      case FindToken(t) => FindTokenStep(w, k, t)
      case ReleaseClaim(t, u, address, checkedAt, holder) =>
        Moved(w, k, Apply(t, u, address, checkedAt)).(db := ReleaseIdentityClaims(w.db, holder))
      case Apply(t, u, address, checkedAt) => ApplyStep(w, k, t, u, address, checkedAt)
      case SpendToken(t) => Moved(w, k, Over).(db := if t in w.db.tokens then MarkTokenUsed(w.db, t) else w.db)
      case CheckLink(u, s, googleId) => CheckLinkStep(w, k, u, s, googleId)
      case WriteStamp(u, s, googleId, checked, at) => WriteStampStep(w, k, Stamp(s, u, googleId, checked, at))
      case thread => Moved(w, k, Read(w.db, w.now, thread))
  }

  // ─── Everything else the system does ───────────────────────────────────────

  /** The other writes to the tables: those of every other operation, deletion included. */
  datatype Write =
    | AddUser(email: string, username: string, dob: Option<Time>, verified: bool,
              provider: Provider, identifier: string, hash: Option<PasswordHash>)
    | TouchUser(u: Id, username: string, dob: Option<Time>, verified: bool, suspended: bool, roles: set<Role>)
    | DeleteUser(u: Id, pseudonym: Pseudonym)
    | AddAccount(account: Account)
    | RemoveAccounts(gone: set<Id>)
    | ChangeHash(a: Id, hash: Option<PasswordHash>)
    | AddSession(u: Id, expiresAt: Time)
    | RenewSession(s: Id, expiresAt: Time)
    | RemoveSessions(gone: set<Id>)
    | AddToken(u: Id, kind: TokenType, metadata: Metadata, expiresAt: Time)
    | UseTokens(spent: set<Id>)
    | RemoveTokens(gone: set<Id>)

  function Used(tokens: Tokens, spent: set<Id>): Tokens {
    map t | t in tokens :: if t in spent then tokens[t].(used := true) else tokens[t]
  }

  /** The columns of a user that other operations write: all but the address and the one waited for. */
  function Touched(
    user: User, username: string, dob: Option<Time>, verified: bool, suspended: bool, roles: set<Role>): User {
    user.(username := username, dob := dob, verified := verified, suspended := suspended, roles := roles)
  }

  ghost function Perform(w: World, write: Write): World {
    match write
    case AddUser(email, username, dob, verified, provider, identifier, hash) =>
      if InsertCollides(w.db, email, username, provider, identifier) then w
      else
        var user := User(email, username, None, dob, verified, false, false, {VRATARTHI});
        w.(db := InsertUser(w.db, user, provider, identifier, hash))
    case TouchUser(u, username, dob, verified, suspended, roles) =>
      if u !in w.db.users then w
      else w.(db := SetUser(w.db, u, Touched(w.db.users[u], username, dob, verified, suspended, roles)))
    case DeleteUser(u, p) =>
      if u !in w.db.users then w else w.(db := SetUser(w.db, u, Anonymous(w.db.users[u], p)))
    case AddAccount(account) =>
      if FindAuthAccount(w.db, account.provider, account.identifier).Some? then w
      else w.(db := InsertAccount(w.db, account))
    case RemoveAccounts(gone) => w.(db := w.db.(accounts := w.db.accounts - gone))
    case ChangeHash(a, hash) =>
      if a !in w.db.accounts then w
      else w.(db := w.db.(accounts := w.db.accounts[a := w.db.accounts[a].(passwordHash := hash)]))
    case AddSession(u, expiresAt) =>
      if u !in w.db.users then w else w.(db := InsertSession(w.db, Session(u, expiresAt, None)))
    case RenewSession(s, expiresAt) =>
      if s !in w.db.sessions then w else w.(db := SetSession(w.db, s, w.db.sessions[s].(expiresAt := expiresAt)))
    case RemoveSessions(gone) => w.(db := w.db.(sessions := w.db.sessions - gone))
    case AddToken(u, kind, metadata, expiresAt) =>
      if u !in w.db.users || kind == EMAIL_CHANGE then w
      else w.(db := InsertToken(w.db, NewToken(u, kind, metadata, expiresAt)))
    case UseTokens(spent) => w.(db := w.db.(tokens := Used(w.db.tokens, spent)))
    case RemoveTokens(gone) => w.(db := w.db.(tokens := w.db.tokens - gone))
  }

  // ─── Runs ──────────────────────────────────────────────────────────────────

  /** How a request starts: a signed-in one on a session its user holds. */
  datatype Arrival =
    | NewAddress(s: Id, newEmail: string, password: Option<string>)
    | Sensitive(s: Id, password: Option<string>)
    | Reauthenticate(s: Id, googleId: string)
    | Confirm(t: Id)

  function Started(db: Db, arrival: Arrival): Thread {
    match arrival
    case NewAddress(s, newEmail, password) =>
      if s in db.sessions then FindUser(db.sessions[s].userId, s, newEmail, password) else Over
    case Sensitive(s, password) =>
      if s in db.sessions then CheckPassword(db.sessions[s].userId, s, ForOther, password) else Over
    case Reauthenticate(s, googleId) =>
      if s in db.sessions then CheckLink(db.sessions[s].userId, s, googleId) else Over
    case Confirm(t) => FindToken(t)
  }

  datatype Step = Tick(elapsed: nat) | Elsewhere(write: Write) | Arrive(k: nat, arrival: Arrival) | Turn(k: nat)

  ghost function Taken(w: World, step: Step): World {
    match step
    case Tick(elapsed) => w.(now := w.now + elapsed)
    case Elsewhere(write) => Perform(w, write)
    case Arrive(k, arrival) => if k in w.threads then w else Moved(w, k, Started(w.db, arrival))
    case Turn(k) => Advance(w, k)
  }

  ghost function Next(w: World, step: Step): World {
    Taken(w, step).(turn := w.turn + 1)
  }

  const NOTHING := Logs([], [], [], [], map[], {}, {}, map[])

  ghost function Run(start: Time, steps: seq<Step>): World {
    if steps == [] then World(EMPTY_DB, start, map[], NOTHING, 0)
    else Next(Run(start, steps[..|steps| - 1]), steps[|steps| - 1])
  }
}
