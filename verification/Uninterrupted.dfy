/** The interleaved model and the operations agree: a request whose steps nobody interrupts does to the
    tables what its operation does. */
module Uninterrupted {
  import opened Text
  import opened AuthTables
  import opened AuthSpec
  import opened Interleaving

  /** The request takes its turn `turns` times, with nothing in between. */
  ghost function Drive(w: World, k: nat, turns: nat): World
    decreases turns
  {
    if turns == 0 then w else Drive(Advance(w, k), k, turns - 1)
  }

  // ─── What is left of a request, as one operation ───────────────────────────

  /** The tables once the proof is passed and what it was wanted for is done. */
  ghost function Rest(db: Db, now: Time, u: Id, goal: Goal): Db
    requires u in db.users
  {
    if goal.ForOther? || goal.address == Lower(goal.seen) || EmailInUse(db, goal.address)
       || LiveClaimByOther(db, u, goal.address)
    then db else AskForEmail(db, u, goal.address, now)
  }

  ghost function SpentThenRest(db: Db, now: Time, u: Id, s: Id, goal: Goal, readAt: Time): Db
    requires u in db.users
  {
    if ProofFresh(db, s, readAt)
    then Rest(SetSession(db, s, db.sessions[s].(reauthenticatedAt := None)), now, u, goal)
    else db
  }

  ghost function ProvedThenRest(db: Db, now: Time, u: Id, s: Id, goal: Goal, password: Option<string>): Db
    requires u in db.users
  {
    if Given(password) && PasswordOf(db, u) == Some(Bcrypt(password.value)) then Rest(db, now, u, goal)
    else SpentThenRest(db, now, u, s, goal, now)
  }

  ghost function Applied(db: Db, t: Id, u: Id, address: string): Db
    requires u in db.users && t in db.tokens
  {
    if ChangeCollides(db.users, db.accounts, u, address) then db
    else MarkTokenUsed(ApplyEmailChange(db, u, address), t)
  }

  ghost function ClaimedThenApplied(db: Db, t: Id, u: Id, address: string): Db
    requires u in db.users && t in db.tokens
  {
    if LiveClaimByOther(db, u, address) then db else Applied(ReleaseOtherClaim(db, u, address), t, u, address)
  }

  ghost function MatchedThenApplied(db: Db, t: Id, u: Id, metadata: Metadata): Db
    requires u in db.users && t in db.tokens
  {
    var pending := db.users[u].pendingEmail;
    if pending.None? || pending.value == "" || !metadata.NewEmail? || metadata.address == ""
       || Lower(pending.value) != Lower(metadata.address) || EmailInUse(db, pending.value)
    then db else ClaimedThenApplied(db, t, u, pending.value)
  }

  function Stamped(db: Db, s: Id, at: Time): Db {
    if s in db.sessions then SetSession(db, s, db.sessions[s].(reauthenticatedAt := Some(at))) else db
  }

  /** The rows the rest of a request relies on. */
  ghost predicate Ready(db: Db, thread: Thread) {
    match thread
    case CheckPassword(u, _, _, _) => u in db.users
    case ReadClock(u, _, _) => u in db.users
    case Consume(u, _, _, _) => u in db.users
    case CheckInUse(u, _, _, _) => u in db.users
    case CheckClaim(u, _, _, _) => u in db.users
    case StorePending(u, _, _, _) => u in db.users
    case FindToken(_) => OwnersExist(db)
    case CheckExpiry(found, u, _, _) => u in db.users && found.token in db.tokens
    case ReadPending(found, u, _, _) => u in db.users && found.token in db.tokens
    case RecheckInUse(found, u, _, _) => u in db.users && found.token in db.tokens
    case RecheckClaim(found, u, _, _) => u in db.users && found.token in db.tokens
    case ReleaseClaim(found, u, _, _, _) => u in db.users && found.token in db.tokens
    case Apply(found, u, _, _) => u in db.users && found.token in db.tokens
    case SpendToken(t) => t in db.tokens
    case _ => true
  }

  /** What the rest of a request does to the tables. */
  ghost function Meaning(db: Db, now: Time, thread: Thread): Db
    requires Ready(db, thread)
  {
    match thread
    case FindUser(u, s, newEmail, password) => RequestEmailChange(db, now, u, s, newEmail, password).db
    case CheckPassword(u, s, goal, password) => ProvedThenRest(db, now, u, s, goal, password)
    case ReadClock(u, s, goal) => SpentThenRest(db, now, u, s, goal, now)
    case Consume(u, s, goal, readAt) => SpentThenRest(db, now, u, s, goal, readAt)
    case CheckInUse(u, _, address, _) =>
      if EmailInUse(db, address) || LiveClaimByOther(db, u, address) then db else AskForEmail(db, u, address, now)
    case CheckClaim(u, _, address, _) =>
      if LiveClaimByOther(db, u, address) then db else AskForEmail(db, u, address, now)
    case StorePending(u, _, address, _) => AskForEmail(db, u, address, now)
    case SpendOld(u, address, _) => InsertToken(InvalidateTokens(db, u, EMAIL_CHANGE), TokenFor(u, address, now))
    case Issue(u, address, _) => InsertToken(db, TokenFor(u, address, now))
    case FindToken(t) => ConfirmEmailChange(db, now, t).db
    case CheckExpiry(found, u, metadata, expiresAt) =>
      if expiresAt < now then db else MatchedThenApplied(db, found.token, u, metadata)
    case ReadPending(found, u, metadata, _) => MatchedThenApplied(db, found.token, u, metadata)
    case RecheckInUse(found, u, address, _) =>
      if EmailInUse(db, address) then db else ClaimedThenApplied(db, found.token, u, address)
    case RecheckClaim(found, u, address, _) => ClaimedThenApplied(db, found.token, u, address)
    case ReleaseClaim(found, u, address, _, holder) =>
      Applied(ReleaseIdentityClaims(db, holder), found.token, u, address)
    case Apply(found, u, address, _) => Applied(db, found.token, u, address)
    case SpendToken(t) => MarkTokenUsed(db, t)
    case CheckLink(u, s, googleId) => ReauthenticateWithGoogle(db, now, u, s, googleId).db
    case ReadStampClock(_, s, _, _) => Stamped(db, s, now)
    case WriteStamp(_, s, _, _, at) => Stamped(db, s, at)
    case Over => db
  }

  /** More turns than this no request takes. */
  function Left(thread: Thread): nat {
    match thread
    case FindUser(_, _, _, _) => 9
    case CheckPassword(_, _, _, _) => 8
    case ReadClock(_, _, _) => 7
    case Consume(_, _, _, _) => 6
    case CheckInUse(_, _, _, _) => 5
    case CheckClaim(_, _, _, _) => 4
    case StorePending(_, _, _, _) => 3
    case SpendOld(_, _, _) => 2
    case Issue(_, _, _) => 1
    case FindToken(_) => 8
    case CheckExpiry(_, _, _, _) => 7
    case ReadPending(_, _, _, _) => 6
    case RecheckInUse(_, _, _, _) => 5
    case RecheckClaim(_, _, _, _) => 4
    case ReleaseClaim(_, _, _, _, _) => 3
    case Apply(_, _, _, _) => 2
    case SpendToken(_) => 1
    case CheckLink(_, _, _) => 3
    case ReadStampClock(_, _, _, _) => 2
    case WriteStamp(_, _, _, _, _) => 1
    case Over => 0
  }

  // ─── A turn leaves the meaning as it was ───────────────────────────────────

  /** The request has come closer to its end, with the same outcome ahead. */
  ghost predicate SameAhead(db: Db, now: Time, thread: Thread, db': Db, thread': Thread) {
    && Ready(db, thread) && Ready(db', thread') && Meaning(db', now, thread') == Meaning(db, now, thread)
    && (Left(thread') < Left(thread) || (thread == Over && thread' == Over))
  }

  lemma RequestReads(db: Db, now: Time, thread: Thread)
    requires Ready(db, thread)
    requires thread.FindUser? || thread.ReadClock? || thread.CheckInUse? || thread.CheckClaim?
    ensures SameAhead(db, now, thread, db, Read(db, now, thread))
  {
  }

  lemma ClaimReads(db: Db, now: Time, thread: Thread)
    requires Ready(db, thread) && thread.RecheckClaim?
    ensures SameAhead(db, now, thread, db, Read(db, now, thread))
  {
  }

  lemma ConfirmReads(db: Db, now: Time, thread: Thread)
    requires Ready(db, thread) && (thread.CheckExpiry? || thread.ReadPending? || thread.RecheckInUse?)
    ensures SameAhead(db, now, thread, db, Read(db, now, thread))
  {
  }

  lemma ReadAhead(w: World, k: nat)
    requires k in w.threads && !Writes(w.threads[k]) && Ready(w.db, w.threads[k])
    ensures SameAhead(w.db, w.now, w.threads[k], w.db, Read(w.db, w.now, w.threads[k]))
    ensures Advance(w, k) == Moved(w, k, Read(w.db, w.now, w.threads[k]))
  {
    var thread := w.threads[k];
    if thread.FindUser? || thread.ReadClock? || thread.CheckInUse? || thread.CheckClaim? {
      RequestReads(w.db, w.now, thread);
    } else if thread.CheckExpiry? || thread.ReadPending? || thread.RecheckInUse? {
      ConfirmReads(w.db, w.now, thread);
    } else if thread.RecheckClaim? {
      ClaimReads(w.db, w.now, thread);
    }
  }

  lemma PassedAhead(w: World, k: nat, pass: Pass)
    requires pass.user in w.db.users
    ensures var w' := Passed(w, k, pass);
      && w'.db == w.db && Ready(w.db, w'.threads[k]) && Left(w'.threads[k]) <= 5
      && Meaning(w.db, w.now, w'.threads[k]) == Rest(w.db, w.now, pass.user, pass.goal)
  {
  }

  lemma PasswordAhead(w: World, k: nat, u: Id, s: Id, goal: Goal, password: Option<string>)
    requires k in w.threads && w.threads[k] == CheckPassword(u, s, goal, password) && u in w.db.users
    ensures var w' := CheckPasswordStep(w, k, u, s, goal, password);
      k in w'.threads && w'.now == w.now && SameAhead(w.db, w.now, w.threads[k], w'.db, w'.threads[k])
  {
    PassedAhead(w, k, Pass(s, u, ByPassword, w.now, goal));
  }

  lemma ConsumeAhead(w: World, k: nat, u: Id, s: Id, goal: Goal, readAt: Time)
    requires k in w.threads && w.threads[k] == Consume(u, s, goal, readAt) && u in w.db.users
    ensures var w' := ConsumeStep(w, k, u, s, goal, readAt);
      k in w'.threads && w'.now == w.now && SameAhead(w.db, w.now, w.threads[k], w'.db, w'.threads[k])
  {
    if ProofFresh(w.db, s, readAt) {
      var spent := w.(db := SetSession(w.db, s, w.db.sessions[s].(reauthenticatedAt := None)));
      PassedAhead(spent, k, Pass(s, u, ByGoogle(StampOn(w.logs, s)), readAt, goal));
    }
  }

  lemma FindTokenAhead(w: World, k: nat, t: Id)
    requires k in w.threads && w.threads[k] == FindToken(t) && OwnersExist(w.db)
    ensures var w' := FindTokenStep(w, k, t);
      k in w'.threads && w'.now == w.now && SameAhead(w.db, w.now, w.threads[k], w'.db, w'.threads[k])
  {
  }

  lemma CheckLinkAhead(w: World, k: nat, u: Id, s: Id, googleId: string)
    requires k in w.threads && w.threads[k] == CheckLink(u, s, googleId)
    ensures var w' := CheckLinkStep(w, k, u, s, googleId);
      k in w'.threads && w'.now == w.now && SameAhead(w.db, w.now, w.threads[k], w'.db, w'.threads[k])
  {
  }

  /** The world after a turn: the same outcome ahead of the request. */
  ghost predicate Ahead(w: World, k: nat, w': World)
    requires k in w.threads
  {
    k in w'.threads && w'.now == w.now && SameAhead(w.db, w.now, w.threads[k], w'.db, w'.threads[k])
  }

  lemma CheckAhead(w: World, k: nat)
    requires k in w.threads && Ready(w.db, w.threads[k])
    requires var thread := w.threads[k];
      thread.CheckPassword? || thread.Consume? || thread.FindToken? || thread.CheckLink?
    ensures Ahead(w, k, Advance(w, k))
  {
    match w.threads[k]
    case CheckPassword(u, s, goal, password) => PasswordAhead(w, k, u, s, goal, password);
    case Consume(u, s, goal, readAt) => ConsumeAhead(w, k, u, s, goal, readAt);
    case FindToken(t) => FindTokenAhead(w, k, t);
    case CheckLink(u, s, googleId) => CheckLinkAhead(w, k, u, s, googleId);
  }

  lemma AskAhead(w: World, k: nat)
    requires k in w.threads && Ready(w.db, w.threads[k])
    requires w.threads[k].StorePending? || w.threads[k].SpendOld? || w.threads[k].Issue?
    ensures Ahead(w, k, Advance(w, k))
  {
  }

  lemma ApplyAhead(w: World, k: nat, found: Found, u: Id, address: string, checkedAt: Time)
    requires k in w.threads && w.threads[k] == Apply(found, u, address, checkedAt) && Ready(w.db, w.threads[k])
    ensures var w' := ApplyStep(w, k, found, u, address, checkedAt);
      k in w'.threads && w'.now == w.now && SameAhead(w.db, w.now, w.threads[k], w'.db, w'.threads[k])
  {
  }

  lemma FinishAhead(w: World, k: nat)
    requires k in w.threads && Ready(w.db, w.threads[k])
    requires w.threads[k].ReleaseClaim? || w.threads[k].SpendToken? || w.threads[k].WriteStamp?
    ensures Ahead(w, k, Advance(w, k))
  {
  }

  lemma WriteAhead(w: World, k: nat)
    requires k in w.threads && Ready(w.db, w.threads[k]) && Writes(w.threads[k])
    requires var thread := w.threads[k];
      !thread.CheckPassword? && !thread.Consume? && !thread.FindToken? && !thread.CheckLink?
    ensures Ahead(w, k, Advance(w, k))
  {
    var thread := w.threads[k];
    if thread.Apply? {
      ApplyAhead(w, k, thread.found, thread.u, thread.address, thread.checkedAt);
    } else if thread.ReleaseClaim? || thread.SpendToken? || thread.WriteStamp? {
      FinishAhead(w, k);
    } else {
      AskAhead(w, k);
    }
  }

  lemma TurnAhead(w: World, k: nat)
    requires k in w.threads && Ready(w.db, w.threads[k])
    ensures Ahead(w, k, Advance(w, k))
  {
    var thread := w.threads[k];
    if !Writes(thread) {
      ReadAhead(w, k);
    } else if thread.CheckPassword? || thread.Consume? || thread.FindToken? || thread.CheckLink? {
      CheckAhead(w, k);
    } else {
      WriteAhead(w, k);
    }
  }

  /** Turns enough, uninterrupted, bring what was ahead. */
  lemma {:induction false} DriveMeans(w: World, k: nat, turns: nat)
    requires k in w.threads && Ready(w.db, w.threads[k]) && Left(w.threads[k]) <= turns
    ensures Drive(w, k, turns).db == Meaning(w.db, w.now, w.threads[k])
    decreases turns
  {
    if turns > 0 {
      TurnAhead(w, k);
      DriveMeans(Advance(w, k), k, turns - 1);
    }
  }

  // ─── The requests, uninterrupted ───────────────────────────────────────────

  /** A re-authentication, uninterrupted, is the operation. */
  lemma {:induction false} ReauthenticateAlone(w: World, k: nat, u: Id, s: Id, googleId: string, turns: nat)
    requires k in w.threads && w.threads[k] == CheckLink(u, s, googleId) && turns >= 3
    ensures Drive(w, k, turns).db == ReauthenticateWithGoogle(w.db, w.now, u, s, googleId).db
  {
    DriveMeans(w, k, turns);
  }

  /** A sensitive action's proof, uninterrupted, is the operation's. */
  lemma {:induction false} SensitiveAlone(w: World, k: nat, u: Id, s: Id, password: Option<string>, turns: nat)
    requires k in w.threads && w.threads[k] == CheckPassword(u, s, ForOther, password) && u in w.db.users && turns >= 8
    ensures Drive(w, k, turns).db == AssertRecentlyAuthenticated(w.db, w.now, u, s, password).db
  {
    DriveMeans(w, k, turns);
  }

  /** A request for an address, uninterrupted, is the operation. */
  lemma {:induction false} RequestAlone(
    w: World, k: nat, u: Id, s: Id, newEmail: string, password: Option<string>, turns: nat)
    requires k in w.threads && w.threads[k] == FindUser(u, s, newEmail, password) && turns >= 9
    ensures Drive(w, k, turns).db == RequestEmailChange(w.db, w.now, u, s, newEmail, password).db
  {
    DriveMeans(w, k, turns);
  }

  /** A confirmation, uninterrupted, is the operation. */
  lemma {:induction false} ConfirmAlone(w: World, k: nat, t: Id, turns: nat)
    requires k in w.threads && w.threads[k] == FindToken(t) && OwnersExist(w.db) && turns >= 8
    ensures Drive(w, k, turns).db == ConfirmEmailChange(w.db, w.now, t).db
  {
    DriveMeans(w, k, turns);
  }
}
