/** What a proof is good for, whatever runs at the same time: a stamp serves one pass, a pass one request, a
    request one token, and a token no confirmation that starts once it is spent; and an identity vouches for a
    user only while it is linked to that user. */
module ProofUse {
  import opened Text
  import opened AuthTables
  import opened AuthSpec
  import opened Interleaving
  import opened Provenance

  // ─── A pass serves one request ─────────────────────────────────────────────

  /** The pass a request for an address still has to use. */
  function PassHeld(thread: Thread): Option<nat> {
    match thread
    case CheckInUse(_, _, _, pass) => Some(pass)
    case CheckClaim(_, _, _, pass) => Some(pass)
    case StorePending(_, _, _, pass) => Some(pass)
    case _ => None
  }

  predicate Unused(asks: seq<Ask>, pass: nat) {
    forall i :: 0 <= i < |asks| ==> asks[i].pass != pass
  }

  predicate AsksInject(asks: seq<Ask>) {
    forall i, j :: 0 <= i < |asks| && 0 <= j < |asks| && asks[i].pass == asks[j].pass ==> i == j
  }

  /** Of the first n passes, no two requests in flight hold the same one, and none holds one already used. */
  ghost predicate Serving(threads: map<nat, Thread>, asks: seq<Ask>, n: nat) {
    && (forall i :: 0 <= i < |asks| ==> asks[i].pass < n) && AsksInject(asks)
    && (forall k :: k in threads && PassHeld(threads[k]).Some? ==>
          PassHeld(threads[k]).value < n && Unused(asks, PassHeld(threads[k]).value))
    && (forall k, l ::
          k in threads && l in threads && PassHeld(threads[k]).Some? && PassHeld(threads[k]) == PassHeld(threads[l]) ==>
            k == l)
  }

  ghost predicate ServesOnce(w: World) {
    Serving(w.threads, w.logs.asks, |w.logs.passes|)
  }

  lemma MovedServes(threads: map<nat, Thread>, asks: seq<Ask>, n: nat, k: nat, next: Thread)
    requires Serving(threads, asks, n)
    requires PassHeld(next).None? || (k in threads && PassHeld(next) == PassHeld(threads[k]))
    ensures Serving(threads[k := next], asks, n)
  {
  }

  lemma PassedServes(threads: map<nat, Thread>, asks: seq<Ask>, n: nat, k: nat, next: Thread)
    requires Serving(threads, asks, n) && (PassHeld(next).None? || PassHeld(next) == Some(n))
    ensures Serving(threads[k := next], asks, n + 1)
  {
  }

  lemma AskedServes(threads: map<nat, Thread>, asks: seq<Ask>, n: nat, k: nat, next: Thread, ask: Ask)
    requires Serving(threads, asks, n) && k in threads && PassHeld(threads[k]) == Some(ask.pass) && PassHeld(next).None?
    ensures Serving(threads[k := next], asks + [ask], n)
  {
    assert Unused(asks, ask.pass);
  }

  /** The turn moves its own request on, recording no request for an address, and either leaves the pass it
      holds or gives it the one just logged. */
  predicate Holding(w: World, w': World, k: nat)
    requires k in w.threads
  {
    && k in w'.threads && w'.threads == w.threads[k := w'.threads[k]] && w'.logs.asks == w.logs.asks
    && var before, after := PassHeld(w.threads[k]), PassHeld(w'.threads[k]);
       if |w'.logs.passes| == |w.logs.passes| then after.None? || after == before
       else |w'.logs.passes| == |w.logs.passes| + 1 && (after.None? || after == Some(|w.logs.passes|))
  }

  lemma ReadHolds(w: World, k: nat)
    requires k in w.threads && !Writes(w.threads[k])
    ensures Holding(w, Advance(w, k), k)
  {
    var thread := w.threads[k];
    var next := Read(w.db, w.now, thread);
    assert PassHeld(next).None? || PassHeld(next) == PassHeld(thread);
    assert Advance(w, k) == Moved(w, k, next);
  }

  lemma ProofHolds(w: World, k: nat)
    requires k in w.threads && (w.threads[k].CheckPassword? || w.threads[k].Consume?)
    ensures Holding(w, Advance(w, k), k)
  {
  }

  lemma WriteHolds(w: World, k: nat)
    requires k in w.threads && Writes(w.threads[k])
    requires !w.threads[k].StorePending? && !w.threads[k].CheckPassword? && !w.threads[k].Consume?
    ensures Holding(w, Advance(w, k), k)
  {
  }

  lemma StoreServes(w: World, k: nat)
    requires ServesOnce(w) && k in w.threads && w.threads[k].StorePending?
    ensures ServesOnce(Advance(w, k))
  {
    var StorePending(u, s, address, pass) := w.threads[k];
    if u in w.db.users {
      AskedServes(w.threads, w.logs.asks, |w.logs.passes|, k, SpendOld(u, address, |w.logs.asks|),
          Ask(u, s, address, pass, |w.logs.passes|));
    } else {
      MovedServes(w.threads, w.logs.asks, |w.logs.passes|, k, Over);
    }
  }

  lemma TurnServes(w: World, k: nat)
    requires ServesOnce(w) && k in w.threads
    ensures ServesOnce(Advance(w, k))
  {
    if w.threads[k].StorePending? {
      StoreServes(w, k);
    } else {
      var w' := Advance(w, k);
      if !Writes(w.threads[k]) { ReadHolds(w, k); }
      else if w.threads[k].CheckPassword? || w.threads[k].Consume? { ProofHolds(w, k); }
      else { WriteHolds(w, k); }
      if |w'.logs.passes| > |w.logs.passes| {
        PassedServes(w.threads, w.logs.asks, |w.logs.passes|, k, w'.threads[k]);
      } else {
        MovedServes(w.threads, w.logs.asks, |w.logs.passes|, k, w'.threads[k]);
      }
    }
  }

  lemma PerformServes(w: World, write: Write)
    ensures var w' := Perform(w, write);
      && w'.threads == w.threads && w'.logs == w.logs
  {
  }

  lemma NextServes(w: World, step: Step)
    requires ServesOnce(w)
    ensures ServesOnce(Next(w, step))
  {
    match step
    case Tick(_) =>
    case Elsewhere(write) => PerformServes(w, write);
    case Arrive(k, arrival) =>
      if k !in w.threads { MovedServes(w.threads, w.logs.asks, |w.logs.passes|, k, Started(w.db, arrival)); }
    case Turn(k) =>
      if k in w.threads { TurnServes(w, k); }
  }

  lemma {:induction false} RunServes(start: Time, steps: seq<Step>)
    ensures ServesOnce(Run(start, steps))
  {
    if steps != [] {
      RunServes(start, steps[..|steps| - 1]);
      NextServes(Run(start, steps[..|steps| - 1]), steps[|steps| - 1]);
    }
  }

  /** However requests interleave: a request for an address goes through only on a proof passed before it, by
      the same user, in the same session and for that address, and no two requests go through on one. */
  lemma {:induction false} EachPassServesOneRequest(start: Time, steps: seq<Step>, i: nat)
    requires i < |Run(start, steps).logs.asks|
    ensures var logs := Run(start, steps).logs;
      && logs.asks[i].pass < logs.asks[i].passed <= |logs.passes|
      && PassedFor(logs.asks[i], logs.passes[logs.asks[i].pass])
      && forall j :: 0 <= j < |logs.asks| && logs.asks[j].pass == logs.asks[i].pass ==> j == i
  {
    RunIsSound(start, steps);
    RunServes(start, steps);
  }

  // ─── When an identity vouches ──────────────────────────────────────────────

  lemma {:induction false} TurnsCount(start: Time, steps: seq<Step>)
    ensures Run(start, steps).turn == |steps|
  {
    if steps != [] { TurnsCount(start, steps[..|steps| - 1]); }
  }

  /** A step notes that an identity is linked only when it is, and when. */
  lemma NextChecks(w: World, step: Step, googleId: string, u: Id, turn: nat)
    requires (googleId, u, turn) in Next(w, step).logs.checks
    ensures (googleId, u, turn) in w.logs.checks || (turn == w.turn && HasIdentity(w.db, u, googleId))
  {
    if step.Turn? && step.k in w.threads && w.threads[step.k].CheckLink? && (googleId, u, turn) !in w.logs.checks {
      var account := FindAuthAccount(w.db, GOOGLE, googleId);
      assert IsAccount(w.db, account.value, GOOGLE, googleId);
    }
  }

  lemma {:induction false} ChecksHeld(start: Time, steps: seq<Step>, googleId: string, u: Id, turn: nat)
    requires (googleId, u, turn) in Run(start, steps).logs.checks
    ensures turn < |steps| && HasIdentity(Run(start, steps[..turn]).db, u, googleId)
  {
    var before := steps[..|steps| - 1];
    NextChecks(Run(start, before), steps[|steps| - 1], googleId, u, turn);
    TurnsCount(start, before);
    if (googleId, u, turn) in Run(start, before).logs.checks {
      ChecksHeld(start, before, googleId, u, turn);
      assert before[..turn] == steps[..turn];
    } else {
      assert before == steps[..turn];
    }
  }

  /** However requests interleave: every proof passed through Google spends a stamp of its own, put on the
      same session by a Google identity that was linked to the same user in the tables it was checked in,
      and at most ten minutes old when the clock was read. */
  lemma {:induction false} ProofsAreSpentOnce(start: Time, steps: seq<Step>, p: nat)
    requires p < |Run(start, steps).logs.passes| && Run(start, steps).logs.passes[p].proof.ByGoogle?
    ensures var logs := Run(start, steps).logs;
      var pass := logs.passes[p];
      && pass.proof.stamp < |logs.stamps|
      && var stamp := logs.stamps[pass.proof.stamp];
      && stamp.session == pass.session && stamp.user == pass.user
      && stamp.checked < |steps| && HasIdentity(Run(start, steps[..stamp.checked]).db, stamp.user, stamp.googleId)
      && pass.readAt - stamp.at <= REAUTH_WINDOW
      && forall q :: 0 <= q < |logs.passes| && logs.passes[q].proof == pass.proof ==> q == p
  {
    RunIsSound(start, steps);
    var logs := Run(start, steps).logs;
    assert SpentBy(logs.passes[p], logs.stamps);
    var stamp := logs.stamps[logs.passes[p].proof.stamp];
    ChecksHeld(start, steps, stamp.googleId, stamp.user, stamp.checked);
  }

  /** So re-authenticating once through Google lets at most one request for an address through. */
  lemma {:induction false} OneStampOneRequest(start: Time, steps: seq<Step>, i: nat, j: nat)
    requires i < |Run(start, steps).logs.asks| && j < |Run(start, steps).logs.asks|
    ensures var logs := Run(start, steps).logs;
      && logs.asks[i].pass < |logs.passes| && logs.asks[j].pass < |logs.passes|
      && var proof := logs.passes[logs.asks[i].pass].proof;
      && (proof.ByGoogle? && logs.passes[logs.asks[j].pass].proof == proof ==> i == j)
  {
    EachPassServesOneRequest(start, steps, i);
    EachPassServesOneRequest(start, steps, j);
    var logs := Run(start, steps).logs;
    if logs.passes[logs.asks[i].pass].proof.ByGoogle? {
      ProofsAreSpentOnce(start, steps, logs.asks[i].pass);
    }
  }

  // ─── A request is issued one token ─────────────────────────────────────────

  /** The request for an address a thread still has to issue the token of. */
  function AskHeld(thread: Thread): Option<nat> {
    match thread
    case SpendOld(_, _, ask) => Some(ask)
    case Issue(_, _, ask) => Some(ask)
    case _ => None
  }

  predicate Unissued(issued: map<Id, Issued>, ask: nat) {
    forall t :: t in issued ==> issued[t].ask != ask
  }

  predicate IssuedInject(issued: map<Id, Issued>) {
    forall s, t :: s in issued && t in issued && issued[s].ask == issued[t].ask ==> s == t
  }

  /** Of the first n requests, no two threads are to issue the token of the same one, and none that of one
      already issued. */
  predicate Issuing(threads: map<nat, Thread>, issued: map<Id, Issued>, n: nat) {
    && (forall t :: t in issued ==> issued[t].ask < n) && IssuedInject(issued)
    && (forall k :: k in threads && AskHeld(threads[k]).Some? ==>
          AskHeld(threads[k]).value < n && Unissued(issued, AskHeld(threads[k]).value))
    && (forall k, l ::
          k in threads && l in threads && AskHeld(threads[k]).Some? && AskHeld(threads[k]) == AskHeld(threads[l]) ==>
            k == l)
  }

  predicate IssuesOnce(w: World) {
    Issuing(w.threads, w.logs.issued, |w.logs.asks|)
  }

  lemma MovedIssues(threads: map<nat, Thread>, issued: map<Id, Issued>, n: nat, k: nat, next: Thread)
    requires Issuing(threads, issued, n)
    requires AskHeld(next).None? || (k in threads && AskHeld(next) == AskHeld(threads[k]))
    ensures Issuing(threads[k := next], issued, n)
  {
  }

  lemma StoredIssues(threads: map<nat, Thread>, issued: map<Id, Issued>, n: nat, k: nat, next: Thread)
    requires Issuing(threads, issued, n) && AskHeld(next) == Some(n)
    ensures Issuing(threads[k := next], issued, n + 1)
  {
  }

  lemma TokenIssues(
    threads: map<nat, Thread>, issued: map<Id, Issued>, n: nat, k: nat, next: Thread, t: Id, token: Issued)
    requires Issuing(threads, issued, n)
    requires k in threads && AskHeld(threads[k]) == Some(token.ask) && AskHeld(next).None?
    ensures Issuing(threads[k := next], issued[t := token], n)
  {
    assert Unissued(issued, token.ask);
  }

  lemma AskTurnIssues(w: World, k: nat)
    requires IssuesOnce(w) && k in w.threads
    requires w.threads[k].StorePending? || w.threads[k].SpendOld? || w.threads[k].Issue?
    ensures IssuesOnce(Advance(w, k))
  {
    var threads, issued, n := w.threads, w.logs.issued, |w.logs.asks|;
    match w.threads[k]
    case StorePending(u, s, address, pass) =>
      if u in w.db.users {
        StoredIssues(threads, issued, n, k, SpendOld(u, address, n));
      } else {
        MovedIssues(threads, issued, n, k, Over);
      }
    case SpendOld(u, address, ask) => MovedIssues(threads, issued, n, k, Issue(u, address, ask));
    case Issue(u, address, ask) =>
      TokenIssues(threads, issued, n, k, Over, w.db.next, Issued(TokenFor(u, address, w.now), ask));
  }

  predicate HoldsNoAsk(w: World, w': World, k: nat) {
    && w'.logs.issued == w.logs.issued && w'.logs.asks == w.logs.asks
    && k in w'.threads && w'.threads == w.threads[k := w'.threads[k]] && AskHeld(w'.threads[k]).None?
  }

  lemma ReadHoldsNoAsk(w: World, k: nat)
    requires k in w.threads && !Writes(w.threads[k])
    ensures HoldsNoAsk(w, Advance(w, k), k)
  {
    var next := Read(w.db, w.now, w.threads[k]);
    assert AskHeld(next).None?;
    assert Advance(w, k) == Moved(w, k, next);
  }

  lemma WriteHoldsNoAsk(w: World, k: nat)
    requires k in w.threads && Writes(w.threads[k])
    requires !w.threads[k].StorePending? && !w.threads[k].SpendOld? && !w.threads[k].Issue?
    ensures HoldsNoAsk(w, Advance(w, k), k)
  {
  }

  lemma NextIssues(w: World, step: Step)
    requires IssuesOnce(w)
    ensures IssuesOnce(Next(w, step))
  {
    match step
    case Tick(_) =>
    case Elsewhere(write) => PerformServes(w, write);
    case Arrive(k, arrival) =>
      if k !in w.threads { MovedIssues(w.threads, w.logs.issued, |w.logs.asks|, k, Started(w.db, arrival)); }
    case Turn(k) =>
      if k in w.threads {
        if w.threads[k].StorePending? || w.threads[k].SpendOld? || w.threads[k].Issue? {
          AskTurnIssues(w, k);
        } else {
          if Writes(w.threads[k]) { WriteHoldsNoAsk(w, k); } else { ReadHoldsNoAsk(w, k); }
          MovedIssues(w.threads, w.logs.issued, |w.logs.asks|, k, Advance(w, k).threads[k]);
        }
      }
  }

  lemma {:induction false} RunIssues(start: Time, steps: seq<Step>)
    ensures IssuesOnce(Run(start, steps))
  {
    if steps != [] {
      RunIssues(start, steps[..|steps| - 1]);
      NextIssues(Run(start, steps[..|steps| - 1]), steps[|steps| - 1]);
    }
  }

  /** Two changes of an address rest on one request only if they rest on one token. */
  lemma {:induction false} RequestsAreNotShared(start: Time, steps: seq<Step>, i: nat, k: nat)
    requires i < |Run(start, steps).logs.changes| && k < |Run(start, steps).logs.changes|
    ensures var logs := Run(start, steps).logs;
      var c, d := logs.changes[i], logs.changes[k];
      && c.found.token in logs.issued && d.found.token in logs.issued
      && (RequestOf(logs, c) == RequestOf(logs, d) ==> c.found.token == d.found.token)
  {
    EveryChangeWasAskedForAndConfirmed(start, steps, i);
    EveryChangeWasAskedForAndConfirmed(start, steps, k);
    RunIssues(start, steps);
  }

  // ─── A spent token changes nothing more ────────────────────────────────────

  /** A confirmation notes that it found a token unused only when it is, and when. */
  lemma NextFinds(w: World, step: Step, found: Found)
    requires found in Next(w, step).logs.finds
    ensures found in w.logs.finds || (found.turn == w.turn && UsableToken(w.db, found.token, EMAIL_CHANGE))
  {
  }

  lemma {:induction false} FindsHeld(start: Time, steps: seq<Step>, found: Found)
    requires found in Run(start, steps).logs.finds
    ensures found.turn < |steps| && UsableToken(Run(start, steps[..found.turn]).db, found.token, EMAIL_CHANGE)
  {
    var before := steps[..|steps| - 1];
    NextFinds(Run(start, before), steps[|steps| - 1], found);
    TurnsCount(start, before);
    if found in Run(start, before).logs.finds {
      FindsHeld(start, before, found);
      assert before[..found.turn] == steps[..found.turn];
    } else {
      assert before == steps[..found.turn];
    }
  }

  /** The token has been handed out and cannot confirm anything: it was used, or is gone. */
  predicate Finished(db: Db, t: Id) {
    t < db.next && !UsableToken(db, t, EMAIL_CHANGE)
  }

  predicate WritesTokens(thread: Thread) {
    thread.SpendOld? || thread.Issue? || thread.SpendToken?
  }

  lemma ReadFinishes(w: World, k: nat, t: Id)
    requires Finished(w.db, t) && k in w.threads && !Writes(w.threads[k])
    ensures Finished(Advance(w, k).db, t)
  {
    assert Advance(w, k) == Moved(w, k, Read(w.db, w.now, w.threads[k]));
  }

  lemma TokenWriteFinishes(w: World, k: nat, t: Id)
    requires Finished(w.db, t) && k in w.threads && WritesTokens(w.threads[k])
    ensures Finished(Advance(w, k).db, t)
  {
  }

  lemma OtherWriteFinishes(w: World, k: nat, t: Id)
    requires Finished(w.db, t) && k in w.threads && Writes(w.threads[k]) && !WritesTokens(w.threads[k])
    ensures Finished(Advance(w, k).db, t)
  {
  }

  lemma TurnFinishes(w: World, k: nat, t: Id)
    requires Finished(w.db, t)
    ensures Finished(Advance(w, k).db, t)
  {
    if k in w.threads {
      if WritesTokens(w.threads[k]) {
        TokenWriteFinishes(w, k, t);
      } else if Writes(w.threads[k]) {
        OtherWriteFinishes(w, k, t);
      } else {
        ReadFinishes(w, k, t);
      }
    }
  }

  lemma PerformFinishes(w: World, write: Write, t: Id)
    requires Finished(w.db, t)
    ensures Finished(Perform(w, write).db, t)
  {
  }

  lemma NextFinishes(w: World, step: Step, t: Id)
    requires Finished(w.db, t)
    ensures Finished(Next(w, step).db, t)
  {
    match step
    case Tick(_) =>
    case Elsewhere(write) => PerformFinishes(w, write, t);
    case Arrive(_, _) =>
    case Turn(k) => TurnFinishes(w, k, t);
  }

  lemma {:induction false} StaysFinished(start: Time, steps: seq<Step>, n: nat, t: Id)
    requires n <= |steps| && Finished(Run(start, steps[..n]).db, t)
    ensures Finished(Run(start, steps).db, t)
  {
    if n == |steps| {
      assert steps[..n] == steps;
    } else {
      var before := steps[..|steps| - 1];
      assert before[..n] == steps[..n];
      StaysFinished(start, before, n, t);
      NextFinishes(Run(start, before), steps[|steps| - 1], t);
    }
  }

  lemma {:induction false} FoundBeforeFinished(start: Time, steps: seq<Step>, found: Found, n: nat)
    requires found.turn < |steps| && UsableToken(Run(start, steps[..found.turn]).db, found.token, EMAIL_CHANGE)
    requires n <= |steps| && Finished(Run(start, steps[..n]).db, found.token)
    ensures found.turn < n
  {
    if n <= found.turn {
      var until := steps[..found.turn];
      assert until[..n] == steps[..n];
      StaysFinished(start, until, n, found.token);
    }
  }

  lemma {:induction false} ChangeWasFound(start: Time, steps: seq<Step>, i: nat)
    requires i < |Run(start, steps).logs.changes|
    ensures Run(start, steps).logs.changes[i].found in Run(start, steps).logs.finds
  {
    RunIsSound(start, steps);
    assert ChangeSound(Run(start, steps).logs.changes[i], Run(start, steps).logs);
  }

  /** However requests interleave: every change was confirmed with a token that was unused when the
      confirmation found it; once a token is used or gone, no confirmation that starts later changes anything
      with it. */
  lemma {:induction false} SpentTokensChangeNothing(start: Time, steps: seq<Step>, i: nat, n: nat)
    requires i < |Run(start, steps).logs.changes| && n <= |steps|
    ensures var found := Run(start, steps).logs.changes[i].found;
      && found.turn < |steps| && UsableToken(Run(start, steps[..found.turn]).db, found.token, EMAIL_CHANGE)
      && (Finished(Run(start, steps[..n]).db, found.token) ==> found.turn < n)
  {
    var found := Run(start, steps).logs.changes[i].found;
    ChangeWasFound(start, steps, i);
    FindsHeld(start, steps, found);
    if Finished(Run(start, steps[..n]).db, found.token) { FoundBeforeFinished(start, steps, found, n); }
  }
}
