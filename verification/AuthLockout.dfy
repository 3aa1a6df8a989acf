/** The lockout at work in whole runs of the account service. */
module AuthLockout {
  import opened Text
  import opened AuthTables
  import opened AuthSpec
  import opened AuthRuns
  import Lockout

  /** A sign-in as the lockout sees it. */
  function AttemptOf(now: Time, rawEmail: string, answer: Outcome): Lockout.Attempt {
    Lockout.Attempt(rawEmail, now, now,
      if answer == Refused(InvalidCredentials) then Lockout.Failed
      else if answer.SessionStarted? then Lockout.Succeeded
      else Lockout.Refused,
      Lockout.Timing(now, now, now, now))
  }

  /** The sign-ins of a run, in order. */
  ghost function Attempts(run: seq<Event>): seq<Lockout.Attempt> {
    if run == [] then []
    else
      var before, event := run[..|run| - 1], run[|run| - 1];
      if event.request.SignIn?
      then
        var answer := Step(After(before), event.now, event.request).outcome;
        Attempts(before) + [AttemptOf(event.now, event.request.rawEmail, answer)]
      else Attempts(before)
  }

  /** When sign-ins to an address were turned away for wrong credentials. */
  ghost function TurnedAway(run: seq<Event>, email: string): seq<Time> {
    if run == [] then []
    else
      var before, event := run[..|run| - 1], run[|run| - 1];
      if event.request.SignIn? && Normalize(event.request.rawEmail) == email
         && Step(After(before), event.now, event.request).outcome == Refused(InvalidCredentials)
      then TurnedAway(before, email) + [event.now]
      else TurnedAway(before, email)
  }

  ghost predicate NobodyGotIn(run: seq<Event>, email: string) {
    forall i :: 0 <= i < |run| && run[i].request.SignIn? && Normalize(run[i].request.rawEmail) == email ==>
      !Answer(run, i).SessionStarted?
  }

  lemma LoginElsewhere(db: Db, now: Time, rawEmail: string, password: string, email: string)
    requires Normalize(rawEmail) != email
    ensures Lockout.Look(Login(db, now, rawEmail, password).db.lockouts, email) == Lockout.Look(db.lockouts, email)
  {
  }

  lemma LoginHere(db: Db, now: Time, rawEmail: string, password: string)
    ensures var r, email := Login(db, now, rawEmail, password), Normalize(rawEmail);
      var h, h' := Lockout.Look(db.lockouts, email), Lockout.Look(r.db.lockouts, email);
      if Lockout.Locked(h, now) then h' == h && r.outcome == Refused(AccountLocked)
      else if r.outcome == Refused(InvalidCredentials)
      then h' == Lockout.Recorded(h, Lockout.Timing(now, now, now, now))
      else if r.outcome.SessionStarted? then h' == None
      else h' == h
  {
  }

  /** What a sign-in does to the hash of an address. */
  lemma LoginAsAttempt(db: Db, now: Time, rawEmail: string, password: string, email: string)
    ensures var r := Login(db, now, rawEmail, password);
      var h, h' := Lockout.Look(db.lockouts, email), Lockout.Look(r.db.lockouts, email);
      if Normalize(rawEmail) != email then h' == h
      else if Lockout.Locked(h, now) then h' == h && r.outcome == Refused(AccountLocked)
      else if r.outcome == Refused(InvalidCredentials)
      then h' == Lockout.Recorded(h, Lockout.Timing(now, now, now, now))
      else if r.outcome.SessionStarted? then h' == None
      else h' == h
  {
    if Normalize(rawEmail) == email {
      LoginHere(db, now, rawEmail, password);
    } else {
      LoginElsewhere(db, now, rawEmail, password, email);
    }
  }

  lemma {:induction false} AttemptMoves(
    db: Db, now: Time, rawEmail: string, password: string, email: string, attempts: seq<Lockout.Attempt>)
    requires Lockout.Look(db.lockouts, email) == Lockout.After(attempts, email)
    ensures var r := Login(db, now, rawEmail, password);
      Lockout.Look(r.db.lockouts, email) == Lockout.After(attempts + [AttemptOf(now, rawEmail, r.outcome)], email)
  {
    LoginAsAttempt(db, now, rawEmail, password, email);
    var a := AttemptOf(now, rawEmail, Login(db, now, rawEmail, password).outcome);
    assert (attempts + [a])[..|attempts|] == attempts;
  }

  /** The hash the store keeps for an address is the one its sign-ins lead to: nothing else touches it. */
  lemma {:induction false} StoreMatches(run: seq<Event>, email: string)
    ensures Lockout.Look(After(run).lockouts, email) == Lockout.After(Attempts(run), email)
  {
    if run != [] {
      var before, event := run[..|run| - 1], run[|run| - 1];
      StoreMatches(before, email);
      if event.request.SignIn? {
        AttemptMoves(After(before), event.now, event.request.rawEmail, event.request.password, email, Attempts(before));
      }
    }
  }

  lemma {:induction false} TurnedAwayMatches(run: seq<Event>, email: string)
    ensures TurnedAway(run, email) == Lockout.FailedChecks(Attempts(run), email)
  {
    if run != [] {
      var before, event := run[..|run| - 1], run[|run| - 1];
      TurnedAwayMatches(before, email);
      if event.request.SignIn? {
        StoreMatches(before, email);
        var a := AttemptOf(event.now, event.request.rawEmail, Step(After(before), event.now, event.request).outcome);
        LoginAsAttempt(After(before), event.now, event.request.rawEmail, event.request.password, email);
        assert (Attempts(before) + [a])[..|Attempts(before)|] == Attempts(before);
      }
    }
  }

  predicate EndsBy(attempts: seq<Lockout.Attempt>, time: Time) {
    attempts != [] ==> attempts[|attempts| - 1].timing.relock <= time
  }

  lemma OneMoreInOrder(attempts: seq<Lockout.Attempt>, now: Time, rawEmail: string, answer: Outcome)
    requires Lockout.OneAtATime(attempts) && EndsBy(attempts, now)
    ensures Lockout.OneAtATime(attempts + [AttemptOf(now, rawEmail, answer)])
    ensures EndsBy(attempts + [AttemptOf(now, rawEmail, answer)], now)
  {
  }

  lemma EarlierInOrder(run: seq<Event>)
    requires InOrder(run) && run != []
    ensures InOrder(run[..|run| - 1]) && (|run| > 1 ==> run[|run| - 2].now <= run[|run| - 1].now)
  {
  }

  lemma {:induction false} AttemptsInOrder(run: seq<Event>, end: Time)
    requires InOrder(run) && (run != [] ==> run[|run| - 1].now <= end)
    ensures Lockout.OneAtATime(Attempts(run)) && EndsBy(Attempts(run), end)
  {
    if run != [] {
      var before, event := run[..|run| - 1], run[|run| - 1];
      EarlierInOrder(run);
      AttemptsInOrder(before, event.now);
      if event.request.SignIn? {
        OneMoreInOrder(Attempts(before), event.now, event.request.rawEmail,
            Step(After(before), event.now, event.request).outcome);
      }
    }
  }

  lemma {:induction false} AttemptsInstant(run: seq<Event>, i: nat)
    requires i < |Attempts(run)|
    ensures Attempts(run)[i].timing.incr == Attempts(run)[i].timing.expire
  {
    if run != [] && i < |Attempts(run[..|run| - 1])| { AttemptsInstant(run[..|run| - 1], i); }
  }

  lemma NobodyBefore(run: seq<Event>, email: string)
    requires NobodyGotIn(run, email) && run != []
    ensures NobodyGotIn(run[..|run| - 1], email)
  {
    var before := run[..|run| - 1];
    forall i | 0 <= i < |before| && before[i].request.SignIn? && Normalize(before[i].request.rawEmail) == email
      ensures !Answer(before, i).SessionStarted?
    {
      assert before[..i] == run[..i] && !Answer(run, i).SessionStarted?;
    }
  }

  lemma {:induction false} NoneSucceeded(run: seq<Event>, email: string)
    requires NobodyGotIn(run, email)
    ensures Lockout.NoSuccess(Attempts(run), email)
  {
    if run != [] {
      var last := |run| - 1;
      NobodyBefore(run, email);
      NoneSucceeded(run[..last], email);
      if run[last].request.SignIn? && Normalize(run[last].request.rawEmail) == email {
        assert !Answer(run, last).SessionStarted?;
      }
    }
  }

  /** The sign-ins of a run meet what the theorems about the lockout ask. */
  lemma {:induction false} AttemptsSuit(run: seq<Event>, email: string)
    requires InOrder(run) && NobodyGotIn(run, email)
    ensures TurnedAway(run, email) == Lockout.FailedChecks(Attempts(run), email)
    ensures Lockout.OneAtATime(Attempts(run)) && Lockout.NoSuccess(Attempts(run), email)
    ensures Lockout.NoStraddle(Attempts(run), email)
    ensures EndsBy(Attempts(run), if run == [] then 0 else run[|run| - 1].now)
  {
    TurnedAwayMatches(run, email);
    AttemptsInOrder(run, if run == [] then 0 else run[|run| - 1].now);
    NoneSucceeded(run, email);
    forall i | 0 <= i < |Attempts(run)| && Lockout.Key(Attempts(run)[i]) == email
      ensures !Lockout.Straddles(Lockout.After(Attempts(run)[..i], email), Attempts(run)[i].timing)
    {
      AttemptsInstant(run, i);
    }
  }

  /** In any run of the service, while nobody signs in to an address, no 900 seconds hold more than ten
      sign-ins to it turned away for wrong credentials, however the address is typed and whatever else is
      asked in between. */
  lemma {:induction false} SignInsAreRateBounded(run: seq<Event>, email: string, start: Time)
    requires InOrder(run) && NobodyGotIn(run, email)
    ensures Lockout.CountIn(TurnedAway(run, email), start) <= 10
  {
    AttemptsSuit(run, email);
    Lockout.RateBound(Attempts(run), email, start);
  }

  lemma {:induction false} InstantLocks(run: seq<Lockout.Attempt>, email: string)
    requires Lockout.NoSuccess(run, email)
    requires forall i :: 0 <= i < |run| ==> run[i].timing.lock == run[i].compared
    ensures var times := Lockout.FailedChecks(run, email);
      times != [] ==> Lockout.LastLock(run, email) == times[|times| - 1]
  {
    if run != [] {
      var earlier := run[..|run| - 1];
      assert forall i :: 0 <= i < |earlier| ==> earlier[i] == run[i];
      InstantLocks(earlier, email);
      Lockout.LastStep(run, email);
    }
  }

  lemma {:induction false} AttemptsAtOnce(run: seq<Event>, i: nat)
    requires InOrder(run) && i < |Attempts(run)|
    ensures var a := Attempts(run)[i]; 0 <= a.check && a.timing.lock == a.compared
  {
    if run != [] {
      EarlierInOrder(run);
      if i < |Attempts(run[..|run| - 1])| { AttemptsAtOnce(run[..|run| - 1], i); }
    }
  }

  lemma LockDecides(db: Db, now: Time, rawEmail: string, password: string)
    ensures Login(db, now, rawEmail, password).outcome == Refused(AccountLocked) <==>
      Lockout.Locked(Lockout.Look(db.lockouts, Normalize(rawEmail)), now)
  {
  }

  lemma {:induction false} LockedAfter(run: seq<Event>, email: string, now: Time)
    requires InOrder(run) && NobodyGotIn(run, email) && Lockout.TenInARow(TurnedAway(run, email))
    requires (if run == [] then 0 else run[|run| - 1].now) <= now
    ensures var times := TurnedAway(run, email);
      Lockout.Locked(Lockout.After(Attempts(run), email), now) <==> now < times[|times| - 1] + 900_000
  {
    var attempts, times := Attempts(run), TurnedAway(run, email);
    AttemptsSuit(run, email);
    forall i | 0 <= i < |attempts|
      ensures 0 <= attempts[i].check && attempts[i].timing.lock == attempts[i].compared
    {
      AttemptsAtOnce(run, i);
    }
    InstantLocks(attempts, email);
    if now < times[|times| - 1] + 900_000 {
      Lockout.TenInARowLock(attempts, email, now);
    } else if Lockout.Locked(Lockout.After(attempts, email), now) {
      Lockout.LocksTakeTen(attempts, email, now);
    }
  }

  /** In any run in which nobody signs in to an address: once ten sign-ins to it have been turned away in a
      row, each less than 900 seconds after the one before, every password, the right one included, is
      answered by the lock, for exactly 900 seconds from the last of them. */
  lemma {:induction false} TenWrongPasswordsLock(
    run: seq<Event>, email: string, now: Time, rawEmail: string, password: string)
    requires InOrder(run) && NobodyGotIn(run, email) && Lockout.TenInARow(TurnedAway(run, email))
    requires (if run == [] then 0 else run[|run| - 1].now) <= now && Normalize(rawEmail) == email
    ensures var times := TurnedAway(run, email);
      Login(After(run), now, rawEmail, password).outcome == Refused(AccountLocked) <==>
        now < times[|times| - 1] + 900_000
  {
    LockedAfter(run, email, now);
    StoreMatches(run, email);
    LockDecides(After(run), now, rawEmail, password);
  }

  /** Fewer than ten never do. */
  lemma {:induction false} FewerPasswordsDoNotLock(
    run: seq<Event>, email: string, now: Time, rawEmail: string, password: string)
    requires InOrder(run) && NobodyGotIn(run, email) && |TurnedAway(run, email)| < 10 && Normalize(rawEmail) == email
    ensures Login(After(run), now, rawEmail, password).outcome != Refused(AccountLocked)
  {
    var attempts := Attempts(run);
    AttemptsSuit(run, email);
    StoreMatches(run, email);
    LockDecides(After(run), now, rawEmail, password);
    if Lockout.Locked(Lockout.After(attempts, email), now) {
      if attempts != [] { AttemptsAtOnce(run, 0); }
      Lockout.LocksTakeTen(attempts, email, now);
    }
  }
}
