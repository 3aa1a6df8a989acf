/** The administrators: who may act on whom, and why one of them always remains. */
module AdminUsers {
  import opened Text
  import opened AuthTables
  import opened AuthSpec
  import opened AuthRuns
  import opened AuthGuarantees
  import opened AuthIdentity

  predicate ActiveAdmin(db: Db, u: Id) {
    Live(db, u) && !db.users[u].suspended && ADMIN in db.users[u].roles
  }

  ghost predicate AdminExists(db: Db) {
    exists u :: ActiveAdmin(db, u)
  }

  ghost predicate OtherAdminExists(db: Db, u: Id) {
    exists v :: v != u && ActiveAdmin(db, v)
  }

  lemma AdminKept(db: Db, db': Db)
    requires AdminExists(db) && StandingKept(db, db')
    ensures AdminExists(db')
  {
    var u :| ActiveAdmin(db, u);
    assert ActiveAdmin(db', u);
  }

  // ─── Requests that do not ──────────────────────────────────────────────────

  /** An active administrator comes out of every administrative action, on whomever, an active
      administrator. */
  lemma ActorStaysAdmin(db: Db, now: Time, u: Id, s: Id, action: Action)
    requires ActiveAdmin(db, u) && Administers(action)
    ensures ActiveAdmin(Act(db, now, u, s, action).db, u)
  {
  }

  /** Everyone else's action of the kind is refused. */
  lemma OthersMayNot(db: Db, now: Time, u: Id, s: Id, action: Action)
    requires u in db.users && ADMIN !in db.users[u].roles
    requires Administers(action)
    ensures Act(db, now, u, s, action) == Refuse(db, AccessDenied)
  {
  }

  ghost predicate OnlyGone(db: Db, db': Db, u: Id) {
    && (forall v :: v in db.users && v != u ==> v in db'.users && SameStanding(db.users[v], db'.users[v]))
    && (forall v :: v in db'.users ==> v in db.users) && !Live(db', u)
  }

  lemma DeletionTakesOne(db: Db, u: Id, p: Pseudonym)
    requires u in db.users
    ensures var r := AnonymiseAccount(db, u, p);
      if r.outcome == Done then OnlyGone(db, r.db, u) else r.db == db
  {
  }

  lemma ProofUndisturbed(db: Db, now: Time, u: Id, s: Id, proof: Option<string>)
    ensures Undisturbed(db, AssertRecentlyAuthenticated(db, now, u, s, proof).db)
    ensures AssertRecentlyAuthenticated(db, now, u, s, proof).db.users == db.users
  {
  }

  lemma SelfDeleteTakesOne(db: Db, now: Time, u: Id, s: Id, proof: Option<string>, p: Pseudonym)
    requires u in db.users
    ensures var r := SelfDelete(db, now, u, s, proof, p);
      if r.outcome == Done then OnlyGone(db, r.db, u) else Undisturbed(db, r.db)
  {
    ProofUndisturbed(db, now, u, s, proof);
    DeletionTakesOne(AssertRecentlyAuthenticated(db, now, u, s, proof).db, u, p);
  }

  lemma OthersRemain(db: Db, db': Db, u: Id)
    requires OnlyGone(db, db', u)
    ensures AdminExists(db') <==> OtherAdminExists(db, u)
  {
    if AdminExists(db') {
      var v :| ActiveAdmin(db', v);
      assert v != u && ActiveAdmin(db, v);
    }
    if OtherAdminExists(db, u) {
      var v :| v != u && ActiveAdmin(db, v);
      assert ActiveAdmin(db', v);
    }
  }

  // ─── An administrator remains ──────────────────────────────────────────────

  /** The proof a sensitive action asks for: the password typed is the user's, or the session carries a
      Google proof recent enough. */
  ghost predicate Proves(db: Db, now: Time, u: Id, s: Id, proof: Option<string>) {
    (Given(proof) && RightPassword(db, u, proof.value)) || ProofFresh(db, s, now)
  }

  lemma SelfDeleteSucceedsIff(db: Db, now: Time, u: Id, s: Id, proof: Option<string>, p: Pseudonym)
    requires OneEmailAccountEach(db.accounts) && u in db.users
    ensures SelfDelete(db, now, u, s, proof, p).outcome == Done <==>
      Proves(db, now, u, s, proof) && !PseudonymCollides(db, u, p)
  {
    if proof.Some? { PasswordIsRight(db, u, proof.value); }
    var proved := AssertRecentlyAuthenticated(db, now, u, s, proof).db;
    ProofUndisturbed(db, now, u, s, proof);
    SamePseudonyms(db, proved, u, p);
  }

  lemma SamePseudonyms(db: Db, db': Db, u: Id, p: Pseudonym)
    requires db'.users == db.users
    ensures PseudonymCollides(db', u, p) == PseudonymCollides(db, u, p)
  {
  }

  lemma SameProof(db: Db, now: Time, u: Id, s: Id, proof: Option<string>)
    requires OwnersExist(db) && Admitted(db, now, s)
    ensures Proves(ValidateSession(db, now, s).db, now, u, s, proof) == Proves(db, now, u, s, proof)
    ensures ValidateSession(db, now, s).db.accounts == db.accounts
  {
    var valid := ValidateSession(db, now, s).db;
    assert valid.accounts == db.accounts;
    assert forall a :: IsEmailAccountOf(valid, a, u) == IsEmailAccountOf(db, a, u);
  }

  /** The one request that leaves nobody in charge: a user whose session is let in deletes their own account
      with a proof that holds, under a pseudonym nobody has, and no other administrator is active. */
  ghost predicate LastAdminLeaves(db: Db, now: Time, request: Request) {
    && request.As? && request.action.DeleteMyself? && Admitted(db, now, request.session)
    && var u := db.sessions[request.session].userId;
       && Proves(db, now, u, request.session, request.action.proof)
       && !PseudonymCollides(db, u, request.action.pseudonym)
       && !OtherAdminExists(db, u)
  }

  /** A user's change to their own row takes no role from anybody. */
  lemma OwnRowKeepsAdmin(db: Db, now: Time, u: Id, s: Id, action: Action)
    requires u in db.users && AdminExists(db) && (action.EditProfile? || action.AcceptInvitation?)
    ensures AdminExists(Act(db, now, u, s, action).db)
  {
    var v :| ActiveAdmin(db, v);
    assert ActiveAdmin(Act(db, now, u, s, action).db, v);
  }

  lemma ActKeepsAdmin(db: Db, now: Time, u: Id, s: Id, action: Action)
    requires Live(db, u) && !db.users[u].suspended && AdminExists(db) && !action.DeleteMyself?
    ensures AdminExists(Act(db, now, u, s, action).db)
  {
    if action.EditProfile? || action.AcceptInvitation? {
      OwnRowKeepsAdmin(db, now, u, s, action);
    } else if !ChangesStanding(action) {
      ActUndisturbed(db, now, u, s, action);
      AdminKept(db, Act(db, now, u, s, action).db);
    } else if ADMIN in db.users[u].roles {
      ActorStaysAdmin(db, now, u, s, action);
    } else {
      OthersMayNot(db, now, u, s, action);
    }
  }

  lemma SelfDeleteKeepsAdmin(db: Db, now: Time, u: Id, s: Id, proof: Option<string>, p: Pseudonym)
    requires u in db.users && AdminExists(db)
    ensures var r := SelfDelete(db, now, u, s, proof, p);
      AdminExists(r.db) <==> !(r.outcome == Done && !OtherAdminExists(db, u))
  {
    var r := SelfDelete(db, now, u, s, proof, p);
    SelfDeleteTakesOne(db, now, u, s, proof, p);
    if r.outcome == Done { OthersRemain(db, r.db, u); } else { AdminKept(db, r.db); }
  }

  lemma SameUsersSameAdmins(db: Db, db': Db, u: Id)
    requires db'.users == db.users
    ensures AdminExists(db') == AdminExists(db) && OtherAdminExists(db', u) == OtherAdminExists(db, u)
  {
    assert forall v :: ActiveAdmin(db', v) == ActiveAdmin(db, v);
  }

  lemma ActAsKeepsAdmin(db: Db, now: Time, s: Id, action: Action)
    requires Inv(db) && AdminExists(db)
    ensures AdminExists(ActAs(db, now, s, action).db) <==> !LastAdminLeaves(db, now, As(s, action))
  {
    ActAsIs(db, now, s, action);
    var valid := ValidateSession(db, now, s).db;
    SameUsersSameAdmins(db, valid, 0);
    if Admitted(db, now, s) {
      var u := db.sessions[s].userId;
      if action.DeleteMyself? {
        DeletionLeavesAdmin(db, now, s, action.proof, action.pseudonym);
      } else {
        ActKeepsAdmin(valid, now, u, s, action);
      }
    }
  }

  lemma DeletionLeavesAdmin(db: Db, now: Time, s: Id, proof: Option<string>, p: Pseudonym)
    requires Inv(db) && AdminExists(db) && Admitted(db, now, s)
    ensures var u, valid := db.sessions[s].userId, ValidateSession(db, now, s).db;
      u in valid.users && (AdminExists(SelfDelete(valid, now, u, s, proof, p).db) <==>
        !(Proves(db, now, u, s, proof) && !PseudonymCollides(db, u, p) && !OtherAdminExists(db, u)))
  {
    var u, valid := db.sessions[s].userId, ValidateSession(db, now, s).db;
    SameProof(db, now, u, s, proof);
    SamePseudonyms(db, valid, u, p);
    SameUsersSameAdmins(db, valid, u);
    SelfDeleteSucceedsIff(valid, now, u, s, proof, p);
    SelfDeleteKeepsAdmin(valid, now, u, s, proof, p);
  }

  lemma GrantKeepsAdmin(db: Db, rawEmail: string, allowUnverified: bool)
    requires AdminExists(db)
    ensures AdminExists(GrantAdmin(db, rawEmail, allowUnverified).db)
  {
    var u :| ActiveAdmin(db, u);
    assert ActiveAdmin(GrantAdmin(db, rawEmail, allowUnverified).db, u);
  }

  lemma SignUpsKeepAdmin(db: Db, now: Time, request: Request)
    requires Inv(db) && AdminExists(db) && (request.SignUp? || request.ReturnFromGoogle?)
    ensures AdminExists(Step(db, now, request).db)
  {
    match request {
      case SignUp(rawEmail, password, username, dob, known) =>
        RegisterMakes(db, now, rawEmail, password, username, dob, known);
      case ReturnFromGoogle(googleId, rawEmail, verified, pending, random) =>
        GoogleLoginMakes(db, now, googleId, rawEmail, verified, pending, random);
    }
    AdminKept(db, Step(db, now, request).db);
  }

  lemma OutsideKeepsAdmin(db: Db, now: Time, request: Request)
    requires Inv(db) && AdminExists(db) && FromOutside(request)
    ensures AdminExists(Step(db, now, request).db)
  {
    OutsideUndisturbed(db, now, request);
    AdminKept(db, Step(db, now, request).db);
  }

  /** Whoever does whatever, an unsuspended, undeleted administrator remains, save exactly when the last one
      deletes their own account: decided on the state the request meets. */
  lemma AdminRemainsIff(db: Db, now: Time, request: Request)
    requires Inv(db) && AdminExists(db)
    ensures AdminExists(Step(db, now, request).db) <==> !LastAdminLeaves(db, now, request)
  {
    match request
    case As(s, action) => ActAsKeepsAdmin(db, now, s, action);
    case Bootstrap(rawEmail, allowUnverified) => GrantKeepsAdmin(db, rawEmail, allowUnverified);
    case SignUp(_, _, _, _, _) => SignUpsKeepAdmin(db, now, request);
    case ReturnFromGoogle(_, _, _, _, _) => SignUpsKeepAdmin(db, now, request);
    case _ => OutsideKeepsAdmin(db, now, request);
  }

  /** So along any run in which no last administrator leaves, one remains. */
  lemma {:induction false} AdminRemainsAlong(run: seq<Event>, i: nat)
    requires i <= |run| && AdminExists(After(run[..i]))
    requires forall k :: i <= k < |run| ==> !LastAdminLeaves(After(run[..k]), run[k].now, run[k].request)
    ensures AdminExists(After(run))
    decreases |run| - i
  {
    if i == |run| {
      assert run[..i] == run;
    } else {
      AfterOneMore(run, i);
      AdminRemainsIff(After(run[..i]), run[i].now, run[i].request);
      AdminRemainsAlong(run, i + 1);
    }
  }
}
