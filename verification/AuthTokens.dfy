/** What each request does to the tokens there are, and which it issues: one table over requests and their
    answers, and every request of every kind obeys it. */
module AuthTokens {
  import opened Text
  import opened AuthTables
  import opened AuthSpec
  import opened AuthInvariant
  import opened AuthHistory
  import opened AuthRuns
  import opened AuthGuarantees
  import opened AuthRecovery

  // ─── The table ─────────────────────────────────────────────────────────────

  /** The request, so answered, issues this token: for whom, for what and for how long. */
  ghost predicate Issues(db: Db, now: Time, request: Request, answer: Outcome, token: Token) {
    match request
    case SignUp(_, _, _, _, _) =>
      answer == UserCreated(token.userId)
      && token == Token(token.userId, EMAIL_VERIFICATION, NoMetadata, now + 86_400_000, false)
    case ResendLink(rawEmail) =>
      AwaitsLink(db, token.userId, Normalize(rawEmail))
      && token == Token(token.userId, EMAIL_VERIFICATION, NoMetadata, now + 86_400_000, false)
    case Forgot(rawEmail) =>
      IsUserByEmail(db, token.userId, Normalize(rawEmail))
      && token == Token(token.userId, PASSWORD_RESET, NoMetadata, now + 3_600_000, false)
    case ReturnFromGoogle(googleId, rawEmail, emailVerified, _, _) =>
      answer.LinkPending? && IsUserByEmail(db, token.userId, Normalize(rawEmail))
      && token == Token(token.userId, GOOGLE_LINK, GoogleIdentity(googleId, emailVerified), now + 900_000, false)
    case As(s, action) =>
      action.AskForNewEmail? && answer == Done && s in db.sessions
      && token == Token(db.sessions[s].userId, EMAIL_CHANGE, NewEmail(Normalize(action.newEmail)), now + 3_600_000,
                        false)
    case _ => false
  }

  /** A token after a request that issues none: used if it was the one acted on, and gone if it was cleaned up. */
  function TokenAfter(now: Time, request: Request, answer: Outcome, t: Id, row: Token): Option<Token> {
    if request.CleanUp? && row.expiresAt < now then None
    else if TokenOf(request) == Some(t) && !answer.Refused? then Some(row.(used := true))
    else Some(row)
  }

  /** One token is new, and the earlier ones of that user and kind are spent. */
  predicate IssuedAs(tokens: Tokens, tokens': Tokens, n: Id, token: Token) {
    && n !in tokens && n in tokens' && tokens'[n] == token
    && (forall t :: t in tokens' ==> t in tokens || t == n)
    && (forall t :: t in tokens ==>
          && t in tokens'
          && tokens'[t] == if tokens[t].userId == token.userId && tokens[t].kind == token.kind
                           then tokens[t].(used := true) else tokens[t])
  }

  predicate NoneIssued(tokens: Tokens, tokens': Tokens, now: Time, request: Request, answer: Outcome) {
    && (forall t :: t in tokens' ==> t in tokens)
    && (forall t :: t in tokens ==>
          var row := TokenAfter(now, request, answer, t, tokens[t]);
          if t in tokens' then row == Some(tokens'[t]) else row.None?)
  }

  ghost predicate TokensAfter(db: Db, now: Time, request: Request, r: Result) {
    && (forall token :: Issues(db, now, request, r.outcome, token) ==>
          exists n :: IssuedAs(db.tokens, r.db.tokens, n, token))
    && ((forall token :: !Issues(db, now, request, r.outcome, token)) ==>
          NoneIssued(db.tokens, r.db.tokens, now, request, r.outcome))
  }

  /** The tokens after one has been issued, in place of the earlier ones. */
  lemma IssuedTable(db: Db, now: Time, request: Request, r: Result, n: Id, token: Token)
    requires IssuedAs(db.tokens, r.db.tokens, n, token) && Issues(db, now, request, r.outcome, token)
    requires forall other :: Issues(db, now, request, r.outcome, other) ==> other == token
    ensures TokensAfter(db, now, request, r)
  {
  }

  lemma NoneTable(db: Db, now: Time, request: Request, r: Result)
    requires forall token :: !Issues(db, now, request, r.outcome, token)
    requires NoneIssued(db.tokens, r.db.tokens, now, request, r.outcome)
    ensures TokensAfter(db, now, request, r)
  {
  }

  lemma SameTable(db: Db, now: Time, request: Request, r: Result)
    requires forall token :: !Issues(db, now, request, r.outcome, token)
    requires r.db.tokens == db.tokens && !request.CleanUp? && (TokenOf(request).None? || r.outcome.Refused?)
    ensures TokensAfter(db, now, request, r)
  {
  }

  lemma ReissueIssuesAs(db: Db, u: Id, kind: TokenType, metadata: Metadata, expiresAt: Time)
    requires db.next !in db.tokens
    ensures IssuedAs(db.tokens, Reissue(db, u, kind, metadata, expiresAt).tokens, db.next,
                     Token(u, kind, metadata, expiresAt, false))
  {
  }

  // ─── Requests from outside ─────────────────────────────────────────────────

  lemma NewUserHasNone(db: Db, token: Token)
    requires Inv(db) && token.userId == db.next
    ensures IssuedAs(db.tokens, db.tokens[db.next + 2 := token], db.next + 2, token)
  {
  }

  lemma RegisteredTokens(
    db: Db, now: Time, rawEmail: string, password: string, username: string, dob: Option<Time>, known: bool, r: Result)
    requires r == Register(db, now, rawEmail, password, username, dob, known)
    ensures (r.outcome.Refused? && r.db.tokens == db.tokens)
      || (&& r.outcome == UserCreated(db.next)
          && r.db.tokens
               == db.tokens[db.next + 2 := Token(db.next, EMAIL_VERIFICATION, NoMetadata, now + 86_400_000, false)])
  {
    RegisterWrites(db, now, rawEmail, password, username, dob, known);
    ReleaseStaleClaimFrame(db, Normalize(rawEmail));
  }

  lemma RegisterTokens(
    db: Db, now: Time, rawEmail: string, password: string, username: string, dob: Option<Time>, known: bool, r: Result)
    requires Inv(db) && r == Register(db, now, rawEmail, password, username, dob, known)
    ensures TokensAfter(db, now, SignUp(rawEmail, password, username, dob, known), r)
  {
    var request := SignUp(rawEmail, password, username, dob, known);
    RegisteredTokens(db, now, rawEmail, password, username, dob, known, r);
    if r.outcome.Refused? {
      SameTable(db, now, request, r);
    } else {
      var token := Token(db.next, EMAIL_VERIFICATION, NoMetadata, now + 86_400_000, false);
      NewUserHasNone(db, token);
      IssuedTable(db, now, request, r, db.next + 2, token);
    }
  }

  lemma LoginTokens(db: Db, now: Time, rawEmail: string, password: string)
    ensures Login(db, now, rawEmail, password).db.tokens == db.tokens
  {
  }

  lemma OnlyOneAt(db: Db, rawEmail: string, u: Id)
    requires Inv(db) && IsUserByEmail(db, u, Normalize(rawEmail))
    ensures forall v :: IsUserByEmail(db, v, Normalize(rawEmail)) ==> v == u
  {
  }

  lemma ForgotTokens(db: Db, now: Time, rawEmail: string, r: Result)
    requires Inv(db) && r == ForgotPassword(db, now, rawEmail)
    ensures TokensAfter(db, now, Forgot(rawEmail), r)
  {
    var found := FindUserByEmail(db, Normalize(rawEmail));
    if found.Some? {
      OnlyOneAt(db, rawEmail, found.value);
      ReissueIssuesAs(db, found.value, PASSWORD_RESET, NoMetadata, now + 3_600_000);
      IssuedTable(db, now, Forgot(rawEmail), r, db.next,
          Token(found.value, PASSWORD_RESET, NoMetadata, now + 3_600_000, false));
    } else {
      SameTable(db, now, Forgot(rawEmail), r);
    }
  }

  lemma ResendTokens(db: Db, now: Time, rawEmail: string, r: Result)
    requires Inv(db) && r == ResendVerification(db, now, rawEmail)
    ensures TokensAfter(db, now, ResendLink(rawEmail), r)
  {
    if u :| AwaitsLink(db, u, Normalize(rawEmail)) {
      ResendAnswers(db, now, rawEmail, u, r);
      OnlyOneAt(db, rawEmail, u);
      IssuedTable(db, now, ResendLink(rawEmail), r, db.next,
          Token(u, EMAIL_VERIFICATION, NoMetadata, now + 86_400_000, false));
    } else {
      ResendAnswers(db, now, rawEmail, 0, r);
      SameTable(db, now, ResendLink(rawEmail), r);
    }
  }

  lemma WithoutAccountTokens(
    db: Db, now: Time, googleId: string, rawEmail: string, verified: bool, pending: Option<Id>, random: string,
    r: Result)
    requires db.next !in db.tokens
    requires r == GoogleWithoutAccount(db, now, googleId, rawEmail, verified, pending, random)
    ensures (!r.outcome.LinkPending? && r.db.tokens == db.tokens)
      || (&& r.outcome.LinkPending?
          && exists u :: IsUserByEmail(db, u, Normalize(rawEmail))
               && IssuedAs(db.tokens, r.db.tokens, db.next,
                           Token(u, GOOGLE_LINK, GoogleIdentity(googleId, verified), now + 900_000, false)))
  {
    var existing := FindUserByEmail(db, Normalize(rawEmail));
    if existing.Some? {
      ReissueIssuesAs(db, existing.value, GOOGLE_LINK, GoogleIdentity(googleId, verified), now + 900_000);
    } else {
      GoogleWithoutAccountWrites(db, now, googleId, rawEmail, verified, pending, random);
    }
  }

  lemma ReturnedTokens(
    db: Db, now: Time, googleId: string, rawEmail: string, verified: bool, pending: Option<Id>, random: string,
    r: Result)
    requires db.next !in db.tokens && r == GoogleLogin(db, now, googleId, rawEmail, verified, pending, random)
    ensures (!r.outcome.LinkPending? && r.db.tokens == db.tokens)
      || (&& r.outcome.LinkPending?
          && exists u :: IsUserByEmail(db, u, Normalize(rawEmail))
               && IssuedAs(db.tokens, r.db.tokens, db.next,
                           Token(u, GOOGLE_LINK, GoogleIdentity(googleId, verified), now + 900_000, false)))
  {
    var account := FindAuthAccount(db, GOOGLE, googleId);
    if account.None? {
      WithoutAccountTokens(db, now, googleId, rawEmail, verified, pending, random, r);
    } else if !Live(db, db.accounts[account.value].userId) && pending.Some? {
      var released := ReleaseIdentityClaims(db, db.accounts[account.value].userId);
      assert forall u :: IsUserByEmail(released, u, Normalize(rawEmail)) == IsUserByEmail(db, u, Normalize(rawEmail));
      WithoutAccountTokens(released, now, googleId, rawEmail, verified, pending, random, r);
    }
  }

  lemma ReturnTokens(
    db: Db, now: Time, googleId: string, rawEmail: string, verified: bool, pending: Option<Id>, random: string,
    r: Result)
    requires Inv(db) && r == GoogleLogin(db, now, googleId, rawEmail, verified, pending, random)
    ensures TokensAfter(db, now, ReturnFromGoogle(googleId, rawEmail, verified, pending, random), r)
  {
    var request := ReturnFromGoogle(googleId, rawEmail, verified, pending, random);
    ReturnedTokens(db, now, googleId, rawEmail, verified, pending, random, r);
    if r.outcome.LinkPending? {
      var u :| IsUserByEmail(db, u, Normalize(rawEmail))
        && IssuedAs(db.tokens, r.db.tokens, db.next,
                    Token(u, GOOGLE_LINK, GoogleIdentity(googleId, verified), now + 900_000, false));
      OnlyOneAt(db, rawEmail, u);
      IssuedTable(db, now, request, r, db.next,
          Token(u, GOOGLE_LINK, GoogleIdentity(googleId, verified), now + 900_000, false));
    } else {
      SameTable(db, now, request, r);
    }
  }

  lemma LinkTokens(db: Db, now: Time, t: Id, password: string, r: Result)
    requires OwnersExist(db) && db.next !in db.tokens && r == LinkGoogle(db, now, t, password)
    ensures TokensAfter(db, now, LinkAccounts(t, password), r)
  {
    LinkGoogleWrites(db, now, t, password);
    NoneTable(db, now, LinkAccounts(t, password), r);
  }

  lemma VerifyTokens(db: Db, now: Time, t: Id, r: Result)
    requires OwnersExist(db) && r == VerifyEmail(db, now, t)
    ensures TokensAfter(db, now, Verify(t), r)
  {
    NoneTable(db, now, Verify(t), r);
  }

  lemma ResetTokens(db: Db, now: Time, t: Id, password: string, r: Result)
    requires OwnersExist(db) && r == ResetPassword(db, now, t, password)
    ensures TokensAfter(db, now, Reset(t, password), r)
  {
    ResetPasswordWrites(db, now, t, password);
    NoneTable(db, now, Reset(t, password), r);
  }

  /** Nothing is issued, and the one token acted on is used from then on. */
  predicate UsedUp(tokens: Tokens, tokens': Tokens, t: Id) {
    t in tokens && tokens' == tokens[t := tokens[t].(used := true)]
  }

  lemma UsedUpTable(db: Db, now: Time, request: Request, r: Result, t: Id)
    requires forall token :: !Issues(db, now, request, r.outcome, token)
    requires TokenOf(request) == Some(t) && !r.outcome.Refused? && UsedUp(db.tokens, r.db.tokens, t)
    ensures TokensAfter(db, now, request, r)
  {
  }

  lemma ConfirmedTokens(db: Db, now: Time, t: Id, r: Result)
    requires Inv(db) && r == ConfirmEmailChange(db, now, t)
    ensures (r.outcome.Refused? && r.db == db) || (r.outcome == Done && UsedUp(db.tokens, r.db.tokens, t))
  {
    ConfirmEmailChangeWrites(db, now, t);
    if r.outcome == Done {
      ReleaseOtherClaimFrame(db, db.tokens[t].userId, db.users[db.tokens[t].userId].pendingEmail.value);
    }
  }

  lemma ConfirmTokens(db: Db, now: Time, t: Id, r: Result)
    requires (r.outcome.Refused? && r.db == db) || (r.outcome == Done && UsedUp(db.tokens, r.db.tokens, t))
    ensures TokensAfter(db, now, ConfirmAddress(t), r)
  {
    if r.outcome == Done { UsedUpTable(db, now, ConfirmAddress(t), r, t); }
  }

  lemma CleanUpTokens(db: Db, now: Time, r: Result)
    requires r == Result(CleanUpExpired(db, now), Done)
    ensures TokensAfter(db, now, CleanUp, r)
  {
    NoneTable(db, now, CleanUp, r);
  }

  lemma JobTokens(db: Db, now: Time, request: Request, r: Result)
    requires OwnersExist(db) && r == Step(db, now, request)
    requires request.Sweep? || request.Bootstrap? || request.SignIn? || request.BeginGoogle?
    ensures r.db.tokens == db.tokens
  {
    if request.SignIn? { LoginTokens(db, now, request.rawEmail, request.password); }
  }

  // ─── Actions on a session ──────────────────────────────────────────────────

  lemma AskedTokens(db: Db, now: Time, u: Id, s: Id, newEmail: string, proof: Option<string>, r: Result)
    requires db.next !in db.tokens && r == RequestEmailChange(db, now, u, s, newEmail, proof)
    ensures (r.outcome.Refused? && r.db.tokens == db.tokens)
      || (&& r.outcome == Done
          && IssuedAs(db.tokens, r.db.tokens, db.next,
                      Token(u, EMAIL_CHANGE, NewEmail(Normalize(newEmail)), now + 3_600_000, false)))
  {
    var proved := AssertRecentlyAuthenticated(db, now, u, s, proof).db;
    RequestEmailChangeWrites(db, now, u, s, newEmail, proof);
    ProofWrites(db, now, u, s, proof);
    if r.outcome == Done {
      var address := Normalize(newEmail);
      ReissueIssuesAs(SetUser(proved, u, proved.users[u].(pendingEmail := Some(address))), u, EMAIL_CHANGE,
          NewEmail(address), now + 3_600_000);
    }
  }

  lemma ActionTokens(db: Db, now: Time, u: Id, s: Id, action: Action, r: Result)
    requires u in db.users && !action.AskForNewEmail? && !action.DeleteMyself? && !action.AnonymiseUser?
    requires r == Act(db, now, u, s, action)
    ensures r.db.tokens == db.tokens
  {
  }

  lemma DeletionTokens(db: Db, now: Time, u: Id, s: Id, action: Action, r: Result)
    requires u in db.users && (action.DeleteMyself? || action.AnonymiseUser?) && r == Act(db, now, u, s, action)
    ensures r.db.tokens == db.tokens
  {
    if action.DeleteMyself? { ProofWrites(db, now, u, s, action.proof); }
  }

  lemma OthersTokens(db: Db, now: Time, u: Id, s: Id, action: Action, r: Result)
    requires u in db.users && !action.AskForNewEmail? && r == Act(db, now, u, s, action)
    ensures r.db.tokens == db.tokens
  {
    if action.DeleteMyself? || action.AnonymiseUser? {
      DeletionTokens(db, now, u, s, action, r);
    } else {
      ActionTokens(db, now, u, s, action, r);
    }
  }

  lemma AskTable(db: Db, now: Time, s: Id, newEmail: string, proof: Option<string>, r: Result)
    requires s in db.sessions
    requires (r.outcome.Refused? && r.db.tokens == db.tokens)
      || (&& r.outcome == Done
          && var metadata := NewEmail(Normalize(newEmail));
             IssuedAs(db.tokens, r.db.tokens, db.next,
                      Token(db.sessions[s].userId, EMAIL_CHANGE, metadata, now + 3_600_000, false)))
    ensures TokensAfter(db, now, As(s, AskForNewEmail(newEmail, proof)), r)
  {
    var request := As(s, AskForNewEmail(newEmail, proof));
    if r.outcome == Done {
      IssuedTable(db, now, request, r, db.next,
          Token(db.sessions[s].userId, EMAIL_CHANGE, NewEmail(Normalize(newEmail)), now + 3_600_000, false));
    } else {
      SameTable(db, now, request, r);
    }
  }

  lemma ActAsOthersTokens(db: Db, now: Time, s: Id, action: Action, r: Result)
    requires OwnersExist(db) && r == ActAs(db, now, s, action) && (action.AskForNewEmail? ==> !Admitted(db, now, s))
    ensures r.db.tokens == db.tokens && (action.AskForNewEmail? ==> r.outcome.Refused?)
  {
    var valid := ValidateSession(db, now, s).db;
    ActAsIs(db, now, s, action);
    assert valid.tokens == db.tokens;
    if Admitted(db, now, s) { OthersTokens(valid, now, db.sessions[s].userId, s, action, r); }
  }

  lemma ActAsAskTokens(db: Db, now: Time, s: Id, newEmail: string, proof: Option<string>, r: Result)
    requires OwnersExist(db) && db.next !in db.tokens && Admitted(db, now, s)
    requires r == ActAs(db, now, s, AskForNewEmail(newEmail, proof))
    ensures TokensAfter(db, now, As(s, AskForNewEmail(newEmail, proof)), r)
  {
    var valid := ValidateSession(db, now, s).db;
    ActAsIs(db, now, s, AskForNewEmail(newEmail, proof));
    assert valid == db.(sessions := valid.sessions);
    AskedTokens(valid, now, db.sessions[s].userId, s, newEmail, proof, r);
    AskTable(db, now, s, newEmail, proof, r);
  }

  lemma OthersTable(db: Db, now: Time, s: Id, action: Action, r: Result)
    requires r.db.tokens == db.tokens && (action.AskForNewEmail? ==> r.outcome.Refused?)
    ensures TokensAfter(db, now, As(s, action), r)
  {
  }

  lemma ActAsTokens(db: Db, now: Time, s: Id, action: Action, r: Result)
    requires OwnersExist(db) && db.next !in db.tokens && r == ActAs(db, now, s, action)
    ensures TokensAfter(db, now, As(s, action), r)
  {
    if action.AskForNewEmail? && Admitted(db, now, s) {
      ActAsAskTokens(db, now, s, action.newEmail, action.proof, r);
    } else {
      ActAsOthersTokens(db, now, s, action, r);
      OthersTable(db, now, s, action, r);
    }
  }

  lemma NextIsFree(db: Db)
    requires Inv(db)
    ensures db.next !in db.tokens
  {
  }

  // ─── Any request ───────────────────────────────────────────────────────────

  lemma SigningInTokens(db: Db, now: Time, request: Request, r: Result)
    requires Inv(db) && r == Step(db, now, request)
    requires request.SignUp? || request.ReturnFromGoogle? || request.LinkAccounts?
    ensures TokensAfter(db, now, request, r)
  {
    match request
    case SignUp(rawEmail, password, username, dob, known) =>
      RegisterTokens(db, now, rawEmail, password, username, dob, known, r);
    case ReturnFromGoogle(googleId, rawEmail, verified, pending, random) =>
      ReturnTokens(db, now, googleId, rawEmail, verified, pending, random, r);
    case LinkAccounts(t, password) =>
      NextIsFree(db);
      LinkTokens(db, now, t, password, r);
  }

  lemma KeptTable(db: Db, now: Time, request: Request, r: Result)
    requires request.Sweep? || request.Bootstrap? || request.SignIn? || request.BeginGoogle?
    requires r.db.tokens == db.tokens
    ensures TokensAfter(db, now, request, r)
  {
  }

  lemma ByLinkTokens(db: Db, now: Time, request: Request, r: Result)
    requires Inv(db) && ByLink(request) && r == Step(db, now, request)
    ensures TokensAfter(db, now, request, r)
  {
    match request
    case Verify(t) => VerifyTokens(db, now, t, r);
    case ResendLink(rawEmail) => ResendTokens(db, now, rawEmail, r);
    case Forgot(rawEmail) => ForgotTokens(db, now, rawEmail, r);
    case Reset(t, password) => ResetTokens(db, now, t, password, r);
    case ConfirmAddress(t) =>
      ConfirmedTokens(db, now, t, r);
      ConfirmTokens(db, now, t, r);
  }

  /** Whatever the request and however it is answered: it issues at most one token, of which user, kind, content
      and time the table says, and spends the earlier ones of that user and kind; otherwise every token stays as
      it was, except the one acted on and, in the clean-up, those that had run out. */
  lemma StepTokens(db: Db, now: Time, request: Request)
    requires Inv(db)
    ensures TokensAfter(db, now, request, Step(db, now, request))
  {
    var r := Step(db, now, request);
    if request.As? {
      AsIsActAs(db, now, request.session, request.action);
      NextIsFree(db);
      ActAsTokens(db, now, request.session, request.action, r);
    } else if request.CleanUp? {
      CleanUpTokens(db, now, r);
    } else if ByLink(request) {
      ByLinkTokens(db, now, request, r);
    } else if request.SignUp? || request.ReturnFromGoogle? || request.LinkAccounts? {
      SigningInTokens(db, now, request, r);
    } else {
      JobTokens(db, now, request, r);
      KeptTable(db, now, request, r);
    }
  }
}
