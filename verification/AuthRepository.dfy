/** The repository over the account tables: one method per database call, each atomic, each writing the
    rows it names and no other. */
module AuthRepository {
  import opened Text
  import opened AuthTables

  class Repository {
    var users: map<Id, User>
    var accounts: map<Id, Account>
    var sessions: map<Id, Session>
    var tokens: map<Id, Token>
    var pendings: map<Id, PendingSignup>
    var next: Id

    constructor ()
      ensures users == map[] && accounts == map[] && sessions == map[] && tokens == map[] && pendings == map[]
      ensures next == 0
    {
      users, accounts, sessions, tokens, pendings, next := map[], map[], map[], map[], map[], 0;
    }

    // ─── Users ─────────────────────────────────────────────────────────────

    method FindUserByEmail(email: string) returns (found: Option<Id>)
      ensures found.Some? ==> LiveIn(users, found.value) && users[found.value].email == email
      ensures found.None? ==> forall u :: LiveIn(users, u) ==> users[u].email != email
    {
      if u :| u in users && !users[u].deleted && users[u].email == email { found := Some(u); } else { found := None; }
    }

    method FindUserByUsername(username: string) returns (found: Option<Id>)
      ensures found.Some? ==> LiveIn(users, found.value) && users[found.value].username == Lower(username)
      ensures found.None? ==> forall u :: LiveIn(users, u) ==> users[u].username != Lower(username)
    {
      var name := Lower(username);
      if u :| u in users && !users[u].deleted && users[u].username == name { found := Some(u); } else { found := None; }
    }

    /** Whoever holds the address, deleted or not. */
    method FindHolder(email: string) returns (found: Option<Id>)
      ensures found.Some? ==> found.value in users && users[found.value].email == email
      ensures found.None? ==> forall u :: u in users ==> users[u].email != email
    {
      if u :| u in users && users[u].email == email { found := Some(u); } else { found := None; }
    }

    /** Another live user holds the name. */
    method IsUsernameTaken(username: string, exclude: Id) returns (taken: bool)
      ensures taken <==>
        exists v :: v in users && v != exclude && !users[v].deleted && users[v].username == Lower(username)
    {
      var name := Lower(username);
      taken := exists v :: v in users && v != exclude && !users[v].deleted && users[v].username == name;
    }

    method EmailInUse(email: string) returns (inUse: bool)
      ensures inUse <==> exists u :: u in users && users[u].email == email
    {
      inUse := exists u :: u in users && users[u].email == email;
    }

    /** The user and the first account together; refused when a unique index is broken. */
    method CreateUser(user: User, provider: Provider, identifier: string, hash: Option<PasswordHash>)
      returns (created: Option<Id>)
      modifies `users, `accounts, `next
      ensures created.None? <==>
        || (exists u :: u in old(users) && old(users)[u].email == user.email)
        || (exists u :: u in old(users) && old(users)[u].username == user.username)
        || (exists a :: a in old(accounts) && Identifies(old(accounts)[a], provider, identifier))
      ensures created.None? ==> users == old(users) && accounts == old(accounts) && next == old(next)
      ensures created.Some? ==>
        && created.value == old(next) && next == old(next) + 2
        && users == old(users)[old(next) := user]
        && accounts == old(accounts)[old(next) + 1 := Account(old(next), provider, identifier, hash)]
    {
      if (exists u :: u in users && users[u].email == user.email)
         || (exists u :: u in users && users[u].username == user.username)
         || (exists a :: a in accounts && Identifies(accounts[a], provider, identifier)) {
        return None;
      }
      created := Some(next);
      users := users[next := user];
      accounts := accounts[next + 1 := Account(next, provider, identifier, hash)];
      next := next + 2;
    }

    method UpdateUser(u: Id, user: User)
      requires u in users
      modifies `users
      ensures users == old(users)[u := user]
    {
      users := users[u := user];
    }

    /** Refused when another row, deleted or not, has the name. */
    method UpdateUsername(u: Id, username: string) returns (renamed: bool)
      requires u in users
      modifies `users
      ensures !renamed <==> exists v :: v in old(users) && v != u && old(users)[v].username == username
      ensures users == if renamed then old(users)[u := old(users)[u].(username := username)] else old(users)
    {
      renamed := !exists v :: v in users && v != u && users[v].username == username;
      if renamed { users := users[u := users[u].(username := username)]; }
    }

    /** Refused when another row, deleted or not, has the name of the new one. */
    method UpdateProfile(u: Id, user: User) returns (updated: bool)
      requires u in users
      modifies `users
      ensures !updated <==> exists v :: v in old(users) && v != u && old(users)[v].username == user.username
      ensures users == if updated then old(users)[u := user] else old(users)
    {
      updated := !exists v :: v in users && v != u && users[v].username == user.username;
      if updated { users := users[u := user]; }
    }

    /** Puts the pseudonym over the user row; refused when another row has its address or name. */
    method Anonymise(u: Id, user: User) returns (renamed: bool)
      requires u in users
      modifies `users
      ensures !renamed <==>
        exists v :: v in old(users) && v != u
          && (old(users)[v].email == user.email || old(users)[v].username == user.username)
      ensures users == if renamed then old(users)[u := user] else old(users)
    {
      renamed := !exists v ::
        v in users && v != u && (users[v].email == user.email || users[v].username == user.username);
      if renamed { users := users[u := user]; }
    }

    // ─── Accounts ──────────────────────────────────────────────────────────

    method FindAuthAccount(provider: Provider, identifier: string) returns (found: Option<Id>)
      ensures found.Some? ==> found.value in accounts && Identifies(accounts[found.value], provider, identifier)
      ensures found.None? ==> forall a :: a in accounts ==> !Identifies(accounts[a], provider, identifier)
    {
      if a :| a in accounts && Identifies(accounts[a], provider, identifier) {
        found := Some(a);
      } else {
        found := None;
      }
    }

    method FindEmailAccountByUserId(u: Id) returns (found: Option<Id>)
      ensures found.Some? ==>
        found.value in accounts && accounts[found.value].userId == u && accounts[found.value].provider == EMAIL
      ensures found.None? ==> forall a :: a in accounts ==> accounts[a].userId != u || accounts[a].provider != EMAIL
    {
      if a :| a in accounts && accounts[a].userId == u && accounts[a].provider == EMAIL {
        found := Some(a);
      } else {
        found := None;
      }
    }

    /** Refused when the identity is taken. */
    method CreateAccount(account: Account) returns (created: bool)
      modifies `accounts, `next
      ensures !created <==>
        exists a :: a in old(accounts) && Identifies(old(accounts)[a], account.provider, account.identifier)
      ensures !created ==> accounts == old(accounts) && next == old(next)
      ensures created ==> accounts == old(accounts)[old(next) := account] && next == old(next) + 1
    {
      created := !exists a :: a in accounts && Identifies(accounts[a], account.provider, account.identifier);
      if created {
        accounts := accounts[next := account];
        next := next + 1;
      }
    }

    method UpdatePasswordHash(a: Id, hash: PasswordHash)
      requires a in accounts
      modifies `accounts
      ensures accounts == old(accounts)[a := old(accounts)[a].(passwordHash := Some(hash))]
    {
      accounts := accounts[a := accounts[a].(passwordHash := Some(hash))];
    }

    method ClearStoredPasswords(u: Id)
      modifies `accounts
      ensures accounts == WithoutPasswords(old(accounts), u)
    {
      accounts := WithoutPasswords(accounts, u);
    }

    method DeleteAuthAccount(a: Id)
      modifies `accounts
      ensures accounts == old(accounts) - {a}
    {
      accounts := accounts - {a};
    }

    /** No account of the user is left, and every account of anybody else is as it was. */
    method ReleaseIdentityClaims(u: Id)
      modifies `accounts
      ensures forall a :: a in accounts ==> accounts[a].userId != u
      ensures forall a :: a in accounts ==> a in old(accounts) && accounts[a] == old(accounts)[a]
      ensures forall a :: a in old(accounts) && old(accounts)[a].userId != u ==> a in accounts
    {
      accounts := map a | a in accounts && accounts[a].userId != u :: accounts[a];
    }

    /** The user row and the user's EMAIL account in one transaction; refused, whole, when either breaks a
        unique index. */
    method ApplyEmailChange(u: Id, email: string) returns (applied: bool)
      requires u in users
      modifies `users, `accounts
      ensures !applied <==> ChangeCollides(old(users), old(accounts), u, email)
      ensures !applied ==> users == old(users) && accounts == old(accounts)
      ensures applied ==>
        && users == old(users)[u := old(users)[u].(email := email, pendingEmail := None)]
        && accounts == Renamed(old(accounts), u, email)
    {
      applied := !ChangeCollides(users, accounts, u, email);
      if applied {
        users := users[u := users[u].(email := email, pendingEmail := None)];
        accounts := Renamed(accounts, u, email);
      }
    }

    // ─── Sessions ──────────────────────────────────────────────────────────

    method CreateSession(session: Session) returns (s: Id)
      modifies `sessions, `next
      ensures s == old(next) && next == old(next) + 1 && sessions == old(sessions)[old(next) := session]
    {
      s := next;
      sessions := sessions[next := session];
      next := next + 1;
    }

    method UpdateSession(s: Id, session: Session)
      requires s in sessions
      modifies `sessions
      ensures sessions == old(sessions)[s := session]
    {
      sessions := sessions[s := session];
    }

    /** Clears the proof on the session if it is recent enough, and says whether it did. */
    method ConsumeSessionReauthentication(s: Id, notBefore: Time) returns (consumed: bool)
      modifies `sessions
      ensures consumed <==> s in old(sessions) && old(sessions)[s].reauthenticatedAt.Some?
                            && notBefore <= old(sessions)[s].reauthenticatedAt.value
      ensures sessions
        == if consumed then old(sessions)[s := old(sessions)[s].(reauthenticatedAt := None)] else old(sessions)
    {
      consumed := s in sessions && sessions[s].reauthenticatedAt.Some?
        && notBefore <= sessions[s].reauthenticatedAt.value;
      if consumed {
        sessions := sessions[s := sessions[s].(reauthenticatedAt := None)];
      }
    }

    method DeleteSession(s: Id)
      modifies `sessions
      ensures sessions == old(sessions) - {s}
    {
      sessions := sessions - {s};
    }

    method DeleteAllUserSessions(u: Id)
      modifies `sessions
      ensures sessions == map s | s in old(sessions) && old(sessions)[s].userId != u :: old(sessions)[s]
    {
      sessions := map s | s in sessions && sessions[s].userId != u :: sessions[s];
    }

    // ─── Tokens and pending signups ────────────────────────────────────────

    method FindVerificationToken(t: Id, kind: TokenType) returns (found: Option<Token>)
      ensures found == if t in tokens && tokens[t].kind == kind && !tokens[t].used then Some(tokens[t]) else None
    {
      found := if t in tokens && tokens[t].kind == kind && !tokens[t].used then Some(tokens[t]) else None;
    }

    method CreateVerificationToken(token: Token) returns (t: Id)
      modifies `tokens, `next
      ensures t == old(next) && next == old(next) + 1 && tokens == old(tokens)[old(next) := token]
    {
      t := next;
      tokens := tokens[next := token];
      next := next + 1;
    }

    method MarkTokenUsed(t: Id)
      requires t in tokens
      modifies `tokens
      ensures tokens == old(tokens)[t := old(tokens)[t].(used := true)]
    {
      tokens := tokens[t := tokens[t].(used := true)];
    }

    /** No token of the user and kind is outstanding any more: those that were are marked used, the rest of
        what they say kept, and every other token is as it was. */
    method InvalidateTokens(u: Id, kind: TokenType)
      modifies `tokens
      ensures tokens.Keys == old(tokens).Keys
      ensures forall t :: t in tokens ==> !Outstanding(tokens[t], u, kind)
      ensures forall t :: t in tokens && Outstanding(old(tokens)[t], u, kind) ==>
        tokens[t] == old(tokens)[t].(used := true)
      ensures forall t :: t in tokens && !Outstanding(old(tokens)[t], u, kind) ==> tokens[t] == old(tokens)[t]
    {
      tokens := Spent(tokens, u, kind);
    }

    method CreatePendingSignup(pending: PendingSignup) returns (p: Id)
      modifies `pendings, `next
      ensures p == old(next) && next == old(next) + 1 && pendings == old(pendings)[old(next) := pending]
    {
      p := next;
      pendings := pendings[next := pending];
      next := next + 1;
    }

    /** Deleted on being read, in time or not. */
    method ConsumePendingSignup(p: Id, now: Time) returns (pending: Option<PendingSignup>)
      modifies `pendings
      ensures pendings == old(pendings) - {p}
      ensures pending ==
        if p in old(pendings) && now <= old(pendings)[p].expiresAt then Some(old(pendings)[p]) else None
    {
      pending := if p in pendings && now <= pendings[p].expiresAt then Some(pendings[p]) else None;
      pendings := pendings - {p};
    }

    /** Everything that has run out: sessions, tokens, pending signups. */
    method DeleteExpired(now: Time)
      modifies `sessions, `tokens, `pendings
      ensures sessions == map s | s in old(sessions) && now <= old(sessions)[s].expiresAt :: old(sessions)[s]
      ensures tokens == map t | t in old(tokens) && now <= old(tokens)[t].expiresAt :: old(tokens)[t]
      ensures pendings == map p | p in old(pendings) && now <= old(pendings)[p].expiresAt :: old(pendings)[p]
    {
      sessions := map s | s in sessions && now <= sessions[s].expiresAt :: sessions[s];
      tokens := map t | t in tokens && now <= tokens[t].expiresAt :: tokens[t];
      DeleteExpiredPendingSignups(now);
    }

    method DeleteExpiredPendingSignups(now: Time)
      modifies `pendings
      ensures pendings == map p | p in old(pendings) && now <= old(pendings)[p].expiresAt :: old(pendings)[p]
    {
      pendings := map p | p in pendings && now <= pendings[p].expiresAt :: pendings[p];
    }
  }
}
