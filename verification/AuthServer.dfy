/** The server around the services: one request at a time goes through the session check to the method that
    serves it, and what comes out is the step a run takes. */
module AuthServer {
  import opened Text
  import opened AuthTables
  import opened AuthSpec
  import opened AuthInvariant
  import opened AuthRuns
  import opened AuthService
  import UsersService

  class Server {
    const auth: Service
    const users: UsersService.Users
    const admin: UsersService.AdminUsers

    constructor ()
      ensures Snapshot() == EMPTY_DB && Inv(Snapshot())
      ensures fresh(auth.repo) && fresh(auth.redis) && Wired()
    {
      var service := new Service();
      var people := new UsersService.Users(service);
      auth, users := service, people;
      admin := new UsersService.AdminUsers(people);
      new;
      InvEmpty();
    }

    /** The three services share one repository. */
    ghost predicate Wired() {
      users.auth == auth && admin.users == users
    }

    ghost function Snapshot(): Db
      reads auth.repo, auth.redis
    {
      auth.Snapshot()
    }

    /** The job that gives the first administrator the role. */
    method GrantAdmin(rawEmail: string, allowUnverified: bool) returns (outcome: Outcome)
      requires EmailsUnique(auth.repo.users)
      modifies auth.repo
      ensures Result(Snapshot(), outcome) == AuthSpec.GrantAdmin(old(Snapshot()), rawEmail, allowUnverified)
    {
      var email := Trim(rawEmail);
      if email == "" { return Done; }
      var holder := auth.repo.FindHolder(email);
      if holder.None? { return Refused(NotFound); }
      var user := auth.repo.users[holder.value];
      if ADMIN in user.roles { return Done; }
      if !user.verified && !allowUnverified { return Refused(EmailNotVerified); }
      auth.repo.UpdateUser(holder.value, user.(roles := user.roles + {ADMIN}));
      outcome := Done;
    }

    method Sweep(now: Time)
      modifies auth.repo
      ensures Snapshot() == DeleteExpiredPendingSignups(old(Snapshot()), now)
    {
      auth.repo.DeleteExpiredPendingSignups(now);
    }

    method CleanUp(now: Time)
      modifies auth.repo
      ensures Snapshot() == CleanUpExpired(old(Snapshot()), now)
    {
      auth.repo.DeleteExpired(now);
    }

    // ─── Signed-in requests ────────────────────────────────────────────────

    /** What a user does to their own account. */
    method ServeOwn(now: Time, u: Id, s: Id, action: Action) returns (outcome: Outcome)
      requires Wired() && Inv(Snapshot()) && u in auth.repo.users
      requires action.SetUpAccount? || action.EditProfile? || action.AcceptInvitation? || action.DeleteMyself?
      modifies auth.repo
      ensures Result(Snapshot(), outcome) == Act(old(Snapshot()), now, u, s, action)
    {
      InvIsKeyed(Snapshot());
      match action {
        case SetUpAccount(username) => outcome := auth.CompleteOnboarding(u, username);
        case EditProfile(username, dob) => outcome := users.UpdateOwnProfile(now, u, username, dob);
        case AcceptInvitation =>
          auth.repo.UpdateUser(u, auth.repo.users[u].(roles := auth.repo.users[u].roles + {VRATMITRA}));
          outcome := Done;
        case DeleteMyself(proof, p) => outcome := users.SelfDelete(now, u, s, proof, p);
      }
    }

    /** Passwords, proofs, connected accounts and the address. */
    method ServeCredentials(now: Time, u: Id, s: Id, action: Action) returns (outcome: Outcome)
      requires Inv(Snapshot())
      requires u in auth.repo.users
      requires action.Change? || action.ProveWithGoogle? || action.Unlink? || action.AskForNewEmail?
      modifies auth.repo
      ensures Result(Snapshot(), outcome) == Act(old(Snapshot()), now, u, s, action)
    {
      InvIsKeyed(Snapshot());
      match action {
        case Change(current, password) => outcome := auth.ChangePassword(now, u, current, password);
        case ProveWithGoogle(googleId) => outcome := auth.ReauthenticateWithGoogle(now, u, s, googleId);
        case Unlink(provider, target) => outcome := auth.DisconnectAccount(u, provider, target);
        case AskForNewEmail(newEmail, proof) => outcome := auth.RequestEmailChange(now, u, s, newEmail, proof);
      }
    }

    method ServeAdmin(now: Time, u: Id, s: Id, action: Action) returns (outcome: Outcome)
      requires Wired() && u in auth.repo.users
      requires Administers(action)
      modifies auth.repo
      ensures Result(Snapshot(), outcome) == Act(old(Snapshot()), now, u, s, action)
    {
      match action {
        case Suspend(target, suspended) => outcome := admin.SetSuspended(u, target, suspended);
        case LogOut(target) => outcome := admin.ForceLogout(u, target);
        case ChangeRoles(target, add, remove) => outcome := admin.UpdateRoles(u, target, add, remove);
        case AnonymiseUser(target, p) => outcome := admin.Anonymise(u, target, p);
      }
    }

    method ServeAction(now: Time, u: Id, s: Id, action: Action) returns (outcome: Outcome)
      requires Wired() && Inv(Snapshot()) && u in auth.repo.users
      modifies auth.repo
      ensures Result(Snapshot(), outcome) == Act(old(Snapshot()), now, u, s, action)
    {
      if action.Whoami? {
        outcome := Done;
      } else if action.SignOut? {
        auth.repo.DeleteSession(s);
        outcome := Done;
      } else if Administers(action) {
        outcome := ServeAdmin(now, u, s, action);
      } else if action.Change? || action.ProveWithGoogle? || action.Unlink? || action.AskForNewEmail? {
        outcome := ServeCredentials(now, u, s, action);
      } else {
        outcome := ServeOwn(now, u, s, action);
      }
    }

    /** The session first, then the action as its holder. */
    method ServeAs(now: Time, s: Id, action: Action) returns (outcome: Outcome)
      requires Wired() && Inv(Snapshot())
      modifies auth.repo
      ensures Result(Snapshot(), outcome) == ActAs(old(Snapshot()), now, s, action)
    {
      InvIsKeyed(Snapshot());
      InvValidateSession(Snapshot(), now, s);
      outcome := auth.ValidateSession(now, s);
      if outcome.SessionValid? {
        outcome := ServeAction(now, outcome.user, s, action);
      }
    }

    // ─── Every request ─────────────────────────────────────────────────────

    method ServeSignIn(now: Time, request: Request) returns (outcome: Outcome)
      requires Inv(Snapshot())
      requires SigningIn(request)
      modifies auth.repo, auth.redis
      ensures Result(Snapshot(), outcome) == Step(old(Snapshot()), now, request)
    {
      InvIsKeyed(Snapshot());
      match request {
        case SignUp(rawEmail, password, username, dob, known) =>
          outcome := auth.Register(now, rawEmail, password, username, dob, known);
        case SignIn(rawEmail, password) => outcome := auth.Login(now, rawEmail, password);
        case BeginGoogle(username, dob, known) => outcome := auth.StartGoogleSignup(now, username, dob, known);
        case ReturnFromGoogle(googleId, rawEmail, verified, pending, random) =>
          outcome := auth.HandleGoogleLogin(now, googleId, rawEmail, verified, pending, random);
        case LinkAccounts(t, password) => outcome := auth.LinkGoogleAccount(now, t, password);
      }
    }

    method ServeLink(now: Time, request: Request) returns (outcome: Outcome)
      requires Inv(Snapshot())
      requires ByLink(request)
      modifies auth.repo
      ensures Result(Snapshot(), outcome) == Step(old(Snapshot()), now, request)
    {
      InvIsKeyed(Snapshot());
      match request {
        case Verify(t) => outcome := auth.VerifyEmail(now, t);
        case ResendLink(rawEmail) => outcome := auth.ResendVerification(now, rawEmail);
        case Forgot(rawEmail) => outcome := auth.ForgotPassword(now, rawEmail);
        case Reset(t, password) => outcome := auth.ResetPassword(now, t, password);
        case ConfirmAddress(t) => outcome := auth.ConfirmEmailChange(now, t);
      }
    }

    method ServeJob(now: Time, request: Request) returns (outcome: Outcome)
      requires Inv(Snapshot())
      requires ByJob(request)
      modifies auth.repo
      ensures Result(Snapshot(), outcome) == Step(old(Snapshot()), now, request)
    {
      InvIsKeyed(Snapshot());
      outcome := Done;
      match request {
        case Sweep => Sweep(now);
        case CleanUp => CleanUp(now);
        case Bootstrap(rawEmail, allowUnverified) => outcome := GrantAdmin(rawEmail, allowUnverified);
      }
    }

    /** Whatever is asked, the tables and the answer are those of one step of a run, and the tables stay
        sound: what is proved of runs holds of this server. */
    method Serve(now: Time, request: Request) returns (outcome: Outcome)
      requires Wired() && Inv(Snapshot())
      modifies auth.repo, auth.redis
      ensures Result(Snapshot(), outcome) == Step(old(Snapshot()), now, request) && Inv(Snapshot())
    {
      StepKeepsInv(Snapshot(), now, request);
      if request.As? {
        outcome := ServeAs(now, request.session, request.action);
      } else if ByJob(request) {
        outcome := ServeJob(now, request);
      } else if ByLink(request) {
        outcome := ServeLink(now, request);
      } else {
        outcome := ServeSignIn(now, request);
      }
    }

    method ServeNext(run: seq<Event>, i: nat) returns (outcome: Outcome)
      requires i < |run| && Wired() && Snapshot() == After(run[..i])
      modifies auth.repo, auth.redis
      ensures Snapshot() == After(run[..i + 1]) && outcome == Answer(run, i)
    {
      AfterOneMore(run, i);
      outcome := Serve(run[i].now, run[i].request);
    }

    /** Serving requests one after the other, from the empty tables, answers each as the run does and ends
        in the tables the run reaches. */
    method ServeFirst(run: seq<Event>, n: nat) returns (answers: seq<Outcome>)
      requires n <= |run| && Wired() && Snapshot() == EMPTY_DB
      modifies auth.repo, auth.redis
      ensures Snapshot() == After(run[..n]) && answers == Answers(run, n)
    {
      if n == 0 {
        AfterNone(run);
        return [];
      }
      answers := ServeFirst(run, n - 1);
      var outcome := ServeNext(run, n - 1);
      answers := answers + [outcome];
    }
  }
}
