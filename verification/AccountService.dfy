/** The account handlers as methods over the tables they update, each proved against its function in `Accounts`. */
module AccountService {
  import opened Text
  import opened Accounts
  import opened AccountRules
  import AccountRuns

  /** The tables the services share. */
  class Database {
    var users: map<UserId, User>
    var sessions: map<SessionId, Session>
    var tokens: map<TokenId, Token>
    var links: map<LinkId, Link>
    var organizationActive: bool
    var next: nat

    /** The tables obey everything that runs of the handlers keep. */
    ghost predicate Valid()
      reads this
    {
      AccountRuns.Sound(View())
    }

    constructor (s: State)
      requires AccountRuns.Seeded(s)
      ensures Valid() && View() == s
    {
      users, sessions, tokens, links, organizationActive, next :=
        s.users, s.sessions, s.tokens, s.links, s.organizationActive, s.next;
    }

    function View(): State
      reads this
    {
      State(users, sessions, tokens, links, organizationActive, next)
    }

    method RevokeSessionsOf(u: UserId, keep: Option<SessionId>)
      modifies this
      ensures View() == EndAll(old(View()), u, keep)
      ensures Ended(old(View()), View(), u, keep)
      ensures u in users ==> OnlyUser(old(View()), View(), u, users[u]) && users == old(users)
    {
      sessions := map i | i in sessions ::
        if sessions[i].user == u && keep != Some(i) && !sessions[i].revoked then sessions[i].(revoked := true)
        else sessions[i];
      assert sessions == SessionsEnded(old(sessions), u, keep);
      tokens := map t | t in tokens ::
        if tokens[t].user == u && keep != Some(tokens[t].session) && !tokens[t].revoked then tokens[t].(revoked := true)
        else tokens[t];
      assert tokens == TokensEnded(old(tokens), u, keep);
    }
  }

  class AuthService {
    const db: Database

    constructor (db: Database)
      ensures this.db == db
    {
      this.db := db;
    }

    method RegisterFailedAttempt(u: UserId, now: Time)
      requires u in db.users
      modifies db
      ensures db.View() == old(db.View()).(users := old(db.users)[u := FailedOnce(old(db.users)[u], now)])
    {
      var attempts := db.users[u].failedLoginAttempts + 1;
      var lockedUntil := None;
      if attempts >= MAX_FAILED_ATTEMPTS {
        lockedUntil := Some(now + LOCKOUT);
      }
      db.users := db.users[u := db.users[u].(failedLoginAttempts := attempts, lockedUntil := lockedUntil)];
    }

    method IssueRefreshToken(u: UserId, session: SessionId, family: FamilyId, now: Time) returns (token: TokenId)
      modifies db
      ensures token == old(db.next)
      ensures db.View() == old(db.View()).(
                next := token + 1,
                tokens := old(db.tokens)[token := Token(u, session, family, now + REFRESH_TTL, false, false)])
    {
      token := db.next;
      db.next := db.next + 1;
      db.tokens := db.tokens[token := Token(u, session, family, now + REFRESH_TTL, false, false)];
    }

    method CheckLogin(u: UserId, now: Time) returns (refusal: Option<Refusal>)
      ensures refusal == LoginBarred(db.View(), u, now)
    {
      if u !in db.users { return Some(InvalidCredentials); }
      var user := db.users[u];
      if user.lockedUntil.Some? && user.lockedUntil.value > now { return Some(AccountLocked); }
      if user.status.Disabled? || user.status.Suspended? {
        return Some(if user.status.Suspended? then AccountSuspended else AccountDisabled);
      }
      if !db.organizationActive { return Some(Forbidden); }
      refusal := None;
    }

    method OpenSession(u: UserId, now: Time) returns (reply: Reply)
      requires u in db.users
      modifies db
      ensures Outcome(db.View(), reply) == SignIn(old(db.View()), u, now)
    {
      var user := db.users[u].(failedLoginAttempts := 0, lockedUntil := None);
      if user.status.PendingActivation? {
        user := user.(status := Active);
      }
      db.users := db.users[u := user];
      var session, family := db.next, db.next + 2;
      db.sessions := db.sessions[session := Session(u, now + REFRESH_TTL, false)];
      db.next := session + 1;
      var token := IssueRefreshToken(u, session, family, now);
      db.next := family + 1;
      reply := SignedIn(Access(u, session), token);
    }

    /** The right password signs in and a wrong one is counted, unless the account is barred. A sign-in leaves its
        session with the returned refresh token as the only live one, and its access token passes the guard. */
    method Login(u: UserId, password: Password, now: Time) returns (reply: Reply)
      requires db.Valid()
      modifies db
      ensures db.Valid()
      ensures Outcome(db.View(), reply) == Accounts.Login(old(db.View()), u, password, now)
      ensures reply.SignedIn? <==> MayTry(old(db.View()), u, now) && old(db.users)[u].password == password
      ensures reply == Refused(InvalidCredentials) <==>
                u !in old(db.users) || (MayTry(old(db.View()), u, now) && old(db.users)[u].password != password)
      ensures reply == Refused(AccountLocked) <==> u in old(db.users) && !LockOver(old(db.users)[u], now)
      ensures reply == Refused(AccountSuspended) <==>
                u in old(db.users) && LockOver(old(db.users)[u], now) && old(db.users)[u].status == Suspended
      ensures reply == Refused(AccountDisabled) <==>
                u in old(db.users) && LockOver(old(db.users)[u], now) && old(db.users)[u].status == Disabled
      ensures !MayTry(old(db.View()), u, now) ==> db.View() == old(db.View())
      ensures MayTry(old(db.View()), u, now) && old(db.users)[u].password != password ==>
                var attempts := old(db.users)[u].failedLoginAttempts + 1;
                db.View() == old(db.View()).(users := old(db.users)[u := old(db.users)[u].(
                               failedLoginAttempts := attempts,
                               lockedUntil := if attempts >= 5 then Some(now + 900_000) else None)])
      ensures reply.SignedIn? ==>
                && db.users == old(db.users)[u := User(Active, password, 0, None)]
                && reply.access.session !in old(db.sessions) && reply.refresh !in old(db.tokens)
                && db.sessions == old(db.sessions)[reply.access.session := Session(u, now + 604_800_000, false)]
                && db.tokens.Keys == old(db.tokens).Keys + {reply.refresh}
                && (forall t | t in old(db.tokens) :: db.tokens[t] == old(db.tokens)[t])
                && db.tokens[reply.refresh].expiresAt == now + 604_800_000
                && db.links == old(db.links)
      ensures reply.SignedIn? ==>
                && reply.access.user == u && AccountRuns.LiveTokens(db.tokens, reply.access.session) == {reply.refresh}
                && Guard(db.View(), reply.access, now).None?
    {
      AccountRuns.LoginStaysSound(db.View(), u, password, now);
      AccountRuns.LoginByPassword(db.View(), u, password, now);
      var refusal := CheckLogin(u, now);
      if refusal.Some? { return Refused(refusal.value); }
      if db.users[u].password != password {
        RegisterFailedAttempt(u, now);
        return Refused(InvalidCredentials);
      }
      AccountRuns.SignInLeavesOneLive(db.View(), u, now);
      AccountRuns.SignInWorks(db.View(), u, now);
      reply := OpenSession(u, now);
    }

    method CheckRefresh(stored: Token, now: Time) returns (refusal: Option<Refusal>)
      ensures refusal == RefreshBarred(db.View(), stored, now)
    {
      if stored.user !in db.users { return Some(AccountDisabled); }
      var user := db.users[stored.user];
      if user.status.Disabled? || user.status.Suspended? { return Some(AccountDisabled); }
      if stored.session !in db.sessions { return Some(SessionRevoked); }
      var session := db.sessions[stored.session];
      if session.revoked || session.expiresAt < now { return Some(SessionRevoked); }
      refusal := None;
    }

    method SpendToken(t: TokenId, now: Time) returns (reply: Reply)
      requires t in db.tokens
      modifies db
      ensures Outcome(db.View(), reply) == Rotate(old(db.View()), t, now)
    {
      var stored := db.tokens[t];
      db.tokens := db.tokens[t := stored.(used := true, revoked := true)];
      var token := IssueRefreshToken(stored.user, stored.session, stored.family, now);
      reply := SignedIn(Access(stored.user, stored.session), token);
    }

    method EndFamily(stored: Token)
      modifies db
      ensures db.View() == old(db.View()).(tokens := FamilyEnded(old(db.tokens), stored.family),
                                           sessions := SessionEnded(old(db.sessions), stored.session))
    {
      db.tokens := map x | x in db.tokens ::
        if db.tokens[x].family == stored.family then db.tokens[x].(revoked := true) else db.tokens[x];
      if stored.session in db.sessions {
        db.sessions := db.sessions[stored.session := db.sessions[stored.session].(revoked := true)];
      }
    }

    /** A refresh stays in the session of the token it spends and leaves its successor as the only live one there; a
        token that may not be exchanged, spent ones among them, is refused and changes nothing. */
    method Refresh(t: TokenId, now: Time) returns (reply: Reply)
      requires db.Valid()
      modifies db
      ensures db.Valid()
      ensures Outcome(db.View(), reply) == Accounts.Refresh(old(db.View()), t, now)
      ensures reply.SignedIn? <==> MayRefresh(old(db.View()), t, now)
      ensures reply == Refused(TokenInvalid) <==> !Fresh(old(db.View()), t, now)
      ensures !reply.SignedIn? ==> db.View() == old(db.View())
      ensures reply.SignedIn? ==> Exchanged(old(db.View()), db.View(), t, reply, now)
      ensures reply.SignedIn? ==>
                && t in old(db.tokens) && reply.access.session == old(db.tokens)[t].session
                && AccountRuns.LiveTokens(db.tokens, reply.access.session) == {reply.refresh}
      ensures t in old(db.tokens) && old(db.tokens)[t].used ==>
                db.View() == old(db.View()) && reply == Refused(TokenInvalid)
    {
      AccountRuns.RefreshStaysSound(db.View(), t, now);
      AccountRuns.RefreshLeavesOneLive(db.View(), t, now);
      AccountRuns.RefreshExchanges(db.View(), t, now);
      reply := Exchange(t, now);
    }

    /** The checks as they stand, over any tables: the branch for spent tokens is reached only when one is unrevoked. */
    method Exchange(t: TokenId, now: Time) returns (reply: Reply)
      modifies db
      ensures Outcome(db.View(), reply) == Accounts.Refresh(old(db.View()), t, now)
      ensures t in old(db.tokens) && old(db.tokens)[t].used && !old(db.tokens)[t].revoked
              && old(db.tokens)[t].expiresAt >= now ==>
                && reply == Refused(SessionRevoked) && db.users == old(db.users)
                && db.sessions.Keys == old(db.sessions).Keys && db.tokens.Keys == old(db.tokens).Keys
                && (forall x | x in db.tokens ::
                      db.tokens[x].revoked <==>
                        old(db.tokens)[x].revoked || old(db.tokens)[x].family == old(db.tokens)[t].family)
                && (forall i | i in db.sessions ::
                      db.sessions[i].revoked <==>
                        old(db.sessions)[i].revoked || i == old(db.tokens)[t].session)
    {
      if t !in db.tokens { return Refused(TokenInvalid); }
      var stored := db.tokens[t];
      if stored.revoked || stored.expiresAt < now { return Refused(TokenInvalid); }
      if stored.used {
        EndFamily(stored);
        return Refused(SessionRevoked);
      }
      var refusal := CheckRefresh(stored, now);
      if refusal.Some? { return Refused(refusal.value); }
      reply := SpendToken(t, now);
    }

    method EndSession(session: SessionId)
      modifies db
      ensures db.View() == old(db.View()).(sessions := SessionEnded(old(db.sessions), session),
                                           tokens := SessionTokensEnded(old(db.tokens), session))
    {
      if session in db.sessions {
        db.sessions := db.sessions[session := db.sessions[session].(revoked := true)];
      }
      db.tokens := map t | t in db.tokens ::
        if db.tokens[t].session == session then db.tokens[t].(revoked := true) else db.tokens[t];
    }

    method Logout(who: Access) returns (reply: Reply)
      requires db.Valid()
      modifies db
      ensures db.Valid()
      ensures Outcome(db.View(), reply) == Accounts.Logout(old(db.View()), who)
      ensures AccountRuns.LiveTokens(db.tokens, who.session) == {}
      ensures reply == Done && db.users == old(db.users) && db.links == old(db.links)
      ensures OneEnded(old(db.View()), db.View(), who.session)
    {
      AccountRuns.EndSessionStaysSound(db.View(), who.session);
      AccountRuns.LogoutEndsOne(db.View(), who);
      EndSession(who.session);
      reply := Done;
    }

    method ChangePassword(who: Access, current: Password, password: Password, strong: bool) returns (reply: Reply)
      requires db.Valid()
      modifies db
      ensures db.Valid()
      ensures Outcome(db.View(), reply) == Accounts.ChangePassword(old(db.View()), who, current, password, strong)
      ensures reply.Done? <==> && who.user in old(db.users) && old(db.users)[who.user].password == current
                               && current != password && strong
      ensures !reply.Done? ==> db.View() == old(db.View())
      ensures reply.Done? ==>
                && OnlyUser(old(db.View()), db.View(), who.user, old(db.users)[who.user].(password := password))
                && Ended(old(db.View()), db.View(), who.user, Some(who.session))
      ensures reply.Done? ==> forall t | t in db.tokens && db.tokens[t].user == who.user && !db.tokens[t].revoked ::
                db.tokens[t].session == who.session
    {
      AccountRuns.ChangeStaysSound(db.View(), who, current, password, strong);
      if who.user !in db.users { return Refused(TokenInvalid); }
      if db.users[who.user].password != current { return Refused(InvalidCredentials); }
      if current == password { return Refused(BadRequest); }
      if !strong { return Refused(PasswordPolicy); }
      db.users := db.users[who.user := db.users[who.user].(password := password)];
      db.RevokeSessionsOf(who.user, Some(who.session));
      reply := Done;
    }

    method RequestReset(u: UserId, now: Time) returns (reply: Reply)
      requires db.Valid()
      modifies db
      ensures db.Valid()
      ensures Outcome(db.View(), reply) == Accounts.RequestReset(old(db.View()), u, now)
      ensures reply == Done
      ensures if u !in old(db.users) then db.View() == old(db.View())
              else old(db.next) !in old(db.links) && db.View() == old(db.View()).(
                     links := old(db.links)[old(db.next) := Link(u, now + 1_800_000, false)], next := db.next)
    {
      if u in db.users {
        db.links := db.links[db.next := Link(u, now + RESET_TTL, false)];
        db.next := db.next + 1;
      }
      reply := Done;
    }

    method ResetPassword(link: LinkId, password: Password, strong: bool, now: Time) returns (reply: Reply)
      requires db.Valid()
      modifies db
      ensures db.Valid()
      ensures Outcome(db.View(), reply) == Accounts.ResetPassword(old(db.View()), link, password, strong, now)
      ensures reply.Done? <==> LinkGood(old(db.View()), link, now) && strong
      ensures !reply.Done? ==> db.View() == old(db.View())
      ensures reply.Done? ==>
                var u := old(db.links)[link].user;
                && db.users == old(db.users)[u := User(old(db.users)[u].status, password, 0, None)]
                && db.links == old(db.links)[link := old(db.links)[link].(used := true)]
                && Ended(old(db.View()), db.View(), u, None)
      ensures reply.Done? ==> link in old(db.links) && forall t | t in db.tokens &&
                db.tokens[t].user == old(db.links)[link].user :: db.tokens[t].revoked
    {
      AccountRuns.ResetStaysSound(db.View(), link, password, strong, now);
      if link !in db.links { return Refused(TokenInvalid); }
      var record := db.links[link];
      if record.used || record.expiresAt < now || record.user !in db.users { return Refused(TokenInvalid); }
      if !strong { return Refused(PasswordPolicy); }
      var u := record.user;
      db.users := db.users[u := db.users[u].(password := password, failedLoginAttempts := 0, lockedUntil := None)];
      db.links := db.links[link := record.(used := true)];
      db.RevokeSessionsOf(u, None);
      reply := Done;
    }
  }

  class UsersService {
    const db: Database

    constructor (db: Database)
      ensures this.db == db
    {
      this.db := db;
    }

    method Create(u: UserId, password: Password, strong: bool) returns (reply: Reply)
      requires db.Valid()
      modifies db
      ensures db.Valid()
      ensures Outcome(db.View(), reply) == CreateUser(old(db.View()), u, password, strong)
      ensures reply.Done? <==> u !in old(db.users) && strong
      ensures db.View() == if reply.Done?
                then old(db.View()).(users := old(db.users)[u := User(PendingActivation, password, 0, None)])
                else old(db.View())
    {
      if u in db.users { return Refused(EmailExists); }
      if !strong { return Refused(PasswordPolicy); }
      db.users := db.users[u := User(PendingActivation, password, 0, None)];
      reply := Done;
    }

    method Update(who: Access, u: UserId, status: Option<UserStatus>) returns (reply: Reply)
      requires db.Valid()
      modifies db
      ensures db.Valid()
      ensures Outcome(db.View(), reply) == UpdateUser(old(db.View()), who, u, status)
      ensures reply.Done? <==> u in old(db.users) && (u == who.user ==> status in {None, Some(Active)})
      ensures !reply.Done? || status.None? ==> db.View() == old(db.View())
      ensures reply.Done? && status.Some? ==>
                && OnlyUser(old(db.View()), db.View(), u, old(db.users)[u].(status := status.value))
                && if status.value in {Suspended, Disabled} then Ended(old(db.View()), db.View(), u, None)
                   else db.sessions == old(db.sessions) && db.tokens == old(db.tokens)
      ensures reply.Done? && status.Some? && ShutOut(status.value) ==>
                forall t | t in db.tokens && db.tokens[t].user == u :: db.tokens[t].revoked
    {
      AccountRuns.UpdateStaysSound(db.View(), who, u, status);
      if u !in db.users { return Refused(NotFound); }
      if u == who.user && status.Some? && !status.value.Active? { return Refused(BadRequest); }
      if status.Some? {
        db.users := db.users[u := db.users[u].(status := status.value)];
        if status.value.Suspended? || status.value.Disabled? {
          db.RevokeSessionsOf(u, None);
        }
      }
      reply := Done;
    }

    method ResetPassword(u: UserId, password: Password, strong: bool) returns (reply: Reply)
      requires db.Valid()
      modifies db
      ensures db.Valid()
      ensures Outcome(db.View(), reply) == AdminReset(old(db.View()), u, password, strong)
      ensures reply.Done? <==> u in old(db.users) && strong
      ensures !reply.Done? ==> db.View() == old(db.View())
      ensures reply.Done? ==>
                && OnlyUser(old(db.View()), db.View(), u, User(old(db.users)[u].status, password, 0, None))
                && Ended(old(db.View()), db.View(), u, None)
      ensures reply.Done? ==> forall t | t in db.tokens && db.tokens[t].user == u :: db.tokens[t].revoked
    {
      if u in db.users { AccountRuns.NewPasswordStaysSound(db.View(), u, password); }
      if u !in db.users { return Refused(NotFound); }
      if !strong { return Refused(PasswordPolicy); }
      db.users := db.users[u := db.users[u].(password := password, failedLoginAttempts := 0, lockedUntil := None)];
      db.RevokeSessionsOf(u, None);
      reply := Done;
    }

    method Unlock(u: UserId) returns (reply: Reply)
      requires db.Valid()
      modifies db
      ensures db.Valid()
      ensures Outcome(db.View(), reply) == Accounts.Unlock(old(db.View()), u)
      ensures reply.Done? <==> u in old(db.users)
      ensures !reply.Done? ==> db.View() == old(db.View())
      ensures reply.Done? ==> db.View() == old(db.View()).(
                users := old(db.users)[u := User(old(db.users)[u].status, old(db.users)[u].password, 0, None)])
      ensures reply.Done? ==> u in db.users && forall now :: !LockedAt(db.users[u], now)
    {
      if u !in db.users { return Refused(NotFound); }
      db.users := db.users[u := db.users[u].(failedLoginAttempts := 0, lockedUntil := None)];
      reply := Done;
    }
  }

  class JwtAuthGuard {
    const db: Database

    constructor (db: Database)
      ensures this.db == db
    {
      this.db := db;
    }

    /** The sequence of checks that admits an access token exactly when its session is open. */
    method BuildTenantContext(who: Access, now: Time) returns (refusal: Option<Refusal>)
      requires db.Valid()
      ensures refusal == Guard(db.View(), who, now)
      ensures refusal.None? <==> MayTry(db.View(), who.user, now) && OpenFor(db.View(), who, now)
      ensures refusal == Some(AccountLocked) <==>
                who.user in db.users && Enabled(db.users[who.user]) && !LockOver(db.users[who.user], now)
      ensures refusal == Some(AccountSuspended) <==>
                who.user in db.users && db.users[who.user].status == Suspended
      ensures refusal == Some(AccountDisabled) <==> who.user in db.users && db.users[who.user].status == Disabled
      ensures refusal == Some(SessionRevoked) <==> MayTry(db.View(), who.user, now) && !OpenFor(db.View(), who, now)
      ensures refusal.None? ==> who.session in db.sessions && db.sessions[who.session].user == who.user
                                && |AccountRuns.LiveTokens(db.tokens, who.session)| == 1
    {
      if who.user !in db.users { return Some(TokenInvalid); }
      var user := db.users[who.user];
      if user.status.Disabled? || user.status.Suspended? {
        return Some(if user.status.Suspended? then AccountSuspended else AccountDisabled);
      }
      if user.lockedUntil.Some? && user.lockedUntil.value > now { return Some(AccountLocked); }
      if !db.organizationActive { return Some(Forbidden); }
      if who.session !in db.sessions { return Some(SessionRevoked); }
      var session := db.sessions[who.session];
      if session.user != who.user || session.revoked || session.expiresAt < now { return Some(SessionRevoked); }
      AccountRuns.AdmittedSessionIsLive(db.View(), who, now);
      refusal := None;
    }
  }
}
