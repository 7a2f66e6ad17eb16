/** What every run of the account handlers keeps: one live refresh token per open session, permanent revocation, and
    a lockout that follows the failure counter. */
module AccountRuns {
  import opened Text
  import opened Accounts
  import opened AccountRules

  datatype Op =
    | SignInAs(user: UserId, given: Password)
    | Present(token: TokenId)
    | SignOut(who: Access)
    | Change(who: Access, current: Password, password: Password, strong: bool)
    | Forgot(user: UserId)
    | UseLink(link: LinkId, password: Password, strong: bool)
    | Create(who: Access, user: UserId, password: Password, strong: bool)
    | Update(who: Access, user: UserId, status: Option<UserStatus>)
    | SetPassword(who: Access, user: UserId, password: Password, strong: bool)
    | Release(who: Access, user: UserId)
    | SetOrganization(active: bool)

  datatype Event = Event(op: Op, now: Time)

  /** A handler behind the guard, whose outcome is `o` when the guard lets it through. */
  function Guarded(s: State, who: Access, now: Time, o: Outcome): Outcome {
    var refusal := Guard(s, who, now);
    if refusal.Some? then Outcome(s, Refused(refusal.value)) else o
  }

  function Step(s: State, e: Event): Outcome {
    match e.op
    case SignInAs(u, given) => Login(s, u, given, e.now)
    case Present(t) => Refresh(s, t, e.now)
    case SignOut(who) => Guarded(s, who, e.now, Logout(s, who))
    case Change(who, current, password, strong) =>
      Guarded(s, who, e.now, ChangePassword(s, who, current, password, strong))
    case Forgot(u) => RequestReset(s, u, e.now)
    case UseLink(link, password, strong) => ResetPassword(s, link, password, strong, e.now)
    case Create(who, u, password, strong) => Guarded(s, who, e.now, CreateUser(s, u, password, strong))
    case Update(who, u, status) => Guarded(s, who, e.now, UpdateUser(s, who, u, status))
    case SetPassword(who, u, password, strong) => Guarded(s, who, e.now, AdminReset(s, u, password, strong))
    case Release(who, u) => Guarded(s, who, e.now, Unlock(s, u))
    case SetOrganization(active) => Outcome(s.(organizationActive := active), Done)
  }

  function Run(s: State, es: seq<Event>): State {
    if es == [] then s else Step(Run(s, es[..|es| - 1]), es[|es| - 1]).s
  }

  /** Where runs begin: accounts without sessions, and nobody has failed to sign in. */
  ghost predicate Seeded(s: State) {
    && s.sessions == map[] && s.tokens == map[] && s.links == map[]
    && forall u | u in s.users :: s.users[u].failedLoginAttempts == 0 && s.users[u].lockedUntil.None?
  }

  // ------------------------------------------------------------------ the invariant

  predicate Live(tokens: map<TokenId, Token>, t: TokenId, session: SessionId) {
    t in tokens && tokens[t].session == session && !tokens[t].revoked
  }

  ghost predicate OneLive(tokens: map<TokenId, Token>, session: SessionId) {
    exists t :: Live(tokens, t, session) && forall x :: Live(tokens, x, session) ==> x == t
  }

  ghost predicate NoneLive(tokens: map<TokenId, Token>, session: SessionId) {
    forall t :: !Live(tokens, t, session)
  }

  ghost predicate Tied(sessions: map<SessionId, Session>, tokens: map<TokenId, Token>) {
    forall i | i in sessions :: if sessions[i].revoked then NoneLive(tokens, i) else OneLive(tokens, i)
  }

  ghost predicate Linked(sessions: map<SessionId, Session>, tokens: map<TokenId, Token>) {
    && (forall t | t in tokens ::
          && tokens[t].session in sessions && sessions[tokens[t].session].user == tokens[t].user
          && (tokens[t].used ==> tokens[t].revoked))
    && (forall t, x | t in tokens && x in tokens ::
          tokens[t].session == tokens[x].session <==> tokens[t].family == tokens[x].family)
  }

  ghost predicate Issued(s: State) {
    && (forall i | i in s.sessions :: i < s.next)
    && (forall t | t in s.tokens :: t < s.next && s.tokens[t].family < s.next)
    && (forall l | l in s.links :: l < s.next)
  }

  ghost predicate LockFollowsCounter(users: map<UserId, User>) {
    forall u | u in users :: users[u].lockedUntil.Some? <==> users[u].failedLoginAttempts >= MAX_FAILED_ATTEMPTS
  }

  ghost predicate Sound(s: State) {
    Issued(s) && Linked(s.sessions, s.tokens) && Tied(s.sessions, s.tokens) && LockFollowsCounter(s.users)
  }

  // ------------------------------------------------------------------ preservation

  lemma EndingTokensOfOne(sessions: map<SessionId, Session>, tokens: map<TokenId, Token>, u: UserId,
                          keep: Option<SessionId>, i: SessionId)
    requires Linked(sessions, tokens) && Tied(sessions, tokens) && i in sessions
    ensures var ended := SessionsEnded(sessions, u, keep);
            var after := TokensEnded(tokens, u, keep);
            if ended[i].revoked then NoneLive(after, i) else OneLive(after, i)
  {
    var after := TokensEnded(tokens, u, keep);
    assert forall t :: Live(after, t, i) ==> Live(tokens, t, i);
    if !sessions[i].revoked && !(sessions[i].user == u && keep != Some(i)) {
      var t :| Live(tokens, t, i) && forall x :: Live(tokens, x, i) ==> x == t;
      assert Live(after, t, i);
    }
  }

  lemma EndAllStaysLinked(s: State, u: UserId, keep: Option<SessionId>)
    requires Linked(s.sessions, s.tokens)
    ensures Linked(SessionsEnded(s.sessions, u, keep), TokensEnded(s.tokens, u, keep))
  {
  }

  lemma EndAllStaysSound(s: State, u: UserId, keep: Option<SessionId>)
    requires Sound(s)
    ensures Sound(EndAll(s, u, keep))
  {
    var s' := EndAll(s, u, keep);
    EndAllStaysLinked(s, u, keep);
    forall i | i in s'.sessions
      ensures if s'.sessions[i].revoked then NoneLive(s'.tokens, i) else OneLive(s'.tokens, i)
    {
      EndingTokensOfOne(s.sessions, s.tokens, u, keep, i);
    }
  }

  lemma EndingTokensOfSession(s: State, session: SessionId, i: SessionId)
    requires Tied(s.sessions, s.tokens) && i in s.sessions
    ensures var tokens := SessionTokensEnded(s.tokens, session);
            if i == session || s.sessions[i].revoked then NoneLive(tokens, i) else OneLive(tokens, i)
  {
    var tokens := SessionTokensEnded(s.tokens, session);
    assert forall t :: Live(tokens, t, i) <==> i != session && Live(s.tokens, t, i);
    if i != session && !s.sessions[i].revoked {
      var t :| Live(s.tokens, t, i) && forall x :: Live(s.tokens, x, i) ==> x == t;
      assert Live(tokens, t, i);
    }
  }

  lemma EndSessionStaysSound(s: State, session: SessionId)
    requires Sound(s)
    ensures Sound(s.(sessions := SessionEnded(s.sessions, session), tokens := SessionTokensEnded(s.tokens, session)))
  {
    var sessions, tokens := SessionEnded(s.sessions, session), SessionTokensEnded(s.tokens, session);
    forall i | i in sessions ensures if sessions[i].revoked then NoneLive(tokens, i) else OneLive(tokens, i) {
      EndingTokensOfSession(s, session, i);
    }
  }

  lemma SignInStaysSound(s: State, u: UserId, now: Time)
    requires Sound(s) && u in s.users
    ensures Sound(SignIn(s, u, now).s)
  {
    var s' := SignIn(s, u, now).s;
    assert forall t, i :: Live(s'.tokens, t, i) <==> Live(s.tokens, t, i) || (i == s.next && t == s.next + 1);
    forall i | i in s'.sessions
      ensures if s'.sessions[i].revoked then NoneLive(s'.tokens, i) else OneLive(s'.tokens, i)
    {
      if i == s.next {
        assert Live(s'.tokens, s.next + 1, i);
        assert forall t :: !Live(s.tokens, t, i);
      } else if !s.sessions[i].revoked {
        var t :| Live(s.tokens, t, i) && forall x :: Live(s.tokens, x, i) ==> x == t;
        assert Live(s'.tokens, t, i);
      }
    }
  }

  lemma LoginStaysSound(s: State, u: UserId, password: Password, now: Time)
    requires Sound(s)
    ensures Sound(Login(s, u, password, now).s)
  {
    if u in s.users { SignInStaysSound(s, u, now); }
  }

  lemma LoginByPassword(s: State, u: UserId, password: Password, now: Time)
    ensures var reply := Login(s, u, password, now).reply;
            && (reply.SignedIn? <==> MayTry(s, u, now) && s.users[u].password == password)
            && (reply == Refused(InvalidCredentials) <==>
                  u !in s.users || (MayTry(s, u, now) && s.users[u].password != password))
            && (reply == Refused(AccountLocked) <==> u in s.users && !LockOver(s.users[u], now))
            && (reply == Refused(AccountSuspended) <==>
                  u in s.users && LockOver(s.users[u], now) && s.users[u].status == Suspended)
            && (reply == Refused(AccountDisabled) <==>
                  u in s.users && LockOver(s.users[u], now) && s.users[u].status == Disabled)
  {
  }

  lemma RotateStaysLinked(s: State, t: TokenId, now: Time)
    requires Issued(s) && Linked(s.sessions, s.tokens) && t in s.tokens
    ensures Linked(s.sessions, Rotate(s, t, now).s.tokens)
  {
    var tokens := Rotate(s, t, now).s.tokens;
    forall x, y | x in tokens && y in tokens
      ensures tokens[x].session == tokens[y].session <==> tokens[x].family == tokens[y].family
    {
      var a, b := if x == s.next then t else x, if y == s.next then t else y;
      assert s.tokens[a].session == s.tokens[b].session <==> s.tokens[a].family == s.tokens[b].family;
    }
  }

  lemma RotateStaysTied(s: State, t: TokenId, now: Time, i: SessionId)
    requires Tied(s.sessions, s.tokens) && s.next !in s.tokens && i in s.sessions
    requires t in s.tokens && Live(s.tokens, t, s.tokens[t].session)
    ensures var tokens := Rotate(s, t, now).s.tokens;
            if s.sessions[i].revoked then NoneLive(tokens, i) else OneLive(tokens, i)
  {
    var tokens, session := Rotate(s, t, now).s.tokens, s.tokens[t].session;
    assert forall x :: Live(tokens, x, i) <==> (x != t && Live(s.tokens, x, i)) || (x == s.next && i == session);
    if i == session {
      assert Live(tokens, s.next, i);
    } else if !s.sessions[i].revoked {
      var x :| Live(s.tokens, x, i) && forall y :: Live(s.tokens, y, i) ==> y == x;
      assert Live(tokens, x, i);
    }
  }

  lemma RotateStaysSound(s: State, t: TokenId, now: Time)
    requires Sound(s) && t in s.tokens && Live(s.tokens, t, s.tokens[t].session)
    ensures Sound(Rotate(s, t, now).s)
  {
    var s' := Rotate(s, t, now).s;
    RotateStaysLinked(s, t, now);
    forall i | i in s'.sessions
      ensures if s'.sessions[i].revoked then NoneLive(s'.tokens, i) else OneLive(s'.tokens, i)
    {
      RotateStaysTied(s, t, now, i);
    }
  }

  /** No reachable token is both spent and unrevoked, so presenting one never reaches the revocation of its family. */
  lemma RefreshStaysSound(s: State, t: TokenId, now: Time)
    requires Sound(s)
    ensures Sound(Refresh(s, t, now).s)
    ensures t in s.tokens && s.tokens[t].used ==> Refresh(s, t, now) == Outcome(s, Refused(TokenInvalid))
  {
    if t in s.tokens && !s.tokens[t].revoked {
      RotateStaysSound(s, t, now);
    }
  }

  lemma NewPasswordStaysSound(s: State, u: UserId, password: Password)
    requires Sound(s) && u in s.users
    ensures Sound(NewPassword(s, u, password))
  {
    EndAllStaysSound(s.(users := s.users[u := Unlocked(s.users[u]).(password := password)]), u, None);
  }

  lemma UpdateStaysSound(s: State, who: Access, u: UserId, status: Option<UserStatus>)
    requires Sound(s)
    ensures Sound(UpdateUser(s, who, u, status).s)
  {
    if u in s.users && status.Some? {
      EndAllStaysSound(s.(users := s.users[u := s.users[u].(status := status.value)]), u, None);
    }
  }

  lemma ChangeStaysSound(s: State, who: Access, current: Password, password: Password, strong: bool)
    requires Sound(s)
    ensures Sound(ChangePassword(s, who, current, password, strong).s)
  {
    if who.user in s.users {
      var users := s.users[who.user := s.users[who.user].(password := password)];
      EndAllStaysSound(s.(users := users), who.user, Some(who.session));
    }
  }

  lemma ResetStaysSound(s: State, link: LinkId, password: Password, strong: bool, now: Time)
    requires Sound(s)
    ensures Sound(ResetPassword(s, link, password, strong, now).s)
  {
    if link in s.links && s.links[link].user in s.users { NewPasswordStaysSound(s, s.links[link].user, password); }
  }

  predicate Administers(op: Op) {
    op.Create? || op.Update? || op.SetPassword? || op.Release?
  }

  lemma AdministeringStaysSound(s: State, e: Event)
    requires Sound(s) && Administers(e.op)
    ensures Sound(Step(s, e).s)
  {
    match e.op {
      case Update(who, u, status) => UpdateStaysSound(s, who, u, status);
      case SetPassword(_, u, password, _) => if u in s.users { NewPasswordStaysSound(s, u, password); }
      case _ =>
    }
  }

  lemma StepStaysSound(s: State, e: Event)
    requires Sound(s)
    ensures Sound(Step(s, e).s)
  {
    if Administers(e.op) {
      AdministeringStaysSound(s, e);
    } else {
      match e.op {
        case SignInAs(u, given) => LoginStaysSound(s, u, given, e.now);
        case Present(t) => RefreshStaysSound(s, t, e.now);
        case SignOut(who) => EndSessionStaysSound(s, who.session);
        case Change(who, current, password, strong) => ChangeStaysSound(s, who, current, password, strong);
        case Forgot(_) =>
        case UseLink(link, password, strong) => ResetStaysSound(s, link, password, strong, e.now);
        case SetOrganization(_) =>
      }
    }
  }

  lemma {:induction false} RunsStaySound(s: State, es: seq<Event>)
    requires Sound(s)
    ensures Sound(Run(s, es))
  {
    if es != [] {
      RunsStaySound(s, es[..|es| - 1]);
      StepStaysSound(Run(s, es[..|es| - 1]), es[|es| - 1]);
    }
  }

  function LiveTokens(tokens: map<TokenId, Token>, session: SessionId): set<TokenId> {
    set t | t in tokens && Live(tokens, t, session)
  }

  /** In every run an open session has exactly one unrevoked refresh token and an ended one has none, a token belongs to
      the user of its session, a spent token is revoked, and an account is locked once five attempts have failed. */
  lemma OneLiveTokenPerOpenSession(s: State, es: seq<Event>)
    requires Seeded(s)
    ensures var r := Run(s, es);
            && (forall i | i in r.sessions :: |LiveTokens(r.tokens, i)| == if r.sessions[i].revoked then 0 else 1)
            && (forall t | t in r.tokens ::
                  && r.tokens[t].session in r.sessions && r.sessions[r.tokens[t].session].user == r.tokens[t].user
                  && (r.tokens[t].used ==> r.tokens[t].revoked))
            && (forall u | u in r.users ::
                  r.users[u].lockedUntil.Some? <==> r.users[u].failedLoginAttempts >= MAX_FAILED_ATTEMPTS)
  {
    RunsStaySound(s, es);
    var r := Run(s, es);
    forall i | i in r.sessions ensures |LiveTokens(r.tokens, i)| == if r.sessions[i].revoked then 0 else 1 {
      if r.sessions[i].revoked {
        assert LiveTokens(r.tokens, i) == {};
      } else {
        var t: TokenId :| Live(r.tokens, t, i) && forall x :: Live(r.tokens, x, i) ==> x == t;
        assert LiveTokens(r.tokens, i) == {t};
      }
    }
  }

  // ------------------------------------------------------------------ the guard

  /** The caller passes the guard. */
  predicate Admitted(s: State, who: Access, now: Time) {
    MayTry(s, who.user, now) && OpenFor(s, who, now)
  }

  lemma GuardAdmits(s: State, who: Access, now: Time)
    ensures Guard(s, who, now).None? <==> Admitted(s, who, now)
  {
  }

  predicate GuardedOp(op: Op) {
    op.SignOut? || op.Change? || Administers(op)
  }

  /** Whoever the guard turns away changes nothing. */
  lemma OutsidersChangeNothing(s: State, e: Event)
    requires GuardedOp(e.op) && !Admitted(s, e.op.who, e.now)
    ensures Step(s, e).s == s && Step(s, e).reply.Refused?
  {
    GuardAdmits(s, e.op.who, e.now);
  }

  // ------------------------------------------------------------------ what signing in and refreshing give

  lemma SignInWorks(s: State, u: UserId, now: Time)
    requires Issued(s) && u in s.users && !ShutOut(s.users[u].status) && s.organizationActive
    ensures var o := SignIn(s, u, now);
            && Guard(o.s, o.reply.access, now).None?
            && Refresh(o.s, o.reply.refresh, now) == Rotate(o.s, o.reply.refresh, now)
            && (forall i | i in s.sessions :: i in o.s.sessions && o.s.sessions[i] == s.sessions[i])
  {
  }

  lemma SignInLeavesOneLive(s: State, u: UserId, now: Time)
    requires Sound(s) && u in s.users
    ensures LiveTokens(SignIn(s, u, now).s.tokens, s.next) == {s.next + 1}
  {
    var tokens := SignIn(s, u, now).s.tokens;
    assert forall t :: !Live(s.tokens, t, s.next);
    assert forall t: TokenId :: Live(tokens, t, s.next) <==> t == s.next + 1;
  }

  /** A sign-in opens a session: its access token passes the guard, its refresh token can be exchanged for the same
      session, and no other session is touched. */
  lemma SignInOpensSession(s: State, es: seq<Event>, u: UserId, password: Password, now: Time)
    requires Seeded(s) && Login(Run(s, es), u, password, now).reply.SignedIn?
    ensures var r := Run(s, es);
            var o := Login(r, u, password, now);
            && o.reply.access.user == u && o.reply.access.session !in r.sessions
            && Guard(o.s, o.reply.access, now).None?
            && Refresh(o.s, o.reply.refresh, now).reply.SignedIn?
            && Refresh(o.s, o.reply.refresh, now).reply.access == o.reply.access
            && (forall i | i in r.sessions :: i in o.s.sessions && o.s.sessions[i] == r.sessions[i])
  {
    RunsStaySound(s, es);
    SignInWorks(Run(s, es), u, now);
  }

  lemma RotationLeavesOneLive(s: State, t: TokenId, now: Time)
    requires t in s.tokens && s.next !in s.tokens && Live(s.tokens, t, s.tokens[t].session)
    requires OneLive(s.tokens, s.tokens[t].session)
    ensures LiveTokens(Rotate(s, t, now).s.tokens, s.tokens[t].session) == {s.next}
  {
    var tokens, session := Rotate(s, t, now).s.tokens, s.tokens[t].session;
    var x: TokenId :| Live(s.tokens, x, session) && forall y :: Live(s.tokens, y, session) ==> y == x;
    assert x == t;
    forall y: TokenId ensures Live(tokens, y, session) <==> y == s.next {
      assert y != t ==> !Live(s.tokens, y, session);
    }
  }

  lemma RefreshLeavesOneLive(s: State, t: TokenId, now: Time)
    requires Sound(s)
    ensures var o := Refresh(s, t, now);
            o.reply.SignedIn? ==>
              t in s.tokens && o == Rotate(s, t, now)
              && LiveTokens(o.s.tokens, s.tokens[t].session) == {o.reply.refresh}
  {
    if Refresh(s, t, now).reply.SignedIn? {
      RotationLeavesOneLive(s, t, now);
    }
  }

  lemma RefreshExchanges(s: State, t: TokenId, now: Time)
    requires Sound(s)
    ensures var o := Refresh(s, t, now);
            && (o.reply.SignedIn? <==> MayRefresh(s, t, now))
            && (o.reply == Refused(TokenInvalid) <==> !Fresh(s, t, now))
            && (if o.reply.SignedIn? then Exchanged(s, o.s, t, o.reply, now) else o.s == s)
  {
  }

  lemma LogoutEndsOne(s: State, who: Access)
    ensures OneEnded(s, Logout(s, who).s, who.session)
    ensures LiveTokens(Logout(s, who).s.tokens, who.session) == {}
  {
  }

  /** A refresh continues the session of the token it spends and leaves its successor as the one live token. It does
      not look at the lock or the organisation, so the access token it returns passes the guard exactly when neither
      stands in the way. */
  lemma RefreshContinuesSession(s: State, es: seq<Event>, t: TokenId, now: Time)
    requires Seeded(s) && Refresh(Run(s, es), t, now).reply.SignedIn?
    ensures var r := Run(s, es);
            var o := Refresh(r, t, now);
            && t in r.tokens && o.reply.access == Access(r.tokens[t].user, r.tokens[t].session)
            && t in o.s.tokens && o.s.tokens[t].used
            && LiveTokens(o.s.tokens, o.reply.access.session) == {o.reply.refresh}
            && o.reply.access.user in r.users
            && (Guard(o.s, o.reply.access, now).None?
                <==> r.organizationActive && !LockedAt(r.users[o.reply.access.user], now))
  {
    RunsStaySound(s, es);
    RefreshLeavesOneLive(Run(s, es), t, now);
  }

  lemma ExpiredSessionIsShut(s: State, i: SessionId, end: Time)
    requires i in s.sessions && end > s.sessions[i].expiresAt
    requires forall t | t in s.tokens && s.tokens[t].used :: s.tokens[t].revoked
    ensures forall holder :: Guard(s, Access(holder, i), end).Some?
    ensures forall t | t in s.tokens && s.tokens[t].session == i ::
              Refresh(s, t, end).s == s && Refresh(s, t, end).reply.Refused?
  {
  }

  lemma ExpiredSessionsStayShut(s: State, later: seq<Event>, i: SessionId, end: Time)
    requires Sound(s) && i in s.sessions && end > s.sessions[i].expiresAt
    ensures var r := Run(s, later);
            && (forall holder :: Guard(r, Access(holder, i), end).Some?)
            && (forall t | t in r.tokens && r.tokens[t].session == i ::
                  Refresh(r, t, end).s == r && Refresh(r, t, end).reply.Refused?)
  {
    RevocationIsPermanent(s, later);
    RunsStaySound(s, later);
    ExpiredSessionIsShut(Run(s, later), i, end);
  }

  /** An access token that the guard admits belongs to a session with exactly one live refresh token. */
  lemma AdmittedSessionIsLive(s: State, who: Access, now: Time)
    requires Sound(s) && Guard(s, who, now).None?
    ensures |LiveTokens(s.tokens, who.session)| == 1
  {
    var t: TokenId :| Live(s.tokens, t, who.session) && forall x :: Live(s.tokens, x, who.session) ==> x == t;
    assert LiveTokens(s.tokens, who.session) == {t};
  }

  /** However often it is refreshed, no session outlives the seven days it was opened for. */
  lemma SessionsEndInAWeek(s: State, es: seq<Event>, u: UserId, password: Password, now: Time,
                           later: seq<Event>, end: Time)
    requires Seeded(s) && Login(Run(s, es), u, password, now).reply.SignedIn? && end > now + REFRESH_TTL
    ensures var o := Login(Run(s, es), u, password, now);
            var r := Run(o.s, later);
            && (forall holder :: Guard(r, Access(holder, o.reply.access.session), end).Some?)
            && (forall t | t in r.tokens && r.tokens[t].session == o.reply.access.session ::
                  Refresh(r, t, end).s == r && Refresh(r, t, end).reply.Refused?)
  {
    RunsStaySound(s, es);
    LoginStaysSound(Run(s, es), u, password, now);
    var o := Login(Run(s, es), u, password, now);
    ExpiredSessionsStayShut(o.s, later, o.reply.access.session, end);
  }

  // ------------------------------------------------------------------ spent tokens

  /** Presenting a spent token changes nothing. The family of the token ends up revoked, as the documentation of
      rotation wants, exactly when the session had been ended by other means before. */
  lemma SpentTokensAreOnlyRefused(s: State, es: seq<Event>, t: TokenId, now: Time)
    requires Seeded(s) && t in Run(s, es).tokens && Run(s, es).tokens[t].used
    ensures var r := Run(s, es);
            var family := r.tokens[t].family;
            var after := Refresh(r, t, now);
            && after == Outcome(r, Refused(TokenInvalid))
            && r.tokens[t].session in r.sessions
            && ((forall x | x in after.s.tokens && after.s.tokens[x].family == family :: after.s.tokens[x].revoked)
                <==> r.sessions[r.tokens[t].session].revoked)
  {
    RunsStaySound(s, es);
    var r := Run(s, es);
    RefreshStaysSound(r, t, now);
    var i, family := r.tokens[t].session, r.tokens[t].family;
    assert forall x | x in r.tokens && r.tokens[x].family == family :: r.tokens[x].session == i;
    if r.sessions[i].revoked {
      forall x | x in r.tokens && r.tokens[x].family == family ensures r.tokens[x].revoked {
        assert !Live(r.tokens, x, i);
      }
    } else {
      var x :| Live(r.tokens, x, i);
      assert r.tokens[x].family == family;
    }
  }

  lemma {:induction false} RunAppends(s: State, es: seq<Event>, e: Event)
    ensures Run(s, es + [e]) == Step(Run(s, es), e).s
  {
    assert (es + [e])[..|es|] == es;
  }

  /** A fresh token is exchanged once, is refused after that, and its successor is exchanged in turn. */
  lemma OldTokenRefusedSuccessorNot(s: State, u: UserId, now: Time)
    requires Issued(s) && u in s.users && s.users[u].status.Active? && s.organizationActive
    ensures var signedIn := SignIn(s, u, now).s;
            var rotated := Rotate(signedIn, s.next + 1, now).s;
            && s.next + 1 in signedIn.tokens && Refresh(signedIn, s.next + 1, now).s == rotated
            && s.next + 1 in rotated.tokens && rotated.tokens[s.next + 1].used
            && Refresh(rotated, s.next + 1, now).s == rotated
            && Refresh(rotated, s.next + 3, now).reply.SignedIn?
  {
  }

  /** A thief and the real client: after the real client has refreshed, the old token is refused, and whoever holds
      its successor goes on refreshing. */
  lemma ReplayLeavesTheSessionOpen(s: State, u: UserId, now: Time)
    requires Seeded(s) && u in s.users && s.users[u].status.Active? && s.organizationActive
    ensures var first := s.next + 1;
            var es := [Event(SignInAs(u, s.users[u].password), now), Event(Present(first), now)];
            var r := Run(s, es);
            && first in r.tokens && r.tokens[first].used
            && Run(s, es + [Event(Present(first), now)]) == r
            && Refresh(r, s.next + 3, now).reply.SignedIn?
  {
    var login, present := Event(SignInAs(u, s.users[u].password), now), Event(Present(s.next + 1), now);
    var es := [login, present];
    OldTokenRefusedSuccessorNot(s, u, now);
    assert Login(s, u, s.users[u].password, now) == SignIn(s, u, now);
    assert [] + [login] == [login] && [login] + [present] == es;
    RunAppends(s, [], login);
    RunAppends(s, [login], present);
    RunAppends(s, es, present);
  }

  // ------------------------------------------------------------------ revocation is permanent

  ghost predicate SessionsKept(sessions: map<SessionId, Session>, later: map<SessionId, Session>) {
    forall i | i in sessions ::
      && i in later && later[i].user == sessions[i].user && later[i].expiresAt == sessions[i].expiresAt
      && (sessions[i].revoked ==> later[i].revoked)
  }

  ghost predicate TokensKept(tokens: map<TokenId, Token>, later: map<TokenId, Token>) {
    forall t | t in tokens ::
      && t in later && later[t].user == tokens[t].user && later[t].session == tokens[t].session
      && later[t].family == tokens[t].family && later[t].expiresAt == tokens[t].expiresAt
      && (tokens[t].used ==> later[t].used) && (tokens[t].revoked ==> later[t].revoked)
  }

  ghost predicate LinksKept(links: map<LinkId, Link>, later: map<LinkId, Link>) {
    forall l | l in links :: l in later && later[l].user == links[l].user && (links[l].used ==> later[l].used)
  }

  ghost predicate Keeps(s: State, r: State) {
    SessionsKept(s.sessions, r.sessions) && TokensKept(s.tokens, r.tokens) && LinksKept(s.links, r.links)
  }

  lemma EndAllKeeps(s: State, u: UserId, keep: Option<SessionId>)
    ensures SessionsKept(s.sessions, SessionsEnded(s.sessions, u, keep))
    ensures TokensKept(s.tokens, TokensEnded(s.tokens, u, keep))
  {
  }

  lemma NothingEndedKeeps(s: State)
    ensures Keeps(s, s)
  {
  }

  lemma LoginKeeps(s: State, u: UserId, password: Password, now: Time)
    requires Issued(s)
    ensures Keeps(s, Login(s, u, password, now).s)
  {
  }

  lemma RevokeFamilyKeeps(s: State, t: TokenId)
    requires t in s.tokens
    ensures Keeps(s, RevokeFamily(s, t))
  {
  }

  lemma RotateKeeps(s: State, t: TokenId, now: Time)
    requires Issued(s) && t in s.tokens
    ensures Keeps(s, Rotate(s, t, now).s)
  {
  }

  lemma RefreshKeeps(s: State, t: TokenId, now: Time)
    requires Issued(s)
    ensures Keeps(s, Refresh(s, t, now).s)
  {
    if t in s.tokens {
      RevokeFamilyKeeps(s, t);
      RotateKeeps(s, t, now);
    }
  }

  lemma LogoutKeeps(s: State, who: Access)
    ensures Keeps(s, Logout(s, who).s)
  {
  }

  lemma ResetPasswordKeeps(s: State, link: LinkId, password: Password, strong: bool, now: Time)
    ensures Keeps(s, ResetPassword(s, link, password, strong, now).s)
  {
    if link in s.links { EndAllKeeps(s, s.links[link].user, None); }
  }

  lemma UpdateKeeps(s: State, who: Access, u: UserId, status: Option<UserStatus>)
    ensures Keeps(s, UpdateUser(s, who, u, status).s)
  {
    NothingEndedKeeps(s);
    EndAllKeeps(s, u, None);
  }

  lemma AdministeringKeeps(s: State, e: Event)
    requires Administers(e.op)
    ensures Keeps(s, Step(s, e).s)
  {
    NothingEndedKeeps(s);
    match e.op {
      case Update(who, u, status) => UpdateKeeps(s, who, u, status);
      case SetPassword(_, u, _, _) => EndAllKeeps(s, u, None);
      case _ =>
    }
  }

  lemma StepKeeps(s: State, e: Event)
    requires Issued(s)
    ensures Keeps(s, Step(s, e).s)
  {
    NothingEndedKeeps(s);
    if Administers(e.op) {
      AdministeringKeeps(s, e);
    } else {
      match e.op {
        case SignInAs(u, given) => LoginKeeps(s, u, given, e.now);
        case Present(t) => RefreshKeeps(s, t, e.now);
        case SignOut(who) => LogoutKeeps(s, who);
        case Change(who, _, _, _) => EndAllKeeps(s, who.user, Some(who.session));
        case Forgot(_) =>
        case UseLink(link, password, strong) => ResetPasswordKeeps(s, link, password, strong, e.now);
        case SetOrganization(_) =>
      }
    }
  }

  /** A revoked session or token stays revoked, a spent token or reset link stays spent, and nobody's session changes
      hands or lives longer than it was first given. */
  lemma {:induction false} RevocationIsPermanent(s: State, es: seq<Event>)
    requires Sound(s)
    ensures Keeps(s, Run(s, es))
  {
    if es != [] {
      var before := Run(s, es[..|es| - 1]);
      RevocationIsPermanent(s, es[..|es| - 1]);
      RunsStaySound(s, es[..|es| - 1]);
      StepKeeps(before, es[|es| - 1]);
    }
  }

  /** The event gives the account a new password by a reset, or deactivates it. */
  predicate ShutsOut(s: State, e: Event, u: UserId) {
    && Step(s, e).reply.Done?
    && match e.op
       case UseLink(link, _, _) => link in s.links && s.links[link].user == u
       case SetPassword(_, target, _, _) => target == u
       case Update(_, target, status) => target == u && status.Some? && ShutOut(status.value)
       case _ => false
  }

  lemma ShuttingOutEndsSessions(s: State, e: Event, u: UserId)
    requires ShutsOut(s, e, u)
    ensures forall i | i in s.sessions && s.sessions[i].user == u ::
              i in Step(s, e).s.sessions && Step(s, e).s.sessions[i].revoked
  {
  }

  lemma RevokedSessionsStayShut(s: State, later: seq<Event>, i: SessionId, now: Time)
    requires Sound(s) && i in s.sessions && s.sessions[i].revoked
    ensures var r := Run(s, later);
            && (forall holder :: Guard(r, Access(holder, i), now).Some?)
            && (forall t | t in r.tokens && r.tokens[t].session == i ::
                  Refresh(r, t, now) == Outcome(r, Refused(TokenInvalid)))
  {
    RevocationIsPermanent(s, later);
    RunsStaySound(s, later);
    var r := Run(s, later);
    forall t | t in r.tokens && r.tokens[t].session == i ensures r.tokens[t].revoked {
      assert !Live(r.tokens, t, i);
    }
  }

  /** After a password reset or a deactivation, no session the account had before passes the guard or refreshes in any
      later run, whichever token of it is presented. */
  lemma EarlierSessionsStayShut(s: State, es: seq<Event>, e: Event, later: seq<Event>, u: UserId, i: SessionId,
                                now: Time)
    requires Seeded(s) && ShutsOut(Run(s, es), e, u)
    requires i in Run(s, es).sessions && Run(s, es).sessions[i].user == u
    ensures var r := Run(Step(Run(s, es), e).s, later);
            && (forall holder :: Guard(r, Access(holder, i), now).Some?)
            && (forall t | t in r.tokens && r.tokens[t].session == i ::
                  Refresh(r, t, now) == Outcome(r, Refused(TokenInvalid)))
  {
    RunsStaySound(s, es);
    ShuttingOutEndsSessions(Run(s, es), e, u);
    StepStaysSound(Run(s, es), e);
    RevokedSessionsStayShut(Step(Run(s, es), e).s, later, i, now);
  }

  /** Changing one's own password ends every session but the one it was changed from. */
  lemma OnlyTheChangingSessionSurvives(s: State, who: Access, current: Password, password: Password, strong: bool,
                                       now: Time)
    requires Sound(s) && Guard(s, who, now).None?
    requires ChangePassword(s, who, current, password, strong).reply.Done?
    ensures var r := ChangePassword(s, who, current, password, strong).s;
            && Guard(r, who, now).None?
            && (forall i | i in r.sessions && r.sessions[i].user == who.user && i != who.session ::
                  r.sessions[i].revoked)
            && (forall t | t in r.tokens && r.tokens[t].user == who.user && !r.tokens[t].revoked ::
                  r.tokens[t].session == who.session)
            && Login(r, who.user, password, now).reply.SignedIn?
  {
  }

  lemma UsedLinksStayUsed(s: State, later: seq<Event>, link: LinkId, password: Password, strong: bool, now: Time)
    requires Sound(s) && link in s.links && s.links[link].used
    ensures var r := Run(s, later); ResetPassword(r, link, password, strong, now) == Outcome(r, Refused(TokenInvalid))
  {
    RevocationIsPermanent(s, later);
  }

  /** A reset link works at most once. */
  lemma ResetLinkWorksOnce(s: State, es: seq<Event>, link: LinkId, password: Password, strong: bool, now: Time,
                           later: seq<Event>, other: Password, otherStrong: bool, again: Time)
    requires Seeded(s) && ResetPassword(Run(s, es), link, password, strong, now).reply.Done?
    ensures var r := Run(ResetPassword(Run(s, es), link, password, strong, now).s, later);
            ResetPassword(r, link, other, otherStrong, again) == Outcome(r, Refused(TokenInvalid))
  {
    RunsStaySound(s, es);
    ResetStaysSound(Run(s, es), link, password, strong, now);
    UsedLinksStayUsed(ResetPassword(Run(s, es), link, password, strong, now).s, later, link, other, otherStrong, again);
  }

  // ------------------------------------------------------------------ lockout

  /** A wrong password that the account was still allowed to try. */
  predicate CountsAgainst(s: State, e: Event, u: UserId) {
    e.op.SignInAs? && e.op.user == u && MayTry(s, u, e.now) && s.users[u].password != e.op.given
  }

  /** A sign-in, a password reset or an unlocking of the account. */
  predicate Forgives(s: State, e: Event, u: UserId) {
    match e.op
    case SignInAs(user, given) => user == u && MayTry(s, u, e.now) && s.users[u].password == given
    case UseLink(link, _, strong) => LinkGood(s, link, e.now) && s.links[link].user == u && strong
    case SetPassword(who, user, _, strong) => user == u && u in s.users && Admitted(s, who, e.now) && strong
    case Release(who, user) => user == u && u in s.users && Admitted(s, who, e.now)
    case _ => false
  }

  /** What happens to the failures on record when the event is handled. */
  function FailuresAfter(s: State, e: Event, u: UserId, failures: seq<Time>): seq<Time> {
    if CountsAgainst(s, e, u) then failures + [e.now] else if Forgives(s, e, u) then [] else failures
  }

  /** When the failures since the account was last forgiven happened. */
  function Failures(s: State, es: seq<Event>, u: UserId): seq<Time> {
    if es == [] then []
    else
      var before, e, earlier := Run(s, es[..|es| - 1]), es[|es| - 1], Failures(s, es[..|es| - 1], u);
      FailuresAfter(before, e, u, earlier)
  }

  /** The lock a list of failures leaves behind. */
  function LockAfter(failures: seq<Time>): Option<Time> {
    if |failures| >= MAX_FAILED_ATTEMPTS then Some(failures[|failures| - 1] + LOCKOUT) else None
  }

  ghost predicate Spaced(failures: seq<Time>) {
    forall i, j | MAX_FAILED_ATTEMPTS <= j < |failures| && i == j - 1 :: failures[j] >= failures[i] + LOCKOUT
  }

  predicate Remembers(users: map<UserId, User>, u: UserId, failures: seq<Time>) {
    if u in users then users[u].failedLoginAttempts == |failures| && users[u].lockedUntil == LockAfter(failures)
    else failures == []
  }

  lemma LoginRemembers(s: State, e: Event, u: UserId, failures: seq<Time>)
    requires e.op.SignInAs? && Remembers(s.users, u, failures) && Spaced(failures)
    ensures Remembers(Step(s, e).s.users, u, FailuresAfter(s, e, u, failures))
    ensures Spaced(FailuresAfter(s, e, u, failures))
  {
  }

  lemma LinkRemembers(s: State, e: Event, u: UserId, failures: seq<Time>)
    requires e.op.UseLink? && Remembers(s.users, u, failures) && Spaced(failures)
    ensures Remembers(Step(s, e).s.users, u, FailuresAfter(s, e, u, failures))
    ensures Spaced(FailuresAfter(s, e, u, failures))
  {
  }

  lemma AdministeringCounts(s: State, e: Event, u: UserId)
    requires Administers(e.op)
    ensures !CountsAgainst(s, e, u)
    ensures var after := Step(s, e).s.users;
            && (u in s.users ==> u in after)
            && (u in after && (u !in s.users || Forgives(s, e, u)) ==>
                  after[u].failedLoginAttempts == 0 && after[u].lockedUntil.None?)
            && (u in s.users && !Forgives(s, e, u) ==>
                  after[u].failedLoginAttempts == s.users[u].failedLoginAttempts
                  && after[u].lockedUntil == s.users[u].lockedUntil)
  {
  }

  lemma AdministeringRemembers(s: State, e: Event, u: UserId, failures: seq<Time>)
    requires Administers(e.op) && Remembers(s.users, u, failures) && Spaced(failures)
    ensures Remembers(Step(s, e).s.users, u, FailuresAfter(s, e, u, failures))
    ensures Spaced(FailuresAfter(s, e, u, failures))
  {
    AdministeringCounts(s, e, u);
  }

  lemma StepRemembers(s: State, e: Event, u: UserId, failures: seq<Time>)
    requires Remembers(s.users, u, failures) && Spaced(failures)
    ensures Remembers(Step(s, e).s.users, u, FailuresAfter(s, e, u, failures))
    ensures Spaced(FailuresAfter(s, e, u, failures))
  {
    if Administers(e.op) {
      AdministeringRemembers(s, e, u, failures);
    } else if e.op.SignInAs? {
      LoginRemembers(s, e, u, failures);
    } else if e.op.UseLink? {
      LinkRemembers(s, e, u, failures);
    }
  }

  lemma {:induction false} AccountRemembersFailures(s: State, es: seq<Event>, u: UserId)
    requires Seeded(s)
    ensures Remembers(Run(s, es).users, u, Failures(s, es, u)) && Spaced(Failures(s, es, u))
  {
    if es != [] {
      AccountRemembersFailures(s, es[..|es| - 1], u);
      StepRemembers(Run(s, es[..|es| - 1]), es[|es| - 1], u, Failures(s, es[..|es| - 1], u));
    }
  }

  lemma {:induction false} SpacedGrows(failures: seq<Time>, n: nat)
    requires Spaced(failures) && MAX_FAILED_ATTEMPTS <= n <= |failures|
    ensures failures[n - 1] >= failures[MAX_FAILED_ATTEMPTS - 1] + (n - MAX_FAILED_ATTEMPTS) * LOCKOUT
  {
    if n > MAX_FAILED_ATTEMPTS {
      SpacedGrows(failures, n - 1);
    }
  }

  /** The n-th failure since the account was last forgiven comes at least n - 5 lockout periods after the fifth. */
  lemma GuessingIsSlow(s: State, es: seq<Event>, u: UserId, n: nat)
    requires Seeded(s) && MAX_FAILED_ATTEMPTS <= n <= |Failures(s, es, u)|
    ensures var failures := Failures(s, es, u);
            failures[n - 1] >= failures[MAX_FAILED_ATTEMPTS - 1] + (n - MAX_FAILED_ATTEMPTS) * LOCKOUT
  {
    AccountRemembersFailures(s, es, u);
    SpacedGrows(Failures(s, es, u), n);
  }

  lemma LockKeepsOut(s: State, u: UserId, failures: seq<Time>, password: Password, i: SessionId, now: Time)
    requires Remembers(s.users, u, failures) && |failures| >= MAX_FAILED_ATTEMPTS
    requires now < failures[|failures| - 1] + LOCKOUT
    ensures Login(s, u, password, now) == Outcome(s, Refused(AccountLocked)) && Guard(s, Access(u, i), now).Some?
  {
  }

  /** Within a lockout period of the last failure, from the fifth on, no password signs in and no session of the
      account passes the guard. */
  lemma LockedAccountsStayOut(s: State, es: seq<Event>, u: UserId, password: Password, i: SessionId, now: Time)
    requires Seeded(s) && |Failures(s, es, u)| >= MAX_FAILED_ATTEMPTS
    requires now < Failures(s, es, u)[|Failures(s, es, u)| - 1] + LOCKOUT
    ensures Login(Run(s, es), u, password, now) == Outcome(Run(s, es), Refused(AccountLocked))
    ensures Guard(Run(s, es), Access(u, i), now).Some?
  {
    AccountRemembersFailures(s, es, u);
    LockKeepsOut(Run(s, es), u, Failures(s, es, u), password, i, now);
  }

  // ------------------------------------------------------------------ who can sign in

  /** The password the event gives the account, if it gives it one. */
  function PasswordGiven(s: State, e: Event, u: UserId): Option<Password> {
    match e.op
    case Create(who, user, password, strong) =>
      if user == u && u !in s.users && Admitted(s, who, e.now) && strong then Some(password) else None
    case Change(who, current, password, strong) =>
      if who.user == u && Admitted(s, who, e.now) && s.users[u].password == current && current != password && strong
      then Some(password) else None
    case UseLink(link, password, strong) =>
      if LinkGood(s, link, e.now) && s.links[link].user == u && strong then Some(password) else None
    case SetPassword(who, user, password, strong) =>
      if user == u && u in s.users && Admitted(s, who, e.now) && strong then Some(password) else None
    case _ => None
  }

  /** The password the account was last given in the run. */
  function LastPassword(s: State, es: seq<Event>, u: UserId): Option<Password> {
    if es == [] then if u in s.users then Some(s.users[u].password) else None
    else
      var given := PasswordGiven(Run(s, es[..|es| - 1]), es[|es| - 1], u);
      if given.Some? then given else LastPassword(s, es[..|es| - 1], u)
  }

  function StoredPassword(s: State, u: UserId): Option<Password> {
    if u in s.users then Some(s.users[u].password) else None
  }

  lemma AdministeringStoresPassword(s: State, e: Event, u: UserId)
    requires Administers(e.op)
    ensures var given := PasswordGiven(s, e, u);
            StoredPassword(Step(s, e).s, u) == if given.Some? then given else StoredPassword(s, u)
  {
    GuardAdmits(s, e.op.who, e.now);
  }

  lemma ChangingStoresPassword(s: State, e: Event, u: UserId)
    requires e.op.Change?
    ensures var given := PasswordGiven(s, e, u);
            StoredPassword(Step(s, e).s, u) == if given.Some? then given else StoredPassword(s, u)
  {
    GuardAdmits(s, e.op.who, e.now);
  }

  lemma StepStoresPassword(s: State, e: Event, u: UserId)
    ensures var given := PasswordGiven(s, e, u);
            StoredPassword(Step(s, e).s, u) == if given.Some? then given else StoredPassword(s, u)
  {
    if Administers(e.op) {
      AdministeringStoresPassword(s, e, u);
    } else if e.op.Change? {
      ChangingStoresPassword(s, e, u);
    } else {
      match e.op {
        case SignInAs(_, _) =>
        case Present(_) =>
        case SignOut(_) =>
        case Forgot(_) =>
        case UseLink(_, _, _) =>
        case SetOrganization(_) =>
      }
    }
  }

  lemma {:induction false} LastPasswordIsStored(s: State, es: seq<Event>, u: UserId)
    ensures StoredPassword(Run(s, es), u) == LastPassword(s, es, u)
  {
    if es != [] {
      LastPasswordIsStored(s, es[..|es| - 1], u);
      StepStoresPassword(Run(s, es[..|es| - 1]), es[|es| - 1], u);
    }
  }

  /** This password, an active account in an active organisation, and a fifth or later failure only a lockout ago. */
  predicate KeyFits(s: State, u: UserId, last: Option<Password>, failures: seq<Time>, password: Password, now: Time) {
    && last == Some(password)
    && u in s.users && s.users[u].status in {Active, PendingActivation} && s.organizationActive
    && (|failures| >= 5 ==> now >= failures[|failures| - 1] + 900_000)
  }

  lemma SignsInNow(s: State, u: UserId, failures: seq<Time>, password: Password, now: Time)
    requires Remembers(s.users, u, failures)
    ensures Login(s, u, password, now).reply.SignedIn?
            <==> KeyFits(s, u, StoredPassword(s, u), failures, password, now)
  {
  }

  /** After any run, exactly the password the account was last given signs in, as long as the account and the
      organisation are active and the last failure, if it was the fifth or a later one, is a lockout ago. */
  lemma SignsInIff(s: State, es: seq<Event>, u: UserId, password: Password, now: Time)
    requires Seeded(s)
    ensures Login(Run(s, es), u, password, now).reply.SignedIn?
            <==> KeyFits(Run(s, es), u, LastPassword(s, es, u), Failures(s, es, u), password, now)
  {
    LastPasswordIsStored(s, es, u);
    AccountRemembersFailures(s, es, u);
    SignsInNow(Run(s, es), u, Failures(s, es, u), password, now);
  }
}
