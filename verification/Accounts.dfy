/** Sign-in, refresh-token rotation, password resets, lockout and user administration. */
module Accounts {
  import opened Text

  type SessionId = nat
  type TokenId = nat
  type FamilyId = nat
  type LinkId = nat
  type Password = string

  /** Milliseconds. */
  type Time = int

  const MAX_FAILED_ATTEMPTS := 5
  const LOCKOUT: Time := 15 * 60_000
  const RESET_TTL: Time := 30 * 60_000
  const REFRESH_TTL: Time := 7 * 24 * 60 * 60 * 1000

  datatype UserStatus = PendingActivation | Active | Suspended | Disabled

  datatype User = User(status: UserStatus, password: Password, failedLoginAttempts: nat, lockedUntil: Option<Time>)

  datatype Session = Session(user: UserId, expiresAt: Time, revoked: bool)

  datatype Token = Token(user: UserId, session: SessionId, family: FamilyId, expiresAt: Time, used: bool, revoked: bool)

  /** A password reset link. */
  datatype Link = Link(user: UserId, expiresAt: Time, used: bool)

  datatype State = State(
    users: map<UserId, User>,
    sessions: map<SessionId, Session>,
    tokens: map<TokenId, Token>,
    links: map<LinkId, Link>,
    organizationActive: bool,
    next: nat)

  /** What an access token carries. */
  datatype Access = Access(user: UserId, session: SessionId)

  datatype Refusal =
    | InvalidCredentials | TokenInvalid | SessionRevoked | AccountLocked | AccountSuspended | AccountDisabled
    | Forbidden | PasswordPolicy | BadRequest | NotFound | EmailExists

  datatype Reply = Refused(why: Refusal) | Done | SignedIn(access: Access, refresh: TokenId)

  datatype Outcome = Outcome(s: State, reply: Reply)

  // ------------------------------------------------------------------ tables

  predicate LockedAt(user: User, now: Time) {
    user.lockedUntil.Some? && user.lockedUntil.value > now
  }

  predicate ShutOut(status: UserStatus) {
    status.Disabled? || status.Suspended?
  }

  function Unlocked(user: User): User {
    user.(failedLoginAttempts := 0, lockedUntil := None)
  }

  function FailedOnce(user: User, now: Time): User {
    var attempts := user.failedLoginAttempts + 1;
    user.(failedLoginAttempts := attempts,
          lockedUntil := if attempts >= MAX_FAILED_ATTEMPTS then Some(now + LOCKOUT) else None)
  }

  /** Every session of the user is revoked, except possibly one. */
  function SessionsEnded(sessions: map<SessionId, Session>, u: UserId,
                         keep: Option<SessionId>): map<SessionId, Session>
  {
    map i | i in sessions ::
      if sessions[i].user == u && keep != Some(i) then sessions[i].(revoked := true) else sessions[i]
  }

  function TokensEnded(tokens: map<TokenId, Token>, u: UserId, keep: Option<SessionId>): map<TokenId, Token> {
    map t | t in tokens ::
      if tokens[t].user == u && keep != Some(tokens[t].session) then tokens[t].(revoked := true) else tokens[t]
  }

  function EndAll(s: State, u: UserId, keep: Option<SessionId>): State {
    s.(sessions := SessionsEnded(s.sessions, u, keep), tokens := TokensEnded(s.tokens, u, keep))
  }

  function SessionEnded(sessions: map<SessionId, Session>, session: SessionId): map<SessionId, Session> {
    if session in sessions then sessions[session := sessions[session].(revoked := true)] else sessions
  }

  function SessionTokensEnded(tokens: map<TokenId, Token>, session: SessionId): map<TokenId, Token> {
    map t | t in tokens :: if tokens[t].session == session then tokens[t].(revoked := true) else tokens[t]
  }

  function FamilyEnded(tokens: map<TokenId, Token>, family: FamilyId): map<TokenId, Token> {
    map t | t in tokens :: if tokens[t].family == family then tokens[t].(revoked := true) else tokens[t]
  }

  // ------------------------------------------------------------------ the guard

  /** Why an access token is turned away, if it is. */
  function Guard(s: State, who: Access, now: Time): Option<Refusal> {
    if who.user !in s.users then Some(TokenInvalid)
    else
      var user := s.users[who.user];
      if user.status.Suspended? then Some(AccountSuspended)
      else if user.status.Disabled? then Some(AccountDisabled)
      else if LockedAt(user, now) then Some(AccountLocked)
      else if !s.organizationActive then Some(Forbidden)
      else if who.session !in s.sessions then Some(SessionRevoked)
      else
        var session := s.sessions[who.session];
        if session.user != who.user || session.revoked || session.expiresAt < now then Some(SessionRevoked) else None
  }

  // ------------------------------------------------------------------ signing in and refreshing

  /** A new session with the first token of a new family. */
  function SignIn(s: State, u: UserId, now: Time): Outcome
    requires u in s.users
  {
    var user := Unlocked(s.users[u]);
    var session, token, family := s.next, s.next + 1, s.next + 2;
    Outcome(
      s.(users := s.users[u := if user.status.PendingActivation? then user.(status := Active) else user],
         sessions := s.sessions[session := Session(u, now + REFRESH_TTL, false)],
         tokens := s.tokens[token := Token(u, session, family, now + REFRESH_TTL, false, false)],
         next := s.next + 3),
      SignedIn(Access(u, session), token))
  }

  /** Why nobody may sign in to the account now, whatever the password. */
  function LoginBarred(s: State, u: UserId, now: Time): Option<Refusal> {
    if u !in s.users then Some(InvalidCredentials)
    else
      var user := s.users[u];
      if LockedAt(user, now) then Some(AccountLocked)
      else if user.status.Suspended? then Some(AccountSuspended)
      else if user.status.Disabled? then Some(AccountDisabled)
      else if !s.organizationActive then Some(Forbidden)
      else None
  }

  function Login(s: State, u: UserId, password: Password, now: Time): Outcome {
    var barred := LoginBarred(s, u, now);
    if barred.Some? then Outcome(s, Refused(barred.value))
    else if s.users[u].password != password then
      Outcome(s.(users := s.users[u := FailedOnce(s.users[u], now)]), Refused(InvalidCredentials))
    else SignIn(s, u, now)
  }

  /** The presented token is spent and its successor joins the same session and family. */
  function Rotate(s: State, t: TokenId, now: Time): Outcome
    requires t in s.tokens
  {
    var spent := s.tokens[t];
    var token := Token(spent.user, spent.session, spent.family, now + REFRESH_TTL, false, false);
    Outcome(s.(tokens := s.tokens[t := spent.(used := true, revoked := true)][s.next := token], next := s.next + 1),
            SignedIn(Access(spent.user, spent.session), s.next))
  }

  function RevokeFamily(s: State, t: TokenId): State
    requires t in s.tokens
  {
    s.(tokens := FamilyEnded(s.tokens, s.tokens[t].family), sessions := SessionEnded(s.sessions, s.tokens[t].session))
  }

  /** Why a token that is neither revoked nor expired nor spent cannot be exchanged. */
  function RefreshBarred(s: State, stored: Token, now: Time): Option<Refusal> {
    if stored.user !in s.users || ShutOut(s.users[stored.user].status) then Some(AccountDisabled)
    else if stored.session !in s.sessions || s.sessions[stored.session].revoked
            || s.sessions[stored.session].expiresAt < now then Some(SessionRevoked)
    else None
  }

  function Refresh(s: State, t: TokenId, now: Time): Outcome {
    if t !in s.tokens || s.tokens[t].revoked || s.tokens[t].expiresAt < now then Outcome(s, Refused(TokenInvalid))
    else if s.tokens[t].used then Outcome(RevokeFamily(s, t), Refused(SessionRevoked))
    else
      var barred := RefreshBarred(s, s.tokens[t], now);
      if barred.Some? then Outcome(s, Refused(barred.value)) else Rotate(s, t, now)
  }

  function Logout(s: State, who: Access): Outcome {
    Outcome(s.(sessions := SessionEnded(s.sessions, who.session),
               tokens := SessionTokensEnded(s.tokens, who.session)), Done)
  }

  // ------------------------------------------------------------------ passwords

  function ChangePassword(s: State, who: Access, current: Password, password: Password, strong: bool): Outcome {
    if who.user !in s.users then Outcome(s, Refused(TokenInvalid))
    else if s.users[who.user].password != current then Outcome(s, Refused(InvalidCredentials))
    else if current == password then Outcome(s, Refused(BadRequest))
    else if !strong then Outcome(s, Refused(PasswordPolicy))
    else
      var changed := s.(users := s.users[who.user := s.users[who.user].(password := password)]);
      Outcome(EndAll(changed, who.user, Some(who.session)), Done)
  }

  /** Known and unknown addresses get the same reply. */
  function RequestReset(s: State, u: UserId, now: Time): Outcome {
    if u !in s.users then Outcome(s, Done)
    else Outcome(s.(links := s.links[s.next := Link(u, now + RESET_TTL, false)], next := s.next + 1), Done)
  }

  /** A new password clears the lock and ends every session. */
  function NewPassword(s: State, u: UserId, password: Password): State
    requires u in s.users
  {
    EndAll(s.(users := s.users[u := Unlocked(s.users[u]).(password := password)]), u, None)
  }

  function ResetPassword(s: State, link: LinkId, password: Password, strong: bool, now: Time): Outcome {
    if link !in s.links || s.links[link].used || s.links[link].expiresAt < now || s.links[link].user !in s.users then
      Outcome(s, Refused(TokenInvalid))
    else if !strong then Outcome(s, Refused(PasswordPolicy))
    else
      var u := s.links[link].user;
      Outcome(NewPassword(s, u, password).(links := s.links[link := s.links[link].(used := true)]), Done)
  }

  // ------------------------------------------------------------------ administration

  function CreateUser(s: State, u: UserId, password: Password, strong: bool): Outcome {
    if u in s.users then Outcome(s, Refused(EmailExists))
    else if !strong then Outcome(s, Refused(PasswordPolicy))
    else Outcome(s.(users := s.users[u := User(PendingActivation, password, 0, None)]), Done)
  }

  function UpdateUser(s: State, who: Access, u: UserId, status: Option<UserStatus>): Outcome {
    if u !in s.users then Outcome(s, Refused(NotFound))
    else if u == who.user && status.Some? && status != Some(Active) then Outcome(s, Refused(BadRequest))
    else if status.None? then Outcome(s, Done)
    else
      var updated := s.(users := s.users[u := s.users[u].(status := status.value)]);
      Outcome(if ShutOut(status.value) then EndAll(updated, u, None) else updated, Done)
  }

  function AdminReset(s: State, u: UserId, password: Password, strong: bool): Outcome {
    if u !in s.users then Outcome(s, Refused(NotFound))
    else if !strong then Outcome(s, Refused(PasswordPolicy))
    else Outcome(NewPassword(s, u, password), Done)
  }

  function Unlock(s: State, u: UserId): Outcome {
    if u !in s.users then Outcome(s, Refused(NotFound))
    else Outcome(s.(users := s.users[u := Unlocked(s.users[u])]), Done)
  }
}
