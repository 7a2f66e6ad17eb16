/** When an account may be used, stated on the stored rows alone. */
module AccountRules {
  import opened Text
  import opened Accounts

  predicate Enabled(user: User) {
    user.status in {Active, PendingActivation}
  }

  predicate LockOver(user: User, now: Time) {
    user.lockedUntil.None? || user.lockedUntil.value <= now
  }

  /** Nothing but a wrong password keeps the user out now. */
  predicate MayTry(s: State, u: UserId, now: Time) {
    u in s.users && LockOver(s.users[u], now) && Enabled(s.users[u]) && s.organizationActive
  }

  /** The session is open and belongs to the user. */
  predicate OpenFor(s: State, who: Access, now: Time) {
    && who.session in s.sessions
    && s.sessions[who.session].user == who.user
    && !s.sessions[who.session].revoked
    && s.sessions[who.session].expiresAt >= now
  }

  /** The token is neither spent nor revoked nor expired. */
  predicate Fresh(s: State, t: TokenId, now: Time) {
    t in s.tokens && !s.tokens[t].used && !s.tokens[t].revoked && s.tokens[t].expiresAt >= now
  }

  predicate MayRefresh(s: State, t: TokenId, now: Time) {
    && Fresh(s, t, now)
    && s.tokens[t].user in s.users && Enabled(s.users[s.tokens[t].user])
    && s.tokens[t].session in s.sessions
    && !s.sessions[s.tokens[t].session].revoked && s.sessions[s.tokens[t].session].expiresAt >= now
  }

  /** The link was asked for less than its lifetime ago, and nobody has used it. */
  predicate LinkGood(s: State, link: LinkId, now: Time) {
    link in s.links && !s.links[link].used && s.links[link].expiresAt >= now && s.links[link].user in s.users
  }

  /** Exactly the sessions and tokens of the user have been revoked, apart from those of one session. */
  ghost predicate Ended(s: State, after: State, u: UserId, keep: Option<SessionId>) {
    && after.sessions.Keys == s.sessions.Keys && after.tokens.Keys == s.tokens.Keys
    && (forall i | i in s.sessions ::
          after.sessions[i] == Session(s.sessions[i].user, s.sessions[i].expiresAt,
                                       s.sessions[i].revoked || (s.sessions[i].user == u && keep != Some(i))))
    && (forall t | t in s.tokens ::
          after.tokens[t] == s.tokens[t].(
            revoked := s.tokens[t].revoked || (s.tokens[t].user == u && keep != Some(s.tokens[t].session))))
  }

  /** Exactly this session and its tokens have been revoked. */
  ghost predicate OneEnded(s: State, after: State, session: SessionId) {
    && after.sessions.Keys == s.sessions.Keys && after.tokens.Keys == s.tokens.Keys
    && (forall i | i in s.sessions ::
          after.sessions[i] == s.sessions[i].(revoked := s.sessions[i].revoked || i == session))
    && (forall t | t in s.tokens ::
          after.tokens[t] == s.tokens[t].(revoked := s.tokens[t].revoked || s.tokens[t].session == session))
  }

  /** The token is spent, and its successor continues its session and family for seven more days. */
  ghost predicate Exchanged(s: State, after: State, t: TokenId, reply: Reply, now: Time)
    requires t in s.tokens && reply.SignedIn?
  {
    var spent := s.tokens[t];
    && reply.access == Access(spent.user, spent.session) && reply.refresh !in s.tokens
    && after.tokens == s.tokens[t := spent.(used := true, revoked := true)][
                         reply.refresh := Token(spent.user, spent.session, spent.family, now + 604_800_000, false,
                                                false)]
    && after.users == s.users && after.sessions == s.sessions && after.links == s.links
    && after.organizationActive == s.organizationActive
  }

  /** Only the row of this user, the sessions and the tokens may differ. */
  ghost predicate OnlyUser(s: State, after: State, u: UserId, row: User) {
    && after.users == s.users[u := row]
    && after.links == s.links && after.organizationActive == s.organizationActive && after.next == s.next
  }
}
