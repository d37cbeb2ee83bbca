/** Refresh sessions: at most ten active ones per user when sessions are created one at a time,
    and a refresh token that works once, however requests overlap. */
module Sessions {
  import opened Options
  import opened Basics

  /** Seconds. */
  type Time = nat
  type UserId = nat
  type Token = nat
  type SessionId = nat
  type AgentId = nat

  function MaximumActive(): nat { 10 }
  function DaySeconds(n: nat): nat { n * 86400 }
  function TokenLifetime(): nat { DaySeconds(60) }
  function Retention(): nat { DaySeconds(30) }

  /** A row of `refresh_sessions`. */
  datatype Session = Session(user: UserId, token: Token, createdAt: Time, lastUsedAt: Option<Time>, expiresAt: Time, revokedAt: Option<Time>)

  type Rows = map<SessionId, Session>

  predicate Active(row: Session, now: Time) {
    row.revokedAt.None? && row.expiresAt > now
  }

  function ActiveOf(rows: Rows, user: UserId, now: Time): set<SessionId> {
    set i | i in rows && rows[i].user == user && Active(rows[i], now)
  }

  function LastSeen(row: Session): Time {
    if row.lastUsedAt.Some? then row.lastUsedAt.value else row.createdAt
  }

  // ----- one request at a time -----

  datatype State = State(clock: Time, rows: Rows, usedIds: set<SessionId>, usedTokens: set<Token>)

  /** The nine most recently used active sessions stay; among equals any may. */
  predicate Evictable(rows: Rows, user: UserId, now: Time, evicted: set<SessionId>) {
    var active := ActiveOf(rows, user, now);
    && evicted <= active
    && |active - evicted| == (if |active| < MaximumActive() then |active| else MaximumActive() - 1)
    && forall kept, gone | kept in active - evicted && gone in evicted :: LastSeen(rows[gone]) <= LastSeen(rows[kept])
  }

  /** Rows past retention are dropped before the eviction. */
  predicate Outdated(row: Session, now: Time) {
    row.expiresAt + Retention() < now || (row.revokedAt.Some? && row.revokedAt.value + Retention() < now)
  }

  function Pruned(rows: Rows, now: Time): Rows {
    map i | i in rows && !Outdated(rows[i], now) :: rows[i]
  }

  function Evicted(rows: Rows, evicted: set<SessionId>, now: Time): Rows {
    map i | i in rows :: if i in evicted then rows[i].(revokedAt := Some(now)) else rows[i]
  }

  datatype Event =
    | Wait(seconds: nat)
    | Create(id: SessionId, user: UserId, token: Token, evicted: set<SessionId>)
    | Refresh(token: Token, newToken: Token)
    | Logout(token: Token)

  function Holder(rows: Rows, token: Token): set<SessionId> {
    set i | i in rows && rows[i].token == token
  }

  function Step(s: State, e: Event): State {
    match e
    case Wait(seconds) => s.(clock := s.clock + seconds)
    case Create(id, user, token, evicted) =>
      if id in s.usedIds || token in s.usedTokens || !Evictable(Pruned(s.rows, s.clock), user, s.clock, evicted) then s
      else
        State(s.clock,
              Evicted(Pruned(s.rows, s.clock), evicted, s.clock)
                [id := Session(user, token, s.clock, None, s.clock + TokenLifetime(), None)],
              s.usedIds + {id}, s.usedTokens + {token})
    case Refresh(token, newToken) =>
      if newToken in s.usedTokens then s
      else
        State(s.clock,
              map i | i in s.rows :: if s.rows[i].token == token && Active(s.rows[i], s.clock) then Rotated(s.rows[i], newToken, s.clock) else s.rows[i],
              s.usedIds, s.usedTokens + {newToken})
    case Logout(token) =>
      s.(rows := map i | i in s.rows ::
        if s.rows[i].token == token && s.rows[i].revokedAt.None? then s.rows[i].(revokedAt := Some(s.clock)) else s.rows[i])
  }

  function Rotated(row: Session, token: Token, now: Time): Session {
    row.(token := token, expiresAt := now + TokenLifetime(), lastUsedAt := Some(now))
  }

  function Run(s: State, events: seq<Event>): State {
    if events == [] then s else Step(Run(s, events[..|events| - 1]), events[|events| - 1])
  }

  ghost predicate Bounded(s: State) {
    && s.rows.Keys <= s.usedIds
    && forall u :: |ActiveOf(s.rows, u, s.clock)| <= MaximumActive()
  }

  lemma EvictedCounts(rows: Rows, evicted: set<SessionId>, u: UserId, now: Time)
    ensures ActiveOf(Evicted(rows, evicted, now), u, now) == ActiveOf(rows, u, now) - evicted
  {
  }

  lemma AddedCounts(rows: Rows, id: SessionId, row: Session, u: UserId, now: Time)
    requires id !in rows && Active(row, now)
    ensures ActiveOf(rows[id := row], u, now) == ActiveOf(rows, u, now) + if u == row.user then {id} else {}
  {
  }

  lemma EvictedKeys(rows: Rows, evicted: set<SessionId>, now: Time)
    ensures Evicted(Pruned(rows, now), evicted, now).Keys <= rows.Keys
  {
  }

  lemma FreshIsActive(row: Session, now: Time)
    requires row.revokedAt.None? && row.expiresAt == now + TokenLifetime()
    ensures Active(row, now)
  {
  }

  lemma CreateWrites(s: State, e: Event)
    requires e.Create? && Step(s, e) != s
    ensures e.id !in s.usedIds && Evictable(Pruned(s.rows, s.clock), e.user, s.clock, e.evicted)
    ensures Step(s, e).rows ==
            Evicted(Pruned(s.rows, s.clock), e.evicted, s.clock)[e.id := Session(e.user, e.token, s.clock, None, s.clock + TokenLifetime(), None)]
  {
    hide Evictable, Evicted, Pruned;
  }

  lemma CreateCounts(s: State, e: Event, u: UserId)
    requires e.Create? && Step(s, e) != s && s.rows.Keys <= s.usedIds
    ensures ActiveOf(Step(s, e).rows, u, s.clock)
            == if u == e.user then ActiveOf(s.rows, u, s.clock) - e.evicted + {e.id} else ActiveOf(s.rows, u, s.clock)
  {
    hide Step, Evicted, Pruned, ActiveOf, Active, Outdated, Evictable, TokenLifetime;
    var now := s.clock;
    var rows := Evicted(Pruned(s.rows, now), e.evicted, now);
    var row := Session(e.user, e.token, now, None, now + TokenLifetime(), None);
    CreateWrites(s, e);
    EvictedKeys(s.rows, e.evicted, now);
    FreshIsActive(row, now);
    PrunedKeepsActive(s.rows, u, now);
    EvictedCounts(Pruned(s.rows, now), e.evicted, u, now);
    AddedCounts(rows, e.id, row, u, now);
    EvictedBelong(Pruned(s.rows, now), e.user, now, e.evicted, u);
  }

  lemma EvictedBelong(rows: Rows, user: UserId, now: Time, evicted: set<SessionId>, u: UserId)
    requires Evictable(rows, user, now, evicted)
    ensures u != user ==> ActiveOf(rows, u, now) - evicted == ActiveOf(rows, u, now)
  {
  }

  lemma PrunedKeepsActive(rows: Rows, user: UserId, now: Time)
    ensures ActiveOf(Pruned(rows, now), user, now) == ActiveOf(rows, user, now)
  {
  }

  lemma StepKeepsBounded(s: State, e: Event)
    requires Bounded(s)
    ensures Bounded(Step(s, e))
  {
    var t := Step(s, e);
    forall u ensures |ActiveOf(t.rows, u, t.clock)| <= MaximumActive() {
      if e.Create? && t != s {
        CreateCounts(s, e, u);
        PrunedKeepsActive(s.rows, u, s.clock);
      } else {
        SubsetSize(ActiveOf(t.rows, u, t.clock), ActiveOf(s.rows, u, s.clock));
      }
    }
  }

  /** In every serial run a user never has more than ten sessions that are neither revoked nor expired. */
  lemma {:induction false} TenSessionsAtMost(s: State, events: seq<Event>)
    requires s.rows == map[]
    ensures Bounded(Run(s, events))
    ensures var t := Run(s, events);
            forall u :: |Unrevoked(t.rows, u, t.clock)| <= 10
  {
    AlwaysBounded(s, events);
    var t := Run(s, events);
    forall u ensures |Unrevoked(t.rows, u, t.clock)| <= 10 { assert Unrevoked(t.rows, u, t.clock) == ActiveOf(t.rows, u, t.clock); }
  }

  lemma {:induction false} AlwaysBounded(s: State, events: seq<Event>)
    requires s.rows == map[]
    ensures Bounded(Run(s, events))
  {
    hide Step;
    if events == [] {
      assert forall u :: ActiveOf(s.rows, u, s.clock) == {};
    } else {
      AlwaysBounded(s, events[..|events| - 1]);
      StepKeepsBounded(Run(s, events[..|events| - 1]), events[|events| - 1]);
    }
  }

  // ----- column by column -----

  /** The user's sessions that are neither revoked nor expired. */
  function Unrevoked(rows: Rows, user: UserId, now: Time): set<SessionId> {
    set i | i in rows && rows[i].user == user && rows[i].revokedAt == None && rows[i].expiresAt > now
  }

  /** Nothing is evicted below ten; from ten on exactly nine stay, and none of them was used, or
      created if never used, before an evicted one. */
  lemma EvictionInColumns(rows: Rows, user: UserId, now: Time, evicted: set<SessionId>)
    ensures var all := Unrevoked(rows, user, now);
            Evictable(rows, user, now, evicted) <==>
              && evicted <= all
              && (|all| < 10 ==> evicted == {}) && (|all| >= 10 ==> |all - evicted| == 9)
              && forall kept, gone | kept in all - evicted && gone in evicted ::
                   (match rows[gone].lastUsedAt case Some(at) => at case None => rows[gone].createdAt)
                   <= (match rows[kept].lastUsedAt case Some(at) => at case None => rows[kept].createdAt)
  {
    SameActive(rows, user, now);
    hide ActiveOf, Unrevoked;
    var all := Unrevoked(rows, user, now);
    Remaining(all, evicted);
  }

  lemma SameActive(rows: Rows, user: UserId, now: Time)
    ensures Unrevoked(rows, user, now) == ActiveOf(rows, user, now) <= rows.Keys
  {
  }

  lemma Remaining(all: set<SessionId>, evicted: set<SessionId>)
    ensures evicted <= all ==> (|all - evicted| == |all| <==> evicted == {})
  {
    if evicted <= all { assert all == (all - evicted) + evicted && |all| == |all - evicted| + |evicted|; }
  }

  /** Creating drops rows that expired or were revoked more than 30 days ago, revokes the evicted ones
      and adds one that lasts 60 days. */
  lemma CreatedRows(s: State, id: SessionId, user: UserId, token: Token, evicted: set<SessionId>)
    requires id !in s.usedIds && token !in s.usedTokens && Evictable(Pruned(s.rows, s.clock), user, s.clock, evicted)
    ensures Step(s, Create(id, user, token, evicted)).rows ==
            (map i | i in s.rows && s.rows[i].expiresAt + 2_592_000 >= s.clock
                     && (s.rows[i].revokedAt.None? || s.rows[i].revokedAt.value + 2_592_000 >= s.clock) ::
               if i in evicted then s.rows[i].(revokedAt := Some(s.clock)) else s.rows[i])
            [id := Session(user, token, s.clock, None, s.clock + 5_184_000, None)]
  {
  }

  /** Refreshing gives the unrevoked and unexpired session with the token a new one for 60 days. */
  lemma RefreshedRows(s: State, token: Token, newToken: Token)
    requires newToken !in s.usedTokens
    ensures Step(s, Refresh(token, newToken)).rows ==
            map i | i in s.rows ::
              var row := s.rows[i];
              if row.token == token && row.revokedAt == None && row.expiresAt > s.clock
              then Session(row.user, newToken, row.createdAt, Some(s.clock), s.clock + 5_184_000, None) else row
  {
  }

  /** Logging out revokes exactly the session with the token, and an earlier revocation stands: from
      then on the token finds no session. */
  lemma LoggedOut(s: State, token: Token, newToken: Token)
    ensures var t := Step(s, Logout(token));
            && t == s.(rows := t.rows) && t.rows.Keys == s.rows.Keys
            && (forall i | i in s.rows ::
                  t.rows[i] == if s.rows[i].token == token && s.rows[i].revokedAt == None then s.rows[i].(revokedAt := Some(s.clock)) else s.rows[i])
            && Step(t, Refresh(token, newToken)).rows == t.rows
  {
    assert Step(Step(s, Logout(token)), Refresh(token, newToken)).rows == Step(s, Logout(token)).rows;
  }

  /** What a new session displaces: nothing while fewer than ten are active, otherwise all but the
      nine most recently used. */
  lemma CreateKeepsNine(s: State, e: Event)
    requires e.Create? && Step(s, e) != s && s.rows.Keys <= s.usedIds
    ensures var before, after := ActiveOf(s.rows, e.user, s.clock), ActiveOf(Step(s, e).rows, e.user, s.clock);
            && after <= before + {e.id} && e.id in after && e.id !in before
            && |after| == (if |before| < 10 then |before| + 1 else 10)
            && forall kept, gone | kept in before * after && gone in before - after :: LastSeen(s.rows[gone]) <= LastSeen(s.rows[kept])
  {
    hide ActiveOf, Active;
    CreateCounts(s, e, e.user);
    PrunedKeepsActive(s.rows, e.user, s.clock);
    NewIsNotActive(s.rows, e.id, e.user, s.clock);
  }

  lemma NewIsNotActive(rows: Rows, id: SessionId, user: UserId, now: Time)
    requires id !in rows
    ensures id !in ActiveOf(rows, user, now)
  {
  }

  /** A refresh with the token of an active session hands the session over to the new token, for
      another sixty days; with any other token it does nothing to the sessions. */
  lemma RefreshRotates(s: State, token: Token, newToken: Token, id: SessionId)
    requires newToken !in s.usedTokens && newToken != token && id in s.rows && Holder(s.rows, token) <= {id}
    requires forall i | i in s.rows :: s.rows[i].token in s.usedTokens
    ensures var t := Step(s, Refresh(token, newToken));
            if id in Holder(s.rows, token) && Active(s.rows[id], s.clock)
            then Holder(t.rows, newToken) == {id} && Holder(t.rows, token) == {} && Active(t.rows[id], s.clock)
                 && t.rows[id].expiresAt == s.clock + DaySeconds(60) && t.rows[id].user == s.rows[id].user
            else t.rows == s.rows
  {
    assert forall i | i in s.rows && s.rows[i].token == token :: i in Holder(s.rows, token);
  }

  /** In a serial run a session that is not active never becomes active again. */
  lemma InactiveStays(s: State, e: Event, id: SessionId)
    requires id in s.usedIds && s.rows.Keys <= s.usedIds
    requires id in s.rows ==> !Active(s.rows[id], s.clock)
    ensures var t := Step(s, e);
            id in t.usedIds && t.rows.Keys <= t.usedIds && (id in t.rows ==> !Active(t.rows[id], t.clock))
  {
  }

  lemma {:induction false} InactiveForever(s: State, events: seq<Event>, id: SessionId)
    requires id in s.usedIds && s.rows.Keys <= s.usedIds
    requires id in s.rows ==> !Active(s.rows[id], s.clock)
    ensures var t := Run(s, events);
            id in t.usedIds && t.rows.Keys <= t.usedIds && (id in t.rows ==> !Active(t.rows[id], t.clock))
  {
    hide Step;
    if events != [] {
      InactiveForever(s, events[..|events| - 1], id);
      InactiveStays(Run(s, events[..|events| - 1]), events[|events| - 1], id);
    }
  }

  // ----- overlapping requests -----

  /** A refresh: its snapshot found a row with the token; then it waits for the lock, reads the row
      again, and rotates the token. */
  datatype Stage = Looking | Waiting(id: SessionId) | Holding(id: SessionId)

  datatype Agent = Agent(token: Token, start: Time, stage: Stage)

  type Agents = map<AgentId, Agent>

  /** `accepted` is history: the tokens of committed refreshes. */
  datatype Shared = Shared(clock: Time, rows: Rows, agents: Agents, usedIds: set<SessionId>, usedTokens: set<Token>, accepted: seq<Token>)

  predicate Locked(agents: Agents, id: SessionId) {
    exists a | a in agents :: agents[a].stage.Holding? && agents[a].stage.id == id
  }

  predicate Refreshable(rows: Rows, id: SessionId, token: Token, start: Time) {
    id in rows && rows[id].token == token && Active(rows[id], start)
  }

  /** Creating inserts one row and revokes and drops others, each when its lock is free. */
  datatype Action =
    | Pass(seconds: nat)
    | Insert(id: SessionId, user: UserId, token: Token)
    | Revoke(id: SessionId)
    | Drop(id: SessionId)
    | Begin(agent: AgentId, token: Token)
    | Choose(agent: AgentId, id: SessionId)
    | Lock(agent: AgentId)
    | Commit(agent: AgentId, newToken: Token)
    | Rollback(agent: AgentId)

  function Act(s: Shared, e: Action): Shared {
    match e
    case Pass(seconds) => s.(clock := s.clock + seconds)
    case Insert(id, user, token) =>
      if id in s.usedIds || token in s.usedTokens then s
      else s.(rows := s.rows[id := Session(user, token, s.clock, None, s.clock + TokenLifetime(), None)],
              usedIds := s.usedIds + {id}, usedTokens := s.usedTokens + {token})
    case Revoke(id) =>
      if id !in s.rows || Locked(s.agents, id) || s.rows[id].revokedAt.Some? then s
      else s.(rows := s.rows[id := s.rows[id].(revokedAt := Some(s.clock))])
    case Drop(id) => if Locked(s.agents, id) then s else s.(rows := s.rows - {id})
    case Begin(agent, token) =>
      if agent in s.agents then s else s.(agents := s.agents[agent := Agent(token, s.clock, Looking)])
    case Choose(agent, id) =>
      if agent in s.agents && s.agents[agent].stage.Looking? && Refreshable(s.rows, id, s.agents[agent].token, s.agents[agent].start)
      then s.(agents := s.agents[agent := s.agents[agent].(stage := Waiting(id))]) else s
    case Lock(agent) =>
      if agent in s.agents && s.agents[agent].stage.Waiting? && !Locked(s.agents, s.agents[agent].stage.id) then
        var a := s.agents[agent];
        s.(agents := if Refreshable(s.rows, a.stage.id, a.token, a.start)
                     then s.agents[agent := a.(stage := Holding(a.stage.id))] else s.agents - {agent})
      else s
    case Commit(agent, newToken) =>
      if agent in s.agents && s.agents[agent].stage.Holding? && s.agents[agent].stage.id in s.rows && newToken !in s.usedTokens
      then
        var id := s.agents[agent].stage.id;
        s.(rows := s.rows[id := Rotated(s.rows[id], newToken, s.clock)], agents := s.agents - {agent},
           usedTokens := s.usedTokens + {newToken}, accepted := s.accepted + [s.agents[agent].token])
      else s
    case Rollback(agent) => s.(agents := s.agents - {agent})
  }

  function Overlapped(s: Shared, actions: seq<Action>): Shared {
    if actions == [] then s else Act(Overlapped(s, actions[..|actions| - 1]), actions[|actions| - 1])
  }

  /** A token in a row was never accepted, and no other row has it. */
  ghost predicate TokensSound(rows: Rows, usedIds: set<SessionId>, usedTokens: set<Token>, accepted: seq<Token>) {
    && rows.Keys <= usedIds
    && (forall i | i in rows :: rows[i].token in usedTokens && rows[i].token !in accepted)
    && (forall i, j {:trigger SameToken(rows[i], rows[j])} | i in rows && j in rows && SameToken(rows[i], rows[j]) :: i == j)
    && (forall t | t in accepted :: t in usedTokens)
    && (forall i, j | 0 <= i < j < |accepted| :: accepted[i] != accepted[j])
  }

  predicate SameToken(a: Session, b: Session) {
    a.token == b.token
  }

  predicate HoldSound(rows: Rows, a: Agent)
    requires a.stage.Holding?
  {
    a.stage.id in rows && rows[a.stage.id].token == a.token && rows[a.stage.id].revokedAt.None?
  }

  predicate SameLock(a: Agent, b: Agent) {
    a.stage.Holding? && b.stage.Holding? && a.stage.id == b.stage.id
  }

  ghost predicate LocksSound(rows: Rows, agents: Agents) {
    && (forall a | a in agents && agents[a].stage.Holding? :: HoldSound(rows, agents[a]))
    && (forall a, b {:trigger SameLock(agents[a], agents[b])} | a in agents && b in agents && SameLock(agents[a], agents[b]) :: a == b)
  }

  ghost predicate Valid(s: Shared) {
    TokensSound(s.rows, s.usedIds, s.usedTokens, s.accepted) && LocksSound(s.rows, s.agents)
  }

  lemma TableActionKeepsTokens(s: Shared, e: Action)
    requires TokensSound(s.rows, s.usedIds, s.usedTokens, s.accepted) && (e.Pass? || e.Insert? || e.Revoke? || e.Drop?)
    ensures var t := Act(s, e); TokensSound(t.rows, t.usedIds, t.usedTokens, t.accepted)
  {
    var t := Act(s, e);
    assert forall i, j | i in s.rows && j in s.rows && i in t.rows && j in t.rows && SameToken(t.rows[i], t.rows[j]) :: SameToken(s.rows[i], s.rows[j]);
  }

  lemma TableActionKeepsValid(s: Shared, e: Action)
    requires Valid(s) && (e.Pass? || e.Insert? || e.Revoke? || e.Drop?)
    ensures Valid(Act(s, e))
  {
    TableActionKeepsTokens(s, e);
    assert s.rows.Keys <= s.usedIds;
    hide TokensSound;
    var t := Act(s, e);
    forall a | a in t.agents && t.agents[a].stage.Holding? ensures HoldSound(t.rows, t.agents[a]) {
      assert HoldSound(s.rows, s.agents[a]);
    }
  }

  lemma AgentActionKeepsValid(s: Shared, e: Action)
    requires Valid(s) && (e.Begin? || e.Choose? || e.Lock? || e.Rollback?)
    ensures Valid(Act(s, e))
  {
    var t := Act(s, e);
    forall a, b | a in t.agents && b in t.agents && SameLock(t.agents[a], t.agents[b]) ensures a == b {
      assert a in s.agents && b in s.agents ==> !SameLock(s.agents[a], s.agents[b]) || a == b;
    }
    forall a | a in t.agents && t.agents[a].stage.Holding? ensures HoldSound(t.rows, t.agents[a]) {
      assert a in s.agents && s.agents[a].stage.Holding? ==> HoldSound(s.rows, s.agents[a]);
    }
  }

  lemma CommitKeepsValid(s: Shared, e: Action)
    requires Valid(s) && e.Commit?
    ensures Valid(Act(s, e))
  {
    var t := Act(s, e);
    if t != s {
      var id := s.agents[e.agent].stage.id;
      assert HoldSound(s.rows, s.agents[e.agent]);
      RotationKeepsTokens(s, id, e.newToken);
      forall a | a in t.agents && t.agents[a].stage.Holding? ensures HoldSound(t.rows, t.agents[a]) {
        assert HoldSound(s.rows, s.agents[a]);
        assert !SameLock(s.agents[a], s.agents[e.agent]);
      }
      assert forall a, b | a in t.agents && b in t.agents && SameLock(t.agents[a], t.agents[b]) :: SameLock(s.agents[a], s.agents[b]);
    }
  }

  lemma RotationKeepsTokens(s: Shared, id: SessionId, newToken: Token)
    requires TokensSound(s.rows, s.usedIds, s.usedTokens, s.accepted) && id in s.rows && newToken !in s.usedTokens
    ensures TokensSound(s.rows[id := Rotated(s.rows[id], newToken, s.clock)], s.usedIds, s.usedTokens + {newToken},
                        s.accepted + [s.rows[id].token])
  {
    var after := s.rows[id := Rotated(s.rows[id], newToken, s.clock)];
    forall i, j | i in after && j in after && SameToken(after[i], after[j]) ensures i == j {
      if i != id && j != id { assert SameToken(s.rows[i], s.rows[j]); }
    }
    forall i | i in after ensures after[i].token !in s.accepted + [s.rows[id].token] {
      if i != id { assert SameToken(s.rows[i], s.rows[id]) ==> i == id; }
    }
  }

  lemma {:induction false} OverlappedKeepsValid(s: Shared, actions: seq<Action>)
    requires Valid(s)
    ensures Valid(Overlapped(s, actions))
  {
    hide Act, Valid;
    if actions != [] {
      var before, e := Overlapped(s, actions[..|actions| - 1]), actions[|actions| - 1];
      OverlappedKeepsValid(s, actions[..|actions| - 1]);
      if e.Commit? {
        CommitKeepsValid(before, e);
      } else if e.Begin? || e.Choose? || e.Lock? || e.Rollback? {
        AgentActionKeepsValid(before, e);
      } else {
        TableActionKeepsValid(before, e);
      }
    }
  }

  /** The statements of overlapping requests, column by column. */
  lemma ActionRows(s: Shared, id: SessionId, user: UserId, token: Token, agent: AgentId, newToken: Token)
    ensures id !in s.usedIds && token !in s.usedTokens ==>
              Act(s, Insert(id, user, token)) ==
              s.(rows := s.rows[id := Session(user, token, s.clock, None, s.clock + 5_184_000, None)],
                 usedIds := s.usedIds + {id}, usedTokens := s.usedTokens + {token})
    ensures id in s.rows && !(exists a :: a in s.agents && s.agents[a].stage == Holding(id)) ==>
              Act(s, Revoke(id)) ==
              if s.rows[id].revokedAt == None then s.(rows := s.rows[id := s.rows[id].(revokedAt := Some(s.clock))]) else s
    ensures agent !in s.agents ==> Act(s, Begin(agent, token)) == s.(agents := s.agents[agent := Agent(token, s.clock, Looking)])
    ensures agent in s.agents && s.agents[agent].stage == Looking ==>
              Act(s, Choose(agent, id)) ==
              if id in s.rows && s.rows[id].token == s.agents[agent].token && s.rows[id].revokedAt == None && s.rows[id].expiresAt > s.agents[agent].start
              then s.(agents := s.agents[agent := s.agents[agent].(stage := Waiting(id))]) else s
    ensures agent in s.agents && s.agents[agent].stage == Waiting(id) && !(exists a :: a in s.agents && s.agents[a].stage == Holding(id)) ==>
              Act(s, Lock(agent)) ==
              s.(agents := if id in s.rows && s.rows[id].token == s.agents[agent].token && s.rows[id].revokedAt == None && s.rows[id].expiresAt > s.agents[agent].start
                           then s.agents[agent := s.agents[agent].(stage := Holding(id))] else s.agents - {agent})
    ensures agent in s.agents && s.agents[agent].stage == Holding(id) && id in s.rows && newToken !in s.usedTokens ==>
              Act(s, Commit(agent, newToken)) ==
              s.(rows := s.rows[id := Session(s.rows[id].user, newToken, s.rows[id].createdAt, Some(s.clock), s.clock + 5_184_000, s.rows[id].revokedAt)],
                 agents := s.agents - {agent}, usedTokens := s.usedTokens + {newToken}, accepted := s.accepted + [s.agents[agent].token])
  {
  }

  /** However refreshes, logouts and evictions overlap, each refresh token is accepted at most once,
      and a token that was accepted belongs to no session any more. */
  lemma TokenWorksOnce(now: Time, actions: seq<Action>, i: nat, j: nat)
    requires i < j < |Overlapped(Shared(now, map[], map[], {}, {}, []), actions).accepted|
    ensures var s := Overlapped(Shared(now, map[], map[], {}, {}, []), actions);
            s.accepted[i] != s.accepted[j] && Holder(s.rows, s.accepted[i]) == {}
  {
    OverlappedKeepsValid(Shared(now, map[], map[], {}, {}, []), actions);
  }

  /** The row of a used identifier is as it was when it was revoked, or dropped. */
  predicate IsRevoked(s: Shared, id: SessionId, row: Session) {
    row.revokedAt.Some? && id in s.usedIds && (id in s.rows ==> s.rows[id] == row)
  }

  lemma RevokedStays(s: Shared, e: Action, id: SessionId, row: Session)
    requires Valid(s) && IsRevoked(s, id, row)
    ensures IsRevoked(Act(s, e), id, row)
  {
    if e.Commit? && e.agent in s.agents && s.agents[e.agent].stage.Holding? { assert HoldSound(s.rows, s.agents[e.agent]); }
  }

  /** A session that was revoked is never rotated, by whatever refreshes were already under way or
      come later: its row stays as it is until it is dropped, and does not come back. */
  lemma {:induction false} RevokedIsFinal(s: Shared, actions: seq<Action>, id: SessionId)
    requires Valid(s) && id in s.rows && s.rows[id].revokedAt.Some?
    ensures IsRevoked(Overlapped(s, actions), id, s.rows[id])
  {
    hide Act, Valid;
    if actions == [] {
      RowsAreUsed(s);
    } else {
      var before := Overlapped(s, actions[..|actions| - 1]);
      RevokedIsFinal(s, actions[..|actions| - 1], id);
      OverlappedKeepsValid(s, actions[..|actions| - 1]);
      RevokedStays(before, actions[|actions| - 1], id, s.rows[id]);
    }
  }

  lemma RowsAreUsed(s: Shared)
    requires Valid(s)
    ensures s.rows.Keys <= s.usedIds
  {
  }

  // ----- the table, one request at a time -----

  class SessionTable {
    var clock: Time
    var rows: Rows
    var usedIds: set<SessionId>
    var usedTokens: set<Token>

    ghost function Abs(): State
      reads this
    {
      State(clock, rows, usedIds, usedTokens)
    }

    constructor (now: Time)
      ensures Abs() == State(now, map[], {}, {}) && Bounded(Abs())
    {
      clock, rows, usedIds, usedTokens := now, map[], {}, {};
      new;
      assert forall u :: ActiveOf(rows, u, clock) == {};
    }

    /** The sessions past the nine most recently used. */
    method SessionsToRevoke(user: UserId) returns (evicted: set<SessionId>)
      ensures Evictable(rows, user, clock, evicted)
    {
      var active := ActiveOf(rows, user, clock);
      var kept: set<SessionId> := {};
      evicted := active;
      while |kept| < MaximumActive() - 1 && evicted != {}
        invariant kept !! evicted && kept + evicted == active && |kept| <= MaximumActive() - 1
        invariant forall k, g | k in kept && g in evicted :: LastSeen(rows[g]) <= LastSeen(rows[k])
        decreases evicted
      {
        var latest := MostRecent(evicted);
        kept, evicted := kept + {latest}, evicted - {latest};
      }
      assert active - evicted == kept && (evicted == {} ==> kept == active);
      assert |active| == |kept| + |evicted|;
      assert evicted != {} ==> |evicted| > 0;
    }

    method MostRecent(candidates: set<SessionId>) returns (latest: SessionId)
      requires candidates != {} && candidates <= rows.Keys
      ensures latest in candidates && forall i | i in candidates :: LastSeen(rows[i]) <= LastSeen(rows[latest])
    {
      latest :| latest in candidates;
      var rest := candidates - {latest};
      while rest != {}
        invariant latest in candidates && rest <= candidates
        invariant forall i | i in candidates && i !in rest :: LastSeen(rows[i]) <= LastSeen(rows[latest])
        decreases rest
      {
        var i :| i in rest;
        if LastSeen(rows[i]) > LastSeen(rows[latest]) { latest := i; }
        rest := rest - {i};
      }
    }

    /** `CreateSession`; the token is fresh. */
    method CreateSession(id: SessionId, user: UserId, token: Token) returns (ghost evicted: set<SessionId>)
      requires Bounded(Abs()) && id !in usedIds && token !in usedTokens
      modifies this
      ensures Bounded(Abs()) && Abs() == Step(old(Abs()), Create(id, user, token, evicted)) && id in rows
    {
      ghost var before := Abs();
      rows := Pruned(rows, clock);
      var revoked := SessionsToRevoke(user);
      evicted := revoked;
      rows := Evicted(rows, revoked, clock);
      rows := rows[id := Session(user, token, clock, None, clock + TokenLifetime(), None)];
      usedIds, usedTokens := usedIds + {id}, usedTokens + {token};
      StepKeepsBounded(before, Create(id, user, token, evicted));
    }

    /** `RefreshSession`; `newToken` is fresh, and tokens are not shared between rows. */
    method RefreshSession(token: Token, newToken: Token) returns (ok: bool)
      requires Bounded(Abs()) && newToken !in usedTokens
      requires forall i, j | i in rows && j in rows && SameToken(rows[i], rows[j]) :: i == j
      modifies this
      ensures Bounded(Abs())
      ensures ok <==> exists i :: i in old(rows) && old(rows)[i].token == token && Active(old(rows)[i], clock)
      ensures Abs() == if ok then Step(old(Abs()), Refresh(token, newToken)) else old(Abs())
    {
      ghost var before := Abs();
      var found := set i | i in rows && rows[i].token == token && Active(rows[i], clock);
      if found == {} {
        assert forall i | i in rows && rows[i].token == token && Active(rows[i], clock) :: i in found;
        return false;
      }
      var id :| id in found;
      assert forall i | i in rows && rows[i].token == token :: SameToken(rows[i], rows[id]);
      rows := rows[id := Rotated(rows[id], newToken, clock)];
      usedTokens := usedTokens + {newToken};
      assert rows == Step(before, Refresh(token, newToken)).rows;
      StepKeepsBounded(before, Refresh(token, newToken));
      ok := true;
    }

    /** `LogoutSession`. */
    method LogoutSession(token: Token)
      requires Bounded(Abs())
      modifies this
      ensures Bounded(Abs()) && Abs() == Step(old(Abs()), Logout(token))
    {
      StepKeepsBounded(Abs(), Logout(token));
      rows := map i | i in rows ::
        if rows[i].token == token && rows[i].revokedAt.None? then rows[i].(revokedAt := Some(clock)) else rows[i];
    }
  }
}
