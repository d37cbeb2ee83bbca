/** Creating sessions takes no lock on the user: a creation chooses what to evict in one statement and
    inserts in another, and other creations of the user may commit in between. */
module SessionRaces {
  import opened Options
  import opened Basics
  import opened Sessions

  /** A creation that has chosen; `others` is history, the creations of the user committed since. */
  datatype Creation = Creation(user: UserId, evicted: set<SessionId>, others: nat)

  datatype Overlap = Overlap(base: State, open: map<AgentId, Creation>)

  datatype Move =
    | Serially(event: Event)
    | Choose(agent: AgentId, user: UserId, evicted: set<SessionId>)
    | Insert(agent: AgentId, id: SessionId, token: Token)
    | GiveUp(agent: AgentId)

  function Noticed(open: map<AgentId, Creation>, user: UserId): map<AgentId, Creation> {
    map a | a in open :: if open[a].user == user then open[a].(others := open[a].others + 1) else open[a]
  }

  function Do(s: Overlap, m: Move): Overlap {
    match m
    case Serially(event) => if event.Create? then s else s.(base := Step(s.base, event))
    case Choose(agent, user, evicted) =>
      if agent !in s.open && Evictable(s.base.rows, user, s.base.clock, evicted)
      then s.(open := s.open[agent := Creation(user, evicted, 0)]) else s
    case Insert(agent, id, token) =>
      if agent in s.open && id !in s.base.usedIds && token !in s.base.usedTokens
      then Overlap(Created(s.base, s.open[agent], id, token), Noticed(s.open - {agent}, s.open[agent].user)) else s
    case GiveUp(agent) => s.(open := s.open - {agent})
  }

  /** The chosen sessions are revoked even where another creation already did it. */
  function Created(s: State, c: Creation, id: SessionId, token: Token): State {
    State(s.clock,
          Evicted(Pruned(s.rows, s.clock), c.evicted, s.clock)[id := Session(c.user, token, s.clock, None, s.clock + TokenLifetime(), None)],
          s.usedIds + {id}, s.usedTokens + {token})
  }

  function DoAll(s: Overlap, moves: seq<Move>): Overlap {
    if moves == [] then s else Do(DoAll(s, moves[..|moves| - 1]), moves[|moves| - 1])
  }

  /** Every creation committed so far saw fewer than `k` others of its user commit since its choice. */
  predicate AtMost(s: Overlap, moves: seq<Move>, k: nat) {
    moves != [] ==>
      var before, m := DoAll(s, moves[..|moves| - 1]), moves[|moves| - 1];
      AtMost(s, moves[..|moves| - 1], k) && (m.Insert? && m.agent in before.open ==> before.open[m.agent].others < k)
  }

  /** Besides what it will evict, a creation leaves nine sessions and those committed since. */
  ghost predicate Sound(s: Overlap, k: nat) {
    && s.base.rows.Keys <= s.base.usedIds
    && (forall u :: |ActiveOf(s.base.rows, u, s.base.clock)| <= 9 + k)
    && (forall a | a in s.open :: CreationSound(s.base, s.open[a]))
  }

  predicate CreationSound(s: State, c: Creation) {
    |ActiveOf(s.rows, c.user, s.clock) - c.evicted| <= 9 + c.others
  }

  lemma SerialShrinks(s: State, e: Event, u: UserId)
    requires !e.Create? && s.rows.Keys <= s.usedIds
    ensures Step(s, e).rows.Keys <= Step(s, e).usedIds
    ensures ActiveOf(Step(s, e).rows, u, Step(s, e).clock) <= ActiveOf(s.rows, u, s.clock)
  {
  }

  lemma ShrinkKeepsSound(s: Overlap, t: State, k: nat)
    requires Sound(s, k) && t.rows.Keys <= t.usedIds
    requires forall u :: ActiveOf(t.rows, u, t.clock) <= ActiveOf(s.base.rows, u, s.base.clock)
    ensures Sound(s.(base := t), k)
  {
    hide ActiveOf;
    forall u ensures |ActiveOf(t.rows, u, t.clock)| <= 9 + k {
      SubsetSize(ActiveOf(t.rows, u, t.clock), ActiveOf(s.base.rows, u, s.base.clock));
    }
    forall a | a in s.open ensures CreationSound(t, s.open[a]) {
      var c := s.open[a];
      assert CreationSound(s.base, c);
      SubsetSize(ActiveOf(t.rows, c.user, t.clock) - c.evicted, ActiveOf(s.base.rows, c.user, s.base.clock) - c.evicted);
    }
  }

  /** What the insertion leaves active. */
  lemma CreatedActive(s: State, c: Creation, id: SessionId, token: Token, u: UserId)
    requires id !in s.rows
    ensures ActiveOf(Created(s, c, id, token).rows, u, s.clock)
            == (ActiveOf(s.rows, u, s.clock) - c.evicted) + if u == c.user then {id} else {}
  {
    hide Evicted, Pruned, ActiveOf, Active, Outdated;
    var now := s.clock;
    var rows := Evicted(Pruned(s.rows, now), c.evicted, now);
    var row := Session(c.user, token, now, None, now + TokenLifetime(), None);
    PrunedKeepsActive(s.rows, u, now);
    EvictedCounts(Pruned(s.rows, now), c.evicted, u, now);
    EvictedKeys(s.rows, c.evicted, now);
    FreshIsActive(row, now);
    AddedCounts(rows, id, row, u, now);
  }

  lemma BoundAfterInsert(s: State, t: State, c: Creation, id: SessionId, k: nat)
    requires CreationSound(s, c) && c.others < k && t.clock == s.clock
    requires forall u :: |ActiveOf(s.rows, u, s.clock)| <= 9 + k
    requires forall u :: ActiveOf(t.rows, u, s.clock) == (ActiveOf(s.rows, u, s.clock) - c.evicted) + if u == c.user then {id} else {}
    ensures forall u :: |ActiveOf(t.rows, u, t.clock)| <= 9 + k
  {
    hide ActiveOf;
    forall u ensures |ActiveOf(t.rows, u, t.clock)| <= 9 + k {
      SubsetSize(ActiveOf(s.rows, u, s.clock) - c.evicted, ActiveOf(s.rows, u, s.clock));
    }
  }

  lemma OtherAfterInsert(s: State, t: State, c: Creation, id: SessionId, other: Creation)
    requires CreationSound(s, other) && t.clock == s.clock
    requires forall u :: ActiveOf(t.rows, u, s.clock) == (ActiveOf(s.rows, u, s.clock) - c.evicted) + if u == c.user then {id} else {}
    ensures CreationSound(t, if other.user == c.user then other.(others := other.others + 1) else other)
  {
    hide ActiveOf;
    OthersNotice(ActiveOf(s.rows, other.user, s.clock), c.evicted, other.evicted, id, other.user == c.user);
  }

  lemma InsertKeepsSound(s: Overlap, m: Move, k: nat)
    requires Sound(s, k) && m.Insert? && (m.agent in s.open ==> s.open[m.agent].others < k)
    ensures Sound(Do(s, m), k)
  {
    hide ActiveOf, Evicted, Pruned, CreationSound;
    var t := Do(s, m);
    if t != s {
      var c, now := s.open[m.agent], s.base.clock;
      EvictedKeys(s.base.rows, c.evicted, now);
      forall u ensures ActiveOf(t.base.rows, u, now) == (ActiveOf(s.base.rows, u, now) - c.evicted) + if u == c.user then {m.id} else {} {
        CreatedActive(s.base, c, m.id, m.token, u);
      }
      BoundAfterInsert(s.base, t.base, c, m.id, k);
      forall a | a in t.open ensures CreationSound(t.base, t.open[a]) {
        OtherAfterInsert(s.base, t.base, c, m.id, s.open[a]);
      }
    }
  }

  lemma OthersNotice(active: set<SessionId>, evicted: set<SessionId>, mine: set<SessionId>, id: SessionId, same: bool)
    ensures |((active - evicted) + if same then {id} else {}) - mine| <= |active - mine| + if same then 1 else 0
  {
    SubsetSize((active - evicted) - mine, active - mine);
    SubsetSize(((active - evicted) + {id}) - mine, (active - evicted - mine) + {id});
    assert (active - evicted) + {} == active - evicted;
  }

  lemma ChooseKeepsSound(s: Overlap, m: Move, k: nat)
    requires Sound(s, k) && m.Choose?
    ensures Sound(Do(s, m), k)
  {
    hide ActiveOf;
  }

  /** If no creation of a user sees `k` others commit between its choice and its own commit, the user
      never has more than `9 + k` active sessions. */
  lemma {:induction false} OverlappingCreations(s: Overlap, moves: seq<Move>, k: nat)
    requires s.base.rows == map[] && s.open == map[] && k >= 1 && AtMost(s, moves, k)
    ensures Sound(DoAll(s, moves), k)
  {
    hide Do, Step;
    if moves == [] {
      assert forall u :: ActiveOf(s.base.rows, u, s.base.clock) == {};
    } else {
      var before, m := DoAll(s, moves[..|moves| - 1]), moves[|moves| - 1];
      OverlappingCreations(s, moves[..|moves| - 1], k);
      MoveKeepsSound(before, m, k);
    }
  }

  lemma MoveKeepsSound(s: Overlap, m: Move, k: nat)
    requires Sound(s, k) && (m.Insert? && m.agent in s.open ==> s.open[m.agent].others < k)
    ensures Sound(Do(s, m), k)
  {
    hide Step, Sound;
    match m
    case Serially(event) => SerialKeepsSound(s, event, k);
    case Choose(_, _, _) => ChooseKeepsSound(s, m, k);
    case Insert(_, _, _) => InsertKeepsSound(s, m, k);
    case GiveUp(agent) => GiveUpKeepsSound(s, agent, k);
  }

  lemma SerialKeepsSound(s: Overlap, event: Event, k: nat)
    requires Sound(s, k)
    ensures Sound(Do(s, Serially(event)), k)
  {
    hide Step, ActiveOf;
    if !event.Create? {
      forall u ensures ActiveOf(Step(s.base, event).rows, u, Step(s.base, event).clock) <= ActiveOf(s.base.rows, u, s.base.clock) {
        SerialShrinks(s.base, event, u);
      }
      SerialShrinks(s.base, event, 0);
      ShrinkKeepsSound(s, Step(s.base, event), k);
    }
  }

  lemma GiveUpKeepsSound(s: Overlap, agent: AgentId, k: nat)
    requires Sound(s, k)
    ensures Sound(Do(s, GiveUp(agent)), k)
  {
    hide ActiveOf;
  }
}
