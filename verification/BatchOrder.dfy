/** The goroutines of a batch work on rows and claims of their own, so that their order does not
    matter: every interleaving of the same work has the same outcome. */
module BatchOrder {
  import opened Options
  import opened StorageDeletion
  import opened StorageLaws

  predicate IsWork(e: Event) {
    e.WriteTombstone? || e.RemoveObject? || e.Complete? || e.Fail? || e.Release? || e.Crash?
  }

  // ----- one step touches its own row and claim -----

  /** What a step makes of its worker and row, and whether it fails, records and removes. */
  datatype Effect = Effect(agent: Option<Agent>, row: Option<Row>, fails: bool, records: bool, removes: bool)

  function RowOf(outbox: Outbox, path: Path): Option<Row> {
    if path in outbox then Some(outbox[path]) else None
  }

  function EffectOf(a: Agent, row: Option<Row>, now: Time, e: Event): Effect
    requires a.claim.Some? && IsWork(e)
  {
    var held := row.Some? && row.value.serial == a.claim.value.serial;
    if e.Crash? then Effect(None, row, false, false, false)
    else if e.WriteTombstone? && Working(a, now) && a.stage == Claimed then Effect(Some(a.(stage := Tombstoned)), row, false, true, false)
    else if e.RemoveObject? && Working(a, now) && a.stage == Tombstoned then Effect(Some(a.(stage := Removed)), row, false, false, true)
    else if e.Complete? && Working(a, now) && a.stage == Removed then Effect(None, if held then None else row, false, false, false)
    else if e.Fail? && Working(a, now) then Effect(None, if held then Some(Rescheduled(row.value, now)) else row, true, false, false)
    else if e.Release? && Working(a, now) && a.stage == Claimed && held then Effect(None, Some(Released(row.value, now)), false, false, false)
    else Effect(Some(a), row, false, false, false)
  }

  function Set<K, V>(m: map<K, V>, k: K, v: Option<V>): map<K, V> {
    if v.None? then m - {k} else m[k := v.value]
  }

  function Put(s: State, agent: AgentId, path: Path, f: Effect): State {
    s.(agents := Set(s.agents, agent, f.agent), outbox := Set(s.outbox, path, f.row),
       serial := if f.fails then s.serial + 1 else s.serial,
       objectLedger := if f.records then s.objectLedger + {path} else s.objectLedger,
       objects := if f.removes then s.objects - {path} else s.objects,
       removed := if f.removes then s.removed + {path} else s.removed)
  }

  lemma SetsCommute<K, V>(m: map<K, V>, j: K, v: Option<V>, k: K, w: Option<V>)
    requires j != k
    ensures Set(Set(m, j, v), k, w) == Set(Set(m, k, w), j, v)
    ensures k in Set(m, j, v) <==> k in m
    ensures k in m ==> Set(m, j, v)[k] == m[k]
  {
  }

  lemma StepIsLocal(s: State, e: Event)
    requires IsWork(e)
    ensures e.agent !in s.agents ==> Step(s, e) == s
    ensures e.agent in s.agents && s.agents[e.agent].claim.Some? ==>
              var a := s.agents[e.agent];
              Step(s, e) == Put(s, e.agent, a.path, EffectOf(a, RowOf(s.outbox, a.path), s.clock, e))
  {
    if e.agent !in s.agents {
      assert s.agents - {e.agent} == s.agents;
    } else {
      assert s.agents[e.agent := s.agents[e.agent]] == s.agents;
      var p := s.agents[e.agent].path;
      assert if p in s.outbox then s.outbox[p := s.outbox[p]] == s.outbox else s.outbox - {p} == s.outbox;
    }
  }

  lemma PutsCommute(s: State, a: AgentId, p: Path, f: Effect, b: AgentId, q: Path, g: Effect)
    requires a != b && p != q
    ensures Put(Put(s, a, p, f), b, q, g) == Put(Put(s, b, q, g), a, p, f)
    ensures b in Put(s, a, p, f).agents <==> b in s.agents
    ensures b in s.agents ==> Put(s, a, p, f).agents[b] == s.agents[b]
    ensures RowOf(Put(s, a, p, f).outbox, q) == RowOf(s.outbox, q)
  {
    hide Set;
    SetsCommute(s.agents, a, f.agent, b, g.agent);
    SetsCommute(s.outbox, p, f.row, q, g.row);
  }

  /** The workers hold claims on different paths. */
  predicate Apart(agents: Agents, workers: set<AgentId>) {
    && (forall a | a in workers && a in agents :: agents[a].claim.Some?)
    && (forall a, b | a in workers && b in workers && a in agents && b in agents && a != b :: agents[a].path != agents[b].path)
  }

  predicate WorkOf(events: seq<Event>, workers: set<AgentId>) {
    forall e | e in events :: IsWork(e) && e.agent in workers
  }

  lemma WorkCommutes(s: State, workers: set<AgentId>, d: Event, e: Event)
    requires Apart(s.agents, workers) && IsWork(d) && IsWork(e)
    requires d.agent in workers && e.agent in workers && d.agent != e.agent
    ensures Step(Step(s, d), e) == Step(Step(s, e), d)
  {
    hide Step;
    StepIsLocal(s, d);
    StepIsLocal(s, e);
    StepIsLocal(Step(s, d), e);
    StepIsLocal(Step(s, e), d);
    if d.agent in s.agents && e.agent in s.agents {
      var a, b := s.agents[d.agent], s.agents[e.agent];
      var f, g := EffectOf(a, RowOf(s.outbox, a.path), s.clock, d), EffectOf(b, RowOf(s.outbox, b.path), s.clock, e);
      hide Put, EffectOf, RowOf;
      PutsCommute(s, d.agent, a.path, f, e.agent, b.path, g);
      PutsCommute(s, e.agent, b.path, g, d.agent, a.path, f);
      PutKeepsClock(s, d.agent, a.path, f);
      PutKeepsClock(s, e.agent, b.path, g);
    } else {
      OthersStayAway(s, d, e.agent);
      OthersStayAway(s, e, d.agent);
    }
  }

  lemma PutKeepsClock(s: State, agent: AgentId, path: Path, f: Effect)
    ensures Put(s, agent, path, f).clock == s.clock
  {
  }

  lemma OthersStayAway(s: State, e: Event, other: AgentId)
    requires IsWork(e) && e.agent != other
    ensures other in Step(s, e).agents <==> other in s.agents
  {
  }

  lemma WorkKeepsApart(s: State, workers: set<AgentId>, e: Event)
    requires Apart(s.agents, workers) && IsWork(e)
    ensures Apart(Step(s, e).agents, workers)
  {
    hide Apart;
    var t := Step(s, e);
    assert t.agents.Keys <= s.agents.Keys;
    assert forall a | a in t.agents :: t.agents[a].path == s.agents[a].path && t.agents[a].claim == s.agents[a].claim;
    ApartShrinks(s.agents, t.agents, workers);
  }

  lemma ApartShrinks(before: Agents, after: Agents, workers: set<AgentId>)
    requires Apart(before, workers) && after.Keys <= before.Keys
    requires forall a | a in after :: after[a].path == before[a].path && after[a].claim == before[a].claim
    ensures Apart(after, workers)
  {
  }

  // ----- whole interleavings -----

  /** The part of a worker in an interleaving. */
  function Part(events: seq<Event>, agent: AgentId): seq<Event> {
    if events == [] then []
    else
      var last := events[|events| - 1];
      Part(events[..|events| - 1], agent) + if Does(last, agent) then [last] else []
  }

  predicate Does(e: Event, agent: AgentId) {
    IsWork(e) && e.agent == agent
  }

  predicate LeavesOut(events: seq<Event>, agent: AgentId) {
    forall e | e in events :: !Does(e, agent)
  }

  /** The same work, each worker doing its own part in order. */
  ghost predicate SameParts(a: seq<Event>, b: seq<Event>) {
    forall agent :: Part(a, agent) == Part(b, agent)
  }

  lemma {:induction false} PartAppend(a: seq<Event>, b: seq<Event>, agent: AgentId)
    ensures Part(a + b, agent) == Part(a, agent) + Part(b, agent)
  {
    if b == [] {
      assert a + b == a;
    } else {
      PartAppend(a, b[..|b| - 1], agent);
      assert (a + b)[..|a + b| - 1] == a + b[..|b| - 1];
    }
  }

  lemma {:induction false} RunKeepsApart(s: State, workers: set<AgentId>, events: seq<Event>)
    requires Apart(s.agents, workers) && WorkOf(events, workers)
    ensures Apart(Run(s, events).agents, workers)
  {
    hide Step, Apart;
    if events != [] {
      var n := |events| - 1;
      assert events[n] in events && forall e | e in events[..n] :: e in events;
      RunKeepsApart(s, workers, events[..n]);
      WorkKeepsApart(Run(s, events[..n]), workers, events[n]);
    }
  }

  /** A step can be put off past the others' steps. */
  lemma {:induction false} PutOff(s: State, workers: set<AgentId>, e: Event, rest: seq<Event>)
    requires Apart(s.agents, workers) && IsWork(e) && e.agent in workers && WorkOf(rest, workers)
    requires LeavesOut(rest, e.agent)
    ensures Run(Step(s, e), rest) == Step(Run(s, rest), e)
  {
    hide Step, Apart;
    if rest != [] {
      var n := |rest| - 1;
      var d := rest[n];
      assert d in rest && forall x | x in rest[..n] :: x in rest;
      PutOff(s, workers, e, rest[..n]);
      RunKeepsApart(s, workers, rest[..n]);
      WorkCommutes(Run(s, rest[..n]), workers, e, d);
    }
  }

  /** Where the last step of a worker stands. */
  lemma {:induction false} LastStep(events: seq<Event>, agent: AgentId) returns (k: nat)
    requires Part(events, agent) != []
    ensures k < |events| && Does(events[k], agent) && LeavesOut(events[k + 1..], agent)
  {
    var n := |events| - 1;
    if Does(events[n], agent) {
      k := n;
    } else {
      k := LastStep(events[..n], agent);
      assert events[k + 1..] == events[..n][k + 1..] + [events[n]];
    }
  }

  lemma {:induction false} NoPart(events: seq<Event>, agent: AgentId)
    requires LeavesOut(events, agent)
    ensures Part(events, agent) == []
  {
    if events != [] {
      assert events[|events| - 1] in events && forall d | d in events[..|events| - 1] :: d in events;
      NoPart(events[..|events| - 1], agent);
    }
  }

  lemma PartOne(e: Event, agent: AgentId)
    ensures Part([e], agent) == if Does(e, agent) then [e] else []
  {
    assert [e][..0] == [];
  }

  /** Taking out the last step of a worker. */
  lemma WithoutLast(a: seq<Event>, b: seq<Event>) returns (k: nat)
    requires a != [] && IsWork(a[|a| - 1]) && SameParts(a, b)
    ensures k < |b| && b[k] == a[|a| - 1] && LeavesOut(b[k + 1..], b[k].agent)
    ensures SameParts(a[..|a| - 1], b[..k] + b[k + 1..])
  {
    hide Does;
    var n := |a| - 1;
    var x := a[n];
    DoesOwn(x);
    assert Part(a, x.agent) == Part(b, x.agent);
    k := LastStep(b, x.agent);
    var rest := b[k + 1..];
    assert b == b[..k] + ([b[k]] + rest) && a == a[..n] + [x];
    DoesOne(b[k], x.agent);
    PartsEnd(a[..n], x, b[..k], b[k], rest);
    forall agent ensures Part(a[..n], agent) == Part(b[..k] + rest, agent) {
      assert Part(a, agent) == Part(b, agent);
      PartsWithout(a[..n], x, b[..k], rest, agent);
    }
  }

  lemma PartsEnd(a: seq<Event>, x: Event, b: seq<Event>, y: Event, rest: seq<Event>)
    requires IsWork(x) && IsWork(y) && y.agent == x.agent && LeavesOut(rest, x.agent)
    requires Part(a + [x], x.agent) == Part(b + ([y] + rest), x.agent)
    ensures x == y
  {
    PartAppend(a, [x], x.agent);
    PartAppend(b, [y] + rest, x.agent);
    PartAppend([y], rest, x.agent);
    NoPart(rest, x.agent);
    PartOne(x, x.agent);
    PartOne(y, x.agent);
    LastsAgree(Part(a, x.agent), x, Part(b, x.agent), y);
  }

  lemma PartsWithout(a: seq<Event>, x: Event, b: seq<Event>, rest: seq<Event>, agent: AgentId)
    requires IsWork(x) && LeavesOut(rest, x.agent)
    requires Part(a + [x], agent) == Part(b + ([x] + rest), agent)
    ensures Part(a, agent) == Part(b + rest, agent)
  {
    hide Part, LeavesOut;
    PartAppend(a, [x], agent);
    PartAppend(b, [x] + rest, agent);
    PartAppend([x], rest, agent);
    PartAppend(b, rest, agent);
    PartOne(x, agent);
    if agent == x.agent {
      NoPart(rest, agent);
      LastsAgree(Part(a, agent), x, Part(b, agent), x);
      assert Part(b, agent) + [] == Part(b, agent);
    } else {
      assert Part(a, agent) + [] == Part(a, agent) && [] + Part(rest, agent) == Part(rest, agent);
    }
  }

  lemma LastsAgree(a: seq<Event>, x: Event, b: seq<Event>, y: Event)
    requires a + [x] == b + [y] || a + [x] == b + ([y] + [])
    ensures a == b && x == y
  {
    var c := a + [x];
    assert [y] + [] == [y] && c[..|a|] == a && c[..|b|] == b && c[|a|] == x && c[|b|] == y;
  }

  lemma DoesOwn(e: Event)
    requires IsWork(e)
    ensures Does(e, e.agent)
  {
  }

  lemma DoesOne(e: Event, agent: AgentId)
    requires Does(e, agent)
    ensures IsWork(e) && agent == e.agent
  {
  }

  /** Workers with claims on different rows that do the same parts leave the same state, however
      their steps are interleaved. */
  lemma {:induction false} OrderDoesNotMatter(s: State, workers: set<AgentId>, a: seq<Event>, b: seq<Event>)
    requires Apart(s.agents, workers) && WorkOf(a, workers) && WorkOf(b, workers) && SameParts(a, b)
    ensures Run(s, a) == Run(s, b)
    decreases |a|
  {
    hide Step, Apart, SameParts;
    if a == [] {
      if b != [] { SomethingToDo(b, workers); }
    } else {
      var n := |a| - 1;
      assert a[n] in a && forall e | e in a[..n] :: e in a;
      var k := WithoutLast(a, b);
      var x, rest := b[k], b[k + 1..];
      assert b == b[..k] + ([x] + rest) && forall e | e in b[..k] || e in rest :: e in b;
      OrderDoesNotMatter(s, workers, a[..n], b[..k] + rest);
      RunAppend(s, b[..k], [x] + rest);
      RunAppend(Run(s, b[..k]), [x], rest);
      RunAppend(s, b[..k], rest);
      RunSnoc(Run(s, b[..k]), [], x);
      assert [] + [x] == [x] && Run(Run(s, b[..k]), []) == Run(s, b[..k]);
      RunKeepsApart(s, workers, b[..k]);
      PutOff(Run(s, b[..k]), workers, x, rest);
    }
  }

  lemma SomethingToDo(b: seq<Event>, workers: set<AgentId>)
    requires WorkOf(b, workers) && b != []
    ensures !SameParts([], b)
  {
    var x := b[|b| - 1];
    assert x in b && Part([], x.agent) == [] && Part(b, x.agent) != [];
  }
}
