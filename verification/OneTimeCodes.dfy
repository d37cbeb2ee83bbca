/** One-time codes sent by SMS.  Signing in and confirming an account deletion consume the same
    table, in transactions that lock the code's row; a step is one statement of one of them, so a
    run is any interleaving, with rollbacks anywhere. */
module OneTimeCodes {
  import opened Options

  /** Seconds. */
  type Time = nat
  type Phone = nat
  type Code = nat
  type CodeId = nat
  type AgentId = nat

  function Lifetime(): nat { 300 }
  function MaximumAttempts(): nat { 5 }

  datatype Purpose = Login | AccountDeletion

  /** A row of `sms_login_codes`. */
  datatype Row = Row(phone: Phone, code: Code, createdAt: Time, expiresAt: Time, attempts: nat, consumed: bool)

  /** A verification: its snapshot may have chosen a row, and it may hold the row's lock, having
      read `seen` attempts after it got the lock. */
  datatype Stage = Looking | Waiting(id: CodeId) | Holding(id: CodeId, seen: nat)

  datatype Agent = Agent(phone: Phone, guess: Code, purpose: Purpose, start: Time, stage: Stage)

  /** History: a committed verification of a code. */
  datatype Try = Try(id: CodeId, right: bool, purpose: Purpose)

  type Rows = map<CodeId, Row>
  type Agents = map<AgentId, Agent>

  datatype State = State(clock: Time, rows: Rows, agents: Agents, used: set<CodeId>, log: seq<Try>)

  function Empty(now: Time): State {
    State(now, map[], map[], {}, [])
  }

  predicate Usable(rows: Rows, id: CodeId, phone: Phone, start: Time) {
    id in rows && rows[id].phone == phone && !rows[id].consumed && rows[id].expiresAt > start
  }

  predicate Locked(agents: Agents, id: CodeId) {
    exists a | a in agents :: agents[a].stage.Holding? && agents[a].stage.id == id
  }

  datatype Event =
    | Wait(seconds: nat)
    | Issue(id: CodeId, phone: Phone, code: Code)
    | Cleanup(id: CodeId)
    | Invalidate(id: CodeId)
    | Begin(agent: AgentId, phone: Phone, guess: Code, purpose: Purpose)
    | Choose(agent: AgentId, id: CodeId)
    | Lock(agent: AgentId)
    | Commit(agent: AgentId)
    | Rollback(agent: AgentId)

  function Step(s: State, e: Event): State {
    match e
    case Wait(seconds) => s.(clock := s.clock + seconds)
    case Issue(id, phone, code) =>
      if id in s.used then s
      else s.(rows := s.rows[id := Row(phone, code, s.clock, s.clock + Lifetime(), 0, false)], used := s.used + {id})
    case Cleanup(id) => if Locked(s.agents, id) then s else s.(rows := s.rows - {id})
    case Invalidate(id) =>
      // of the rows older than a new code, one at a time
      if id !in s.rows || Locked(s.agents, id) then s else s.(rows := s.rows[id := s.rows[id].(consumed := true)])
    case Begin(agent, phone, guess, purpose) =>
      if agent in s.agents then s else s.(agents := s.agents[agent := Agent(phone, guess, purpose, s.clock, Looking)])
    case Choose(agent, id) =>
      if agent in s.agents && s.agents[agent].stage.Looking? && Usable(s.rows, id, s.agents[agent].phone, s.agents[agent].start)
      then s.(agents := s.agents[agent := s.agents[agent].(stage := Waiting(id))]) else s
    case Lock(agent) =>
      // once the lock is free the row is read again; it is skipped if it no longer qualifies
      if agent in s.agents && s.agents[agent].stage.Waiting? && !Locked(s.agents, s.agents[agent].stage.id) then
        var a := s.agents[agent];
        s.(agents := s.agents[agent := a.(stage :=
          if Usable(s.rows, a.stage.id, a.phone, a.start) then Holding(a.stage.id, s.rows[a.stage.id].attempts) else Looking)])
      else s
    case Commit(agent) =>
      if agent in s.agents && s.agents[agent].stage.Holding? && s.agents[agent].stage.id in s.rows
      then Verified(s, agent, s.agents[agent].stage.id) else s
    case Rollback(agent) => s.(agents := s.agents - {agent})
  }

  /** Five wrong attempts lock the code; a wrong guess counts, the right one consumes the code. */
  function Verified(s: State, agent: AgentId, id: CodeId): State
    requires agent in s.agents && s.agents[agent].stage.Holding? && id in s.rows
  {
    var a, row := s.agents[agent], s.rows[id];
    if a.stage.seen >= MaximumAttempts() then s.(agents := s.agents - {agent})
    else if a.guess != row.code then
      s.(rows := s.rows[id := row.(attempts := row.attempts + 1)], agents := s.agents - {agent},
         log := s.log + [Try(id, false, a.purpose)])
    else
      s.(rows := s.rows[id := row.(consumed := true)], agents := s.agents - {agent},
         log := s.log + [Try(id, true, a.purpose)])
  }

  function Run(s: State, events: seq<Event>): State {
    if events == [] then s else Step(Run(s, events[..|events| - 1]), events[|events| - 1])
  }

  // ----- the invariant -----

  function Count(log: seq<Try>, id: CodeId, right: bool): nat {
    if log == [] then 0
    else Count(log[..|log| - 1], id, right) + if log[|log| - 1].id == id && log[|log| - 1].right == right then 1 else 0
  }

  /** The table agrees with the history of every code. */
  ghost predicate LogSound(rows: Rows, used: set<CodeId>, log: seq<Try>) {
    && rows.Keys <= used
    && (forall id :: Count(log, id, true) <= 1 && Count(log, id, false) <= MaximumAttempts())
    && (forall id | id !in used :: Count(log, id, true) == 0 && Count(log, id, false) == 0)
    && (forall id | id in rows :: rows[id].attempts == Count(log, id, false) && (Count(log, id, true) == 1 ==> rows[id].consumed))
    && (forall id | id in rows :: rows[id].expiresAt == rows[id].createdAt + 300)
  }

  /** A row's lock has one holder, who has read the row as it is. */
  ghost predicate LocksSound(rows: Rows, agents: Agents) {
    && (forall a | a in agents && agents[a].stage.Holding? :: HoldSound(rows, agents[a]))
    && (forall a, b {:trigger SameLock(agents[a], agents[b])} | a in agents && b in agents && SameLock(agents[a], agents[b]) :: a == b)
  }

  predicate HoldSound(rows: Rows, a: Agent)
    requires a.stage.Holding?
  {
    a.stage.id in rows && !rows[a.stage.id].consumed && rows[a.stage.id].attempts == a.stage.seen
    && rows[a.stage.id].phone == a.phone && a.start < rows[a.stage.id].expiresAt
  }

  predicate SameLock(a: Agent, b: Agent) {
    a.stage.Holding? && b.stage.Holding? && a.stage.id == b.stage.id
  }

  ghost predicate Valid(s: State) {
    LogSound(s.rows, s.used, s.log) && LocksSound(s.rows, s.agents)
  }

  lemma CountSnoc(log: seq<Try>, t: Try, id: CodeId, right: bool)
    ensures Count(log + [t], id, right) == Count(log, id, right) + if t.id == id && t.right == right then 1 else 0
  {
    assert (log + [t])[..|log|] == log;
  }

  /** A row changes only under its lock, if somebody holds it. */
  lemma FreeRowKeepsLocks(rows: Rows, after: Rows, agents: Agents, id: CodeId)
    requires LocksSound(rows, agents) && !Locked(agents, id)
    requires forall i | i in rows && i != id :: i in after && after[i] == rows[i]
    ensures LocksSound(after, agents)
  {
    forall a | a in agents && agents[a].stage.Holding? ensures HoldSound(after, agents[a]) {
      assert HoldSound(rows, agents[a]);
    }
  }

  lemma TableStepKeepsValid(s: State, e: Event)
    requires Valid(s) && (e.Wait? || e.Issue? || e.Cleanup? || e.Invalidate?)
    ensures Valid(Step(s, e))
  {
    var t := Step(s, e);
    if t != s && !e.Wait? {
      if e.Issue? {
        forall a | a in s.agents && s.agents[a].stage.Holding? ensures s.agents[a].stage.id != e.id {
          assert HoldSound(s.rows, s.agents[a]);
        }
      }
      FreeRowKeepsLocks(s.rows, t.rows, s.agents, e.id);
    }
  }

  lemma AgentStepKeepsValid(s: State, e: Event)
    requires Valid(s) && (e.Begin? || e.Choose? || e.Lock? || e.Rollback?)
    ensures Valid(Step(s, e))
  {
    var t := Step(s, e);
    forall a, b | a in t.agents && b in t.agents && SameLock(t.agents[a], t.agents[b]) ensures a == b {
      assert a in s.agents && b in s.agents ==> !SameLock(s.agents[a], s.agents[b]) || a == b;
    }
    forall a | a in t.agents && t.agents[a].stage.Holding? ensures HoldSound(t.rows, t.agents[a]) {
      assert a in s.agents && s.agents[a].stage.Holding? ==> HoldSound(s.rows, s.agents[a]);
    }
  }

  lemma CommitKeepsValid(s: State, agent: AgentId)
    requires Valid(s)
    ensures Valid(Step(s, Commit(agent)))
  {
    var t := Step(s, Commit(agent));
    if t != s {
      var id := s.agents[agent].stage.id;
      assert HoldSound(s.rows, s.agents[agent]);
      forall a | a in t.agents && t.agents[a].stage.Holding? ensures HoldSound(t.rows, t.agents[a]) {
        assert HoldSound(s.rows, s.agents[a]);
        assert !SameLock(s.agents[a], s.agents[agent]);
      }
      assert LocksSound(t.rows, t.agents) by {
        assert forall a, b | a in t.agents && b in t.agents && SameLock(t.agents[a], t.agents[b]) :: SameLock(s.agents[a], s.agents[b]);
      }
      LogKeepsSound(s, t, id);
    }
  }

  lemma LogKeepsSound(s: State, t: State, id: CodeId)
    requires LogSound(s.rows, s.used, s.log) && id in s.rows && !s.rows[id].consumed
    requires t.used == s.used
    requires || (t.rows == s.rows && t.log == s.log)
             || (exists p :: t.log == s.log + [Try(id, true, p)] && t.rows == s.rows[id := s.rows[id].(consumed := true)])
             || (s.rows[id].attempts < MaximumAttempts()
                 && exists p :: t.log == s.log + [Try(id, false, p)] && t.rows == s.rows[id := s.rows[id].(attempts := s.rows[id].attempts + 1)])
    ensures LogSound(t.rows, t.used, t.log)
  {
    if t.log != s.log {
      var entry := t.log[|s.log|];
      forall i, right ensures Count(t.log, i, right) == Count(s.log, i, right) + if entry.id == i && entry.right == right then 1 else 0 {
        CountSnoc(s.log, entry, i, right);
      }
    }
  }

  lemma StepKeepsValid(s: State, e: Event)
    requires Valid(s)
    ensures Valid(Step(s, e))
  {
    hide Step, Valid;
    if e.Commit? {
      CommitKeepsValid(s, e.agent);
    } else if e.Begin? || e.Choose? || e.Lock? || e.Rollback? {
      AgentStepKeepsValid(s, e);
    } else {
      TableStepKeepsValid(s, e);
    }
  }

  lemma {:induction false} RunKeepsValid(s: State, events: seq<Event>)
    requires Valid(s)
    ensures Valid(Run(s, events))
  {
    hide Step, Valid;
    if events != [] {
      RunKeepsValid(s, events[..|events| - 1]);
      StepKeepsValid(Run(s, events[..|events| - 1]), events[|events| - 1]);
    }
  }

  // ----- what it is for -----

  /** In every interleaving of both kinds of verification: a code succeeds at most once in total
      and collects at most five wrong attempts, and its counter is exact. */
  lemma CodeIsUsedOnce(now: Time, events: seq<Event>, id: CodeId)
    ensures var s := Run(Empty(now), events);
            && Count(s.log, id, true) <= 1
            && Count(s.log, id, false) <= 5
            && (id in s.rows ==> s.rows[id].attempts == Count(s.log, id, false))
  {
    RunKeepsValid(Empty(now), events);
  }

  /** A verification is recorded only for an unconsumed code of its phone number that it began within
      300 seconds of, and that has neither succeeded nor collected five wrong attempts before; it is
      right exactly when the guess is the code. */
  lemma OnlyFreshCodesAreTried(s: State, e: Event)
    requires Valid(s) && Step(s, e).log != s.log
    ensures e.Commit? && e.agent in s.agents && s.agents[e.agent].stage.Holding? && s.agents[e.agent].stage.id in s.rows
    ensures var a := s.agents[e.agent]; var id := a.stage.id;
            && Step(s, e).log == s.log + [Try(id, a.guess == s.rows[id].code, a.purpose)]
            && a.phone == s.rows[id].phone && !s.rows[id].consumed
            && a.start < s.rows[id].expiresAt == s.rows[id].createdAt + 300
            && Count(s.log, id, true) == 0 && Count(s.log, id, false) < 5
  {
    assert HoldSound(s.rows, s.agents[e.agent]);
  }

  /** The same in every interleaving: no code is tried that had expired when its verification began. */
  lemma {:induction false} ExpiredCodesAreNotTried(now: Time, events: seq<Event>, e: Event)
    requires Step(Run(Empty(now), events), e).log != Run(Empty(now), events).log
    ensures var s := Run(Empty(now), events);
            && e.Commit? && e.agent in s.agents && s.agents[e.agent].stage.Holding? && s.agents[e.agent].stage.id in s.rows
            && s.agents[e.agent].start < s.rows[s.agents[e.agent].stage.id].createdAt + 300
  {
    hide Run, Step;
    EmptyIsValid(now);
    RunKeepsValid(Empty(now), events);
    OnlyFreshCodesAreTried(Run(Empty(now), events), e);
  }

  lemma EmptyIsValid(now: Time)
    ensures Valid(Empty(now))
  {
  }

  /** What the steps of a verification and of the request for a code leave, column by column. */
  lemma CodeRows(s: State, id: CodeId, phone: Phone, code: Code, agent: AgentId)
    ensures Step(s, Issue(id, phone, code)) ==
            if id in s.used then s
            else s.(rows := s.rows[id := Row(phone, code, s.clock, s.clock + 300, 0, false)], used := s.used + {id})
    ensures !(exists a :: a in s.agents && s.agents[a].stage.Holding? && s.agents[a].stage.id == id) ==>
              && Step(s, Cleanup(id)) == s.(rows := s.rows - {id})
              && (id in s.rows ==> Step(s, Invalidate(id)) == s.(rows := s.rows[id := s.rows[id].(consumed := true)]))
    ensures agent !in s.agents ==>
              forall purpose :: Step(s, Begin(agent, phone, code, purpose)) ==
                                s.(agents := s.agents[agent := Agent(phone, code, purpose, s.clock, Looking)])
    ensures agent in s.agents && s.agents[agent].stage == Looking ==>
              Step(s, Choose(agent, id)) ==
              if id in s.rows && s.rows[id].phone == s.agents[agent].phone && !s.rows[id].consumed && s.agents[agent].start < s.rows[id].expiresAt
              then s.(agents := s.agents[agent := s.agents[agent].(stage := Waiting(id))]) else s
    ensures agent in s.agents && s.agents[agent].stage == Waiting(id) ==>
              Step(s, Lock(agent)) ==
              if exists other :: other in s.agents && s.agents[other].stage.Holding? && s.agents[other].stage.id == id then s
              else
                s.(agents := s.agents[agent := s.agents[agent].(stage :=
                  if id in s.rows && s.rows[id].phone == s.agents[agent].phone && !s.rows[id].consumed && s.agents[agent].start < s.rows[id].expiresAt
                  then Holding(id, s.rows[id].attempts) else Looking)])
    ensures agent in s.agents && s.agents[agent].stage.Holding? && s.agents[agent].stage.id == id && id in s.rows ==>
              var a, row, agents := s.agents[agent], s.rows[id], s.agents - {agent};
              Step(s, Commit(agent)) ==
              if a.stage.seen >= 5 then s.(agents := agents)
              else if a.guess == row.code
              then s.(rows := s.rows[id := row.(consumed := true)], agents := agents, log := s.log + [Try(id, true, a.purpose)])
              else s.(rows := s.rows[id := row.(attempts := row.attempts + 1)], agents := agents, log := s.log + [Try(id, false, a.purpose)])
  {
  }

  /** After success, five wrong attempts, invalidation or removal, nothing is ever recorded for the
      code again. */
  predicate Finished(s: State, id: CodeId) {
    && id in s.used
    && (id in s.rows ==> s.rows[id].consumed || s.rows[id].attempts >= 5)
  }

  lemma FinishedStays(s: State, e: Event, id: CodeId)
    requires Valid(s) && Finished(s, id)
    ensures Finished(Step(s, e), id)
    ensures forall right :: Count(Step(s, e).log, id, right) == Count(s.log, id, right)
  {
    var t := Step(s, e);
    if t.log != s.log {
      OnlyFreshCodesAreTried(s, e);
      forall right ensures Count(t.log, id, right) == Count(s.log, id, right) {
        assert HoldSound(s.rows, s.agents[e.agent]);
        CountSnoc(s.log, t.log[|s.log|], id, right);
      }
    }
  }

  lemma {:induction false} FinishedForever(s: State, events: seq<Event>, id: CodeId)
    requires Valid(s) && Finished(s, id)
    ensures Valid(Run(s, events)) && Finished(Run(s, events), id)
    ensures forall right :: Count(Run(s, events).log, id, right) == Count(s.log, id, right)
  {
    hide Step;
    if events != [] {
      var before := Run(s, events[..|events| - 1]);
      FinishedForever(s, events[..|events| - 1], id);
      StepKeepsValid(before, events[|events| - 1]);
      FinishedStays(before, events[|events| - 1], id);
    }
  }

  // ----- the table, when verifications do not overlap -----

  datatype Verdict = Success | NoCode | TooManyAttempts | WrongCode

  class CodeTable {
    var clock: Time
    var rows: Rows
    var used: set<CodeId>
    var log: seq<Try>

    ghost function Abs(): State
      reads this
    {
      State(clock, rows, map[], used, log)
    }

    constructor (now: Time)
      ensures Abs() == Empty(now) && Valid(Abs())
    {
      clock, rows, used, log := now, map[], {}, [];
    }

    /** The newest usable code of the phone number. */
    method Newest(phone: Phone) returns (found: Option<CodeId>)
      ensures found.Some? ==> Usable(rows, found.value, phone, clock)
                              && forall i | Usable(rows, i, phone, clock) :: rows[i].createdAt <= rows[found.value].createdAt
      ensures found.None? ==> forall i :: !Usable(rows, i, phone, clock)
      ensures found.Some? ==> found.value in rows && rows[found.value].phone == phone && !rows[found.value].consumed
                              && clock < rows[found.value].expiresAt
      ensures forall i | i in rows && rows[i].phone == phone && !rows[i].consumed && clock < rows[i].expiresAt ::
                found.Some? && rows[i].createdAt <= rows[found.value].createdAt
    {
      var rest := set i | i in rows && rows[i].phone == phone && !rows[i].consumed && rows[i].expiresAt > clock;
      ghost var all := rest;
      assert forall i :: Usable(rows, i, phone, clock) <==> i in all;
      found := None;
      while rest != {}
        invariant rest <= all && (found.None? ==> rest == all)
        invariant found.Some? ==> found.value in all && forall i | i in all && i !in rest :: rows[i].createdAt <= rows[found.value].createdAt
        decreases rest
      {
        var i :| i in rest;
        if found.None? || rows[i].createdAt > rows[found.value].createdAt { found := Some(i); }
        rest := rest - {i};
      }
      assert forall i | i in rows && rows[i].phone == phone && !rows[i].consumed && clock < rows[i].expiresAt :: i in all;
    }

    /** `VerifySMSCode` up to the user and invitations, and `VerifyAccountDeletionSMSCode`. */
    method Verify(agent: AgentId, phone: Phone, guess: Code, purpose: Purpose) returns (v: Verdict, id: Option<CodeId>)
      requires Valid(Abs())
      modifies this
      ensures Valid(Abs())
      ensures id.Some? ==> Usable(old(rows), id.value, phone, clock)
      ensures id.Some? ==> forall i | Usable(old(rows), i, phone, clock) :: old(rows)[i].createdAt <= old(rows)[id.value].createdAt
      ensures Abs() == if id.None? then old(Abs())
                       else Run(old(Abs()), [Begin(agent, phone, guess, purpose), Choose(agent, id.value), Lock(agent), Commit(agent)])
      ensures match v
              case NoCode => id.None? && forall i :: !Usable(old(rows), i, phone, clock)
              case TooManyAttempts => id.Some? && old(rows)[id.value].attempts >= 5 && rows == old(rows)
              case WrongCode => id.Some? && guess != old(rows)[id.value].code && old(rows)[id.value].attempts < 5
                                && rows == old(rows)[id.value := old(rows)[id.value].(attempts := old(rows)[id.value].attempts + 1)]
              case Success => id.Some? && guess == old(rows)[id.value].code && old(rows)[id.value].attempts < 5
                              && rows == old(rows)[id.value := old(rows)[id.value].(consumed := true)]
      ensures v == NoCode <==> forall i | i in old(rows) && old(rows)[i].phone == phone && !old(rows)[i].consumed :: old(rows)[i].expiresAt <= clock
      ensures v == NoCode <==> id.None?
      ensures id.Some? ==> id.value in old(rows) && old(rows)[id.value].phone == phone && !old(rows)[id.value].consumed
                           && clock < old(rows)[id.value].expiresAt == old(rows)[id.value].createdAt + 300
    {
      id := Newest(phone);
      if id.None? { return NoCode, id; }
      SerialVerification(Abs(), agent, phone, guess, purpose, id.value);
      var row := rows[id.value];
      if row.attempts >= MaximumAttempts() { return TooManyAttempts, id; }
      if guess != row.code {
        rows := rows[id.value := row.(attempts := row.attempts + 1)];
        log := log + [Try(id.value, false, purpose)];
        return WrongCode, id;
      }
      rows := rows[id.value := row.(consumed := true)];
      log := log + [Try(id.value, true, purpose)];
      v := Success;
    }
  }

  /** The outcome of a verification that nobody overlaps. */
  function VerifiedAlone(s: State, guess: Code, purpose: Purpose, id: CodeId): State
    requires id in s.rows
  {
    var row := s.rows[id];
    if row.attempts >= MaximumAttempts() then s
    else if guess != row.code then
      s.(rows := s.rows[id := row.(attempts := row.attempts + 1)], log := s.log + [Try(id, false, purpose)])
    else s.(rows := s.rows[id := row.(consumed := true)], log := s.log + [Try(id, true, purpose)])
  }

  lemma SerialVerification(s: State, agent: AgentId, phone: Phone, guess: Code, purpose: Purpose, id: CodeId)
    requires Valid(s) && s.agents == map[] && Usable(s.rows, id, phone, s.clock)
    ensures var t := Run(s, [Begin(agent, phone, guess, purpose), Choose(agent, id), Lock(agent), Commit(agent)]);
            Valid(t) && t == VerifiedAlone(s, guess, purpose, id)
  {
    hide Valid, Verified;
    var a := Agent(phone, guess, purpose, s.clock, Looking);
    var events := [Begin(agent, phone, guess, purpose), Choose(agent, id), Lock(agent), Commit(agent)];
    FourSteps(s, events[0], events[1], events[2], events[3]);
    var s1 := Step(s, events[0]);
    assert s1 == s.(agents := map[agent := a]);
    var s2 := Step(s1, events[1]);
    assert s2 == s.(agents := map[agent := a.(stage := Waiting(id))]);
    var s3 := Step(s2, events[2]);
    assert s3 == s.(agents := map[agent := a.(stage := Holding(id, s.rows[id].attempts))]);
    CommitAlone(s, agent, s3.agents[agent], id);
    RunKeepsValid(s, events);
  }

  lemma CommitAlone(s: State, agent: AgentId, a: Agent, id: CodeId)
    requires s.agents == map[] && id in s.rows && a.stage == Holding(id, s.rows[id].attempts)
    ensures Step(s.(agents := map[agent := a]), Commit(agent)) == VerifiedAlone(s, a.guess, a.purpose, id)
  {
    var none := map[agent := a] - {agent};
    assert none == map[];
  }

  lemma FourSteps(s: State, a: Event, b: Event, c: Event, d: Event)
    ensures Run(s, [a, b, c, d]) == Step(Step(Step(Step(s, a), b), c), d)
  {
    hide Step;
    assert [a, b, c, d][..3] == [a, b, c] && [a, b, c][..2] == [a, b] && [a, b][..1] == [a] && [a][..0] == [];
    assert Run(s, [a, b]) == Step(Run(s, [a]), b) && Run(s, [a]) == Step(Run(s, []), a);
  }
}
