/** The file tables, bucket and ledger as mutable state, with the request handlers and the worker
    that change them.  The contracts show each to be a run of protocol steps, so that what holds of
    every run holds of them. */
module DeletionWorker {
  import opened Options
  import opened StorageDeletion
  import opened StorageLaws
  import opened BatchOrder

  function BatchSize(): nat { 10 }

  datatype Item = Item(path: Path, attempts: nat)

  /** What happens to a worker's object: whether the tombstone is written, the object removed, and
      the outbox updated afterwards. */
  datatype Luck = Luck(journals: bool, removes: bool, updates: bool)

  predicate Due(row: Row, now: Time) {
    row.availableAt <= now && (row.lockedUntil.None? || row.lockedUntil.value <= now)
  }

  /** The rows that a worker looks for are exactly those that a claim takes. */
  lemma DueIsClaimable(s: State, path: Path, agent: AgentId)
    requires path in s.outbox && agent !in s.agents
    ensures Due(s.outbox[path], s.clock) <==> agent in Step(s, ClaimRow(path, agent)).agents
    ensures Due(s.outbox[path], s.clock) <==>
              s.outbox[path].availableAt <= s.clock && (s.outbox[path].lockedUntil == None || s.outbox[path].lockedUntil.value <= s.clock)
  {
  }

  lemma RunNone(s: State)
    ensures Run(s, []) == s
  {
  }

  lemma RunOne(s: State, e: Event)
    ensures Run(s, [e]) == Step(s, e)
  {
    hide Step;
    assert [e][..0] == [] && Run(s, []) == s;
  }

  lemma RunThree(s: State, a: Event, b: Event, c: Event)
    ensures Run(s, [a, b]) == Step(Step(s, a), b) && Run(s, [a, b, c]) == Step(Step(Step(s, a), b), c)
  {
    hide Step;
    RunOne(s, a);
    assert [a, b, c][..2] == [a, b] && [a, b][..1] == [a];
  }

  lemma RowsMarked(s: State, ids: set<FileId>)
    ensures var gone := Undeleted(s.files, ids); var paths := Paths(s.files, gone);
            Step(s, SoftDelete(ids)) ==
              s.(files := map f | f in s.files :: if f in gone then s.files[f].(deleted := true) else s.files[f],
                 outbox := Enqueue(s.outbox, paths, s.serial, s.clock), serial := s.serial + 1, retired := s.retired + paths)
  {
  }

  lemma AccountRowsGone(s: State, user: UserId)
    requires user in s.users && user in s.accountLedger
    ensures var ids := FilesOf(s.files, {user}); var paths := Paths(s.files, ids);
            Step(s, CommitAccountDeletion(user)) ==
              s.(files := s.files - ids,
                 outbox := Enqueue(s.outbox, paths, s.serial, s.clock), serial := s.serial + 1, retired := s.retired + paths,
                 users := s.users - {user}, deletedAccounts := s.deletedAccounts + {user})
  {
  }

  lemma DeleteSteps(s: State, agent: AgentId)
    requires agent in s.agents && Working(s.agents[agent], s.clock) && s.agents[agent].stage == Claimed
    ensures var a := s.agents[agent]; var t := Step(s, WriteTombstone(agent));
            && t == s.(objectLedger := s.objectLedger + {a.path}, agents := s.agents[agent := a.(stage := Tombstoned)])
            && Step(t, RemoveObject(agent)) ==
               s.(objectLedger := s.objectLedger + {a.path}, objects := s.objects - {a.path}, removed := s.removed + {a.path},
                  agents := s.agents[agent := a.(stage := Removed)])
  {
    var a, t := s.agents[agent], Step(s, WriteTombstone(agent));
    assert t.agents[agent := a.(stage := Removed)] == s.agents[agent := a.(stage := Removed)];
  }

  lemma EndSteps(s: State, agent: AgentId)
    requires agent in s.agents && Working(s.agents[agent], s.clock) && Holds(s.outbox, s.agents[agent])
    ensures var path := s.agents[agent].path;
            && Step(s, Crash(agent)) == s.(agents := s.agents - {agent})
            && Step(s, Fail(agent)) == s.(outbox := s.outbox[path := Rescheduled(s.outbox[path], s.clock)],
                                          serial := s.serial + 1, agents := s.agents - {agent})
            && (s.agents[agent].stage == Removed ==>
                  Step(s, Complete(agent)) == s.(outbox := s.outbox - {path}, agents := s.agents - {agent}))
            && (s.agents[agent].stage == Claimed ==>
                  Step(s, Release(agent)) == s.(outbox := s.outbox[path := Released(s.outbox[path], s.clock)], agents := s.agents - {agent}))
  {
  }

  /** The last event of a worker on its row. */
  function LastEvent(agent: AgentId, luck: Luck): Event {
    if !luck.updates then Crash(agent) else if luck.journals && luck.removes then Complete(agent) else Fail(agent)
  }

  /** The events of one worker on its claimed row. */
  function WorkEvents(agent: AgentId, luck: Luck): seq<Event> {
    if !luck.journals then [LastEvent(agent, luck)]
    else if !luck.removes then [WriteTombstone(agent), LastEvent(agent, luck)]
    else [WriteTombstone(agent), RemoveObject(agent), LastEvent(agent, luck)]
  }

  /** The delay doubles from five seconds and settles at an hour with the eleventh attempt. */
  lemma RetryDelayGrows(attempts: nat)
    ensures RetryDelay(0) == 5
    ensures RetryDelay(attempts + 1) == if attempts < 9 then 2 * RetryDelay(attempts) else 3600
    ensures 5 <= RetryDelay(attempts) <= 3600 && (RetryDelay(attempts) == 3600 <==> attempts >= 10)
  {
    assert Power2(1) == 2 && Power2(2) == 4 && Power2(3) == 8 && Power2(4) == 16 && Power2(5) == 32;
    assert Power2(6) == 64 && Power2(7) == 128 && Power2(8) == 256 && Power2(9) == 512 && Power2(10) == 1024;
  }

  function ClaimEvents(items: seq<Item>, workers: seq<AgentId>): seq<Event>
    requires |workers| == |items|
  {
    seq(|items|, k requires 0 <= k < |items| => ClaimRow(items[k].path, workers[k]))
  }

  lemma ClaimEventsGrow(items: seq<Item>, workers: seq<AgentId>, item: Item, agent: AgentId)
    requires |workers| == |items|
    ensures ClaimEvents([], []) == []
    ensures ClaimEvents(items + [item], workers + [agent]) == ClaimEvents(items, workers) + [ClaimRow(item.path, agent)]
  {
  }

  function RowEvents(agent: AgentId, luck: Luck, stopped: bool): seq<Event> {
    if stopped then [Release(agent)] else WorkEvents(agent, luck)
  }

  /** The work on the first `n` claimed rows, up to `stopAfter` of them; the others are released. */
  function PassEvents(items: seq<Item>, workers: seq<AgentId>, luck: Path -> Luck, stopAfter: nat, n: nat): seq<Event>
    requires |workers| == |items| && n <= |items|
  {
    if n == 0 then []
    else PassEvents(items, workers, luck, stopAfter, n - 1)
         + RowEvents(workers[n - 1], luck(items[n - 1].path), n - 1 >= stopAfter)
  }

  lemma PassStart(items: seq<Item>, workers: seq<AgentId>, luck: Path -> Luck, stopAfter: nat)
    requires |workers| == |items|
    ensures PassEvents(items, workers, luck, stopAfter, 0) == []
  {
  }

  lemma PassStep(items: seq<Item>, workers: seq<AgentId>, luck: Path -> Luck, stopAfter: nat, k: nat)
    requires |workers| == |items| && k < |items|
    ensures PassEvents(items, workers, luck, stopAfter, k + 1)
            == PassEvents(items, workers, luck, stopAfter, k) + RowEvents(workers[k], luck(items[k].path), k >= stopAfter)
  {
  }

  function Members(workers: seq<AgentId>): set<AgentId> {
    set a | a in workers
  }

  /** The same work on the same rows, with the steps of different rows in any order. */
  ghost predicate Interleaves(events: seq<Event>, items: seq<Item>, workers: seq<AgentId>, luck: Path -> Luck, stopAfter: nat)
    requires |workers| == |items|
  {
    WorkOf(events, Members(workers)) && SameParts(PassEvents(items, workers, luck, stopAfter, |items|), events)
  }

  lemma {:induction false} PassIsWork(items: seq<Item>, workers: seq<AgentId>, luck: Path -> Luck, stopAfter: nat, n: nat)
    requires |workers| == |items| && n <= |items|
    ensures WorkOf(PassEvents(items, workers, luck, stopAfter, n), Members(workers))
  {
    hide RowEvents;
    if n > 0 {
      PassIsWork(items, workers, luck, stopAfter, n - 1);
      RowIsWork(workers, n - 1, luck(items[n - 1].path), n - 1 >= stopAfter);
    }
  }

  lemma RowIsWork(workers: seq<AgentId>, k: nat, luck: Luck, stopped: bool)
    requires k < |workers|
    ensures WorkOf(RowEvents(workers[k], luck, stopped), Members(workers))
  {
  }

  lemma WorkersApart(agents: Agents, items: seq<Item>, workers: seq<AgentId>)
    requires Distinct(items, workers)
    requires forall k: nat | k < |items| :: workers[k] in agents && agents[workers[k]].path == items[k].path && agents[workers[k]].claim.Some?
    ensures Apart(agents, Members(workers))
  {
  }

  lemma AnyInterleaving(s: State, events: seq<Event>, items: seq<Item>, workers: seq<AgentId>, luck: Path -> Luck, stopAfter: nat)
    requires |workers| == |items| && Apart(s.agents, Members(workers))
    requires Interleaves(events, items, workers, luck, stopAfter)
    ensures Run(s, events) == Run(s, PassEvents(items, workers, luck, stopAfter, |items|))
  {
    hide Run, Apart;
    PassIsWork(items, workers, luck, stopAfter, |items|);
    OrderDoesNotMatter(s, Members(workers), PassEvents(items, workers, luck, stopAfter, |items|), events);
  }

  class FileStore {
    var clock: Time
    var users: set<UserId>
    var files: Files
    var outbox: Outbox
    var serial: nat
    var objects: set<Path>
    var accountLedger: set<UserId>
    var objectLedger: set<Path>
    ghost var uploads: set<Path>
    ghost var agents: Agents
    ghost var usedPaths: set<Path>
    ghost var usedUsers: set<UserId>
    ghost var retired: set<Path>
    ghost var removed: set<Path>
    ghost var deletedAccounts: set<UserId>

    ghost function Abs(): State
      reads this
    {
      State(clock, users, files, outbox, serial, objects, accountLedger, objectLedger,
            uploads, agents, usedPaths, usedUsers, retired, removed, deletedAccounts)
    }

    constructor (now: Time)
      ensures Abs() == Empty(now)
    {
      clock, users, files, outbox, serial, objects := now, {}, map[], map[], 0, {};
      accountLedger, objectLedger := {}, {};
      uploads, agents, usedPaths, usedUsers, retired, removed, deletedAccounts := {}, map[], {}, {}, {}, {}, {};
    }

    // ----- request handlers -----

    /** Marks rows deleted and lists the paths of those that were not deleted before. */
    method MarkDeleted(ids: seq<FileId>) returns (rows: Files, paths: set<Path>)
      ensures var gone := Undeleted(files, set i | i in ids);
              && paths == Paths(files, gone)
              && rows == map f | f in files :: if f in gone then files[f].(deleted := true) else files[f]
    {
      rows, paths := files, {};
      for k := 0 to |ids|
        invariant rows.Keys == files.Keys
        invariant forall f | f in files :: rows[f] == if f in ids[..k] && !files[f].deleted then files[f].(deleted := true) else files[f]
        invariant paths == set f | f in files && f in ids[..k] && !files[f].deleted :: files[f].path
      {
        var id := ids[k];
        assert ids[..k + 1] == ids[..k] + [id];
        if id in rows && !rows[id].deleted {
          paths := paths + {rows[id].path};
          rows := rows[id := rows[id].(deleted := true)];
        }
      }
      assert ids[..|ids|] == ids;
    }

    /** `archivePreviousProjectCovers` and `deleteFileMetadata`: marks the rows and queues their
        paths, in one transaction. */
    method SoftDeleteFiles(ids: seq<FileId>)
      modifies this
      ensures Abs() == Step(old(Abs()), SoftDelete(set i | i in ids))
    {
      hide Step, Enqueue, Undeleted, Paths;
      RowsMarked(Abs(), set i | i in ids);
      var rows, paths := MarkDeleted(ids);
      files := rows;
      EnqueueAll(paths);
      serial := serial + 1;
      retired := retired + paths;
    }

    /** `enqueueStorageDeletion` for each path. */
    method EnqueueAll(paths: set<Path>)
      modifies this`outbox
      ensures outbox == Enqueue(old(outbox), paths, serial, clock)
    {
      var rest := paths;
      while rest != {}
        invariant rest <= paths && outbox == Enqueue(old(outbox), paths - rest, serial, clock)
        decreases rest
      {
        var p :| p in rest;
        if p !in outbox { outbox := outbox[p := Row(serial, 0, clock, None)]; }
        rest := rest - {p};
      }
      assert paths - rest == paths;
    }

    /** The statements of an account deletion that take effect when it commits. */
    method DeleteRows(user: UserId)
      requires user in users && user in accountLedger
      modifies this
      ensures Abs() == Step(old(Abs()), CommitAccountDeletion(user))
    {
      hide Step, Enqueue, FilesOf, Paths;
      AccountRowsGone(Abs(), user);
      var ids := FilesOf(files, {user});
      var paths := Paths(files, ids);
      files := files - ids;
      EnqueueAll(paths);
      serial := serial + 1;
      retired := retired + paths;
      users := users - {user};
      deletedAccounts := deletedAccounts + {user};
    }

    /** `DeleteAccount`: the ledger is written before the commit; a failure there rolls back, and a
        failing commit leaves an entry without a deletion. */
    method DeleteAccount(user: UserId, journals: bool, commits: bool) returns (deleted: bool)
      modifies this
      ensures deleted <==> old(user in users) && journals && commits
      ensures Abs() == if old(user !in users) || !journals then old(Abs())
                       else if !commits then Step(old(Abs()), JournalAccount(user))
                       else Step(Step(old(Abs()), JournalAccount(user)), CommitAccountDeletion(user))
    {
      if user !in users || !journals { return false; }
      accountLedger := accountLedger + {user};
      assert Abs() == Step(old(Abs()), JournalAccount(user));
      if !commits { return false; }
      hide Step;
      DeleteRows(user);
      deleted := true;
    }

    // ----- the worker -----

    /** The row due for longest. */
    method OldestDue() returns (path: Option<Path>)
      ensures path.None? ==> forall p | p in outbox :: !Due(outbox[p], clock)
      ensures path.Some? ==> path.value in outbox && Due(outbox[path.value], clock)
      ensures path.Some? ==> forall p | p in outbox && Due(outbox[p], clock) :: outbox[path.value].availableAt <= outbox[p].availableAt
    {
      path := None;
      var rest := outbox.Keys;
      while rest != {}
        invariant rest <= outbox.Keys
        invariant path.None? ==> forall p | p in outbox && p !in rest :: !Due(outbox[p], clock)
        invariant path.Some? ==> path.value in outbox && Due(outbox[path.value], clock)
        invariant path.Some? ==> forall p | p in outbox && p !in rest && Due(outbox[p], clock) :: outbox[path.value].availableAt <= outbox[p].availableAt
        decreases rest
      {
        var p :| p in rest;
        if outbox[p].availableAt <= clock && (outbox[p].lockedUntil.None? || outbox[p].lockedUntil.value <= clock)
           && (path.None? || outbox[p].availableAt < outbox[path.value].availableAt) {
          path := Some(p);
        }
        rest := rest - {p};
      }
    }

    /** Claims one row for the worker `agent`. */
    method ClaimOne(path: Path, ghost agent: AgentId) returns (item: Item)
      requires path in outbox && Due(outbox[path], clock) && agent !in agents
      modifies this`outbox, this`agents
      ensures Abs() == Step(old(Abs()), ClaimRow(path, agent))
      ensures item == Item(path, old(outbox)[path].attempts) && Mine(item, agent)
      ensures forall p | p in old(outbox) && p != path :: p in outbox && outbox[p] == old(outbox)[p]
      ensures forall a | a in old(agents) :: a in agents && agents[a] == old(agents)[a]
      ensures agents.Keys == old(agents).Keys + {agent} && outbox.Keys == old(outbox).Keys
      ensures !Due(outbox[path], clock) && outbox[path].availableAt == old(outbox)[path].availableAt
    {
      item := Item(path, outbox[path].attempts);
      agents := agents[agent := Agent(path, Claimed, Some(Claim(outbox[path].serial, clock)))];
      outbox := outbox[path := outbox[path].(lockedUntil := Some(clock + Lease()))];
    }

    /** The worker `agent` has claimed the row just now and not begun to work on it. */
    ghost predicate Mine(item: Item, agent: AgentId)
      reads this
    {
      && agent in agents && item.path in outbox
      && agents[agent] == Agent(item.path, Claimed, Some(Claim(outbox[item.path].serial, clock)))
      && outbox[item.path].attempts == item.attempts
    }

    /** No row that is still due has waited longer. */
    predicate WaitedLongest(path: Path)
      reads this
    {
      path in outbox && forall p | p in outbox && Due(outbox[p], clock) :: outbox[path].availableAt <= outbox[p].availableAt
    }

    /** `claimPendingDeletions`: at most ten due rows, the longest waiting first. */
    method ClaimBatch(ghost first: AgentId) returns (items: seq<Item>, ghost workers: seq<AgentId>)
      requires forall a | a in agents :: a < first
      modifies this`outbox, this`agents
      ensures |items| <= 10 && (|items| < 10 ==> forall p | p in outbox :: !Due(outbox[p], clock))
      ensures Distinct(items, workers) && Abs() == Run(old(Abs()), ClaimEvents(items, workers))
      ensures forall k: nat | k < |items| :: Mine(items[k], workers[k])
      ensures forall k: nat | k < |items| :: WaitedLongest(items[k].path)
    {
      hide Step, Run, ClaimEvents;
      items, workers := [], [];
      RunNone(Abs());
      ClaimEventsGrow([], [], Item(0, 0), 0);
      while |items| < BatchSize()
        invariant |items| <= BatchSize()
        invariant Distinct(items, workers) && Abs() == Run(old(Abs()), ClaimEvents(items, workers))
        invariant forall k: nat | k < |items| :: Mine(items[k], workers[k]) && !Due(outbox[items[k].path], clock)
        invariant forall k: nat | k < |items| :: WaitedLongest(items[k].path)
        invariant forall a | a in agents :: a < first + |items|
        decreases BatchSize() - |items|
      {
        var path := OldestDue();
        if path.None? { break; }
        ghost var agent := first + |items|;
        ghost var e := ClaimRow(path.value, agent);
        RunSnoc(old(Abs()), ClaimEvents(items, workers), e);
        assert forall k: nat | k < |items| :: items[k].path != path.value && workers[k] != agent;
        var item := ClaimOne(path.value, agent);
        ClaimEventsGrow(items, workers, item, agent);
        items, workers := items + [item], workers + [agent];
      }
    }

    /** Others' rows and claims are left alone. */
    twostate predicate OnlyTouches(path: Path, agent: AgentId)
      reads this
    {
      && clock == old(clock)
      && (forall p | p in old(outbox) && p != path :: p in outbox && outbox[p] == old(outbox)[p])
      && (forall a | a in old(agents) && a != agent :: a in agents && agents[a] == old(agents)[a])
    }

    /** `S3Store.Delete`: the tombstone is written before the object is removed. */
    method Delete(path: Path, ghost agent: AgentId, luck: Luck) returns (ok: bool)
      requires agent in agents && agents[agent].path == path && agents[agent].stage == Claimed && Working(agents[agent], clock)
      modifies this`objectLedger, this`objects, this`removed, this`agents
      ensures ok <==> luck.journals && luck.removes
      ensures Abs() == if !luck.journals then old(Abs())
                       else if !luck.removes then Step(old(Abs()), WriteTombstone(agent))
                       else Step(Step(old(Abs()), WriteTombstone(agent)), RemoveObject(agent))
      ensures agent in agents && agents[agent].path == path && agents[agent].claim == old(agents)[agent].claim
      ensures ok ==> agents[agent].stage == Removed && path !in objects && path in objectLedger
      ensures OnlyTouches(path, agent)
    {
      hide Step;
      DeleteSteps(Abs(), agent);
      if !luck.journals { return false; }
      objectLedger := objectLedger + {path};
      agents := agents[agent := agents[agent].(stage := Tombstoned)];
      if !luck.removes { return false; }
      objects := objects - {path};
      removed := removed + {path};
      agents := agents[agent := agents[agent].(stage := Removed)];
      ok := true;
    }

    /** `markDeletionComplete`. */
    method MarkComplete(path: Path, ghost agent: AgentId)
      requires agent in agents && agents[agent].path == path && agents[agent].stage == Removed
      requires Working(agents[agent], clock) && Holds(outbox, agents[agent])
      modifies this`outbox, this`agents
      ensures Abs() == Step(old(Abs()), Complete(agent))
      ensures path !in outbox && OnlyTouches(path, agent)
    {
      hide Step;
      EndSteps(Abs(), agent);
      outbox := outbox - {path};
      agents := agents - {agent};
    }

    /** `rescheduleDeletion`. */
    method Reschedule(item: Item, ghost agent: AgentId)
      requires agent in agents && agents[agent].path == item.path && Working(agents[agent], clock) && Holds(outbox, agents[agent])
      requires outbox[item.path].attempts == item.attempts
      modifies this`outbox, this`serial, this`agents
      ensures Abs() == Step(old(Abs()), Fail(agent))
      ensures OnlyTouches(item.path, agent) && Retried(item)
    {
      hide Step;
      EndSteps(Abs(), agent);
      var row := outbox[item.path];
      outbox := outbox[item.path := row.(attempts := row.attempts + 1, availableAt := clock + RetryDelay(item.attempts), lockedUntil := None)];
      serial := serial + 1;
      agents := agents - {agent};
    }

    /** The row waits, unlocked, for the delay of its attempts so far. */
    predicate Retried(item: Item)
      reads this
    {
      && item.path in outbox && outbox[item.path].attempts == item.attempts + 1 && outbox[item.path].lockedUntil == None
      && outbox[item.path].availableAt == clock + RetryDelay(item.attempts)
    }

    /** The goroutine for one claimed row. */
    method Process(item: Item, ghost agent: AgentId, luck: Luck)
      requires Mine(item, agent)
      modifies this`outbox, this`serial, this`objectLedger, this`objects, this`removed, this`agents
      ensures Abs() == Run(old(Abs()), WorkEvents(agent, luck))
      ensures OnlyTouches(item.path, agent)
      ensures luck == Luck(true, true, true) ==> item.path !in outbox && item.path !in objects && item.path in objectLedger
      ensures !(luck.journals && luck.removes) && luck.updates ==> Retried(item)
    {
      hide Step, WorkEvents;
      WorkEventsRun(Abs(), agent, luck);
      var ok := Delete(item.path, agent, luck);
      if !luck.updates {
        EndSteps(Abs(), agent);
        agents := agents - {agent};
      } else if ok {
        MarkComplete(item.path, agent);
      } else {
        Reschedule(item, agent);
      }
    }

    /** `releaseDeletionClaims` for one row. */
    method ReleaseClaim(item: Item, ghost agent: AgentId)
      requires Mine(item, agent)
      modifies this`outbox, this`agents
      ensures Abs() == Step(old(Abs()), Release(agent))
      ensures OnlyTouches(item.path, agent)
      ensures item.path in outbox && Due(outbox[item.path], clock)
    {
      hide Step;
      EndSteps(Abs(), agent);
      outbox := outbox[item.path := Released(outbox[item.path], clock)];
      agents := agents - {agent};
    }

    /** One round of the loop below. */
    method ProcessOrRelease(item: Item, ghost agent: AgentId, luck: Luck, stopped: bool)
      requires Mine(item, agent)
      modifies this`outbox, this`serial, this`objectLedger, this`objects, this`removed, this`agents
      ensures Abs() == Run(old(Abs()), RowEvents(agent, luck, stopped))
      ensures OnlyTouches(item.path, agent)
    {
      hide Step, WorkEvents;
      RunOne(Abs(), Release(agent));
      if stopped { ReleaseClaim(item, agent); } else { Process(item, agent, luck); }
    }

    /** The goroutines of a batch, one after the other; past `stopAfter` the claims are given back. */
    method WorkOnAll(items: seq<Item>, ghost workers: seq<AgentId>, luck: Path -> Luck, stopAfter: nat)
      requires Distinct(items, workers) && forall j: nat | j < |items| :: Mine(items[j], workers[j])
      modifies this`outbox, this`serial, this`objectLedger, this`objects, this`removed, this`agents
      ensures Abs() == Run(old(Abs()), PassEvents(items, workers, luck, stopAfter, |items|))
    {
      hide Step, Run, RowEvents, PassEvents;
      ghost var before := Abs();
      RunNone(before);
      PassStart(items, workers, luck, stopAfter);
      for k := 0 to |items|
        invariant Abs() == Run(before, PassEvents(items, workers, luck, stopAfter, k))
        invariant forall j: nat | k <= j < |items| :: Mine(items[j], workers[j])
      {
        assert forall j: nat | k < j < |items| :: items[j].path != items[k].path && workers[j] != workers[k];
        PassStep(items, workers, luck, stopAfter, k);
        RunAppend(before, PassEvents(items, workers, luck, stopAfter, k), RowEvents(workers[k], luck(items[k].path), k >= stopAfter));
        ProcessOrRelease(items[k], workers[k], luck(items[k].path), k >= stopAfter);
      }
    }

    /** `processDeletionBatch`: works on the claimed rows until it is told to stop, and gives the
        claims it has not begun on back.  Every interleaving of the goroutines has the same outcome. */
    method ProcessBatch(ghost first: AgentId, luck: Path -> Luck, stopAfter: nat)
        returns (more: bool, items: seq<Item>, ghost workers: seq<AgentId>)
      requires forall a | a in agents :: a < first
      modifies this`outbox, this`serial, this`objectLedger, this`objects, this`removed, this`agents
      ensures |items| <= 10 && (more <==> |items| == 10 <= stopAfter)
      ensures Distinct(items, workers)
      ensures Abs() == Run(Run(old(Abs()), ClaimEvents(items, workers)), PassEvents(items, workers, luck, stopAfter, |items|))
      ensures forall events | Interleaves(events, items, workers, luck, stopAfter) ::
                Abs() == Run(Run(old(Abs()), ClaimEvents(items, workers)), events)
    {
      hide Step, Run, RowEvents, Interleaves, Apart, PassEvents;
      items, workers := ClaimBatch(first);
      ghost var before := Abs();
      WorkersApart(before.agents, items, workers);
      WorkOnAll(items, workers, luck, stopAfter);
      more := |items| == BatchSize() && |items| <= stopAfter;
      forall events | Interleaves(events, items, workers, luck, stopAfter) ensures Abs() == Run(before, events) {
        AnyInterleaving(before, events, items, workers, luck, stopAfter);
      }
    }
  }

  lemma WorkEventsRun(s: State, agent: AgentId, luck: Luck)
    ensures Run(s, WorkEvents(agent, luck)) ==
            Step(if !luck.journals then s
                 else if !luck.removes then Step(s, WriteTombstone(agent))
                 else Step(Step(s, WriteTombstone(agent)), RemoveObject(agent)), LastEvent(agent, luck))
  {
    hide Step, LastEvent;
    var last := LastEvent(agent, luck);
    RunOne(s, last);
    RunThree(s, WriteTombstone(agent), last, last);
    RunThree(s, WriteTombstone(agent), RemoveObject(agent), last);
  }

  /** Different rows, different workers. */
  predicate Distinct(items: seq<Item>, workers: seq<AgentId>) {
    && |workers| == |items|
    && forall j, k | 0 <= j < k < |items| :: items[j].path != items[k].path && workers[j] != workers[k]
  }
}
