/** Durable deletion of stored files: the file table, the deletion outbox, the object bucket and
    the deletion ledger, changed by request handlers and workers that may stop at any point.

    A step is one transaction, one call to the object store or one journal write.  The remaining
    fields of a state are history: which paths were ever used, which lost their file row, which
    objects were removed and which accounts were deleted. */
module StorageDeletion {
  import opened Options

  /** Seconds. */
  type Time = nat
  type UserId = nat
  type FileId = nat
  type Path = nat
  type AgentId = nat

  function Lease(): nat { 300 }

  /** Claiming, deleting and recording are each bounded by a timeout of 5, 20 and 5 seconds. */
  function WorkLimit(): nat { 5 + 20 + 5 }

  /** A row of `files`; `owner` owns its project, whose deletion cascades to the row. */
  datatype File = File(path: Path, uploader: UserId, owner: UserId, deleted: bool)

  /** A row of `file_storage_deletions`, which has one row per path.  A row is recognised by its
      path and the number of the transaction that queued it. */
  datatype Row = Row(serial: nat, attempts: nat, availableAt: Time, lockedUntil: Option<Time>)

  type Outbox = map<Path, Row>

  datatype Stage = Claimed | Tombstoned | Removed

  datatype Claim = Claim(serial: nat, at: Time)

  /** Somebody removing an object: a worker with a claim, or a request handler without one. */
  datatype Agent = Agent(path: Path, stage: Stage, claim: Option<Claim>)

  type Files = map<FileId, File>
  type Agents = map<AgentId, Agent>

  datatype State = State(
    clock: Time,
    users: set<UserId>,
    files: Files,
    outbox: Outbox,
    serial: nat,
    objects: set<Path>,
    accountLedger: set<UserId>,
    objectLedger: set<Path>,
    uploads: set<Path>,
    agents: Agents,
    usedPaths: set<Path>,
    usedUsers: set<UserId>,
    retired: set<Path>,
    removed: set<Path>,
    deletedAccounts: set<UserId>)

  predicate LivePath(files: Files, path: Path) {
    exists f | f in files :: files[f].path == path && !files[f].deleted
  }

  /** No upload and no undeleted file row refers to the path any more. */
  predicate Dead(files: Files, uploads: set<Path>, used: set<Path>, path: Path) {
    path in used && path !in uploads && !LivePath(files, path)
  }

  /** `INSERT ... ON CONFLICT (storage_path) DO NOTHING` for each path. */
  function Enqueue(outbox: Outbox, paths: set<Path>, serial: nat, now: Time): Outbox {
    outbox + map p | p in paths && p !in outbox :: Row(serial, 0, now, None)
  }

  /** `deletionRetryDelay`: five seconds doubled for each attempt, at most ten times and an hour. */
  function RetryDelay(attempts: nat): nat {
    var delay := 5 * Power2(if attempts < 10 then attempts else 10);
    if delay > 3600 then 3600 else delay
  }

  function Power2(n: nat): nat {
    if n == 0 then 1 else 2 * Power2(n - 1)
  }

  function Paths(files: Files, ids: set<FileId>): set<Path> {
    set f | f in files && f in ids :: files[f].path
  }

  function Undeleted(files: Files, ids: set<FileId>): set<FileId> {
    set f | f in ids && f in files && !files[f].deleted
  }

  /** The rows a deletion of `users` takes with it: their uploads, and their projects' files. */
  function FilesOf(files: Files, users: set<UserId>): set<FileId> {
    set f | f in files && (files[f].uploader in users || files[f].owner in users)
  }

  /** A worker is working only while its time limits allow; a handler's claim is not timed. */
  predicate Working(a: Agent, now: Time) {
    a.claim.Some? ==> now <= a.claim.value.at + WorkLimit()
  }

  /** The worker's own row is still in the outbox. */
  predicate Holds(outbox: Outbox, a: Agent) {
    a.claim.Some? && a.path in outbox && outbox[a.path].serial == a.claim.value.serial
  }

  datatype Event =
    | Wait(seconds: nat)
    | AddUser(user: UserId)
    | PutObject(path: Path)
    | InsertFile(id: FileId, path: Path, uploader: UserId, owner: UserId)
    | AbandonUpload(path: Path, agent: AgentId)
    | SoftDelete(ids: set<FileId>)
    | StartRemoval(path: Path, agent: AgentId)
    | ClaimRow(path: Path, agent: AgentId)
    | WriteTombstone(agent: AgentId)
    | RemoveObject(agent: AgentId)
    | Complete(agent: AgentId)
    | Fail(agent: AgentId)
    | Release(agent: AgentId)
    | Crash(agent: AgentId)
    | JournalAccount(user: UserId)
    | CommitAccountDeletion(user: UserId)

  function Step(s: State, e: Event): State {
    match e
    case Wait(seconds) => s.(clock := s.clock + seconds)
    case AddUser(user) =>
      if user in s.usedUsers then s else s.(users := s.users + {user}, usedUsers := s.usedUsers + {user})
    case PutObject(path) =>
      if path in s.usedPaths then s
      else s.(objects := s.objects + {path}, uploads := s.uploads + {path}, usedPaths := s.usedPaths + {path})
    case InsertFile(id, path, uploader, owner) =>
      if path in s.uploads && id !in s.files && uploader in s.users && owner in s.users
      then s.(files := s.files[id := File(path, uploader, owner, false)], uploads := s.uploads - {path})
      else s
    case AbandonUpload(path, agent) =>
      if path in s.uploads && agent !in s.agents
      then s.(uploads := s.uploads - {path}, agents := s.agents[agent := Agent(path, Claimed, None)])
      else s
    case SoftDelete(ids) =>
      var gone := Undeleted(s.files, ids);
      var paths := Paths(s.files, gone);
      s.(files := map f | f in s.files :: if f in gone then s.files[f].(deleted := true) else s.files[f],
         outbox := Enqueue(s.outbox, paths, s.serial, s.clock), serial := s.serial + 1,
         retired := s.retired + paths)
    case StartRemoval(path, agent) =>
      if Dead(s.files, s.uploads, s.usedPaths, path) && agent !in s.agents
      then s.(agents := s.agents[agent := Agent(path, Claimed, None)]) else s
    case ClaimRow(path, agent) =>
      if path in s.outbox && agent !in s.agents && s.outbox[path].availableAt <= s.clock
         && (s.outbox[path].lockedUntil.None? || s.outbox[path].lockedUntil.value <= s.clock)
      then
        s.(outbox := s.outbox[path := s.outbox[path].(lockedUntil := Some(s.clock + Lease()))],
           agents := s.agents[agent := Agent(path, Claimed, Some(Claim(s.outbox[path].serial, s.clock)))])
      else s
    case WriteTombstone(agent) =>
      if agent in s.agents && Working(s.agents[agent], s.clock) && s.agents[agent].stage == Claimed
      then s.(objectLedger := s.objectLedger + {s.agents[agent].path},
              agents := s.agents[agent := s.agents[agent].(stage := Tombstoned)]) else s
    case RemoveObject(agent) =>
      if agent in s.agents && Working(s.agents[agent], s.clock) && s.agents[agent].stage == Tombstoned
      then s.(objects := s.objects - {s.agents[agent].path}, removed := s.removed + {s.agents[agent].path},
              agents := s.agents[agent := s.agents[agent].(stage := Removed)]) else s
    case Complete(agent) =>
      // a worker deletes its row by identifier, a handler every row of the path
      if agent in s.agents && Working(s.agents[agent], s.clock) && s.agents[agent].stage == Removed then
        var a := s.agents[agent];
        s.(outbox := if a.claim.None? || Holds(s.outbox, a) then s.outbox - {a.path} else s.outbox,
           agents := s.agents - {agent})
      else s
    case Fail(agent) =>
      // a worker reschedules its row, a handler queues the path again
      if agent in s.agents && Working(s.agents[agent], s.clock) then
        var a := s.agents[agent];
        s.(outbox :=
             if a.claim.None? then Enqueue(s.outbox, {a.path}, s.serial, s.clock)
             else if Holds(s.outbox, a) then s.outbox[a.path := Rescheduled(s.outbox[a.path], s.clock)]
             else s.outbox,
           serial := s.serial + 1,
           agents := s.agents - {agent})
      else s
    case Release(agent) =>
      if agent in s.agents && Working(s.agents[agent], s.clock) && s.agents[agent].stage == Claimed
         && Holds(s.outbox, s.agents[agent])
      then s.(outbox := s.outbox[s.agents[agent].path := Released(s.outbox[s.agents[agent].path], s.clock)],
              agents := s.agents - {agent})
      else s
    case Crash(agent) => s.(agents := s.agents - {agent})
    case JournalAccount(user) =>
      if user in s.users then s.(accountLedger := s.accountLedger + {user}) else s
    case CommitAccountDeletion(user) =>
      if user in s.users && user in s.accountLedger then DeleteAccounts(s, {user}) else s
  }

  function Rescheduled(row: Row, now: Time): Row {
    row.(attempts := row.attempts + 1, availableAt := now + RetryDelay(row.attempts), lockedUntil := None)
  }

  function Released(row: Row, now: Time): Row {
    row.(availableAt := if row.availableAt < now then row.availableAt else now, lockedUntil := None)
  }

  /** Deleting users with their files; the row trigger queues every deleted path. */
  function DeleteAccounts(s: State, users: set<UserId>): State {
    var s1 := DeleteFiles(s, FilesOf(s.files, users));
    s1.(users := s.users - users, deletedAccounts := s.deletedAccounts + users)
  }

  function DeleteFiles(s: State, ids: set<FileId>): State {
    var paths := Paths(s.files, ids);
    s.(files := s.files - ids,
       outbox := Enqueue(s.outbox, paths, s.serial, s.clock), serial := s.serial + 1,
       retired := s.retired + paths)
  }

  function Run(s: State, events: seq<Event>): State {
    if events == [] then s else Step(Run(s, events[..|events| - 1]), events[|events| - 1])
  }

  function Empty(now: Time): State {
    State(now, {}, map[], map[], 0, {}, {}, {}, {}, map[], {}, {}, {}, {}, {})
  }
}
