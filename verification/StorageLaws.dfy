/** The invariant of the deletion protocol, with crashes and failures at any point. */
module StorageLaws {
  import opened Options
  import opened StorageDeletion

  /** Undeleted rows have their object, deleted ones are on record, and no two rows share a path. */
  ghost predicate FilesSound(files: Files, users: set<UserId>, uploads: set<Path>, used: set<Path>, objects: set<Path>, retired: set<Path>) {
    && (forall f | f in files :: FileSound(files[f], users, uploads, used, objects, retired))
    && (forall f, g | f in files && g in files && files[f].path == files[g].path :: f == g)
  }

  predicate FileSound(file: File, users: set<UserId>, uploads: set<Path>, used: set<Path>, objects: set<Path>, retired: set<Path>) {
    && file.path in used && file.path !in uploads
    && file.path in (if file.deleted then retired else objects)
    && file.uploader in users && file.owner in users
  }

  ghost predicate AllDead(files: Files, uploads: set<Path>, used: set<Path>, paths: set<Path>) {
    forall p | p in paths :: Dead(files, uploads, used, p)
  }

  function AgentPaths(agents: Agents): set<Path> {
    set a | a in agents :: agents[a].path
  }

  /** Only dead paths are ever queued, worked on, recorded in the ledger or retired. */
  ghost predicate OnlyDead(s: State) {
    AllDead(s.files, s.uploads, s.usedPaths, s.outbox.Keys + AgentPaths(s.agents) + s.objectLedger + s.retired)
  }

  /** A path that lost its file row is queued for removal or already removed and recorded. */
  ghost predicate NothingForgotten(retired: set<Path>, queued: set<Path>, objects: set<Path>, ledger: set<Path>) {
    forall p | p in retired :: p in queued || (p !in objects && p in ledger)
  }

  /** The tombstone comes first: removed objects are recorded and stay removed. */
  ghost predicate TombstonesFirst(removed: set<Path>, objects: set<Path>, ledger: set<Path>, agents: Agents) {
    && removed <= ledger && removed !! objects
    && (forall a | a in agents :: StageSound(agents[a], removed, ledger))
  }

  predicate StageSound(a: Agent, removed: set<Path>, ledger: set<Path>) {
    && (a.stage != Claimed ==> a.path in ledger)
    && (a.stage == Removed ==> a.path in removed)
  }

  predicate SetsSound(s: State) {
    && s.uploads <= s.objects <= s.usedPaths
    && s.users <= s.usedUsers && s.deletedAccounts <= s.accountLedger * s.usedUsers && s.deletedAccounts !! s.users
  }

  /** The lease of a working worker is still running, and nobody else works on its row. */
  ghost predicate LeasesSound(outbox: Outbox, serial: nat, agents: Agents, now: Time) {
    && (forall p | p in outbox :: outbox[p].serial < serial)
    && (forall a | a in agents :: ClaimSound(agents[a], outbox, serial, now))
    && (forall a, b {:trigger SameRow(agents[a], agents[b], now)} |
          a in agents && b in agents && a != b :: !SameRow(agents[a], agents[b], now))
  }

  predicate ClaimSound(a: Agent, outbox: Outbox, serial: nat, now: Time) {
    a.claim.Some? ==>
      && a.claim.value.at <= now && a.claim.value.serial < serial
      && (Working(a, now) && Holds(outbox, a) ==> outbox[a.path].lockedUntil == Some(a.claim.value.at + Lease()))
  }

  predicate SameRow(a: Agent, b: Agent, now: Time) {
    && a.claim.Some? && b.claim.Some? && a.path == b.path && a.claim.value.serial == b.claim.value.serial
    && Working(a, now) && Working(b, now)
  }

  ghost predicate Valid(s: State) {
    && FilesSound(s.files, s.users, s.uploads, s.usedPaths, s.objects, s.retired)
    && OnlyDead(s)
    && NothingForgotten(s.retired, s.outbox.Keys, s.objects, s.objectLedger)
    && TombstonesFirst(s.removed, s.objects, s.objectLedger, s.agents)
    && SetsSound(s)
    && LeasesSound(s.outbox, s.serial, s.agents, s.clock)
  }

  // ----- losing file rows -----

  lemma EnqueueKeepsLeases(outbox: Outbox, serial: nat, agents: Agents, now: Time, paths: set<Path>)
    requires LeasesSound(outbox, serial, agents, now)
    ensures LeasesSound(Enqueue(outbox, paths, serial, now), serial + 1, agents, now)
    ensures Enqueue(outbox, paths, serial, now).Keys == outbox.Keys + paths
  {
    var after := Enqueue(outbox, paths, serial, now);
    assert forall a | a in agents :: ClaimSound(agents[a], outbox, serial, now) && (Holds(after, agents[a]) ==> Holds(outbox, agents[a]));
  }

  /** Files may lose rows or have them marked deleted; the lost paths become dead. */
  lemma RowsLost(s: State, after: Files, users: set<UserId>, lost: set<Path>)
    requires Valid(s)
    requires forall f | f in after :: f in s.files && after[f].path == s.files[f].path
    requires forall f | f in after :: FileSound(after[f], users, s.uploads, s.usedPaths, s.objects, s.retired + lost)
    requires forall p | p in lost :: p in s.usedPaths && p !in s.uploads && !LivePath(after, p)
    requires forall f | f in after && !after[f].deleted :: !s.files[f].deleted
    ensures FilesSound(after, users, s.uploads, s.usedPaths, s.objects, s.retired + lost)
    ensures AllDead(after, s.uploads, s.usedPaths, s.outbox.Keys + AgentPaths(s.agents) + s.objectLedger + s.retired + lost)
  {
    forall p | p in s.outbox.Keys + AgentPaths(s.agents) + s.objectLedger + s.retired
      ensures Dead(after, s.uploads, s.usedPaths, p)
    {
      assert Dead(s.files, s.uploads, s.usedPaths, p);
    }
  }

  lemma SoftDeleteKeepsValid(s: State, ids: set<FileId>)
    requires Valid(s)
    ensures Valid(Step(s, SoftDelete(ids)))
  {
    var t := Step(s, SoftDelete(ids));
    var lost := Paths(s.files, Undeleted(s.files, ids));
    EnqueueKeepsLeases(s.outbox, s.serial, s.agents, s.clock, lost);
    RowsLost(s, t.files, s.users, lost);
  }

  lemma {:induction false} DeleteAccountsKeepsValid(s: State, users: set<UserId>)
    requires Valid(s) && users <= s.accountLedger * s.users
    ensures Valid(DeleteAccounts(s, users))
  {
    var ids := FilesOf(s.files, users);
    EnqueueKeepsLeases(s.outbox, s.serial, s.agents, s.clock, Paths(s.files, ids));
    RowsLost(s, s.files - ids, s.users - users, Paths(s.files, ids));
  }

  // ----- uploads -----

  lemma PutKeepsValid(s: State, e: Event)
    requires Valid(s) && e.PutObject?
    ensures Valid(Step(s, e))
  {
    var t := Step(s, e);
    forall p | p in s.outbox.Keys + AgentPaths(s.agents) + s.objectLedger + s.retired
      ensures Dead(t.files, t.uploads, t.usedPaths, p)
    {
      assert Dead(s.files, s.uploads, s.usedPaths, p);
    }
    forall f | f in t.files ensures FileSound(t.files[f], t.users, t.uploads, t.usedPaths, t.objects, t.retired) {
      assert FileSound(s.files[f], s.users, s.uploads, s.usedPaths, s.objects, s.retired);
    }
  }

  lemma InsertKeepsValid(s: State, e: Event)
    requires Valid(s) && e.InsertFile?
    ensures Valid(Step(s, e))
  {
    var t := Step(s, e);
    forall p | p in s.outbox.Keys + AgentPaths(s.agents) + s.objectLedger + s.retired
      ensures Dead(t.files, t.uploads, t.usedPaths, p)
    {
      assert Dead(s.files, s.uploads, s.usedPaths, p);
    }
    forall f | f in t.files ensures FileSound(t.files[f], t.users, t.uploads, t.usedPaths, t.objects, t.retired) {
      assert f in s.files ==> FileSound(s.files[f], s.users, s.uploads, s.usedPaths, s.objects, s.retired);
    }
  }

  lemma PlainStepKeepsValid(s: State, e: Event)
    requires Valid(s) && (e.AddUser? || e.JournalAccount?)
    ensures Valid(Step(s, e))
  {
    var t := Step(s, e);
    forall f | f in t.files ensures FileSound(t.files[f], t.users, t.uploads, t.usedPaths, t.objects, t.retired) {
      assert FileSound(s.files[f], s.users, s.uploads, s.usedPaths, s.objects, s.retired);
    }
  }

  lemma WaitKeepsValid(s: State, seconds: nat)
    requires Valid(s)
    ensures Valid(Step(s, Wait(seconds)))
  {
    var now := s.clock + seconds;
    assert forall a, b | a in s.agents && b in s.agents && SameRow(s.agents[a], s.agents[b], now) ::
        SameRow(s.agents[a], s.agents[b], s.clock);
    assert forall a | a in s.agents :: ClaimSound(s.agents[a], s.outbox, s.serial, s.clock);
  }

  // ----- agents -----

  /** An agent whose path is dead may appear, advance with its claim, or stop. */
  lemma AgentSet(s: State, id: AgentId, a: Agent)
    requires Valid(s)
    requires Dead(s.files, s.uploads, s.usedPaths, a.path) && StageSound(a, s.removed, s.objectLedger)
    requires if id in s.agents then a.path == s.agents[id].path && a.claim == s.agents[id].claim else a.claim.None?
    ensures Valid(s.(agents := s.agents[id := a]))
  {
    var agents := s.agents[id := a];
    assert AgentPaths(agents) <= AgentPaths(s.agents) + {a.path};
    assert forall b | b in s.agents && id in s.agents ::
        SameRow(a, s.agents[b], s.clock) == SameRow(s.agents[id], s.agents[b], s.clock)
        && SameRow(s.agents[b], a, s.clock) == SameRow(s.agents[b], s.agents[id], s.clock);
    assert id in s.agents ==> ClaimSound(s.agents[id], s.outbox, s.serial, s.clock);
  }

  lemma AgentGone(s: State, id: AgentId)
    requires Valid(s)
    ensures Valid(s.(agents := s.agents - {id}))
  {
    assert AgentPaths(s.agents - {id}) <= AgentPaths(s.agents);
  }

  lemma AgentPathDead(s: State, id: AgentId)
    requires Valid(s) && id in s.agents
    ensures Dead(s.files, s.uploads, s.usedPaths, s.agents[id].path)
  {
    assert s.agents[id].path in AgentPaths(s.agents);
  }

  lemma {:induction false} StartKeepsValid(s: State, e: Event)
    requires Valid(s) && (e.AbandonUpload? || e.StartRemoval?)
    ensures Valid(Step(s, e))
  {
    if Step(s, e) != s {
      var s1 := s.(uploads := s.uploads - {e.path});
      forall p | p in s.outbox.Keys + AgentPaths(s.agents) + s.objectLedger + s.retired
        ensures Dead(s1.files, s1.uploads, s1.usedPaths, p)
      {
        assert Dead(s.files, s.uploads, s.usedPaths, p);
      }
      assert Valid(s1);
      AgentSet(s1, e.agent, Agent(e.path, Claimed, None));
    }
  }

  /** Recording a dead path, and removing an object that is recorded. */
  lemma RecordKeepsValid(s: State, path: Path)
    requires Valid(s) && Dead(s.files, s.uploads, s.usedPaths, path)
    ensures Valid(s.(objectLedger := s.objectLedger + {path}))
  {
  }

  lemma RemoveKeepsValid(s: State, path: Path)
    requires Valid(s) && path in s.objectLedger && Dead(s.files, s.uploads, s.usedPaths, path)
    ensures Valid(s.(objects := s.objects - {path}, removed := s.removed + {path}))
  {
    var objects := s.objects - {path};
    forall f | f in s.files ensures FileSound(s.files[f], s.users, s.uploads, s.usedPaths, objects, s.retired) {
      assert FileSound(s.files[f], s.users, s.uploads, s.usedPaths, s.objects, s.retired);
    }
    assert TombstonesFirst(s.removed + {path}, objects, s.objectLedger, s.agents) by {
      assert forall a | a in s.agents :: StageSound(s.agents[a], s.removed, s.objectLedger);
    }
  }

  lemma AdvanceKeepsValid(s: State, e: Event)
    requires Valid(s) && (e.WriteTombstone? || e.RemoveObject?)
    ensures Valid(Step(s, e))
  {
    if Step(s, e) != s {
      AgentPathDead(s, e.agent);
      var a := s.agents[e.agent];
      if e.WriteTombstone? {
        RecordKeepsValid(s, a.path);
        AgentSet(s.(objectLedger := s.objectLedger + {a.path}), e.agent, a.(stage := Tombstoned));
      } else {
        assert StageSound(a, s.removed, s.objectLedger);
        RemoveKeepsValid(s, a.path);
        AgentSet(s.(objects := s.objects - {a.path}, removed := s.removed + {a.path}), e.agent, a.(stage := Removed));
      }
    }
  }

  // ----- the outbox -----

  /** A working claim excludes another claim on the same row. */
  lemma ClaimKeepsLeases(s: State, path: Path, id: AgentId)
    requires Valid(s) && path in s.outbox && id !in s.agents
    requires s.outbox[path].lockedUntil.None? || s.outbox[path].lockedUntil.value <= s.clock
    ensures LeasesSound(s.outbox[path := s.outbox[path].(lockedUntil := Some(s.clock + Lease()))], s.serial,
                        s.agents[id := Agent(path, Claimed, Some(Claim(s.outbox[path].serial, s.clock)))], s.clock)
  {
    var a := Agent(path, Claimed, Some(Claim(s.outbox[path].serial, s.clock)));
    forall b | b in s.agents ensures !SameRow(a, s.agents[b], s.clock) && !SameRow(s.agents[b], a, s.clock) {
      assert ClaimSound(s.agents[b], s.outbox, s.serial, s.clock);
    }
    assert forall b | b in s.agents :: ClaimSound(s.agents[b], s.outbox, s.serial, s.clock);
  }

  lemma ClaimKeepsValid(s: State, e: Event)
    requires Valid(s) && e.ClaimRow?
    ensures Valid(Step(s, e))
  {
    var t := Step(s, e);
    if t != s {
      ClaimKeepsLeases(s, e.path, e.agent);
      assert t.outbox.Keys == s.outbox.Keys;
      assert AgentPaths(t.agents) <= AgentPaths(s.agents) + {e.path};
    }
  }

  /** Rewriting or dropping a row whose only working claimant stops. */
  lemma RowKeepsLeases(s: State, id: AgentId, outbox: Outbox, serial: nat)
    requires Valid(s) && id in s.agents && s.serial <= serial
    requires forall p | p in outbox :: outbox[p].serial < serial
    requires forall p | p in outbox && p in s.outbox && outbox[p].serial == s.outbox[p].serial ::
               outbox[p] == s.outbox[p] || (p == s.agents[id].path && Holds(s.outbox, s.agents[id]) && Working(s.agents[id], s.clock))
    requires forall p | p in outbox && (p in s.outbox ==> outbox[p].serial != s.outbox[p].serial) :: outbox[p].serial >= s.serial
    ensures LeasesSound(outbox, serial, s.agents - {id}, s.clock)
  {
    forall b | b in s.agents && b != id ensures ClaimSound(s.agents[b], outbox, serial, s.clock) {
      assert ClaimSound(s.agents[b], s.outbox, s.serial, s.clock);
      assert !SameRow(s.agents[id], s.agents[b], s.clock);
    }
  }

  lemma EndKeepsValid(s: State, e: Event)
    requires Valid(s) && (e.Complete? || e.Fail? || e.Release?)
    ensures Valid(Step(s, e))
  {
    var t := Step(s, e);
    if t != s {
      var a := s.agents[e.agent];
      AgentPathDead(s, e.agent);
      RowKeepsLeases(s, e.agent, t.outbox, t.serial);
      assert AgentPaths(t.agents) <= AgentPaths(s.agents);
      assert t.outbox.Keys <= s.outbox.Keys + {a.path};
      assert StageSound(a, s.removed, s.objectLedger);
    }
  }

  lemma StepKeepsValid(s: State, e: Event)
    requires Valid(s)
    ensures Valid(Step(s, e))
  {
    hide Step;
    match e
    case SoftDelete(ids) => SoftDeleteKeepsValid(s, ids);
    case CommitAccountDeletion(user) => CommitKeepsValid(s, user);
    case AbandonUpload(_, _) => StartKeepsValid(s, e);
    case StartRemoval(_, _) => StartKeepsValid(s, e);
    case WriteTombstone(_) => AdvanceKeepsValid(s, e);
    case RemoveObject(_) => AdvanceKeepsValid(s, e);
    case ClaimRow(_, _) => ClaimKeepsValid(s, e);
    case Complete(_) => EndKeepsValid(s, e);
    case Fail(_) => EndKeepsValid(s, e);
    case Release(_) => EndKeepsValid(s, e);
    case Crash(agent) => CrashKeepsValid(s, agent);
    case PutObject(_) => PutKeepsValid(s, e);
    case InsertFile(_, _, _, _) => InsertKeepsValid(s, e);
    case Wait(seconds) => WaitKeepsValid(s, seconds);
    case AddUser(_) => PlainStepKeepsValid(s, e);
    case JournalAccount(_) => PlainStepKeepsValid(s, e);
  }

  lemma CommitKeepsValid(s: State, user: UserId)
    requires Valid(s)
    ensures Valid(Step(s, CommitAccountDeletion(user)))
  {
    if user in s.users && user in s.accountLedger { DeleteAccountsKeepsValid(s, {user}); }
  }

  lemma CrashKeepsValid(s: State, agent: AgentId)
    requires Valid(s)
    ensures Valid(Step(s, Crash(agent)))
  {
    AgentGone(s, agent);
  }

  lemma RunSnoc(s: State, events: seq<Event>, e: Event)
    ensures Run(s, events + [e]) == Step(Run(s, events), e)
  {
    assert (events + [e])[..|events|] == events;
  }

  lemma {:induction false} RunAppend(s: State, a: seq<Event>, b: seq<Event>)
    ensures Run(s, a + b) == Run(Run(s, a), b)
  {
    hide Step;
    if b == [] {
      assert a + b == a;
    } else {
      assert (a + b)[..|a + b| - 1] == a + b[..|b| - 1];
      RunAppend(s, a, b[..|b| - 1]);
    }
  }

  lemma {:induction false} RunKeepsValid(s: State, events: seq<Event>)
    requires Valid(s)
    ensures Valid(Run(s, events))
  {
    if events != [] {
      RunKeepsValid(s, events[..|events| - 1]);
      StepKeepsValid(Run(s, events[..|events| - 1]), events[|events| - 1]);
    }
  }
}
