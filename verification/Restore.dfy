/** Consequences for whole runs of the deletion protocol, and restoring a backup. */
module Restore {
  import opened Options
  import opened StorageDeletion
  import opened StorageLaws
  import opened StorageKeys
  import DeletionJournal
  import DeletionBatches

  // ----- what only grows -----

  /** Journals and history only grow, and an object leaves the bucket only by being removed. */
  predicate Evolves(s: State, t: State) {
    && s.objectLedger <= t.objectLedger && s.accountLedger <= t.accountLedger
    && s.removed <= t.removed && s.deletedAccounts <= t.deletedAccounts
    && s.usedPaths <= t.usedPaths && s.usedUsers <= t.usedUsers
    && s.objects <= t.objects + t.removed
  }

  lemma StepEvolves(s: State, e: Event)
    ensures Evolves(s, Step(s, e))
  {
  }

  lemma {:induction false} RunEvolves(s: State, events: seq<Event>)
    ensures Evolves(s, Run(s, events))
  {
    hide Step;
    if events != [] {
      StepEvolves(Run(s, events[..|events| - 1]), events[|events| - 1]);
      RunEvolves(s, events[..|events| - 1]);
    }
  }

  // ----- the outbox -----

  /** Over any run, with crashes and failures anywhere: a path that lost its file row is queued,
      or its object is gone and its tombstone recorded; and every object ever removed had its
      tombstone recorded. */
  lemma DeletionIsDurable(now: Time, events: seq<Event>, path: Path)
    ensures var s := Run(Empty(now), events);
            && (path in s.retired ==> path in s.outbox || (path !in s.objects && path in s.objectLedger))
            && (path in s.removed ==> path !in s.objects && path in s.objectLedger)
  {
    RunKeepsValid(Empty(now), events);
  }

  /** No two workers are ever at work on one outbox row: of two claims on it, one is older than the 30
      seconds that work may take. */
  lemma OneWorkerPerRow(now: Time, events: seq<Event>, a: AgentId, b: AgentId)
    requires var s := Run(Empty(now), events); a in s.agents && b in s.agents && a != b
    ensures var s := Run(Empty(now), events);
            var x, y := s.agents[a], s.agents[b];
            x.claim.Some? && y.claim.Some? && x.path == y.path && x.claim.value.serial == y.claim.value.serial ==>
              s.clock > x.claim.value.at + 30 || s.clock > y.claim.value.at + 30
  {
    RunKeepsValid(Empty(now), events);
    assert !SameRow(Run(Empty(now), events).agents[a], Run(Empty(now), events).agents[b], Run(Empty(now), events).clock);
  }

  /** A row leaves the outbox only when its object is gone and recorded. */
  lemma RowLeavesWhenGone(s: State, e: Event, path: Path)
    requires Valid(s) && path in s.outbox && path !in Step(s, e).outbox
    ensures path in Step(s, e).removed && path !in Step(s, e).objects && path in Step(s, e).objectLedger
  {
    StepKeepsValid(s, e);
    if e.Complete? { assert StageSound(s.agents[e.agent], s.removed, s.objectLedger); }
  }

  lemma FreshAgent(agents: Agents) returns (a: AgentId)
    ensures a !in agents
  {
    a := 0;
    var rest := agents.Keys;
    while rest != {}
      invariant rest <= agents.Keys && forall b | b in agents && b !in rest :: b < a
      decreases rest
    {
      var b :| b in rest;
      if b >= a { a := b + 1; }
      rest := rest - {b};
    }
  }

  /** A worker that claims a free row and is not interrupted removes the object. */
  lemma WorkerRemoves(s: State, path: Path, a: AgentId)
    requires path in s.outbox && a !in s.agents && s.outbox[path].availableAt <= s.clock
    requires s.outbox[path].lockedUntil.None? || s.outbox[path].lockedUntil.value <= s.clock
    ensures var t := Step(Step(Step(Step(s, ClaimRow(path, a)), WriteTombstone(a)), RemoveObject(a)), Complete(a));
            path in t.removed && path !in t.outbox
  {
    var s1 := Step(s, ClaimRow(path, a));
    var s2 := Step(s1, WriteTombstone(a));
    assert s2.outbox == s1.outbox && s2.agents[a] == Agent(path, Tombstoned, Some(Claim(s.outbox[path].serial, s.clock)));
    var s3 := Step(s2, RemoveObject(a));
    assert path in s3.removed && s3.outbox == s1.outbox && s3.agents[a].stage == Removed;
  }

  /** The protocol never gets stuck: from any state, a queued object can be removed. */
  lemma QueuedCanBeRemoved(s: State, path: Path) returns (events: seq<Event>)
    requires path in s.outbox
    ensures path in Run(s, events).removed && path !in Run(s, events).outbox
  {
    hide Step;
    var row := s.outbox[path];
    var a := FreshAgent(s.agents);
    var wait := Wait(row.availableAt + (if row.lockedUntil.Some? then row.lockedUntil.value else 0));
    var t := Step(s, wait);
    WaitOnlyMovesClock(s, wait.seconds);
    WorkerRemoves(t, path, a);
    assert Run(s, []) == s && [] + [wait] == [wait];
    RunSnoc(s, [], wait);
    RunSnoc(s, [wait], ClaimRow(path, a));
    RunSnoc(s, [wait] + [ClaimRow(path, a)], WriteTombstone(a));
    RunSnoc(s, [wait] + [ClaimRow(path, a)] + [WriteTombstone(a)], RemoveObject(a));
    events := [wait] + [ClaimRow(path, a)] + [WriteTombstone(a)] + [RemoveObject(a)];
    RunSnoc(s, events, Complete(a));
    events := events + [Complete(a)];
  }

  lemma WaitOnlyMovesClock(s: State, seconds: nat)
    ensures Step(s, Wait(seconds)) == s.(clock := s.clock + seconds)
  {
  }

  // ----- restoring a backup -----

  /** What a restore counts on: nothing recorded is ever forgotten. */
  predicate Remembers(s: State, t: State) {
    && s.objectLedger <= t.objectLedger && s.accountLedger <= t.accountLedger
    && s.removed <= t.removed && s.deletedAccounts <= t.deletedAccounts
    && s.usedPaths <= t.usedPaths && s.usedUsers <= t.usedUsers
  }

  /** The rows the replay deletes: those of journaled accounts and those with recorded paths. */
  function Replayed(files: Files, accounts: set<UserId>, paths: set<Path>): set<FileId> {
    FilesOf(files, accounts) + set f | f in files && files[f].path in paths
  }

  /** The paths in the outbox once the replay has run on the dump. */
  function Queued(db: State, now: State): set<Path> {
    db.outbox.Keys + Paths(db.files, Replayed(db.files, now.accountLedger, now.objectLedger))
  }

  /** `restore.sh` to its end: the database dump of `db` and the later upload copy of `store` come
      back, the ledger of `now` is replayed, and the outbox that results is recorded, removed and
      emptied. */
  function Restored(db: State, store: State, now: State): State {
    var ids := Replayed(db.files, now.accountLedger, now.objectLedger);
    var ledger := now.objectLedger + Queued(db, now);
    State(now.clock, db.users - now.accountLedger, db.files - ids, map[], now.serial,
          store.objects - ledger, now.accountLedger, ledger, {}, map[],
          now.usedPaths, now.usedUsers, db.retired + Paths(db.files, ids),
          now.removed + store.objects * ledger, now.deletedAccounts + db.users * now.accountLedger)
  }

  /** Whatever was removed or deleted by `now` stays so, exactly the journaled accounts and
      recorded paths are taken out of the dump, no surviving row has lost its object, and exactly the
      recorded objects, those queued in the dump and those of lost rows are taken out of the copy. */
  ghost predicate RestoreSound(db: State, store: State, now: State, r: State) {
    && RowsRestored(db, now, r)
    && (forall f | f in r.files && !r.files[f].deleted :: r.files[f].path in r.objects)
    && r.objects !! now.removed
    && r.outbox == map[]
    && (forall p :: p in r.objects <==>
          && p in store.objects && p !in now.objectLedger && p !in db.outbox
          && forall f | f in db.files && db.files[f].path == p :: f in r.files)
  }

  ghost predicate RowsRestored(db: State, now: State, r: State) {
    && r.users == db.users - now.accountLedger
    && r.users !! now.deletedAccounts
    && (forall f | f in r.files :: f in db.files && r.files[f] == db.files[f] && r.files[f].path !in now.removed)
    && (forall f | f in db.files :: f in r.files <==>
          db.files[f].uploader in r.users && db.files[f].owner in r.users && db.files[f].path !in now.objectLedger)
  }

  lemma RestoredFiles(db: State, store: State, now: State)
    requires Valid(db) && Valid(store) && Evolves(db, store) && Remembers(store, now)
    ensures var r := Restored(db, store, now);
            FilesSound(r.files, r.users, r.uploads, r.usedPaths, r.objects, r.retired)
  {
    var r := Restored(db, store, now);
    forall f | f in r.files ensures FileSound(r.files[f], r.users, r.uploads, r.usedPaths, r.objects, r.retired) {
      var path := r.files[f].path;
      assert FileSound(db.files[f], db.users, db.uploads, db.usedPaths, db.objects, db.retired);
      if !r.files[f].deleted {
        assert path in db.outbox.Keys ==> Dead(db.files, db.uploads, db.usedPaths, path);
      }
    }
  }

  lemma RestoredDead(db: State, store: State, now: State)
    requires Valid(db) && Valid(now) && Remembers(db, now)
    ensures OnlyDead(Restored(db, store, now))
  {
    var r := Restored(db, store, now);
    forall p | p in r.objectLedger + r.retired ensures Dead(r.files, r.uploads, r.usedPaths, p) {
      if p in db.outbox.Keys + db.retired { assert Dead(db.files, db.uploads, db.usedPaths, p); }
      if p in now.objectLedger { assert Dead(now.files, now.uploads, now.usedPaths, p); }
    }
  }

  /** For any dump, any later upload copy and any later ledger, a restore that runs to its end is
      sound, forgets nothing, and leaves a state from which the protocol's invariant holds again. */
  lemma RestoreIsSafe(db: State, store: State, now: State)
    requires Valid(db) && Valid(store) && Valid(now)
    requires Evolves(db, store) && Remembers(store, now)
    ensures Valid(Restored(db, store, now)) && RestoreSound(db, store, now, Restored(db, store, now))
    ensures Remembers(now, Restored(db, store, now))
  {
    RestoredFiles(db, store, now);
    RestoredDead(db, store, now);
  }

  // ----- whether a restore runs to its end -----

  /** The journal does not load: the script stops before it changes anything.  The journal loads but
      the queue is refused: it stops with the rows restored and no object removed. */
  datatype Attempt = Refused | Stopped | Completed

  /** `keyOf` is the storage key of a path. */
  predicate Accepted(paths: set<Path>, keyOf: Path -> string) {
    forall p | p in paths :: DeletionJournal.RestoreAccepts(keyOf(p))
  }

  function Attempted(db: State, now: State, keyOf: Path -> string): Attempt {
    if !Accepted(now.objectLedger, keyOf) then Refused
    else if !Accepted(Queued(db, now), keyOf) || DeletionBatches.Count(|now.objectLedger|) > 999999 then Stopped
    else Completed
  }

  /** The rows are back and replayed, the upload copy is back as it was, and the outbox is full. */
  function HalfRestored(db: State, store: State, now: State): State {
    var ids := Replayed(db.files, now.accountLedger, now.objectLedger);
    var lost := Paths(db.files, ids);
    State(now.clock, db.users - now.accountLedger, db.files - ids, Enqueue(db.outbox, lost, now.serial, now.clock), now.serial + 1,
          store.objects, now.accountLedger, now.objectLedger, {}, map[],
          now.usedPaths, now.usedUsers, db.retired + lost, now.removed, now.deletedAccounts + db.users * now.accountLedger)
  }

  function AfterAttempt(db: State, store: State, now: State, keyOf: Path -> string): State {
    match Attempted(db, now, keyOf)
    case Refused => now
    case Stopped => HalfRestored(db, store, now)
    case Completed => Restored(db, store, now)
  }

  /** A restore runs to its end exactly when every recorded key is accepted, fits into 999999 requests
      of a thousand keys, and every path queued in the dump or lost by the replay is accepted. */
  lemma AttemptRules(db: State, now: State, keyOf: Path -> string)
    ensures Attempted(db, now, keyOf) == Refused <==> exists p :: p in now.objectLedger && !DeletionJournal.RestoreAccepts(keyOf(p))
    ensures Attempted(db, now, keyOf) == Completed <==>
              && (forall p | p in now.objectLedger :: DeletionJournal.RestoreAccepts(keyOf(p)))
              && |now.objectLedger| <= 999_999_000
              && (forall p | p in db.outbox :: DeletionJournal.RestoreAccepts(keyOf(p)))
              && forall f | f in db.files && (db.files[f].uploader in now.accountLedger || db.files[f].owner in now.accountLedger
                                              || db.files[f].path in now.objectLedger) ::
                   DeletionJournal.RestoreAccepts(keyOf(db.files[f].path))
  {
    hide DeletionJournal.RestoreAccepts;
    var ids := Replayed(db.files, now.accountLedger, now.objectLedger);
    assert forall f | f in db.files && f in ids :: db.files[f].path in Queued(db, now);
  }

  /** What each outcome leaves.  After a stop in the middle the rows are right, but the bucket is the
      copy: objects removed since are back until a restore completes. */
  lemma AttemptIsSafe(db: State, store: State, now: State, keyOf: Path -> string)
    requires Valid(db) && Valid(store) && Valid(now)
    requires Evolves(db, store) && Remembers(store, now)
    ensures var r := AfterAttempt(db, store, now, keyOf);
            match Attempted(db, now, keyOf)
            case Refused => r == now
            case Stopped => RowsRestored(db, now, r) && r.objects == store.objects && r.outbox.Keys == Queued(db, now)
            case Completed => Valid(r) && RestoreSound(db, store, now, r) && Remembers(now, r)
  {
    hide Valid;
    RestoreIsSafe(db, store, now);
    HalfRows(db, store, now);
  }

  lemma HalfRows(db: State, store: State, now: State)
    requires RowsRestored(db, now, Restored(db, store, now))
    ensures RowsRestored(db, now, HalfRestored(db, store, now)) && HalfRestored(db, store, now).outbox.Keys == Queued(db, now)
  {
  }

  lemma PathsAreUsed(db: State, now: State)
    requires Valid(db) && Valid(now) && Remembers(db, now)
    ensures now.objectLedger <= now.usedPaths && Queued(db, now) <= now.usedPaths
  {
    forall p | p in now.objectLedger ensures p in now.usedPaths { assert Dead(now.files, now.uploads, now.usedPaths, p); }
    forall p | p in db.outbox ensures p in now.usedPaths { assert Dead(db.files, db.uploads, db.usedPaths, p); }
    forall f | f in db.files ensures db.files[f].path in now.usedPaths {
      assert FileSound(db.files[f], db.users, db.uploads, db.usedPaths, db.objects, db.retired);
    }
  }

  /** Every path is the key of an upload whose project identifier came without braces. */
  ghost predicate PlainUploads(used: set<Path>, keyOf: Path -> string) {
    forall p | p in used :: exists u: Upload :: u.Valid() && PlainUuid(u.project) && keyOf(p) == KeyOf(u)
  }

  lemma PlainUploadsAccepted(used: set<Path>, keyOf: Path -> string)
    requires PlainUploads(used, keyOf)
    ensures Accepted(used, keyOf)
  {
    hide KeyOf, PlainUuid, DeletionJournal.RestoreAccepts;
    forall p | p in used ensures DeletionJournal.RestoreAccepts(keyOf(p)) {
      var u: Upload :| u.Valid() && PlainUuid(u.project) && keyOf(p) == KeyOf(u);
      GeneratedKeys(u);
    }
  }

  /** After any run, with any earlier dump and any upload copy in between: when every upload named its
      project without braces, the restore runs to its end, is sound and re-establishes the invariant. */
  lemma {:induction false} RestoreAfterRun(start: Time, e1: seq<Event>, e2: seq<Event>, e3: seq<Event>, keyOf: Path -> string)
    ensures var db := Run(Empty(start), e1);
            var store := Run(db, e2);
            var now := Run(store, e3);
            PlainUploads(now.usedPaths, keyOf) && DeletionBatches.Count(|now.objectLedger|) <= 999999 ==>
              && Attempted(db, now, keyOf) == Completed
              && AfterAttempt(db, store, now, keyOf) == Restored(db, store, now)
              && Valid(Restored(db, store, now)) && RestoreSound(db, store, now, Restored(db, store, now))
  {
    hide Valid, PlainUploads, DeletionJournal.RestoreAccepts, Restored, RestoreSound;
    var db := Run(Empty(start), e1);
    var store := Run(db, e2);
    var now := Run(store, e3);
    EmptyIsValid(start);
    RunKeepsValid(Empty(start), e1);
    RunKeepsValid(db, e2);
    RunKeepsValid(store, e3);
    RunEvolves(db, e2);
    RunEvolves(store, e3);
    RestoreIsSafe(db, store, now);
    PathsAreUsed(db, now);
    if PlainUploads(now.usedPaths, keyOf) { PlainUploadsAccepted(now.usedPaths, keyOf); }
  }

  lemma EmptyIsValid(start: Time)
    ensures Valid(Empty(start))
  {
  }

  /** Once an unacceptable key is recorded, every later restore is refused and changes nothing. */
  lemma {:induction false} RefusedForever(now: State, events: seq<Event>, db: State, store: State, path: Path, keyOf: Path -> string)
    requires path in now.objectLedger && !DeletionJournal.RestoreAccepts(keyOf(path))
    ensures var later := Run(now, events);
            Attempted(db, later, keyOf) == Refused && AfterAttempt(db, store, later, keyOf) == later
  {
    hide Restored, HalfRestored;
    RunEvolves(now, events);
  }

  /** It takes one failed upload that named its project in braces: its cleanup records the key. */
  lemma RefusalIsReached(path: Path, keyOf: Path -> string, db: State)
    requires keyOf(path) == KeyOf(BracedUpload())
    ensures Attempted(db, Run(Empty(0), [PutObject(path), AbandonUpload(path, 1), WriteTombstone(1)]), keyOf) == Refused
  {
    hide KeyOf, BracedUpload, DeletionJournal.RestoreAccepts, Queued;
    BracedIsValid();
    GeneratedKeys(BracedUpload());
    ProjectChars(BracedUpload().project);
    var s, e := Empty(0), [PutObject(path), AbandonUpload(path, 1), WriteTombstone(1)];
    assert e[..2][..1] == e[..1] && e[..1][..0] == [];
    assert Run(s, e[..1]) == Step(s, e[0]) && Run(s, e[..2]) == Step(Run(s, e[..1]), e[1]);
    var s1 := Step(s, e[0]);
    var s2 := Step(s1, e[1]);
    assert s2.agents[1] == Agent(path, Claimed, None);
    assert path in Step(s2, e[2]).objectLedger;
  }

  // ----- any number of restores -----

  /** In the life of a deployment steps and restores alternate; a restore names an earlier state as its
      dump and a later one as its upload copy. */
  datatype Happening = Did(e: Event) | RestoredFrom(dump: nat, copy: nat)

  /** No restore comes between the dump and its upload copy. */
  predicate Undisturbed(h: seq<Happening>, dump: nat, copy: nat) {
    dump <= copy <= |h| && forall k | dump <= k < copy :: h[k].Did?
  }

  /** The states so far, the first one empty. */
  function History(start: Time, h: seq<Happening>): (states: seq<State>)
    ensures |states| == |h| + 1
  {
    if h == [] then [Empty(start)]
    else
      var n := |h| - 1;
      var states := History(start, h[..n]);
      states + [match h[n]
                case Did(e) => Step(states[n], e)
                case RestoredFrom(dump, copy) =>
                  if copy <= n && Undisturbed(h[..n], dump, copy) then Restored(states[dump], states[copy], states[n]) else states[n]]
  }

  ghost predicate AllValid(states: seq<State>) {
    forall k | 0 <= k < |states| :: Valid(states[k])
  }

  predicate AllRemembered(states: seq<State>) {
    states != [] && forall k | 0 <= k < |states| :: Remembers(states[k], states[|states| - 1])
  }

  lemma HistoryPrefix(start: Time, h: seq<Happening>, k: nat)
    requires k <= |h|
    ensures History(start, h)[..k + 1] == History(start, h[..k])
  {
    if k < |h| {
      HistoryPrefix(start, h[..|h| - 1], k);
      assert h[..|h| - 1][..k] == h[..k];
    } else {
      assert h[..k] == h;
    }
  }

  lemma EvolvesTransitive(s: State, t: State, u: State)
    requires Evolves(s, t) && Evolves(t, u)
    ensures Evolves(s, u)
  {
  }

  lemma {:induction false} UndisturbedEvolves(start: Time, h: seq<Happening>, dump: nat, copy: nat)
    requires Undisturbed(h, dump, copy)
    ensures Evolves(History(start, h)[dump], History(start, h)[copy])
  {
    hide Step;
    if dump < copy {
      UndisturbedEvolves(start, h, dump, copy - 1);
      var states := History(start, h);
      HistoryPrefix(start, h, copy);
      assert h[..copy][..copy - 1] == h[..copy - 1];
      HistoryPrefix(start, h, copy - 1);
      assert states[copy] == History(start, h[..copy])[copy] && states[copy - 1] == History(start, h[..copy - 1])[copy - 1];
      assert states[copy] == Step(states[copy - 1], h[copy - 1].e);
      StepEvolves(states[copy - 1], h[copy - 1].e);
      EvolvesTransitive(states[dump], states[copy - 1], states[copy]);
    }
  }

  lemma StepRemembers(s: State, e: Event)
    ensures Remembers(s, Step(s, e))
  {
    hide Step;
    StepEvolves(s, e);
  }

  /** Through any number of restores, in any order with everything else: the invariant holds, nothing
      recorded is forgotten, and so no deleted account and no removed object is ever back. */
  lemma {:induction false} RestoresAreSafe(start: Time, h: seq<Happening>, i: nat)
    requires i <= |h|
    ensures var states := History(start, h);
            && Valid(states[i]) && Remembers(states[i], states[|h|])
            && states[i].deletedAccounts !! states[|h|].users && states[i].removed !! states[|h|].objects
  {
    hide Step, Restored;
    LastIsValid(start, h);
    var states := History(start, h);
    if i < |h| {
      var n := |h| - 1;
      RestoresAreSafe(start, h[..n], i);
      LastIsValid(start, h[..n]);
      HistoryPrefix(start, h, n);
      assert states[i] == History(start, h[..n])[i] && states[n] == History(start, h[..n])[n];
      LastRemembers(start, h);
    }
  }

  lemma {:induction false} LastIsValid(start: Time, h: seq<Happening>)
    ensures AllValid(History(start, h))
  {
    hide Step, Restored, Valid;
    if h == [] {
      EmptyIsValid(start);
    } else {
      var n := |h| - 1;
      LastIsValid(start, h[..n]);
      AllRemember(start, h[..n]);
      NextIsValid(start, h);
    }
  }

  /** The last state remembers every earlier one. */
  lemma {:induction false} AllRemember(start: Time, h: seq<Happening>)
    requires AllValid(History(start, h))
    ensures AllRemembered(History(start, h))
  {
    hide Step, Restored, Valid;
    if h != [] {
      var n := |h| - 1;
      HistoryPrefix(start, h, n);
      var states, before := History(start, h), History(start, h[..n]);
      assert forall k | 0 <= k <= n :: states[k] == before[k];
      AllRemember(start, h[..n]);
      LastRemembers(start, h);
      forall k | 0 <= k <= n ensures Remembers(states[k], states[|h|]) {
        assert Remembers(before[k], before[n]);
      }
    }
  }

  lemma NextIsValid(start: Time, h: seq<Happening>)
    requires h != [] && AllValid(History(start, h[..|h| - 1])) && AllRemembered(History(start, h[..|h| - 1]))
    ensures AllValid(History(start, h))
  {
    hide Step, Restored, Valid;
    var n := |h| - 1;
    var before := History(start, h[..n]);
    match h[n]
    case Did(e) => StepKeepsValid(before[n], e);
    case RestoredFrom(dump, copy) =>
      if copy <= n && Undisturbed(h[..n], dump, copy) {
        UndisturbedEvolves(start, h[..n], dump, copy);
        RestoreIsSafe(before[dump], before[copy], before[n]);
      }
  }

  lemma LastRemembers(start: Time, h: seq<Happening>)
    requires h != [] && AllValid(History(start, h))
    ensures Remembers(History(start, h)[|h| - 1], History(start, h)[|h|])
  {
    hide Step, Valid;
    var n := |h| - 1;
    HistoryPrefix(start, h, n);
    var states := History(start, h);
    match h[n]
    case Did(e) => StepRemembers(states[n], e);
    case RestoredFrom(_, _) =>
  }
}
