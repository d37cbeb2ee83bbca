/** The deletion protocol column by column: what each transaction, object call and journal write
    changes, with the times and delays in seconds. */
module StorageRows {
  import opened Options
  import opened StorageDeletion

  /** The delay before the next attempt. */
  lemma DelayTable(attempts: nat)
    ensures RetryDelay(attempts) ==
            match attempts
            case 0 => 5 case 1 => 10 case 2 => 20 case 3 => 40 case 4 => 80
            case 5 => 160 case 6 => 320 case 7 => 640 case 8 => 1280 case 9 => 2560 case _ => 3600
  {
    assert Power2(1) == 2 && Power2(2) == 4 && Power2(3) == 8 && Power2(4) == 16 && Power2(5) == 32;
    assert Power2(6) == 64 && Power2(7) == 128 && Power2(8) == 256 && Power2(9) == 512 && Power2(10) == 1024;
  }

  // ----- losing files -----

  /** The outbox with a row for each path that has none: unlocked, due at once, never tried. */
  function WithPaths(s: State, paths: set<Path>): Outbox {
    map p | p in s.outbox.Keys + paths :: if p in s.outbox then s.outbox[p] else Row(s.serial, 0, s.clock, None)
  }

  /** Deleting files marks those that are not marked yet and queues their paths. */
  lemma SoftDeleted(s: State, ids: set<FileId>)
    ensures var paths := set f | f in s.files && f in ids && !s.files[f].deleted :: s.files[f].path;
            Step(s, SoftDelete(ids)) ==
            s.(files := map f | f in s.files ::
                 var row := s.files[f]; File(row.path, row.uploader, row.owner, row.deleted || f in ids),
               outbox := WithPaths(s, paths), serial := s.serial + 1, retired := s.retired + paths)
  {
    var paths := set f | f in s.files && f in ids && !s.files[f].deleted :: s.files[f].path;
    assert Paths(s.files, Undeleted(s.files, ids)) == paths;
    assert Enqueue(s.outbox, paths, s.serial, s.clock) == WithPaths(s, paths);
    forall f | f in s.files ensures Step(s, SoftDelete(ids)).files[f] ==
      File(s.files[f].path, s.files[f].uploader, s.files[f].owner, s.files[f].deleted || f in ids) {}
  }

  /** Deleting an account takes the user's uploads and every file of the user's projects with it, and
      queues their paths; it commits only after its ledger entry. */
  lemma AccountDeleted(s: State, user: UserId)
    ensures Step(s, JournalAccount(user)) == if user in s.users then s.(accountLedger := s.accountLedger + {user}) else s
    ensures var lost := set f | f in s.files && (s.files[f].uploader == user || s.files[f].owner == user);
            var paths := set f | f in lost :: s.files[f].path;
            Step(s, CommitAccountDeletion(user)) ==
            if user in s.users && user in s.accountLedger
            then s.(users := s.users - {user}, deletedAccounts := s.deletedAccounts + {user}, files := s.files - lost,
                    outbox := WithPaths(s, paths), serial := s.serial + 1, retired := s.retired + paths)
            else s
  {
    var lost := set f | f in s.files && (s.files[f].uploader == user || s.files[f].owner == user);
    var paths := set f | f in lost :: s.files[f].path;
    assert FilesOf(s.files, {user}) == lost && Paths(s.files, lost) == paths;
    assert Enqueue(s.outbox, paths, s.serial, s.clock) == WithPaths(s, paths);
  }

  /** Time passes, and users register with identifiers that were never used. */
  lemma UserRows(s: State, user: UserId, seconds: nat)
    ensures Step(s, Wait(seconds)) == s.(clock := s.clock + seconds)
    ensures Step(s, AddUser(user)) ==
            if user in s.usedUsers then s else s.(users := s.users + {user}, usedUsers := s.usedUsers + {user})
  {
  }

  // ----- uploading -----

  /** An object is put under a new path before its row exists; without the row it is removed again. */
  lemma UploadRows(s: State, path: Path, id: FileId, uploader: UserId, owner: UserId, agent: AgentId)
    ensures Step(s, PutObject(path)) ==
            if path in s.usedPaths then s
            else s.(objects := s.objects + {path}, uploads := s.uploads + {path}, usedPaths := s.usedPaths + {path})
    ensures Step(s, InsertFile(id, path, uploader, owner)) ==
            if path in s.uploads && id !in s.files && uploader in s.users && owner in s.users
            then s.(files := s.files[id := File(path, uploader, owner, false)], uploads := s.uploads - {path}) else s
    ensures agent !in s.agents ==>
              && Step(s, AbandonUpload(path, agent)) ==
                 (if path in s.uploads
                  then s.(uploads := s.uploads - {path}, agents := s.agents[agent := Agent(path, Claimed, None)]) else s)
              && Step(s, StartRemoval(path, agent)) ==
                 if path in s.usedPaths && path !in s.uploads && (forall f | f in s.files :: s.files[f].path == path ==> s.files[f].deleted)
                 then s.(agents := s.agents[agent := Agent(path, Claimed, None)]) else s
  {
    assert LivePath(s.files, path) <==> !(forall f | f in s.files :: s.files[f].path == path ==> s.files[f].deleted);
  }

  // ----- working on a row -----

  /** A row that is due and not locked is leased for 300 seconds. */
  lemma ClaimedRow(s: State, path: Path, agent: AgentId)
    requires path in s.outbox && agent !in s.agents
    ensures var row := s.outbox[path];
            Step(s, ClaimRow(path, agent)) ==
            if row.availableAt <= s.clock && (row.lockedUntil.None? || row.lockedUntil.value <= s.clock)
            then s.(outbox := s.outbox[path := Row(row.serial, row.attempts, row.availableAt, Some(s.clock + 300))],
                    agents := s.agents[agent := Agent(path, Claimed, Some(Claim(row.serial, s.clock)))])
            else s
  {
  }

  /** A worker acts for 30 seconds after its claim, somebody without a claim at any time. */
  predicate InTime(a: Agent, now: Time) {
    a.claim.None? || now <= a.claim.value.at + 30
  }

  /** The tombstone is written first, then the object is removed. */
  lemma RemovalSteps(s: State, agent: AgentId)
    requires agent in s.agents
    ensures var a := s.agents[agent];
            && Step(s, WriteTombstone(agent)) ==
               (if InTime(a, s.clock) && a.stage == Claimed
                then s.(objectLedger := s.objectLedger + {a.path}, agents := s.agents[agent := Agent(a.path, Tombstoned, a.claim)]) else s)
            && Step(s, RemoveObject(agent)) ==
               (if InTime(a, s.clock) && a.stage == Tombstoned
                then s.(objects := s.objects - {a.path}, removed := s.removed + {a.path},
                        agents := s.agents[agent := Agent(a.path, Removed, a.claim)]) else s)
            && Step(s, Crash(agent)) == s.(agents := s.agents - {agent})
  {
  }

  /** The end of a worker's claim on a row that is still its own: removed, put off for the delay of the
      attempts so far, or given back as due no later than now. */
  lemma ClaimEnds(s: State, agent: AgentId)
    requires agent in s.agents && s.agents[agent].claim.Some? && InTime(s.agents[agent], s.clock)
    requires s.agents[agent].path in s.outbox && s.outbox[s.agents[agent].path].serial == s.agents[agent].claim.value.serial
    ensures var a := s.agents[agent];
            var row, agents := s.outbox[a.path], s.agents - {agent};
            && Step(s, Complete(agent)) ==
               (if a.stage == Removed then s.(outbox := s.outbox - {a.path}, agents := agents) else s)
            && Step(s, Fail(agent)) ==
               s.(outbox := s.outbox[a.path := Row(row.serial, row.attempts + 1, s.clock + RetryDelay(row.attempts), None)],
                  serial := s.serial + 1, agents := agents)
            && Step(s, Release(agent)) ==
               if a.stage == Claimed
               then s.(outbox := s.outbox[a.path := Row(row.serial, row.attempts, if row.availableAt < s.clock then row.availableAt else s.clock, None)],
                       agents := agents)
               else s
  {
  }

  /** The end of a removal without a claim: the path leaves the outbox, or is queued for a worker. */
  lemma RemovalEnds(s: State, agent: AgentId)
    requires agent in s.agents && s.agents[agent].claim.None?
    ensures var a := s.agents[agent];
            && Step(s, Complete(agent)) ==
               (if a.stage == Removed then s.(outbox := s.outbox - {a.path}, agents := s.agents - {agent}) else s)
            && Step(s, Fail(agent)) == s.(outbox := WithPaths(s, {a.path}), serial := s.serial + 1, agents := s.agents - {agent})
            && Step(s, Release(agent)) == s
  {
    var a := s.agents[agent];
    assert Enqueue(s.outbox, {a.path}, s.serial, s.clock) == WithPaths(s, {a.path});
  }
}
