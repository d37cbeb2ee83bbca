/** The attempt table as mutable state: the statements of `reserveAuthAttempt`, each under the
    locks its transaction holds, and the batched pruning loop. */
module AttemptStore {
  import opened Options
  import opened AuthLimiter
  import opened AuthLimiterLaws

  const PRUNE_BATCH: nat := 5000

  function Below(ids: set<nat>, n: nat): set<nat> {
    set i | i in ids && i < n
  }

  lemma BelowNext(ids: set<nat>, i: nat)
    ensures i in ids ==> Below(ids, i + 1) == Below(ids, i) + {i}
    ensures |Below(ids, i + 1)| == |Below(ids, i)| + (if i in ids then 1 else 0)
  {
    if i in ids {
      assert Below(ids, i + 1) == Below(ids, i) + {i};
    } else {
      assert Below(ids, i + 1) == Below(ids, i);
    }
  }

  /** `latest` is the greatest timestamp among `hits`. */
  ghost predicate IsLatest(rows: map<nat, Attempt>, hits: set<nat>, latest: Option<Instant>)
    requires hits <= rows.Keys
  {
    match latest
    case None => hits == {}
    case Some(at) => (exists i | i in hits :: rows[i].createdAt == at) && forall i | i in hits :: rows[i].createdAt <= at
  }

  function Later(latest: Option<Instant>, at: Instant): Option<Instant> {
    if latest.None? || at > latest.value then Some(at) else latest
  }

  lemma LaterIsLatest(rows: map<nat, Attempt>, hits: set<nat>, latest: Option<Instant>, i: nat)
    requires hits <= rows.Keys && i in rows && IsLatest(rows, hits, latest)
    ensures IsLatest(rows, hits + {i}, Later(latest, rows[i].createdAt))
  {
    if latest.Some? && rows[i].createdAt <= latest.value {
      var j :| j in hits && rows[j].createdAt == latest.value;
      assert j in hits + {i};
    } else {
      assert i in hits + {i};
    }
  }

  /** `after` is `before` without some of its expired rows. */
  ghost predicate PrunedFrom(before: map<nat, Attempt>, after: map<nat, Attempt>, now: Instant) {
    && after.Keys <= before.Keys
    && (forall i | i in after :: after[i] == before[i])
    && (forall i | i in before && i !in after :: Expired(before[i], now))
  }

  lemma BatchPrunes(rows: map<nat, Attempt>, ids: set<nat>, now: Instant, n: nat)
    requires ids <= ExpiredBelow(rows, now, n) && forall i | i in rows :: i < n
    ensures PrunedFrom(rows, rows - ids, now) && |rows - ids| + |ids| == |rows|
    ensures ids == ExpiredBelow(rows, now, n) ==> forall i | i in rows - ids :: !Expired(rows[i], now)
  {
    DeletionSize(rows, ids);
  }

  /** Deleting expired rows keeps the limiter's invariant. */
  lemma DeletionKeepsValid(s: State, after: map<nat, Attempt>)
    requires Valid(s) && PrunedFrom(s.rows, after, s.clock)
    ensures Valid(s.(rows := after))
  {
    assert TableSound(after, s.admitted, s.clock);
  }

  lemma PrunedTwice(before: map<nat, Attempt>, between: map<nat, Attempt>, after: map<nat, Attempt>, now: Instant)
    requires PrunedFrom(before, between, now) && PrunedFrom(between, after, now)
    ensures PrunedFrom(before, after, now)
  {
  }

  lemma FullyPruned(s: State, after: map<nat, Attempt>)
    requires PrunedFrom(s.rows, after, s.clock) && forall i | i in after :: !Expired(after[i], s.clock)
    ensures Step(s, Prune(s.rows.Keys, 0)) == s.(rows := after)
    ensures after == map i | i in s.rows && s.rows[i].createdAt + 604_800_000_000 >= s.clock :: s.rows[i]
  {
    assert Step(s, Prune(s.rows.Keys, 0)).rows == after;
  }

  lemma DeletionSize(rows: map<nat, Attempt>, ids: set<nat>)
    requires ids <= rows.Keys
    ensures |rows - ids| + |ids| == |rows|
  {
    assert (rows - ids).Keys == rows.Keys - ids;
    assert rows.Keys == (rows.Keys - ids) + ids;
  }

  /** The identifiers of rows a pruning statement may delete. */
  function ExpiredBelow(rows: map<nat, Attempt>, now: Instant, n: nat): set<nat> {
    set i | i in rows && i < n && Expired(rows[i], now)
  }

  /** The rows of one kind younger than an hour for requests, and 15 minutes for verifications. */
  function InLastWindow(rows: map<nat, Attempt>, t: Tx): set<nat> {
    set i | i in rows && rows[i].action == t.action
            && rows[i].createdAt + (if t.action == Request then 3_600_000_000 else 900_000_000) > t.start
  }

  lemma HitsInWindow(rows: map<nat, Attempt>, t: Tx)
    ensures RemoteHits(rows, t) == set i | i in InLastWindow(rows, t) && rows[i].remote == t.remote
    ensures PhoneHits(rows, t) == set i | i in InLastWindow(rows, t) && rows[i].phone == t.phone && t.phone.Some?
  {
  }

  class AttemptTable {
    var clock: Instant
    var nextId: nat
    var rows: map<nat, Attempt>
    var txs: map<TxId, Tx>
    ghost var admitted: seq<Attempt>

    ghost function Current(): State
      reads this
    {
      State(clock, rows, admitted, txs)
    }

    ghost predicate Sound()
      reads this
    {
      nextId == |admitted| && Valid(Current())
    }

    constructor (now: Instant)
      ensures Sound() && Initial(Current()) && clock == now
    {
      clock, nextId, rows, txs, admitted := now, 0, map[], map[], [];
      new;
      RunKeepsValid(Current(), []);
    }

    method Begin(id: TxId, action: Action, phone: Option<nat>, remote: nat)
      requires Sound() && id !in txs
      modifies this
      ensures Current() == Step(old(Current()), Event.Begin(id, action, phone, remote)) && Sound()
    {
      StepKeepsValid(Current(), Event.Begin(id, action, phone, remote));
      txs := txs[id := Tx(action, phone, remote, clock, if phone.Some? then WantPhone else WantRemote)];
    }

    /** `pg_advisory_xact_lock` on the next key: granted only when nobody else holds it. */
    method AcquireLock(id: TxId) returns (granted: bool)
      requires Sound() && id in txs && (txs[id].phase.WantPhone? || txs[id].phase.WantRemote?)
      modifies this
      ensures Current() == Step(old(Current()), if old(txs[id]).phase.WantPhone? then LockPhone(id) else LockRemote(id))
      ensures granted <==> !old(Blocked(Current(), id))
      ensures Sound()
    {
      StepKeepsValid(Current(), if txs[id].phase.WantPhone? then LockPhone(id) else LockRemote(id));
      var t := txs[id];
      if t.phase.WantPhone? {
        granted := forall other | other in txs && other != id && txs[other].HoldsPhone() :: !SamePhone(txs[other], t);
        if granted {
          txs := txs[id := t.(phase := WantRemote)];
        }
      } else {
        granted := forall other | other in txs && other != id && txs[other].HoldsRemote() :: !SameRemote(txs[other], t);
        if granted {
          txs := txs[id := t.(phase := Locked)];
        }
      }
    }

    /** The counting query, row by row. */
    method CountAttempts(t: Tx) returns (remoteCount: nat, phoneCount: nat, latest: Option<Instant>)
      requires forall i | i in rows :: i < nextId
      ensures remoteCount == |RemoteHits(rows, t)| && phoneCount == |PhoneHits(rows, t)|
      ensures remoteCount == |set i | i in InLastWindow(rows, t) && rows[i].remote == t.remote|
      ensures phoneCount == |set i | i in InLastWindow(rows, t) && rows[i].phone == t.phone && t.phone.Some?|
      ensures IsLatest(rows, PhoneHits(rows, t), latest)
    {
      HitsInWindow(rows, t);
      remoteCount, phoneCount, latest := 0, 0, None;
      for i := 0 to nextId
        invariant remoteCount == |Below(RemoteHits(rows, t), i)| && phoneCount == |Below(PhoneHits(rows, t), i)|
        invariant IsLatest(rows, Below(PhoneHits(rows, t), i), latest)
      {
        BelowNext(RemoteHits(rows, t), i);
        BelowNext(PhoneHits(rows, t), i);
        if i in rows && Recent(rows[i], t.action, t.start - PolicyOf(t.action).window) {
          if rows[i].remote == t.remote {
            remoteCount := remoteCount + 1;
          }
          if rows[i].phone == t.phone && t.phone.Some? {
            phoneCount := phoneCount + 1;
            LaterIsLatest(rows, Below(PhoneHits(rows, t), i), latest, i);
            latest := Later(latest, rows[i].createdAt);
          }
        }
      }
      assert Below(RemoteHits(rows, t), nextId) == RemoteHits(rows, t);
      assert Below(PhoneHits(rows, t), nextId) == PhoneHits(rows, t);
    }

    /** Decides under both locks: 0 admits and inserts the row, anything else is the retry delay: the
        rest of the 45 seconds since the latest code of the phone number, or else a whole window. */
    method CheckLimits(id: TxId) returns (retryAfter: nat)
      requires Sound() && id in txs && txs[id].phase.Locked? && clock <= txs[id].start + Deadline()
      modifies this
      ensures Current() == Step(old(Current()), Check(id)) && Sound()
      ensures retryAfter == 0 <==> old(Admits(Current(), txs[id]))
      ensures var t := old(txs[id]);
              var hits := set i | i in InLastWindow(rows, t) && rows[i].phone == t.phone && t.phone.Some?;
              if t.action == Request && exists i :: i in hits && rows[i].createdAt + 45_000_000 > clock
              then (exists i :: i in hits && retryAfter == rows[i].createdAt + 45_000_000 - clock)
                   && forall i | i in hits :: rows[i].createdAt + 45_000_000 - clock <= retryAfter
              else retryAfter == 0 || retryAfter == if t.action == Request then 3_600_000_000 else 900_000_000
    {
      StepKeepsValid(Current(), Check(id));
      var t := txs[id];
      HitsInWindow(rows, t);
      var policy := PolicyOf(t.action);
      var remoteCount, phoneCount, latest := CountAttempts(t);
      if policy.cooldown > 0 && t.phone.Some? && latest.Some? && latest.value + policy.cooldown > clock {
        txs := txs - {id};
        return latest.value + policy.cooldown - clock;
      }
      if remoteCount >= policy.remoteLimit {
        txs := txs - {id};
        return policy.window;
      }
      if t.phone.Some? && phoneCount >= policy.phoneLimit {
        txs := txs - {id};
        return policy.window;
      }
      txs := txs[id := t.(phase := Inserted(clock))];
      return 0;
    }

    method CommitAttempt(id: TxId) returns (attemptId: nat)
      requires Sound() && id in txs && txs[id].phase.Inserted?
      modifies this
      ensures Current() == Step(old(Current()), Commit(id)) && Sound()
      ensures attemptId !in old(rows) && attemptId in rows && rows[attemptId] == old(txs[id].Row(txs[id].phase.at))
    {
      StepKeepsValid(Current(), Commit(id));
      attemptId := nextId;
      var row := txs[id].Row(txs[id].phase.at);
      rows, nextId, txs := rows[attemptId := row], nextId + 1, txs - {id};
      admitted := admitted + [row];
    }

    /** The first expired identifiers in order, at most `limit` of them. */
    method FirstExpired(limit: nat) returns (ids: set<nat>)
      ensures ids <= ExpiredBelow(rows, clock, nextId) && |ids| <= limit
      ensures |ids| < limit ==> ids == ExpiredBelow(rows, clock, nextId)
      ensures forall i, j | i in ids && j in ExpiredBelow(rows, clock, nextId) - ids :: i < j
    {
      ids := {};
      var i := 0;
      while i < nextId && |ids| < limit
        invariant i <= nextId && |ids| <= limit
        invariant ids == ExpiredBelow(rows, clock, i)
      {
        if i in rows && Expired(rows[i], clock) {
          ids := ids + {i};
        }
        i := i + 1;
      }
    }

    /** One pruning statement. */
    method PruneBatch() returns (deleted: nat)
      requires Sound()
      modifies `rows
      ensures Sound() && PrunedFrom(old(rows), rows, clock) && |rows| + deleted == |old(rows)|
      ensures deleted < PRUNE_BATCH ==> forall i | i in rows :: !Expired(rows[i], clock)
    {
      var ids := FirstExpired(PRUNE_BATCH);
      BatchPrunes(rows, ids, clock, nextId);
      DeletionKeepsValid(Current(), rows - ids);
      rows := rows - ids;
      return |ids|;
    }

    /** `deleteExpiredAuthRows`: batches until one is not full.  Every expired row goes, every
        other row stays, and the loop ends. */
    method DeleteExpired()
      requires Sound()
      modifies `rows
      ensures Current() == Step(old(Current()), Prune(old(rows.Keys), 0)) && Sound()
      ensures rows == map i | i in old(rows) && old(rows)[i].createdAt + 604_800_000_000 >= clock :: old(rows)[i]
    {
      ghost var before := Current();
      while true
        invariant Sound() && PrunedFrom(before.rows, rows, clock)
        decreases |rows|
      {
        ghost var between := rows;
        var deleted := PruneBatch();
        PrunedTwice(before.rows, between, rows, clock);
        if deleted < PRUNE_BATCH {
          break;
        }
      }
      FullyPruned(before, rows);
    }
  }
}
