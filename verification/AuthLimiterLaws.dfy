/** The limiter admits no more than its limits in any window, in every interleaving. */
module AuthLimiterLaws {
  import opened Options
  import opened Basics
  import opened AuthLimiter

  /** The attempts admitted for one phone with timestamps in `(from, from + window]`. */
  function PhoneWindow(admitted: seq<Attempt>, action: Action, phone: nat, from: int): set<nat> {
    set i | 0 <= i < |admitted| && admitted[i].phone == Some(phone) && InWindow(admitted[i], action, from)
  }

  function RemoteWindow(admitted: seq<Attempt>, action: Action, remote: nat, from: int): set<nat> {
    set i | 0 <= i < |admitted| && admitted[i].remote == remote && InWindow(admitted[i], action, from)
  }

  predicate InWindow(a: Attempt, action: Action, from: int) {
    a.action == action && from < a.createdAt <= from + PolicyOf(action).window
  }

  // ----- the invariant -----

  /** No two transactions hold the same lock. */
  ghost predicate LocksExclusive(txs: map<TxId, Tx>) {
    forall t, u {:trigger SamePhone(txs[t], txs[u])} {:trigger SameRemote(txs[t], txs[u])} |
      t in txs && u in txs && t != u ::
      && !(txs[t].HoldsPhone() && txs[u].HoldsPhone() && SamePhone(txs[t], txs[u]))
      && !(txs[t].HoldsRemote() && txs[u].HoldsRemote() && SameRemote(txs[t], txs[u]))
  }

  /** The table is the history without rows older than the retention period. */
  ghost predicate TableSound(rows: map<nat, Attempt>, admitted: seq<Attempt>, clock: Instant) {
    && (forall i | i in rows :: i < |admitted| && rows[i] == admitted[i])
    && (forall i | 0 <= i < |admitted| :: admitted[i].createdAt <= clock)
    && (forall i | 0 <= i < |admitted| && i !in rows :: Expired(admitted[i], clock))
  }

  function AsTable(admitted: seq<Attempt>): map<nat, Attempt> {
    map i: nat | i < |admitted| :: admitted[i]
  }

  /** Every earlier attempt of the phone is at least the cooldown older than `at`. */
  predicate CooledDown(admitted: seq<Attempt>, action: Action, phone: Option<nat>, at: Instant) {
    forall i | 0 <= i < |admitted| && admitted[i].action == action && admitted[i].phone == phone ::
      admitted[i].createdAt + PolicyOf(action).cooldown <= at
  }

  /** What a transaction read before inserting still holds, even counting pruned rows. */
  predicate StillAdmits(admitted: seq<Attempt>, t: Tx, at: Instant) {
    && (t.phone.Some? ==> CooledDown(admitted, t.action, t.phone, at))
    && |RemoteHits(AsTable(admitted), t)| < PolicyOf(t.action).remoteLimit
    && (t.phone.Some? ==> |PhoneHits(AsTable(admitted), t)| < PolicyOf(t.action).phoneLimit)
  }

  ghost predicate TxsSound(txs: map<TxId, Tx>, admitted: seq<Attempt>, clock: Instant) {
    forall t | t in txs ::
      && txs[t].start <= clock
      && (txs[t].phase.WantPhone? ==> txs[t].phone.Some?)
      && (txs[t].phase.Inserted? ==> StillAdmits(admitted, txs[t], txs[t].phase.at))
  }

  ghost predicate PhoneBounded(admitted: seq<Attempt>) {
    forall action, phone, from :: |PhoneWindow(admitted, action, phone, from)| <= PolicyOf(action).phoneLimit
  }

  ghost predicate CooldownsKept(admitted: seq<Attempt>) {
    forall j | 0 <= j < |admitted| && admitted[j].phone.Some? ::
      CooledDown(admitted[..j], admitted[j].action, admitted[j].phone, admitted[j].admittedAt)
  }

  ghost predicate RemoteBounded(admitted: seq<Attempt>) {
    forall action, remote, from :: |RemoteWindow(admitted, action, remote, from)| <= PolicyOf(action).remoteLimit
  }

  ghost predicate Valid(s: State) {
    && LocksExclusive(s.txs) && TableSound(s.rows, s.admitted, s.clock) && TxsSound(s.txs, s.admitted, s.clock)
    && PhoneBounded(s.admitted) && RemoteBounded(s.admitted) && CooldownsKept(s.admitted)
  }

  // ----- the check under the locks -----

  /** Rows pruned so far are too old for any transaction that is still within its deadline. */
  lemma PrunedRowsDoNotCount(s: State, t: Tx)
    requires TableSound(s.rows, s.admitted, s.clock) && t.start <= s.clock <= t.start + Deadline()
    ensures RemoteHits(s.rows, t) == RemoteHits(AsTable(s.admitted), t)
    ensures PhoneHits(s.rows, t) == PhoneHits(AsTable(s.admitted), t)
  {
    assert forall i | i in AsTable(s.admitted) && Recent(s.admitted[i], t.action, t.start - PolicyOf(t.action).window) ::
        !Expired(s.admitted[i], s.clock);
  }

  /** Rows outside the counted window are older than any cooldown. */
  lemma AdmittedIsCooledDown(s: State, t: Tx)
    requires TableSound(s.rows, s.admitted, s.clock) && t.start <= s.clock <= t.start + Deadline()
    requires t.phone.Some? && Admits(s, t)
    ensures CooledDown(s.admitted, t.action, t.phone, s.clock)
  {
    PrunedRowsDoNotCount(s, t);
    forall i | 0 <= i < |s.admitted| && s.admitted[i].action == t.action && s.admitted[i].phone == t.phone
      ensures s.admitted[i].createdAt + PolicyOf(t.action).cooldown <= s.clock
    {
      if Recent(s.admitted[i], t.action, t.start - PolicyOf(t.action).window) {
        assert i in PhoneHits(AsTable(s.admitted), t);
      }
    }
  }

  /** A transaction may take a lock that nobody else holds. */
  lemma LocksStayExclusive(txs: map<TxId, Tx>, id: TxId, t: Tx)
    requires LocksExclusive(txs) && id in txs && SamePhone(t, txs[id]) && SameRemote(t, txs[id])
    requires t.HoldsPhone() && !txs[id].HoldsPhone() ==>
               forall u | u in txs && u != id && txs[u].HoldsPhone() :: !SamePhone(txs[u], txs[id])
    requires t.HoldsRemote() && !txs[id].HoldsRemote() ==>
               forall u | u in txs && u != id && txs[u].HoldsRemote() :: !SameRemote(txs[u], txs[id])
    ensures LocksExclusive(txs[id := t])
  {
    assert forall u | u in txs :: SamePhone(txs[u], t) <==> SamePhone(txs[u], txs[id]);
    assert forall u | u in txs :: SamePhone(t, txs[u]) <==> SamePhone(txs[u], t);
    assert forall u | u in txs :: SameRemote(txs[u], t) <==> SameRemote(txs[u], txs[id]);
    assert forall u | u in txs :: SameRemote(t, txs[u]) <==> SameRemote(txs[u], t);
  }

  lemma LockKeepsValid(s: State, e: Event)
    requires Valid(s) && (e.LockPhone? || e.LockRemote?)
    ensures Valid(Step(s, e))
  {
    var t := Step(s, e);
    if t != s { LocksStayExclusive(s.txs, e.id, t.txs[e.id]); }
  }

  lemma BeginKeepsValid(s: State, e: Event)
    requires Valid(s) && e.Begin?
    ensures Valid(Step(s, e))
  {
    var t := Step(s, e);
    assert forall i, j | i in t.txs && j in t.txs && i in s.txs && j in s.txs ::
        SamePhone(t.txs[i], t.txs[j]) == SamePhone(s.txs[i], s.txs[j]);
  }

  lemma AdmittedKeepsValid(s: State, id: TxId)
    requires Valid(s) && id in s.txs && s.txs[id].phase.Locked?
    requires s.clock <= s.txs[id].start + Deadline() && Admits(s, s.txs[id])
    ensures Valid(s.(txs := s.txs[id := s.txs[id].(phase := Inserted(s.clock))]))
  {
    PrunedRowsDoNotCount(s, s.txs[id]);
    if s.txs[id].phone.Some? { AdmittedIsCooledDown(s, s.txs[id]); }
    LocksStayExclusive(s.txs, id, s.txs[id].(phase := Inserted(s.clock)));
  }

  lemma CheckKeepsValid(s: State, id: TxId)
    requires Valid(s)
    ensures Valid(Step(s, Check(id)))
  {
    if id in s.txs && s.txs[id].phase.Locked? && s.clock <= s.txs[id].start + Deadline() && Admits(s, s.txs[id]) {
      AdmittedKeepsValid(s, id);
    }
  }

  /** Under its locks and within its deadline a transaction is admitted exactly when the whole
      history, rows pruned or not, leaves room in both windows and no cooldown runs. */
  lemma AdmissionIsExact(s: State, id: TxId)
    requires Valid(s) && id in s.txs && s.txs[id].phase.Locked? && s.clock <= s.txs[id].start + Deadline()
    ensures var t := Step(s, Check(id));
            && (id in t.txs <==> StillAdmits(s.admitted, s.txs[id], s.clock))
            && (id in t.txs ==> t.txs[id].phase == Inserted(s.clock)) && t.admitted == s.admitted
  {
    PrunedRowsDoNotCount(s, s.txs[id]);
    if s.txs[id].phone.Some? && Admits(s, s.txs[id]) { AdmittedIsCooledDown(s, s.txs[id]); }
  }

  // ----- committing a row -----

  /** Every window that a new row falls into was counted by its transaction. */
  lemma CommitKeepsPhoneBound(admitted: seq<Attempt>, t: Tx, at: Instant)
    requires PhoneBounded(admitted) && StillAdmits(admitted, t, at)
    ensures PhoneBounded(admitted + [t.Row(at)])
  {
    var n := |admitted|;
    forall action, phone, from
      ensures |PhoneWindow(admitted + [t.Row(at)], action, phone, from)| <= PolicyOf(action).phoneLimit
    {
      var before, after := PhoneWindow(admitted, action, phone, from), PhoneWindow(admitted + [t.Row(at)], action, phone, from);
      if n in after {
        assert after == before + {n};
        SubsetSize(before, PhoneHits(AsTable(admitted), t));
      } else {
        assert after == before;
      }
    }
  }

  lemma CommitKeepsRemoteBound(admitted: seq<Attempt>, t: Tx, at: Instant)
    requires RemoteBounded(admitted) && StillAdmits(admitted, t, at)
    ensures RemoteBounded(admitted + [t.Row(at)])
  {
    var n := |admitted|;
    forall action, remote, from
      ensures |RemoteWindow(admitted + [t.Row(at)], action, remote, from)| <= PolicyOf(action).remoteLimit
    {
      var before, after := RemoteWindow(admitted, action, remote, from), RemoteWindow(admitted + [t.Row(at)], action, remote, from);
      if n in after {
        assert after == before + {n};
        SubsetSize(before, RemoteHits(AsTable(admitted), t));
      } else {
        assert after == before;
      }
    }
  }

  /** A commit cannot change what another transaction has counted under its own locks. */
  lemma OthersStillAdmit(admitted: seq<Attempt>, t: Tx, at: Instant, u: Tx, uAt: Instant)
    requires StillAdmits(admitted, u, uAt)
    requires !SameRemote(t, u) && (u.phone.Some? ==> !SamePhone(t, u))
    ensures StillAdmits(admitted + [t.Row(at)], u, uAt)
  {
    assert RemoteHits(AsTable(admitted + [t.Row(at)]), u) == RemoteHits(AsTable(admitted), u);
    assert PhoneHits(AsTable(admitted + [t.Row(at)]), u) == PhoneHits(AsTable(admitted), u);
  }

  lemma CommitKeepsValid(s: State, id: TxId)
    requires Valid(s)
    ensures Valid(Step(s, Commit(id)))
  {
    if id in s.txs && s.txs[id].phase.Inserted? {
      var t, at := s.txs[id], s.txs[id].phase.at;
      var s' := Step(s, Commit(id));
      forall j | 0 <= j < |s'.admitted| && s'.admitted[j].phone.Some?
        ensures CooledDown(s'.admitted[..j], s'.admitted[j].action, s'.admitted[j].phone, s'.admitted[j].admittedAt)
      {
        assert s'.admitted[..j] == s.admitted[..j];
        assert s.admitted[..|s.admitted|] == s.admitted;
      }
      CommitKeepsPhoneBound(s.admitted, t, at);
      CommitKeepsRemoteBound(s.admitted, t, at);
      forall u | u in s'.txs && s'.txs[u].phase.Inserted? ensures StillAdmits(s'.admitted, s'.txs[u], s'.txs[u].phase.at) {
        assert SamePhone(s.txs[id], s.txs[u]) ==> s.txs[u].phone.None?;
        assert !SameRemote(s.txs[id], s.txs[u]);
        OthersStillAdmit(s.admitted, t, at, s.txs[u], s.txs[u].phase.at);
      }
    }
  }

  lemma PruneKeepsValid(s: State, e: Event)
    requires Valid(s) && e.Prune?
    ensures Valid(Step(s, e))
  {
    var rows := Step(s, e).rows;
    assert TableSound(rows, s.admitted, s.clock);
  }

  lemma StepKeepsValid(s: State, e: Event)
    requires Valid(s)
    ensures Valid(Step(s, e))
  {
    match e
    case Begin(_, _, _, _) => BeginKeepsValid(s, e);
    case LockPhone(_) => LockKeepsValid(s, e);
    case LockRemote(_) => LockKeepsValid(s, e);
    case Check(id) => CheckKeepsValid(s, id);
    case Commit(id) => CommitKeepsValid(s, id);
    case Prune(_, _) => PruneKeepsValid(s, e);
    case Wait(_) =>
    case Abort(_) =>
  }

  lemma {:induction false} RunKeepsValid(s: State, events: seq<Event>)
    requires Valid(s) || Initial(s)
    ensures Valid(Run(s, events))
  {
    if events != [] {
      RunKeepsValid(s, events[..|events| - 1]);
      StepKeepsValid(Run(s, events[..|events| - 1]), events[|events| - 1]);
    } else if Initial(s) {
      assert forall action, phone, from :: PhoneWindow([], action, phone, from) == {};
      assert forall action, remote, from :: RemoteWindow([], action, remote, from) == {};
    }
  }

  /** In every run, whatever the interleaving of begins, lock grants, commits, crashes and prunes,
      no window of the policy's length holds more admitted attempts of one phone or of one
      address than the policy allows; timestamps need not be in commit order. */
  lemma WindowsAreBounded(s: State, events: seq<Event>, action: Action, phone: nat, remote: nat, from: int)
    requires Initial(s)
    ensures |PhoneWindow(Run(s, events).admitted, action, phone, from)| <= PolicyOf(action).phoneLimit
    ensures |RemoteWindow(Run(s, events).admitted, action, remote, from)| <= PolicyOf(action).remoteLimit
  {
    RunKeepsValid(s, events);
  }

  /** An attempt is admitted only after the cooldown of every earlier attempt of its phone. */
  lemma CooldownHolds(s: State, events: seq<Event>, i: nat, j: nat)
    requires Initial(s)
    requires var h := Run(s, events).admitted; i < j < |h| && SameCaller(h[i], h[j])
    ensures var h := Run(s, events).admitted;
            h[i].createdAt + PolicyOf(h[j].action).cooldown <= h[j].admittedAt
  {
    RunKeepsValid(s, events);
    var h := Run(s, events).admitted;
    assert CooledDown(h[..j], h[j].action, h[j].phone, h[j].admittedAt);
    assert h[..j][i] == h[i];
  }

  predicate SameCaller(a: Attempt, b: Attempt) {
    a.action == b.action && a.phone == b.phone && a.phone.Some?
  }

  // ----- the locks -----

  predicate Blocked(s: State, id: TxId)
    requires id in s.txs
  {
    || (s.txs[id].phase.WantPhone? && !PhoneLockFree(s, id))
    || (s.txs[id].phase.WantRemote? && !RemoteLockFree(s, id))
  }

  /** The locks are taken in one order, so some open transaction can always move on. */
  lemma NoDeadlock(s: State)
    requires s.txs != map[]
    ensures exists id :: id in s.txs && !Blocked(s, id)
  {
    var id :| id in s.txs;
    if s.txs[id].phase.WantPhone? && !PhoneLockFree(s, id) {
      id :| id in s.txs && s.txs[id].HoldsPhone();
      assert s.txs[id].HoldsPhone();
    }
    if s.txs[id].phase.WantRemote? && !RemoteLockFree(s, id) {
      id :| id in s.txs && s.txs[id].HoldsRemote();
      assert s.txs[id].HoldsRemote();
    }
    assert !Blocked(s, id);
  }

  /** Byte order on strings, as `sort.Strings` uses it. */
  ghost predicate Sorted(a: string, b: string) {
    exists k :: 0 <= k < |a| && k < |b| && a[..k] == b[..k] && a[k] < b[k]
  }

  function LockKey(action: string, kind: string, value: string): string {
    "auth-attempt:" + action + ":" + kind + ":" + value
  }

  /** Sorting the two lock keys of a transaction puts the phone first, whatever the values. */
  lemma PhoneLockSortsFirst(action: string, phone: string, remote: string)
    ensures Sorted(LockKey(action, "phone", phone), LockKey(action, "remote", remote))
  {
    var prefix := "auth-attempt:" + action + ":";
    var a, b := LockKey(action, "phone", phone), LockKey(action, "remote", remote);
    assert a == prefix + ("phone" + ":" + phone) && b == prefix + ("remote" + ":" + remote);
    var k := |prefix|;
    assert a[..k] == prefix == b[..k];
    assert a[k] == 'p' && b[k] == 'r';
  }
}
