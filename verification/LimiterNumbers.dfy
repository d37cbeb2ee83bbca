/** The limiter in numbers: when a request is admitted, told to come back, granted a lock or pruned,
    over the columns of the attempts and the two sets of limits. */
module LimiterNumbers {
  import opened Options
  import opened AuthLimiter
  import opened AuthLimiterLaws

  /** Admitted attempts of one kind and phone number that began later than `since`. */
  function OfPhone(admitted: seq<Attempt>, action: Action, phone: Option<nat>, since: int): set<nat> {
    set i | 0 <= i < |admitted| && admitted[i].action == action && admitted[i].phone == phone && admitted[i].createdAt > since
  }

  function OfRemote(admitted: seq<Attempt>, action: Action, remote: nat, since: int): set<nat> {
    set i | 0 <= i < |admitted| && admitted[i].action == action && admitted[i].remote == remote && admitted[i].createdAt > since
  }

  /** For codes requested: fewer than 6 in the last hour for the phone, the last one 45 seconds ago,
      and fewer than 30 from the address.  For codes verified: in the last 15 minutes fewer than 10
      for the phone and fewer than 30 from the address. */
  predicate HasRoom(admitted: seq<Attempt>, t: Tx, now: Instant) {
    match t.action
    case Request =>
      && |OfRemote(admitted, Request, t.remote, t.start - 3_600_000_000)| < 30
      && (t.phone.Some? ==>
            && |OfPhone(admitted, Request, t.phone, t.start - 3_600_000_000)| < 6
            && forall i | 0 <= i < |admitted| && admitted[i].action == Request && admitted[i].phone == t.phone ::
                 admitted[i].createdAt + 45_000_000 <= now)
    case Verify =>
      && |OfRemote(admitted, Verify, t.remote, t.start - 900_000_000)| < 30
      && (t.phone.Some? ==> |OfPhone(admitted, Verify, t.phone, t.start - 900_000_000)| < 10)
  }

  /** Under its locks and within three seconds of its begin, a transaction is admitted if and only if
      the whole history has room for it. */
  lemma AdmissionInNumbers(s: State, id: TxId)
    requires Valid(s) && id in s.txs && s.txs[id].phase.Locked? && s.clock <= s.txs[id].start + 3_000_000
    ensures id in Step(s, Check(id)).txs <==> HasRoom(s.admitted, s.txs[id], s.clock)
  {
    var t := s.txs[id];
    AdmissionIsExact(s, id);
    SameHits(s.admitted, t);
    if t.action == Verify { assert forall i | 0 <= i < |s.admitted| :: s.admitted[i].createdAt <= s.clock; }
    hide Valid, Step;
  }

  /** Past the deadline nothing is admitted. */
  lemma LateIsRefused(s: State, id: TxId)
    requires id in s.txs && s.txs[id].phase.Locked? && s.clock > s.txs[id].start + 3_000_000
    ensures Step(s, Check(id)) == s.(txs := s.txs - {id})
  {
  }

  lemma SameHits(admitted: seq<Attempt>, t: Tx)
    ensures var since := t.start - if t.action == Request then 3_600_000_000 else 900_000_000;
            && RemoteHits(AsTable(admitted), t) == OfRemote(admitted, t.action, t.remote, since)
            && (t.phone.Some? ==> PhoneHits(AsTable(admitted), t) == OfPhone(admitted, t.action, t.phone, since))
  {
  }

  /** The bounds of all windows of an hour or 15 minutes, in every run. */
  lemma {:induction false} WindowsInNumbers(s: State, events: seq<Event>, phone: nat, remote: nat, from: int)
    requires Initial(s)
    ensures var h := Run(s, events).admitted;
            && |set i | i in OfPhone(h, Request, Some(phone), from) && h[i].createdAt <= from + 3_600_000_000| <= 6
            && |set i | i in OfPhone(h, Verify, Some(phone), from) && h[i].createdAt <= from + 900_000_000| <= 10
            && |set i | i in OfRemote(h, Request, remote, from) && h[i].createdAt <= from + 3_600_000_000| <= 30
            && |set i | i in OfRemote(h, Verify, remote, from) && h[i].createdAt <= from + 900_000_000| <= 30
  {
    var h := Run(s, events).admitted;
    WindowsAreBounded(s, events, Request, phone, remote, from);
    WindowsAreBounded(s, events, Verify, phone, remote, from);
    hide Run;
    assert (set i | i in OfPhone(h, Request, Some(phone), from) && h[i].createdAt <= from + 3_600_000_000) == PhoneWindow(h, Request, phone, from);
    assert (set i | i in OfPhone(h, Verify, Some(phone), from) && h[i].createdAt <= from + 900_000_000) == PhoneWindow(h, Verify, phone, from);
    assert (set i | i in OfRemote(h, Request, remote, from) && h[i].createdAt <= from + 3_600_000_000) == RemoteWindow(h, Request, remote, from);
    assert (set i | i in OfRemote(h, Verify, remote, from) && h[i].createdAt <= from + 900_000_000) == RemoteWindow(h, Verify, remote, from);
  }

  /** Code requests of one phone number are admitted 45 seconds apart, in every run. */
  lemma RequestsAreApart(s: State, events: seq<Event>, i: nat, j: nat)
    requires Initial(s)
    requires var h := Run(s, events).admitted;
             i < j < |h| && h[i].action == h[j].action == Request && h[i].phone == h[j].phone && h[i].phone.Some?
    ensures var h := Run(s, events).admitted; h[i].createdAt + 45_000_000 <= h[j].admittedAt
  {
    CooldownHolds(s, events, i, j);
  }

  // ----- locks -----

  /** A transaction gets its phone lock unless another of the same kind and phone number has it, and
      then its address lock unless another of the same kind and address has that. */
  lemma LockIsGranted(s: State, id: TxId)
    requires id in s.txs
    ensures s.txs[id].phase == WantPhone && s.txs[id].phone.Some? ==>
              Step(s, LockPhone(id)) ==
              if forall u | u in s.txs && u != id && s.txs[u].action == s.txs[id].action && s.txs[u].phone == s.txs[id].phone ::
                   s.txs[u].phase == WantPhone
              then s.(txs := s.txs[id := s.txs[id].(phase := WantRemote)]) else s
    ensures s.txs[id].phase == WantRemote ==>
              Step(s, LockRemote(id)) ==
              if forall u | u in s.txs && u != id && s.txs[u].action == s.txs[id].action && s.txs[u].remote == s.txs[id].remote ::
                   s.txs[u].phase == WantPhone || s.txs[u].phase == WantRemote
              then s.(txs := s.txs[id := s.txs[id].(phase := Locked)]) else s
    ensures s.txs[id].phase != WantPhone ==> Step(s, LockPhone(id)) == s
    ensures s.txs[id].phase != WantRemote ==> Step(s, LockRemote(id)) == s
  {
  }

  /** What a committed transaction leaves: its kind, phone number and address at the time it began. */
  lemma CommittedRow(s: State, id: TxId)
    requires id in s.txs && s.txs[id].phase.Inserted?
    ensures var t := s.txs[id];
            var row := Attempt(t.action, t.phone, t.remote, t.start, t.phase.at);
            Step(s, Commit(id)) == State(s.clock, s.rows[|s.admitted| := row], s.admitted + [row], s.txs - {id})
  {
  }

  /** A pruning statement that began `age` ago deletes nothing younger than seven days. */
  lemma PrunedRows(s: State, ids: set<nat>, age: nat)
    requires age <= s.clock
    ensures Step(s, Prune(ids, age)) ==
            s.(rows := map i | i in s.rows && (i !in ids || s.rows[i].createdAt + 604_800_000_000 >= s.clock - age) :: s.rows[i])
  {
  }
}
