/** The sliding-window limiter on SMS attempts, as transactions that interleave at every
    statement.  A transaction takes its timestamp when it begins and then waits for its locks, so
    rows appear out of timestamp order; it dies by itself when its deadline passes. */
module AuthLimiter {
  import opened Options

  /** Microseconds. */
  type Instant = nat
  type TxId = nat

  function Seconds(n: nat): nat {
    n * 1_000_000
  }

  datatype Action = Request | Verify

  datatype Policy = Policy(window: nat, phoneLimit: nat, remoteLimit: nat, cooldown: nat)

  /** The arguments of the two callers of `reserveAuthAttempt`. */
  function PolicyOf(action: Action): Policy {
    match action
    case Request => Policy(Seconds(3600), 6, 30, Seconds(45))
    case Verify => Policy(Seconds(900), 10, 30, 0)
  }

  function Deadline(): nat { Seconds(3) }

  function Retention(): nat { Seconds(604_800) }

  /** A row of `auth_attempts`; `admittedAt` records when its limits were checked. */
  datatype Attempt = Attempt(action: Action, phone: Option<nat>, remote: nat, createdAt: Instant, admittedAt: Instant)

  /** A transaction acquires its locks in sorted key order, which puts the phone lock first. */
  datatype Phase = WantPhone | WantRemote | Locked | Inserted(at: Instant)

  datatype Tx = Tx(action: Action, phone: Option<nat>, remote: nat, start: Instant, phase: Phase) {
    predicate HoldsPhone() {
      phone.Some? && !phase.WantPhone?
    }

    predicate HoldsRemote() {
      phase.Locked? || phase.Inserted?
    }

    function Row(at: Instant): Attempt {
      Attempt(action, phone, remote, start, at)
    }
  }

  /** `rows` is what queries see; `admitted` is every attempt ever committed, and the identifier
      of a row is its place there. */
  datatype State = State(clock: Instant, rows: map<nat, Attempt>, admitted: seq<Attempt>, txs: map<TxId, Tx>)

  predicate SamePhone(t: Tx, u: Tx) {
    t.action == u.action && t.phone == u.phone
  }

  predicate SameRemote(t: Tx, u: Tx) {
    t.action == u.action && t.remote == u.remote
  }

  predicate PhoneLockFree(s: State, id: TxId)
    requires id in s.txs
  {
    forall other | other in s.txs && other != id && s.txs[other].HoldsPhone() :: !SamePhone(s.txs[other], s.txs[id])
  }

  predicate RemoteLockFree(s: State, id: TxId)
    requires id in s.txs
  {
    forall other | other in s.txs && other != id && s.txs[other].HoldsRemote() :: !SameRemote(s.txs[other], s.txs[id])
  }

  // ----- the check -----

  predicate Recent(a: Attempt, action: Action, since: int) {
    a.action == action && a.createdAt > since
  }

  function PhoneHits(rows: map<nat, Attempt>, t: Tx): set<nat> {
    set i | i in rows && Recent(rows[i], t.action, t.start - PolicyOf(t.action).window) && rows[i].phone == t.phone && t.phone.Some?
  }

  function RemoteHits(rows: map<nat, Attempt>, t: Tx): set<nat> {
    set i | i in rows && Recent(rows[i], t.action, t.start - PolicyOf(t.action).window) && rows[i].remote == t.remote
  }

  predicate CoolingDown(s: State, t: Tx) {
    exists i | i in PhoneHits(s.rows, t) :: s.rows[i].createdAt + PolicyOf(t.action).cooldown > s.clock
  }

  predicate Admits(s: State, t: Tx) {
    && !(PolicyOf(t.action).cooldown > 0 && CoolingDown(s, t))
    && |RemoteHits(s.rows, t)| < PolicyOf(t.action).remoteLimit
    && (t.phone.Some? ==> |PhoneHits(s.rows, t)| < PolicyOf(t.action).phoneLimit)
  }

  // ----- steps -----

  datatype Event =
    | Wait(ticks: nat)
    | Begin(id: TxId, action: Action, phone: Option<nat>, remote: nat)
    | LockPhone(id: TxId)
    | LockRemote(id: TxId)
    | Check(id: TxId)
    | Commit(id: TxId)
    | Abort(id: TxId)
    | Prune(ids: set<nat>, age: nat)

  predicate Expired(a: Attempt, now: Instant) {
    a.createdAt + Retention() < now
  }

  function Step(s: State, e: Event): State {
    match e
    case Wait(ticks) => s.(clock := s.clock + ticks)
    case Begin(id, action, phone, remote) =>
      if id in s.txs then s
      else
        var phase := if phone.Some? then WantPhone else WantRemote;
        s.(txs := s.txs[id := Tx(action, phone, remote, s.clock, phase)])
    case LockPhone(id) =>
      if id in s.txs && s.txs[id].phase.WantPhone? && PhoneLockFree(s, id)
      then s.(txs := s.txs[id := s.txs[id].(phase := WantRemote)]) else s
    case LockRemote(id) =>
      if id in s.txs && s.txs[id].phase.WantRemote? && RemoteLockFree(s, id)
      then s.(txs := s.txs[id := s.txs[id].(phase := Locked)]) else s
    case Check(id) =>
      if id !in s.txs || !s.txs[id].phase.Locked? then s
      else if s.clock > s.txs[id].start + Deadline() || !Admits(s, s.txs[id]) then s.(txs := s.txs - {id})
      else s.(txs := s.txs[id := s.txs[id].(phase := Inserted(s.clock))])
    case Commit(id) =>
      if id in s.txs && s.txs[id].phase.Inserted? then
        var row := s.txs[id].Row(s.txs[id].phase.at);
        State(s.clock, s.rows[|s.admitted| := row], s.admitted + [row], s.txs - {id})
      else s
    case Abort(id) => s.(txs := s.txs - {id})
    case Prune(ids, age) =>
      // each statement deletes rows older than the retention period at its own start
      s.(rows := map i | i in s.rows && !(i in ids && Expired(s.rows[i], s.clock - Min(age, s.clock))) :: s.rows[i])
  }

  function Min(a: nat, b: nat): (m: nat)
    ensures m <= b
  {
    if a < b then a else b
  }

  function Run(s: State, events: seq<Event>): State {
    if events == [] then s else Step(Run(s, events[..|events| - 1]), events[|events| - 1])
  }

  predicate Initial(s: State) {
    s.rows == map[] && s.admitted == [] && s.txs == map[]
  }
}
