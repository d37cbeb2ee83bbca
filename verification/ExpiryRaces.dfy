/** `ensureSubscription` without its row lock: the row is read, and if it had lapsed it is expired by
    a second statement that does not look again.  Between the two, other transactions commit. */
module ExpiryRaces {
  import opened Options
  import opened Calendar
  import opened Payments
  import opened PaymentLaws
  import PaymentRuns

  type AgentId = nat

  /** A request that read a lapsed row of `user`; `credits` is history, the periods credited before. */
  datatype Read = Read(user: UserId, credits: nat)

  datatype Shared = Shared(rows: State, pending: map<AgentId, Read>)

  datatype Action =
    | Atomic(event: Event)
    | InsertTrial(user: UserId)
    | ReadRow(agent: AgentId, user: UserId)
    | Expire(agent: AgentId)
    | GiveUp(agent: AgentId)

  function Inserted(s: State, user: UserId): State {
    if user in s.subs || user !in s.users then s else s.(subs := s.subs[user := FreshTrial(s.users[user])])
  }

  function Expired(s: State, user: UserId): State
    requires user in s.subs
  {
    s.(subs := s.subs[user := s.subs[user].(status := SubscriptionStatus.Expired)])
  }

  ghost function Act(s: Shared, a: Action): Shared {
    match a
    case Atomic(event) => s.(rows := Step(s.rows, event))
    case InsertTrial(user) => s.(rows := Inserted(s.rows, user))
    case ReadRow(agent, user) =>
      if agent !in s.pending && user in s.rows.subs && Lapsed(s.rows.subs[user], s.rows.clock)
      then s.(pending := s.pending[agent := Read(user, |s.rows.credits|)]) else s
    case Expire(agent) =>
      if agent in s.pending && s.pending[agent].user in s.rows.subs
      then Shared(Expired(s.rows, s.pending[agent].user), s.pending - {agent}) else s
    case GiveUp(agent) => s.(pending := s.pending - {agent})
  }

  ghost function RunAll(s: Shared, actions: seq<Action>): Shared {
    if actions == [] then s else Act(RunAll(s, actions[..|actions| - 1]), actions[|actions| - 1])
  }

  /** Since the read, a payment of the user was committed whose period has not ended. */
  predicate PaidSince(s: State, r: Read) {
    exists k: nat :: r.credits <= k < |s.credits| && s.credits[k].user == r.user && s.credits[k].end > s.clock
  }

  /** A write that expires a subscription paid for since it was read. */
  predicate Late(s: Shared, a: Action) {
    a.Expire? && a.agent in s.pending && PaidSince(s.rows, s.pending[a.agent])
  }

  ghost predicate NeverLate(s: Shared, actions: seq<Action>) {
    actions != [] ==>
      NeverLate(s, actions[..|actions| - 1]) && !Late(RunAll(s, actions[..|actions| - 1]), actions[|actions| - 1])
  }

  /** Every period credited before the read had ended by then. */
  ghost predicate ReadSound(s: State, r: Read) {
    && r.user in s.subs && r.credits <= |s.credits|
    && forall k | 0 <= k < r.credits && s.credits[k].user == r.user :: s.credits[k].end <= s.clock
  }

  ghost predicate Sound(s: Shared) {
    Valid(s.rows) && forall a | a in s.pending :: ReadSound(s.rows, s.pending[a])
  }

  lemma LapsedMeansEnded(s: State, user: UserId)
    requires Valid(s) && user in s.subs && Lapsed(s.subs[user], s.clock)
    ensures ReadSound(s, Read(user, |s.credits|))
  {
    assert StatusSound(s.subs[user], s.clock);
    assert forall k | 0 <= k < |s.credits| :: Covered(s.credits[k], s.subs);
  }

  lemma RowsGrow(s: State, e: Event)
    requires Valid(s)
    ensures var t := Step(s, e);
            s.clock <= t.clock && s.credits <= t.credits && s.subs.Keys <= t.subs.Keys
  {
    PaymentRuns.StepEvolves(s, e);
  }

  lemma UnpaidMeansEnded(s: State, r: Read)
    requires Valid(s) && ReadSound(s, r) && !PaidSince(s, r)
    ensures StatusSound(Expired(s, r.user).subs[r.user], s.clock)
  {
    var sub := s.subs[r.user];
    if sub.periodEnd.Some? { assert EndIsCredited(s.credits, r.user, sub.periodEnd.value); }
  }

  lemma LateWriteBreaks(s: State, r: Read)
    requires PeriodsSound(s.subs, s.credits, s.clock) && r.user in s.subs && PaidSince(s, r)
    ensures !PeriodsSound(Expired(s, r.user).subs, s.credits, s.clock)
  {
    var k: nat :| r.credits <= k < |s.credits| && s.credits[k].user == r.user && s.credits[k].end > s.clock;
    assert Covered(s.credits[k], s.subs);
    assert !StatusSound(Expired(s, r.user).subs[r.user], s.clock);
  }

  /** Expiring keeps the invariant if and only if no unended period was paid since the read. */
  lemma ExpiryIsSafe(s: State, r: Read)
    requires Valid(s) && ReadSound(s, r)
    ensures Valid(Expired(s, r.user)) <==> !PaidSince(s, r)
  {
    if PaidSince(s, r) {
      LateWriteBreaks(s, r);
    } else {
      UnpaidMeansEnded(s, r);
      SubscriptionWritten(s.subs, s.credits, s.clock, r.user, Expired(s, r.user).subs[r.user]);
    }
  }

  lemma ActKeepsSound(s: Shared, a: Action)
    requires Sound(s) && !Late(s, a)
    ensures Sound(Act(s, a))
  {
    hide Step, Valid;
    match a
    case Atomic(event) =>
      StepKeepsValid(s.rows, event);
      RowsGrow(s.rows, event);
    case InsertTrial(user) => InsertKeepsValid(s.rows, user);
    case ReadRow(agent, user) =>
      if Act(s, a) != s { LapsedMeansEnded(s.rows, user); }
    case Expire(agent) =>
      if agent in s.pending { ExpiryIsSafe(s.rows, s.pending[agent]); }
    case GiveUp(_) =>
  }

  lemma InsertKeepsValid(s: State, user: UserId)
    requires Valid(s)
    ensures Valid(Inserted(s, user))
  {
    if Inserted(s, user) != s {
      SubscriptionWritten(s.subs, s.credits, s.clock, user, FreshTrial(s.users[user]));
    }
  }

  /** As long as no write is late the payment invariant holds, and with it every theorem that rests
      on it: the credited periods of a user stay disjoint. */
  lemma {:induction false} DisjointUnlessLate(s: Shared, actions: seq<Action>)
    requires Initial(s.rows) && s.pending == map[] && NeverLate(s, actions)
    ensures Sound(RunAll(s, actions)) && CreditsChained(RunAll(s, actions).rows.credits)
  {
    hide Act;
    if actions == [] {
      RunKeepsValid(s.rows, []);
      assert Run(s.rows, []) == s.rows;
    } else {
      DisjointUnlessLate(s, actions[..|actions| - 1]);
      ActKeepsSound(RunAll(s, actions[..|actions| - 1]), actions[|actions| - 1]);
    }
  }

  /** After a late write the next payment of the user that commits while the paid period lasts
      starts at once, inside that period. */
  lemma LateMakesOverlap(s: State, r: Read, k: nat, result: BankResult, start: Instant, lag: nat)
    requires Valid(s) && ReadSound(s, r)
    requires k < |s.credits| && s.credits[k].user == r.user && s.credits[k].end > s.clock + lag
    requires result.order in s.orders && s.orders[result.order].user == r.user && Open(s.orders[result.order])
    requires Activate(Expired(s, r.user), result, start, lag).outcome == Accepted
    ensures !CreditsChained(Activate(Expired(s, r.user), result, start, lag).state.credits)
  {
    hide AddPeriod;
    var t := Expired(s, r.user);
    ActivateAccepted(t, result, start, lag);
    var credits := Activate(t, result, start, lag).state.credits;
    assert |credits| == |s.credits| + 1 && credits[|s.credits|].start == s.clock + lag;
    assert credits[|s.credits|].user == r.user && credits[k] == s.credits[k];
  }

  // ----- a run in which two credited periods overlap -----

  function PaidFor(order: OrderId): BankResult {
    BankResult(order, 100 + order, 3, 300000, KGS, 0)
  }

  /** The trial has ended; a request reads that, the first order is paid, the request writes, and a
      second order is made and paid. */
  function LateRequest(): seq<Action> {
    [Atomic(Register(1)), Atomic(Start(Checkout(1, 10, Standard, Month, 3000), 0, 1)), Atomic(Wait(Days(40))),
     ReadRow(9, 1), Atomic(Callback(PaidFor(1), true, 0, 0)), Expire(9),
     Atomic(Start(Checkout(1, 20, Standard, Month, 3000), 0, 2)), Atomic(Callback(PaidFor(2), true, 0, 0))]
  }

  function Beginning(): Shared {
    Shared(State(Days(100), map[], map[], map[], []), map[])
  }

  lemma RunAllStep(s: Shared, actions: seq<Action>, k: nat)
    requires k < |actions|
    ensures RunAll(s, actions[..k + 1]) == Act(RunAll(s, actions[..k]), actions[k])
  {
    hide Act;
    assert actions[..k + 1][..k] == actions[..k];
  }

  /** After the wait, just before the read. */
  function TrialEnded(): State {
    PaymentRuns.OneOpenOrder().(clock := Days(140))
  }

  lemma FirstOrderReached()
    ensures Act(Act(Act(Beginning(), LateRequest()[0]), LateRequest()[1]), LateRequest()[2]) == Shared(TrialEnded(), map[])
  {
    var c := Checkout(1, 10, Standard, Month, 3000);
    var s1 := Beginning().rows.(users := map[1 := Days(100)]);
    PaymentRuns.NewOrderIsReserved(s1, c, Days(100), 1);
    assert Reserve(s1, c, Days(100), 1).state == PaymentRuns.OneOpenOrder();
  }

  function FirstPaid(): State {
    PaidState(TrialEnded(), PaidFor(1), Days(140), Days(140), FreshTrial(Days(100)).(status := SubscriptionStatus.Expired))
  }

  lemma FirstPayment()
    ensures Step(TrialEnded(), Callback(PaidFor(1), true, 0, 0)) == FirstPaid()
  {
    hide AddPeriod;
  }

  function Overwritten(): State {
    Expired(FirstPaid(), 1)
  }

  function SecondOpen(): State {
    Overwritten().(orders := Overwritten().orders[2 := NewOrder(Checkout(1, 20, Standard, Month, 3000), Days(140))])
  }

  lemma SecondOrder()
    ensures Step(Overwritten(), Start(Checkout(1, 20, Standard, Month, 3000), 0, 2)) == SecondOpen()
  {
    hide AddPeriod;
    var s, c := Overwritten(), Checkout(1, 20, Standard, Month, 3000);
    PaymentRuns.NewOrderIsReserved(s, c, Days(140), 2);
    assert s.subs[1 := s.subs[1]] == s.subs;
  }

  lemma SecondPayment()
    ensures !CreditsChained(Step(SecondOpen(), Callback(PaidFor(2), true, 0, 0)).credits)
  {
    hide AddPeriod;
    AddPeriodAdvances(Days(140), Month);
    var credits := Step(SecondOpen(), Callback(PaidFor(2), true, 0, 0)).credits;
    assert |credits| == 2 && credits[0].user == credits[1].user == 1;
    assert credits[0].end == AddPeriod(Days(140), Month) && credits[1].start == Days(140);
  }

  lemma ReadTooEarly()
    ensures Act(Shared(TrialEnded(), map[]), LateRequest()[3]) == Shared(TrialEnded(), map[9 := Read(1, 0)])
  {
  }

  lemma WrittenTooLate()
    ensures var s := Shared(FirstPaid(), map[9 := Read(1, 0)]);
            Late(s, Action.Expire(9)) && Act(s, Action.Expire(9)) == Shared(Overwritten(), map[])
  {
    hide AddPeriod;
    AddPeriodAdvances(Days(140), Month);
    var s := FirstPaid();
    assert |s.credits| == 1 && s.credits[0].user == 1 && s.credits[0].end == AddPeriod(Days(140), Month);
    assert map[9 := Read(1, 0)] - {9} == map[];
  }

  lemma AtomicStep(s: Shared, e: Event)
    ensures Act(s, Atomic(e)) == Shared(Step(s.rows, e), s.pending)
  {
    hide Step;
  }

  /** From an empty database, two paid periods of one user come to overlap. */
  lemma OverlapIsReached()
    ensures Initial(Beginning().rows) && Beginning().pending == map[]
    ensures !CreditsChained(RunAll(Beginning(), LateRequest()).rows.credits)
  {
    hide Step, Act, TrialEnded, FirstPaid, Overwritten, SecondOpen, CreditsChained;
    var actions, s := LateRequest(), Beginning();
    assert actions[..0] == [] && RunAll(s, []) == s;
    RunAllStep(s, actions, 0);
    RunAllStep(s, actions, 1);
    RunAllStep(s, actions, 2);
    RunAllStep(s, actions, 3);
    RunAllStep(s, actions, 4);
    RunAllStep(s, actions, 5);
    RunAllStep(s, actions, 6);
    RunAllStep(s, actions, 7);
    FirstOrderReached();
    ReadTooEarly();
    var pending := map[9 := Read(1, 0)];
    AtomicStep(Shared(TrialEnded(), pending), Callback(PaidFor(1), true, 0, 0));
    FirstPayment();
    WrittenTooLate();
    AtomicStep(Shared(Overwritten(), map[]), Start(Checkout(1, 20, Standard, Month, 3000), 0, 2));
    SecondOrder();
    AtomicStep(Shared(SecondOpen(), map[]), Callback(PaidFor(2), true, 0, 0));
    SecondPayment();
    assert actions[..8] == actions;
  }
}
