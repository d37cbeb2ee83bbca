/** Theorems about whole runs of the payment transactions. */
module PaymentRuns {
  import opened Options
  import opened Calendar
  import opened Payments
  import opened PaymentLaws

  // ----- what never changes -----

  /** How a row may change: identity and money never, a transaction number never once set, an
      invoice number only to another one, a canceled order only by filling in provider numbers,
      and a paid order not at all. */
  predicate OrderEvolves(o: Order, p: Order) {
    && SameKey(o, p) && p.plan == o.plan && p.period == o.period && p.createdAt == o.createdAt
    && p.amountKgs == o.amountKgs && p.amountKopecks == o.amountKopecks
    && (o.transaction != 0 ==> p.transaction == o.transaction)
    && (o.invoice != 0 ==> p.invoice != 0)
    && (o.status == Processing ==> p.status != Pending)
    && (o.status == Canceled ==> p.status == Canceled)
    && (o.status == Paid ==> p == o)
  }

  predicate PeriodGrows(before: Option<Instant>, after: Option<Instant>) {
    before.Some? ==> after.Some? && before.value <= after.value
  }

  ghost predicate Evolves(s: State, t: State) {
    && s.clock <= t.clock
    && s.credits <= t.credits
    && (forall i | i in s.orders :: i in t.orders && OrderEvolves(s.orders[i], t.orders[i]))
    && (forall u | u in s.subs :: u in t.subs && PeriodGrows(s.subs[u].periodEnd, t.subs[u].periodEnd))
  }

  lemma PaidStateEvolves(s: State, r: BankResult, start: Instant, now: Instant, sub: Subscription, c: Credit)
    requires r.order in s.orders && Open(s.orders[r.order]) && BelongsTo(r, s.orders[r.order]) && s.clock <= now
    requires c == PaidPeriod(r.order, s.orders[r.order], sub, now)
    requires c.user in s.subs && Follows(c, s.subs[c.user].periodEnd, now)
    ensures Evolves(s, PaidState(s, r, start, now, sub))
  {
    hide AddPeriod;
  }

  lemma {:induction false} ActivateEvolves(s: State, r: BankResult, start: Instant, lag: nat)
    requires Valid(s) && r.order in s.orders && Open(s.orders[r.order]) && BelongsTo(r, s.orders[r.order])
    ensures Activate(s, r, start, lag).outcome == Accepted ==> Evolves(s, Activate(s, r, start, lag).state)
  {
    hide AddPeriod, PaidState, Activate;
    if Activate(s, r, start, lag).outcome == Accepted {
      var now, o := s.clock + lag, s.orders[r.order];
      var sub := Refreshed(s.subs[o.user], s.clock);
      ActivateAccepted(s, r, start, lag);
      PaidPeriodFollows(s, r.order, now);
      PaidStateEvolves(s, r, start, now, sub, PaidPeriod(r.order, o, sub, now));
    }
  }

  lemma {:induction false} ApplyResultEvolves(s: State, r: BankResult, allowed: bool, start: Instant, lag: nat)
    requires Valid(s)
    ensures Evolves(s, ApplyResult(s, r, allowed, start, lag).state)
  {
    hide AddPeriod, Activate, Valid;
    var Ack(t, outcome) := ApplyResult(s, r, allowed, start, lag);
    if outcome != Accepted {
      RejectedUnchanged(s, r, allowed, start, lag);
    } else if r.status == 3 && s.orders[r.order].status != Paid {
      ActivateEvolves(s, r, start, lag);
    } else {
      var o := s.orders[r.order];
      if o.status != Paid { RecordedEvolves(o, r, if r.status == 1 then Processing else Canceled, start); }
    }
  }

  lemma RecordedEvolves(o: Order, r: BankResult, status: OrderStatus, start: Instant)
    requires o.status != Paid && status != Pending && (o.status == Canceled ==> status == Canceled)
    ensures OrderEvolves(o, Recorded(o, r, status, start))
  {
  }

  /** A result that is not accepted is rolled back. */
  lemma RejectedUnchanged(s: State, r: BankResult, allowed: bool, start: Instant, lag: nat)
    requires ApplyResult(s, r, allowed, start, lag).outcome != Accepted
    ensures ApplyResult(s, r, allowed, start, lag).state == s
  {
    hide AddPeriod;
  }

  lemma ReserveEvolves(s: State, c: Checkout, start: Instant, newId: OrderId)
    ensures Evolves(s, Reserve(s, c, start, newId).state)
  {
    hide Reserve;
    ReserveCases(s, c, start, newId);
  }

  lemma {:induction false} StepEvolves(s: State, e: Event)
    requires Valid(s)
    ensures Evolves(s, Step(s, e))
  {
    hide ApplyResult, Reserve;
    match e
    case Callback(r, allowed, age, lag) => ApplyResultEvolves(s, r, allowed, Begun(s, age), lag);
    case Start(c, age, newId) => ReserveEvolves(s, c, Begun(s, age), newId);
    case _ => PlainStepEvolves(s, e);
  }

  lemma PlainStepEvolves(s: State, e: Event)
    requires !e.Callback? && !e.Start?
    ensures Evolves(s, Step(s, e))
  {
    hide ApplyResult, Reserve;
  }

  lemma EvolvesTransitive(s: State, t: State, u: State)
    requires Evolves(s, t) && Evolves(t, u)
    ensures Evolves(s, u)
  {
    forall i | i in s.orders ensures i in u.orders && OrderEvolves(s.orders[i], u.orders[i]) {
      assert i in t.orders && OrderEvolves(s.orders[i], t.orders[i]);
    }
    forall v | v in s.subs ensures v in u.subs && PeriodGrows(s.subs[v].periodEnd, u.subs[v].periodEnd) {
      assert v in t.subs;
    }
  }

  /** Over any run: paid and canceled are absorbing, the money and identity of an order are
      fixed, transaction numbers are fixed once set, and no credited period is ever lost. */
  lemma {:induction false} RunEvolves(s: State, events: seq<Event>)
    requires Valid(s)
    ensures Evolves(s, Run(s, events))
  {
    if events != [] {
      var before := Run(s, events[..|events| - 1]);
      RunEvolves(s, events[..|events| - 1]);
      RunKeepsValid(s, events[..|events| - 1]);
      StepEvolves(before, events[|events| - 1]);
      EvolvesTransitive(s, before, Run(s, events));
    }
  }

  // ----- payment and credit -----

  lemma {:induction false} CreditCount(credits: seq<Credit>, ids: set<OrderId>)
    requires forall k, l | 0 <= k < l < |credits| :: credits[k].order != credits[l].order
    requires forall k | 0 <= k < |credits| :: credits[k].order in ids
    requires forall i | i in ids :: HasCredit(credits, i)
    ensures |ids| == |credits|
  {
    if credits == [] {
      if i :| i in ids { assert HasCredit(credits, i); }
    } else {
      var rest, last := credits[..|credits| - 1], credits[|credits| - 1];
      forall i | i in ids - {last.order} ensures HasCredit(rest, i) {
        assert HasCredit(credits, i);
        var k :| 0 <= k < |credits| && credits[k].order == i;
        assert rest[k].order == i;
      }
      CreditCount(rest, ids - {last.order});
    }
  }

  function PaidOrders(orders: Orders): set<OrderId> {
    set i | i in orders && orders[i].status == Paid
  }

  ghost predicate CreditedOnce(orders: Orders, credits: seq<Credit>) {
    && (forall i | i in orders :: orders[i].status == Paid <==> HasCredit(credits, i))
    && |credits| == |PaidOrders(orders)|
    && (forall k, l | 0 <= k < l < |credits| :: credits[k].order != credits[l].order)
  }

  /** Each credit is one billing period of its order, and periods of one user are disjoint. */
  ghost predicate PeriodsDisjoint(t: State) {
    && (forall k | 0 <= k < |t.credits| ::
          CreditFits(t.credits[k], t.orders) && t.credits[k].start < t.credits[k].end)
    && CreditsChained(t.credits)
  }

  /** Every order extends its user's subscription exactly once if it is paid and never
      otherwise; each extension is one billing period; and the periods credited to one user
      are disjoint, in payment order. */
  lemma {:induction false} PaymentsAreCreditedOnce(s: State, events: seq<Event>)
    requires Initial(s)
    ensures CreditedOnce(Run(s, events).orders, Run(s, events).credits) && PeriodsDisjoint(Run(s, events))
  {
    RunKeepsValid(s, events);
    PaidMeansCredited(Run(s, events).orders, Run(s, events).credits);
    CreditsArePeriods(Run(s, events));
  }

  lemma PaidMeansCredited(orders: Orders, credits: seq<Credit>)
    requires CreditsSound(orders, credits)
    ensures CreditedOnce(orders, credits)
  {
    hide AddPeriod;
    forall i | i in orders ensures orders[i].status == Paid <==> HasCredit(credits, i) {
      if k :| 0 <= k < |credits| && credits[k].order == i { assert CreditFits(credits[k], orders); }
    }
    forall k | 0 <= k < |credits| ensures credits[k].order in PaidOrders(orders) {
      assert CreditFits(credits[k], orders);
    }
    CreditCount(credits, PaidOrders(orders));
  }

  lemma {:induction false} CreditsArePeriods(t: State)
    requires Valid(t)
    ensures PeriodsDisjoint(t)
  {
    hide AddPeriod;
    forall k | 0 <= k < |t.credits|
      ensures CreditFits(t.credits[k], t.orders) && t.credits[k].start < t.credits[k].end
    {
      AddPeriodAdvances(t.credits[k].start, t.orders[t.credits[k].order].period);
    }
  }

  /** Only the first accepted payment of an open order adds a credit. */
  lemma OnlyPaymentsCredit(s: State, e: Event)
    requires Step(s, e).credits != s.credits
    ensures e.Callback?
    ensures var r := e.result;
            && r.order in s.orders && WellFormed(r) && Open(s.orders[r.order]) && BelongsTo(r, s.orders[r.order])
            && Activate(s, r, Begun(s, e.age), e.lag) == Ack(Step(s, e), Accepted)
  {
    hide AddPeriod, Reserve;
    if e.Start? { ReserveCases(s, e.checkout, Begun(s, e.age), e.newId); }
  }

  /** A step credits at most one period.  That period starts now or, while the last one runs,
      at its end; the subscription becomes active until its end, which strictly grows. */
  lemma CreditStacksPeriods(s: State, e: Event)
    requires Valid(s) && Step(s, e).credits != s.credits
    ensures var t := Step(s, e);
            && |t.credits| == |s.credits| + 1
            && Stacked(s, t, t.credits[|s.credits|])
  {
    hide AddPeriod, Activate, Step;
    OnlyPaymentsCredit(s, e);
    ActivateAccepted(s, e.result, Begun(s, e.age), e.lag);
    PaidPeriodFollows(s, e.result.order, s.clock + e.lag);
  }

  ghost predicate Stacked(s: State, t: State, c: Credit) {
    && c.order in s.orders && c.order in t.orders && c.user in s.subs && c.user in t.subs
    && Open(s.orders[c.order]) && t.orders[c.order].status == Paid
    && Follows(c, s.subs[c.user].periodEnd, t.clock)
    && t.subs == s.subs[c.user := Subscription(s.orders[c.order].plan, Active, s.orders[c.order].period,
                                               c.start, s.subs[c.user].trialEndsAt, Some(c.end))]
  }

  /** Nothing but another order's provider number keeps an open order from being paid: a paid
      result that belongs to it is accepted, and credits exactly one period. */
  lemma OpenOrderCanBePaid(s: State, r: BankResult, start: Instant, lag: nat)
    requires Valid(s) && r.order in s.orders && Open(s.orders[r.order])
    requires WellFormed(r) && r.status == 3 && BelongsTo(r, s.orders[r.order])
    requires forall i | i in s.orders && i != r.order :: !SharesProviderId(s.orders[i], PaidRow(s.orders[r.order], r, start))
    ensures var a := ApplyResult(s, r, true, start, lag);
            a.outcome == Accepted && r.order in a.state.orders && a.state.orders[r.order].status == Paid
            && |a.state.credits| == |s.credits| + 1
  {
    hide AddPeriod;
  }

  // ----- redelivery -----

  /** What an accepted result leaves behind: enough to make its redelivery harmless. */
  predicate Absorbed(o: Order, r: BankResult) {
    || o.status == Paid
    || (o.status == Canceled && (r.status == 2 ==> Noted(o, r)))
    || (o.status == Processing && r.status == 1 && Noted(o, r))
  }

  predicate Noted(o: Order, r: BankResult) {
    o.transaction == r.transaction && r.transaction != 0 && (r.invoice != 0 ==> o.invoice != 0)
  }

  lemma AcceptedIsAbsorbed(s: State, r: BankResult, allowed: bool, start: Instant, lag: nat)
    requires ApplyResult(s, r, allowed, start, lag).outcome == Accepted
    ensures var t := ApplyResult(s, r, allowed, start, lag).state;
            r.order in t.orders && Absorbed(t.orders[r.order], r)
  {
    hide AddPeriod;
  }

  lemma AbsorbedIsHarmless(s: State, r: BankResult, allowed: bool, start: Instant, lag: nat)
    requires r.order in s.orders && Absorbed(s.orders[r.order], r)
    ensures SameButTimestamp(s, ApplyResult(s, r, allowed, start, lag).state, r.order)
  {
    hide AddPeriod, Activate;
  }

  /** The states differ in nothing but the update timestamp of one order. */
  predicate SameButTimestamp(s: State, t: State, id: OrderId) {
    || t == s
    || (id in s.orders && id in t.orders
        && t == s.(orders := s.orders[id := s.orders[id].(updatedAt := t.orders[id].updatedAt)]))
  }

  /** A result that was accepted once can be delivered again after any further run, under any
      gate answer and at any time: at most a timestamp changes. */
  lemma {:induction false} RedeliveryIsHarmless(s: State, r: BankResult, allowed: bool, start: Instant, lag: nat, events: seq<Event>,
                             allowed': bool, start': Instant, lag': nat)
    requires Valid(s)
    ensures ApplyResult(s, r, allowed, start, lag).outcome == Accepted ==>
              var t := Run(ApplyResult(s, r, allowed, start, lag).state, events);
              SameButTimestamp(t, ApplyResult(t, r, allowed', start', lag').state, r.order)
  {
    hide ApplyResult;
    if ApplyResult(s, r, allowed, start, lag).outcome == Accepted {
      var s1 := ApplyResult(s, r, allowed, start, lag).state;
      AcceptedIsAbsorbed(s, r, allowed, start, lag);
      ApplyResultKeepsValid(s, r, allowed, start, lag);
      RunEvolves(s1, events);
      assert OrderEvolves(s1.orders[r.order], Run(s1, events).orders[r.order]);
      AbsorbedIsHarmless(Run(s1, events), r, allowed', start', lag');
    }
  }

  // ----- reservations -----

  predicate YoungOpen(o: Order, now: Instant) {
    Open(o) && o.createdAt + Days(1) > now
  }

  /** At any time a user has at most one open order younger than 24 hours, and at most one
      order for each idempotency key. */
  lemma AtMostOneOpenCheckout(s: State, events: seq<Event>, i: OrderId, j: OrderId)
    requires Initial(s)
    requires var t := Run(s, events);
             i in t.orders && j in t.orders && t.orders[i].user == t.orders[j].user
    ensures var t := Run(s, events);
            && (YoungOpen(t.orders[i], t.clock) && YoungOpen(t.orders[j], t.clock) ==> i == j)
            && (t.orders[i].key == t.orders[j].key ==> i == j)
  {
    RunKeepsValid(s, events);
    var t := Run(s, events);
    assert OrderSound(t.orders[i], t.clock) && OrderSound(t.orders[j], t.clock);
    if i != j && Open(t.orders[i]) && Open(t.orders[j]) { assert DayApart(t.orders[i], t.orders[j]); }
    if t.orders[i].key == t.orders[j].key { assert SameKey(t.orders[i], t.orders[j]); }
  }

  /** A new order is made exactly for a known user with no order under the key, no open order
      younger than 24 hours, and a plan and price the table takes. */
  lemma NewOrderIsReserved(s: State, c: Checkout, start: Instant, newId: OrderId)
    requires newId !in s.orders
    ensures var r := Reserve(s, c, start, newId);
            && (r.result == Reserved(newId) <==>
                  Ensured(s, c.user).Some? && Insertable(c)
                  && (forall i :: !HasKey(s, c.user, c.key, i)) && (forall i :: !OpenSince(s, c.user, start, i)))
            && (r.result == Reserved(newId) ==> r.state.orders == s.orders[newId := NewOrder(c, start)])
  {
    if i :| OpenSince(s, c.user, start, i) { OpenHasLatest(s, c.user, start, i); }
  }

  /** A retried key yields the order it yielded first exactly when that order carries the key,
      or no order does and it is still the latest one open and younger than 24 hours. */
  lemma RetriedKey(s: State, c: Checkout, start: Instant, newId: OrderId, events: seq<Event>,
                   c': Checkout, start': Instant, newId': OrderId)
    requires Valid(s) && start <= s.clock && c'.user == c.user && c'.key == c.key
    requires Reserve(s, c, start, newId).result.Reserved?
    requires Reserve(Run(Reserve(s, c, start, newId).state, events), c', start', newId').result.Reserved?
    ensures var first := Reserve(s, c, start, newId).result.id;
            var t := Run(Reserve(s, c, start, newId).state, events);
            first in t.orders
            && (Reserve(t, c', start', newId').result.id == first <==>
                (t.orders[first].key == c.key
                 || ((forall i :: !HasKey(t, c.user, c.key, i)) && LatestOpen(t, c.user, start', first))))
  {
    var Reply(s1, r) := Reserve(s, c, start, newId);
    assert r.id in s1.orders && s1.orders[r.id].user == c.user;
    ReserveKeepsValid(s, c, start, newId);
    RunKeepsValid(s1, events);
    RunEvolves(s1, events);
    RetriedKeyAt(Run(s1, events), c', start', newId', r.id);
  }

  lemma RetriedKeyAt(t: State, c: Checkout, start: Instant, newId: OrderId, first: OrderId)
    requires KeysUnique(t.orders) && OpenApart(t.orders) && Reserve(t, c, start, newId).result.Reserved?
    requires first in t.orders && t.orders[first].user == c.user
    ensures Reserve(t, c, start, newId).result.id == first <==>
            (t.orders[first].key == c.key
             || ((forall i :: !HasKey(t, c.user, c.key, i)) && LatestOpen(t, c.user, start, first)))
  {
    hide Reserve;
    var got := Reserve(t, c, start, newId).result.id;
    AnswerCases(t, c, start, newId);
    if HasKey(t, c.user, c.key, got) {
      if t.orders[first].key == c.key { assert SameKey(t.orders[first], t.orders[got]); }
    } else {
      assert !HasKey(t, c.user, c.key, first);
      assert LatestOpen(t, c.user, start, first) && LatestOpen(t, c.user, start, got) ==>
        first == got || DayApart(t.orders[first], t.orders[got]);
    }
  }

  /** Where the answered order comes from. */
  lemma AnswerCases(t: State, c: Checkout, start: Instant, newId: OrderId)
    requires Reserve(t, c, start, newId).result.Reserved?
    ensures var got := Reserve(t, c, start, newId).result.id;
            || HasKey(t, c.user, c.key, got)
            || ((forall i :: !HasKey(t, c.user, c.key, i)) && LatestOpen(t, c.user, start, got))
            || (MayInsert(t, c, start, newId) && got == newId)
  {
  }

  // ----- a key that was answered with another key's order -----

  function OneOpenOrder(): State {
    State(Days(100), map[1 := Days(100)], map[1 := FreshTrial(Days(100))],
          map[1 := NewOrder(Checkout(1, 10, Standard, Month, 3000), Days(100))], [])
  }

  function OtherKey(): Checkout {
    Checkout(1, 20, Standard, Month, 3000)
  }

  lemma OneOpenOrderIsValid()
    ensures Valid(OneOpenOrder())
  {
  }

  /** It is what a new user's first checkout leaves. */
  lemma OneOpenOrderIsReached()
    ensures var s0 := State(Days(100), map[], map[], map[], []);
            Initial(s0) && Run(s0, [Register(1), Start(Checkout(1, 10, Standard, Month, 3000), 0, 1)]) == OneOpenOrder()
  {
    var s0, c := State(Days(100), map[], map[], map[], []), Checkout(1, 10, Standard, Month, 3000);
    var events := [Register(1), Start(c, 0, 1)];
    assert events[..1] == [Register(1)] && [Register(1)][..0] == [] && Run(s0, []) == s0;
    var s1 := s0.(users := map[1 := Days(100)]);
    assert Run(s0, [Register(1)]) == s1;
    NewOrderIsReserved(s1, c, Days(100), 1);
    assert Reserve(s1, c, Days(100), 1).state == OneOpenOrder();
  }

  lemma OpenOrderAnswers()
    ensures Reserve(OneOpenOrder(), OtherKey(), Days(100), 2) == Reply(OneOpenOrder(), Reserved(1))
  {
    var s := OneOpenOrder();
    assert LatestOpen(s, 1, Days(100), 1);
    assert forall id :: !HasKey(s, 1, 20, id);
    assert forall id | LatestOpen(s, 1, Days(100), id) :: id == 1;
  }

  lemma NewOrderAnswers()
    ensures Reserve(OneOpenOrder().(clock := Days(102)), OtherKey(), Days(102), 2).result == Reserved(2)
  {
    var t := OneOpenOrder().(clock := Days(102));
    assert forall id :: !HasKey(t, 1, 20, id) && !LatestOpen(t, 1, Days(102), id);
  }

  /** User 1 has order 1 open under key 10.  Key 20 is answered with that order, and two days
      later with the new order 2. */
  lemma RetriedKeyMayMoveOn()
    ensures Valid(OneOpenOrder())
    ensures var first := Reserve(OneOpenOrder(), OtherKey(), Days(100), 2);
            && first.result == Reserved(1)
            && Reserve(Run(first.state, [Wait(Days(2))]), OtherKey(), Days(102), 2).result == Reserved(2)
  {
    OneOpenOrderIsValid();
    OpenOrderAnswers();
    NewOrderAnswers();
    hide Reserve;
    var s, events := OneOpenOrder(), [Wait(Days(2))];
    assert events[..0] == [] && Run(s, []) == s;
    assert Run(s, events) == s.(clock := Days(102));
  }
}
