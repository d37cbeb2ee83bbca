/** The invariant of the payment transactions: every step of a run keeps it. */
module PaymentLaws {
  import opened Options
  import opened Calendar
  import opened Payments

  // ----- the invariant -----

  ghost predicate KeysUnique(orders: Orders) {
    forall i, j {:trigger SameKey(orders[i], orders[j])} |
      i in orders && j in orders && SameKey(orders[i], orders[j]) :: i == j
  }

  predicate SameKey(o: Order, p: Order) {
    o.user == p.user && o.key == p.key
  }

  ghost predicate ProviderIdsUnique(orders: Orders) {
    forall i, j {:trigger SharesProviderId(orders[i], orders[j])} |
      i in orders && j in orders && SharesProviderId(orders[i], orders[j]) :: i == j
  }

  /** Two open orders of one user are at least 24 hours apart. */
  ghost predicate OpenApart(orders: Orders) {
    forall i, j {:trigger DayApart(orders[i], orders[j])} |
      i in orders && j in orders && i != j && Open(orders[i]) && Open(orders[j]) && orders[i].user == orders[j].user ::
      DayApart(orders[i], orders[j])
  }

  predicate DayApart(o: Order, p: Order) {
    o.createdAt + Days(1) <= p.createdAt || p.createdAt + Days(1) <= o.createdAt
  }

  predicate OrderSound(o: Order, clock: Instant) {
    && o.amountKopecks == 100 * o.amountKgs && o.amountKgs > 0 && o.plan != Trial
    && o.createdAt <= clock
    && (o.status == Paid <==> o.paidAt.Some?)
    && (o.status == Paid ==> o.transaction != 0)
  }

  ghost predicate OrdersSound(orders: Orders, subs: Subscriptions, clock: Instant) {
    forall i | i in orders :: OrderSound(orders[i], clock) && orders[i].user in subs
  }

  predicate CreditFits(c: Credit, orders: Orders) {
    && c.order in orders && orders[c.order].status == Paid && orders[c.order].user == c.user
    && c.end == AddPeriod(c.start, orders[c.order].period)
  }

  ghost predicate HasCredit(credits: seq<Credit>, id: OrderId) {
    exists k :: 0 <= k < |credits| && credits[k].order == id
  }

  /** The credits are exactly the paid orders, each once. */
  ghost predicate CreditsSound(orders: Orders, credits: seq<Credit>) {
    && (forall k | 0 <= k < |credits| :: CreditFits(credits[k], orders))
    && (forall k, l | 0 <= k < l < |credits| :: credits[k].order != credits[l].order)
    && (forall i | i in orders && orders[i].status == Paid :: HasCredit(credits, i))
  }

  /** The credited periods of one user follow one another. */
  ghost predicate CreditsChained(credits: seq<Credit>) {
    forall k, l | 0 <= k < l < |credits| && credits[k].user == credits[l].user ::
      credits[k].end <= credits[l].start
  }

  ghost predicate EndIsCredited(credits: seq<Credit>, user: UserId, end: Instant) {
    exists k :: 0 <= k < |credits| && credits[k].user == user && credits[k].end == end
  }

  predicate StatusSound(sub: Subscription, clock: Instant) {
    && (sub.status == Trialing ==> sub.periodEnd.None?)
    && (sub.status == Active ==> sub.periodEnd.Some?)
    && (sub.status == Expired && sub.periodEnd.Some? ==> sub.periodEnd.value <= clock)
  }

  predicate Covered(c: Credit, subs: Subscriptions) {
    c.user in subs && subs[c.user].periodEnd.Some? && c.end <= subs[c.user].periodEnd.value
  }

  /** `current_period_end` is the end of the latest credited period. */
  ghost predicate PeriodsSound(subs: Subscriptions, credits: seq<Credit>, clock: Instant) {
    && (forall k | 0 <= k < |credits| :: Covered(credits[k], subs))
    && (forall u | u in subs :: StatusSound(subs[u], clock))
    && (forall u | u in subs && subs[u].periodEnd.Some? :: EndIsCredited(credits, u, subs[u].periodEnd.value))
  }

  ghost predicate Valid(s: State) {
    && KeysUnique(s.orders) && ProviderIdsUnique(s.orders) && OpenApart(s.orders)
    && OrdersSound(s.orders, s.subs, s.clock)
    && CreditsSound(s.orders, s.credits) && CreditsChained(s.credits)
    && PeriodsSound(s.subs, s.credits, s.clock)
  }

  // ----- writing one row -----

  lemma SubscriptionWritten(subs: Subscriptions, credits: seq<Credit>, clock: Instant, user: UserId, sub: Subscription)
    requires PeriodsSound(subs, credits, clock) && StatusSound(sub, clock)
    requires sub.periodEnd == if user in subs then subs[user].periodEnd else None
    ensures PeriodsSound(subs[user := sub], credits, clock)
  {
  }

  /** The rows keep their identity, close or stay as they are, and share no provider number. */
  lemma OrderRewritten(orders: Orders, id: OrderId, row: Order)
    requires KeysUnique(orders) && ProviderIdsUnique(orders) && OpenApart(orders)
    requires id in orders && SameKey(orders[id], row) && row.createdAt == orders[id].createdAt
    requires Open(row) ==> Open(orders[id])
    requires Unshared(orders, id, row)
    ensures KeysUnique(orders[id := row]) && ProviderIdsUnique(orders[id := row]) && OpenApart(orders[id := row])
  {
    var was := orders[id];
    assert forall i | i in orders :: SameKey(orders[i], row) <==> SameKey(orders[i], was);
    assert forall i | i in orders :: SameKey(row, orders[i]) <==> SameKey(was, orders[i]);
    assert forall i | i in orders :: SharesProviderId(row, orders[i]) <==> SharesProviderId(orders[i], row);
    assert forall i | i in orders :: DayApart(row, orders[i]) <==> DayApart(was, orders[i]);
    assert forall i | i in orders :: DayApart(orders[i], row) <==> DayApart(orders[i], was);
  }

  lemma OrderInserted(orders: Orders, id: OrderId, row: Order)
    requires KeysUnique(orders) && ProviderIdsUnique(orders) && OpenApart(orders)
    requires id !in orders && row.invoice == row.transaction == 0
    requires forall i | i in orders :: !SameKey(orders[i], row)
    requires forall i | i in orders && Open(orders[i]) && orders[i].user == row.user :: DayApart(orders[i], row)
    ensures KeysUnique(orders[id := row]) && ProviderIdsUnique(orders[id := row]) && OpenApart(orders[id := row])
  {
    assert forall i | i in orders :: !SharesProviderId(orders[i], row) && !SharesProviderId(row, orders[i]);
    assert forall i | i in orders :: SameKey(row, orders[i]) ==> SameKey(orders[i], row);
    assert forall i | i in orders :: DayApart(row, orders[i]) <==> DayApart(orders[i], row);
  }

  /** Rows that are not paid and do not become paid leave the credits alone. */
  lemma UnpaidRewritten(orders: Orders, credits: seq<Credit>, id: OrderId, row: Order)
    requires CreditsSound(orders, credits) && row.status != Paid
    requires id in orders ==> orders[id].status != Paid
    ensures CreditsSound(orders[id := row], credits)
  {
    forall k | 0 <= k < |credits| ensures CreditFits(credits[k], orders[id := row]) {
      assert CreditFits(credits[k], orders);
    }
  }

  lemma CreditAdded(orders: Orders, credits: seq<Credit>, row: Order, c: Credit)
    requires CreditsSound(orders, credits) && c.order in orders && orders[c.order].status != Paid
    requires CreditFits(c, orders[c.order := row])
    ensures CreditsSound(orders[c.order := row], credits + [c])
  {
    var after, added := orders[c.order := row], credits + [c];
    forall k | 0 <= k < |added| ensures CreditFits(added[k], after) {
      if k < |credits| { assert CreditFits(credits[k], orders); }
    }
    forall i | i in after && after[i].status == Paid ensures HasCredit(added, i) {
      if i == c.order {
        assert added[|credits|].order == i;
      } else {
        assert HasCredit(credits, i);
        var k :| 0 <= k < |credits| && credits[k].order == i;
        assert added[k].order == i;
      }
    }
  }

  lemma PeriodExtended(subs: Subscriptions, credits: seq<Credit>, clock: Instant, now: Instant, sub: Subscription, c: Credit)
    requires PeriodsSound(subs, credits, clock) && CreditsChained(credits) && clock <= now
    requires c.user in subs && c.start <= c.end
    requires subs[c.user].periodEnd.Some? ==> subs[c.user].periodEnd.value <= c.start
    requires sub.status == Active && sub.periodEnd == Some(c.end)
    ensures PeriodsSound(subs[c.user := sub], credits + [c], now) && CreditsChained(credits + [c])
  {
    var after, added := subs[c.user := sub], credits + [c];
    forall k | 0 <= k < |added| ensures Covered(added[k], after) {
      if k < |credits| { assert Covered(credits[k], subs); }
    }
    forall u | u in after && after[u].periodEnd.Some? ensures EndIsCredited(added, u, after[u].periodEnd.value) {
      if u == c.user {
        assert added[|credits|].user == u;
      } else {
        assert EndIsCredited(credits, u, subs[u].periodEnd.value);
        var k :| 0 <= k < |credits| && credits[k].user == u && credits[k].end == subs[u].periodEnd.value;
        assert added[k].user == u;
      }
    }
    forall k, l | 0 <= k < l < |added| && added[k].user == added[l].user ensures added[k].end <= added[l].start {
      assert Covered(credits[k], subs);
    }
  }

  // ----- every step keeps it -----

  lemma EnsureKeepsValid(s: State, user: UserId)
    requires Valid(s)
    ensures Valid(EnsureSubscription(s, user))
  {
    if Ensured(s, user).Some? {
      SubscriptionWritten(s.subs, s.credits, s.clock, user, Ensured(s, user).value);
    }
  }

  ghost predicate MayInsert(s: State, c: Checkout, start: Instant, newId: OrderId) {
    && Ensured(s, c.user).Some? && newId !in s.orders && Insertable(c)
    && (forall i :: !HasKey(s, c.user, c.key, i))
    && (forall i :: !LatestOpen(s, c.user, start, i))
  }

  function WithNewOrder(s: State, c: Checkout, start: Instant, newId: OrderId): State {
    EnsureSubscription(s, c.user).(orders := s.orders[newId := NewOrder(c, start)])
  }

  /** A reservation leaves the rows alone, refreshes the subscription, or also adds an order. */
  lemma ReserveCases(s: State, c: Checkout, start: Instant, newId: OrderId)
    ensures var t := Reserve(s, c, start, newId).state;
            || t == s
            || t == EnsureSubscription(s, c.user)
            || (MayInsert(s, c, start, newId) && t == WithNewOrder(s, c, start, newId))
  {
  }

  lemma ReserveKeepsValid(s: State, c: Checkout, start: Instant, newId: OrderId)
    requires Valid(s) && start <= s.clock
    ensures Valid(Reserve(s, c, start, newId).state)
  {
    hide Reserve, WithNewOrder, EnsureSubscription;
    ReserveCases(s, c, start, newId);
    EnsureKeepsValid(s, c.user);
    if MayInsert(s, c, start, newId) { NewOrderKeepsValid(s, c, start, newId); }
  }

  lemma {:induction false} NewOrderKeepsValid(s: State, c: Checkout, start: Instant, newId: OrderId)
    requires Valid(s) && start <= s.clock && MayInsert(s, c, start, newId)
    ensures Valid(WithNewOrder(s, c, start, newId))
  {
    EnsureKeepsValid(s, c.user);
    var row := NewOrder(c, start);
    forall i | i in s.orders ensures !SameKey(s.orders[i], row) {
      assert !HasKey(s, c.user, c.key, i);
    }
    forall i | i in s.orders && Open(s.orders[i]) && s.orders[i].user == c.user ensures DayApart(s.orders[i], row) {
      if OpenSince(s, c.user, start, i) { OpenHasLatest(s, c.user, start, i); }
    }
    OrderInserted(s.orders, newId, row);
    UnpaidRewritten(s.orders, s.credits, newId, row);
  }

  /** Where an order is open, one of the open orders is the latest. */
  lemma OpenHasLatest(s: State, user: UserId, start: Instant, id: OrderId)
    requires OpenSince(s, user, start, id)
    ensures exists i :: LatestOpen(s, user, start, i)
  {
    var among := set i | i in s.orders && OpenSince(s, user, start, i);
    assert id in among;
    var latest := Latest(s.orders, among);
    assert LatestOpen(s, user, start, latest);
  }

  lemma {:induction false} Latest(orders: Orders, among: set<OrderId>) returns (latest: OrderId)
    requires among != {} && among <= orders.Keys
    ensures latest in among && forall j | j in among :: orders[j].createdAt <= orders[latest].createdAt
  {
    latest :| latest in among;
    if among != {latest} {
      var rest := Latest(orders, among - {latest});
      if orders[latest].createdAt < orders[rest].createdAt { latest := rest; }
    }
  }

  lemma InvoiceKeepsValid(s: State, id: OrderId, invoice: Id, start: Instant)
    requires Valid(s)
    ensures Valid(SaveInvoice(s, id, invoice, start))
  {
    if SaveInvoice(s, id, invoice, start) != s {
      var row := s.orders[id].(invoice := invoice, updatedAt := start);
      OrderRewritten(s.orders, id, row);
      UnpaidRewritten(s.orders, s.credits, id, row);
    }
  }

  lemma SetStatusKeepsValid(s: State, id: OrderId, status: OrderStatus, start: Instant)
    requires Valid(s)
    ensures Valid(SetStatus(s, id, status, start))
  {
    if SetStatus(s, id, status, start) != s {
      var row := s.orders[id].(status := status, updatedAt := start);
      UnchangedIdsUnshared(s.orders, id, row);
      OrderRewritten(s.orders, id, row);
      UnpaidRewritten(s.orders, s.credits, id, row);
    }
  }

  lemma UnchangedIdsUnshared(orders: Orders, id: OrderId, row: Order)
    requires ProviderIdsUnique(orders) && id in orders
    requires row.invoice == orders[id].invoice && row.transaction == orders[id].transaction
    ensures Unshared(orders, id, row)
  {
    assert forall i | i in orders :: SharesProviderId(orders[i], row) ==> SharesProviderId(orders[i], orders[id]);
  }

  lemma ActivateKeepsValid(s: State, r: BankResult, start: Instant, lag: nat)
    requires Valid(s) && r.order in s.orders && WellFormed(r) && Open(s.orders[r.order])
    requires Activate(s, r, start, lag).outcome == Accepted
    ensures Valid(Activate(s, r, start, lag).state)
  {
    PaidStateValid(s, r, start, s.clock + lag);
    ActivateAccepted(s, r, start, lag);
  }

  lemma ActivateAccepted(s: State, r: BankResult, start: Instant, lag: nat)
    requires r.order in s.orders && s.orders[r.order].user in s.subs
    requires Activate(s, r, start, lag).outcome == Accepted
    ensures Activate(s, r, start, lag).state ==
            PaidState(s, r, start, s.clock + lag, Refreshed(s.subs[s.orders[r.order].user], s.clock))
  {
  }

  lemma PaidStateValid(s: State, r: BankResult, start: Instant, now: Instant)
    requires Valid(s) && r.order in s.orders && WellFormed(r) && Open(s.orders[r.order]) && s.clock <= now
    requires Unshared(s.orders, r.order, PaidRow(s.orders[r.order], r, start))
    ensures Valid(PaidState(s, r, start, now, Refreshed(s.subs[s.orders[r.order].user], s.clock)))
  {
    var o := s.orders[r.order];
    var sub := Refreshed(s.subs[o.user], s.clock);
    var c, row := PaidPeriod(r.order, o, sub, now), PaidRow(o, r, start);
    PaidRowSound(s, r, start, now);
    PaidPeriodFollows(s, r.order, now);
    PaymentKeepsValid(s, r.order, row, now, Extended(sub, o, c), c);
  }

  lemma PaidRowSound(s: State, r: BankResult, start: Instant, now: Instant)
    requires OrdersSound(s.orders, s.subs, s.clock) && r.order in s.orders && WellFormed(r) && s.clock <= now
    ensures var o := s.orders[r.order];
            var c, row := PaidPeriod(r.order, o, Refreshed(s.subs[o.user], s.clock), now), PaidRow(o, r, start);
            OrderSound(row, now) && CreditFits(c, s.orders[r.order := row])
  {
  }

  /** Paying an open order: its row closes and one period is appended after all earlier ones. */
  lemma PaymentKeepsValid(s: State, id: OrderId, row: Order, now: Instant, sub: Subscription, c: Credit)
    requires Valid(s) && s.clock <= now
    requires id in s.orders && Open(s.orders[id]) && SameKey(s.orders[id], row) && row.createdAt == s.orders[id].createdAt
    requires row.status == Paid && Unshared(s.orders, id, row)
    requires OrderSound(row, now) && CreditFits(c, s.orders[id := row]) && c.order == id
    requires c.start <= c.end
    requires s.subs[c.user].periodEnd.Some? ==> s.subs[c.user].periodEnd.value <= c.start
    requires sub.status == Active && sub.periodEnd == Some(c.end)
    ensures Valid(State(now, s.users, s.subs[c.user := sub], s.orders[id := row], s.credits + [c]))
  {
    OrderRewritten(s.orders, id, row);
    CreditAdded(s.orders, s.credits, row, c);
    PeriodExtended(s.subs, s.credits, s.clock, now, sub, c);
  }

  /** A period that follows `last` starts at its end or now, whichever is later. */
  predicate Follows(c: Credit, last: Option<Instant>, now: Instant) {
    && c.start < c.end
    && now <= c.start
    && (last.Some? ==> last.value <= c.start)
    && (c.start == now || last == Some(c.start))
  }

  lemma PaidPeriodFollows(s: State, id: OrderId, now: Instant)
    requires Valid(s) && id in s.orders && s.clock <= now
    ensures var o := s.orders[id];
            Follows(PaidPeriod(id, o, Refreshed(s.subs[o.user], s.clock), now), s.subs[o.user].periodEnd, now)
  {
    var o := s.orders[id];
    var sub := s.subs[o.user];
    assert StatusSound(sub, s.clock);
    AddPeriodAdvances(PeriodStart(Refreshed(sub, s.clock), now), o.period);
  }

  lemma ApplyResultKeepsValid(s: State, r: BankResult, allowed: bool, start: Instant, lag: nat)
    requires Valid(s)
    ensures Valid(ApplyResult(s, r, allowed, start, lag).state)
  {
    var Ack(t, outcome) := ApplyResult(s, r, allowed, start, lag);
    if t != s {
      if r.status == 3 {
        ActivateKeepsValid(s, r, start, lag);
      } else {
        var row := t.orders[r.order];
        OrderRewritten(s.orders, r.order, row);
        UnpaidRewritten(s.orders, s.credits, r.order, row);
      }
    }
  }

  lemma StepKeepsValid(s: State, e: Event)
    requires Valid(s)
    ensures Valid(Step(s, e))
  {
    match e
    case Wait(_) =>
    case Register(_) =>
    case Look(user) => EnsureKeepsValid(s, user);
    case Start(c, age, newId) => ReserveKeepsValid(s, c, Begun(s, age), newId);
    case Invoice(id, invoice, age) => InvoiceKeepsValid(s, id, invoice, Begun(s, age));
    case Callback(r, allowed, age, lag) => ApplyResultKeepsValid(s, r, allowed, Begun(s, age), lag);
    case Poll(id, status, age) => SetStatusKeepsValid(s, id, status, Begun(s, age));
  }

  /** The invariant holds after every run of transactions from an empty database. */
  lemma {:induction false} RunKeepsValid(s: State, events: seq<Event>)
    requires Valid(s) || Initial(s)
    ensures Valid(Run(s, events))
  {
    if events != [] {
      RunKeepsValid(s, events[..|events| - 1]);
      StepKeepsValid(Run(s, events[..|events| - 1]), events[|events| - 1]);
    }
  }
}
