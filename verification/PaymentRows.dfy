/** The payment transactions column by column: which answer each of them gives, and what it writes. */
module PaymentRows {
  import opened Options
  import opened Calendar
  import opened Payments
  import opened PaymentLaws

  /** Microseconds in 24 hours and in 30 days. */
  const DAY: nat := 86_400_000_000
  const TRIAL: nat := 2_592_000_000_000

  /** What the steps of a run are: a transaction that began `age` ago sees that time as its start, and
      registration is at the present time. */
  lemma StepsOfARun(s: State, e: Event, age: nat)
    requires age <= s.clock
    ensures match e
            case Wait(ticks) => Step(s, e) == s.(clock := s.clock + ticks)
            case Register(user) => Step(s, e) == if user in s.users then s else s.(users := s.users[user := s.clock])
            case Look(user) => Step(s, e) == EnsureSubscription(s, user)
            case Start(c, a, newId) => a == age ==> Step(s, e) == Reserve(s, c, s.clock - age, newId).state
            case Invoice(id, invoice, a) => a == age && invoice != 0 ==> Step(s, e) == SaveInvoice(s, id, invoice, s.clock - age)
            case Callback(r, allowed, a, lag) => a == age ==> Step(s, e) == ApplyResult(s, r, allowed, s.clock - age, lag).state
            case Poll(id, status, a) => a == age ==> Step(s, e) == SetStatus(s, id, status, s.clock - age)
  {
  }

  // ----- the subscription row -----

  /** A missing row becomes a trial of 30 days from registration, and a row whose trial or paid
      period has run out becomes expired; nothing else changes. */
  lemma SubscriptionRow(s: State, user: UserId)
    ensures var t := EnsureSubscription(s, user);
            && (user !in s.subs && user !in s.users ==> t == s)
            && (user in s.subs ==>
                  var row := s.subs[user];
                  t == s.(subs := s.subs[user := row.(status :=
                    if (row.status == Trialing && row.trialEndsAt <= s.clock)
                       || (row.status == Active && row.periodEnd.Some? && row.periodEnd.value <= s.clock)
                    then SubscriptionStatus.Expired else row.status)]))
            && (user !in s.subs && user in s.users ==>
                  var end := s.users[user] + TRIAL;
                  t == s.(subs := s.subs[user := Subscription(Plan.Trial, if end <= s.clock then SubscriptionStatus.Expired else Trialing,
                                                              Month, s.users[user], end, None)]))
  {
    if user in s.subs { assert s.subs[user].(status := s.subs[user].status) == s.subs[user]; }
  }

  // ----- reserving a checkout -----

  /** The user's order under the idempotency key. */
  predicate Keyed(s: State, c: Checkout, id: OrderId) {
    id in s.orders && s.orders[id].user == c.user && s.orders[id].key == c.key
  }

  predicate Young(s: State, c: Checkout, start: Instant, id: OrderId) {
    && id in s.orders && s.orders[id].user == c.user && s.orders[id].createdAt + DAY > start
    && (s.orders[id].status == Pending || s.orders[id].status == Processing)
  }

  /** The user's latest open order younger than 24 hours. */
  ghost predicate Latest(s: State, c: Checkout, start: Instant, id: OrderId) {
    Young(s, c, start, id) && forall other | Young(s, c, start, other) :: s.orders[other].createdAt <= s.orders[id].createdAt
  }

  /** The order is for what the checkout asks. */
  predicate Asked(o: Order, c: Checkout) {
    o.plan == c.plan && o.period == c.period && o.amountKgs == c.price
  }

  /** Canceled, or unpaid and older than 24 hours. */
  predicate Dead(o: Order, now: Instant) {
    o.status == Canceled || (o.status != Paid && o.createdAt + DAY < now)
  }

  predicate Known(s: State, user: UserId) {
    user in s.users || user in s.subs
  }

  /** The answer to a checkout. */
  ghost predicate AnswerIs(s: State, c: Checkout, start: Instant, newId: OrderId, r: ReserveResult) {
    match r
    case Reserved(id) =>
      Known(s, c.user) &&
      (|| (Keyed(s, c, id) && Asked(s.orders[id], c) && !Dead(s.orders[id], s.clock))
       || ((forall i :: !Keyed(s, c, i)) && Latest(s, c, start, id) && Asked(s.orders[id], c))
       || ((forall i :: !Keyed(s, c, i) && !Young(s, c, start, i))
           && id == newId && newId !in s.orders && c.plan != Plan.Trial && 0 < c.price <= 2147483647))
    case NotPayable =>
      Known(s, c.user) && exists id :: Keyed(s, c, id) && (!Asked(s.orders[id], c) || Dead(s.orders[id], s.clock))
    case OtherCheckoutOpen =>
      Known(s, c.user) && (forall i :: !Keyed(s, c, i)) && exists id :: Latest(s, c, start, id) && !Asked(s.orders[id], c)
    case Failed =>
      || !Known(s, c.user)
      || ((forall i :: !Keyed(s, c, i) && !Young(s, c, start, i))
          && (newId in s.orders || c.plan == Plan.Trial || c.price <= 0 || c.price > 2147483647))
  }

  lemma LatestIsLatestOpen(s: State, c: Checkout, start: Instant)
    ensures forall id :: HasKey(s, c.user, c.key, id) <==> Keyed(s, c, id)
    ensures forall id :: OpenSince(s, c.user, start, id) <==> Young(s, c, start, id)
    ensures forall id :: LatestOpen(s, c.user, start, id) <==> Latest(s, c, start, id)
  {
    forall id ensures OpenSince(s, c.user, start, id) <==> Young(s, c, start, id) {}
  }

  lemma KeyedOnce(s: State, c: Checkout, a: OrderId, b: OrderId)
    requires KeysUnique(s.orders) && Keyed(s, c, a) && Keyed(s, c, b)
    ensures a == b
  {
    assert SameKey(s.orders[a], s.orders[b]);
  }

  lemma LatestOnce(s: State, c: Checkout, start: Instant, a: OrderId, b: OrderId)
    requires OpenApart(s.orders) && Latest(s, c, start, a) && Latest(s, c, start, b)
    ensures a == b
  {
    assert a == b || DayApart(s.orders[a], s.orders[b]);
  }

  /** Exactly one answer is right, and it is the one given. */
  lemma AnswersDiffer(s: State, c: Checkout, start: Instant, newId: OrderId, r: ReserveResult, q: ReserveResult)
    requires KeysUnique(s.orders) && OpenApart(s.orders)
    requires AnswerIs(s, c, start, newId, r) && AnswerIs(s, c, start, newId, q)
    ensures r == q
  {
    forall a, b | Keyed(s, c, a) && Keyed(s, c, b) ensures a == b { KeyedOnce(s, c, a, b); }
    forall a, b | Latest(s, c, start, a) && Latest(s, c, start, b) ensures a == b { LatestOnce(s, c, start, a, b); }
    hide Keyed, Asked, Dead;
  }

  /** The answer is the right one.  A refusal leaves the rows alone; otherwise the subscription row is
      brought up to date, and a new order has the fields of the checkout. */
  lemma CheckoutIsAnswered(s: State, c: Checkout, start: Instant, newId: OrderId)
    requires KeysUnique(s.orders) && OpenApart(s.orders)
    ensures var r := Reserve(s, c, start, newId);
            && AnswerIs(s, c, start, newId, r.result)
            && (forall q :: AnswerIs(s, c, start, newId, q) <==> q == r.result)
            && (r.result.Reserved? ==>
                  && r.result.id in r.state.orders && r.state.subs == EnsureSubscription(s, c.user).subs
                  && var o := r.state.orders[r.result.id];
                     && o.user == c.user && o.plan == c.plan && o.period == c.period && o.amountKgs == c.price
                     && (r.result.id !in s.orders ==>
                           o == Order(c.user, c.key, c.plan, c.period, c.price, c.price * 100, Pending, 0, 0, start, start, None))
                     && r.state == s.(subs := r.state.subs, orders := s.orders[r.result.id := o]))
            && (!r.result.Reserved? ==> r.state == s)
  {
    var r := Reserve(s, c, start, newId);
    LatestIsLatestOpen(s, c, start);
    ReserveAnswers(s, c, start, newId);
    ReservedOrder(s, c, start, newId);
    hide AnswerIs, Reserve;
    forall q ensures AnswerIs(s, c, start, newId, q) <==> q == r.result {
      if AnswerIs(s, c, start, newId, q) { AnswersDiffer(s, c, start, newId, q, r.result); }
    }
  }

  lemma ReserveAnswers(s: State, c: Checkout, start: Instant, newId: OrderId)
    ensures AnswerIs(s, c, start, newId, Reserve(s, c, start, newId).result)
  {
    LatestIsLatestOpen(s, c, start);
    hide Latest, Young, LatestOpen, OpenSince;
    if i :| Young(s, c, start, i) { YoungHasLatest(s, c, start, i); }
    LatestIsYoung(s, c, start);
  }

  lemma LatestIsYoung(s: State, c: Checkout, start: Instant)
    ensures forall id | Latest(s, c, start, id) :: id in s.orders && Young(s, c, start, id)
  {
  }

  lemma YoungHasLatest(s: State, c: Checkout, start: Instant, id: OrderId)
    requires Young(s, c, start, id)
    ensures exists i :: Latest(s, c, start, i)
  {
    LatestIsLatestOpen(s, c, start);
    OpenHasLatest(s, c.user, start, id);
  }

  lemma ReservedOrder(s: State, c: Checkout, start: Instant, newId: OrderId)
    ensures var r := Reserve(s, c, start, newId);
            && (r.result.Reserved? ==>
                  && r.result.id in r.state.orders && r.state.subs == EnsureSubscription(s, c.user).subs
                  && var o := r.state.orders[r.result.id];
                     && o.user == c.user && o.plan == c.plan && o.period == c.period && o.amountKgs == c.price
                     && (r.result.id !in s.orders ==>
                           o == Order(c.user, c.key, c.plan, c.period, c.price, c.price * 100, Pending, 0, 0, start, start, None))
                     && r.state == s.(subs := r.state.subs, orders := s.orders[r.result.id := o]))
            && (!r.result.Reserved? ==> r.state == s)
  {
    hide Ensured;
    var r := Reserve(s, c, start, newId);
    if r.result.Reserved? && r.result.id in s.orders {
      assert s.orders[r.result.id := s.orders[r.result.id]] == s.orders;
    }
  }

  // ----- invoices and polled statuses -----

  /** Another order has the provider number. */
  predicate Taken(orders: Orders, id: OrderId, invoice: Id, transaction: Id) {
    exists other :: other in orders && other != id
                    && ((invoice != 0 && orders[other].invoice == invoice) || (transaction != 0 && orders[other].transaction == transaction))
  }

  lemma TakenIsShared(orders: Orders, id: OrderId, row: Order)
    ensures Taken(orders, id, row.invoice, row.transaction) <==> !Unshared(orders, id, row)
  {
    if !Unshared(orders, id, row) {
      var other :| other in orders && other != id && SharesProviderId(orders[other], row);
      assert Taken(orders, id, row.invoice, row.transaction);
    }
    if Taken(orders, id, row.invoice, row.transaction) {
      var other :| other in orders && other != id
                   && ((row.invoice != 0 && orders[other].invoice == row.invoice) || (row.transaction != 0 && orders[other].transaction == row.transaction));
      assert SharesProviderId(orders[other], row);
    }
  }

  /** An open order takes the invoice, unless another order has its numbers. */
  lemma InvoiceIsSaved(s: State, id: OrderId, invoice: Id, start: Instant)
    ensures SaveInvoice(s, id, invoice, start) ==
            if id in s.orders && (s.orders[id].status == Pending || s.orders[id].status == Processing)
               && !Taken(s.orders, id, invoice, s.orders[id].transaction)
            then s.(orders := s.orders[id := s.orders[id].(invoice := invoice, updatedAt := start)]) else s
  {
    if id in s.orders { TakenIsShared(s.orders, id, s.orders[id].(invoice := invoice, updatedAt := start)); }
  }

  /** Polling moves an open order to processing or canceled, and does nothing else. */
  lemma PolledStatus(s: State, id: OrderId, status: OrderStatus, start: Instant)
    ensures SetStatus(s, id, status, start) ==
            if id in s.orders && (s.orders[id].status == Pending || s.orders[id].status == Processing)
               && (status == Processing || status == Canceled)
            then s.(orders := s.orders[id := s.orders[id].(status := status, updatedAt := start)]) else s
  {
  }

  // ----- bank results -----

  /** The result has an order, a transaction and a positive amount in som. */
  predicate Readable(r: BankResult) {
    r.order != 0 && r.transaction != 0 && r.amount > 0 && r.currency == KGS
  }

  /** Nothing in the order contradicts the result. */
  predicate Fits(o: Order, r: BankResult) {
    && r.amount == o.amountKopecks
    && (r.invoice == 0 || o.invoice == 0 || r.invoice == o.invoice)
    && (o.transaction == 0 || r.transaction == o.transaction)
  }

  /** The row a result leaves: numbers it brings fill empty columns. */
  function Marked(o: Order, r: BankResult, status: OrderStatus, start: Instant): Order {
    Order(o.user, o.key, o.plan, o.period, o.amountKgs, o.amountKopecks, status,
          if o.invoice != 0 then o.invoice else r.invoice, r.transaction,
          o.createdAt, start, if status == Paid then Some(start) else o.paidAt)
  }

  /** What becomes of a result, first rule first. */
  function OutcomeFor(s: State, r: BankResult, allowed: bool): Outcome {
    if !Readable(r) then Invalid
    else if r.order !in s.orders then Missing
    else
      var o := s.orders[r.order];
      if !allowed || !Fits(o, r) then Invalid
      else if o.status == Paid then Accepted
      else if o.status == Canceled && r.status != 2 then NoLongerPayable
      else if r.status < 1 || r.status > 3 then Invalid
      else if Taken(s.orders, r.order, if o.invoice != 0 then o.invoice else r.invoice, r.transaction) then Error
      else Accepted
  }

  /** The end of the running paid period, or now. */
  function Begins(s: State, user: UserId, now: Instant): Instant
    requires user in s.subs
  {
    var sub := s.subs[user];
    if sub.status == Active && sub.periodEnd.Some? && sub.periodEnd.value > now then sub.periodEnd.value else now
  }

  /** A result has the outcome of the rules.  Accepted for an unpaid order, it marks the order
      processing, canceled or paid; paid also makes the subscription active for the plan and period
      of the order, from the end of the running period or from now. */
  lemma BankResultIsApplied(s: State, r: BankResult, allowed: bool, start: Instant, lag: nat)
    requires Valid(s)
    ensures var a := ApplyResult(s, r, allowed, start, lag);
            && a.outcome == OutcomeFor(s, r, allowed)
            && (r.order in s.orders ==> s.orders[r.order].user in s.subs)
            && (a.outcome != Accepted || s.orders[r.order].status == Paid ==> a.state == s)
            && (a.outcome == Accepted && s.orders[r.order].status != Paid ==> a.state == Applied(s, r, start, lag))
  {
    hide AddPeriod, KeysUnique, ProviderIdsUnique, OpenApart, CreditsSound, CreditsChained, PeriodsSound, Taken, Unshared;
    if r.order in s.orders && Readable(r) && Fits(s.orders[r.order], r) {
      var o := s.orders[r.order];
      assert o.user in s.subs;
      MarkedIsRecorded(o, r, start);
      TakenIsShared(s.orders, r.order, Marked(o, r, Paid, start));
      TakenIsShared(s.orders, r.order, Marked(o, r, Processing, start));
      TakenIsShared(s.orders, r.order, Marked(o, r, Canceled, start));
    }
  }

  lemma MarkedIsRecorded(o: Order, r: BankResult, start: Instant)
    requires Readable(r) && Fits(o, r)
    ensures Recorded(o, r, Processing, start) == Marked(o, r, Processing, start)
    ensures Recorded(o, r, Canceled, start) == Marked(o, r, Canceled, start)
    ensures PaidRow(o, r, start) == Marked(o, r, Paid, start)
  {
  }

  function Applied(s: State, r: BankResult, start: Instant, lag: nat): State
    requires r.order in s.orders && s.orders[r.order].user in s.subs
  {
    var o := s.orders[r.order];
    if r.status == 1 then s.(orders := s.orders[r.order := Marked(o, r, Processing, start)])
    else if r.status == 2 then s.(orders := s.orders[r.order := Marked(o, r, Canceled, start)])
    else
      var now := s.clock + lag;
      var from := Begins(s, o.user, now);
      var to := AddPeriod(from, o.period);
      State(now, s.users,
            s.subs[o.user := Subscription(o.plan, Active, o.period, from, s.subs[o.user].trialEndsAt, Some(to))],
            s.orders[r.order := Marked(o, r, Paid, start)],
            s.credits + [Credit(r.order, o.user, from, to)])
  }
}
