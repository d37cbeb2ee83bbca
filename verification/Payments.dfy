/** Subscription checkout and payment as a database of rows changed by short transactions.

    Every function below is one committed transaction: it takes the rows it finds under its locks
    and yields the rows it leaves.  A transaction that reports an error is rolled back, so it
    yields the state it was given.  `credits` is not a table: it records, for the statements
    about whole runs, each period that a payment added. */
module Payments {
  import opened Options
  import opened Calendar

  /** Identifiers and keys are only compared, so numbers stand for them; 0 stands for the
      empty string, which is also how a NULL provider number is read back. */
  type Id = nat
  type UserId = Id
  type OrderId = Id

  datatype Currency = KGS | OtherCurrency

  datatype Plan = Trial | Standard | Max

  datatype OrderStatus = Pending | Processing | Paid | Canceled

  /** A row of `subscription_payment_orders`. */
  datatype Order = Order(
    user: UserId, key: Id, plan: Plan, period: Period,
    amountKgs: int, amountKopecks: int, status: OrderStatus,
    invoice: Id, transaction: Id,
    createdAt: Instant, updatedAt: Instant, paidAt: Option<Instant>)

  datatype SubscriptionStatus = Trialing | Active | Expired

  /** A row of `account_subscriptions`. */
  datatype Subscription = Subscription(
    plan: Plan, status: SubscriptionStatus, period: Period,
    startedAt: Instant, trialEndsAt: Instant, periodEnd: Option<Instant>)

  /** The period `[start, end)` that the payment of `order` gave to `user`. */
  datatype Credit = Credit(order: OrderId, user: UserId, start: Instant, end: Instant)

  type Orders = map<OrderId, Order>
  type Subscriptions = map<UserId, Subscription>

  datatype State = State(
    clock: Instant,
    users: map<UserId, Instant>,
    subs: Subscriptions,
    orders: Orders,
    credits: seq<Credit>)

  // ----- ensureSubscription -----

  function FreshTrial(createdAt: Instant): Subscription {
    Subscription(Trial, Trialing, Month, createdAt, createdAt + Days(30), None)
  }

  predicate Lapsed(sub: Subscription, now: Instant) {
    || (sub.status == Trialing && sub.trialEndsAt <= now)
    || (sub.status == Active && sub.periodEnd.Some? && sub.periodEnd.value <= now)
  }

  function Refreshed(sub: Subscription, now: Instant): Subscription {
    if Lapsed(sub, now) then sub.(status := Expired) else sub
  }

  /** The row `ensureSubscription` leaves for `user`, or None when the user does not exist. */
  function Ensured(s: State, user: UserId): Option<Subscription> {
    if user in s.subs then Some(Refreshed(s.subs[user], s.clock))
    else if user in s.users then Some(Refreshed(FreshTrial(s.users[user]), s.clock))
    else None
  }

  function EnsureSubscription(s: State, user: UserId): State {
    match Ensured(s, user)
    case None => s
    case Some(sub) => s.(subs := s.subs[user := sub])
  }

  // ----- reserveSubscriptionCheckout -----

  datatype Checkout = Checkout(user: UserId, key: Id, plan: Plan, period: Period, price: int)

  /** The rows after a reservation, and its answer. */
  datatype Reply = Reply(state: State, result: ReserveResult)

  datatype ReserveResult = Reserved(id: OrderId) | OtherCheckoutOpen | NotPayable | Failed

  predicate Open(o: Order) {
    o.status == Pending || o.status == Processing
  }

  predicate Matches(o: Order, c: Checkout) {
    o.plan == c.plan && o.period == c.period && o.amountKgs == c.price
  }

  predicate HasKey(s: State, user: UserId, key: Id, id: OrderId) {
    id in s.orders && s.orders[id].user == user && s.orders[id].key == key
  }

  /** An open order less than 24 hours old, as seen by a transaction that began at `start`. */
  predicate OpenSince(s: State, user: UserId, start: Instant, id: OrderId) {
    && id in s.orders && s.orders[id].user == user && Open(s.orders[id])
    && s.orders[id].createdAt + Days(1) > start
  }

  ghost predicate LatestOpen(s: State, user: UserId, start: Instant, id: OrderId) {
    && OpenSince(s, user, start, id)
    && forall other | OpenSince(s, user, start, other) ::
         s.orders[other].createdAt <= s.orders[id].createdAt
  }

  /** The table's CHECK constraints on a new order. */
  predicate Insertable(c: Checkout) {
    c.plan != Trial && 0 < c.price <= 0x7fff_ffff
  }

  function NewOrder(c: Checkout, start: Instant): Order {
    Order(c.user, c.key, c.plan, c.period, c.price, c.price * 100, Pending, 0, 0, start, start, None)
  }

  predicate Stale(o: Order, now: Instant) {
    o.status == Canceled || (o.status != Paid && o.createdAt + Days(1) < now)
  }

  ghost function Reserve(s: State, c: Checkout, start: Instant, newId: OrderId): Reply {
    if Ensured(s, c.user).None? then Reply(s, Failed)
    else if exists id :: HasKey(s, c.user, c.key, id) then
      var id :| HasKey(s, c.user, c.key, id);
      if !Matches(s.orders[id], c) || Stale(s.orders[id], s.clock) then Reply(s, NotPayable)
      else Reply(EnsureSubscription(s, c.user), Reserved(id))
    else if exists id :: LatestOpen(s, c.user, start, id) then
      var id :| LatestOpen(s, c.user, start, id);
      if !Matches(s.orders[id], c) then Reply(s, OtherCheckoutOpen)
      else Reply(EnsureSubscription(s, c.user), Reserved(id))
    else if newId in s.orders || !Insertable(c) then Reply(s, Failed)
    else
      Reply(EnsureSubscription(s, c.user).(orders := s.orders[newId := NewOrder(c, start)]), Reserved(newId))
  }

  // ----- saveOBankInvoice, updateSubscriptionPaymentStatus -----

  /** The unique indexes on invoice and transaction, for a row about to be written under `id`. */
  predicate Unshared(orders: Orders, id: OrderId, row: Order) {
    forall other {:trigger SharesProviderId(orders[other], row)} | other in orders && other != id :: !SharesProviderId(orders[other], row)
  }

  predicate SharesProviderId(o: Order, row: Order) {
    || (row.invoice != 0 && o.invoice == row.invoice)
    || (row.transaction != 0 && o.transaction == row.transaction)
  }

  function SaveInvoice(s: State, id: OrderId, invoice: Id, start: Instant): State {
    if id in s.orders && Open(s.orders[id]) then
      var row := s.orders[id].(invoice := invoice, updatedAt := start);
      if Unshared(s.orders, id, row) then s.(orders := s.orders[id := row]) else s
    else s
  }

  function SetStatus(s: State, id: OrderId, status: OrderStatus, start: Instant): State {
    if (status == Processing || status == Canceled) && id in s.orders && Open(s.orders[id]) then
      s.(orders := s.orders[id := s.orders[id].(status := status, updatedAt := start)])
    else s
  }

  // ----- applyOBankResult -----

  datatype BankResult = BankResult(
    order: OrderId, transaction: Id, status: int, amount: int, currency: Currency, invoice: Id)

  /** The rows after a bank result, and what became of it. */
  datatype Ack = Ack(state: State, outcome: Outcome)

  datatype Outcome = Accepted | Invalid | Missing | NoLongerPayable | Error

  function Coalesce(stored: Id, given: Id): Id {
    if stored != 0 then stored else given
  }

  predicate WellFormed(r: BankResult) {
    r.order != 0 && r.transaction != 0 && r.amount > 0 && r.currency == KGS
  }

  predicate BelongsTo(r: BankResult, o: Order) {
    && r.amount == o.amountKopecks
    && !(r.invoice != 0 && o.invoice != 0 && r.invoice != o.invoice)
    && !(o.transaction != 0 && o.transaction != r.transaction)
  }

  function Recorded(o: Order, r: BankResult, status: OrderStatus, start: Instant): Order {
    o.(status := status, invoice := Coalesce(o.invoice, r.invoice),
       transaction := Coalesce(o.transaction, r.transaction), updatedAt := start)
  }

  /** Where the paid period begins: at the running period's end while it lasts, otherwise now. */
  function PeriodStart(sub: Subscription, now: Instant): Instant {
    if sub.status == Active && sub.periodEnd.Some? && sub.periodEnd.value > now
    then sub.periodEnd.value else now
  }

  function PaidRow(o: Order, r: BankResult, start: Instant): Order {
    o.(status := Paid, invoice := Coalesce(o.invoice, r.invoice), transaction := r.transaction,
       updatedAt := start, paidAt := Some(start))
  }

  /** The period a payment of `o` adds to the subscription `sub` at time `now`. */
  function PaidPeriod(id: OrderId, o: Order, sub: Subscription, now: Instant): Credit {
    var begin := PeriodStart(sub, now);
    Credit(id, o.user, begin, AddPeriod(begin, o.period))
  }

  function Extended(sub: Subscription, o: Order, c: Credit): Subscription {
    Subscription(o.plan, Active, o.period, c.start, sub.trialEndsAt, Some(c.end))
  }

  /** The rows after the payment `r` of an order whose owner holds the subscription `sub`. */
  function PaidState(s: State, r: BankResult, start: Instant, now: Instant, sub: Subscription): State
    requires r.order in s.orders
  {
    var o := s.orders[r.order];
    var c := PaidPeriod(r.order, o, sub, now);
    State(now, s.users, s.subs[o.user := Extended(sub, o, c)],
          s.orders[r.order := PaidRow(o, r, start)], s.credits + [c])
  }

  /** `activateSubscriptionFromPayment`; it reads the clock again `lag` after `ensureSubscription`. */
  function Activate(s: State, r: BankResult, start: Instant, lag: nat): Ack
    requires r.order in s.orders
  {
    var o := s.orders[r.order];
    match Ensured(s, o.user)
    case None => Ack(s, Error)
    case Some(sub) =>
      if !Unshared(s.orders, r.order, PaidRow(o, r, start)) then Ack(s, Error)
      else Ack(PaidState(s, r, start, s.clock + lag, sub), Accepted)
  }

  /** `applyOBankResult`; `allowed` is the answer of the test-account gate for the order's user. */
  function ApplyResult(s: State, r: BankResult, allowed: bool, start: Instant, lag: nat): Ack {
    if !WellFormed(r) then Ack(s, Invalid)
    else if r.order !in s.orders then Ack(s, Missing)
    else
      var o := s.orders[r.order];
      if !allowed || !BelongsTo(r, o) then Ack(s, Invalid)
      else if o.status == Paid then Ack(s, Accepted)
      else if o.status == Canceled && r.status != 2 then Ack(s, NoLongerPayable)
      else if r.status == 3 then Activate(s, r, start, lag)
      else if r.status == 1 || r.status == 2 then
        var row := Recorded(o, r, if r.status == 1 then Processing else Canceled, start);
        if Unshared(s.orders, r.order, row) then Ack(s.(orders := s.orders[r.order := row]), Accepted) else Ack(s, Error)
      else Ack(s, Invalid)
  }

  // ----- runs -----

  /** One step of a run.  `age` is how long ago the transaction began, which is where the
      database takes its timestamps from. */
  datatype Event =
    | Wait(ticks: nat)
    | Register(user: UserId)
    | Look(user: UserId)
    | Start(checkout: Checkout, age: nat, newId: OrderId)
    | Invoice(id: OrderId, invoice: Id, age: nat)
    | Callback(result: BankResult, allowed: bool, age: nat, lag: nat)
    | Poll(id: OrderId, status: OrderStatus, age: nat)

  function Begun(s: State, age: nat): Instant {
    if age <= s.clock then s.clock - age else 0
  }

  ghost function Step(s: State, e: Event): State {
    match e
    case Wait(ticks) => s.(clock := s.clock + ticks)
    case Register(user) => if user in s.users then s else s.(users := s.users[user := s.clock])
    case Look(user) => EnsureSubscription(s, user)
    case Start(checkout, age, newId) => Reserve(s, checkout, Begun(s, age), newId).state
    case Invoice(id, invoice, age) =>
      // the bank client rejects an answer without an invoice identifier
      if invoice == 0 then s else SaveInvoice(s, id, invoice, Begun(s, age))
    case Callback(result, allowed, age, lag) => ApplyResult(s, result, allowed, Begun(s, age), lag).state
    case Poll(id, status, age) => SetStatus(s, id, status, Begun(s, age))
  }

  ghost function Run(s: State, events: seq<Event>): State {
    if events == [] then s else Step(Run(s, events[..|events| - 1]), events[|events| - 1])
  }

  predicate Initial(s: State) {
    s.users == map[] && s.subs == map[] && s.orders == map[] && s.credits == []
  }
}
