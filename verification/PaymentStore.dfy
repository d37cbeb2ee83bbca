/** The payment tables as mutable state.  Each method is one transaction of the source, with its
    early returns; an error path restores the rows it has already written, as a rollback does.
    Its contract ties the new rows to the transaction function and so to the theorems on runs. */
module PaymentStore {
  import opened Options
  import opened Calendar
  import opened Payments
  import opened PaymentLaws
  import ExpiryRaces
  import PaymentRows

  class Database {
    var clock: Instant
    var users: map<UserId, Instant>
    var subs: Subscriptions
    var orders: Orders
    ghost var credits: seq<Credit>

    ghost function Rows(): State
      reads this
    {
      State(clock, users, subs, orders, credits)
    }

    ghost predicate Sound()
      reads this
    {
      Valid(Rows())
    }

    constructor (now: Instant)
      ensures Initial(Rows()) && Sound() && clock == now
    {
      clock, users, subs, orders, credits := now, map[], map[], map[], [];
    }

    method Ensure(user: UserId) returns (sub: Option<Subscription>)
      modifies this
      ensures Rows() == EnsureSubscription(old(Rows()), user)
      ensures sub == Ensured(old(Rows()), user)
    {
      if user !in subs && user in users {
        subs := subs[user := FreshTrial(users[user])];
      }
      if user !in subs {
        return None;
      }
      var state := subs[user];
      var expired := state.status == Trialing && state.trialEndsAt <= clock;
      if state.status == Active && state.periodEnd.Some? && state.periodEnd.value <= clock {
        expired := true;
      }
      if expired {
        state := state.(status := Expired);
      }
      subs := subs[user := state];
      return Some(state);
    }

    /** The first statements of `Ensure` without the lock: inserts a missing row and reads it. */
    method InsertAndRead(user: UserId) returns (sub: Option<Subscription>, lapsed: bool)
      requires Sound()
      modifies this
      ensures Rows() == ExpiryRaces.Inserted(old(Rows()), user) && Sound()
      ensures sub == if user in subs then Some(subs[user]) else None
      ensures lapsed <==> user in subs && Lapsed(subs[user], clock)
      ensures lapsed ==> ExpiryRaces.ReadSound(Rows(), ExpiryRaces.Read(user, |credits|))
    {
      hide Valid;
      ExpiryRaces.InsertKeepsValid(Rows(), user);
      if user !in subs && user in users {
        subs := subs[user := FreshTrial(users[user])];
      }
      if user !in subs { return None, false; }
      sub := Some(subs[user]);
      lapsed := Lapsed(subs[user], clock);
      if lapsed { ExpiryRaces.LapsedMeansEnded(Rows(), user); }
    }

    /** The last statement without the lock, however long after the read: it is harmless exactly when
        no payment of the user came in between whose period still runs. */
    method ExpireRow(user: UserId, ghost read: ExpiryRaces.Read)
      requires Sound() && read.user == user && ExpiryRaces.ReadSound(Rows(), read)
      modifies this
      ensures Rows() == ExpiryRaces.Expired(old(Rows()), user)
      ensures Sound() <==> !ExpiryRaces.PaidSince(old(Rows()), read)
    {
      hide Valid;
      ExpiryRaces.ExpiryIsSafe(Rows(), read);
      subs := subs[user := subs[user].(status := SubscriptionStatus.Expired)];
    }

    method FindByKey(user: UserId, key: Id) returns (found: Option<OrderId>)
      ensures found.Some? ==> HasKey(Rows(), user, key, found.value)
      ensures found.None? ==> forall id :: !HasKey(Rows(), user, key, id)
    {
      var ids := set id | id in orders && orders[id].user == user && orders[id].key == key;
      if ids == {} {
        assert forall id :: HasKey(Rows(), user, key, id) ==> id in ids;
        return None;
      }
      var id :| id in ids;
      return Some(id);
    }

    method FindOpen(user: UserId, start: Instant) returns (found: Option<OrderId>)
      ensures found.Some? ==> LatestOpen(Rows(), user, start, found.value)
      ensures found.None? ==> forall id :: !LatestOpen(Rows(), user, start, id)
    {
      var rest := set id | id in orders && orders[id].user == user && Open(orders[id])
                           && orders[id].createdAt + Days(1) > start;
      ghost var all := rest;
      assert forall id :: OpenSince(Rows(), user, start, id) <==> id in all;
      found := None;
      while rest != {}
        invariant rest <= all && (found.None? ==> rest == all)
        invariant found.Some? ==> found.value in all - rest
        invariant found.Some? ==> forall id | id in all - rest :: orders[id].createdAt <= orders[found.value].createdAt
        decreases rest
      {
        var id :| id in rest;
        if found.None? || orders[id].createdAt > orders[found.value].createdAt {
          found := Some(id);
        }
        rest := rest - {id};
      }
    }

    method Reserve(c: Checkout, start: Instant, newId: OrderId) returns (result: ReserveResult)
      requires Sound() && start <= clock
      modifies this
      ensures Reply(Rows(), result) == Payments.Reserve(old(Rows()), c, start, newId)
      ensures PaymentRows.AnswerIs(old(Rows()), c, start, newId, result)
      ensures result.Reserved? ==>
                && result.id in orders && orders[result.id].user == c.user && orders[result.id].plan == c.plan
                && orders[result.id].period == c.period && orders[result.id].amountKgs == c.price
      ensures !result.Reserved? ==> Rows() == old(Rows())
      ensures Sound()
    {
      ghost var s := Rows();
      ReserveKeepsValid(s, c, start, newId);
      ReserveIsAnswered(s, c, start, newId);
      hide PaymentRows.AnswerIs, Payments.Reserve, HasKey, LatestOpen, Valid, Ensured;
      UnknownReserve(s, c, start, newId);
      var rollback := subs;
      var sub := Ensure(c.user);
      if sub.None? {
        return Failed;
      }
      ghost var t := Rows();
      assert t == EnsureSubscription(s, c.user);
      SameOrders(s, t, c, start);
      var keyed := FindByKey(c.user, c.key);
      if keyed.Some? {
        KeyedReserve(s, c, start, newId, keyed.value);
        var order := orders[keyed.value];
        if !Matches(order, c) || Stale(order, clock) {
          subs := rollback;
          return NotPayable;
        }
        return Reserved(keyed.value);
      }
      var open := FindOpen(c.user, start);
      if open.Some? {
        OpenReserve(s, c, start, newId, open.value);
        if !Matches(orders[open.value], c) {
          subs := rollback;
          return OtherCheckoutOpen;
        }
        return Reserved(open.value);
      }
      assert Rows() == t;
      assert forall id :: !HasKey(s, c.user, c.key, id);
      assert forall id :: !LatestOpen(s, c.user, start, id);
      NewReserve(s, c, start, newId);
      if newId in orders || !Insertable(c) {
        subs := rollback;
        return Failed;
      }
      orders := orders[newId := NewOrder(c, start)];
      return Reserved(newId);
    }

    method SaveInvoice(id: OrderId, invoice: Id, start: Instant) returns (saved: bool)
      requires Sound()
      modifies this
      ensures Rows() == Payments.SaveInvoice(old(Rows()), id, invoice, start) && Sound()
      ensures saved ==> id in orders && Open(orders[id]) && orders[id].invoice == invoice
    {
      InvoiceKeepsValid(Rows(), id, invoice, start);
      if id !in orders || !Open(orders[id]) {
        return false;
      }
      var row := orders[id].(invoice := invoice, updatedAt := start);
      if !Unshared(orders, id, row) {
        return false;
      }
      orders := orders[id := row];
      return true;
    }

    method UpdateStatus(id: OrderId, status: OrderStatus, start: Instant)
      requires Sound()
      modifies this
      ensures Rows() == SetStatus(old(Rows()), id, status, start) && Sound()
    {
      SetStatusKeepsValid(Rows(), id, status, start);
      if status != Processing && status != Canceled {
        return;
      }
      if id in orders && Open(orders[id]) {
        orders := orders[id := orders[id].(status := status, updatedAt := start)];
      }
    }

    method ActivateFromPayment(order: Order, r: BankResult, start: Instant, lag: nat) returns (outcome: Outcome)
      requires r.order in orders && orders[r.order] == order && Open(order)
      modifies this
      ensures Ack(Rows(), outcome) == Activate(old(Rows()), r, start, lag)
      ensures outcome == Accepted ==>
                && |credits| == |old(credits)| + 1
                && var c := credits[|old(credits)|];
                   && c.order == r.order && c.user == order.user && c.end == AddPeriod(c.start, order.period)
                   && order.user in subs && subs.Keys == old(subs).Keys + {order.user}
                   && subs[order.user] == Subscription(order.plan, Active, order.period, c.start, subs[order.user].trialEndsAt, Some(c.end))
                   && (order.user in old(subs) ==> subs[order.user].trialEndsAt == old(subs)[order.user].trialEndsAt)
    {
      hide AddPeriod;
      var rollback := subs;
      var state := Ensure(order.user);
      if state.None? {
        return Error;
      }
      var now := clock + lag;
      var periodStart := now;
      if state.value.status == Active && state.value.periodEnd.Some? && state.value.periodEnd.value > now {
        periodStart := state.value.periodEnd.value;
      }
      var periodEnd := AddPeriod(periodStart, order.period);
      subs := subs[order.user := Subscription(order.plan, Active, order.period, periodStart,
                                              state.value.trialEndsAt, Some(periodEnd))];
      var row := PaidRow(order, r, start);
      if !Unshared(orders, r.order, row) {
        subs := rollback;
        return Error;
      }
      orders := orders[r.order := row];
      clock := now;
      credits := credits + [Credit(r.order, order.user, periodStart, periodEnd)];
      return Accepted;
    }

    method ApplyBankResult(r: BankResult, allowed: bool, start: Instant, lag: nat) returns (outcome: Outcome)
      requires Sound()
      modifies this
      ensures Ack(Rows(), outcome) == ApplyResult(old(Rows()), r, allowed, start, lag) && Sound()
      ensures outcome == PaymentRows.OutcomeFor(old(Rows()), r, allowed)
    {
      hide AddPeriod, Activate, PaymentRows.OutcomeFor, PaymentRows.Applied;
      PaymentRows.BankResultIsApplied(Rows(), r, allowed, start, lag);
      ApplyResultKeepsValid(Rows(), r, allowed, start, lag);
      if !WellFormed(r) {
        return Invalid;
      }
      if r.order !in orders {
        return Missing;
      }
      var order := orders[r.order];
      if !allowed || !BelongsTo(r, order) {
        return Invalid;
      }
      if order.status == Paid {
        return Accepted;
      }
      if order.status == Canceled && r.status != 2 {
        return NoLongerPayable;
      }
      if r.status == 3 {
        outcome := ActivateFromPayment(order, r, start, lag);
        return;
      }
      if r.status != 1 && r.status != 2 {
        return Invalid;
      }
      var row := Recorded(order, r, if r.status == 1 then Processing else Canceled, start);
      if !Unshared(orders, r.order, row) {
        return Error;
      }
      orders := orders[r.order := row];
      return Accepted;
    }
  }

  lemma ReserveIsAnswered(s: State, c: Checkout, start: Instant, newId: OrderId)
    requires Valid(s)
    ensures var r := Reserve(s, c, start, newId);
            && PaymentRows.AnswerIs(s, c, start, newId, r.result)
            && (r.result.Reserved? ==>
                  && r.result.id in r.state.orders
                  && var o := r.state.orders[r.result.id];
                     o.user == c.user && o.plan == c.plan && o.period == c.period && o.amountKgs == c.price)
            && (!r.result.Reserved? ==> r.state == s)
  {
    hide Reserve, PaymentRows.AnswerIs;
    PaymentRows.CheckoutIsAnswered(s, c, start, newId);
  }

  lemma SameOrders(s: State, t: State, c: Checkout, start: Instant)
    requires t.orders == s.orders
    ensures forall id :: HasKey(s, c.user, c.key, id) <==> HasKey(t, c.user, c.key, id)
    ensures forall id :: LatestOpen(s, c.user, start, id) <==> LatestOpen(t, c.user, start, id)
  {
    assert forall id :: OpenSince(s, c.user, start, id) <==> OpenSince(t, c.user, start, id);
  }

  /** The order found under a key is the one the transaction function chooses. */
  lemma KeyedReserve(s: State, c: Checkout, start: Instant, newId: OrderId, id: OrderId)
    requires Valid(s) && HasKey(s, c.user, c.key, id) && Ensured(s, c.user).Some?
    ensures id in s.orders
    ensures Reserve(s, c, start, newId) ==
            if !Matches(s.orders[id], c) || Stale(s.orders[id], s.clock) then Reply(s, NotPayable)
            else Reply(EnsureSubscription(s, c.user), Reserved(id))
  {
    hide Ensured, Matches, Stale, ProviderIdsUnique, OpenApart, OrdersSound, CreditsSound, CreditsChained, PeriodsSound;
    forall other | HasKey(s, c.user, c.key, other) ensures other == id {
      assert SameKey(s.orders[other], s.orders[id]);
    }
  }

  lemma UnknownReserve(s: State, c: Checkout, start: Instant, newId: OrderId)
    ensures Ensured(s, c.user).None? ==> Reserve(s, c, start, newId) == Reply(s, Failed)
  {
  }

  /** Without an order to answer with, a new one is made if the table takes it. */
  lemma NewReserve(s: State, c: Checkout, start: Instant, newId: OrderId)
    requires Ensured(s, c.user).Some?
    requires (forall id :: !HasKey(s, c.user, c.key, id)) && (forall id :: !LatestOpen(s, c.user, start, id))
    ensures Reserve(s, c, start, newId) ==
            if newId in s.orders || !Insertable(c) then Reply(s, Failed)
            else Reply(EnsureSubscription(s, c.user).(orders := s.orders[newId := NewOrder(c, start)]), Reserved(newId))
  {
  }

  /** Open orders lie a day apart, so the latest one is unique. */
  lemma OpenReserve(s: State, c: Checkout, start: Instant, newId: OrderId, id: OrderId)
    requires Valid(s) && LatestOpen(s, c.user, start, id) && Ensured(s, c.user).Some?
    requires forall other :: !HasKey(s, c.user, c.key, other)
    ensures id in s.orders
    ensures Reserve(s, c, start, newId) ==
            if !Matches(s.orders[id], c) then Reply(s, OtherCheckoutOpen)
            else Reply(EnsureSubscription(s, c.user), Reserved(id))
  {
    hide Ensured, Matches, KeysUnique, ProviderIdsUnique, OrdersSound, CreditsSound, CreditsChained, PeriodsSound;
    forall other | LatestOpen(s, c.user, start, other) ensures other == id {
      assert other == id || DayApart(s.orders[other], s.orders[id]);
    }
  }
}
