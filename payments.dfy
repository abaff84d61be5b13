/** backend/app/services/payment_service.py: payment records and the rule that
    a payment becoming "paid" advances its subscription's next billing date once. */
module Payments {
  import opened Common
  import opened Dates
  import opened Records
  import opened Store
  import opened Billing

  const PaidStatus: string := "paid"
  const ManualEntry: string := "Manual Entry"

  /** A `PaymentCreate` (`amount` must be positive; `status` defaults to "paid"). */
  datatype PaymentCreate = PaymentCreate(
    subscriptionId: int,
    paymentDate: Date,
    amount: real,
    status: string,
    paymentMethod: Option<string>,
    receiptUrl: Option<string>,
    notes: Option<string>)

  /** A `PaymentUpdate`: `Some` marks a field the client set. */
  datatype PaymentUpdate = PaymentUpdate(
    paymentDate: Option<Date>,
    amount: Option<real>,
    status: Option<string>,
    paymentMethod: Option<string>,
    receiptUrl: Option<string>,
    notes: Option<string>)

  /** Building a `PaymentCreate`: the amount must be positive. */
  function ValidatePaymentCreate(p: PaymentCreate): (r: Result<PaymentCreate, Error>)
    ensures r.Ok? <==> p.amount > 0.0
    ensures r.Ok? ==> r.value == p
    ensures r.Err? ==> r.error == ValidationError
  {
    if p.amount > 0.0 then Ok(p) else Err(ValidationError)
  }

  /** `create_payment` advances the subscription exactly when the new payment is paid. */
  predicate AdvancesOnCreate(status: string) {
    status == PaidStatus
  }

  /** `update_payment` advances exactly when the status goes from not paid to paid. */
  predicate AdvancesOnUpdate(oldStatus: string, newStatus: string) {
    oldStatus != PaidStatus && newStatus == PaidStatus
  }

  /** The update rule never fires for a payment that was already paid, nor for
      one that ends up unpaid, and fires for every change from unpaid to paid. */
  lemma AdvanceRuleCases(oldStatus: string, newStatus: string)
    ensures oldStatus == PaidStatus ==> !AdvancesOnUpdate(oldStatus, newStatus)
    ensures newStatus != PaidStatus ==> !AdvancesOnUpdate(oldStatus, newStatus)
    ensures oldStatus != PaidStatus && newStatus == PaidStatus ==> AdvancesOnUpdate(oldStatus, newStatus)
  {
  }

  /** The stored row for a created payment. */
  function PaymentFromCreate(id: int, p: PaymentCreate): (r: Payment)
    ensures r.id == id && r.subscriptionId == p.subscriptionId && r.status == p.status
    ensures r.paymentDate == p.paymentDate && r.amount == p.amount
    ensures r.paymentMethod == p.paymentMethod && r.receiptUrl == p.receiptUrl && r.notes == p.notes
  {
    Payment(id, p.subscriptionId, p.paymentDate, p.amount, p.status, p.paymentMethod, p.receiptUrl, p.notes)
  }

  /** `setattr` of every field set in the payment update, and nothing else. */
  function ApplyPaymentUpdate(p: Payment, u: PaymentUpdate): (r: Payment)
    ensures r.id == p.id && r.subscriptionId == p.subscriptionId
    ensures r.paymentDate == OrElse(u.paymentDate, p.paymentDate)
    ensures r.amount == OrElse(u.amount, p.amount)
    ensures r.status == OrElse(u.status, p.status)
    ensures r.paymentMethod == (if u.paymentMethod.Some? then u.paymentMethod else p.paymentMethod)
    ensures r.receiptUrl == (if u.receiptUrl.Some? then u.receiptUrl else p.receiptUrl)
    ensures r.notes == (if u.notes.Some? then u.notes else p.notes)
  {
    Payment(
      p.id, p.subscriptionId,
      OrElse(u.paymentDate, p.paymentDate),
      OrElse(u.amount, p.amount),
      OrElse(u.status, p.status),
      if u.paymentMethod.Some? then u.paymentMethod else p.paymentMethod,
      if u.receiptUrl.Some? then u.receiptUrl else p.receiptUrl,
      if u.notes.Some? then u.notes else p.notes)
  }

  /** An update that does not set the status never triggers an advance. */
  lemma UpdateWithoutStatusNeverAdvances(p: Payment, u: PaymentUpdate)
    requires u.status.None?
    ensures !AdvancesOnUpdate(p.status, ApplyPaymentUpdate(p, u).status)
  {
  }

  /** `create_payment`: 404 unless the subscription belongs to the user; otherwise
      the payment is stored, and only a paid payment advances the subscription
      once. An advance that raises leaves the stored payment in place. */
  method CreatePayment(db: Db, p: PaymentCreate, userId: int) returns (r: Result<Payment, Error>)
    requires db.Valid() && p.amount > 0.0
    modifies db
    ensures db.Valid()
    ensures db.categories == old(db.categories) && db.notifications == old(db.notifications)
    ensures db.nextSubscriptionId == old(db.nextSubscriptionId)
    ensures db.nextNotificationId == old(db.nextNotificationId)
    ensures FindSubscription(old(db.subscriptions), p.subscriptionId, userId).None? ==>
      && r == Err(NotFound)
      && db.subscriptions == old(db.subscriptions) && db.payments == old(db.payments)
      && db.nextPaymentId == old(db.nextPaymentId)
    ensures FindSubscription(old(db.subscriptions), p.subscriptionId, userId).Some? ==>
      var row := PaymentFromCreate(old(db.nextPaymentId), p);
      && db.payments == old(db.payments) + [row]
      && db.nextPaymentId == old(db.nextPaymentId) + 1
      && (!AdvancesOnCreate(p.status) ==> r == Ok(row) && db.subscriptions == old(db.subscriptions))
      && (AdvancesOnCreate(p.status) ==>
            var t := AdvanceInTable(old(db.subscriptions), p.subscriptionId, userId);
            && (t.Ok? ==> r == Ok(row) && db.subscriptions == t.value.0)
            && (t.Err? ==> r == Err(t.error) && db.subscriptions == old(db.subscriptions)))
  {
    if FindSubscription(db.subscriptions, p.subscriptionId, userId).None? {
      return Err(NotFound);
    }
    var row := PaymentFromCreate(db.nextPaymentId, p);
    db.payments := db.payments + [row];
    db.nextPaymentId := db.nextPaymentId + 1;
    r := Ok(row);
    if p.status == PaidStatus {
      var advanced := UpdateNextBillingDate(db, p.subscriptionId, userId);
      if advanced.Err? {
        r := Err(advanced.error);
      }
    }
  }

  /** `update_payment`: 404 for an unknown payment, then 404 when its subscription
      is not the user's; otherwise the set fields change, and the subscription
      advances once exactly when the status goes from not paid to paid. */
  method UpdatePayment(db: Db, paymentId: int, u: PaymentUpdate, userId: int) returns (r: Result<Payment, Error>)
    requires db.Valid()
    requires u.amount.Some? ==> u.amount.value > 0.0
    modifies db
    ensures db.Valid()
    ensures db.categories == old(db.categories) && db.notifications == old(db.notifications)
    ensures db.nextSubscriptionId == old(db.nextSubscriptionId) && db.nextPaymentId == old(db.nextPaymentId)
    ensures db.nextNotificationId == old(db.nextNotificationId)
    ensures FindPayment(old(db.payments), paymentId).None? ==>
      r == Err(NotFound) && db.subscriptions == old(db.subscriptions) && db.payments == old(db.payments)
    ensures FindPayment(old(db.payments), paymentId).Some? ==>
      var k := FindPayment(old(db.payments), paymentId).value;
      var before := old(db.payments)[k];
      var after := ApplyPaymentUpdate(before, u);
      && (FindSubscription(old(db.subscriptions), before.subscriptionId, userId).None? ==>
            r == Err(NotFound) && db.subscriptions == old(db.subscriptions) && db.payments == old(db.payments))
      && (FindSubscription(old(db.subscriptions), before.subscriptionId, userId).Some? ==>
            && db.payments == old(db.payments)[k := after]
            && (!AdvancesOnUpdate(before.status, after.status) ==>
                  r == Ok(after) && db.subscriptions == old(db.subscriptions))
            && (AdvancesOnUpdate(before.status, after.status) ==>
                  var t := AdvanceInTable(old(db.subscriptions), before.subscriptionId, userId);
                  && (t.Ok? ==> r == Ok(after) && db.subscriptions == t.value.0)
                  && (t.Err? ==> r == Err(t.error) && db.subscriptions == old(db.subscriptions))))
  {
    var found := FindPayment(db.payments, paymentId);
    if found.None? {
      return Err(NotFound);
    }
    var k := found.value;
    var before := db.payments[k];
    if FindSubscription(db.subscriptions, before.subscriptionId, userId).None? {
      return Err(NotFound);
    }
    var oldStatus := before.status;
    var after := ApplyPaymentUpdate(before, u);
    db.payments := db.payments[k := after];
    r := Ok(after);
    if oldStatus != PaidStatus && after.status == PaidStatus {
      var advanced := UpdateNextBillingDate(db, after.subscriptionId, userId);
      if advanced.Err? {
        r := Err(advanced.error);
      }
    }
  }

  /** `delete_payment`: removes the payment after the same two 404 checks; the
      subscription, and so its next billing date, is never touched. */
  method DeletePayment(db: Db, paymentId: int, userId: int) returns (r: Result<(), Error>)
    modifies db
    ensures db.subscriptions == old(db.subscriptions)
    ensures db.categories == old(db.categories) && db.notifications == old(db.notifications)
    ensures db.nextSubscriptionId == old(db.nextSubscriptionId) && db.nextPaymentId == old(db.nextPaymentId)
    ensures db.nextNotificationId == old(db.nextNotificationId)
    ensures FindPayment(old(db.payments), paymentId).None? ==> r == Err(NotFound) && db.payments == old(db.payments)
    ensures FindPayment(old(db.payments), paymentId).Some? ==>
      var k := FindPayment(old(db.payments), paymentId).value;
      && (FindSubscription(old(db.subscriptions), old(db.payments)[k].subscriptionId, userId).None? ==>
            r == Err(NotFound) && db.payments == old(db.payments))
      && (FindSubscription(old(db.subscriptions), old(db.payments)[k].subscriptionId, userId).Some? ==>
            r == Ok(()) && db.payments == old(db.payments)[..k] + old(db.payments)[k + 1..])
  {
    var found := FindPayment(db.payments, paymentId);
    if found.None? {
      return Err(NotFound);
    }
    var k := found.value;
    if FindSubscription(db.subscriptions, db.payments[k].subscriptionId, userId).None? {
      return Err(NotFound);
    }
    db.payments := db.payments[..k] + db.payments[k + 1..];
    r := Ok(());
  }

  /** Python's `x or default` for an optional string: `None` and "" take the default. */
  function OrDefault(s: Option<string>, default: string): (r: string)
    ensures s.Some? && s.value != "" ==> r == s.value
    ensures s.None? || s.value == "" ==> r == default
  {
    if s.Some? && s.value != "" then s.value else default
  }

  /** The `PaymentCreate` that `record_payment_for_subscription` builds for a
      subscription: its amount, status "paid", the method or "Manual Entry", and
      the given date or today. */
  function RecordRequest(s: Subscription, today: Date, paymentDate: Option<Date>,
                         paymentMethod: Option<string>, notes: Option<string>): (r: Result<PaymentCreate, Error>)
    ensures r.Ok? <==> s.amount > 0.0
    ensures r.Ok? ==> && r.value.subscriptionId == s.id && r.value.amount == s.amount
                      && r.value.status == PaidStatus
                      && r.value.paymentDate == OrElse(paymentDate, today)
                      && r.value.paymentMethod == Some(OrDefault(paymentMethod, ManualEntry))
                      && r.value.receiptUrl.None? && r.value.notes == notes
  {
    ValidatePaymentCreate(PaymentCreate(s.id, OrElse(paymentDate, today), s.amount, PaidStatus,
                                        Some(OrDefault(paymentMethod, ManualEntry)), None, notes))
  }

  /** A recorded payment is always paid, so recording always advances the
      subscription; for a schema-valid subscription the request never fails. */
  lemma RecordAlwaysAdvances(s: Subscription, today: Date, paymentDate: Option<Date>,
                             paymentMethod: Option<string>, notes: Option<string>)
    requires SchemaValid(s)
    ensures RecordRequest(s, today, paymentDate, paymentMethod, notes).Ok?
    ensures AdvancesOnCreate(RecordRequest(s, today, paymentDate, paymentMethod, notes).value.status)
  {
  }

  /** `record_payment_for_subscription`: 404 unless the subscription is the
      user's; otherwise `create_payment` of the request above, which stores a
      paid payment and advances the subscription once. */
  method RecordPaymentForSubscription(db: Db, subscriptionId: int, userId: int, today: Date,
                                      paymentDate: Option<Date>, paymentMethod: Option<string>,
                                      notes: Option<string>) returns (r: Result<Payment, Error>)
    requires db.Valid()
    modifies db
    ensures db.Valid()
    ensures db.categories == old(db.categories) && db.notifications == old(db.notifications)
    ensures db.nextSubscriptionId == old(db.nextSubscriptionId)
    ensures db.nextNotificationId == old(db.nextNotificationId)
    ensures FindSubscription(old(db.subscriptions), subscriptionId, userId).None? ==>
      && r == Err(NotFound)
      && db.subscriptions == old(db.subscriptions) && db.payments == old(db.payments)
      && db.nextPaymentId == old(db.nextPaymentId)
    ensures FindSubscription(old(db.subscriptions), subscriptionId, userId).Some? ==>
      db.nextPaymentId == old(db.nextPaymentId) + 1
    ensures FindSubscription(old(db.subscriptions), subscriptionId, userId).Some? ==>
      var s := old(db.subscriptions)[FindSubscription(old(db.subscriptions), subscriptionId, userId).value];
      var req := RecordRequest(s, today, paymentDate, paymentMethod, notes);
      var row := PaymentFromCreate(old(db.nextPaymentId), req.value);
      var t := AdvanceInTable(old(db.subscriptions), subscriptionId, userId);
      && req.Ok?
      && db.payments == old(db.payments) + [row]
      && (t.Ok? ==> r == Ok(row) && db.subscriptions == t.value.0)
      && (t.Err? ==> r == Err(t.error) && db.subscriptions == old(db.subscriptions))
  {
    var found := FindSubscription(db.subscriptions, subscriptionId, userId);
    if found.None? {
      return Err(NotFound);
    }
    var s := db.subscriptions[found.value];
    assert SchemaValid(s);
    var req := RecordRequest(s, today, paymentDate, paymentMethod, notes);
    RecordAlwaysAdvances(s, today, paymentDate, paymentMethod, notes);
    r := CreatePayment(db, req.value, userId);
  }
}
