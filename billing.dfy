/** The billing logic of backend/app/services/subscription_service.py: the
    next-billing-date engine, the monthly equivalent of an amount, the creation
    and the partial update of a subscription and the due-soon window. */
module Billing {
  import opened Common
  import opened Dates
  import opened Schemas
  import opened Records
  import opened Store

  /** The length in months of a month-based billing cycle. */
  function CycleMonths(c: BillingCycle): (n: nat)
    requires c != Custom
    ensures n in {1, 3, 6, 12}
  {
    match c
    case Monthly => 1
    case Quarterly => 3
    case Semiannual => 6
    case Annual => 12
  }

  /** `get_monthly_subscription_amount`: the amount spread over the months of
      its cycle, and over 30 for a custom cycle. */
  function MonthlyAmount(c: BillingCycle, amount: real): (r: real)
    ensures c != Custom ==> r * CycleMonths(c) as real == amount
    ensures c == Custom ==> r * 30.0 == amount
    ensures amount > 0.0 ==> 0.0 < r <= amount
  {
    match c
    case Monthly => amount
    case Quarterly => amount / 3.0
    case Semiannual => amount / 6.0
    case Annual => amount / 12.0
    case Custom => amount / 30.0
  }

  /** The target month of the month-based branches: `date(y', m', day)`, or the
      last day of month `m'` when that raises. */
  function AdvanceMonths(d: Date, k: int): Date
    requires ValidDate(d) && 1 <= k <= 11
  {
    var (y, m) := if d.month + k > 12 then (d.year + 1, d.month + k - 12) else (d.year, d.month + k);
    match MakeDate(y, m, d.day)
    case Some(nd) => nd
    case None => LastDayByOverflow(y, m)
  }

  function Min(a: int, b: int): int {
    if a <= b then a else b
  }

  /** Advancing by `k` months moves to month `((m - 1 + k) mod 12) + 1`, carries
      into the year on wrap-around, keeps the day when it exists and otherwise
      takes the last day of the target month. */
  lemma AdvanceMonthsSpec(d: Date, k: int)
    requires ValidDate(d) && 1 <= k <= 11
    ensures var r := AdvanceMonths(d, k);
      && r.month == (d.month - 1 + k) % 12 + 1
      && r.year == d.year + (d.month - 1 + k) / 12
      && r.day == Min(d.day, DaysInMonth(r.year, r.month))
      && ValidDate(r)
      && MonthIndex(r.year, r.month) == MonthIndex(d.year, d.month) + k
  {
    var (y, m) := if d.month + k > 12 then (d.year + 1, d.month + k - 12) else (d.year, d.month + k);
    if d.month + k > 12 {
      assert (d.month - 1 + k) / 12 == 1 && (d.month - 1 + k) % 12 == m - 1;
    } else {
      assert (d.month - 1 + k) / 12 == 0 && (d.month - 1 + k) % 12 == m - 1;
    }
    assert MonthIndex(y, m) == MonthIndex(d.year, d.month) + k;
    if MakeDate(y, m, d.day).None? {
      LastDayByOverflowIsLastDay(y, m);
    }
  }

  /** The month step of each month-based cycle other than annual. */
  function StepMonths(c: BillingCycle): int
    requires c == Monthly || c == Quarterly || c == Semiannual
  {
    match c
    case Monthly => 1
    case Quarterly => 3
    case Semiannual => 6
  }

  /** The date `update_next_billing_date` computes from a stored next billing
      date; `Err(InvalidDate)` where `date(...)` raises. The result is a real
      date strictly after the stored one, and only an annual 29 February fails. */
  function NextBillingDate(c: BillingCycle, d: Date): (r: Result<Date, Error>)
    requires ValidDate(d)
    ensures r.Ok? ==> ValidDate(r.value) && Before(d, r.value)
    ensures r.Err? <==> c == Annual && d.month == 2 && d.day == 29
    ensures r.Err? ==> r.error == InvalidDate
  {
    match c
    case Annual =>
      (match MakeDate(d.year + 1, d.month, d.day)
       case Some(nd) => Ok(nd)
       case None => Err(InvalidDate))
    case Custom => Ok(AddDays(d, 30))
    case _ =>
      AdvanceMonthsSpec(d, StepMonths(c));
      Ok(AdvanceMonths(d, StepMonths(c)))
  }

  /** Monthly, quarterly and semiannual: the clamped target day of the month `k` months on. */
  lemma MonthStepResult(c: BillingCycle, d: Date)
    requires ValidDate(d) && (c == Monthly || c == Quarterly || c == Semiannual)
    ensures var k := StepMonths(c);
      var m := (d.month - 1 + k) % 12 + 1;
      var y := d.year + (d.month - 1 + k) / 12;
      NextBillingDate(c, d) == Ok(Date(y, m, Min(d.day, DaysInMonth(y, m))))
  {
    AdvanceMonthsSpec(d, StepMonths(c));
  }

  /** Annual: the same month and day one year later, except that 29 February raises. */
  lemma AnnualStepResult(d: Date)
    requires ValidDate(d)
    ensures d.month == 2 && d.day == 29 ==> NextBillingDate(Annual, d) == Err(InvalidDate)
    ensures !(d.month == 2 && d.day == 29) ==>
            NextBillingDate(Annual, d) == Ok(Date(d.year + 1, d.month, d.day))
  {
  }

  /** `d + n days - n days == d`. */
  lemma {:induction false} AddDaysBack(d: Date, n: nat)
    requires ValidDate(d)
    ensures AddDays(AddDays(d, n), -(n as int)) == d
    decreases n
  {
    if n > 0 {
      AddDaysCompose(d, n - 1, 1);
      var x := AddDays(d, n - 1);
      assert AddDays(d, n) == NextDay(x);
      assert PrevDay(NextDay(x)) == x;
      AddDaysBack(d, n - 1);
    }
  }

  /** Custom: exactly 30 days later, so stepping back 30 days returns the stored date. */
  lemma CustomStepResult(d: Date)
    requires ValidDate(d)
    ensures NextBillingDate(Custom, d).Ok?
    ensures AddDays(NextBillingDate(Custom, d).value, -30) == d
  {
    AddDaysBack(d, 30);
  }

  /** The worked example of the clamp: 31 January 2024 monthly becomes 29 February 2024. */
  lemma MonthlyClampExample()
    ensures NextBillingDate(Monthly, Date(2024, 1, 31)) == Ok(Date(2024, 2, 29))
  {
    MonthStepResult(Monthly, Date(2024, 1, 31));
  }

  /** A stored subscription after one advance of its next billing date. */
  function Advanced(s: Subscription): (r: Result<Subscription, Error>)
    requires ValidDate(s.nextBillingDate)
    ensures r.Ok? ==> r.value == s.(nextBillingDate := r.value.nextBillingDate)
    ensures r.Ok? ==> Before(s.nextBillingDate, r.value.nextBillingDate)
    ensures r.Err? <==> NextBillingDate(s.billingCycle, s.nextBillingDate).Err?
  {
    match NextBillingDate(s.billingCycle, s.nextBillingDate)
    case Ok(d) => Ok(s.(nextBillingDate := d))
    case Err(e) => Err(e)
  }

  /** The subscription table after `update_next_billing_date(id, user)`, or the error it raises. */
  function AdvanceInTable(subs: seq<Subscription>, id: int, userId: int): (r: Result<(seq<Subscription>, Subscription), Error>)
    requires forall i :: 0 <= i < |subs| ==> SchemaValid(subs[i])
    ensures FindSubscription(subs, id, userId).None? ==> r == Err(NotFound)
    ensures r.Ok? ==> |r.value.0| == |subs| && forall i :: 0 <= i < |subs| ==> SchemaValid(r.value.0[i])
    ensures r.Ok? ==> var i := FindSubscription(subs, id, userId).value;
      && SchemaValid(subs[i])
      && r.value.0 == subs[i := r.value.1]
      && r.value.1.id == id && r.value.1.userId == userId
      && Advanced(subs[i]) == Ok(r.value.1)
  {
    match FindSubscription(subs, id, userId)
    case None => Err(NotFound)
    case Some(i) =>
      assert SchemaValid(subs[i]);
      match Advanced(subs[i])
      case Err(e) => Err(e)
      case Ok(s) => Ok((subs[i := s], s))
  }

  /** `update_next_billing_date`: advances the owned subscription's stored next
      billing date by one cycle; an unknown or foreign subscription (404) or a
      raising date changes nothing. */
  method UpdateNextBillingDate(db: Db, subscriptionId: int, userId: int) returns (r: Result<Subscription, Error>)
    requires db.Valid()
    modifies db
    ensures db.Valid()
    ensures var t := AdvanceInTable(old(db.subscriptions), subscriptionId, userId);
      && (t.Ok? ==> r == Ok(t.value.1) && db.subscriptions == t.value.0)
      && (t.Err? ==> r == Err(t.error) && db.subscriptions == old(db.subscriptions))
    ensures db.categories == old(db.categories) && db.payments == old(db.payments)
    ensures db.notifications == old(db.notifications)
    ensures db.nextSubscriptionId == old(db.nextSubscriptionId)
    ensures db.nextPaymentId == old(db.nextPaymentId)
    ensures db.nextNotificationId == old(db.nextNotificationId)
  {
    var t := AdvanceInTable(db.subscriptions, subscriptionId, userId);
    match t {
      case Err(e) =>
        r := Err(e);
      case Ok(pair) =>
        db.subscriptions := pair.0;
        r := Ok(pair.1);
    }
  }

  /** `if subscription.category_id:` then the category must be the user's:
      an absent or zero id is not checked. */
  predicate CategoryAccepted(cats: seq<Category>, userId: int, categoryId: Option<int>) {
    categoryId.None? || categoryId.value == 0 || FindCategory(cats, categoryId.value, userId).Some?
  }

  /** The outcome of `create_subscription`: 404 for a category the user does
      not own, else the table with the new row appended under the next id. */
  function CreateInTable(subs: seq<Subscription>, cats: seq<Category>, nextId: int,
                         c: SubscriptionCreate, userId: int, today: Date): (r: Result<(seq<Subscription>, Subscription), Error>)
    ensures r.Ok? <==> CategoryAccepted(cats, userId, c.categoryId)
    ensures r.Err? ==> r.error == NotFound
    ensures r.Ok? ==> r.value.0 == subs + [r.value.1]
    ensures r.Ok? ==> r.value.1 == SubscriptionFromCreate(nextId, userId, c, today)
  {
    if !CategoryAccepted(cats, userId, c.categoryId) then Err(NotFound)
    else
      var s := SubscriptionFromCreate(nextId, userId, c, today);
      Ok((subs + [s], s))
  }

  /** `create_subscription`: the row is stored for the user, created today. */
  method CreateSubscription(db: Db, c: SubscriptionCreate, userId: int, today: Date)
    returns (r: Result<Subscription, Error>)
    requires db.Valid() && CreateConstraints(c.amount, c.billingDay) && ValidDate(c.nextBillingDate)
    modifies db
    ensures db.Valid()
    ensures var t := CreateInTable(old(db.subscriptions), old(db.categories), old(db.nextSubscriptionId), c, userId, today);
      && (t.Ok? ==> r == Ok(t.value.1) && db.subscriptions == t.value.0
                    && db.nextSubscriptionId == old(db.nextSubscriptionId) + 1)
      && (t.Err? ==> r == Err(t.error) && db.subscriptions == old(db.subscriptions)
                     && db.nextSubscriptionId == old(db.nextSubscriptionId))
    ensures db.categories == old(db.categories) && db.payments == old(db.payments)
    ensures db.notifications == old(db.notifications)
    ensures db.nextPaymentId == old(db.nextPaymentId)
    ensures db.nextNotificationId == old(db.nextNotificationId)
  {
    var t := CreateInTable(db.subscriptions, db.categories, db.nextSubscriptionId, c, userId, today);
    match t {
      case Err(e) =>
        r := Err(e);
      case Ok(pair) =>
        db.subscriptions := pair.0;
        db.nextSubscriptionId := db.nextSubscriptionId + 1;
        r := Ok(pair.1);
    }
  }

  /** `setattr` of every field set in the update, and nothing else. */
  function ApplyUpdate(s: Subscription, u: SubscriptionUpdate): (r: Subscription)
    ensures r.id == s.id && r.userId == s.userId && r.createdOn == s.createdOn
    ensures r.name == OrElse(u.name, s.name) && r.amount == OrElse(u.amount, s.amount)
    ensures r.billingCycle == OrElse(u.billingCycle, s.billingCycle)
    ensures r.billingDay == OrElse(u.billingDay, s.billingDay)
    ensures r.nextBillingDate == OrElse(u.nextBillingDate, s.nextBillingDate)
    ensures r.isActive == OrElse(u.isActive, s.isActive)
    ensures r.categoryId == (if u.categoryId.Some? then u.categoryId else s.categoryId)
    ensures r.description == (if u.description.Some? then u.description else s.description)
    ensures r.currency == OrElse(u.currency, s.currency)
    ensures r.startDate == OrElse(u.startDate, s.startDate)
    ensures r.endDate == (if u.endDate.Some? then u.endDate else s.endDate)
    ensures r.autoRenew == OrElse(u.autoRenew, s.autoRenew)
    ensures r.reminderDays == (if u.reminderDays.Some? then u.reminderDays else s.reminderDays)
    ensures r.websiteUrl == (if u.websiteUrl.Some? then u.websiteUrl else s.websiteUrl)
    ensures r.notes == (if u.notes.Some? then u.notes else s.notes)
  {
    Subscription(
      s.id, s.userId,
      OrElse(u.name, s.name),
      if u.description.Some? then u.description else s.description,
      OrElse(u.amount, s.amount),
      OrElse(u.currency, s.currency),
      OrElse(u.billingCycle, s.billingCycle),
      OrElse(u.billingDay, s.billingDay),
      OrElse(u.nextBillingDate, s.nextBillingDate),
      OrElse(u.startDate, s.startDate),
      if u.endDate.Some? then u.endDate else s.endDate,
      OrElse(u.autoRenew, s.autoRenew),
      if u.reminderDays.Some? then u.reminderDays else s.reminderDays,
      if u.websiteUrl.Some? then u.websiteUrl else s.websiteUrl,
      if u.notes.Some? then u.notes else s.notes,
      OrElse(u.isActive, s.isActive),
      if u.categoryId.Some? then u.categoryId else s.categoryId,
      s.createdOn)
  }

  /** The update that sets nothing. */
  const EmptyUpdate: SubscriptionUpdate :=
    SubscriptionUpdate(None, None, None, None, None, None, None, None, None, None, None, None, None, None, None)

  /** Applying an update changes nothing when it sets nothing, and applying it twice is applying it once. */
  lemma ApplyUpdateLaws(s: Subscription, u: SubscriptionUpdate)
    ensures ApplyUpdate(s, EmptyUpdate) == s
    ensures ApplyUpdate(ApplyUpdate(s, u), u) == ApplyUpdate(s, u)
  {
  }

  /** A schema-valid subscription stays schema-valid under a validated update
      whose new date, if any, is a real date. */
  lemma ApplyUpdateKeepsValid(s: Subscription, u: SubscriptionUpdate)
    requires SchemaValid(s) && UpdateConstraints(u)
    requires u.nextBillingDate.Some? ==> ValidDate(u.nextBillingDate.value)
    ensures SchemaValid(ApplyUpdate(s, u))
  {
  }

  /** The outcome of `update_subscription`: 404 for a missing subscription, then
      404 for a positive category id the user does not own, else the updated table. */
  function UpdateInTable(subs: seq<Subscription>, cats: seq<Category>, id: int,
                         u: SubscriptionUpdate, userId: int): (r: Result<(seq<Subscription>, Subscription), Error>)
    ensures FindSubscription(subs, id, userId).None? ==> r == Err(NotFound)
    ensures (&& FindSubscription(subs, id, userId).Some? && u.categoryId.Some? && u.categoryId.value > 0
             && FindCategory(cats, u.categoryId.value, userId).None?) ==> r == Err(NotFound)
    ensures r.Err? ==> r.error == NotFound
    ensures r.Ok? ==> var i := FindSubscription(subs, id, userId).value;
      && i < |subs|
      && r.value == (subs[i := ApplyUpdate(subs[i], u)], ApplyUpdate(subs[i], u))
  {
    match FindSubscription(subs, id, userId)
    case None => Err(NotFound)
    case Some(i) =>
      if u.categoryId.Some? && u.categoryId.value > 0 && FindCategory(cats, u.categoryId.value, userId).None? then
        Err(NotFound)
      else
        var s := ApplyUpdate(subs[i], u);
        Ok((subs[i := s], s))
  }

  /** `update_subscription`. */
  method UpdateSubscription(db: Db, subscriptionId: int, u: SubscriptionUpdate, userId: int)
    returns (r: Result<Subscription, Error>)
    requires db.Valid() && UpdateConstraints(u)
    requires u.nextBillingDate.Some? ==> ValidDate(u.nextBillingDate.value)
    modifies db
    ensures db.Valid()
    ensures var t := UpdateInTable(old(db.subscriptions), old(db.categories), subscriptionId, u, userId);
      && (t.Ok? ==> r == Ok(t.value.1) && db.subscriptions == t.value.0)
      && (t.Err? ==> r == Err(t.error) && db.subscriptions == old(db.subscriptions))
    ensures db.categories == old(db.categories) && db.payments == old(db.payments)
    ensures db.notifications == old(db.notifications)
    ensures db.nextSubscriptionId == old(db.nextSubscriptionId)
    ensures db.nextPaymentId == old(db.nextPaymentId)
    ensures db.nextNotificationId == old(db.nextNotificationId)
  {
    var t := UpdateInTable(db.subscriptions, db.categories, subscriptionId, u, userId);
    match t {
      case Err(e) =>
        r := Err(e);
      case Ok(pair) =>
        ghost var i := FindSubscription(db.subscriptions, subscriptionId, userId).value;
        ApplyUpdateKeepsValid(db.subscriptions[i], u);
        db.subscriptions := pair.0;
        r := Ok(pair.1);
    }
  }

  /** The filter of `get_subscriptions_due_soon`: active, and billing between
      `today` and `future` inclusive. */
  predicate InWindow(s: Subscription, today: Date, future: Date) {
    s.isActive && NotAfter(today, s.nextBillingDate) && NotAfter(s.nextBillingDate, future)
  }

  function Filter(subs: seq<Subscription>, today: Date, future: Date): (r: seq<Subscription>)
    ensures |r| <= |subs|
    ensures forall x :: x in r <==> x in subs && InWindow(x, today, future)
  {
    if subs == [] then []
    else if InWindow(subs[0], today, future) then [subs[0]] + Filter(subs[1..], today, future)
    else Filter(subs[1..], today, future)
  }

  /** `get_subscriptions_due_soon(days_ahead)`: the subscriptions of every user that
      are active and due between today and today + `days_ahead` days. */
  function DueSoon(subs: seq<Subscription>, today: Date, daysAhead: int): (r: seq<Subscription>)
    requires ValidDate(today)
    ensures forall x :: x in r <==> x in subs && InWindow(x, today, AddDays(today, daysAhead))
    ensures forall x :: x in r ==> x.isActive && NotAfter(today, x.nextBillingDate)
  {
    Filter(subs, today, AddDays(today, daysAhead))
  }
}
