/** The request schemas of backend/app/schemas/subscription.py: the billing
    cycle enumeration, the create schema with its constraints and defaults,
    and the all-optional update schema. */
module Schemas {
  import opened Common
  import opened Dates

  /** `BillingCycle` (the same five values as the database enumeration). */
  datatype BillingCycle = Monthly | Quarterly | Semiannual | Annual | Custom

  /** A `SubscriptionCreate` whose constraints have been checked. */
  datatype SubscriptionCreate = SubscriptionCreate(
    name: string,
    description: Option<string>,
    amount: real,
    currency: string,
    billingCycle: BillingCycle,
    billingDay: int,
    nextBillingDate: Date,
    startDate: Date,
    endDate: Option<Date>,
    autoRenew: bool,
    reminderDays: int,
    websiteUrl: Option<string>,
    notes: Option<string>,
    isActive: bool,
    categoryId: Option<int>)

  /** The fields a client sends to create a subscription; `None` marks a field
      left out, which then takes its default. */
  datatype SubscriptionCreateInput = SubscriptionCreateInput(
    name: string,
    description: Option<string>,
    amount: real,
    currency: Option<string>,
    billingCycle: Option<BillingCycle>,
    billingDay: int,
    nextBillingDate: Date,
    startDate: Option<Date>,
    endDate: Option<Date>,
    autoRenew: Option<bool>,
    reminderDays: Option<int>,
    websiteUrl: Option<string>,
    notes: Option<string>,
    isActive: Option<bool>,
    categoryId: Option<int>)

  /** `amount: float = Field(..., gt=0)` and `billing_day: int = Field(..., ge=1, le=31)`. */
  predicate CreateConstraints(amount: real, billingDay: int) {
    amount > 0.0 && 1 <= billingDay <= 31
  }

  const DefaultCurrency: string := "IDR"
  const DefaultReminderDays: int := 3

  /** Building a `SubscriptionCreate`: fails exactly when a constraint is violated,
      and fills every omitted field with its declared default (`today` for the start date). */
  function ValidateCreate(input: SubscriptionCreateInput, today: Date): (r: Result<SubscriptionCreate, Error>)
    ensures r.Ok? <==> CreateConstraints(input.amount, input.billingDay)
    ensures r.Err? ==> r.error == ValidationError
    ensures r.Ok? ==> CreateConstraints(r.value.amount, r.value.billingDay)
    ensures r.Ok? && input.currency.None? ==> r.value.currency == "IDR"
    ensures r.Ok? && input.billingCycle.None? ==> r.value.billingCycle == Monthly
    ensures r.Ok? && input.startDate.None? ==> r.value.startDate == today
    ensures r.Ok? && input.autoRenew.None? ==> r.value.autoRenew
    ensures r.Ok? && input.reminderDays.None? ==> r.value.reminderDays == 3
    ensures r.Ok? && input.isActive.None? ==> r.value.isActive
  {
    if !CreateConstraints(input.amount, input.billingDay) then Err(ValidationError)
    else Ok(SubscriptionCreate(
      input.name, input.description, input.amount,
      OrElse(input.currency, DefaultCurrency),
      OrElse(input.billingCycle, Monthly),
      input.billingDay, input.nextBillingDate,
      OrElse(input.startDate, today),
      input.endDate,
      OrElse(input.autoRenew, true),
      OrElse(input.reminderDays, DefaultReminderDays),
      input.websiteUrl, input.notes,
      OrElse(input.isActive, true),
      input.categoryId))
  }

  /** A `SubscriptionUpdate`: `Some` marks a field the client set. */
  datatype SubscriptionUpdate = SubscriptionUpdate(
    name: Option<string>,
    description: Option<string>,
    amount: Option<real>,
    currency: Option<string>,
    billingCycle: Option<BillingCycle>,
    billingDay: Option<int>,
    nextBillingDate: Option<Date>,
    startDate: Option<Date>,
    endDate: Option<Date>,
    autoRenew: Option<bool>,
    reminderDays: Option<int>,
    websiteUrl: Option<string>,
    notes: Option<string>,
    isActive: Option<bool>,
    categoryId: Option<int>)

  /** The update's constraints, checked only on the fields that are present. */
  predicate UpdateConstraints(u: SubscriptionUpdate) {
    && (u.amount.Some? ==> u.amount.value > 0.0)
    && (u.billingDay.Some? ==> 1 <= u.billingDay.value <= 31)
  }

  /** Building a `SubscriptionUpdate`: every field is optional, and a present
      amount or billing day must meet the create constraints. */
  function ValidateUpdate(u: SubscriptionUpdate): (r: Result<SubscriptionUpdate, Error>)
    ensures r.Ok? <==> UpdateConstraints(u)
    ensures r.Ok? ==> r.value == u
    ensures r.Err? ==> r.error == ValidationError
  {
    if UpdateConstraints(u) then Ok(u) else Err(ValidationError)
  }

  /** The update that sets nothing always validates. */
  lemma EmptyUpdateValid()
    ensures ValidateUpdate(SubscriptionUpdate(None, None, None, None, None, None, None, None,
                                              None, None, None, None, None, None, None)).Ok?
  {
  }
}
