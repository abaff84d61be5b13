/** The stored rows of backend/app/db/models.py that the services read and write. */
module Records {
  import opened Common
  import opened Dates
  import opened Schemas

  /** A row of `subscriptions`. `createdOn` is the calendar day of `created_at`. */
  datatype Subscription = Subscription(
    id: int,
    userId: int,
    name: string,
    description: Option<string>,
    amount: real,
    currency: string,
    billingCycle: BillingCycle,
    billingDay: int,
    nextBillingDate: Date,
    startDate: Date,
    endDate: Option<Date>,
    autoRenew: bool,
    reminderDays: Option<int>,
    websiteUrl: Option<string>,
    notes: Option<string>,
    isActive: bool,
    categoryId: Option<int>,
    createdOn: Date)

  /** Every stored subscription went through the create or update schema. */
  predicate SchemaValid(s: Subscription) {
    CreateConstraints(s.amount, s.billingDay) && ValidDate(s.nextBillingDate)
  }

  /** `Subscription(**subscription.dict(), user_id=user_id)`. */
  function SubscriptionFromCreate(id: int, userId: int, c: SubscriptionCreate, createdOn: Date): (s: Subscription)
    ensures CreateConstraints(c.amount, c.billingDay) && ValidDate(c.nextBillingDate) ==> SchemaValid(s)
  {
    Subscription(id, userId, c.name, c.description, c.amount, c.currency, c.billingCycle,
                 c.billingDay, c.nextBillingDate, c.startDate, c.endDate, c.autoRenew,
                 Some(c.reminderDays), c.websiteUrl, c.notes, c.isActive, c.categoryId, createdOn)
  }

  /** A row of `categories`. */
  datatype Category = Category(id: int, userId: int, name: string, color: string)

  /** A row of `payment_history`; `status` is free text ("paid", "pending", "failed"). */
  datatype Payment = Payment(
    id: int,
    subscriptionId: int,
    paymentDate: Date,
    amount: real,
    status: string,
    paymentMethod: Option<string>,
    receiptUrl: Option<string>,
    notes: Option<string>)

  datatype NotificationType = Email | Push | Sms | InApp

  datatype NotificationStatus = Pending | Sent | Failed | Read

  /** A row of `notifications`. */
  datatype Notification = Notification(
    id: int,
    userId: int,
    subscriptionId: Option<int>,
    kind: NotificationType,
    subject: string,
    status: NotificationStatus,
    scheduledAt: DateTime,
    sentAt: Option<DateTime>,
    readAt: Option<DateTime>)
}
