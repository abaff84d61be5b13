/** The database session the services receive: one table per record kind,
    kept in insertion order, with one auto-increment counter per table. */
module Store {
  import opened Common
  import opened Records

  class Db {
    var subscriptions: seq<Subscription>
    var categories: seq<Category>
    var payments: seq<Payment>
    var notifications: seq<Notification>
    var nextSubscriptionId: int
    var nextPaymentId: int
    var nextNotificationId: int

    /** Every stored subscription satisfies the subscription schema. */
    predicate Valid()
      reads this
    {
      forall i :: 0 <= i < |subscriptions| ==> SchemaValid(subscriptions[i])
    }

    constructor (subscriptions: seq<Subscription>, categories: seq<Category>,
                 payments: seq<Payment>, notifications: seq<Notification>)
      requires forall i :: 0 <= i < |subscriptions| ==> SchemaValid(subscriptions[i])
      ensures Valid()
      ensures this.subscriptions == subscriptions && this.categories == categories
      ensures this.payments == payments && this.notifications == notifications
      ensures nextSubscriptionId == |subscriptions| + 1 && nextPaymentId == |payments| + 1
      ensures nextNotificationId == |notifications| + 1
    {
      this.subscriptions := subscriptions;
      this.categories := categories;
      this.payments := payments;
      this.notifications := notifications;
      nextSubscriptionId := |subscriptions| + 1;
      nextPaymentId := |payments| + 1;
      nextNotificationId := |notifications| + 1;
    }
  }

  /** `query(...).filter(p).first()`: the position of the first row satisfying `p`. */
  function FirstIndex<T>(rows: seq<T>, p: T -> bool): (r: Option<nat>)
    ensures r.Some? ==> r.value < |rows| && p(rows[r.value])
    ensures r.Some? ==> forall j :: 0 <= j < r.value ==> !p(rows[j])
    ensures r.None? <==> forall j :: 0 <= j < |rows| ==> !p(rows[j])
  {
    if rows == [] then None
    else if p(rows[0]) then Some(0)
    else match FirstIndex(rows[1..], p)
      case None => None
      case Some(k) => Some(k + 1)
  }

  /** `get_subscription_by_id`: the first subscription with this id that belongs to this user. */
  function FindSubscription(subs: seq<Subscription>, id: int, userId: int): (r: Option<nat>)
    ensures r.Some? ==> r.value < |subs| && subs[r.value].id == id && subs[r.value].userId == userId
    ensures r.None? <==> forall j :: 0 <= j < |subs| ==> !(subs[j].id == id && subs[j].userId == userId)
  {
    var p := (s: Subscription) => s.id == id && s.userId == userId;
    var r := FirstIndex(subs, p);
    assert r.None? <==> forall j :: 0 <= j < |subs| ==> !p(subs[j]);
    r
  }

  /** The first category with this id that belongs to this user. */
  function FindCategory(cats: seq<Category>, id: int, userId: int): (r: Option<nat>)
    ensures r.Some? ==> r.value < |cats| && cats[r.value].id == id && cats[r.value].userId == userId
    ensures r.None? <==> forall j :: 0 <= j < |cats| ==> !(cats[j].id == id && cats[j].userId == userId)
  {
    var p := (c: Category) => c.id == id && c.userId == userId;
    var r := FirstIndex(cats, p);
    assert r.None? <==> forall j :: 0 <= j < |cats| ==> !p(cats[j]);
    r
  }

  /** `subscription.category`: the category row with this id, whoever owns it. */
  function FindCategoryById(cats: seq<Category>, id: int): (r: Option<nat>)
    ensures r.Some? ==> r.value < |cats| && cats[r.value].id == id
    ensures r.None? <==> forall j :: 0 <= j < |cats| ==> cats[j].id != id
  {
    var p := (c: Category) => c.id == id;
    var r := FirstIndex(cats, p);
    assert r.None? <==> forall j :: 0 <= j < |cats| ==> !p(cats[j]);
    r
  }

  /** The first payment with this id. */
  function FindPayment(pays: seq<Payment>, id: int): (r: Option<nat>)
    ensures r.Some? ==> r.value < |pays| && pays[r.value].id == id
    ensures r.None? <==> forall j :: 0 <= j < |pays| ==> pays[j].id != id
  {
    var p := (x: Payment) => x.id == id;
    var r := FirstIndex(pays, p);
    assert r.None? <==> forall j :: 0 <= j < |pays| ==> !p(pays[j]);
    r
  }

  /** The first notification with this id (the notification services do not filter by user). */
  function FindNotification(notes: seq<Notification>, id: int): (r: Option<nat>)
    ensures r.Some? ==> r.value < |notes| && notes[r.value].id == id
    ensures r.None? <==> forall j :: 0 <= j < |notes| ==> notes[j].id != id
  {
    var p := (n: Notification) => n.id == id;
    var r := FirstIndex(notes, p);
    assert r.None? <==> forall j :: 0 <= j < |notes| ==> !p(notes[j]);
    r
  }
}
