/**
 * The billing tables: users, plans, subscriptions and payments. Rows are records held in
 * storage order with unique ids handed out by a counter; subscriptions refer to existing
 * plans. A Prisma `where` object is a map from column to condition.
 */
module BillingStore {
  import opened Wrappers
  import opened Dates
  import opened Tables

  datatype SubscriptionStatus = Active | Expired | Canceled | Suspended

  datatype PaymentStatus = Pending | Received | Confirmed | Overdue | Refunded | PaymentCanceled

  datatype BillingType = CreditCard | Boleto | Pix | Undefined

  datatype Plan = Plan(
    id: nat, name: string, description: string, price: real,
    billingType: BillingType, cycle: Cycle, active: bool)

  /** `createdAt` is the creation sequence number: a later row has a larger one. */
  datatype Subscription = Subscription(
    id: nat, userId: nat, planId: nat, status: SubscriptionStatus,
    startDate: DateTime, endDate: DateTime, nextDueDate: DateTime,
    paymentMethod: BillingType, autoRenew: bool, canceledAt: Option<DateTime>, createdAt: nat)

  datatype Payment = Payment(
    id: nat, userId: nat, subscriptionId: Option<nat>, amount: real, status: PaymentStatus,
    billingType: BillingType, dueDate: DateTime, paymentDate: Option<DateTime>,
    description: Option<string>)

  predicate PlanIdsFresh(plans: seq<Plan>, next: nat) {
    (forall i, j :: 0 <= i < j < |plans| ==> plans[i].id != plans[j].id)
    && forall i :: 0 <= i < |plans| ==> plans[i].id < next
  }

  predicate SubscriptionIdsFresh(subs: seq<Subscription>, next: nat) {
    (forall i, j :: 0 <= i < j < |subs| ==> subs[i].id != subs[j].id)
    && forall i :: 0 <= i < |subs| ==> subs[i].id < next && subs[i].createdAt < next
  }

  predicate PaymentIdsFresh(payments: seq<Payment>, next: nat) {
    (forall i, j :: 0 <= i < j < |payments| ==> payments[i].id != payments[j].id)
    && forall i :: 0 <= i < |payments| ==> payments[i].id < next
  }

  /** `name` is a unique column of the plan table. */
  predicate PlanNamesUnique(plans: seq<Plan>) {
    forall i, j :: 0 <= i < j < |plans| ==> plans[i].name != plans[j].name
  }

  predicate HasPlan(plans: seq<Plan>, id: nat) {
    exists i :: 0 <= i < |plans| && plans[i].id == id
  }

  /** The foreign key from subscriptions to plans. */
  predicate PlansReferenced(subs: seq<Subscription>, plans: seq<Plan>) {
    forall i :: 0 <= i < |subs| ==> HasPlan(plans, subs[i].planId)
  }

  /** `findUnique({ where: { id } })` on each table: the row's index, or -1. */
  function PlanIndex(plans: seq<Plan>, id: nat): (i: int)
    ensures -1 <= i < |plans|
    ensures i >= 0 ==> plans[i].id == id
    ensures i < 0 <==> !HasPlan(plans, id)
  {
    FirstIndex(plans, (p: Plan) => p.id == id)
  }

  function SubscriptionIndex(subs: seq<Subscription>, id: nat): (i: int)
    ensures -1 <= i < |subs|
    ensures i >= 0 ==> subs[i].id == id
    ensures i < 0 ==> forall k :: 0 <= k < |subs| ==> subs[k].id != id
  {
    FirstIndex(subs, (s: Subscription) => s.id == id)
  }

  function PaymentIndex(payments: seq<Payment>, id: nat): (i: int)
    ensures -1 <= i < |payments|
    ensures i >= 0 ==> payments[i].id == id
    ensures i < 0 ==> forall k :: 0 <= k < |payments| ==> payments[k].id != id
  {
    FirstIndex(payments, (p: Payment) => p.id == id)
  }

  /** With unique ids, a row is found at its own index. */
  lemma SubscriptionIndexOfRow(subs: seq<Subscription>, next: nat, k: nat)
    requires SubscriptionIdsFresh(subs, next) && k < |subs|
    ensures SubscriptionIndex(subs, subs[k].id) == k
  {
  }

  lemma PaymentIndexOfRow(payments: seq<Payment>, next: nat, k: nat)
    requires PaymentIdsFresh(payments, next) && k < |payments|
    ensures PaymentIndex(payments, payments[k].id) == k
  {
  }

  /** Sort keys: `createdAt` and `dueDate` as timestamps. */
  function CreatedKey(s: Subscription): int {
    s.createdAt
  }

  function DueKey(p: Payment): int {
    Stamp(p.dueDate)
  }

  /** A column value as a `where` condition sees it. */
  datatype Cell =
    | SubscriptionStatusCell(subscriptionStatus: SubscriptionStatus)
    | PaymentStatusCell(paymentStatus: PaymentStatus)
    | BillingCell(billingType: BillingType)
    | IdCell(id: nat)
    | NullCell
    | DateCell(date: DateTime)

  /** `field: value` or `field: { gte, lte }`. */
  datatype Condition = Equals(cell: Cell) | Range(gte: Option<DateTime>, lte: Option<DateTime>)

  predicate Meets(cell: Cell, c: Condition) {
    match c
    case Equals(v) => cell == v
    case Range(gte, lte) =>
      cell.DateCell?
      && (gte.Some? ==> Stamp(gte.value) <= Stamp(cell.date))
      && (lte.Some? ==> Stamp(cell.date) <= Stamp(lte.value))
  }

  /** The shared store behind the billing repositories. */
  class Store {
    var users: set<nat>
    var plans: seq<Plan>
    var subscriptions: seq<Subscription>
    var payments: seq<Payment>
    var nextId: nat

    predicate Valid()
      reads this
    {
      PlanIdsFresh(plans, nextId) && SubscriptionIdsFresh(subscriptions, nextId)
      && PaymentIdsFresh(payments, nextId) && PlanNamesUnique(plans)
      && PlansReferenced(subscriptions, plans)
    }

    constructor (users: set<nat>)
      ensures Valid()
      ensures this.users == users && plans == [] && subscriptions == [] && payments == []
    {
      this.users := users;
      plans := [];
      subscriptions := [];
      payments := [];
      nextId := 0;
    }

    /** Hands out an id no row has yet. */
    method FreshId() returns (id: nat)
      requires Valid()
      modifies this
      ensures Valid() && id == old(nextId) && nextId == id + 1
      ensures users == old(users) && plans == old(plans)
      ensures subscriptions == old(subscriptions) && payments == old(payments)
    {
      id := nextId;
      nextId := nextId + 1;
    }

    /** `subscription.update({ where: { id }, data })` on a row known to exist. */
    method SetSubscription(i: nat, s: Subscription)
      requires Valid() && i < |subscriptions|
      requires s.id == subscriptions[i].id && s.createdAt == subscriptions[i].createdAt
      requires s.planId == subscriptions[i].planId
      modifies this
      ensures Valid() && subscriptions == old(subscriptions)[i := s]
      ensures users == old(users) && plans == old(plans) && payments == old(payments)
      ensures nextId == old(nextId)
    {
      subscriptions := subscriptions[i := s];
      assert forall k :: 0 <= k < |subscriptions| ==>
        subscriptions[k].planId == old(subscriptions)[k].planId;
    }

    /** `subscription.create({ data })` with an id handed out by FreshId. */
    method AddSubscription(s: Subscription)
      requires Valid() && s.id < nextId && s.createdAt < nextId && HasPlan(plans, s.planId)
      requires forall k :: 0 <= k < |subscriptions| ==> subscriptions[k].id != s.id
      modifies this
      ensures Valid() && subscriptions == old(subscriptions) + [s]
      ensures users == old(users) && plans == old(plans) && payments == old(payments)
      ensures nextId == old(nextId)
    {
      subscriptions := subscriptions + [s];
    }

    /** `payment.create({ data })` with an id handed out by FreshId. */
    method AddPayment(p: Payment)
      requires Valid() && p.id < nextId
      requires forall k :: 0 <= k < |payments| ==> payments[k].id != p.id
      modifies this
      ensures Valid() && payments == old(payments) + [p]
      ensures users == old(users) && plans == old(plans) && subscriptions == old(subscriptions)
      ensures nextId == old(nextId)
    {
      payments := payments + [p];
    }

    /** `plan.create({ data })` with an id handed out by FreshId and a name no plan has. */
    method AddPlan(p: Plan)
      requires Valid() && p.id < nextId
      requires forall k :: 0 <= k < |plans| ==> plans[k].id != p.id && plans[k].name != p.name
      modifies this
      ensures Valid() && plans == old(plans) + [p]
      ensures users == old(users) && subscriptions == old(subscriptions) && payments == old(payments)
      ensures nextId == old(nextId)
    {
      plans := plans + [p];
      forall i | 0 <= i < |subscriptions|
        ensures HasPlan(plans, subscriptions[i].planId)
      {
        var k :| 0 <= k < |old(plans)| && old(plans)[k].id == subscriptions[i].planId;
        assert plans[k].id == subscriptions[i].planId;
      }
    }

    /** `plan.update({ where: { id }, data })` keeping the id and a name no other plan has. */
    method SetPlan(i: nat, p: Plan)
      requires Valid() && i < |plans| && p.id == plans[i].id
      requires forall k :: 0 <= k < |plans| && k != i ==> plans[k].name != p.name
      modifies this
      ensures Valid() && plans == old(plans)[i := p]
      ensures users == old(users) && subscriptions == old(subscriptions) && payments == old(payments)
      ensures nextId == old(nextId)
    {
      plans := plans[i := p];
      forall j | 0 <= j < |subscriptions|
        ensures HasPlan(plans, subscriptions[j].planId)
      {
        var k :| 0 <= k < |old(plans)| && old(plans)[k].id == subscriptions[j].planId;
        assert plans[k].id == subscriptions[j].planId;
      }
    }

    /** `plan.delete({ where: { id } })` of a plan no subscription refers to. */
    method RemovePlan(i: nat)
      requires Valid() && i < |plans|
      requires forall k :: 0 <= k < |subscriptions| ==> subscriptions[k].planId != plans[i].id
      modifies this
      ensures Valid() && plans == old(plans)[..i] + old(plans)[i + 1..]
      ensures users == old(users) && subscriptions == old(subscriptions) && payments == old(payments)
      ensures nextId == old(nextId)
    {
      ghost var before := plans;
      plans := plans[..i] + plans[i + 1..];
      assert forall k :: 0 <= k < |plans| ==> plans[k] == if k < i then before[k] else before[k + 1];
      forall j | 0 <= j < |subscriptions|
        ensures HasPlan(plans, subscriptions[j].planId)
      {
        var k :| 0 <= k < |before| && before[k].id == subscriptions[j].planId;
        if k < i {
          assert plans[k].id == subscriptions[j].planId;
        } else {
          assert k != i;
          assert plans[k - 1].id == subscriptions[j].planId;
        }
      }
    }

    /** `payment.update({ where: { id }, data })` on a row known to exist. */
    method SetPayment(i: nat, p: Payment)
      requires Valid() && i < |payments| && p.id == payments[i].id
      modifies this
      ensures Valid() && payments == old(payments)[i := p]
      ensures users == old(users) && plans == old(plans) && subscriptions == old(subscriptions)
      ensures nextId == old(nextId)
    {
      payments := payments[i := p];
    }

    /** `payment.delete({ where: { id } })` on a row known to exist. */
    method RemovePayment(i: nat)
      requires Valid() && i < |payments|
      modifies this
      ensures Valid() && payments == old(payments)[..i] + old(payments)[i + 1..]
      ensures users == old(users) && plans == old(plans) && subscriptions == old(subscriptions)
      ensures nextId == old(nextId)
    {
      ghost var before := payments;
      payments := payments[..i] + payments[i + 1..];
      assert forall k :: 0 <= k < |payments| ==> payments[k] == if k < i then before[k] else before[k + 1];
    }
  }
}
