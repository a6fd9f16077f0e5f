/**
 * Payments and their effect on subscriptions: create, update (a payment that becomes paid
 * re-activates its subscription, one that becomes overdue suspends it), the mark-as-paid and
 * mark-as-overdue shortcuts, delete and the periodic overdue sweep.
 */
module PaymentService {
  import opened Wrappers
  import opened Dates
  import opened Tables
  import opened BillingStore
  import PaymentRepository

  const UserNotFound := "Usuário não encontrado"
  const SubscriptionNotFound := "Assinatura não encontrada"
  const PaymentNotFound := "Pagamento não encontrado"

  /** The validated create request; an omitted optional field is `None`. */
  datatype CreateRequest = CreateRequest(
    userId: nat, subscriptionId: Option<nat>, amount: real, billingType: BillingType,
    dueDate: DateTime, description: Option<string>)

  /** The validated update request: the payment fields an update may set. */
  datatype UpdateRequest = UpdateRequest(
    status: Option<PaymentStatus>, paymentDate: Option<DateTime>, description: Option<string>)

  /**
   * The row create writes. The request carries no status, so the row takes the table's
   * default status.
   */
  function NewPayment(req: CreateRequest, id: nat, defaultStatus: PaymentStatus): Payment {
    Payment(id, req.userId, req.subscriptionId, req.amount, defaultStatus, req.billingType,
            req.dueDate, None, req.description)
  }

  /** `create`: the user must exist, and so must the subscription when one is named. */
  method Create(store: Store, req: CreateRequest, defaultStatus: PaymentStatus) returns (r: Result<Payment>)
    requires store.Valid()
    modifies store
    ensures store.Valid()
    ensures store.users == old(store.users) && store.plans == old(store.plans)
    ensures store.subscriptions == old(store.subscriptions)
    ensures req.userId !in old(store.users) ==> r == Err(UserNotFound)
    ensures req.userId in old(store.users) && req.subscriptionId.Some?
            && SubscriptionIndex(old(store.subscriptions), req.subscriptionId.value) < 0 ==>
              r == Err(SubscriptionNotFound)
    ensures r.Err? ==> store.payments == old(store.payments)
    ensures r.Ok? ==>
              req.userId in old(store.users)
              && (req.subscriptionId.Some? ==> SubscriptionIndex(old(store.subscriptions), req.subscriptionId.value) >= 0)
              && r.value == NewPayment(req, old(store.nextId), defaultStatus)
              && store.payments == old(store.payments) + [r.value]
    ensures r.Ok? ==> PaymentIndex(store.payments, r.value.id) == |old(store.payments)|
  {
    if req.userId !in store.users {
      return Err(UserNotFound);
    }
    if req.subscriptionId.Some? && SubscriptionIndex(store.subscriptions, req.subscriptionId.value) < 0 {
      return Err(SubscriptionNotFound);
    }
    var id := store.FreshId();
    var p := NewPayment(req, id, defaultStatus);
    store.AddPayment(p);
    PaymentIndexOfRow(store.payments, store.nextId, |store.payments| - 1);
    r := Ok(p);
  }

  /** `getById`: the payment with that id, or the not-found error. */
  function GetById(payments: seq<Payment>, id: nat): (r: Result<Payment>)
    ensures r.Ok? <==> exists k :: 0 <= k < |payments| && payments[k].id == id
    ensures r.Ok? ==> r.value in payments && r.value.id == id
    ensures r.Err? ==> r.message == PaymentNotFound
  {
    var i := PaymentIndex(payments, id);
    if i < 0 then Err(PaymentNotFound) else Ok(payments[i])
  }

  /** The paid statuses `update` reacts to. */
  predicate IsPaidStatus(s: PaymentStatus) {
    s == Received || s == Confirmed
  }

  /** The payment row after an update: each given field replaces the stored one. */
  function Applied(p: Payment, u: UpdateRequest): (q: Payment)
    ensures q.id == p.id && q.userId == p.userId && q.subscriptionId == p.subscriptionId
    ensures q.amount == p.amount && q.billingType == p.billingType && q.dueDate == p.dueDate
    ensures q.status == (if u.status.Some? then u.status.value else p.status)
    ensures q.paymentDate == (if u.paymentDate.Some? then u.paymentDate else p.paymentDate)
    ensures q.description == (if u.description.Some? then u.description else p.description)
  {
    p.(status := u.status.GetOr(p.status),
       paymentDate := if u.paymentDate.Some? then u.paymentDate else p.paymentDate,
       description := if u.description.Some? then u.description else p.description)
  }

  /** The update moves a payment that has a subscription into the paid statuses from outside them. */
  predicate Activates(p: Payment, u: UpdateRequest) {
    u.status.Some? && IsPaidStatus(u.status.value) && !IsPaidStatus(p.status) && p.subscriptionId.Some?
  }

  /** The update moves a payment that has a subscription to OVERDUE from another status. */
  predicate Suspends(p: Payment, u: UpdateRequest) {
    u.status == Some(Overdue) && p.status != Overdue && p.subscriptionId.Some?
  }

  /** `activateSubscription`: an existing subscription that is not ACTIVE becomes ACTIVE. */
  function AfterActivate(subs: seq<Subscription>, sid: nat): seq<Subscription> {
    var i := SubscriptionIndex(subs, sid);
    if i >= 0 && subs[i].status != Active then subs[i := subs[i].(status := Active)] else subs
  }

  /** `suspendSubscription`: an existing ACTIVE subscription becomes SUSPENDED. */
  function AfterSuspend(subs: seq<Subscription>, sid: nat): seq<Subscription> {
    var i := SubscriptionIndex(subs, sid);
    if i >= 0 && subs[i].status == Active then subs[i := subs[i].(status := Suspended)] else subs
  }

  /**
   * Activation makes the subscription with that id ACTIVE and changes nothing else, not even
   * its dates; a missing id changes nothing; activating twice is activating once.
   */
  lemma ActivateEffect(subs: seq<Subscription>, sid: nat)
    ensures var r := AfterActivate(subs, sid); var i := SubscriptionIndex(subs, sid);
            |r| == |subs|
            && (i < 0 ==> r == subs)
            && (i >= 0 ==> r[i] == subs[i].(status := Active))
            && (forall k :: 0 <= k < |subs| && k != i ==> r[k] == subs[k])
    ensures AfterActivate(AfterActivate(subs, sid), sid) == AfterActivate(subs, sid)
  {
    var i := SubscriptionIndex(subs, sid);
    if i >= 0 && subs[i].status != Active {
      var r := subs[i := subs[i].(status := Active)];
      assert forall k :: 0 <= k < i ==> r[k] == subs[k];
    }
  }

  /**
   * Suspension moves only an ACTIVE row to SUSPENDED: every row is unchanged or was ACTIVE
   * and is now SUSPENDED, so no row becomes ACTIVE; suspending twice is suspending once.
   */
  lemma SuspendEffect(subs: seq<Subscription>, sid: nat)
    ensures var r := AfterSuspend(subs, sid);
            |r| == |subs|
            && (forall k :: 0 <= k < |subs| ==>
                  r[k] == subs[k] || (subs[k].status == Active && r[k] == subs[k].(status := Suspended)))
    ensures var r := AfterSuspend(subs, sid); var i := SubscriptionIndex(subs, sid);
            i >= 0 ==> r[i].status == (if subs[i].status == Active then Suspended else subs[i].status)
    ensures AfterSuspend(AfterSuspend(subs, sid), sid) == AfterSuspend(subs, sid)
  {
    var i := SubscriptionIndex(subs, sid);
    if i >= 0 && subs[i].status == Active {
      var r := subs[i := subs[i].(status := Suspended)];
      assert forall k :: 0 <= k < i ==> r[k] == subs[k];
    }
  }

  /** The subscription table after `update` has rewritten payment `p`: activate, then suspend. */
  function Triggered(subs: seq<Subscription>, p: Payment, u: UpdateRequest): seq<Subscription> {
    var afterActivate := if Activates(p, u) then AfterActivate(subs, p.subscriptionId.value) else subs;
    if Suspends(p, u) then AfterSuspend(afterActivate, p.subscriptionId.value) else afterActivate
  }

  /** At most one of the two triggers fires on one update. */
  lemma TriggersExclusive(p: Payment, u: UpdateRequest)
    ensures !(Activates(p, u) && Suspends(p, u))
  {
  }

  /**
   * Re-sending the status a payment already holds, sending no status, or moving RECEIVED to
   * CONFIRMED leaves every subscription as it was.
   */
  lemma NoTriggerWithoutChange(subs: seq<Subscription>, p: Payment, u: UpdateRequest)
    requires u.status.None? || u.status == Some(p.status)
             || (p.status == Received && u.status == Some(Confirmed))
    ensures Triggered(subs, p, u) == subs
  {
  }

  /** `update`: a missing payment is refused; otherwise the row is rewritten and the triggers run. */
  method Update(store: Store, id: nat, u: UpdateRequest) returns (r: Result<Payment>)
    requires store.Valid()
    modifies store
    ensures store.Valid()
    ensures store.users == old(store.users) && store.plans == old(store.plans)
    ensures var i := PaymentIndex(old(store.payments), id);
            if i < 0 then
              r == Err(PaymentNotFound) && store.payments == old(store.payments)
              && store.subscriptions == old(store.subscriptions)
            else
              var p := old(store.payments)[i];
              r == Ok(Applied(p, u)) && store.payments == old(store.payments)[i := r.value]
              && store.subscriptions == Triggered(old(store.subscriptions), p, u)
  {
    var i := PaymentIndex(store.payments, id);
    if i < 0 {
      return Err(PaymentNotFound);
    }
    var p := store.payments[i];
    var q := Applied(p, u);
    store.SetPayment(i, q);
    if Activates(p, u) {
      ActivateSubscription(store, p.subscriptionId.value);
    }
    if Suspends(p, u) {
      SuspendSubscription(store, p.subscriptionId.value);
    }
    r := Ok(q);
  }

  /** `activateSubscription` on the store. */
  method ActivateSubscription(store: Store, sid: nat)
    requires store.Valid()
    modifies store
    ensures store.Valid() && store.subscriptions == AfterActivate(old(store.subscriptions), sid)
    ensures store.users == old(store.users) && store.plans == old(store.plans)
    ensures store.payments == old(store.payments) && store.nextId == old(store.nextId)
  {
    var i := SubscriptionIndex(store.subscriptions, sid);
    if i >= 0 && store.subscriptions[i].status != Active {
      store.SetSubscription(i, store.subscriptions[i].(status := Active));
    }
  }

  /** `suspendSubscription` on the store. */
  method SuspendSubscription(store: Store, sid: nat)
    requires store.Valid()
    modifies store
    ensures store.Valid() && store.subscriptions == AfterSuspend(old(store.subscriptions), sid)
    ensures store.users == old(store.users) && store.plans == old(store.plans)
    ensures store.payments == old(store.payments) && store.nextId == old(store.nextId)
  {
    var i := SubscriptionIndex(store.subscriptions, sid);
    if i >= 0 && store.subscriptions[i].status == Active {
      store.SetSubscription(i, store.subscriptions[i].(status := Suspended));
    }
  }

  /** The request `markAsPaid` sends. */
  function PaidRequest(paymentDate: DateTime): UpdateRequest {
    UpdateRequest(Some(Received), Some(paymentDate), None)
  }

  /** The request `markAsOverdue` sends. */
  function OverdueRequest(): UpdateRequest {
    UpdateRequest(Some(Overdue), None, None)
  }

  /** `markAsPaid(id, date)`: update with status RECEIVED and that payment date. */
  method MarkAsPaid(store: Store, id: nat, paymentDate: DateTime) returns (r: Result<Payment>)
    requires store.Valid()
    modifies store
    ensures store.Valid()
    ensures store.users == old(store.users) && store.plans == old(store.plans)
    ensures var i := PaymentIndex(old(store.payments), id);
            if i < 0 then
              r == Err(PaymentNotFound) && store.payments == old(store.payments)
              && store.subscriptions == old(store.subscriptions)
            else
              var p := old(store.payments)[i];
              r == Ok(Applied(p, PaidRequest(paymentDate)))
              && store.payments == old(store.payments)[i := r.value]
              && store.subscriptions == Triggered(old(store.subscriptions), p, PaidRequest(paymentDate))
  {
    r := Update(store, id, PaidRequest(paymentDate));
  }

  /** `markAsOverdue(id)`: update with status OVERDUE. */
  method MarkAsOverdue(store: Store, id: nat) returns (r: Result<Payment>)
    requires store.Valid()
    modifies store
    ensures store.Valid()
    ensures store.users == old(store.users) && store.plans == old(store.plans)
    ensures var i := PaymentIndex(old(store.payments), id);
            if i < 0 then
              r == Err(PaymentNotFound) && store.payments == old(store.payments)
              && store.subscriptions == old(store.subscriptions)
            else
              var p := old(store.payments)[i];
              r == Ok(Applied(p, OverdueRequest()))
              && store.payments == old(store.payments)[i := r.value]
              && store.subscriptions == Triggered(old(store.subscriptions), p, OverdueRequest())
  {
    r := Update(store, id, OverdueRequest());
  }

  /**
   * Marking an unpaid payment as paid: the payment is RECEIVED with that date, its user's
   * paid total grows by exactly its amount, and its subscription, when it exists, is ACTIVE.
   */
  lemma MarkAsPaidEffect(payments: seq<Payment>, subs: seq<Subscription>, i: nat, d: DateTime)
    requires i < |payments| && !IsPaidStatus(payments[i].status)
    ensures var p := payments[i]; var q := Applied(p, PaidRequest(d));
            q.status == Received && q.paymentDate == Some(d)
            && PaymentRepository.SumByUser(payments[i := q], p.userId)
               == PaymentRepository.SumByUser(payments, p.userId) + p.amount
    ensures var p := payments[i];
            p.subscriptionId.Some? && SubscriptionIndex(subs, p.subscriptionId.value) >= 0 ==>
              var k := SubscriptionIndex(subs, p.subscriptionId.value);
              Triggered(subs, p, PaidRequest(d))[k].status == Active
  {
    var p := payments[i];
    var q := Applied(p, PaidRequest(d));
    PaymentRepository.SumByUserUpdate(payments, i, q, p.userId);
    if p.subscriptionId.Some? {
      ActivateEffect(subs, p.subscriptionId.value);
    }
  }

  /**
   * Marking a payment that is not yet OVERDUE as overdue: the payment is OVERDUE and an
   * ACTIVE subscription of it is SUSPENDED.
   */
  lemma MarkAsOverdueEffect(p: Payment, subs: seq<Subscription>)
    requires p.status != Overdue
    ensures Applied(p, OverdueRequest()).status == Overdue
    ensures p.subscriptionId.Some? && SubscriptionIndex(subs, p.subscriptionId.value) >= 0 ==>
              var k := SubscriptionIndex(subs, p.subscriptionId.value);
              Triggered(subs, p, OverdueRequest())[k].status
                == (if subs[k].status == Active then Suspended else subs[k].status)
  {
    if p.subscriptionId.Some? {
      SuspendEffect(subs, p.subscriptionId.value);
    }
  }

  /** `delete`: a missing payment is refused; otherwise exactly that row is removed. */
  method Delete(store: Store, id: nat) returns (r: Result<Payment>)
    requires store.Valid()
    modifies store
    ensures store.Valid()
    ensures store.users == old(store.users) && store.plans == old(store.plans)
    ensures store.subscriptions == old(store.subscriptions)
    ensures var i := PaymentIndex(old(store.payments), id);
            if i < 0 then
              r == Err(PaymentNotFound) && store.payments == old(store.payments)
            else
              r == Ok(old(store.payments)[i])
              && store.payments == old(store.payments)[..i] + old(store.payments)[i + 1..]
    ensures forall p :: p in store.payments ==> p.id != id
  {
    var i := PaymentIndex(store.payments, id);
    if i < 0 {
      return Err(PaymentNotFound);
    }
    r := Ok(store.payments[i]);
    ghost var before := store.payments;
    store.RemovePayment(i);
    forall p | p in store.payments
      ensures p.id != id
    {
      var k :| 0 <= k < |store.payments| && store.payments[k] == p;
      if k < i {
        assert p == before[k];
      } else {
        assert p == before[k + 1];
      }
    }
  }

  /** The payment table after the overdue sweep: every overdue payment is OVERDUE. */
  function MarkOverdueAll(payments: seq<Payment>, now: DateTime): (r: seq<Payment>)
    ensures |r| == |payments|
  {
    seq(|payments|, k requires 0 <= k < |payments| =>
      if PaymentRepository.IsOverdue(payments[k], now) then payments[k].(status := Overdue) else payments[k])
  }

  /** Some overdue payment belongs to subscription `sid`. */
  predicate HasOverduePayment(payments: seq<Payment>, now: DateTime, sid: nat) {
    exists k :: 0 <= k < |payments| && PaymentRepository.IsOverdue(payments[k], now)
                && payments[k].subscriptionId == Some(sid)
  }

  /** The subscription table after the sweep: an ACTIVE subscription with an overdue payment is SUSPENDED. */
  function SuspendAll(subs: seq<Subscription>, payments: seq<Payment>, now: DateTime): (r: seq<Subscription>)
    ensures |r| == |subs|
  {
    seq(|subs|, j requires 0 <= j < |subs| =>
      if subs[j].status == Active && HasOverduePayment(payments, now, subs[j].id)
      then subs[j].(status := Suspended) else subs[j])
  }

  /**
   * After the sweep no payment is left overdue, the payments differ only in status, no
   * subscription with an overdue payment is still ACTIVE, and no subscription became ACTIVE.
   */
  lemma CheckOverdueClears(payments: seq<Payment>, subs: seq<Subscription>, now: DateTime)
    ensures PaymentRepository.FindOverdue(MarkOverdueAll(payments, now), now) == []
    ensures forall k :: 0 <= k < |payments| ==>
              MarkOverdueAll(payments, now)[k].(status := payments[k].status) == payments[k]
    ensures forall j :: 0 <= j < |subs| && HasOverduePayment(payments, now, subs[j].id) ==>
              SuspendAll(subs, payments, now)[j].status != Active
    ensures forall j :: 0 <= j < |subs| && SuspendAll(subs, payments, now)[j].status == Active ==>
              subs[j].status == Active
  {
    var r := PaymentRepository.FindOverdue(MarkOverdueAll(payments, now), now);
    if |r| > 0 {
      assert false;
    }
  }

  /** Some payment of `rows` has id `id`. */
  predicate ListedPayment(rows: seq<Payment>, id: nat) {
    exists m :: 0 <= m < |rows| && rows[m].id == id
  }

  /** Some payment of `rows` belongs to subscription `sid`. */
  predicate ListedSubscription(rows: seq<Payment>, sid: nat) {
    exists m :: 0 <= m < |rows| && rows[m].subscriptionId == Some(sid)
  }

  /** The payments once those in `listed` have been set to OVERDUE. */
  function MarkListed(before: seq<Payment>, listed: seq<Payment>): (r: seq<Payment>)
    ensures |r| == |before| && forall j :: 0 <= j < |r| ==> r[j].id == before[j].id
  {
    seq(|before|, j requires 0 <= j < |before| =>
      if ListedPayment(listed, before[j].id) then before[j].(status := Overdue) else before[j])
  }

  /** The subscriptions once those of the payments in `listed` have been suspended. */
  function SuspendListed(before: seq<Subscription>, listed: seq<Payment>): (r: seq<Subscription>)
    ensures |r| == |before| && forall j :: 0 <= j < |r| ==> r[j].id == before[j].id
  {
    seq(|before|, j requires 0 <= j < |before| =>
      if before[j].status == Active && ListedSubscription(listed, before[j].id)
      then before[j].(status := Suspended) else before[j])
  }

  lemma ListedNone(payments: seq<Payment>, subs: seq<Subscription>)
    ensures MarkListed(payments, []) == payments && SuspendListed(subs, []) == subs
  {
  }

  /** Listing one more payment, found at index `i`, marks exactly that payment. */
  lemma MarkListedStep(before: seq<Payment>, next: nat, listed: seq<Payment>, x: Payment, i: int)
    requires PaymentIdsFresh(before, next) && 0 <= i < |before| && before[i].id == x.id
    ensures var cur := MarkListed(before, listed);
            MarkListed(before, listed + [x]) == cur[i := cur[i].(status := Overdue)]
  {
    var cur := MarkListed(before, listed);
    var nxt := MarkListed(before, listed + [x]);
    forall j | 0 <= j < |before|
      ensures nxt[j] == cur[i := cur[i].(status := Overdue)][j]
    {
      if j != i {
        assert before[j].id != x.id by {
          if j < i {
            assert before[j].id != before[i].id;
          } else {
            assert before[i].id != before[j].id;
          }
        }
        if ListedPayment(listed + [x], before[j].id) {
          var m :| 0 <= m < |listed + [x]| && (listed + [x])[m].id == before[j].id;
          assert listed[m].id == before[j].id;
        }
      } else {
        assert (listed + [x])[|listed|] == x;
      }
      if ListedPayment(listed, before[j].id) {
        var m :| 0 <= m < |listed| && listed[m].id == before[j].id;
        assert (listed + [x])[m] == listed[m];
      }
    }
  }

  /** Listing a payment without a subscription suspends nothing more. */
  lemma SuspendListedNone(before: seq<Subscription>, listed: seq<Payment>, x: Payment)
    requires x.subscriptionId.None?
    ensures SuspendListed(before, listed + [x]) == SuspendListed(before, listed)
  {
    forall j | 0 <= j < |before|
      ensures ListedSubscription(listed + [x], before[j].id) == ListedSubscription(listed, before[j].id)
    {
      if ListedSubscription(listed + [x], before[j].id) {
        var m :| 0 <= m < |listed + [x]| && (listed + [x])[m].subscriptionId == Some(before[j].id);
        assert listed[m].subscriptionId == Some(before[j].id);
      }
      if ListedSubscription(listed, before[j].id) {
        var m :| 0 <= m < |listed| && listed[m].subscriptionId == Some(before[j].id);
        assert (listed + [x])[m] == listed[m];
      }
    }
  }

  /** Listing a payment of subscription `sid` suspends that subscription if it is still ACTIVE. */
  lemma SuspendListedStep(before: seq<Subscription>, next: nat, listed: seq<Payment>, x: Payment, sid: nat)
    requires SubscriptionIdsFresh(before, next) && x.subscriptionId == Some(sid)
    ensures SuspendListed(before, listed + [x]) == AfterSuspend(SuspendListed(before, listed), sid)
  {
    var cur := SuspendListed(before, listed);
    var nxt := SuspendListed(before, listed + [x]);
    var i := SubscriptionIndex(cur, sid);
    forall j | 0 <= j < |before|
      ensures nxt[j] == AfterSuspend(cur, sid)[j]
    {
      if ListedSubscription(listed, before[j].id) {
        var m :| 0 <= m < |listed| && listed[m].subscriptionId == Some(before[j].id);
        assert (listed + [x])[m] == listed[m];
      }
      if before[j].id == sid {
        assert (listed + [x])[|listed|] == x;
        assert cur[j].id == sid;
      } else {
        if ListedSubscription(listed + [x], before[j].id) {
          var m :| 0 <= m < |listed + [x]| && (listed + [x])[m].subscriptionId == Some(before[j].id);
          assert listed[m].subscriptionId == Some(before[j].id);
        }
      }
    }
  }

  /** One turn of the sweep on the payments: the next overdue payment is found by id and marked. */
  lemma MarkNext(before: seq<Payment>, next: nat, overdue: seq<Payment>, k: nat, cur: seq<Payment>, i: int)
    requires PaymentIdsFresh(before, next) && k < |overdue| && overdue[k] in before
    requires cur == MarkListed(before, overdue[..k]) && i == PaymentIndex(cur, overdue[k].id)
    ensures 0 <= i < |cur|
    ensures MarkListed(before, overdue[..k + 1]) == cur[i := cur[i].(status := Overdue)]
  {
    var j0 :| 0 <= j0 < |before| && before[j0] == overdue[k];
    assert cur[j0].id == overdue[k].id;
    assert cur[i].id == before[i].id;
    PrefixStep(overdue, k);
    MarkListedStep(before, next, overdue[..k], overdue[k], i);
  }

  /** One turn of the sweep on the subscriptions. */
  lemma SuspendNext(before: seq<Subscription>, next: nat, overdue: seq<Payment>, k: nat)
    requires SubscriptionIdsFresh(before, next) && k < |overdue|
    ensures overdue[k].subscriptionId.None? ==>
              SuspendListed(before, overdue[..k + 1]) == SuspendListed(before, overdue[..k])
    ensures overdue[k].subscriptionId.Some? ==>
              SuspendListed(before, overdue[..k + 1])
              == AfterSuspend(SuspendListed(before, overdue[..k]), overdue[k].subscriptionId.value)
  {
    PrefixStep(overdue, k);
    if overdue[k].subscriptionId.None? {
      SuspendListedNone(before, overdue[..k], overdue[k]);
    } else {
      SuspendListedStep(before, next, overdue[..k], overdue[k], overdue[k].subscriptionId.value);
    }
  }

  /** With unique ids, a payment's id is among the overdue payments exactly when it is overdue. */
  lemma ListedPaymentIffOverdue(payments: seq<Payment>, next: nat, now: DateTime, j: nat)
    requires PaymentIdsFresh(payments, next) && j < |payments|
    ensures ListedPayment(PaymentRepository.FindOverdue(payments, now), payments[j].id)
            <==> PaymentRepository.IsOverdue(payments[j], now)
  {
    var overdue := PaymentRepository.FindOverdue(payments, now);
    if PaymentRepository.IsOverdue(payments[j], now) {
      assert payments[j] in overdue;
      var m :| 0 <= m < |overdue| && overdue[m] == payments[j];
    }
    if ListedPayment(overdue, payments[j].id) {
      var m :| 0 <= m < |overdue| && overdue[m].id == payments[j].id;
      assert overdue[m] in payments;
      var j2 :| 0 <= j2 < |payments| && payments[j2] == overdue[m];
    }
  }

  /** A subscription is named by some overdue payment exactly when it has an overdue payment. */
  lemma ListedSubscriptionIffOverdue(payments: seq<Payment>, now: DateTime, sid: nat)
    ensures ListedSubscription(PaymentRepository.FindOverdue(payments, now), sid)
            <==> HasOverduePayment(payments, now, sid)
  {
    var overdue := PaymentRepository.FindOverdue(payments, now);
    if HasOverduePayment(payments, now, sid) {
      var k :| 0 <= k < |payments| && PaymentRepository.IsOverdue(payments[k], now)
               && payments[k].subscriptionId == Some(sid);
      assert payments[k] in overdue;
      var m :| 0 <= m < |overdue| && overdue[m] == payments[k];
    }
    if ListedSubscription(overdue, sid) {
      var m :| 0 <= m < |overdue| && overdue[m].subscriptionId == Some(sid);
      assert overdue[m] in payments;
      var k :| 0 <= k < |payments| && payments[k] == overdue[m];
    }
  }

  /** Listing every overdue payment is the sweep, on both tables. */
  lemma ListedAll(payments: seq<Payment>, next: nat, subs: seq<Subscription>, now: DateTime)
    requires PaymentIdsFresh(payments, next)
    ensures MarkListed(payments, PaymentRepository.FindOverdue(payments, now)) == MarkOverdueAll(payments, now)
    ensures SuspendListed(subs, PaymentRepository.FindOverdue(payments, now)) == SuspendAll(subs, payments, now)
  {
    forall j | 0 <= j < |payments|
      ensures MarkListed(payments, PaymentRepository.FindOverdue(payments, now))[j] == MarkOverdueAll(payments, now)[j]
    {
      ListedPaymentIffOverdue(payments, next, now, j);
    }
    forall j | 0 <= j < |subs|
      ensures SuspendListed(subs, PaymentRepository.FindOverdue(payments, now))[j] == SuspendAll(subs, payments, now)[j]
    {
      ListedSubscriptionIffOverdue(payments, now, subs[j].id);
    }
  }

  /** One turn of the sweep: mark the next overdue payment and suspend its subscription. */
  method SweepOne(store: Store, ghost payments: seq<Payment>, ghost subs: seq<Subscription>,
                  overdue: seq<Payment>, k: nat)
    requires store.Valid() && k < |overdue| && overdue[k] in payments
    requires PaymentIdsFresh(payments, store.nextId) && SubscriptionIdsFresh(subs, store.nextId)
    requires store.payments == MarkListed(payments, overdue[..k])
    requires store.subscriptions == SuspendListed(subs, overdue[..k])
    modifies store
    ensures store.Valid()
    ensures store.payments == MarkListed(payments, overdue[..k + 1])
    ensures store.subscriptions == SuspendListed(subs, overdue[..k + 1])
    ensures store.users == old(store.users) && store.plans == old(store.plans)
    ensures store.nextId == old(store.nextId)
  {
    var i := PaymentIndex(store.payments, overdue[k].id);
    MarkNext(payments, store.nextId, overdue, k, store.payments, i);
    SuspendNext(subs, store.nextId, overdue, k);
    store.SetPayment(i, store.payments[i].(status := Overdue));
    if overdue[k].subscriptionId.Some? {
      SuspendSubscription(store, overdue[k].subscriptionId.value);
    }
  }

  /**
   * `checkOverdue`: every payment `findOverdue` returns becomes OVERDUE and its subscription,
   * if it has one, is suspended; returns how many payments it found.
   */
  method CheckOverdue(store: Store, now: DateTime) returns (n: nat)
    requires store.Valid()
    modifies store
    ensures store.Valid()
    ensures n == |PaymentRepository.FindOverdue(old(store.payments), now)|
    ensures store.payments == MarkOverdueAll(old(store.payments), now)
    ensures store.subscriptions == SuspendAll(old(store.subscriptions), old(store.payments), now)
    ensures store.users == old(store.users) && store.plans == old(store.plans)
  {
    var overdue := PaymentRepository.FindOverdue(store.payments, now);
    ghost var payments := store.payments;
    ghost var subs := store.subscriptions;
    assert overdue[..0] == [];
    ListedNone(payments, subs);
    var k := 0;
    while k < |overdue|
      invariant 0 <= k <= |overdue|
      invariant store.Valid() && store.payments == MarkListed(payments, overdue[..k])
      invariant store.subscriptions == SuspendListed(subs, overdue[..k])
      invariant store.users == old(store.users) && store.plans == old(store.plans)
      invariant store.nextId == old(store.nextId)
    {
      assert overdue[k] in payments;
      SweepOne(store, payments, subs, overdue, k);
      k := k + 1;
    }
    assert overdue[..k] == overdue;
    ListedAll(payments, old(store.nextId), subs, now);
    n := |overdue|;
  }
}
