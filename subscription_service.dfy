/**
 * The subscription life cycle: create (with its first payment), cancel, reactivate and the
 * periodic expiry sweep, as guarded updates of the billing store.
 */
module SubscriptionService {
  import opened Wrappers
  import opened Dates
  import opened Text
  import opened Tables
  import opened BillingStore
  import SubscriptionRepository

  const UserNotFound := "Usuário não encontrado"
  const PlanNotFound := "Plano não encontrado"
  const PlanUnavailable := "Este plano não está mais disponível"
  const AlreadySubscribed := "Usuário já possui uma assinatura ativa"
  const SubscriptionNotFound := "Assinatura não encontrada"
  const AlreadyCanceled := "Assinatura já está cancelada"
  const NotReactivatable := "Apenas assinaturas canceladas ou suspensas podem ser reativadas"

  /** The validated create request; an omitted optional field is `None`. */
  datatype CreateRequest = CreateRequest(
    userId: nat, planId: nat, paymentMethod: Option<BillingType>,
    startDate: Option<DateTime>, autoRenew: Option<bool>)

  /** The invariant create guards: no user holds two ACTIVE subscriptions. */
  predicate OneActivePerUser(subs: seq<Subscription>) {
    forall i, j :: 0 <= i < j < |subs| && subs[i].status == Active && subs[j].status == Active ==>
      subs[i].userId != subs[j].userId
  }

  function TwoDigits(n: nat): string {
    if n < 10 then "0" + NatToString(n) else NatToString(n)
  }

  /** `formatDate` in the pt-BR locale: day/month/year. */
  function FormatDate(d: DateTime): string {
    TwoDigits(d.day) + "/" + TwoDigits(d.month + 1) + "/" + NatToString(d.year)
  }

  /** The row create writes for `req` under `plan`. */
  function NewSubscription(req: CreateRequest, plan: Plan, id: nat, now: DateTime): Subscription
    requires Valid(now) && (req.startDate.Some? ==> Valid(req.startDate.value))
  {
    var start := req.startDate.GetOr(now);
    Subscription(
      id, req.userId, req.planId, Active, start, EndDate(start, plan.cycle),
      NextDueDate(start, plan.cycle), req.paymentMethod.GetOr(plan.billingType),
      req.autoRenew.GetOr(true), None, id)
  }

  /** The payment create opens for the new subscription `s`. */
  function FirstPayment(s: Subscription, plan: Plan, id: nat): Payment
    requires s.nextDueDate.month < 12
  {
    Payment(
      id, s.userId, Some(s.id), plan.price, Pending, s.paymentMethod, s.nextDueDate, None,
      Some("Pagamento " + plan.name + " - " + FormatDate(s.nextDueDate)))
  }

  /**
   * The tables after a create whose checks passed: the new subscription appended to
   * `subs0`, then its first payment, with the next id after the subscription's, to `pays0`.
   */
  predicate Opened(subs0: seq<Subscription>, pays0: seq<Payment>, subs: seq<Subscription>,
                   pays: seq<Payment>, sub: Subscription, plan: Plan)
  {
    subs == subs0 + [sub] && Valid(sub.nextDueDate)
    && pays == pays0 + [FirstPayment(sub, plan, sub.id + 1)]
  }

  /**
   * A new subscription is ACTIVE from the given start (or now) to one billing cycle later,
   * ends on its next due date, pays with the requested method or else the plan's billing
   * type, renews unless told otherwise; its first payment is a PENDING charge of the plan's
   * price, due on that date with that billing type.
   */
  lemma NewSubscriptionShape(req: CreateRequest, plan: Plan, id: nat, pid: nat, now: DateTime)
    requires Valid(now) && (req.startDate.Some? ==> Valid(req.startDate.value))
    ensures var s := NewSubscription(req, plan, id, now);
            s.status == Active && s.canceledAt.None? && s.userId == req.userId
            && s.planId == req.planId
            && s.startDate == (if req.startDate.Some? then req.startDate.value else now)
            && s.endDate == s.nextDueDate && Valid(s.nextDueDate) && Before(s.startDate, s.nextDueDate)
            && (req.paymentMethod.None? ==> s.paymentMethod == plan.billingType)
            && (req.autoRenew.None? ==> s.autoRenew)
    ensures var s := NewSubscription(req, plan, id, now);
            Valid(s.nextDueDate) &&
            var p := FirstPayment(s, plan, pid);
            p.status == Pending && p.amount == plan.price && p.dueDate == s.nextDueDate
            && p.billingType == s.paymentMethod && p.subscriptionId == Some(s.id)
            && p.userId == req.userId
  {
    NextDueDateIsLater(req.startDate.GetOr(now), plan.cycle);
  }

  /** Adding an ACTIVE row for a user with no ACTIVE row keeps one ACTIVE row per user. */
  lemma OneActiveAppend(subs: seq<Subscription>, s: Subscription)
    requires OneActivePerUser(subs)
    requires forall t :: t in subs ==> !(t.userId == s.userId && t.status == Active)
    ensures OneActivePerUser(subs + [s])
  {
    var r := subs + [s];
    forall i, j | 0 <= i < j < |r| && r[i].status == Active && r[j].status == Active
      ensures r[i].userId != r[j].userId
    {
      if j == |subs| {
        assert r[i] in subs;
      } else {
        assert r[i] == subs[i] && r[j] == subs[j];
      }
    }
  }

  lemma OneActiveAppendIfValid(subs: seq<Subscription>, s: Subscription)
    requires forall t :: t in subs ==> !(t.userId == s.userId && t.status == Active)
    ensures OneActivePerUser(subs) ==> OneActivePerUser(subs + [s])
  {
    if OneActivePerUser(subs) {
      OneActiveAppend(subs, s);
    }
  }

  /** `create`: four checks in order, then the subscription and its first payment. */
  /**
   * The checks of create, in their order: the user exists, the plan exists, the plan is
   * active, the user holds no ACTIVE subscription; on success, the plan.
   */
  function Admit(users: set<nat>, plans: seq<Plan>, subs: seq<Subscription>, req: CreateRequest): (r: Result<Plan>)
    ensures req.userId !in users ==> r == Err(UserNotFound)
    ensures req.userId in users && !HasPlan(plans, req.planId) ==> r == Err(PlanNotFound)
    ensures req.userId in users && HasPlan(plans, req.planId)
            && !plans[PlanIndex(plans, req.planId)].active ==>
              r == Err(PlanUnavailable)
    ensures req.userId in users && HasPlan(plans, req.planId)
            && plans[PlanIndex(plans, req.planId)].active
            && SubscriptionRepository.FindActiveByUserId(subs, req.userId).Some? ==>
              r == Err(AlreadySubscribed)
    ensures r.Ok? ==> req.userId in users && HasPlan(plans, req.planId)
                      && r.value == plans[PlanIndex(plans, req.planId)] && r.value.active
                      && forall s :: s in subs ==> !(s.userId == req.userId && s.status == Active)
  {
    if req.userId !in users then Err(UserNotFound)
    else
      var pi := PlanIndex(plans, req.planId);
      if pi < 0 then Err(PlanNotFound)
      else if !plans[pi].active then Err(PlanUnavailable)
      else if SubscriptionRepository.FindActiveByUserId(subs, req.userId).Some? then Err(AlreadySubscribed)
      else Ok(plans[pi])
  }

  method Create(store: Store, req: CreateRequest, now: DateTime) returns (r: Result<Subscription>)
    requires store.Valid() && Valid(now) && (req.startDate.Some? ==> Valid(req.startDate.value))
    modifies store
    ensures store.Valid()
    ensures var a := Admit(old(store.users), old(store.plans), old(store.subscriptions), req);
            a.Err? ==> r == Err(a.message)
                       && store.subscriptions == old(store.subscriptions)
                       && store.payments == old(store.payments)
    ensures var a := Admit(old(store.users), old(store.plans), old(store.subscriptions), req);
            a.Ok? ==>
              r == Ok(NewSubscription(req, a.value, old(store.nextId), now))
              && Opened(old(store.subscriptions), old(store.payments), store.subscriptions,
                        store.payments, r.value, a.value)
    ensures store.users == old(store.users) && store.plans == old(store.plans)
    ensures OneActivePerUser(old(store.subscriptions)) ==> OneActivePerUser(store.subscriptions)
  {
    var a := Admit(store.users, store.plans, store.subscriptions, req);
    if a.Err? {
      return Err(a.message);
    }
    var plan := a.value;
    OneActiveAppendIfValid(store.subscriptions, NewSubscription(req, plan, store.nextId, now));
    var sub := Open(store, req, plan, now);
    r := Ok(sub);
  }

  /** The writes of a create whose checks passed: the subscription, then its first payment. */
  method Open(store: Store, req: CreateRequest, plan: Plan, now: DateTime) returns (sub: Subscription)
    requires store.Valid() && Valid(now) && (req.startDate.Some? ==> Valid(req.startDate.value))
    requires plan in store.plans && plan.id == req.planId
    modifies store
    ensures store.Valid()
    ensures sub == NewSubscription(req, plan, old(store.nextId), now)
    ensures Opened(old(store.subscriptions), old(store.payments), store.subscriptions, store.payments, sub, plan)
    ensures store.users == old(store.users) && store.plans == old(store.plans)
  {
    var sid := store.FreshId();
    sub := Draft(req, plan, sid, now);
    assert HasPlan(store.plans, sub.planId);
    store.AddSubscription(sub);
    var pid := store.FreshId();
    store.AddPayment(FirstPayment(sub, plan, pid));
  }

  /** The row create writes, its dates computed by calculateNextDueDate. */
  method Draft(req: CreateRequest, plan: Plan, id: nat, now: DateTime) returns (sub: Subscription)
    requires Valid(now) && (req.startDate.Some? ==> Valid(req.startDate.value))
    ensures sub == NewSubscription(req, plan, id, now) && Valid(sub.nextDueDate)
  {
    var start := if req.startDate.Some? then req.startDate.value else now;
    var nextDue := CalculateNextDueDate(start, plan.cycle);
    // calculateEndDate is calculateNextDueDate again
    var end := CalculateNextDueDate(start, plan.cycle);
    sub := Subscription(
      id, req.userId, req.planId, Active, start, end, nextDue,
      req.paymentMethod.GetOr(plan.billingType), req.autoRenew.GetOr(true), None, id);
  }

  /** `cancel`: a missing or already CANCELED subscription is refused; any other is canceled. */
  method Cancel(store: Store, id: nat, now: DateTime) returns (r: Result<Subscription>)
    requires store.Valid()
    modifies store
    ensures store.Valid()
    ensures store.users == old(store.users) && store.plans == old(store.plans)
    ensures store.payments == old(store.payments)
    ensures var i := SubscriptionIndex(old(store.subscriptions), id);
            if i < 0 then
              r == Err(SubscriptionNotFound) && store.subscriptions == old(store.subscriptions)
            else if old(store.subscriptions)[i].status == Canceled then
              r == Err(AlreadyCanceled) && store.subscriptions == old(store.subscriptions)
            else
              r == Ok(SubscriptionRepository.CanceledRow(old(store.subscriptions)[i], now))
              && store.subscriptions == old(store.subscriptions)[i := r.value]
  {
    var i := SubscriptionIndex(store.subscriptions, id);
    if i < 0 {
      return Err(SubscriptionNotFound);
    }
    if store.subscriptions[i].status == Canceled {
      return Err(AlreadyCanceled);
    }
    var row := SubscriptionRepository.Cancel(store, id, now);
    r := Ok(row);
  }

  /** The row reactivate writes: ACTIVE again from now, for one more cycle of its plan. */
  function ReactivatedRow(s: Subscription, cycle: Cycle, now: DateTime): Subscription
    requires Valid(now)
  {
    s.(status := Active, startDate := now, endDate := EndDate(now, cycle),
       nextDueDate := NextDueDate(now, cycle), canceledAt := None)
  }

  /**
   * A reactivated subscription is ACTIVE, no longer canceled, starts now and ends on its
   * next due date one cycle later; it keeps its id, user, plan, payment method and renewal
   * flag.
   */
  lemma ReactivatedRowShape(s: Subscription, cycle: Cycle, now: DateTime)
    requires Valid(now)
    ensures var r := ReactivatedRow(s, cycle, now);
            r.status == Active && r.canceledAt.None? && r.startDate == now
            && r.endDate == r.nextDueDate && Valid(r.nextDueDate) && Before(now, r.nextDueDate)
            && r.(status := s.status, startDate := s.startDate, endDate := s.endDate,
                  nextDueDate := s.nextDueDate, canceledAt := s.canceledAt) == s
  {
    NextDueDateIsLater(now, cycle);
  }

  /** Cancel clears `autoRenew` and reactivate does not restore it. */
  lemma CancelThenReactivateKeepsRenewalOff(s: Subscription, cycle: Cycle, t1: DateTime, t2: DateTime)
    requires Valid(t2)
    ensures var r := ReactivatedRow(SubscriptionRepository.CanceledRow(s, t1), cycle, t2);
            r.status == Active && !r.autoRenew
  {
  }

  /** Reactivation does not look for another ACTIVE subscription of the same user. */
  lemma ReactivateMayDuplicateActive()
    ensures exists subs: seq<Subscription>, i: nat, cycle: Cycle, now: DateTime ::
              Valid(now) && i < |subs| && OneActivePerUser(subs)
              && subs[i].status == Canceled
              && !OneActivePerUser(subs[i := ReactivatedRow(subs[i], cycle, now)])
  {
    var d := DateTime(2025, 0, 1, 0);
    var a := Subscription(0, 7, 0, Active, d, d, d, Pix, true, None, 0);
    var b := a.(id := 1, status := Canceled, createdAt := 1);
    var subs := [a, b];
    var subs2 := subs[1 := ReactivatedRow(subs[1], Monthly, d)];
    assert subs2[0].status == Active && subs2[1].status == Active && subs2[0].userId == subs2[1].userId;
    assert Valid(d) && 1 < |subs| && OneActivePerUser(subs) && subs[1].status == Canceled
           && !OneActivePerUser(subs[1 := ReactivatedRow(subs[1], Monthly, d)]);
  }

  /** `reactivate`: only a CANCELED or SUSPENDED subscription comes back, from now on. */
  method Reactivate(store: Store, id: nat, now: DateTime) returns (r: Result<Subscription>)
    requires store.Valid() && Valid(now)
    modifies store
    ensures store.Valid()
    ensures store.users == old(store.users) && store.plans == old(store.plans)
    ensures store.payments == old(store.payments)
    ensures var i := SubscriptionIndex(old(store.subscriptions), id);
            if i < 0 then
              r == Err(SubscriptionNotFound) && store.subscriptions == old(store.subscriptions)
            else if old(store.subscriptions)[i].status !in {Canceled, Suspended} then
              r == Err(NotReactivatable) && store.subscriptions == old(store.subscriptions)
            else
              var s := old(store.subscriptions)[i];
              HasPlan(old(store.plans), s.planId)
              && r == Ok(ReactivatedRow(s, old(store.plans)[PlanIndex(old(store.plans), s.planId)].cycle, now))
              && store.subscriptions == old(store.subscriptions)[i := r.value]
  {
    var i := SubscriptionIndex(store.subscriptions, id);
    if i < 0 {
      return Err(SubscriptionNotFound);
    }
    var s := store.subscriptions[i];
    if s.status != Canceled && s.status != Suspended {
      return Err(NotReactivatable);
    }
    assert HasPlan(store.plans, s.planId);
    var plan := store.plans[PlanIndex(store.plans, s.planId)];
    var nextDue := CalculateNextDueDate(now, plan.cycle);
    var end := CalculateNextDueDate(now, plan.cycle);
    var row := s.(status := Active, startDate := now, endDate := end, nextDueDate := nextDue, canceledAt := None);
    store.SetSubscription(i, row);
    r := Ok(row);
  }

  /** The table after the expiry sweep: every expired row is EXPIRED, every other row unchanged. */
  function ExpireAll(subs: seq<Subscription>, now: DateTime): (r: seq<Subscription>)
    ensures |r| == |subs|
  {
    seq(|subs|, k requires 0 <= k < |subs| =>
      if SubscriptionRepository.IsExpired(subs[k], now) then subs[k].(status := Expired) else subs[k])
  }

  /**
   * After the sweep nothing is left to expire, the sweep changes only the status of the
   * rows it found, and running it again changes nothing.
   */
  lemma ExpireAllClears(subs: seq<Subscription>, now: DateTime)
    ensures SubscriptionRepository.FindExpired(ExpireAll(subs, now), now) == []
    ensures forall k :: 0 <= k < |subs| ==> ExpireAll(subs, now)[k].(status := subs[k].status) == subs[k]
    ensures ExpireAll(ExpireAll(subs, now), now) == ExpireAll(subs, now)
  {
    var r := SubscriptionRepository.FindExpired(ExpireAll(subs, now), now);
    if |r| > 0 {
      assert false;
    }
  }

  /** Some row of `rows` has id `id`. */
  predicate Listed(rows: seq<Subscription>, id: nat) {
    exists m :: 0 <= m < |rows| && rows[m].id == id
  }

  /** The table once the rows whose ids are in `listed` have been set to EXPIRED. */
  function ExpireListed(before: seq<Subscription>, listed: seq<Subscription>): (r: seq<Subscription>)
    ensures |r| == |before| && forall j :: 0 <= j < |r| ==> r[j].id == before[j].id
  {
    seq(|before|, j requires 0 <= j < |before| =>
      if Listed(listed, before[j].id) then before[j].(status := Expired) else before[j])
  }

  lemma ExpireListedNone(before: seq<Subscription>)
    ensures ExpireListed(before, []) == before
  {
  }

  /** Listing one more row, found at index `i`, expires exactly that row. */
  lemma ExpireListedStep(before: seq<Subscription>, next: nat, listed: seq<Subscription>, x: Subscription, i: int)
    requires SubscriptionIdsFresh(before, next) && 0 <= i < |before| && before[i].id == x.id
    ensures var cur := ExpireListed(before, listed);
            ExpireListed(before, listed + [x]) == cur[i := cur[i].(status := Expired)]
  {
    var cur := ExpireListed(before, listed);
    var nxt := ExpireListed(before, listed + [x]);
    forall j | 0 <= j < |before|
      ensures nxt[j] == cur[i := cur[i].(status := Expired)][j]
    {
      if j != i {
        assert before[j].id != x.id by {
          if j < i {
            assert before[j].id != before[i].id;
          } else {
            assert before[i].id != before[j].id;
          }
        }
        if Listed(listed + [x], before[j].id) {
          var m :| 0 <= m < |listed + [x]| && (listed + [x])[m].id == before[j].id;
          assert listed[m].id == before[j].id;
        }
      } else {
        assert (listed + [x])[|listed|] == x;
      }
      if Listed(listed, before[j].id) {
        var m :| 0 <= m < |listed| && listed[m].id == before[j].id;
        assert (listed + [x])[m] == listed[m];
      }
    }
  }

  /** One turn of the sweep: the next expired row is found by id and expiring it lists it. */
  lemma ExpireNext(before: seq<Subscription>, next: nat, expired: seq<Subscription>, k: nat,
                   cur: seq<Subscription>, i: int)
    requires SubscriptionIdsFresh(before, next) && k < |expired| && expired[k] in before
    requires cur == ExpireListed(before, expired[..k]) && i == SubscriptionIndex(cur, expired[k].id)
    ensures 0 <= i < |cur|
    ensures ExpireListed(before, expired[..k + 1]) == cur[i := cur[i].(status := Expired)]
  {
    var j0 :| 0 <= j0 < |before| && before[j0] == expired[k];
    assert cur[j0].id == expired[k].id;
    assert cur[i].id == before[i].id;
    PrefixStep(expired, k);
    ExpireListedStep(before, next, expired[..k], expired[k], i);
  }

  /** With unique ids, a row's id is among the expired rows exactly when the row is expired. */
  lemma ListedIffExpired(subs: seq<Subscription>, next: nat, now: DateTime, j: nat)
    requires SubscriptionIdsFresh(subs, next) && j < |subs|
    ensures Listed(SubscriptionRepository.FindExpired(subs, now), subs[j].id)
            <==> SubscriptionRepository.IsExpired(subs[j], now)
  {
    var expired := SubscriptionRepository.FindExpired(subs, now);
    if SubscriptionRepository.IsExpired(subs[j], now) {
      assert subs[j] in expired;
      var m :| 0 <= m < |expired| && expired[m] == subs[j];
    }
    if Listed(expired, subs[j].id) {
      var m :| 0 <= m < |expired| && expired[m].id == subs[j].id;
      assert expired[m] in subs;
      var j2 :| 0 <= j2 < |subs| && subs[j2] == expired[m];
    }
  }

  /** Listing every expired row is the expiry sweep. */
  lemma ExpireListedAll(subs: seq<Subscription>, next: nat, now: DateTime)
    requires SubscriptionIdsFresh(subs, next)
    ensures ExpireListed(subs, SubscriptionRepository.FindExpired(subs, now)) == ExpireAll(subs, now)
  {
    forall j | 0 <= j < |subs|
      ensures ExpireListed(subs, SubscriptionRepository.FindExpired(subs, now))[j] == ExpireAll(subs, now)[j]
    {
      ListedIffExpired(subs, next, now, j);
    }
  }

  /** `checkExpired`: every subscription `findExpired` returns becomes EXPIRED; returns how many. */
  method CheckExpired(store: Store, now: DateTime) returns (n: nat)
    requires store.Valid()
    modifies store
    ensures store.Valid()
    ensures n == |SubscriptionRepository.FindExpired(old(store.subscriptions), now)|
    ensures store.subscriptions == ExpireAll(old(store.subscriptions), now)
    ensures store.users == old(store.users) && store.plans == old(store.plans)
    ensures store.payments == old(store.payments)
  {
    var expired := SubscriptionRepository.FindExpired(store.subscriptions, now);
    ghost var before := store.subscriptions;
    assert expired[..0] == [];
    ExpireListedNone(before);
    var k := 0;
    while k < |expired|
      invariant 0 <= k <= |expired|
      invariant store.Valid() && store.subscriptions == ExpireListed(before, expired[..k])
      invariant store.users == old(store.users) && store.plans == old(store.plans)
      invariant store.payments == old(store.payments) && store.nextId == old(store.nextId)
    {
      assert expired[k] in before;
      var i := SubscriptionIndex(store.subscriptions, expired[k].id);
      ExpireNext(before, old(store.nextId), expired, k, store.subscriptions, i);
      store.SetSubscription(i, store.subscriptions[i].(status := Expired));
      k := k + 1;
    }
    assert expired[..k] == expired;
    ExpireListedAll(before, old(store.nextId), now);
    n := |expired|;
  }
}
