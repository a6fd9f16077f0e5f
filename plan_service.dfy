/**
 * The plan catalogue: create and update keep plan names unique, delete only deactivates a
 * plan no ACTIVE subscription uses, hard delete removes a plan no subscription uses at all,
 * and toggle flips the `active` flag.
 */
module PlanService {
  import opened Wrappers
  import opened Dates
  import opened BillingStore

  const NameTaken := "Já existe um plano com este nome"
  const PlanNotFound := "Plano não encontrado"
  const HasActiveSubscriptions :=
    "Não é possível deletar plano com assinaturas ativas. Desative o plano ao invés de deletar."
  const HasSubscriptions := "Não é possível deletar plano com assinaturas. Use desativação ao invés."

  /** The create request; an omitted field with a default is `None`. */
  datatype CreateRequest = CreateRequest(
    name: string, description: string, price: real, billingType: Option<BillingType>,
    cycle: Option<Cycle>, active: Option<bool>)

  /** The update request; an omitted field is `None`. */
  datatype UpdateRequest = UpdateRequest(
    name: Option<string>, description: Option<string>, price: Option<real>,
    billingType: Option<BillingType>, cycle: Option<Cycle>, active: Option<bool>)

  /** `findByName`: some plan has exactly this name. */
  predicate NameInUse(plans: seq<Plan>, name: string) {
    exists k :: 0 <= k < |plans| && plans[k].name == name
  }

  /** The row create writes: the schema defaults are CREDIT_CARD, MONTHLY and active. */
  function NewPlan(req: CreateRequest, id: nat): Plan {
    Plan(id, req.name, req.description, req.price, req.billingType.GetOr(CreditCard),
         req.cycle.GetOr(Monthly), req.active.GetOr(true))
  }

  /** `create`: a name already in use is refused; otherwise the plan is added. */
  method Create(store: Store, req: CreateRequest) returns (r: Result<Plan>)
    requires store.Valid()
    modifies store
    ensures store.Valid()
    ensures store.users == old(store.users) && store.subscriptions == old(store.subscriptions)
    ensures store.payments == old(store.payments)
    ensures NameInUse(old(store.plans), req.name) <==> r.Err?
    ensures r.Err? ==> r == Err(NameTaken) && store.plans == old(store.plans)
    ensures r.Ok? ==> r.value == NewPlan(req, old(store.nextId))
                      && store.plans == old(store.plans) + [r.value]
  {
    if NameInUse(store.plans, req.name) {
      return Err(NameTaken);
    }
    var id := store.FreshId();
    var p := NewPlan(req, id);
    store.AddPlan(p);
    r := Ok(p);
  }

  /** `getById`: the plan with that id, or the not-found error. */
  function GetById(plans: seq<Plan>, id: nat): (r: Result<Plan>)
    ensures r.Ok? <==> HasPlan(plans, id)
    ensures r.Ok? ==> r.value in plans && r.value.id == id
    ensures r.Err? ==> r.message == PlanNotFound
  {
    var i := PlanIndex(plans, id);
    if i < 0 then Err(PlanNotFound) else Ok(plans[i])
  }

  /** The row after an update: each given field replaces the stored one. */
  function Updated(p: Plan, u: UpdateRequest): (q: Plan)
    ensures q.id == p.id
    ensures q.name == (if u.name.Some? then u.name.value else p.name)
    ensures q.active == (if u.active.Some? then u.active.value else p.active)
    ensures q.price == (if u.price.Some? then u.price.value else p.price)
    ensures q.cycle == (if u.cycle.Some? then u.cycle.value else p.cycle)
    ensures q.description == (if u.description.Some? then u.description.value else p.description)
    ensures q.billingType == (if u.billingType.Some? then u.billingType.value else p.billingType)
  {
    Plan(p.id, u.name.GetOr(p.name), u.description.GetOr(p.description), u.price.GetOr(p.price),
         u.billingType.GetOr(p.billingType), u.cycle.GetOr(p.cycle), u.active.GetOr(p.active))
  }

  /** update checks the name only when a non-empty name different from the current one is given. */
  predicate ChangesName(p: Plan, u: UpdateRequest) {
    u.name.Some? && u.name.value != "" && u.name.value != p.name
  }

  /**
   * `update`: a missing plan is refused, then a new name another plan holds; otherwise the
   * row is rewritten. The request's name, when given, has the schema's minimum length.
   */
  method Update(store: Store, id: nat, u: UpdateRequest) returns (r: Result<Plan>)
    requires store.Valid() && (u.name.Some? ==> |u.name.value| >= 3)
    modifies store
    ensures store.Valid()
    ensures store.users == old(store.users) && store.subscriptions == old(store.subscriptions)
    ensures store.payments == old(store.payments)
    ensures var i := PlanIndex(old(store.plans), id);
            if i < 0 then
              r == Err(PlanNotFound) && store.plans == old(store.plans)
            else if ChangesName(old(store.plans)[i], u) && NameInUse(old(store.plans), u.name.value) then
              r == Err(NameTaken) && store.plans == old(store.plans)
            else
              r == Ok(Updated(old(store.plans)[i], u)) && store.plans == old(store.plans)[i := r.value]
  {
    var i := PlanIndex(store.plans, id);
    if i < 0 {
      return Err(PlanNotFound);
    }
    var p := store.plans[i];
    if ChangesName(p, u) && NameInUse(store.plans, u.name.value) {
      return Err(NameTaken);
    }
    var q := Updated(p, u);
    store.SetPlan(i, q);
    r := Ok(q);
  }

  /** Re-sending a plan's own name is not a name change, so it is never refused as taken. */
  lemma SameNameNotChecked(p: Plan, u: UpdateRequest)
    requires u.name == Some(p.name) || u.name.None?
    ensures !ChangesName(p, u)
  {
  }

  /** `findById` includes only the plan's ACTIVE subscriptions. */
  predicate HasActiveSubscription(subs: seq<Subscription>, id: nat) {
    exists k :: 0 <= k < |subs| && subs[k].planId == id && subs[k].status == Active
  }

  /** `_count.subscriptions` is positive: the plan has subscriptions in any status. */
  predicate HasAnySubscription(subs: seq<Subscription>, id: nat) {
    exists k :: 0 <= k < |subs| && subs[k].planId == id
  }

  /** `delete`: soft delete, refused while an ACTIVE subscription uses the plan. */
  method Delete(store: Store, id: nat) returns (r: Result<Plan>)
    requires store.Valid()
    modifies store
    ensures store.Valid()
    ensures store.users == old(store.users) && store.subscriptions == old(store.subscriptions)
    ensures store.payments == old(store.payments)
    ensures var i := PlanIndex(old(store.plans), id);
            if i < 0 then
              r == Err(PlanNotFound) && store.plans == old(store.plans)
            else if HasActiveSubscription(old(store.subscriptions), id) then
              r == Err(HasActiveSubscriptions) && store.plans == old(store.plans)
            else
              r == Ok(old(store.plans)[i].(active := false)) && store.plans == old(store.plans)[i := r.value]
  {
    var i := PlanIndex(store.plans, id);
    if i < 0 {
      return Err(PlanNotFound);
    }
    if HasActiveSubscription(store.subscriptions, id) {
      return Err(HasActiveSubscriptions);
    }
    var q := store.plans[i].(active := false);
    store.SetPlan(i, q);
    r := Ok(q);
  }

  /** `hardDelete`: removes the plan, refused while any subscription uses it. */
  method HardDelete(store: Store, id: nat) returns (r: Result<Plan>)
    requires store.Valid()
    modifies store
    ensures store.Valid()
    ensures store.users == old(store.users) && store.subscriptions == old(store.subscriptions)
    ensures store.payments == old(store.payments)
    ensures var i := PlanIndex(old(store.plans), id);
            if i < 0 then
              r == Err(PlanNotFound) && store.plans == old(store.plans)
            else if HasAnySubscription(old(store.subscriptions), id) then
              r == Err(HasSubscriptions) && store.plans == old(store.plans)
            else
              r == Ok(old(store.plans)[i]) && store.plans == old(store.plans)[..i] + old(store.plans)[i + 1..]
    ensures r.Ok? ==> !HasPlan(store.plans, id)
  {
    var i := PlanIndex(store.plans, id);
    if i < 0 {
      return Err(PlanNotFound);
    }
    if HasAnySubscription(store.subscriptions, id) {
      return Err(HasSubscriptions);
    }
    r := Ok(store.plans[i]);
    store.RemovePlan(i);
  }

  /**
   * Every plan hard delete accepts, soft delete accepts too, but not the other way round:
   * a plan whose only subscription is CANCELED may be deactivated and may not be removed.
   */
  lemma HardDeleteGuardIsStricter(subs: seq<Subscription>, id: nat)
    ensures HasActiveSubscription(subs, id) ==> HasAnySubscription(subs, id)
    ensures var d := DateTime(2025, 0, 1, 0);
            var s := Subscription(0, 0, id, Canceled, d, d, d, Pix, false, Some(d), 0);
            !HasActiveSubscription([s], id) && HasAnySubscription([s], id)
  {
    var d := DateTime(2025, 0, 1, 0);
    var s := Subscription(0, 0, id, Canceled, d, d, d, Pix, false, Some(d), 0);
    assert [s][0].planId == id;
  }

  /** The table after `toggleStatus(id)`: the plan's `active` flag is flipped. */
  function Toggled(plans: seq<Plan>, id: nat): (r: seq<Plan>)
    ensures |r| == |plans|
  {
    var i := PlanIndex(plans, id);
    if i < 0 then plans else plans[i := plans[i].(active := !plans[i].active)]
  }

  /** Toggling flips only that plan's flag, and toggling twice restores the table. */
  lemma ToggleTwice(plans: seq<Plan>, id: nat)
    ensures var i := PlanIndex(plans, id);
            i >= 0 ==> Toggled(plans, id)[i].active == !plans[i].active
                       && Toggled(plans, id)[i].(active := plans[i].active) == plans[i]
    ensures forall k :: 0 <= k < |plans| && k != PlanIndex(plans, id) ==> Toggled(plans, id)[k] == plans[k]
    ensures Toggled(Toggled(plans, id), id) == plans
  {
    var i := PlanIndex(plans, id);
    if i >= 0 {
      var once := Toggled(plans, id);
      assert forall k :: 0 <= k < i ==> once[k] == plans[k];
      assert PlanIndex(once, id) == i;
    }
  }

  /** `toggleStatus`: a missing plan is refused; otherwise its `active` flag is flipped. */
  method ToggleStatus(store: Store, id: nat) returns (r: Result<Plan>)
    requires store.Valid()
    modifies store
    ensures store.Valid()
    ensures store.users == old(store.users) && store.subscriptions == old(store.subscriptions)
    ensures store.payments == old(store.payments)
    ensures store.plans == Toggled(old(store.plans), id)
    ensures var i := PlanIndex(old(store.plans), id);
            if i < 0 then r == Err(PlanNotFound) else r == Ok(store.plans[i])
  {
    var i := PlanIndex(store.plans, id);
    if i < 0 {
      return Err(PlanNotFound);
    }
    var q := store.plans[i].(active := !store.plans[i].active);
    store.SetPlan(i, q);
    r := Ok(q);
  }
}
