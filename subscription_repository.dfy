/** The subscription queries and the cancel update. */
module SubscriptionRepository {
  import opened Wrappers
  import opened Dates
  import opened Tables
  import opened BillingStore

  /** The list filters; an absent (falsy) one is `None`. */
  datatype Filters = Filters(
    status: Option<SubscriptionStatus>, userId: Option<nat>, planId: Option<nat>,
    startDate: Option<DateTime>, endDate: Option<DateTime>)

  /** What `findAll` promises: every given filter holds, the dates as inclusive bounds. */
  predicate MatchesFilters(f: Filters, s: Subscription) {
    (f.status.Some? ==> s.status == f.status.value)
    && (f.userId.Some? ==> s.userId == f.userId.value)
    && (f.planId.Some? ==> s.planId == f.planId.value)
    && (f.startDate.Some? ==> Stamp(f.startDate.value) <= Stamp(s.startDate))
    && (f.endDate.Some? ==> Stamp(s.endDate) <= Stamp(f.endDate.value))
  }

  /** What `count` promises: only the status and user filters apply. */
  predicate MatchesCountFilters(f: Filters, s: Subscription) {
    (f.status.Some? ==> s.status == f.status.value)
    && (f.userId.Some? ==> s.userId == f.userId.value)
  }

  /** The columns a `where` object may constrain. */
  datatype Column = Status | UserId | PlanId | StartDate | EndDate

  function CellOf(s: Subscription, c: Column): Cell {
    match c
    case Status => SubscriptionStatusCell(s.status)
    case UserId => IdCell(s.userId)
    case PlanId => IdCell(s.planId)
    case StartDate => DateCell(s.startDate)
    case EndDate => DateCell(s.endDate)
  }

  /** How Prisma reads a `where` object: every listed column meets its condition. */
  predicate Satisfies(w: map<Column, Condition>, s: Subscription) {
    forall c :: c in w ==> Meets(CellOf(s, c), w[c])
  }

  lemma SatisfiesByColumn(w: map<Column, Condition>, s: Subscription)
    ensures Satisfies(w, s) <==>
      (Status in w ==> Meets(CellOf(s, Status), w[Status]))
      && (UserId in w ==> Meets(CellOf(s, UserId), w[UserId]))
      && (PlanId in w ==> Meets(CellOf(s, PlanId), w[PlanId]))
      && (StartDate in w ==> Meets(CellOf(s, StartDate), w[StartDate]))
      && (EndDate in w ==> Meets(CellOf(s, EndDate), w[EndDate]))
  {
    if !Satisfies(w, s) {
      var c :| c in w && !Meets(CellOf(s, c), w[c]);
      match c
      case Status =>
      case UserId =>
      case PlanId =>
      case StartDate =>
      case EndDate =>
    }
  }

  /** findAll's `where`, filled one given filter at a time. */
  method FindAllWhere(f: Filters) returns (w: map<Column, Condition>)
    ensures forall s :: Satisfies(w, s) <==> MatchesFilters(f, s)
  {
    w := map[];
    if f.status.Some? {
      w := w[Status := Equals(SubscriptionStatusCell(f.status.value))];
    }
    if f.userId.Some? {
      w := w[UserId := Equals(IdCell(f.userId.value))];
    }
    if f.planId.Some? {
      w := w[PlanId := Equals(IdCell(f.planId.value))];
    }
    if f.startDate.Some? {
      w := w[StartDate := Range(Some(f.startDate.value), None)];
    }
    if f.endDate.Some? {
      w := w[EndDate := Range(None, Some(f.endDate.value))];
    }
    forall s
      ensures Satisfies(w, s) <==> MatchesFilters(f, s)
    {
      SatisfiesByColumn(w, s);
    }
  }

  /** `findAll`: the matching subscriptions, newest first. */
  method FindAll(rows: seq<Subscription>, f: Filters) returns (r: seq<Subscription>)
    ensures forall s :: s in r <==> s in rows && MatchesFilters(f, s)
    ensures multiset(r) == multiset(Filter(rows, s => MatchesFilters(f, s)))
    ensures SortedDesc(r, CreatedKey)
  {
    var w := FindAllWhere(f);
    FilterExt(rows, s => Satisfies(w, s), s => MatchesFilters(f, s));
    r := SortDesc(Filter(rows, s => Satisfies(w, s)), CreatedKey);
    SortDescMembers(Filter(rows, s => Satisfies(w, s)), CreatedKey);
  }

  /** count's `where`: only status and userId are copied. */
  method CountWhere(f: Filters) returns (w: map<Column, Condition>)
    ensures w.Keys <= {Status, UserId}
    ensures forall s :: Satisfies(w, s) <==> MatchesCountFilters(f, s)
  {
    w := map[];
    if f.status.Some? {
      w := w[Status := Equals(SubscriptionStatusCell(f.status.value))];
    }
    if f.userId.Some? {
      w := w[UserId := Equals(IdCell(f.userId.value))];
    }
    forall s
      ensures Satisfies(w, s) <==> MatchesCountFilters(f, s)
    {
      SatisfiesByColumn(w, s);
    }
  }

  /** `count`: the number of rows with the given status and user, whatever the other filters say. */
  method Count(rows: seq<Subscription>, f: Filters) returns (n: nat)
    ensures n == |Filter(rows, s => MatchesCountFilters(f, s))|
    ensures n <= |rows|
  {
    var w := CountWhere(f);
    FilterExt(rows, s => Satisfies(w, s), s => MatchesCountFilters(f, s));
    n := |Filter(rows, s => Satisfies(w, s))|;
  }

  predicate IsExpired(s: Subscription, now: DateTime) {
    s.status == Active && Stamp(s.endDate) <= Stamp(now)
  }

  /** `findExpired`: the ACTIVE rows whose end date is not after now. */
  function FindExpired(rows: seq<Subscription>, now: DateTime): (r: seq<Subscription>)
    ensures forall s :: s in r <==> s in rows && s.status == Active && Stamp(s.endDate) <= Stamp(now)
    ensures multiset(r) <= multiset(rows)
  {
    FilterMultiset(rows, s => IsExpired(s, now));
    Filter(rows, s => IsExpired(s, now))
  }

  /** `findActiveByUserId`: the user's most recently created ACTIVE subscription, if any. */
  function FindActiveByUserId(rows: seq<Subscription>, userId: nat): (r: Option<Subscription>)
    ensures r.None? <==> forall s :: s in rows ==> !(s.userId == userId && s.status == Active)
    ensures r.Some? ==> r.value in rows && r.value.userId == userId && r.value.status == Active
    ensures r.Some? ==> forall s :: s in rows && s.userId == userId && s.status == Active ==>
                          s.createdAt <= r.value.createdAt
  {
    var mine := Filter(rows, (s: Subscription) => s.userId == userId && s.status == Active);
    SortDescMembers(mine, CreatedKey);
    var newest := SortDesc(mine, CreatedKey);
    if |newest| == 0 then None
    else
      SortDescHead(mine, CreatedKey);
      Some(newest[0])
  }

  /** The payments `findByUserId` includes for one subscription: by due date, latest first, at most five. */
  function LatestPayments(payments: seq<Payment>, sid: nat): (r: seq<Payment>)
    ensures |r| <= 5 && SortedDesc(r, DueKey)
    ensures forall p :: p in r ==> p in payments && p.subscriptionId == Some(sid)
  {
    var mine := Filter(payments, (p: Payment) => p.subscriptionId == Some(sid));
    SortDescMembers(mine, DueKey);
    Take(SortDesc(mine, DueKey), 5)
  }

  /**
   * The included payments are the five latest-due ones: all of them when there are at most
   * five, and every payment left out is due no later than every payment listed.
   */
  lemma LatestPaymentsAreLatest(payments: seq<Payment>, sid: nat)
    ensures var n := |Filter(payments, (p: Payment) => p.subscriptionId == Some(sid))|;
            |LatestPayments(payments, sid)| == if n < 5 then n else 5
    ensures forall p, q :: p in payments && p.subscriptionId == Some(sid)
              && p !in LatestPayments(payments, sid) && q in LatestPayments(payments, sid)
              ==> DueKey(p) <= DueKey(q)
  {
    var mine := Filter(payments, (p: Payment) => p.subscriptionId == Some(sid));
    var sorted := SortDesc(mine, DueKey);
    SortDescMembers(mine, DueKey);
    var r := LatestPayments(payments, sid);
    assert r == Take(sorted, 5);
    forall p, q | p in payments && p.subscriptionId == Some(sid) && p !in r && q in r
      ensures DueKey(p) <= DueKey(q)
    {
      assert p in sorted;
      var k :| 0 <= k < |sorted| && sorted[k] == p;
      var j :| 0 <= j < |r| && r[j] == q;
      if k < 5 {
        assert false;
      }
      assert sorted[j] == q;
    }
  }

  /** The subscriptions of a `findByUserId` result, without their payments. */
  function Subscriptions(r: seq<(Subscription, seq<Payment>)>): (subs: seq<Subscription>)
    ensures |subs| == |r| && forall i :: 0 <= i < |r| ==> subs[i] == r[i].0
  {
    seq(|r|, i requires 0 <= i < |r| => r[i].0)
  }

  /** `findByUserId`: the user's subscriptions, newest first, each with its latest payments. */
  function FindByUserId(subs: seq<Subscription>, payments: seq<Payment>, userId: nat)
    : (r: seq<(Subscription, seq<Payment>)>)
    ensures forall s :: s in Subscriptions(r) <==> s in subs && s.userId == userId
    ensures |r| == |Filter(subs, (s: Subscription) => s.userId == userId)|
    ensures SortedDesc(Subscriptions(r), CreatedKey)
    ensures forall i :: 0 <= i < |r| ==> r[i].1 == LatestPayments(payments, r[i].0.id)
  {
    var mine := Filter(subs, (s: Subscription) => s.userId == userId);
    SortDescMembers(mine, CreatedKey);
    var newest := SortDesc(mine, CreatedKey);
    var r := seq(|newest|, i requires 0 <= i < |newest| => (newest[i], LatestPayments(payments, newest[i].id)));
    assert Subscriptions(r) == newest;
    r
  }

  /** The row `cancel` writes: CANCELED, canceled now, no renewal. */
  function CanceledRow(s: Subscription, now: DateTime): (r: Subscription)
    ensures r.status == Canceled && r.canceledAt == Some(now) && !r.autoRenew
    ensures r.(status := s.status, canceledAt := s.canceledAt, autoRenew := s.autoRenew) == s
  {
    s.(status := Canceled, canceledAt := Some(now), autoRenew := false)
  }

  /** `cancel(id)` on an existing row: that row becomes CanceledRow and nothing else changes. */
  method Cancel(store: Store, id: nat, now: DateTime) returns (row: Subscription)
    requires store.Valid() && SubscriptionIndex(store.subscriptions, id) >= 0
    modifies store
    ensures store.Valid()
    ensures var i := SubscriptionIndex(old(store.subscriptions), id);
            row == CanceledRow(old(store.subscriptions)[i], now)
            && store.subscriptions == old(store.subscriptions)[i := row]
    ensures store.users == old(store.users) && store.plans == old(store.plans)
    ensures store.payments == old(store.payments) && store.nextId == old(store.nextId)
  {
    var i := SubscriptionIndex(store.subscriptions, id);
    row := CanceledRow(store.subscriptions[i], now);
    store.SetSubscription(i, row);
  }
}
