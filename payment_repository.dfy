/** The payment queries: the filtered list, pending and overdue payments, counts and the paid total. */
module PaymentRepository {
  import opened Wrappers
  import opened Dates
  import opened Tables
  import opened BillingStore

  /** The list filters; an absent (falsy) one is `None`. */
  datatype Filters = Filters(
    status: Option<PaymentStatus>, userId: Option<nat>, subscriptionId: Option<nat>,
    billingType: Option<BillingType>, startDate: Option<DateTime>, endDate: Option<DateTime>)

  /** What `findAll` promises: every given filter holds; the dates bound `dueDate` inclusively. */
  predicate MatchesFilters(f: Filters, p: Payment) {
    (f.status.Some? ==> p.status == f.status.value)
    && (f.userId.Some? ==> p.userId == f.userId.value)
    && (f.subscriptionId.Some? ==> p.subscriptionId == f.subscriptionId)
    && (f.billingType.Some? ==> p.billingType == f.billingType.value)
    && (f.startDate.Some? ==> Stamp(f.startDate.value) <= Stamp(p.dueDate))
    && (f.endDate.Some? ==> Stamp(p.dueDate) <= Stamp(f.endDate.value))
  }

  /** What `count` promises: only the status and user filters apply. */
  predicate MatchesCountFilters(f: Filters, p: Payment) {
    (f.status.Some? ==> p.status == f.status.value)
    && (f.userId.Some? ==> p.userId == f.userId.value)
  }

  datatype Column = Status | UserId | SubscriptionId | Billing | DueDate

  function CellOf(p: Payment, c: Column): Cell {
    match c
    case Status => PaymentStatusCell(p.status)
    case UserId => IdCell(p.userId)
    case SubscriptionId => if p.subscriptionId.Some? then IdCell(p.subscriptionId.value) else NullCell
    case Billing => BillingCell(p.billingType)
    case DueDate => DateCell(p.dueDate)
  }

  predicate Satisfies(w: map<Column, Condition>, p: Payment) {
    forall c :: c in w ==> Meets(CellOf(p, c), w[c])
  }

  lemma SatisfiesByColumn(w: map<Column, Condition>, p: Payment)
    ensures Satisfies(w, p) <==>
      (Status in w ==> Meets(CellOf(p, Status), w[Status]))
      && (UserId in w ==> Meets(CellOf(p, UserId), w[UserId]))
      && (SubscriptionId in w ==> Meets(CellOf(p, SubscriptionId), w[SubscriptionId]))
      && (Billing in w ==> Meets(CellOf(p, Billing), w[Billing]))
      && (DueDate in w ==> Meets(CellOf(p, DueDate), w[DueDate]))
  {
    if !Satisfies(w, p) {
      var c :| c in w && !Meets(CellOf(p, c), w[c]);
      match c
      case Status =>
      case UserId =>
      case SubscriptionId =>
      case Billing =>
      case DueDate =>
    }
  }

  /** findAll's `where`: the equalities, then one `dueDate` range holding whichever bounds are given. */
  method FindAllWhere(f: Filters) returns (w: map<Column, Condition>)
    ensures forall p :: Satisfies(w, p) <==> MatchesFilters(f, p)
  {
    w := map[];
    if f.status.Some? {
      w := w[Status := Equals(PaymentStatusCell(f.status.value))];
    }
    if f.userId.Some? {
      w := w[UserId := Equals(IdCell(f.userId.value))];
    }
    if f.subscriptionId.Some? {
      w := w[SubscriptionId := Equals(IdCell(f.subscriptionId.value))];
    }
    if f.billingType.Some? {
      w := w[Billing := Equals(BillingCell(f.billingType.value))];
    }
    if f.startDate.Some? || f.endDate.Some? {
      var range := Range(None, None);
      if f.startDate.Some? {
        range := range.(gte := f.startDate);
      }
      if f.endDate.Some? {
        range := range.(lte := f.endDate);
      }
      w := w[DueDate := range];
    }
    forall p
      ensures Satisfies(w, p) <==> MatchesFilters(f, p)
    {
      SatisfiesByColumn(w, p);
    }
  }

  /** `findAll`: the matching payments, latest due date first. */
  method FindAll(rows: seq<Payment>, f: Filters) returns (r: seq<Payment>)
    ensures forall p :: p in r <==> p in rows && MatchesFilters(f, p)
    ensures multiset(r) == multiset(Filter(rows, p => MatchesFilters(f, p)))
    ensures SortedDesc(r, DueKey)
  {
    var w := FindAllWhere(f);
    FilterExt(rows, p => Satisfies(w, p), p => MatchesFilters(f, p));
    r := SortDesc(Filter(rows, p => Satisfies(w, p)), DueKey);
    SortDescMembers(Filter(rows, p => Satisfies(w, p)), DueKey);
  }

  method CountWhere(f: Filters) returns (w: map<Column, Condition>)
    ensures w.Keys <= {Status, UserId}
    ensures forall p :: Satisfies(w, p) <==> MatchesCountFilters(f, p)
  {
    w := map[];
    if f.status.Some? {
      w := w[Status := Equals(PaymentStatusCell(f.status.value))];
    }
    if f.userId.Some? {
      w := w[UserId := Equals(IdCell(f.userId.value))];
    }
    forall p
      ensures Satisfies(w, p) <==> MatchesCountFilters(f, p)
    {
      SatisfiesByColumn(w, p);
    }
  }

  /** `count`: the number of payments with the given status and user, whatever the other filters say. */
  method Count(rows: seq<Payment>, f: Filters) returns (n: nat)
    ensures n == |Filter(rows, p => MatchesCountFilters(f, p))|
    ensures n <= |rows|
  {
    var w := CountWhere(f);
    FilterExt(rows, p => Satisfies(w, p), p => MatchesCountFilters(f, p));
    n := |Filter(rows, p => Satisfies(w, p))|;
  }

  /** The due date as a key that sorts ascending under a descending sort. */
  function EarliestFirst(p: Payment): int {
    -DueKey(p)
  }

  /** `findPendingByUserId`: the user's PENDING payments, earliest due date first. */
  function FindPendingByUserId(rows: seq<Payment>, userId: nat): (r: seq<Payment>)
    ensures forall p :: p in r <==> p in rows && p.userId == userId && p.status == Pending
    ensures forall i, j :: 0 <= i < j < |r| ==> Stamp(r[i].dueDate) <= Stamp(r[j].dueDate)
    ensures multiset(r) == multiset(Filter(rows, (p: Payment) => p.userId == userId && p.status == Pending))
  {
    var mine := Filter(rows, (p: Payment) => p.userId == userId && p.status == Pending);
    SortDescMembers(mine, EarliestFirst);
    var r := SortDesc(mine, EarliestFirst);
    assert forall i, j :: 0 <= i < j < |r| ==> EarliestFirst(r[i]) >= EarliestFirst(r[j]);
    r
  }

  predicate IsOverdue(p: Payment, now: DateTime) {
    p.status == Pending && Stamp(p.dueDate) < Stamp(now)
  }

  /** `findOverdue`: the PENDING payments due strictly before now. */
  function FindOverdue(rows: seq<Payment>, now: DateTime): (r: seq<Payment>)
    ensures forall p :: p in r <==> p in rows && p.status == Pending && Stamp(p.dueDate) < Stamp(now)
    ensures multiset(r) <= multiset(rows)
  {
    FilterMultiset(rows, p => IsOverdue(p, now));
    Filter(rows, p => IsOverdue(p, now))
  }

  /** The statuses `sumByUser` counts as paid. */
  predicate IsPaid(s: PaymentStatus) {
    s == Received || s == Confirmed
  }

  predicate PaidBy(p: Payment, userId: nat) {
    p.userId == userId && IsPaid(p.status)
  }

  function Amount(p: Payment): real {
    p.amount
  }

  /** `sumByUser`: the total amount of the user's RECEIVED or CONFIRMED payments; 0 when there are none. */
  function SumByUser(rows: seq<Payment>, userId: nat): (total: real)
    ensures (forall p :: p in rows ==> !PaidBy(p, userId)) ==> total == 0.0
  {
    var paid := Filter(rows, p => PaidBy(p, userId));
    assert |paid| > 0 ==> paid[0] in paid;
    Sum(paid, Amount)
  }

  /** The total over a table split in two is the sum of the two totals. */
  lemma SumByUserConcat(a: seq<Payment>, b: seq<Payment>, userId: nat)
    ensures SumByUser(a + b, userId) == SumByUser(a, userId) + SumByUser(b, userId)
  {
    FilterConcat(a, b, p => PaidBy(p, userId));
    SumConcat(Filter(a, p => PaidBy(p, userId)), Filter(b, p => PaidBy(p, userId)), Amount);
  }

  /** With non-negative amounts, the paid total is never negative. */
  lemma {:induction false} SumByUserNonNegative(rows: seq<Payment>, userId: nat)
    requires forall p :: p in rows ==> p.amount >= 0.0
    ensures SumByUser(rows, userId) >= 0.0
    decreases |rows|
  {
    if |rows| > 0 {
      assert rows == [rows[0]] + rows[1..];
      SumByUserConcat([rows[0]], rows[1..], userId);
      SumByUserNonNegative(rows[1..], userId);
      assert Filter([rows[0]], p => PaidBy(p, userId)) == if PaidBy(rows[0], userId) then [rows[0]] else [];
    }
  }

  /**
   * Rewriting one row: the user's total loses the old row's amount if it counted and gains
   * the new row's amount if that counts.
   */
  lemma SumByUserUpdate(rows: seq<Payment>, i: nat, p: Payment, userId: nat)
    requires i < |rows|
    ensures SumByUser(rows[i := p], userId)
         == SumByUser(rows, userId)
            - (if PaidBy(rows[i], userId) then rows[i].amount else 0.0)
            + (if PaidBy(p, userId) then p.amount else 0.0)
  {
    var before, after := rows[..i], rows[i + 1..];
    assert rows == before + [rows[i]] + after;
    assert rows[i := p] == before + [p] + after;
    SumByUserConcat(before + [rows[i]], after, userId);
    SumByUserConcat(before, [rows[i]], userId);
    SumByUserConcat(before + [p], after, userId);
    SumByUserConcat(before, [p], userId);
    assert Filter([rows[i]], q => PaidBy(q, userId)) == if PaidBy(rows[i], userId) then [rows[i]] else [];
    assert Filter([p], q => PaidBy(q, userId)) == if PaidBy(p, userId) then [p] else [];
  }
}
