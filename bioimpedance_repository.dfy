/**
 * The bioimpedance table: rows linked to a user or to nobody, the lookup of a measurement by
 * (user, measure time), the upsert the machine ingest uses, and the "latest measurement"
 * query ordered by measure time (NULLs first, as PostgreSQL sorts them in descending order)
 * and then by creation.
 */
module BioimpedanceRepository {
  import opened Wrappers
  import opened Js
  import opened Tables

  /** The measurement columns of a row, apart from its id and its user link. */
  datatype Field =
    | DeviceModel | UnitName | UnitNo | MacAddr | DeviceNo
    | MachineUserId | LoginType | MeasureTime | Address | Birthday | Age | Sex | RecordNo
    | Weight | Height | Bmi | BmiType | BmiStatus | BmiRange | WeightStatus | WeightRange
    | WaterECW | WaterECWRange | WaterECWStatus | WaterICW | WaterICWRange | WaterICWStatus
    | WaterRate | WaterRateRange | WaterRateStatus
    | Protein | ProteinRange | ProteinStatus | Bone | BoneRange | BoneStatus
    | BodyShape | BodyScore | BodyAge
    | FatFree | FatFreeRange | FatFreeStatus | Fat | FatRate | FatRateRange | FatRateStatus
    | FatLeftLeg | FatRightLeg | FatLeftArm | FatRightArm | FatTrunk
    | MuscleRate | MuscleRateRange | MuscleRateStatus
    | MuscleLeftLeg | MuscleRightLeg | MuscleLeftArm | MuscleRightArm | MuscleTrunk | SkeletalMuscle
    | Mineral | MineralRange | MineralStatus
    | Bmr | BmrRange | BmrStatus | Dci
    | VisceralFat | VisceralFatRange | VisceralFatStatus
    | FatSubcutaneousRate | FatSubcutaneousRange | FatSubcutaneousStatus
    | WeightAdjustment | MuscleAdjustment | FatAdjustment
    | SwimMinutes | WalkingMinutes | JoggingMinutes | AerobicMinutes

  const AllFields: set<Field> := {
    DeviceModel, UnitName, UnitNo, MacAddr, DeviceNo,
    MachineUserId, LoginType, MeasureTime, Address, Birthday, Age, Sex, RecordNo,
    Weight, Height, Bmi, BmiType, BmiStatus, BmiRange, WeightStatus, WeightRange,
    WaterECW, WaterECWRange, WaterECWStatus, WaterICW, WaterICWRange, WaterICWStatus,
    WaterRate, WaterRateRange, WaterRateStatus,
    Protein, ProteinRange, ProteinStatus, Bone, BoneRange, BoneStatus,
    BodyShape, BodyScore, BodyAge,
    FatFree, FatFreeRange, FatFreeStatus, Fat, FatRate, FatRateRange, FatRateStatus,
    FatLeftLeg, FatRightLeg, FatLeftArm, FatRightArm, FatTrunk,
    MuscleRate, MuscleRateRange, MuscleRateStatus,
    MuscleLeftLeg, MuscleRightLeg, MuscleLeftArm, MuscleRightArm, MuscleTrunk, SkeletalMuscle,
    Mineral, MineralRange, MineralStatus,
    Bmr, BmrRange, BmrStatus, Dci,
    VisceralFat, VisceralFatRange, VisceralFatStatus,
    FatSubcutaneousRate, FatSubcutaneousRange, FatSubcutaneousStatus,
    WeightAdjustment, MuscleAdjustment, FatAdjustment,
    SwimMinutes, WalkingMinutes, JoggingMinutes, AerobicMinutes
  }

  /** Every column is listed in AllFields. */
  lemma AllFieldsComplete(f: Field)
    ensures f in AllFields
  {
  }

  /**
   * A stored cell: SQL NULL, a JSON value stored as it came, a date as its millisecond
   * timestamp, or the result of `String`, `parseInt` or `parseFloat` applied to a JSON value,
   * which the model keeps symbolic.
   */
  datatype Value = Null | Raw(v: JsValue) | Instant(ms: int) | StringOf(v: JsValue) | IntOf(v: JsValue) | FloatOf(v: JsValue)

  /** A row; `createdAt` follows the id, which grows with every insert. */
  datatype Row = Row(id: nat, userId: Option<string>, data: map<Field, Value>)

  /** The measure time a set of columns carries, as a timestamp, or none. */
  function MeasureIn(data: map<Field, Value>): Option<int> {
    if MeasureTime in data && data[MeasureTime].Instant? then Some(data[MeasureTime].ms) else None
  }

  function MeasureOf(r: Row): Option<int> {
    MeasureIn(r.data)
  }

  /** Ids are below the next id to hand out, and distinct. */
  predicate IdsFresh(rows: seq<Row>, next: nat) {
    (forall k :: 0 <= k < |rows| ==> rows[k].id < next)
    && (forall i, j :: 0 <= i < j < |rows| ==> rows[i].id != rows[j].id)
  }

  /** The bioimpedance table together with the user ids the lookup by id can find. */
  class Store {
    var users: set<string>
    var rows: seq<Row>
    var nextId: nat

    predicate Valid()
      reads this
    {
      IdsFresh(rows, nextId)
    }

    constructor (users: set<string>)
      ensures Valid() && this.users == users && rows == [] && nextId == 0
    {
      this.users := users;
      rows := [];
      nextId := 0;
    }

    /** `create`: appends a row carrying the next id. */
    method Create(userId: Option<string>, data: map<Field, Value>) returns (r: Row)
      requires Valid()
      modifies this
      ensures Valid()
      ensures r == Row(old(nextId), userId, data)
      ensures rows == old(rows) + [r] && nextId == old(nextId) + 1 && users == old(users)
    {
      r := Row(nextId, userId, data);
      rows := rows + [r];
      nextId := nextId + 1;
    }

    /** `update`: the given columns replace the stored ones; the others and the user link stay. */
    method Update(i: nat, data: map<Field, Value>) returns (r: Row)
      requires Valid() && i < |rows|
      modifies this
      ensures Valid()
      ensures r == old(rows)[i].(data := old(rows)[i].data + data)
      ensures rows == old(rows)[i := r] && nextId == old(nextId) && users == old(users)
    {
      r := rows[i].(data := rows[i].data + data);
      rows := rows[i := r];
    }

    /** `delete`: removes the row. */
    method Delete(i: nat)
      requires Valid() && i < |rows|
      modifies this
      ensures Valid()
      ensures rows == old(rows)[..i] + old(rows)[i + 1..]
      ensures nextId == old(nextId) && users == old(users)
    {
      ghost var before := rows;
      rows := rows[..i] + rows[i + 1..];
      assert forall k :: 0 <= k < |rows| ==> rows[k] == if k < i then before[k] else before[k + 1];
    }
  }

  /** The position of the row with that id, or -1. */
  function RowIndex(rows: seq<Row>, id: nat): (i: int)
    ensures -1 <= i < |rows|
    ensures i >= 0 ==> rows[i].id == id
    ensures i < 0 <==> forall k :: 0 <= k < |rows| ==> rows[k].id != id
  {
    FirstIndex(rows, (r: Row) => r.id == id)
  }

  /** With distinct ids, a row's own id leads back to its position. */
  lemma RowIndexOfRow(rows: seq<Row>, next: nat, k: nat)
    requires IdsFresh(rows, next) && k < |rows|
    ensures RowIndex(rows, rows[k].id) == k
  {
  }

  /** `findById`: the row with that id, if any. */
  function FindById(rows: seq<Row>, id: nat): (r: Option<Row>)
    ensures r.Some? <==> exists k :: 0 <= k < |rows| && rows[k].id == id
    ensures r.Some? ==> r.value in rows && r.value.id == id
  {
    var i := RowIndex(rows, id);
    if i < 0 then None else Some(rows[i])
  }

  /** The `where { userId, measureTime }` of `findByMeasureTime`; a NULL user matches only unlinked rows. */
  predicate MatchesMeasure(r: Row, userId: Option<string>, ms: int) {
    r.userId == userId && MeasureOf(r) == Some(ms)
  }

  /** `findByMeasureTime`: the position of the first row with that user and measure time, or -1. */
  function FindByMeasureTime(rows: seq<Row>, userId: Option<string>, ms: int): (i: int)
    ensures -1 <= i < |rows|
    ensures i >= 0 ==> MatchesMeasure(rows[i], userId, ms)
                       && forall k :: 0 <= k < i ==> !MatchesMeasure(rows[k], userId, ms)
    ensures i < 0 <==> forall k :: 0 <= k < |rows| ==> !MatchesMeasure(rows[k], userId, ms)
  {
    FirstIndex(rows, (r: Row) => MatchesMeasure(r, userId, ms))
  }

  /** The table after an upsert, with the row it returns. */
  datatype Upserted = Upserted(rows: seq<Row>, nextId: nat, row: Row)

  /**
   * `upsertFromMachine`: without a measure time a row is inserted; otherwise the row holding
   * that (user, measure time) is updated, or, when there is none, a row is inserted with the
   * given user.
   */
  function Upsert(rows: seq<Row>, nextId: nat, userId: Option<string>, ms: Option<int>,
                  data: map<Field, Value>): (u: Upserted)
    ensures u.row in u.rows && u.row.userId == userId
  {
    var i := if ms.Some? then FindByMeasureTime(rows, userId, ms.value) else -1;
    if i >= 0 then
      var r := rows[i].(data := rows[i].data + data);
      assert rows[i := r][i] == r;
      Upserted(rows[i := r], nextId, r)
    else
      var r := Row(nextId, userId, data);
      Upserted(rows + [r], nextId + 1, r)
  }

  /** Some row already holds this (user, measure time). */
  predicate Held(rows: seq<Row>, userId: Option<string>, ms: int) {
    exists k :: 0 <= k < |rows| && MatchesMeasure(rows[k], userId, ms)
  }

  /**
   * An upsert inserts exactly when there is no measure time or no row holds it, and then the
   * new row carries the given user and columns; otherwise it rewrites one matching row in
   * place and the row count is unchanged.
   */
  lemma UpsertCases(rows: seq<Row>, nextId: nat, userId: Option<string>, ms: Option<int>, data: map<Field, Value>)
    ensures var u := Upsert(rows, nextId, userId, ms, data);
            ms.None? || !Held(rows, userId, ms.value) ==>
              u.rows == rows + [u.row] && u.nextId == nextId + 1 && u.row == Row(nextId, userId, data)
    ensures var u := Upsert(rows, nextId, userId, ms, data);
            ms.Some? && Held(rows, userId, ms.value) ==>
              |u.rows| == |rows| && u.nextId == nextId
              && exists i :: 0 <= i < |rows| && MatchesMeasure(rows[i], userId, ms.value)
                             && u.row == rows[i].(data := rows[i].data + data) && u.rows == rows[i := u.row]
  {
    var u := Upsert(rows, nextId, userId, ms, data);
    if ms.Some? && Held(rows, userId, ms.value) {
      var i := FindByMeasureTime(rows, userId, ms.value);
      assert u.row == rows[i].(data := rows[i].data + data) && u.rows == rows[i := u.row];
    }
  }

  /** An upsert keeps ids distinct and below the next id. */
  lemma UpsertKeepsIdsFresh(rows: seq<Row>, nextId: nat, userId: Option<string>, ms: Option<int>, data: map<Field, Value>)
    requires IdsFresh(rows, nextId)
    ensures var u := Upsert(rows, nextId, userId, ms, data);
            IdsFresh(u.rows, u.nextId)
  {
  }

  /** No two rows share a user link and a measure time. */
  predicate KeysUnique(rows: seq<Row>) {
    forall i, j :: 0 <= i < j < |rows| && MeasureOf(rows[i]).Some? ==>
      !(rows[i].userId == rows[j].userId && MeasureOf(rows[i]) == MeasureOf(rows[j]))
  }

  /** An upsert whose columns carry its measure time never creates a second row for one (user, measure time). */
  lemma UpsertKeepsKeysUnique(rows: seq<Row>, nextId: nat, userId: Option<string>, ms: Option<int>, data: map<Field, Value>)
    requires KeysUnique(rows) && MeasureIn(data) == ms
    ensures KeysUnique(Upsert(rows, nextId, userId, ms, data).rows)
  {
    var u := Upsert(rows, nextId, userId, ms, data);
    if ms.Some? && Held(rows, userId, ms.value) {
      var i := FindByMeasureTime(rows, userId, ms.value);
      assert MeasureOf(u.row) == ms;
      assert forall k :: 0 <= k < |u.rows| && k != i ==> u.rows[k] == rows[k];
    } else {
      assert MeasureOf(u.row) == ms;
      assert forall k :: 0 <= k < |rows| ==> u.rows[k] == rows[k];
    }
  }

  /** Upserting the same measurement twice adds no second row: the second upsert finds the first. */
  lemma UpsertTwice(rows: seq<Row>, nextId: nat, userId: Option<string>, ms: int, data: map<Field, Value>)
    requires MeasureIn(data) == Some(ms)
    ensures var u := Upsert(rows, nextId, userId, Some(ms), data);
            var v := Upsert(u.rows, u.nextId, userId, Some(ms), data);
            |v.rows| == |u.rows| && v.nextId == u.nextId
  {
    var u := Upsert(rows, nextId, userId, Some(ms), data);
    assert MeasureIn(u.row.data) == Some(ms);
    var k :| 0 <= k < |u.rows| && u.rows[k] == u.row;
    assert MatchesMeasure(u.rows[k], userId, ms);
    UpsertCases(u.rows, u.nextId, userId, Some(ms), data);
  }

  /** `upsertFromMachine` on the table: its result and new state are those of Upsert. */
  method UpsertFromMachine(store: Store, userId: Option<string>, ms: Option<int>, data: map<Field, Value>)
    returns (r: Row)
    requires store.Valid()
    modifies store
    ensures store.Valid() && store.users == old(store.users)
    ensures Upserted(store.rows, store.nextId, r) == Upsert(old(store.rows), old(store.nextId), userId, ms, data)
  {
    var i := -1;
    if ms.Some? {
      i := FindByMeasureTime(store.rows, userId, ms.value);
    }
    if i >= 0 {
      r := store.Update(i, data);
    } else {
      r := store.Create(userId, data);
    }
  }

  /**
   * `a` is listed before `b` under `orderBy: [{ measureTime: 'desc' }, { createdAt: 'desc' }]`:
   * a row without a measure time first, then the later measure time, then the later creation.
   */
  predicate Precedes(a: Row, b: Row) {
    match (MeasureOf(a), MeasureOf(b))
    case (None, Some(_)) => true
    case (Some(_), None) => false
    case (Some(x), Some(y)) => x > y || (x == y && a.id > b.id)
    case (None, None) => a.id > b.id
  }

  lemma PrecedesTransitive(a: Row, b: Row, c: Row)
    requires Precedes(a, b) && Precedes(b, c)
    ensures Precedes(a, c)
  {
  }

  /** The user's rows: `where: { userId }`. */
  predicate Owned(r: Row, userId: string) {
    r.userId == Some(userId)
  }

  /** `findLatestByUserId`: the user's row that no other row of theirs precedes. */
  function FindLatest(rows: seq<Row>, userId: string): (r: Option<Row>)
    ensures r.None? <==> forall k :: 0 <= k < |rows| ==> !Owned(rows[k], userId)
    ensures r.Some? ==> r.value in rows && Owned(r.value, userId)
    ensures r.Some? ==> forall k :: 0 <= k < |rows| && Owned(rows[k], userId) ==> !Precedes(rows[k], r.value)
    decreases |rows|
  {
    if |rows| == 0 then None
    else
      var rest := FindLatest(rows[1..], userId);
      assert forall k :: 1 <= k < |rows| ==> rows[k] == rows[1..][k - 1];
      if !Owned(rows[0], userId) then rest
      else if rest.None? then Some(rows[0])
      else if Precedes(rows[0], rest.value) then
        LatestStaysAhead(rows[1..], userId, rows[0], rest.value);
        Some(rows[0])
      else rest
  }

  /** A row that precedes the best of the rest is preceded by none of the rest. */
  lemma LatestStaysAhead(rows: seq<Row>, userId: string, head: Row, best: Row)
    requires Precedes(head, best)
    requires forall k :: 0 <= k < |rows| && Owned(rows[k], userId) ==> !Precedes(rows[k], best)
    ensures forall k :: 0 <= k < |rows| && Owned(rows[k], userId) ==> !Precedes(rows[k], head)
  {
    forall k | 0 <= k < |rows| && Owned(rows[k], userId)
      ensures !Precedes(rows[k], head)
    {
      if Precedes(rows[k], head) {
        PrecedesTransitive(rows[k], head, best);
      }
    }
  }

  /**
   * Any listing of exactly the user's rows sorted by the query's order starts with the row
   * `findLatestByUserId` returns: the latest is the head of `findByUserId`'s ordering.
   */
  lemma LatestIsHead(rows: seq<Row>, userId: string, listing: seq<Row>)
    requires |listing| > 0
    requires forall x :: x in listing <==> x in rows && Owned(x, userId)
    requires forall i, j :: 0 <= i < j < |listing| ==> Precedes(listing[i], listing[j])
    ensures FindLatest(rows, userId) == Some(listing[0])
  {
    var r := FindLatest(rows, userId);
    assert listing[0] in listing;
    var k0 :| 0 <= k0 < |rows| && rows[k0] == listing[0];
    assert r.Some?;
    assert r.value in listing;
    var j :| 0 <= j < |listing| && listing[j] == r.value;
    if j > 0 {
      assert false;
    }
  }

  /** `findByUserId`: the user's rows (their order is not modelled). */
  function FindByUserId(rows: seq<Row>, userId: string): (r: seq<Row>)
    ensures forall x :: x in r <==> x in rows && Owned(x, userId)
  {
    Filter(rows, (x: Row) => Owned(x, userId))
  }
}
