/**
 * The bioimpedance service: manual create, read, update and delete behind existence checks,
 * and the ingest of a body-composition machine's upload. The ingest skips entries without a
 * machine user or a measure time, renames the machine's legacy keys into columns, links the
 * entry to a user of the system when one is found, and upserts one row per kept entry.
 */
module BioimpedanceService {
  import opened Wrappers
  import opened Js
  import opened Tables
  import opened BioimpedanceRepository

  const NoData := "Nenhum dado fornecido"
  const UserNotFound := "Usuário não encontrado"
  const NotFound := "Bioimpedância não encontrada"
  const NoneForUser := "Nenhuma bioimpedância encontrada para este usuário"

  /**
   * How a column is filled from its source value `x`:
   * `x || null`, `x`, `x ? String(x) : null`, `x ? new Date(x) : null`, `new Date(x)`,
   * `x ? parseInt(x) : null`, `x ? parseFloat(x) : null` and `parseFloat(x)`.
   */
  datatype Kind = OrNull | AsIs | StringIf | DateIf | DateAlways | IntIf | FloatIf | FloatAlways

  /** How each column is converted. */
  function KindOf(f: Field): Kind {
    match f
    case DeviceModel => OrNull
    case UnitName => OrNull
    case UnitNo => OrNull
    case MacAddr => OrNull
    case DeviceNo => OrNull
    case MachineUserId => AsIs
    case LoginType => StringIf
    case MeasureTime => DateAlways
    case Address => OrNull
    case Birthday => DateIf
    case Age => IntIf
    case Sex => IntIf
    case RecordNo => OrNull
    case Weight => FloatAlways
    case Height => FloatAlways
    case Bmi => FloatAlways
    case BmiType => OrNull
    case BmiStatus => IntIf
    case BmiRange => OrNull
    case WeightStatus => IntIf
    case WeightRange => OrNull
    case WaterECW => FloatIf
    case WaterECWRange => OrNull
    case WaterECWStatus => IntIf
    case WaterICW => FloatIf
    case WaterICWRange => OrNull
    case WaterICWStatus => IntIf
    case WaterRate => FloatIf
    case WaterRateRange => OrNull
    case WaterRateStatus => IntIf
    case Protein => FloatIf
    case ProteinRange => OrNull
    case ProteinStatus => IntIf
    case Bone => FloatIf
    case BoneRange => OrNull
    case BoneStatus => IntIf
    case BodyShape => OrNull
    case BodyScore => IntIf
    case BodyAge => IntIf
    case FatFree => FloatIf
    case FatFreeRange => OrNull
    case FatFreeStatus => IntIf
    case Fat => FloatIf
    case FatRate => FloatIf
    case FatRateRange => OrNull
    case FatRateStatus => IntIf
    case FatLeftLeg => FloatIf
    case FatRightLeg => FloatIf
    case FatLeftArm => FloatIf
    case FatRightArm => FloatIf
    case FatTrunk => FloatIf
    case MuscleRate => FloatIf
    case MuscleRateRange => OrNull
    case MuscleRateStatus => IntIf
    case MuscleLeftLeg => FloatIf
    case MuscleRightLeg => FloatIf
    case MuscleLeftArm => FloatIf
    case MuscleRightArm => FloatIf
    case MuscleTrunk => FloatIf
    case SkeletalMuscle => FloatIf
    case Mineral => FloatIf
    case MineralRange => OrNull
    case MineralStatus => IntIf
    case Bmr => FloatAlways
    case BmrRange => OrNull
    case BmrStatus => IntIf
    case Dci => IntIf
    case VisceralFat => IntIf
    case VisceralFatRange => OrNull
    case VisceralFatStatus => IntIf
    case FatSubcutaneousRate => FloatIf
    case FatSubcutaneousRange => OrNull
    case FatSubcutaneousStatus => IntIf
    case WeightAdjustment => FloatIf
    case MuscleAdjustment => FloatIf
    case FatAdjustment => FloatIf
    case SwimMinutes => IntIf
    case WalkingMinutes => IntIf
    case JoggingMinutes => IntIf
    case AerobicMinutes => IntIf
  }

  /** The key each column is read under: the envelope's key for a device column, the entry's otherwise. */
  function KeyOf(f: Field): string {
    match f
    case DeviceModel => "deviceModel"
    case UnitName => "unitName"
    case UnitNo => "unitNo"
    case MacAddr => "macAddr"
    case DeviceNo => "deviceNo"
    case MachineUserId => "userID"
    case LoginType => "loginType"
    case MeasureTime => "measureTime"
    case Address => "address"
    case Birthday => "birthday"
    case Age => "age"
    case Sex => "sex"
    case RecordNo => "recordNo"
    case Weight => "weight"
    case Height => "height"
    case Bmi => "bmi"
    case BmiType => "bmiType"
    case BmiStatus => "bmi_s"
    case BmiRange => "bmi_n"
    case WeightStatus => "weight_s"
    case WeightRange => "weight_n"
    case WaterECW => "waterECW"
    case WaterECWRange => "waterECW_n"
    case WaterECWStatus => "waterECW_s"
    case WaterICW => "waterICW"
    case WaterICWRange => "waterICW_n"
    case WaterICWStatus => "waterICW_s"
    case WaterRate => "waterRate"
    case WaterRateRange => "waterRate_n"
    case WaterRateStatus => "waterRate_s"
    case Protein => "protein"
    case ProteinRange => "protein_n"
    case ProteinStatus => "protein_s"
    case Bone => "bone"
    case BoneRange => "bone_n"
    case BoneStatus => "bone_s"
    case BodyShape => "bodyShape"
    case BodyScore => "bodyScore"
    case BodyAge => "bodyAge"
    case FatFree => "fatFree"
    case FatFreeRange => "fatFree_n"
    case FatFreeStatus => "fatFree_s"
    case Fat => "fat"
    case FatRate => "fatRate"
    case FatRateRange => "fatRate_n"
    case FatRateStatus => "fatRate_s"
    case FatLeftLeg => "fatLeftLeg"
    case FatRightLeg => "fatRightLeg"
    case FatLeftArm => "fatLeftArm"
    case FatRightArm => "fatRightArm"
    case FatTrunk => "fatTrunk"
    case MuscleRate => "muscleRate"
    case MuscleRateRange => "muscleRate_n"
    case MuscleRateStatus => "muscleRate_s"
    case MuscleLeftLeg => "muscleLeftLeg"
    case MuscleRightLeg => "muscleRightLeg"
    case MuscleLeftArm => "muscleLeftArm"
    case MuscleRightArm => "muscleRightArm"
    case MuscleTrunk => "muscleTrunk"
    case SkeletalMuscle => "skeletalMuscle"
    case Mineral => "mineral"
    case MineralRange => "mineral_n"
    case MineralStatus => "mineral_s"
    case Bmr => "bmr"
    case BmrRange => "bmr_n"
    case BmrStatus => "bmr_s"
    case Dci => "dci"
    case VisceralFat => "vfal"
    case VisceralFatRange => "vfal_n"
    case VisceralFatStatus => "vfal_s"
    case FatSubcutaneousRate => "fatSubCutRate"
    case FatSubcutaneousRange => "fatSubCutRate_n"
    case FatSubcutaneousStatus => "fatSubCutRate_s"
    case WeightAdjustment => "weAdjus"
    case MuscleAdjustment => "muAdjus"
    case FatAdjustment => "faAdjus"
    case SwimMinutes => "swim"
    case WalkingMinutes => "walking"
    case JoggingMinutes => "jogging"
    case AerobicMinutes => "aerobic"
  }

  /** The column's own name. */
  function ColumnOf(f: Field): string {
    match f
    case DeviceModel => "deviceModel"
    case UnitName => "unitName"
    case UnitNo => "unitNo"
    case MacAddr => "macAddr"
    case DeviceNo => "deviceNo"
    case MachineUserId => "machineUserId"
    case LoginType => "loginType"
    case MeasureTime => "measureTime"
    case Address => "address"
    case Birthday => "birthday"
    case Age => "age"
    case Sex => "sex"
    case RecordNo => "recordNo"
    case Weight => "weight"
    case Height => "height"
    case Bmi => "bmi"
    case BmiType => "bmiType"
    case BmiStatus => "bmiStatus"
    case BmiRange => "bmiRange"
    case WeightStatus => "weightStatus"
    case WeightRange => "weightRange"
    case WaterECW => "waterECW"
    case WaterECWRange => "waterECWRange"
    case WaterECWStatus => "waterECWStatus"
    case WaterICW => "waterICW"
    case WaterICWRange => "waterICWRange"
    case WaterICWStatus => "waterICWStatus"
    case WaterRate => "waterRate"
    case WaterRateRange => "waterRateRange"
    case WaterRateStatus => "waterRateStatus"
    case Protein => "protein"
    case ProteinRange => "proteinRange"
    case ProteinStatus => "proteinStatus"
    case Bone => "bone"
    case BoneRange => "boneRange"
    case BoneStatus => "boneStatus"
    case BodyShape => "bodyShape"
    case BodyScore => "bodyScore"
    case BodyAge => "bodyAge"
    case FatFree => "fatFree"
    case FatFreeRange => "fatFreeRange"
    case FatFreeStatus => "fatFreeStatus"
    case Fat => "fat"
    case FatRate => "fatRate"
    case FatRateRange => "fatRateRange"
    case FatRateStatus => "fatRateStatus"
    case FatLeftLeg => "fatLeftLeg"
    case FatRightLeg => "fatRightLeg"
    case FatLeftArm => "fatLeftArm"
    case FatRightArm => "fatRightArm"
    case FatTrunk => "fatTrunk"
    case MuscleRate => "muscleRate"
    case MuscleRateRange => "muscleRateRange"
    case MuscleRateStatus => "muscleRateStatus"
    case MuscleLeftLeg => "muscleLeftLeg"
    case MuscleRightLeg => "muscleRightLeg"
    case MuscleLeftArm => "muscleLeftArm"
    case MuscleRightArm => "muscleRightArm"
    case MuscleTrunk => "muscleTrunk"
    case SkeletalMuscle => "skeletalMuscle"
    case Mineral => "mineral"
    case MineralRange => "mineralRange"
    case MineralStatus => "mineralStatus"
    case Bmr => "bmr"
    case BmrRange => "bmrRange"
    case BmrStatus => "bmrStatus"
    case Dci => "dci"
    case VisceralFat => "visceralFat"
    case VisceralFatRange => "visceralFatRange"
    case VisceralFatStatus => "visceralFatStatus"
    case FatSubcutaneousRate => "fatSubcutaneousRate"
    case FatSubcutaneousRange => "fatSubcutaneousRange"
    case FatSubcutaneousStatus => "fatSubcutaneousStatus"
    case WeightAdjustment => "weightAdjustment"
    case MuscleAdjustment => "muscleAdjustment"
    case FatAdjustment => "fatAdjustment"
    case SwimMinutes => "swimMinutes"
    case WalkingMinutes => "walkingMinutes"
    case JoggingMinutes => "joggingMinutes"
    case AerobicMinutes => "aerobicMinutes"
  }

  /** The five device columns, read from the upload envelope; every other column is read from the entry. */
  predicate IsDevice(f: Field) {
    match f
    case DeviceModel | UnitName | UnitNo | MacAddr | DeviceNo => true
    case _ => false
  }

  /** The conversions that turn a falsy source into NULL. */
  predicate Optional(k: Kind) {
    k != AsIs && k != DateAlways && k != FloatAlways
  }

  /** One column's conversion; `toMs` is `new Date(x).getTime()`. */
  function Apply(k: Kind, x: JsValue, toMs: JsValue -> int): (r: Value)
    ensures r == Null <==> Optional(k) && !Truthy(x)
    ensures r.Raw? || r.StringOf? || r.IntOf? || r.FloatOf? ==> r.v == x
    ensures r.Instant? ==> r.ms == toMs(x)
  {
    match k
    case OrNull => if Truthy(x) then Raw(x) else Null
    case AsIs => Raw(x)
    case StringIf => if Truthy(x) then StringOf(x) else Null
    case DateIf => if Truthy(x) then Instant(toMs(x)) else Null
    case DateAlways => Instant(toMs(x))
    case IntIf => if Truthy(x) then IntOf(x) else Null
    case FloatIf => if Truthy(x) then FloatOf(x) else Null
    case FloatAlways => FloatOf(x)
  }

  /** The source value of a column for this envelope and entry; an absent key reads as undefined. */
  function Source(envelope: map<string, JsValue>, entry: map<string, JsValue>, f: Field): JsValue {
    Get(if IsDevice(f) then envelope else entry, KeyOf(f))
  }

  /** One column of `mappedData`. */
  function Cell(envelope: map<string, JsValue>, entry: map<string, JsValue>, toMs: JsValue -> int, f: Field): Value {
    Apply(KindOf(f), Source(envelope, entry, f), toMs)
  }

  /** `mappedData`: every column filled by its rule. */
  function Mapped(envelope: map<string, JsValue>, entry: map<string, JsValue>, toMs: JsValue -> int)
    : (m: map<Field, Value>)
    ensures forall f :: f in m && m[f] == Cell(envelope, entry, toMs, f)
  {
    forall f ensures f in AllFields {
      AllFieldsComplete(f);
    }
    map f | f in AllFields :: Cell(envelope, entry, toMs, f)
  }

  /** The mapping the loop applies to each entry of one upload. */
  function MapperOf(envelope: map<string, JsValue>, toMs: JsValue -> int): map<string, JsValue> -> map<Field, Value> {
    entry => Mapped(envelope, entry, toMs)
  }

  /**
   * A device column is read from the envelope under its own name, as given when truthy and NULL
   * otherwise, so every entry of one upload carries the same device columns.
   */
  lemma DeviceColumns(envelope: map<string, JsValue>, a: map<string, JsValue>, b: map<string, JsValue>,
                      toMs: JsValue -> int, f: Field)
    ensures IsDevice(f) ==> KindOf(f) == OrNull && KeyOf(f) == ColumnOf(f)
    ensures IsDevice(f) ==>
              var x := Get(envelope, ColumnOf(f));
              Cell(envelope, a, toMs, f) == (if Truthy(x) then Raw(x) else Null)
    ensures IsDevice(f) ==> Cell(envelope, a, toMs, f) == Cell(envelope, b, toMs, f)
  {
  }

  /** A column is NULL exactly when its conversion is optional and its source is falsy. */
  lemma MappedNull(envelope: map<string, JsValue>, entry: map<string, JsValue>, toMs: JsValue -> int, f: Field)
    ensures Mapped(envelope, entry, toMs)[f] == Null <==> Optional(KindOf(f)) && !Truthy(Source(envelope, entry, f))
  {
  }

  /** The columns that are filled whatever the entry holds. */
  predicate AlwaysFilledColumn(f: Field) {
    match f
    case MachineUserId | MeasureTime | Weight | Height | Bmi | Bmr => true
    case _ => false
  }

  /**
   * Exactly the machine user, the measure time, weight, height, BMI and BMR are never NULL:
   * the first is stored as given, the second as a date, and the four measurements go through
   * `parseFloat` even when absent; every other column is NULL for a falsy source.
   */
  lemma AlwaysFilled(envelope: map<string, JsValue>, entry: map<string, JsValue>, toMs: JsValue -> int, f: Field)
    ensures Optional(KindOf(f)) <==> !AlwaysFilledColumn(f)
    ensures KindOf(f) == FloatAlways <==> f == Weight || f == Height || f == Bmi || f == Bmr
    ensures AlwaysFilledColumn(f) ==> Mapped(envelope, entry, toMs)[f] != Null
  {
  }

  /** The columns whose machine key differs from the column name. */
  predicate IsRenamed(f: Field) {
    match f
    case MachineUserId | BmiStatus | BmiRange | WeightStatus | WeightRange | WaterECWRange | WaterECWStatus | WaterICWRange | WaterICWStatus | WaterRateRange | WaterRateStatus | ProteinRange | ProteinStatus | BoneRange | BoneStatus | FatFreeRange | FatFreeStatus | FatRateRange | FatRateStatus | MuscleRateRange | MuscleRateStatus | MineralRange | MineralStatus | BmrRange | BmrStatus | VisceralFat | VisceralFatRange | VisceralFatStatus | FatSubcutaneousRate | FatSubcutaneousRange | FatSubcutaneousStatus | WeightAdjustment | MuscleAdjustment | FatAdjustment | SwimMinutes | WalkingMinutes | JoggingMinutes | AerobicMinutes => true
    case _ => false
  }

  /** A `*Range` or `*Status` column and the measurement column it qualifies. */
  function Qualified(f: Field): Option<Field> {
    match f
    case BmiStatus | BmiRange => Some(Bmi)
    case WeightStatus | WeightRange => Some(Weight)
    case WaterECWRange | WaterECWStatus => Some(WaterECW)
    case WaterICWRange | WaterICWStatus => Some(WaterICW)
    case WaterRateRange | WaterRateStatus => Some(WaterRate)
    case ProteinRange | ProteinStatus => Some(Protein)
    case BoneRange | BoneStatus => Some(Bone)
    case FatFreeRange | FatFreeStatus => Some(FatFree)
    case FatRateRange | FatRateStatus => Some(FatRate)
    case MuscleRateRange | MuscleRateStatus => Some(MuscleRate)
    case MineralRange | MineralStatus => Some(Mineral)
    case BmrRange | BmrStatus => Some(Bmr)
    case VisceralFatRange | VisceralFatStatus => Some(VisceralFat)
    case FatSubcutaneousRange | FatSubcutaneousStatus => Some(FatSubcutaneousRate)
    case _ => None
  }

  /**
   * A column is read under another name exactly when it is one of the renamed columns; every
   * range and status column is renamed, a range stored as given or NULL, a status through `parseInt`.
   */
  lemma LegacyKeys(f: Field)
    ensures KeyOf(f) != ColumnOf(f) <==> IsRenamed(f)
    ensures Qualified(f).Some? ==> IsRenamed(f) && (KindOf(f) == OrNull || KindOf(f) == IntIf)
  {
  }

  /** An entry the loop processes: it names a machine user and a measure time. */
  predicate Kept(entry: map<string, JsValue>) {
    Truthy(Get(entry, "userID")) && Truthy(Get(entry, "measureTime"))
  }

  /** The key the user lookup uses: `data.userId || data.userID`. */
  function LinkKey(entry: map<string, JsValue>): JsValue {
    if Truthy(Get(entry, "userId")) then Get(entry, "userId") else Get(entry, "userID")
  }

  /** The system user the entry is linked to: the user the key finds, or nobody. */
  function Linked(users: set<string>, entry: map<string, JsValue>): (u: Option<string>)
    ensures u.Some? <==> LinkKey(entry).JStr? && LinkKey(entry).s in users
    ensures u.Some? ==> u.value in users && LinkKey(entry) == JStr(u.value)
  {
    match LinkKey(entry)
    case JStr(s) => if s in users then Some(s) else None
    case _ => None
  }

  /** `datas`: not an array (or absent), or an array of entries. */
  datatype Datas = NotArray(v: JsValue) | Array(entries: seq<map<string, JsValue>>)

  /** The machine's upload: the envelope's device keys and its entries. */
  datatype Upload = Upload(envelope: map<string, JsValue>, datas: Datas)

  /** The table and the results pushed so far. */
  datatype Ingest = Ingest(rows: seq<Row>, nextId: nat, results: seq<Row>)

  /**
   * One pass of the loop body under the column mapping `mapping`: a skipped entry changes
   * nothing; a kept one is upserted under its linked user and its mapped measure time, and
   * the row the upsert returns is pushed.
   */
  function IngestStep(users: set<string>, mapping: map<string, JsValue> -> map<Field, Value>,
                      s: Ingest, entry: map<string, JsValue>): Ingest
  {
    if !Kept(entry) then s
    else
      var data := mapping(entry);
      var u := Upsert(s.rows, s.nextId, Linked(users, entry), MeasureIn(data), data);
      Ingest(u.rows, u.nextId, s.results + [u.row])
  }

  /** The loop over the entries, in order. */
  function IngestAll(users: set<string>, mapping: map<string, JsValue> -> map<Field, Value>,
                     s: Ingest, entries: seq<map<string, JsValue>>): Ingest
    decreases |entries|
  {
    if |entries| == 0 then s
    else IngestStep(users, mapping, IngestAll(users, mapping, s, entries[..|entries| - 1]), entries[|entries| - 1])
  }

  /** A mapping that fills every column, as `mappedData` does. */
  ghost predicate Covers(mapping: map<string, JsValue> -> map<Field, Value>) {
    forall entry, f :: f in mapping(entry)
  }

  /** The machine mapping fills every column, and the measure time it passes is the entry's date. */
  lemma MapperCovers(envelope: map<string, JsValue>, toMs: JsValue -> int, entry: map<string, JsValue>)
    ensures Covers(MapperOf(envelope, toMs))
    ensures MeasureIn(MapperOf(envelope, toMs)(entry)) == Some(toMs(Get(entry, "measureTime")))
  {
    assert Cell(envelope, entry, toMs, MeasureTime) == Instant(toMs(Get(entry, "measureTime")));
  }

  /** Columns written over a row by an update that covers every column are exactly the new ones. */
  lemma MergeCovered(r: Row, data: map<Field, Value>)
    requires forall f :: f in data
    ensures r.data + data == data
  {
  }

  /**
   * The results are one row per kept entry, in input order: the i-th carries the i-th kept
   * entry's mapped columns and its linked user, whether it was inserted or updated.
   */
  lemma {:induction false} IngestResults(users: set<string>, mapping: map<string, JsValue> -> map<Field, Value>,
                                         s: Ingest, entries: seq<map<string, JsValue>>)
    requires Covers(mapping)
    ensures var r := IngestAll(users, mapping, s, entries);
            var kept := Filter(entries, Kept);
            |r.results| == |s.results| + |kept|
            && r.results[..|s.results|] == s.results
            && forall i :: 0 <= i < |kept| ==>
                 r.results[|s.results| + i].data == mapping(kept[i])
                 && r.results[|s.results| + i].userId == Linked(users, kept[i])
    decreases |entries|
  {
    if |entries| > 0 {
      var init := entries[..|entries| - 1];
      var last := entries[|entries| - 1];
      assert entries == init + [last];
      FilterConcat(init, [last], Kept);
      IngestResults(users, mapping, s, init);
      var prev := IngestAll(users, mapping, s, init);
      if Kept(last) {
        var data := mapping(last);
        var u := Upsert(prev.rows, prev.nextId, Linked(users, last), MeasureIn(data), data);
        UpsertCases(prev.rows, prev.nextId, Linked(users, last), MeasureIn(data), data);
        MergeCovered(u.row, data);
      }
    }
  }

  /** The table never shrinks and grows by at most one row per kept entry. */
  lemma {:induction false} IngestRowCount(users: set<string>, mapping: map<string, JsValue> -> map<Field, Value>,
                                          s: Ingest, entries: seq<map<string, JsValue>>)
    ensures var r := IngestAll(users, mapping, s, entries);
            |s.rows| <= |r.rows| <= |s.rows| + |Filter(entries, Kept)|
            && r.nextId - s.nextId == |r.rows| - |s.rows|
    decreases |entries|
  {
    if |entries| > 0 {
      var init := entries[..|entries| - 1];
      var last := entries[|entries| - 1];
      assert entries == init + [last];
      FilterConcat(init, [last], Kept);
      IngestRowCount(users, mapping, s, init);
      var prev := IngestAll(users, mapping, s, init);
      if Kept(last) {
        var data := mapping(last);
        UpsertCases(prev.rows, prev.nextId, Linked(users, last), MeasureIn(data), data);
      }
    }
  }

  /** The ingest never creates a second row for one (user, measure time). */
  lemma {:induction false} IngestKeepsKeysUnique(users: set<string>, mapping: map<string, JsValue> -> map<Field, Value>,
                                                 s: Ingest, entries: seq<map<string, JsValue>>)
    requires KeysUnique(s.rows)
    ensures KeysUnique(IngestAll(users, mapping, s, entries).rows)
    decreases |entries|
  {
    if |entries| > 0 {
      var init := entries[..|entries| - 1];
      var last := entries[|entries| - 1];
      IngestKeepsKeysUnique(users, mapping, s, init);
      var prev := IngestAll(users, mapping, s, init);
      if Kept(last) {
        var data := mapping(last);
        UpsertKeepsKeysUnique(prev.rows, prev.nextId, Linked(users, last), MeasureIn(data), data);
      }
    }
  }

  /**
   * The upload's results: one row per kept entry in input order, each holding that entry's
   * mapped columns and linked to the user its key finds, or to nobody; the table gains at
   * most one row per kept entry and keeps (user, measure time) unique.
   */
  lemma UploadResults(users: set<string>, envelope: map<string, JsValue>, toMs: JsValue -> int,
                      rows: seq<Row>, nextId: nat, entries: seq<map<string, JsValue>>)
    requires KeysUnique(rows)
    ensures var r := IngestAll(users, MapperOf(envelope, toMs), Ingest(rows, nextId, []), entries);
            var kept := Filter(entries, Kept);
            |r.results| == |kept|
            && (forall i :: 0 <= i < |kept| ==>
                  r.results[i].data == Mapped(envelope, kept[i], toMs)
                  && r.results[i].userId == Linked(users, kept[i]))
            && |rows| <= |r.rows| <= |rows| + |kept|
            && KeysUnique(r.rows)
  {
    var mapping := MapperOf(envelope, toMs);
    var start := Ingest(rows, nextId, []);
    MapperCovers(envelope, toMs, map[]);
    IngestResults(users, mapping, start, entries);
    IngestRowCount(users, mapping, start, entries);
    IngestKeepsKeysUnique(users, mapping, start, entries);
  }

  /** The loop over a prefix one longer is one more step. */
  lemma IngestPrefixStep(users: set<string>, mapping: map<string, JsValue> -> map<Field, Value>,
                         s: Ingest, entries: seq<map<string, JsValue>>, k: nat)
    requires k < |entries|
    ensures IngestAll(users, mapping, s, entries[..k + 1])
            == IngestStep(users, mapping, IngestAll(users, mapping, s, entries[..k]), entries[k])
  {
    assert entries[..k + 1][..k] == entries[..k];
  }

  /**
   * `processMachineUpload`: a missing, non-array or empty `datas` is refused before anything
   * else; otherwise the entries are ingested in order under the machine mapping and the rows
   * the upserts return are the result. A user the lookup does not find leaves the row unlinked
   * and never stops the loop.
   */
  method ProcessMachineUpload(store: Store, upload: Upload, toMs: JsValue -> int) returns (r: Result<seq<Row>>)
    requires store.Valid()
    modifies store
    ensures store.Valid() && store.users == old(store.users)
    ensures r.Err? <==> upload.datas.NotArray? || |upload.datas.entries| == 0
    ensures r.Err? ==> r == Err(NoData) && store.rows == old(store.rows) && store.nextId == old(store.nextId)
    ensures r.Ok? ==>
              Ingest(store.rows, store.nextId, r.value)
              == IngestAll(old(store.users), MapperOf(upload.envelope, toMs),
                           Ingest(old(store.rows), old(store.nextId), []), upload.datas.entries)
  {
    if upload.datas.NotArray? || |upload.datas.entries| == 0 {
      return Err(NoData);
    }
    var entries := upload.datas.entries;
    ghost var mapping := MapperOf(upload.envelope, toMs);
    ghost var start := Ingest(store.rows, store.nextId, []);
    var results: seq<Row> := [];
    var k := 0;
    while k < |entries|
      invariant 0 <= k <= |entries|
      invariant store.Valid() && store.users == old(store.users)
      invariant Ingest(store.rows, store.nextId, results) == IngestAll(store.users, mapping, start, entries[..k])
    {
      IngestPrefixStep(store.users, mapping, start, entries, k);
      var entry := entries[k];
      if Kept(entry) {
        var data := Mapped(upload.envelope, entry, toMs);
        assert data == mapping(entry);
        var userId := Linked(store.users, entry);
        var row := UpsertFromMachine(store, userId, MeasureIn(data), data);
        results := results + [row];
      }
      k := k + 1;
    }
    assert entries[..k] == entries;
    r := Ok(results);
  }

  /** `create`: refused unless the user exists; otherwise a row linked to that user is added. */
  method Create(store: Store, userId: string, data: map<Field, Value>) returns (r: Result<Row>)
    requires store.Valid()
    modifies store
    ensures store.Valid() && store.users == old(store.users)
    ensures r.Err? <==> userId !in old(store.users)
    ensures r.Err? ==> r == Err(UserNotFound) && store.rows == old(store.rows) && store.nextId == old(store.nextId)
    ensures r.Ok? ==> r.value == Row(old(store.nextId), Some(userId), data)
                      && store.rows == old(store.rows) + [r.value]
                      && FindById(store.rows, r.value.id) == Some(r.value)
  {
    if userId !in store.users {
      return Err(UserNotFound);
    }
    var row := store.Create(Some(userId), data);
    RowIndexOfRow(store.rows, store.nextId, |store.rows| - 1);
    r := Ok(row);
  }

  /** `findById`: the row, or the not-found error. */
  function GetById(rows: seq<Row>, id: nat): (r: Result<Row>)
    ensures r.Ok? <==> exists k :: 0 <= k < |rows| && rows[k].id == id
    ensures r.Ok? ==> r.value in rows && r.value.id == id
    ensures r.Err? ==> r.message == NotFound
  {
    match FindById(rows, id)
    case Some(row) => Ok(row)
    case None => Err(NotFound)
  }

  /** `findByUserId`: refused unless the user exists; otherwise the user's rows. */
  function GetByUserId(users: set<string>, rows: seq<Row>, userId: string): (r: Result<seq<Row>>)
    ensures r.Err? <==> userId !in users
    ensures r.Err? ==> r.message == UserNotFound
    ensures r.Ok? ==> forall x :: x in r.value <==> x in rows && x.userId == Some(userId)
  {
    if userId !in users then Err(UserNotFound) else Ok(FindByUserId(rows, userId))
  }

  /** `findLatestByUserId`: the user must exist and have a measurement; the result is the latest. */
  function GetLatestByUserId(users: set<string>, rows: seq<Row>, userId: string): (r: Result<Row>)
    ensures userId !in users ==> r == Err(UserNotFound)
    ensures userId in users && (forall k :: 0 <= k < |rows| ==> rows[k].userId != Some(userId)) ==>
              r == Err(NoneForUser)
    ensures r.Ok? ==> r.value in rows && r.value.userId == Some(userId)
                      && forall k :: 0 <= k < |rows| && rows[k].userId == Some(userId) ==> !Precedes(rows[k], r.value)
  {
    if userId !in users then Err(UserNotFound)
    else
      match FindLatest(rows, userId)
      case Some(row) => Ok(row)
      case None => Err(NoneForUser)
  }

  /** `update`: refused for a missing row; otherwise the given columns replace the stored ones. */
  method Update(store: Store, id: nat, data: map<Field, Value>) returns (r: Result<Row>)
    requires store.Valid()
    modifies store
    ensures store.Valid() && store.users == old(store.users) && store.nextId == old(store.nextId)
    ensures var i := RowIndex(old(store.rows), id);
            if i < 0 then r == Err(NotFound) && store.rows == old(store.rows)
            else r == Ok(old(store.rows)[i].(data := old(store.rows)[i].data + data))
                 && store.rows == old(store.rows)[i := r.value]
    ensures r.Ok? ==> GetById(store.rows, id) == r && forall f :: f in data ==> r.value.data[f] == data[f]
  {
    var i := RowIndex(store.rows, id);
    if i < 0 {
      return Err(NotFound);
    }
    var row := store.Update(i, data);
    RowIndexOfRow(store.rows, store.nextId, i);
    r := Ok(row);
  }

  /** `delete`: refused for a missing row; otherwise the row is removed and `true` returned. */
  method Delete(store: Store, id: nat) returns (r: Result<bool>)
    requires store.Valid()
    modifies store
    ensures store.Valid() && store.users == old(store.users) && store.nextId == old(store.nextId)
    ensures var i := RowIndex(old(store.rows), id);
            if i < 0 then r == Err(NotFound) && store.rows == old(store.rows)
            else r == Ok(true) && store.rows == old(store.rows)[..i] + old(store.rows)[i + 1..]
    ensures r.Ok? ==> GetById(store.rows, id) == Err(NotFound)
  {
    var i := RowIndex(store.rows, id);
    if i < 0 {
      return Err(NotFound);
    }
    ghost var before := store.rows;
    store.Delete(i);
    assert forall k :: 0 <= k < |store.rows| ==> store.rows[k] == if k < i then before[k] else before[k + 1];
    r := Ok(true);
  }
}
