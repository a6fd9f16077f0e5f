/**
 * The exercises of a training: each row links one training to one exercise. Create and
 * update refuse a (training, exercise) pair another row already holds, so the table never
 * links the same exercise to the same training twice.
 */
module TrainingExercise {
  import opened Wrappers

  const TrainingNotFound := "Treino não encontrado"
  const ExerciseNotFound := "Exercício não encontrado"
  const AlreadyLinked := "Este exercício já está associado a este treino"
  const LinkNotFound := "Exercício de treino não encontrado"
  const PairTaken := "Esta combinação de treino e exercício já existe"

  datatype Link = Link(id: nat, trainingId: nat, exerciseId: nat)

  predicate IdsFresh(links: seq<Link>, next: nat) {
    (forall i, j :: 0 <= i < j < |links| ==> links[i].id != links[j].id)
    && forall i :: 0 <= i < |links| ==> links[i].id < next
  }

  /** No two rows hold the same (training, exercise) pair. */
  predicate PairsUnique(links: seq<Link>) {
    forall i, j :: 0 <= i < j < |links| ==>
      (links[i].trainingId, links[i].exerciseId) != (links[j].trainingId, links[j].exerciseId)
  }

  /** `findByTrainingAndExercise`: the index of the first row holding the pair, or -1. */
  function PairIndex(links: seq<Link>, trainingId: nat, exerciseId: nat): (i: int)
    ensures -1 <= i < |links|
    ensures i < 0 <==> forall k :: 0 <= k < |links| ==>
                        !(links[k].trainingId == trainingId && links[k].exerciseId == exerciseId)
    ensures i >= 0 ==> links[i].trainingId == trainingId && links[i].exerciseId == exerciseId
    decreases |links|
  {
    if |links| == 0 then -1
    else if links[0].trainingId == trainingId && links[0].exerciseId == exerciseId then 0
    else
      var j := PairIndex(links[1..], trainingId, exerciseId);
      if j < 0 then -1 else j + 1
  }

  /** `findById`: the index of the row with that id, or -1. */
  function LinkIndex(links: seq<Link>, id: nat): (i: int)
    ensures -1 <= i < |links|
    ensures i < 0 <==> forall k :: 0 <= k < |links| ==> links[k].id != id
    ensures i >= 0 ==> links[i].id == id
    decreases |links|
  {
    if |links| == 0 then -1
    else if links[0].id == id then 0
    else
      var j := LinkIndex(links[1..], id);
      if j < 0 then -1 else j + 1
  }

  /** The link table with the trainings and exercises it may refer to. */
  class Table {
    var trainings: set<nat>
    var exercises: set<nat>
    var links: seq<Link>
    var nextId: nat

    predicate Valid()
      reads this
    {
      IdsFresh(links, nextId)
    }

    constructor (trainings: set<nat>, exercises: set<nat>)
      ensures Valid() && this.trainings == trainings && this.exercises == exercises && links == []
    {
      this.trainings := trainings;
      this.exercises := exercises;
      links := [];
      nextId := 0;
    }

    /** `trainingExercise.create({ data })` with a fresh id. */
    method Insert(trainingId: nat, exerciseId: nat) returns (row: Link)
      requires Valid()
      modifies this
      ensures Valid() && row == Link(old(nextId), trainingId, exerciseId)
      ensures links == old(links) + [row]
      ensures trainings == old(trainings) && exercises == old(exercises)
    {
      row := Link(nextId, trainingId, exerciseId);
      links := links + [row];
      nextId := nextId + 1;
    }

    /** `trainingExercise.update({ where: { id }, data })` on a row known to exist. */
    method Set(i: nat, row: Link)
      requires Valid() && i < |links| && row.id == links[i].id
      modifies this
      ensures Valid() && links == old(links)[i := row]
      ensures trainings == old(trainings) && exercises == old(exercises) && nextId == old(nextId)
    {
      links := links[i := row];
    }

    /** `trainingExercise.delete({ where: { id } })` on a row known to exist. */
    method Remove(i: nat)
      requires Valid() && i < |links|
      modifies this
      ensures Valid() && links == old(links)[..i] + old(links)[i + 1..]
      ensures trainings == old(trainings) && exercises == old(exercises) && nextId == old(nextId)
    {
      ghost var before := links;
      links := links[..i] + links[i + 1..];
      assert forall k :: 0 <= k < |links| ==> links[k] == if k < i then before[k] else before[k + 1];
    }
  }

  /** Appending a row whose pair no row holds keeps the pairs unique. */
  lemma PairsUniqueAppend(links: seq<Link>, row: Link)
    requires PairsUnique(links) && PairIndex(links, row.trainingId, row.exerciseId) < 0
    ensures PairsUnique(links + [row])
  {
    var r := links + [row];
    forall i, j | 0 <= i < j < |r|
      ensures (r[i].trainingId, r[i].exerciseId) != (r[j].trainingId, r[j].exerciseId)
    {
      if j == |links| {
        assert r[i] == links[i];
      } else {
        assert r[i] == links[i] && r[j] == links[j];
      }
    }
  }

  /** Rewriting row `i` with a pair no other row holds keeps the pairs unique. */
  lemma PairsUniqueSet(links: seq<Link>, i: nat, row: Link)
    requires PairsUnique(links) && i < |links|
    requires forall k :: 0 <= k < |links| && k != i ==>
               (links[k].trainingId, links[k].exerciseId) != (row.trainingId, row.exerciseId)
    ensures PairsUnique(links[i := row])
  {
  }

  /** Removing a row keeps the pairs unique. */
  lemma PairsUniqueRemove(links: seq<Link>, i: nat)
    requires PairsUnique(links) && i < |links|
    ensures PairsUnique(links[..i] + links[i + 1..])
  {
    var r := links[..i] + links[i + 1..];
    assert forall k :: 0 <= k < |r| ==> r[k] == if k < i then links[k] else links[k + 1];
  }

  /** `create`: the training, then the exercise must exist, then the pair must be free. */
  method Create(t: Table, trainingId: nat, exerciseId: nat) returns (r: Result<Link>)
    requires t.Valid()
    modifies t
    ensures t.Valid() && t.trainings == old(t.trainings) && t.exercises == old(t.exercises)
    ensures trainingId !in old(t.trainings) ==> r == Err(TrainingNotFound)
    ensures trainingId in old(t.trainings) && exerciseId !in old(t.exercises) ==> r == Err(ExerciseNotFound)
    ensures (trainingId in old(t.trainings) && exerciseId in old(t.exercises)
             && PairIndex(old(t.links), trainingId, exerciseId) >= 0) ==> r == Err(AlreadyLinked)
    ensures r.Err? ==> t.links == old(t.links)
    ensures r.Ok? ==> trainingId in old(t.trainings) && exerciseId in old(t.exercises)
                      && PairIndex(old(t.links), trainingId, exerciseId) < 0
                      && r.value == Link(old(t.nextId), trainingId, exerciseId)
                      && t.links == old(t.links) + [r.value]
    ensures PairsUnique(old(t.links)) ==> PairsUnique(t.links)
  {
    if trainingId !in t.trainings {
      return Err(TrainingNotFound);
    }
    if exerciseId !in t.exercises {
      return Err(ExerciseNotFound);
    }
    if PairIndex(t.links, trainingId, exerciseId) >= 0 {
      return Err(AlreadyLinked);
    }
    if PairsUnique(t.links) {
      PairsUniqueAppend(t.links, Link(t.nextId, trainingId, exerciseId));
    }
    var row := t.Insert(trainingId, exerciseId);
    r := Ok(row);
  }

  /** `findById`: the row with that id, or the not-found error. */
  function FindById(links: seq<Link>, id: nat): (r: Result<Link>)
    ensures r.Ok? <==> exists k :: 0 <= k < |links| && links[k].id == id
    ensures r.Ok? ==> r.value in links && r.value.id == id
    ensures r.Err? ==> r.message == LinkNotFound
  {
    var i := LinkIndex(links, id);
    if i < 0 then Err(LinkNotFound) else Ok(links[i])
  }

  /** The pair an update aims at: each given id, or the row's current one. */
  function TargetPair(row: Link, trainingId: Option<nat>, exerciseId: Option<nat>): (nat, nat) {
    (trainingId.GetOr(row.trainingId), exerciseId.GetOr(row.exerciseId))
  }

  /** The update's pair check fails: some other row holds the target pair. */
  predicate PairClash(links: seq<Link>, id: nat, target: (nat, nat)) {
    var k := PairIndex(links, target.0, target.1);
    k >= 0 && links[k].id != id
  }

  /**
   * `update`: the row must exist, a given training and a given exercise must exist, and when
   * either id is given, no other row may hold the target pair.
   */
  method Update(t: Table, id: nat, trainingId: Option<nat>, exerciseId: Option<nat>) returns (r: Result<Link>)
    requires t.Valid()
    modifies t
    ensures t.Valid() && t.trainings == old(t.trainings) && t.exercises == old(t.exercises)
    ensures var i := LinkIndex(old(t.links), id);
            if i < 0 then r == Err(LinkNotFound) && t.links == old(t.links)
            else if trainingId.Some? && trainingId.value !in old(t.trainings) then
              r == Err(TrainingNotFound) && t.links == old(t.links)
            else if exerciseId.Some? && exerciseId.value !in old(t.exercises) then
              r == Err(ExerciseNotFound) && t.links == old(t.links)
            else if (trainingId.Some? || exerciseId.Some?)
                    && PairClash(old(t.links), id, TargetPair(old(t.links)[i], trainingId, exerciseId)) then
              r == Err(PairTaken) && t.links == old(t.links)
            else
              var target := TargetPair(old(t.links)[i], trainingId, exerciseId);
              r == Ok(Link(id, target.0, target.1)) && t.links == old(t.links)[i := r.value]
    ensures PairsUnique(old(t.links)) ==> PairsUnique(t.links)
  {
    var i := LinkIndex(t.links, id);
    if i < 0 {
      return Err(LinkNotFound);
    }
    if trainingId.Some? && trainingId.value !in t.trainings {
      return Err(TrainingNotFound);
    }
    if exerciseId.Some? && exerciseId.value !in t.exercises {
      return Err(ExerciseNotFound);
    }
    var current := t.links[i];
    var target := TargetPair(current, trainingId, exerciseId);
    if trainingId.Some? || exerciseId.Some? {
      if PairClash(t.links, id, target) {
        return Err(PairTaken);
      }
    }
    var row := Link(id, target.0, target.1);
    if PairsUnique(t.links) {
      UpdateKeepsPairsUnique(t.links, t.nextId, i, trainingId, exerciseId);
    }
    t.Set(i, row);
    r := Ok(row);
  }

  /**
   * The pair check is enough: when it passes (or is skipped because neither id is given),
   * the rewritten row's pair is held by no other row.
   */
  lemma UpdateKeepsPairsUnique(links: seq<Link>, next: nat, i: nat, trainingId: Option<nat>, exerciseId: Option<nat>)
    requires PairsUnique(links) && IdsFresh(links, next) && i < |links|
    requires var target := TargetPair(links[i], trainingId, exerciseId);
             (trainingId.Some? || exerciseId.Some?) ==> !PairClash(links, links[i].id, target)
    ensures var target := TargetPair(links[i], trainingId, exerciseId);
            PairsUnique(links[i := Link(links[i].id, target.0, target.1)])
    ensures !PairClash(links, links[i].id, (links[i].trainingId, links[i].exerciseId))
  {
    var target := TargetPair(links[i], trainingId, exerciseId);
    var row := Link(links[i].id, target.0, target.1);
    PairsUniqueSet(links, i, row);
  }

  /** `delete`: the row must exist; then exactly that row is removed. */
  method Delete(t: Table, id: nat) returns (r: Result<bool>)
    requires t.Valid()
    modifies t
    ensures t.Valid() && t.trainings == old(t.trainings) && t.exercises == old(t.exercises)
    ensures var i := LinkIndex(old(t.links), id);
            if i < 0 then r == Err(LinkNotFound) && t.links == old(t.links)
            else r == Ok(true) && t.links == old(t.links)[..i] + old(t.links)[i + 1..]
    ensures PairsUnique(old(t.links)) ==> PairsUnique(t.links)
  {
    var i := LinkIndex(t.links, id);
    if i < 0 {
      return Err(LinkNotFound);
    }
    if PairsUnique(t.links) {
      PairsUniqueRemove(t.links, i);
    }
    t.Remove(i);
    r := Ok(true);
  }
}
