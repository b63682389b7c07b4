/** panelist/services/rubrics.py: immutable versions; untouched queued tasks follow the newest one. */
module Rubrics {
  import opened Wrappers
  import opened Model

  /** MAX(version) over the rubrics of one name. */
  function LatestVersion(rubrics: seq<Rubric>, name: string): (r: Option<int>)
    ensures r.Some? <==> exists x <- rubrics :: x.name == name
    ensures r.Some? ==> forall x <- rubrics :: x.name == name ==> x.version <= r.value
  {
    if rubrics == [] then None else
      var last, rest := rubrics[|rubrics| - 1], LatestVersion(rubrics[..|rubrics| - 1], name);
      assert forall x <- rubrics :: x == last || x in rubrics[..|rubrics| - 1];
      if last.name != name then rest
      else if rest == None || last.version > rest.value then Some(last.version) else rest
  }

  /** The unique constraint on (name, version). */
  predicate Taken(rubrics: seq<Rubric>, name: string, version: int) {
    exists x <- rubrics :: x.name == name && x.version == version
  }

  predicate DistinctKeys(cs: seq<Criterion>) {
    forall i, j :: 0 <= i < j < |cs| ==> cs[i].key != cs[j].key
  }

  function Create(s: State, name: string, version: int, criteria: seq<Criterion>): (r: Result<State>) {
    if criteria == [] then Err(Service(422))
    else if Taken(s.rubrics, name, version) || !DistinctKeys(criteria) then Err(Integrity)
    else Ok(s.(rubrics := s.rubrics + [Rubric(name, version, criteria, None)]))
  }

  function Retargeted(task: Task, from: RubricId, to: RubricId): (r: Task) {
    if task.rubric == from && task.status == Queued && task.received == 0 then task.(rubric := to) else task
  }

  function RetargetedRows(tasks: seq<Task>, from: RubricId, to: RubricId): (r: seq<Task>)
    ensures |r| == |tasks|
  {
    seq(|tasks|, i requires 0 <= i < |tasks| => Retargeted(tasks[i], from, to))
  }

  function Publish(s: State, previous: RubricId, criteria: seq<Criterion>): (r: Result<State>) {
    if criteria == [] then Err(Service(422))
    else if previous >= |s.rubrics| then Err(Service(404))
    else if s.rubrics[previous].supersededBy.Some? then Err(Service(409))
    else
      var was := s.rubrics[previous];
      assert was in s.rubrics;
      var version := LatestVersion(s.rubrics, was.name).value + 1;
      if Taken(s.rubrics, was.name, version) || !DistinctKeys(criteria) then Err(Integrity) else
        Ok(s.(rubrics := s.rubrics[previous := was.(supersededBy := Some(|s.rubrics|))]
                         + [Rubric(was.name, version, criteria, None)],
              tasks := RetargetedRows(s.tasks, previous, |s.rubrics|)))
  }

  /** Open tasks of the version, and those of them that follow a newer one. */
  function CountOpen(tasks: seq<Task>, r: RubricId): (n: nat) {
    if tasks == [] then 0 else
      var last := tasks[|tasks| - 1];
      CountOpen(tasks[..|tasks| - 1], r)
      + if last.rubric == r && (last.status == Queued || last.status == Assigned) then 1 else 0
  }

  function CountUntouched(tasks: seq<Task>, r: RubricId): (n: nat) {
    if tasks == [] then 0 else
      var last := tasks[|tasks| - 1];
      CountUntouched(tasks[..|tasks| - 1], r)
      + if last.rubric == r && last.status == Queued && last.received == 0 then 1 else 0
  }

  /** Every open task of the version either follows the new one or is counted as staying behind. */
  lemma {:induction false} OpenSplits(tasks: seq<Task>, from: RubricId, to: RubricId)
    requires from != to && forall i | 0 <= i < |tasks| :: tasks[i].rubric != to
    ensures CountOpen(tasks, from)
         == CountUntouched(tasks, from) + CountOpen(RetargetedRows(tasks, from, to), from)
    ensures CountOpen(RetargetedRows(tasks, from, to), to) == CountUntouched(tasks, from)
  {
    if tasks != [] {
      var front := tasks[..|tasks| - 1];
      OpenSplits(front, from, to);
      assert RetargetedRows(tasks, from, to)[..|tasks| - 1] == RetargetedRows(front, from, to);
    }
  }

  datatype Published = Published(rubric: RubricId, migrated: nat, openOnPrevious: nat)

  method PublishVersion(db: Session, previous: RubricId, criteria: seq<Criterion>) returns (r: Result<Published>)
    modifies db
    ensures match Publish(old(db.Snapshot()), previous, criteria)
            case Ok(s) =>
              && db.Snapshot() == s
              && r == Ok(Published(old(|db.rubrics|), CountUntouched(old(db.tasks), previous),
                                   CountOpen(s.tasks, previous)))
            case Err(e) => r == Err(e)
  {
    if criteria == [] {
      return Err(Service(422));
    }
    if previous >= |db.rubrics| {
      return Err(Service(404));
    }
    var was := db.rubrics[previous];
    if was.supersededBy.Some? {
      return Err(Service(409));
    }
    assert was in db.rubrics;
    var latest := LatestVersion(db.rubrics, was.name).value;
    if Taken(db.rubrics, was.name, latest + 1) || !DistinctKeys(criteria) {
      return Err(Integrity);
    }
    var id := |db.rubrics|;
    db.rubrics := db.rubrics + [Rubric(was.name, latest + 1, criteria, None)];
    db.rubrics := db.rubrics[previous := was.(supersededBy := Some(id))];
    var migrated := CountUntouched(db.tasks, previous);
    db.tasks := RetargetedRows(db.tasks, previous, id);
    return Ok(Published(id, migrated, CountOpen(db.tasks, previous)));
  }

  /** The next version number is never taken, so publishing fails only on the guards before it. */
  lemma PublishNeverCollides(s: State, previous: RubricId, criteria: seq<Criterion>)
    requires previous < |s.rubrics| && criteria != [] && DistinctKeys(criteria)
    ensures Publish(s, previous, criteria).Ok? <==> s.rubrics[previous].supersededBy == None
  {
  }
}
