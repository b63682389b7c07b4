/** What the requests that create rows write, and when they are refused. */
module Creations {
  import opened Wrappers
  import opened Model
  import Rubrics
  import Service

  /** A new task is queued, ungraded and unleased, with the columns of its input. */
  lemma TaskMeans(s: State, input: Service.TaskInput)
    ensures var r := Service.AddTask(s, input);
            if input.tags == {} || input.required < 1 || input.required > 5 then r == Err(Service(422))
            else if input.rubric < |s.rubrics| && s.rubrics[input.rubric].supersededBy != None
            then r == Err(Service(409))
            else if input.golden && |input.expected| == 0 then r == Err(Service(422))
            else if input.rubric >= |s.rubrics| then r == Err(Integrity)
            else
              && r.Ok? && r.value == s.(tasks := r.value.tasks) && |r.value.tasks| == |s.tasks| + 1
              && (forall t | 0 <= t < |s.tasks| :: r.value.tasks[t] == s.tasks[t])
              && var task := r.value.tasks[|s.tasks|];
                 && task.tags == input.tags && task.kind == input.kind && task.minTier == input.minTier
                 && task.rubric == input.rubric && task.priority == input.priority && task.deadline == input.deadline
                 && task.required == input.required && task.golden == input.golden && task.expected == input.expected
                 && task.status == Queued && task.received == 0 && task.pinned == None && task.holder == None
                 && task.assignedAt == None && task.lease == None && task.reclaims == 0 && task.history == []
  {
  }

  /** A new expert is active, with nothing served and nothing scored. */
  lemma ExpertMeans(s: State, tags: set<Tag>, tier: Tier, rate: Option<int>)
    ensures var r := Service.AddExpert(s, tags, tier, rate);
            if tags == {} then r == Err(Service(422))
            else
              && r.Ok? && r.value == s.(experts := r.value.experts) && |r.value.experts| == |s.experts| + 1
              && (forall e | 0 <= e < |s.experts| :: r.value.experts[e] == s.experts[e])
              && var x := r.value.experts[|s.experts|];
                 && x.tags == tags && x.tier == tier && x.rate == rate && x.status == Active && x.served == 0
                 && x.calibration == None && x.samples == 0
  {
  }

  /** A rate card replaces the one of its tier and type and no other. */
  lemma CardMeans(s: State, tier: Tier, kind: string, cents: int)
    ensures var r := Service.AddRateCard(s, tier, kind, cents);
            if cents < 0 then r == Err(Service(422))
            else
              && r.Ok? && r.value == s.(cards := r.value.cards)
              && (tier, kind) in r.value.cards && r.value.cards[(tier, kind)] == cents
              && forall other | other != (tier, kind) ::
                   (other in r.value.cards <==> other in s.cards)
                   && (other in s.cards ==> r.value.cards[other] == s.cards[other])
  {
  }

  predicate KeyTwice(criteria: seq<Criterion>) {
    exists i, j :: 0 <= i < j < |criteria| && criteria[i].key == criteria[j].key
  }

  /** A first version has the name, number and criteria given, unless its number is taken or a key comes twice. */
  lemma RubricMeans(s: State, name: string, version: int, criteria: seq<Criterion>)
    ensures var r := Rubrics.Create(s, name, version, criteria);
            if criteria == [] then r == Err(Service(422))
            else if KeyTwice(criteria) || exists x <- s.rubrics :: x.name == name && x.version == version
            then r == Err(Integrity)
            else
              && r.Ok? && r.value == s.(rubrics := r.value.rubrics) && |r.value.rubrics| == |s.rubrics| + 1
              && (forall k | 0 <= k < |s.rubrics| :: r.value.rubrics[k] == s.rubrics[k])
              && var x := r.value.rubrics[|s.rubrics|];
                 && x.name == name && x.version == version && x.criteria == criteria && x.supersededBy == None
  {
  }

  /**
   * A published version has the criteria given, the name of the one before and the next number of that name; the one
   * before points to it and keeps its own criteria.
   */
  lemma PublishMeans(s: State, previous: RubricId, criteria: seq<Criterion>)
    ensures var r := Rubrics.Publish(s, previous, criteria);
            if criteria == [] then r == Err(Service(422))
            else if previous >= |s.rubrics| then r == Err(Service(404))
            else if s.rubrics[previous].supersededBy != None then r == Err(Service(409))
            else if KeyTwice(criteria) then r == Err(Integrity)
            else
              && r.Ok? && r.value == s.(rubrics := r.value.rubrics, tasks := r.value.tasks)
              && |r.value.rubrics| == |s.rubrics| + 1
              && (forall k | 0 <= k < |s.rubrics| && k != previous :: r.value.rubrics[k] == s.rubrics[k])
              && var was, before, added := s.rubrics[previous], r.value.rubrics[previous], r.value.rubrics[|s.rubrics|];
                 && before.name == was.name && before.version == was.version && before.criteria == was.criteria
                 && before.supersededBy == Some(|s.rubrics|)
                 && added.name == was.name && added.criteria == criteria && added.supersededBy == None
                 && (forall x <- s.rubrics :: x.name == was.name ==> x.version < added.version)
                 && (exists x <- s.rubrics :: x.name == was.name && x.version + 1 == added.version)
  {
    if previous < |s.rubrics| {
      LatestAttained(s.rubrics, s.rubrics[previous].name, previous);
    }
  }

  lemma {:induction false} LatestAttained(rubrics: seq<Rubric>, name: string, k: RubricId)
    requires k < |rubrics| && rubrics[k].name == name
    ensures Rubrics.LatestVersion(rubrics, name).Some?
    ensures exists x <- rubrics :: x.name == name && x.version == Rubrics.LatestVersion(rubrics, name).value
  {
    var front, last := rubrics[..|rubrics| - 1], rubrics[|rubrics| - 1];
    assert rubrics == front + [last];
    assert rubrics[k] in rubrics;
    if j :| 0 <= j < |front| && front[j].name == name {
      LatestAttained(front, name, j);
    }
    assert last in rubrics;
  }
}
