/** The plan's entities as the generators build them and the hooks and the CSV
    exporter read them: questionnaire responses, deliverables with their
    subtasks, the flattened task rows and the milestones. */
module PlanModel {
  import opened Common

  /** Phase names; any other string a task may carry is `OtherPhase`. */
  datatype Phase = Clarity | Implementation | Adoption | OtherPhase(name: string)

  /** Priority names; any other string is `OtherPriority`. */
  datatype Priority = High | Medium | Low | OtherPriority(name: string)

  /** A subtask. `module` is absent (`None`) when the source object has no
      `module` property; `milestone`, `parentTask` and `assignee` are '' when
      the source leaves them unset. */
  datatype Subtask = Subtask(
    id: nat,
    title: string,
    description: string,
    hours: int,
    priority: Priority,
    phase: Phase,
    moduleName: Option<string>,
    milestone: string,
    parentTask: string,
    assignee: string)

  /** A deliverable: a top-level task that owns an ordered list of subtasks. */
  datatype Deliverable = Deliverable(
    id: nat,
    title: string,
    description: string,
    hours: int,
    priority: Priority,
    phase: Phase,
    moduleName: Option<string>,
    milestone: string,
    isCustom: bool,
    assignee: string,
    subtasks: seq<Subtask>)

  datatype TaskType = DeliverableRow | SubtaskRow

  /** One row of the flat task list that feeds the task CSV. */
  datatype FlatTask = FlatTask(
    id: nat,
    title: string,
    description: string,
    hours: int,
    priority: Priority,
    phase: Phase,
    moduleName: string,
    milestone: string,
    taskType: TaskType,
    parentTask: string,
    assignee: string,
    isCustom: bool)

  datatype Milestone = Milestone(phase: Phase, name: string, order: int)

  /** An entry of the `module_hours` object, kept in insertion order. */
  datatype ModuleEntry = ModuleEntry(name: string, hours: int)

  datatype CustomModule = CustomModule(name: string, description: string, hours: int)

  /** The questionnaire response record. Numbers are integers; a date is a day
      number, absent when the response holds ''. */
  datatype Responses = Responses(
    projectName: string,
    clientName: string,
    language: string,
    projectManager: string,
    teamMembers: seq<string>,
    startDate: Option<int>,
    deadline: Option<int>,
    clarityPhase: bool,
    clarityHours: int,
    implementationPhase: bool,
    adoptionPhase: bool,
    trainingHours: int,
    goLiveHours: int,
    supportHoursPerMonth: int,
    supportMonths: int,
    moduleHours: seq<ModuleEntry>,
    customModules: seq<CustomModule>,
    integrations: string,
    integrationList: string,
    multiWarehouse: string,
    warehouseCount: int,
    selectedTemplate: Option<string>)

  predicate IsSpanish(r: Responses)
  {
    r.language == "Spanish"
  }

  /** Picks the Spanish or the English text. */
  function Loc(spanish: bool, es: string, en: string): string
  {
    if spanish then es else en
  }

  /** The keys of `module_hours` are distinct. */
  ghost predicate DistinctKeys(entries: seq<ModuleEntry>)
  {
    forall i, j | 0 <= i < j < |entries| :: entries[i].name != entries[j].name
  }

  // ---------------------------------------------------------------------
  // Ids, counts and hours of a deliverable list, in generation order
  // ---------------------------------------------------------------------

  function SubtaskIds(sts: seq<Subtask>): (r: seq<int>)
    ensures |r| == |sts|
    ensures forall j | 0 <= j < |sts| :: r[j] == sts[j].id
  {
    if sts == [] then [] else SubtaskIds(sts[..|sts| - 1]) + [sts[|sts| - 1].id]
  }

  /** Every id of the list in the order the generator hands them out: each
      deliverable's own id, then its subtasks' ids. */
  function Ids(ds: seq<Deliverable>): seq<int>
  {
    if ds == [] then []
    else Ids(ds[..|ds| - 1]) + [ds[|ds| - 1].id] + SubtaskIds(ds[|ds| - 1].subtasks)
  }

  /** The ids of one deliverable and its subtasks. */
  function OwnIds(d: Deliverable): seq<int>
  {
    [d.id] + SubtaskIds(d.subtasks)
  }

  function SubtaskCount(ds: seq<Deliverable>): nat
  {
    if ds == [] then 0 else SubtaskCount(ds[..|ds| - 1]) + |ds[|ds| - 1].subtasks|
  }

  /** Sum of the deliverables' own `allocated_hours`. */
  function TotalHours(ds: seq<Deliverable>): int
  {
    if ds == [] then 0 else TotalHours(ds[..|ds| - 1]) + ds[|ds| - 1].hours
  }

  /** Sum of a subtask list's `allocated_hours`. */
  function SubtaskHours(sts: seq<Subtask>): int
  {
    if sts == [] then 0 else SubtaskHours(sts[..|sts| - 1]) + sts[|sts| - 1].hours
  }

  lemma {:induction false} IdsLength(ds: seq<Deliverable>)
    ensures |Ids(ds)| == |ds| + SubtaskCount(ds)
    decreases |ds|
  {
    if ds != [] { IdsLength(ds[..|ds| - 1]); }
  }

  lemma {:induction false} IdsAppend(a: seq<Deliverable>, b: seq<Deliverable>)
    ensures Ids(a + b) == Ids(a) + Ids(b)
    decreases |b|
  {
    if b == [] {
      assert a + b == a;
    } else {
      assert (a + b)[..|a + b| - 1] == a + b[..|b| - 1];
      IdsAppend(a, b[..|b| - 1]);
    }
  }

  lemma IdsSingle(d: Deliverable)
    ensures Ids([d]) == OwnIds(d)
  {
    assert [d][..0] == [];
  }

  lemma {:induction false} SubtaskCountAppend(a: seq<Deliverable>, b: seq<Deliverable>)
    ensures SubtaskCount(a + b) == SubtaskCount(a) + SubtaskCount(b)
    decreases |b|
  {
    if b == [] {
      assert a + b == a;
    } else {
      assert (a + b)[..|a + b| - 1] == a + b[..|b| - 1];
      SubtaskCountAppend(a, b[..|b| - 1]);
    }
  }

  lemma {:induction false} TotalHoursAppend(a: seq<Deliverable>, b: seq<Deliverable>)
    ensures TotalHours(a + b) == TotalHours(a) + TotalHours(b)
    decreases |b|
  {
    if b == [] {
      assert a + b == a;
    } else {
      assert (a + b)[..|a + b| - 1] == a + b[..|b| - 1];
      TotalHoursAppend(a, b[..|b| - 1]);
    }
  }

  lemma {:induction false} SubtaskHoursAppend(a: seq<Subtask>, b: seq<Subtask>)
    ensures SubtaskHours(a + b) == SubtaskHours(a) + SubtaskHours(b)
    decreases |b|
  {
    if b == [] {
      assert a + b == a;
    } else {
      assert (a + b)[..|a + b| - 1] == a + b[..|b| - 1];
      SubtaskHoursAppend(a, b[..|b| - 1]);
    }
  }

  /** Ids, hours and counts of short lists written out. */
  lemma Ids3(a: Deliverable, b: Deliverable, c: Deliverable)
    ensures Ids([a, b, c]) == OwnIds(a) + OwnIds(b) + OwnIds(c)
    ensures TotalHours([a, b, c]) == a.hours + b.hours + c.hours
    ensures SubtaskCount([a, b, c]) == |a.subtasks| + |b.subtasks| + |c.subtasks|
  {
    assert [a][..0] == [];
    assert Ids([a]) == OwnIds(a) && TotalHours([a]) == a.hours && SubtaskCount([a]) == |a.subtasks|;
    assert [a, b][..1] == [a];
    assert Ids([a, b]) == OwnIds(a) + OwnIds(b);
    assert [a, b, c][..2] == [a, b];
  }

  lemma SubtaskHours2(a: Subtask, b: Subtask)
    ensures SubtaskHours([a, b]) == a.hours + b.hours
    ensures SubtaskIds([a, b]) == [a.id, b.id]
  {
    assert [a][..0] == [];
    assert SubtaskHours([a]) == a.hours;
    assert [a, b][..1] == [a];
  }

  lemma SubtaskHours3(a: Subtask, b: Subtask, c: Subtask)
    ensures SubtaskHours([a, b, c]) == a.hours + b.hours + c.hours
    ensures SubtaskIds([a, b, c]) == [a.id, b.id, c.id]
  {
    assert [a, b, c][..2] == [a, b];
    SubtaskHours2(a, b);
  }

  lemma SubtaskHours4(a: Subtask, b: Subtask, c: Subtask, d: Subtask)
    ensures SubtaskHours([a, b, c, d]) == a.hours + b.hours + c.hours + d.hours
    ensures SubtaskIds([a, b, c, d]) == [a.id, b.id, c.id, d.id]
  {
    assert [a, b, c, d][..3] == [a, b, c];
    SubtaskHours3(a, b, c);
  }

  // ---------------------------------------------------------------------
  // Hour budgets of the responses
  // ---------------------------------------------------------------------

  /** Sum of the `module_hours` values. */
  function ModuleHoursTotal(entries: seq<ModuleEntry>): int
  {
    if entries == [] then 0 else ModuleHoursTotal(entries[..|entries| - 1]) + entries[|entries| - 1].hours
  }

  /** Sum of the custom modules' hours. */
  function CustomHoursTotal(cms: seq<CustomModule>): int
  {
    if cms == [] then 0 else CustomHoursTotal(cms[..|cms| - 1]) + cms[|cms| - 1].hours
  }

  lemma {:induction false} ModuleHoursTotalAppend(a: seq<ModuleEntry>, b: seq<ModuleEntry>)
    ensures ModuleHoursTotal(a + b) == ModuleHoursTotal(a) + ModuleHoursTotal(b)
    decreases |b|
  {
    if b == [] {
      assert a + b == a;
    } else {
      assert (a + b)[..|a + b| - 1] == a + b[..|b| - 1];
      ModuleHoursTotalAppend(a, b[..|b| - 1]);
    }
  }

  lemma {:induction false} CustomHoursTotalAppend(a: seq<CustomModule>, b: seq<CustomModule>)
    ensures CustomHoursTotal(a + b) == CustomHoursTotal(a) + CustomHoursTotal(b)
    decreases |b|
  {
    if b == [] {
      assert a + b == a;
    } else {
      assert (a + b)[..|a + b| - 1] == a + b[..|b| - 1];
      CustomHoursTotalAppend(a, b[..|b| - 1]);
    }
  }
}
