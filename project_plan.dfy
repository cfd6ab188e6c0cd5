/** `useProjectPlan`: the state the planner keeps about a generated plan. The
    deliverables and flat task rows are kept as generated; a deleted task
    stays in both lists and is only hidden from the active views, so it can
    be restored. Hours and assignee edits rewrite the rows with the edited
    id. */
module ProjectPlanState {
  import opened Common
  import opened PlanModel
  import opened PlanWording
  import opened Assignment
  import opened FlatTasks
  import opened PlanGenerator

  /** The `plan` object of the hook: the generated plan without its
      deliverables and rows, which the hook keeps apart. */
  datatype StoredPlan = StoredPlan(projectInfo: ProjectInfo, stats: PlanStats, milestones: seq<Milestone>)

  /** The statistics of the active views. */
  datatype ActiveStats = ActiveStats(
    deliverableCount: nat,
    subtaskCount: nat,
    totalTasks: nat,
    totalHours: int,
    deletedCount: nat)

  // ---------------------------------------------------------------------
  // The id sets
  // ---------------------------------------------------------------------

  /** The set with `id` added when it is missing and removed when present. */
  function Toggled(s: set<int>, id: int): (r: set<int>)
    ensures id in r <==> id !in s
    ensures r - {id} == s - {id}
  {
    if id in s then s - {id} else s + {id}
  }

  /** Toggling twice leaves the set as it was. */
  lemma ToggleTwice(s: set<int>, id: int)
    ensures Toggled(Toggled(s, id), id) == s
  {
    var t := Toggled(s, id);
    assert Toggled(t, id) - {id} == s - {id};
    assert id in Toggled(t, id) <==> id in s;
  }

  /** Deleting an id that was not deleted and restoring it gives back the
      set; deleting twice is deleting once. */
  lemma DeleteRestore(s: set<int>, id: int)
    ensures id !in s ==> (s + {id}) - {id} == s
    ensures (s + {id}) + {id} == s + {id}
  {
  }

  /** The ids of a deliverable list, as a set. */
  function DeliverableIdSet(ds: seq<Deliverable>): (r: set<int>)
    ensures forall k | 0 <= k < |ds| :: ds[k].id in r
    ensures forall id | id in r :: exists k | 0 <= k < |ds| :: ds[k].id == id
  {
    if ds == [] then {}
    else DeliverableIdSet(ds[..|ds| - 1]) + {ds[|ds| - 1].id}
  }

  // ---------------------------------------------------------------------
  // Edits of one task
  // ---------------------------------------------------------------------

  /** An edit of a task: new hours or a new assignee. */
  datatype Edit = SetHours(hours: int) | SetAssignee(assignee: string)

  function EditRow(t: FlatTask, e: Edit): FlatTask
  {
    match e
    case SetHours(h) => t.(hours := h)
    case SetAssignee(a) => t.(assignee := a)
  }

  function EditSubtask(st: Subtask, e: Edit): Subtask
  {
    match e
    case SetHours(h) => st.(hours := h)
    case SetAssignee(a) => st.(assignee := a)
  }

  /** An edited deliverable keeps its subtasks as they are. */
  function EditDeliverable(d: Deliverable, e: Edit): Deliverable
  {
    match e
    case SetHours(h) => d.(hours := h)
    case SetAssignee(a) => d.(assignee := a)
  }

  /** The rows with the edit applied to those whose id is `id`. */
  function EditRows(fs: seq<FlatTask>, id: int, e: Edit): (r: seq<FlatTask>)
    ensures |r| == |fs|
  {
    if fs == [] then []
    else
      var t := fs[|fs| - 1];
      EditRows(fs[..|fs| - 1], id, e) + [if t.id == id then EditRow(t, e) else t]
  }

  function EditSubtasks(sts: seq<Subtask>, id: int, e: Edit): (r: seq<Subtask>)
    ensures |r| == |sts|
  {
    if sts == [] then []
    else
      var st := sts[|sts| - 1];
      EditSubtasks(sts[..|sts| - 1], id, e) + [if st.id == id then EditSubtask(st, e) else st]
  }

  /** A deliverable whose id is `id` is edited and keeps its subtasks; the
      subtasks of every other deliverable are edited by id. */
  function EditDeliverables(ds: seq<Deliverable>, id: int, e: Edit): (r: seq<Deliverable>)
    ensures |r| == |ds|
  {
    if ds == [] then []
    else
      var d := ds[|ds| - 1];
      EditDeliverables(ds[..|ds| - 1], id, e)
        + [if d.id == id then EditDeliverable(d, e) else d.(subtasks := EditSubtasks(d.subtasks, id, e))]
  }

  /** Position by position: a row with the edited id is edited, every other
      row is left as it was. */
  lemma {:induction false} EditRowsAt(fs: seq<FlatTask>, id: int, e: Edit, k: nat)
    requires k < |fs|
    ensures EditRows(fs, id, e)[k] == if fs[k].id == id then EditRow(fs[k], e) else fs[k]
    decreases |fs|
  {
    if k < |fs| - 1 {
      EditRowsAt(fs[..|fs| - 1], id, e, k);
    }
  }

  lemma {:induction false} EditSubtasksAt(sts: seq<Subtask>, id: int, e: Edit, k: nat)
    requires k < |sts|
    ensures EditSubtasks(sts, id, e)[k] == if sts[k].id == id then EditSubtask(sts[k], e) else sts[k]
    decreases |sts|
  {
    if k < |sts| - 1 {
      EditSubtasksAt(sts[..|sts| - 1], id, e, k);
    }
  }

  /** Position by position: the deliverable with the edited id gets the edit
      and its subtasks stay as they were (an hours edit does not rescale
      them); any other deliverable keeps its own fields and has its subtasks
      edited by id. */
  lemma {:induction false} EditDeliverablesAt(ds: seq<Deliverable>, id: int, e: Edit, k: nat)
    requires k < |ds|
    ensures var r := EditDeliverables(ds, id, e);
            if ds[k].id == id then r[k] == EditDeliverable(ds[k], e) && r[k].subtasks == ds[k].subtasks
            else r[k] == ds[k].(subtasks := EditSubtasks(ds[k].subtasks, id, e))
    decreases |ds|
  {
    if k < |ds| - 1 {
      EditDeliverablesAt(ds[..|ds| - 1], id, e, k);
    }
  }

  /** An edit never changes an id, so the id sequence of the rows and of the
      deliverables is kept. */
  lemma {:induction false} EditRowsIds(fs: seq<FlatTask>, id: int, e: Edit)
    ensures RowIds(EditRows(fs, id, e)) == RowIds(fs)
    decreases |fs|
  {
    if fs != [] {
      EditRowsIds(fs[..|fs| - 1], id, e);
      var t := fs[|fs| - 1];
      RowIdsAppend(EditRows(fs[..|fs| - 1], id, e), [if t.id == id then EditRow(t, e) else t]);
      RowIdsAppend(fs[..|fs| - 1], [t]);
      assert fs == fs[..|fs| - 1] + [t];
    }
  }

  lemma {:induction false} EditSubtasksIds(sts: seq<Subtask>, id: int, e: Edit)
    ensures SubtaskIds(EditSubtasks(sts, id, e)) == SubtaskIds(sts)
    decreases |sts|
  {
    if sts != [] {
      EditSubtasksIds(sts[..|sts| - 1], id, e);
    }
  }

  lemma {:induction false} EditDeliverablesIds(ds: seq<Deliverable>, id: int, e: Edit)
    ensures Ids(EditDeliverables(ds, id, e)) == Ids(ds)
    decreases |ds|
  {
    if ds != [] {
      EditDeliverablesIds(ds[..|ds| - 1], id, e);
      EditSubtasksIds(ds[|ds| - 1].subtasks, id, e);
    }
  }

  /** An edit of an id no row carries changes nothing. */
  lemma {:induction false} EditRowsAbsent(fs: seq<FlatTask>, id: int, e: Edit)
    requires forall k | 0 <= k < |fs| :: fs[k].id != id
    ensures EditRows(fs, id, e) == fs
    decreases |fs|
  {
    if fs != [] {
      EditRowsAbsent(fs[..|fs| - 1], id, e);
      assert fs == fs[..|fs| - 1] + [fs[|fs| - 1]];
    }
  }

  // ---------------------------------------------------------------------
  // The active views
  // ---------------------------------------------------------------------

  /** The rows whose id is not deleted, in order. */
  function ActiveRows(fs: seq<FlatTask>, deleted: set<int>): seq<FlatTask>
  {
    if fs == [] then []
    else
      var t := fs[|fs| - 1];
      ActiveRows(fs[..|fs| - 1], deleted) + (if t.id in deleted then [] else [t])
  }

  function ActiveSubtasks(sts: seq<Subtask>, deleted: set<int>): seq<Subtask>
  {
    if sts == [] then []
    else
      var st := sts[|sts| - 1];
      ActiveSubtasks(sts[..|sts| - 1], deleted) + (if st.id in deleted then [] else [st])
  }

  /** The deliverable with only its subtasks that are not deleted. */
  function Pruned(d: Deliverable, deleted: set<int>): Deliverable
  {
    d.(subtasks := ActiveSubtasks(d.subtasks, deleted))
  }

  /** The deliverables that are not deleted, each with its deleted subtasks
      left out, in order. */
  function ActiveDeliverablesOf(ds: seq<Deliverable>, deleted: set<int>): seq<Deliverable>
  {
    if ds == [] then []
    else
      var d := ds[|ds| - 1];
      ActiveDeliverablesOf(ds[..|ds| - 1], deleted) + (if d.id in deleted then [] else [Pruned(d, deleted)])
  }

  /** A row is active exactly when it is one of the rows and its id is not
      deleted. */
  lemma {:induction false} ActiveRowsMembers(fs: seq<FlatTask>, deleted: set<int>, t: FlatTask)
    ensures t in ActiveRows(fs, deleted) <==> t in fs && t.id !in deleted
    decreases |fs|
  {
    if fs != [] {
      ActiveRowsMembers(fs[..|fs| - 1], deleted, t);
      assert fs == fs[..|fs| - 1] + [fs[|fs| - 1]];
    }
  }

  /** Filtering keeps the order: the active rows of two lists one after
      the other are the active rows of each. */
  lemma {:induction false} ActiveRowsAppend(a: seq<FlatTask>, b: seq<FlatTask>, deleted: set<int>)
    ensures ActiveRows(a + b, deleted) == ActiveRows(a, deleted) + ActiveRows(b, deleted)
    decreases |b|
  {
    if b == [] {
      assert a + b == a;
    } else {
      assert (a + b)[..|a + b| - 1] == a + b[..|b| - 1];
      ActiveRowsAppend(a, b[..|b| - 1], deleted);
    }
  }

  /** A deliverable is active exactly when it is the pruned copy of a
      deliverable of the list whose id is not deleted. */
  lemma {:induction false} ActiveDeliverablesMembers(ds: seq<Deliverable>, deleted: set<int>, x: Deliverable)
    ensures x in ActiveDeliverablesOf(ds, deleted)
            <==> exists k | 0 <= k < |ds| :: ds[k].id !in deleted && x == Pruned(ds[k], deleted)
    decreases |ds|
  {
    if ds != [] {
      var front := ds[..|ds| - 1];
      ActiveDeliverablesMembers(front, deleted, x);
      if x in ActiveDeliverablesOf(ds, deleted) && x !in ActiveDeliverablesOf(front, deleted) {
        assert ds[|ds| - 1].id !in deleted && x == Pruned(ds[|ds| - 1], deleted);
      }
      if exists k | 0 <= k < |ds| :: ds[k].id !in deleted && x == Pruned(ds[k], deleted) {
        var k :| 0 <= k < |ds| && ds[k].id !in deleted && x == Pruned(ds[k], deleted);
        if k < |ds| - 1 {
          assert front[k] == ds[k];
        }
      }
    }
  }

  lemma ActiveRowsAll(fs: seq<FlatTask>, deleted: set<int>)
    ensures forall t :: t in ActiveRows(fs, deleted) <==> t in fs && t.id !in deleted
  {
    forall t
      ensures t in ActiveRows(fs, deleted) <==> t in fs && t.id !in deleted
    {
      ActiveRowsMembers(fs, deleted, t);
    }
  }

  lemma ActiveDeliverablesAll(ds: seq<Deliverable>, deleted: set<int>)
    ensures forall x :: x in ActiveDeliverablesOf(ds, deleted)
                        <==> exists k | 0 <= k < |ds| :: ds[k].id !in deleted && x == Pruned(ds[k], deleted)
  {
    forall x
      ensures x in ActiveDeliverablesOf(ds, deleted)
              <==> exists k | 0 <= k < |ds| :: ds[k].id !in deleted && x == Pruned(ds[k], deleted)
    {
      ActiveDeliverablesMembers(ds, deleted, x);
    }
  }

  lemma {:induction false} ActiveSubtasksMembers(sts: seq<Subtask>, deleted: set<int>, st: Subtask)
    ensures st in ActiveSubtasks(sts, deleted) <==> st in sts && st.id !in deleted
    decreases |sts|
  {
    if sts != [] {
      ActiveSubtasksMembers(sts[..|sts| - 1], deleted, st);
      assert sts == sts[..|sts| - 1] + [sts[|sts| - 1]];
    }
  }

  /** With nothing deleted the views are the lists themselves. */
  lemma {:induction false} ActiveRowsNone(fs: seq<FlatTask>)
    ensures ActiveRows(fs, {}) == fs
    decreases |fs|
  {
    if fs != [] {
      ActiveRowsNone(fs[..|fs| - 1]);
      assert fs == fs[..|fs| - 1] + [fs[|fs| - 1]];
    }
  }

  lemma {:induction false} ActiveSubtasksNone(sts: seq<Subtask>)
    ensures ActiveSubtasks(sts, {}) == sts
    decreases |sts|
  {
    if sts != [] {
      ActiveSubtasksNone(sts[..|sts| - 1]);
      assert sts == sts[..|sts| - 1] + [sts[|sts| - 1]];
    }
  }

  lemma {:induction false} ActiveDeliverablesNone(ds: seq<Deliverable>)
    ensures ActiveDeliverablesOf(ds, {}) == ds
    decreases |ds|
  {
    if ds != [] {
      var d := ds[|ds| - 1];
      ActiveDeliverablesNone(ds[..|ds| - 1]);
      ActiveSubtasksNone(d.subtasks);
      assert Pruned(d, {}) == d;
      assert ds == ds[..|ds| - 1] + [d];
    }
  }

  /** Deleting a deliverable alone hides it from the active deliverables
      together with its subtasks, but its subtask rows stay among the active
      rows as long as their own ids are not deleted. */
  lemma DeletedParentKeepsSubtaskRows(ds: seq<Deliverable>, fs: seq<FlatTask>, deleted: set<int>,
                                      parent: int, t: FlatTask)
    requires t in fs && t.id != parent && t.id !in deleted
    ensures t in ActiveRows(fs, deleted + {parent})
    ensures forall x | x in ActiveDeliverablesOf(ds, deleted + {parent}) :: x.id != parent
  {
    ActiveRowsMembers(fs, deleted + {parent}, t);
    forall x | x in ActiveDeliverablesOf(ds, deleted + {parent})
      ensures x.id != parent
    {
      ActiveDeliverablesMembers(ds, deleted + {parent}, x);
    }
  }

  /** The statistics of the hook over the views. */
  function StatsOf(ds: seq<Deliverable>, fs: seq<FlatTask>, deleted: set<int>): ActiveStats
  {
    var active := ActiveDeliverablesOf(ds, deleted);
    ActiveStats(|active|, SubtaskCount(active), |ActiveRows(fs, deleted)|, TotalHours(active), |deleted|)
  }

  /** The statistics of the views agree with a plan's statistics, with
      nothing counted as deleted. */
  predicate StatsAgree(ds: seq<Deliverable>, fs: seq<FlatTask>, deleted: set<int>, s: PlanStats)
  {
    StatsOf(ds, fs, deleted) == ActiveStats(s.deliverableCount, s.subtaskCount, s.totalTasks, s.totalHours, 0)
  }

  /** Until something is deleted, the statistics of a freshly generated plan
      are the generator's own. */
  lemma GeneratedStats(r: Responses, w: Wording)
    ensures var ds := PlanDeliverables(r, w);
            StatsOf(ds, Flat(ds, r.teamMembers, GeneratorRoles, false), {})
            == ActiveStats(|ds|, SubtaskCount(ds), |ds| + SubtaskCount(ds), TotalHours(ds), 0)
  {
    var ds := PlanDeliverables(r, w);
    var fs := Flat(ds, r.teamMembers, GeneratorRoles, false);
    ActiveDeliverablesNone(ds);
    ActiveRowsNone(fs);
    FlatLength(ds, r.teamMembers, GeneratorRoles, false);
  }

  // ---------------------------------------------------------------------
  // The hook's state
  // ---------------------------------------------------------------------

  class ProjectPlanHook {
    var plan: Option<StoredPlan>
    var deliverables: seq<Deliverable>
    var flatTasks: seq<FlatTask>
    var milestones: seq<Milestone>
    var isGenerating: bool
    var deletedTaskIds: set<int>
    var expandedDeliverables: set<int>

    /** Nothing generated, nothing deleted, nothing expanded. */
    predicate Empty()
      reads this
    {
      plan == None && deliverables == [] && flatTasks == [] && milestones == []
      && !isGenerating && deletedTaskIds == {} && expandedDeliverables == {}
    }

    constructor()
      ensures Empty()
    {
      plan := None;
      deliverables := [];
      flatTasks := [];
      milestones := [];
      isGenerating := false;
      deletedTaskIds := {};
      expandedDeliverables := {};
    }

    /** `generatePlan`: the plan of the responses, in the wording of their
        language, replaces whatever was there; deletions and expansions are
        cleared. */
    method GeneratePlan(r: Responses) returns (p: ProjectPlan)
      modifies this
      ensures p.deliverables == PlanDeliverables(r, WordingFor(IsSpanish(r)))
      ensures p.flatTasks == Flat(p.deliverables, r.teamMembers, GeneratorRoles, false)
      ensures p.milestones == PlanMilestones(r, WordingFor(IsSpanish(r)))
      ensures p.projectInfo == PlanGenerator.ProjectInfo(r.projectName, r.clientName, r.projectManager,
                                                         r.startDate, r.deadline, r.language,
                                                         PlanGenerator.AllocatedHours(r))
      ensures plan == Some(StoredPlan(p.projectInfo, p.stats, p.milestones))
      ensures deliverables == p.deliverables && flatTasks == p.flatTasks && milestones == p.milestones
      ensures !isGenerating && deletedTaskIds == {} && expandedDeliverables == {}
      ensures StatsAgree(deliverables, flatTasks, deletedTaskIds, p.stats)
    {
      hide PlanDeliverables, PlanMilestones, Flat, WordingFor;
      isGenerating := true;
      p := GenerateProjectPlan(r, WordingFor(IsSpanish(r)));
      plan := Some(StoredPlan(p.projectInfo, p.stats, p.milestones));
      milestones := p.milestones;
      deliverables := p.deliverables;
      flatTasks := p.flatTasks;
      deletedTaskIds := {};
      expandedDeliverables := {};
      isGenerating := false;
      GeneratedStats(r, WordingFor(IsSpanish(r)));
    }

    /** `toggleDeliverableExpansion`. */
    method ToggleDeliverableExpansion(id: int)
      modifies this
      ensures expandedDeliverables == Toggled(old(expandedDeliverables), id)
      ensures plan == old(plan) && deliverables == old(deliverables) && flatTasks == old(flatTasks)
      ensures milestones == old(milestones) && isGenerating == old(isGenerating)
      ensures deletedTaskIds == old(deletedTaskIds)
    {
      if id in expandedDeliverables {
        expandedDeliverables := expandedDeliverables - {id};
      } else {
        expandedDeliverables := expandedDeliverables + {id};
      }
    }

    /** `expandAll`: every deliverable id, deleted ones included. */
    method ExpandAll()
      modifies this
      ensures expandedDeliverables == DeliverableIdSet(deliverables)
      ensures plan == old(plan) && deliverables == old(deliverables) && flatTasks == old(flatTasks)
      ensures milestones == old(milestones) && isGenerating == old(isGenerating)
      ensures deletedTaskIds == old(deletedTaskIds)
    {
      expandedDeliverables := DeliverableIdSet(deliverables);
    }

    /** `collapseAll`. */
    method CollapseAll()
      modifies this
      ensures expandedDeliverables == {}
      ensures plan == old(plan) && deliverables == old(deliverables) && flatTasks == old(flatTasks)
      ensures milestones == old(milestones) && isGenerating == old(isGenerating)
      ensures deletedTaskIds == old(deletedTaskIds)
    {
      expandedDeliverables := {};
    }

    /** `deleteTask`: the id is marked deleted; the lists are kept. */
    method DeleteTask(id: int)
      modifies this
      ensures deletedTaskIds == old(deletedTaskIds) + {id}
      ensures plan == old(plan) && deliverables == old(deliverables) && flatTasks == old(flatTasks)
      ensures milestones == old(milestones) && isGenerating == old(isGenerating)
      ensures expandedDeliverables == old(expandedDeliverables)
    {
      deletedTaskIds := deletedTaskIds + {id};
    }

    /** `restoreTask`. */
    method RestoreTask(id: int)
      modifies this
      ensures deletedTaskIds == old(deletedTaskIds) - {id}
      ensures plan == old(plan) && deliverables == old(deliverables) && flatTasks == old(flatTasks)
      ensures milestones == old(milestones) && isGenerating == old(isGenerating)
      ensures expandedDeliverables == old(expandedDeliverables)
    {
      deletedTaskIds := deletedTaskIds - {id};
    }

    /** `updateTaskHours`: the rows and deliverables with that id get the
        hours; a deliverable's subtasks are not rescaled. */
    method UpdateTaskHours(id: int, hours: int)
      modifies this
      ensures flatTasks == EditRows(old(flatTasks), id, SetHours(hours))
      ensures deliverables == EditDeliverables(old(deliverables), id, SetHours(hours))
      ensures plan == old(plan) && milestones == old(milestones) && isGenerating == old(isGenerating)
      ensures deletedTaskIds == old(deletedTaskIds) && expandedDeliverables == old(expandedDeliverables)
    {
      flatTasks := EditRows(flatTasks, id, SetHours(hours));
      deliverables := EditDeliverables(deliverables, id, SetHours(hours));
    }

    /** `updateTaskAssignee`. */
    method UpdateTaskAssignee(id: int, assignee: string)
      modifies this
      ensures flatTasks == EditRows(old(flatTasks), id, SetAssignee(assignee))
      ensures deliverables == EditDeliverables(old(deliverables), id, SetAssignee(assignee))
      ensures plan == old(plan) && milestones == old(milestones) && isGenerating == old(isGenerating)
      ensures deletedTaskIds == old(deletedTaskIds) && expandedDeliverables == old(expandedDeliverables)
    {
      flatTasks := EditRows(flatTasks, id, SetAssignee(assignee));
      deliverables := EditDeliverables(deliverables, id, SetAssignee(assignee));
    }

    /** `resetPlan`. */
    method ResetPlan()
      modifies this
      ensures Empty()
    {
      plan := None;
      deliverables := [];
      flatTasks := [];
      milestones := [];
      isGenerating := false;
      deletedTaskIds := {};
      expandedDeliverables := {};
    }

    /** `activeFlatTasks`: the rows whose own id is not deleted. */
    function ActiveFlatTasks(): (r: seq<FlatTask>)
      reads this
      ensures forall t :: t in r <==> t in flatTasks && t.id !in deletedTaskIds
    {
      ActiveRowsAll(flatTasks, deletedTaskIds);
      ActiveRows(flatTasks, deletedTaskIds)
    }

    /** `activeDeliverables`: the deliverables that are not deleted, each
        without its deleted subtasks. */
    function ActiveDeliverables(): (r: seq<Deliverable>)
      reads this
      ensures forall x :: x in r <==> exists k | 0 <= k < |deliverables| ::
                deliverables[k].id !in deletedTaskIds && x == Pruned(deliverables[k], deletedTaskIds)
    {
      ActiveDeliverablesAll(deliverables, deletedTaskIds);
      ActiveDeliverablesOf(deliverables, deletedTaskIds)
    }

    /** `stats`: none without a plan. */
    function Stats(): (s: Option<ActiveStats>)
      reads this
      ensures s.Some? <==> plan.Some?
      ensures s.Some? ==> s.value.deletedCount == |deletedTaskIds|
                          && s.value.deliverableCount == |ActiveDeliverables()|
                          && s.value.subtaskCount == SubtaskCount(ActiveDeliverables())
                          && s.value.totalTasks == |ActiveFlatTasks()|
                          && s.value.totalHours == TotalHours(ActiveDeliverables())
    {
      if plan.None? then None else Some(StatsOf(deliverables, flatTasks, deletedTaskIds))
    }
  }

  /** Deleting a task and restoring it leaves the deletions as they were
      when it had not been deleted before. */
  method DeleteThenRestore(h: ProjectPlanHook, id: int)
    requires id !in h.deletedTaskIds
    modifies h
    ensures h.deletedTaskIds == old(h.deletedTaskIds)
    ensures h.deliverables == old(h.deliverables) && h.flatTasks == old(h.flatTasks)
  {
    h.DeleteTask(id);
    h.RestoreTask(id);
  }
}
