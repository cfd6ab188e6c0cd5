/** The pieces the task consolidator builds its deliverables from: which raw
    tasks a group gathers, the subtasks it makes of them, and each kind of
    deliverable (a Clarity or Adoption group's, a module group's, the
    security, multi-warehouse and integration deliverables, a custom
    module's). A builder takes the id its deliverable gets; the subtasks take
    the ids that follow it, as `currentId++` hands them out. */
module ConsolidatorParts {
  import opened Common
  import opened Text
  import opened PlanModel
  import opened PlanWording
  import opened FlatTasks
  import opened HourNormalization
  import opened ConsolidatorConfig

  // ---------------------------------------------------------------------
  // Selecting raw tasks
  // ---------------------------------------------------------------------

  /** The title or the category contains the pattern, both lower-cased. */
  predicate MatchesPattern(t: RawTask, p: string)
  {
    (t.title.Some? && Contains(Lower(t.title.value), Lower(p)))
    || (t.category.Some? && Contains(Lower(t.category.value), Lower(p)))
  }

  /** `patterns.some(…)`, from pattern `k` on. */
  predicate MatchesAnyFrom(t: RawTask, patterns: seq<string>, k: nat)
    decreases |patterns| - k
  {
    k < |patterns| && (MatchesPattern(t, patterns[k]) || MatchesAnyFrom(t, patterns, k + 1))
  }

  predicate MatchesAny(t: RawTask, patterns: seq<string>)
  {
    MatchesAnyFrom(t, patterns, 0)
  }

  /** The three filters over raw tasks: a group's patterns, a module's name
      (its `module` property, or its title or category containing the name, with
      case), and a phase. */
  datatype Criterion = ByPatterns(patterns: seq<string>) | ByModule(name: string) | ByPhase(phase: Phase)

  predicate Meets(t: RawTask, c: Criterion)
  {
    match c
    case ByPatterns(patterns) => MatchesAny(t, patterns)
    case ByModule(name) =>
      t.moduleName == Some(name)
      || (t.title.Some? && Contains(t.title.value, name))
      || (t.category.Some? && Contains(t.category.value, name))
    case ByPhase(phase) => t.phase == phase
  }

  /** `tasks.filter(…)`, in the original order. */
  function Select(ts: seq<RawTask>, c: Criterion): (r: seq<RawTask>)
    ensures |r| <= |ts|
  {
    if ts == [] then []
    else
      var rest := Select(ts[..|ts| - 1], c);
      if Meets(ts[|ts| - 1], c) then rest + [ts[|ts| - 1]] else rest
  }

  /** Sum of the tasks' estimated hours. */
  function EstimatedTotal(ts: seq<RawTask>): nat
  {
    if ts == [] then 0 else EstimatedTotal(ts[..|ts| - 1]) + ts[|ts| - 1].estimatedHours
  }

  // ---------------------------------------------------------------------
  // Subtasks made of raw tasks
  // ---------------------------------------------------------------------

  /** What the subtasks of one deliverable share: phase, module, milestone,
      parent, the deliverable's hours, the matched tasks' estimated total, and
      whether a share that comes out 0 becomes 2 (the `|| 2` of the
      Implementation and Adoption phases). */
  datatype SubtaskShape = SubtaskShape(
    phase: Phase,
    moduleName: Option<string>,
    milestone: string,
    parent: string,
    hours: int,
    total: int,
    orTwo: bool)

  /** `Math.round(estimated * (hours / total))`, or with `|| 2` inside the
      rounding `Math.round(estimated * (hours / total) || 2)`: an unrounded
      share of exactly 0, and the not-a-number of a zero total, become 2,
      while a share that only rounds to 0 stays 0. Without `|| 2` a zero
      total gives 0. */
  function TaskShare(estimated: int, hours: int, total: int, orTwo: bool): int
  {
    if total == 0 then (if orTwo then 2 else 0)
    else if orTwo && (estimated == 0 || hours == 0) then 2
    else RoundQuotient(estimated * hours, total)
  }

  function TaskSubtask(t: RawTask, s: SubtaskShape, spanish: bool, id: nat): Subtask
  {
    var title := if spanish && t.nameEs != "" then t.nameEs else OrEmpty(t.title);
    var description := if spanish && t.descriptionEs != "" then t.descriptionEs else t.description;
    var priority := if t.priority.Some? then t.priority.value else Medium;
    Subtask(id, title, description, TaskShare(t.estimatedHours, s.hours, s.total, s.orTwo), priority,
            s.phase, s.moduleName, s.milestone, s.parent, "")
  }

  /** `matchingTasks.map(…)`: subtask `k` takes id `start + k`. */
  function TaskSubtasks(ts: seq<RawTask>, s: SubtaskShape, spanish: bool, start: nat): (r: seq<Subtask>)
    ensures |r| == |ts|
  {
    if ts == [] then []
    else TaskSubtasks(ts[..|ts| - 1], s, spanish, start) + [TaskSubtask(ts[|ts| - 1], s, spanish, start + |ts| - 1)]
  }

  // ---------------------------------------------------------------------
  // Deliverables
  // ---------------------------------------------------------------------

  /** The deliverable of a Clarity (`orTwo` false) or Adoption (`orTwo` true)
      group, with its subtask hours normalised. */
  function GroupDeliverable(g: PhaseGroup, phase: Phase, matching: seq<RawTask>, hours: int, orTwo: bool,
                            spanish: bool, id: nat): Deliverable
  {
    var name := Pick(spanish, g.name);
    var milestone := Pick(spanish, g.milestone);
    var shape := SubtaskShape(phase, None, milestone, name, hours, EstimatedTotal(matching), orTwo);
    Normalized(Deliverable(id, name, Pick(spanish, g.description), hours, g.priority, phase, None,
                           milestone, false, "", TaskSubtasks(matching, shape, spanish, id + 1)))
  }

  /** The deliverable of one module group for module `name`. */
  function ModuleGroupDeliverable(g: ModuleGroup, name: string, matching: seq<RawTask>, hours: int,
                                  spanish: bool, w: ConsolidatorWording, id: nat): Deliverable
  {
    var title := ReplaceFirst(Pick(spanish, g.nameTemplate), "{module}", name);
    var milestone := Fill(w.moduleMilestone, name);
    var shape := SubtaskShape(Implementation, Some(name), milestone, title, hours, EstimatedTotal(matching), true);
    Normalized(Deliverable(id, title, ReplaceFirst(Pick(spanish, g.descriptionTemplate), "{module}", name),
                           hours, g.priority, Implementation, Some(name), milestone, false, "",
                           TaskSubtasks(matching, shape, spanish, id + 1)))
  }

  function SecurityDeliverable(item: SpecialItem, spanish: bool, w: ConsolidatorWording, id: nat): Deliverable
  {
    Deliverable(id, Pick(spanish, item.name), Pick(spanish, item.description), item.hours, item.priority,
                Implementation, None, w.securityMilestone, false, "", [])
  }

  /** `parseInt(warehouse_count) || 2`. */
  function WarehouseCount(r: ConsolidatorResponses): int
  {
    OrDefault(r.warehouseCount, 2)
  }

  function WarehouseSubtask(k: nat, item: SpecialItem, spanish: bool, w: ConsolidatorWording, id: nat): Subtask
  {
    var number := IntToString(k + 1);
    Subtask(id, Fill(w.warehouseSubtask.title, number), Fill(w.warehouseSubtask.description, number),
            item.hours, Medium, Implementation, None, w.warehouseMilestone, Pick(spanish, item.name), "")
  }

  /** `Array.from({ length: n }, …)`: warehouse `k + 1` takes id `start + k`. */
  function WarehouseSubtasks(n: nat, item: SpecialItem, spanish: bool, w: ConsolidatorWording, start: nat)
    : (r: seq<Subtask>)
    ensures |r| == n
  {
    if n == 0 then []
    else WarehouseSubtasks(n - 1, item, spanish, w, start) + [WarehouseSubtask(n - 1, item, spanish, w, start + n - 1)]
  }

  /** The number of warehouse subtasks: the count, or none for a negative one. */
  function WarehouseSlots(r: ConsolidatorResponses): nat
  {
    var count := WarehouseCount(r);
    if count > 0 then count else 0
  }

  /** The multi-warehouse deliverable: `hours_per_warehouse` for each
      warehouse, one subtask per warehouse. */
  function WarehouseDeliverable(r: ConsolidatorResponses, item: SpecialItem, spanish: bool,
                                w: ConsolidatorWording, id: nat): Deliverable
  {
    Deliverable(id, Pick(spanish, item.name), Pick(spanish, item.description), item.hours * WarehouseCount(r),
                item.priority, Implementation, None, w.warehouseMilestone, false, "",
                WarehouseSubtasks(WarehouseSlots(r), item, spanish, w, id + 1))
  }

  function IntegrationDeliverable(r: ConsolidatorResponses, item: SpecialItem, spanish: bool,
                                  w: ConsolidatorWording, id: nat): Deliverable
  {
    Deliverable(id, Pick(spanish, item.name), Pick(spanish, item.description) + ": " + r.integrationList,
                item.hours, item.priority, Implementation, None, w.integrationMilestone, false, "", [])
  }

  function CustomSubtask(id: nat, name: string, t: FramedText, hours: int, priority: Priority, parent: string): Subtask
  {
    Subtask(id, Fill(t.title, name), Fill(t.description, name), hours, priority, Implementation, None, "", parent, "")
  }

  /** `generateCustomModuleSubtasks`: 60%, 25% and 15% of the module's hours,
      each rounded on its own, with ids `start`, `start + 1`, `start + 2`. */
  function CustomModuleSubtasks(name: string, hours: int, w: ConsolidatorWording, start: nat, parent: string)
    : seq<Subtask>
  {
    [CustomSubtask(start, name, w.customDevelopment, RoundPercent(hours, 60), High, parent),
     CustomSubtask(start + 1, name, w.customTesting, RoundPercent(hours, 25), High, parent),
     CustomSubtask(start + 2, name, w.customDocumentation, RoundPercent(hours, 15), Medium, parent)]
  }

  /** A named custom module's deliverable; hours of 0 count as missing and
      become 20. */
  function CustomDeliverable(slot: CustomSlot, t: CustomTemplate, spanish: bool, w: ConsolidatorWording, id: nat)
    : Deliverable
  {
    var hours := OrDefault(slot.hours, 20);
    var title := ReplaceFirst(Pick(spanish, t.nameTemplate), "{name}", slot.name);
    var description := if slot.description != "" then slot.description else Fill(w.customDescription, slot.name);
    Deliverable(id, title, description, hours, t.priority, Implementation, Some(slot.name),
                Fill(w.customMilestone, slot.name), true, "", CustomModuleSubtasks(slot.name, hours, w, id + 1, title))
  }

  // ---------------------------------------------------------------------
  // Facts about the pieces
  // ---------------------------------------------------------------------

  /** `some` over the patterns: one of them matches. */
  lemma {:induction false} MatchesAnyFromIff(t: RawTask, patterns: seq<string>, k: nat)
    ensures MatchesAnyFrom(t, patterns, k) <==> exists i | k <= i < |patterns| :: MatchesPattern(t, patterns[i])
    decreases |patterns| - k
  {
    if k < |patterns| {
      MatchesAnyFromIff(t, patterns, k + 1);
      if exists i | k <= i < |patterns| :: MatchesPattern(t, patterns[i]) {
        var i :| k <= i < |patterns| && MatchesPattern(t, patterns[i]);
        if i > k {
          assert k + 1 <= i;
        }
      }
    }
  }

  lemma MatchesAnyIff(t: RawTask, patterns: seq<string>)
    ensures MatchesAny(t, patterns) <==> exists i | 0 <= i < |patterns| :: MatchesPattern(t, patterns[i])
  {
    MatchesAnyFromIff(t, patterns, 0);
  }

  /** Matching ignores the case of the pattern. */
  lemma PatternCaseIgnored(t: RawTask, p: string)
    ensures MatchesPattern(t, Lower(p)) <==> MatchesPattern(t, p)
  {
    LowerIdempotent(p);
  }

  /** The filter keeps exactly the tasks that meet the criterion. */
  lemma {:induction false} SelectMembers(ts: seq<RawTask>, c: Criterion, t: RawTask)
    ensures t in Select(ts, c) <==> t in ts && Meets(t, c)
    decreases |ts|
  {
    if ts != [] {
      SelectMembers(ts[..|ts| - 1], c, t);
      assert ts == ts[..|ts| - 1] + [ts[|ts| - 1]];
    }
  }

  lemma {:induction false} TaskSubtaskAt(ts: seq<RawTask>, s: SubtaskShape, spanish: bool, start: nat, k: nat)
    requires k < |ts|
    ensures TaskSubtasks(ts, s, spanish, start)[k] == TaskSubtask(ts[k], s, spanish, start + k)
    decreases |ts|
  {
    if k < |ts| - 1 {
      TaskSubtaskAt(ts[..|ts| - 1], s, spanish, start, k);
    }
  }

  lemma {:induction false} TaskSubtaskIds(ts: seq<RawTask>, s: SubtaskShape, spanish: bool, start: nat)
    ensures Consecutive(SubtaskIds(TaskSubtasks(ts, s, spanish, start)), start)
    decreases |ts|
  {
    if ts != [] {
      TaskSubtaskIds(ts[..|ts| - 1], s, spanish, start);
    }
  }

  /** With `|| 2`, a non-negative estimate and a budget that is 0 or at
      least the estimated total, a task's share is at least one hour. */
  lemma TaskShareAtLeastOne(e: nat, hours: int, total: int)
    requires 0 <= total && (hours == 0 || total <= hours)
    ensures TaskShare(e, hours, total, true) >= 1
  {
    if total != 0 && e * hours != 0 {
      assert e >= 1 && hours >= total;
      MultipleAtLeast(hours, e);
      RoundQuotientAtLeastOne(e * hours, total);
    }
  }

  /** With `|| 2` and a budget that is 0 or at least the tasks' estimated
      total, every share is at least one hour. */
  lemma {:induction false} TaskSubtasksPositive(ts: seq<RawTask>, s: SubtaskShape, spanish: bool, start: nat)
    requires s.orTwo && 0 <= s.total && (s.hours == 0 || s.total <= s.hours) && ts != []
    ensures SubtaskHours(TaskSubtasks(ts, s, spanish, start)) >= |ts|
    decreases |ts|
  {
    var front := ts[..|ts| - 1];
    var st := TaskSubtask(ts[|ts| - 1], s, spanish, start + |ts| - 1);
    TaskShareAtLeastOne(ts[|ts| - 1].estimatedHours, s.hours, s.total);
    assert st.hours >= 1;
    var sts := TaskSubtasks(front, s, spanish, start);
    assert TaskSubtasks(ts, s, spanish, start) == sts + [st];
    assert |ts| == 1 ==> sts == [];
    hide TaskSubtasks, TaskSubtask;
    SubtaskHoursAppend(sts, [st]);
    if |ts| > 1 {
      TaskSubtasksPositive(front, s, spanish, start);
    }
  }

  /** The subtasks of a Clarity or Adoption group deliverable follow its id,
      and their hours add up to the deliverable's whenever their shares do not
      all come out 0; for Adoption (`|| 2`) that is sure when some task
      matched and the budget is 0 or at least the matched tasks' estimate. */
  lemma GroupDeliverableFacts(g: PhaseGroup, phase: Phase, matching: seq<RawTask>, hours: int, orTwo: bool,
                              spanish: bool, id: nat)
    ensures var d := GroupDeliverable(g, phase, matching, hours, orTwo, spanish, id);
            d.id == id && d.hours == hours && d.phase == phase && |d.subtasks| == |matching|
            && Consecutive(SubtaskIds(d.subtasks), id + 1)
    ensures var shape := SubtaskShape(phase, None, Pick(spanish, g.milestone), Pick(spanish, g.name), hours,
                                      EstimatedTotal(matching), orTwo);
            SubtaskHours(TaskSubtasks(matching, shape, spanish, id + 1)) != 0
            ==> SubtaskHours(GroupDeliverable(g, phase, matching, hours, orTwo, spanish, id).subtasks) == hours
    ensures orTwo && matching != [] && (hours == 0 || EstimatedTotal(matching) <= hours)
            ==> SubtaskHours(GroupDeliverable(g, phase, matching, hours, orTwo, spanish, id).subtasks) == hours
  {
    var shape := SubtaskShape(phase, None, Pick(spanish, g.milestone), Pick(spanish, g.name), hours,
                              EstimatedTotal(matching), orTwo);
    var raw := TaskSubtasks(matching, shape, spanish, id + 1);
    TaskSubtaskIds(matching, shape, spanish, id + 1);
    NormalizeIds(raw, hours);
    NormalizeSum(raw, hours);
    if orTwo && matching != [] && (hours == 0 || EstimatedTotal(matching) <= hours) {
      TaskSubtasksPositive(matching, shape, spanish, id + 1);
    }
  }

  /** The same for a module group's deliverable, whose subtasks always carry
      `|| 2`. */
  lemma ModuleGroupDeliverableFacts(g: ModuleGroup, name: string, matching: seq<RawTask>, hours: int,
                                    spanish: bool, w: ConsolidatorWording, id: nat)
    ensures var d := ModuleGroupDeliverable(g, name, matching, hours, spanish, w, id);
            d.id == id && d.hours == hours && d.moduleName == Some(name) && |d.subtasks| == |matching|
            && Consecutive(SubtaskIds(d.subtasks), id + 1)
    ensures matching != [] && (hours == 0 || EstimatedTotal(matching) <= hours)
            ==> SubtaskHours(ModuleGroupDeliverable(g, name, matching, hours, spanish, w, id).subtasks) == hours
  {
    var title := ReplaceFirst(Pick(spanish, g.nameTemplate), "{module}", name);
    var shape := SubtaskShape(Implementation, Some(name), Fill(w.moduleMilestone, name), title, hours,
                              EstimatedTotal(matching), true);
    var raw := TaskSubtasks(matching, shape, spanish, id + 1);
    TaskSubtaskIds(matching, shape, spanish, id + 1);
    NormalizeIds(raw, hours);
    if matching != [] && (hours == 0 || EstimatedTotal(matching) <= hours) {
      TaskSubtasksPositive(matching, shape, spanish, id + 1);
      NormalizeSum(raw, hours);
    }
  }

  /** A group deliverable's subtasks can all round to 0 and stay at 0, with
      or without `|| 2`: one hour shared by three one-hour tasks gives each a
      third of an hour, which is not 0 before rounding. */
  lemma GroupSharesCanVanish(g: PhaseGroup, phase: Phase, t: RawTask, orTwo: bool, spanish: bool, id: nat)
    requires t.estimatedHours == 1
    ensures var d := GroupDeliverable(g, phase, [t, t, t], 1, orTwo, spanish, id);
            d.hours == 1 && SubtaskHours(d.subtasks) == 0
  {
    var shape := SubtaskShape(phase, None, Pick(spanish, g.milestone), Pick(spanish, g.name), 1,
                              EstimatedTotal([t, t, t]), orTwo);
    assert [t, t, t][..2] == [t, t] && [t, t][..1] == [t] && [t][..0] == [];
    assert EstimatedTotal([t]) == 1;
    assert EstimatedTotal([t, t]) == 2;
    assert EstimatedTotal([t, t, t]) == 3;
    assert RoundQuotient(1, 3) == 0;
    var a := TaskSubtask(t, shape, spanish, id + 1);
    var b := TaskSubtask(t, shape, spanish, id + 2);
    var c := TaskSubtask(t, shape, spanish, id + 3);
    assert TaskSubtasks([t], shape, spanish, id + 1) == [a];
    assert TaskSubtasks([t, t], shape, spanish, id + 1) == [a, b];
    var raw := TaskSubtasks([t, t, t], shape, spanish, id + 1);
    assert raw == [a, b, c];
    SubtaskHours3(raw[0], raw[1], raw[2]);
    NormalizeSum(raw, 1);
  }

  lemma {:induction false} WarehouseSubtaskAt(n: nat, item: SpecialItem, spanish: bool, w: ConsolidatorWording,
                                              start: nat, k: nat)
    requires k < n
    ensures WarehouseSubtasks(n, item, spanish, w, start)[k] == WarehouseSubtask(k, item, spanish, w, start + k)
    decreases n
  {
    if k < n - 1 {
      WarehouseSubtaskAt(n - 1, item, spanish, w, start, k);
    }
  }

  lemma {:induction false} WarehouseSubtasksSum(n: nat, item: SpecialItem, spanish: bool, w: ConsolidatorWording,
                                                start: nat)
    ensures SubtaskHours(WarehouseSubtasks(n, item, spanish, w, start)) == item.hours * n
    decreases n
  {
    if n > 0 {
      WarehouseSubtasksSum(n - 1, item, spanish, w, start);
      var h := item.hours;
      assert h * n == h * (n - 1) + h;
    }
  }

  lemma {:induction false} WarehouseSubtasksIds(n: nat, item: SpecialItem, spanish: bool, w: ConsolidatorWording,
                                                start: nat)
    ensures Consecutive(SubtaskIds(WarehouseSubtasks(n, item, spanish, w, start)), start)
    decreases n
  {
    if n > 0 {
      WarehouseSubtasksIds(n - 1, item, spanish, w, start);
    }
  }

  /** The multi-warehouse deliverable has one subtask of `hours_per_warehouse`
      per warehouse, and they add up to its hours, whenever the count is not
      negative (0 means the default 2). */
  lemma WarehouseDeliverableFacts(r: ConsolidatorResponses, item: SpecialItem, spanish: bool,
                                  w: ConsolidatorWording, id: nat)
    ensures var d := WarehouseDeliverable(r, item, spanish, w, id);
            Consecutive(SubtaskIds(d.subtasks), id + 1)
            && (r.warehouseCount >= 0 ==> |d.subtasks| == WarehouseCount(r) && SubtaskHours(d.subtasks) == d.hours)
            && (forall k | 0 <= k < |d.subtasks| :: d.subtasks[k].hours == item.hours)
  {
    var n := WarehouseSlots(r);
    WarehouseSubtasksSum(n, item, spanish, w, id + 1);
    WarehouseSubtasksIds(n, item, spanish, w, id + 1);
    var sts := WarehouseSubtasks(n, item, spanish, w, id + 1);
    forall k | 0 <= k < |sts|
      ensures sts[k].hours == item.hours
    {
      WarehouseSubtaskAt(n, item, spanish, w, id + 1, k);
    }
  }

  /** A custom module's three subtasks take the three ids after its own. */
  lemma CustomDeliverableFacts(slot: CustomSlot, t: CustomTemplate, spanish: bool, w: ConsolidatorWording, id: nat)
    ensures var d := CustomDeliverable(slot, t, spanish, w, id);
            d.id == id && d.isCustom && |d.subtasks| == 3
            && SubtaskIds(d.subtasks) == [id + 1, id + 2, id + 3]
            && d.hours == (if slot.hours != 0 then slot.hours else 20)
            && SubtaskHours(d.subtasks) == RoundPercent(d.hours, 60) + RoundPercent(d.hours, 25) + RoundPercent(d.hours, 15)
  {
    var d := CustomDeliverable(slot, t, spanish, w, id);
    SubtaskHours3(d.subtasks[0], d.subtasks[1], d.subtasks[2]);
  }

  /** A custom module's subtasks need not add up to it: 10 hours split as
      6, 3 and 2 (2.5 and 1.5 both round up) give 11. */
  lemma CustomSplitCanOvershoot(slot: CustomSlot, t: CustomTemplate, spanish: bool, w: ConsolidatorWording, id: nat)
    requires slot.hours == 10
    ensures var d := CustomDeliverable(slot, t, spanish, w, id);
            d.hours == 10 && SubtaskHours(d.subtasks) == 11
  {
    CustomDeliverableFacts(slot, t, spanish, w, id);
    assert RoundPercent(10, 60) == 6;
    assert RoundPercent(10, 25) == 3;
    assert RoundPercent(10, 15) == 2;
  }
}
