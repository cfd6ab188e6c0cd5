/** The work packages of the plan generator: the Clarity deliverables, the
    general Odoo setup, a standard module's and a custom module's package, the
    integration and multi-warehouse deliverables, and the Adoption phase. Each
    builder takes the first id it may use and hands out ids in the order the
    source's object literals evaluate `id++`; its texts come from the
    wording of the plan's language. */
module PlanBlocks {
  import opened Common
  import opened Text
  import opened PlanModel
  import opened ModuleActivities
  import opened PlanWording

  /** A subtask with no module, milestone, parent or assignee. */
  function Sub(id: nat, t: TaskText, hours: int, priority: Priority, phase: Phase): Subtask
  {
    Subtask(id, t.title, t.description, hours, priority, phase, None, "", "", "")
  }

  /** A subtask of a module package: it names its module and its parent. */
  function ModuleSub(id: nat, title: string, description: string, hours: int, priority: Priority,
                     name: string, parent: string): Subtask
  {
    Subtask(id, title, description, hours, priority, Implementation, Some(name), "", parent, "")
  }

  /** A deliverable with no module, not custom, not assigned. */
  function Deliv(id: nat, t: TaskText, hours: int, priority: Priority, phase: Phase,
                 milestone: string, subtasks: seq<Subtask>): Deliverable
  {
    Deliverable(id, t.title, t.description, hours, priority, phase, None, milestone, false, "", subtasks)
  }

  /** The title, and the milestone, of a module's package. */
  function ModuleTitle(w: Wording, name: string): string
  {
    Fill(w.moduleTitle, name)
  }

  // ---------------------------------------------------------------------
  // Clarity
  // ---------------------------------------------------------------------

  /** One Clarity deliverable of `hours`, its three subtasks taking the
      given percentages of it; only the third subtask's priority varies. */
  function ClarityPackage(p: Package3, hours: int, share1: int, share2: int, share3: int,
                          third: Priority, start: nat): Deliverable
  {
    Deliv(start, p.main, hours, High, Clarity, p.milestone,
      [ Sub(start + 1, p.first, RoundPercent(hours, share1), High, Clarity),
        Sub(start + 2, p.second, RoundPercent(hours, share2), High, Clarity),
        Sub(start + 3, p.third, RoundPercent(hours, share3), third, Clarity) ])
  }

  /** `generateClarityPhase`: mapping (40% of the budget; subtasks 40/40/20),
      TO-BE design (35%; 35/35/30) and the implementation master (25%;
      30/40/30). */
  function ClarityPhase(total: int, w: Wording, start: nat): seq<Deliverable>
  {
    [ ClarityPackage(w.mapping, RoundPercent(total, 40), 40, 40, 20, Medium, start),
      ClarityPackage(w.design, RoundPercent(total, 35), 35, 35, 30, High, start + 4),
      ClarityPackage(w.master, RoundPercent(total, 25), 30, 40, 30, High, start + 8) ]
  }

  lemma ClarityPackageShape(p: Package3, hours: int, share1: int, share2: int, share3: int,
                            third: Priority, start: nat)
    ensures var d := ClarityPackage(p, hours, share1, share2, share3, third, start);
      && d.hours == hours && d.phase == Clarity && d.milestone == p.milestone && |d.subtasks| == 3
      && SubtaskHours(d.subtasks)
         == RoundPercent(hours, share1) + RoundPercent(hours, share2) + RoundPercent(hours, share3)
      && Consecutive(OwnIds(d), start) && |OwnIds(d)| == 4
  {
    var sts := ClarityPackage(p, hours, share1, share2, share3, third, start).subtasks;
    SubtaskHours3(sts[0], sts[1], sts[2]);
    assert sts == [sts[0], sts[1], sts[2]];
  }

  /** Three deliverables of 40%, 35% and 25% of the budget, each holding its
      three subtasks and naming its milestone, on the twelve consecutive ids
      from `start`. */
  lemma ClarityPhaseShape(total: int, w: Wording, start: nat)
    ensures var ds := ClarityPhase(total, w, start);
      && |ds| == 3 && SubtaskCount(ds) == 9
      && ds[0].hours == RoundPercent(total, 40)
      && ds[1].hours == RoundPercent(total, 35)
      && ds[2].hours == RoundPercent(total, 25)
      && ds[0].milestone == w.mapping.milestone
      && ds[1].milestone == w.design.milestone
      && ds[2].milestone == w.master.milestone
      && (forall k | 0 <= k < 3 :: ds[k].phase == Clarity && |ds[k].subtasks| == 3)
      && Consecutive(Ids(ds), start) && |Ids(ds)| == 12
  {
    var ds := ClarityPhase(total, w, start);
    Ids3(ds[0], ds[1], ds[2]);
    ClarityPackageShape(w.mapping, RoundPercent(total, 40), 40, 40, 20, Medium, start);
    ClarityPackageShape(w.design, RoundPercent(total, 35), 35, 35, 30, High, start + 4);
    ClarityPackageShape(w.master, RoundPercent(total, 25), 30, 40, 30, High, start + 8);
    ConsecutiveAppend(OwnIds(ds[0]), OwnIds(ds[1]), start);
    ConsecutiveAppend(OwnIds(ds[0]) + OwnIds(ds[1]), OwnIds(ds[2]), start);
  }

  /** The Clarity hours are the three rounded shares of the budget. */
  lemma ClarityPhaseTotal(total: int, w: Wording, start: nat)
    ensures TotalHours(ClarityPhase(total, w, start))
            == RoundPercent(total, 40) + RoundPercent(total, 35) + RoundPercent(total, 25)
  {
    var ds := ClarityPhase(total, w, start);
    Ids3(ds[0], ds[1], ds[2]);
  }

  /** The three Clarity deliverables add up to the budget give or take one
      hour: each is rounded on its own. */
  lemma ClarityPhaseHoursNearBudget(total: int, w: Wording, start: nat)
    ensures total - 1 <= TotalHours(ClarityPhase(total, w, start)) <= total + 1
  {
    ClarityPhaseTotal(total, w, start);
  }

  /** Both bounds are reached: 2 hours become 1 + 1 + 1, 1 hour becomes
      0 + 0 + 0. */
  lemma ClarityPhaseRoundingDrift(w: Wording)
    ensures TotalHours(ClarityPhase(2, w, 1)) == 3
    ensures TotalHours(ClarityPhase(1, w, 1)) == 0
  {
    ClarityPhaseTotal(2, w, 1);
    ClarityPhaseTotal(1, w, 1);
  }

  /** A 40-hour budget: 16, 14 and 10 hours; the mapping deliverable's
      subtasks get 6, 6 and 3, one hour short of their parent. */
  lemma ClarityPhaseFortyHours(w: Wording)
    ensures var ds := ClarityPhase(40, w, 1);
      && ds[0].hours == 16 && ds[1].hours == 14 && ds[2].hours == 10
      && SubtaskHours(ds[0].subtasks) == 15
  {
    ClarityPackageShape(w.mapping, 16, 40, 40, 20, Medium, 1);
  }

  // ---------------------------------------------------------------------
  // Implementation
  // ---------------------------------------------------------------------

  /** `generateOdooSetupTasks`: one 8-hour deliverable with four 2-hour
      subtasks, the last of medium priority. */
  function OdooSetup(w: Wording, start: nat): Deliverable
  {
    Deliv(start, w.setup, 8, High, Implementation, w.goLiveMilestone,
      [ Sub(start + 1, w.setupInstance, 2, High, Implementation),
        Sub(start + 2, w.setupCompany, 2, High, Implementation),
        Sub(start + 3, w.setupUsers, 2, High, Implementation),
        Sub(start + 4, w.setupAccess, 2, Medium, Implementation) ])
  }

  /** The setup's subtasks add up to its 8 hours, on five consecutive ids. */
  lemma OdooSetupShape(w: Wording, start: nat)
    ensures var d := OdooSetup(w, start);
      && d.hours == 8 && SubtaskHours(d.subtasks) == d.hours && d.milestone == w.goLiveMilestone
      && Consecutive(OwnIds(d), start) && |OwnIds(d)| == 5
  {
    var sts := OdooSetup(w, start).subtasks;
    SubtaskHours4(sts[0], sts[1], sts[2], sts[3]);
    assert sts == [sts[0], sts[1], sts[2], sts[3]];
  }

  /** `generateModuleWorkPackage`: configuration (70%), data migration (15%)
      and testing (15%), described by the module's catalog activities. */
  function ModulePackage(name: string, hours: int, w: Wording, start: nat): Deliverable
  {
    var title := ModuleTitle(w, name);
    var activities := GetModuleActivities(w.catalog, w.defaultActivities, name);
    Deliverable(start, title, Fill(w.moduleDescription, name),
      hours, High, Implementation, Some(name), title, false, "",
      [ ModuleSub(start + 1, Fill(w.moduleConfig, name),
          Join(activities.config, ", "), RoundPercent(hours, 70), High, name, title),
        ModuleSub(start + 2, Fill(w.moduleMigration, name),
          Join(activities.migration, ", "), RoundPercent(hours, 15), High, name, title),
        ModuleSub(start + 3, Fill(w.moduleTesting, name),
          Join(activities.testing, ", "), RoundPercent(hours, 15), High, name, title) ])
  }

  /** A module's package carries the module's hours and name, is its own
      milestone, and its three subtasks name the module and the package as
      their parent and list the module's activities; the ids are the four
      from `start`. */
  lemma ModulePackageShape(name: string, hours: int, w: Wording, start: nat)
    ensures var d := ModulePackage(name, hours, w, start);
      && d.hours == hours && d.moduleName == Some(name) && !d.isCustom
      && d.title == ModuleTitle(w, name) && d.milestone == d.title
      && |d.subtasks| == 3
      && (forall j | 0 <= j < 3 :: d.subtasks[j].parentTask == d.title && d.subtasks[j].moduleName == Some(name))
      && d.subtasks[0].hours == RoundPercent(hours, 70)
      && d.subtasks[1].hours == RoundPercent(hours, 15)
      && d.subtasks[2].hours == RoundPercent(hours, 15)
      && d.subtasks[0].description == Join(GetModuleActivities(w.catalog, w.defaultActivities, name).config, ", ")
      && d.subtasks[1].description == Join(GetModuleActivities(w.catalog, w.defaultActivities, name).migration, ", ")
      && d.subtasks[2].description == Join(GetModuleActivities(w.catalog, w.defaultActivities, name).testing, ", ")
      && Consecutive(OwnIds(d), start) && |OwnIds(d)| == 4
  {
    var sts := ModulePackage(name, hours, w, start).subtasks;
    SubtaskHours3(sts[0], sts[1], sts[2]);
    assert sts == [sts[0], sts[1], sts[2]];
  }

  /** The subtasks of a module package add up to its hours give or take one:
      11 hours become 8 + 2 + 2. */
  lemma ModulePackageRoundingDrift(name: string, w: Wording)
    ensures var d := ModulePackage(name, 11, w, 1);
      d.hours == 11 && SubtaskHours(d.subtasks) == 12
  {
    var sts := ModulePackage(name, 11, w, 1).subtasks;
    SubtaskHours3(sts[0], sts[1], sts[2]);
    assert sts == [sts[0], sts[1], sts[2]];
  }

  /** `generateCustomModuleWorkPackage`: design and development (60%),
      testing (25%) and documentation (15%); the hours fall back to 20 and the
      description to the standard one. */
  function CustomPackage(cm: CustomModule, w: Wording, start: nat): Deliverable
  {
    var hours := OrDefault(cm.hours, 20);
    var name := cm.name;
    var title := ModuleTitle(w, name);
    var description := if cm.description != "" then cm.description else Fill(w.customDescription, name);
    Deliverable(start, title, description, hours, High, Implementation, Some(name), title, true, "",
      [ ModuleSub(start + 1, Fill(w.customDevelopment.title, name), Fill(w.customDevelopment.description, name),
          RoundPercent(hours, 60), High, name, title),
        ModuleSub(start + 2, Fill(w.customTesting.title, name), Fill(w.customTesting.description, name),
          RoundPercent(hours, 25), High, name, title),
        ModuleSub(start + 3, Fill(w.customDocumentation.title, name), Fill(w.customDocumentation.description, name),
          RoundPercent(hours, 15), Medium, name, title) ])
  }

  /** A custom package is flagged custom, keeps a given description, carries
      the module's hours (20 when they are 0), and links its three subtasks
      to itself; the ids are the four from `start`. */
  lemma CustomPackageShape(cm: CustomModule, w: Wording, start: nat)
    ensures var d := CustomPackage(cm, w, start);
      && d.isCustom && d.moduleName == Some(cm.name)
      && d.hours == (if cm.hours == 0 then 20 else cm.hours)
      && (cm.description != "" ==> d.description == cm.description)
      && (cm.description == "" ==> d.description == Fill(w.customDescription, cm.name))
      && d.title == ModuleTitle(w, cm.name) && d.milestone == d.title
      && |d.subtasks| == 3
      && (forall j | 0 <= j < 3 :: d.subtasks[j].parentTask == d.title && d.subtasks[j].moduleName == Some(cm.name))
      && d.subtasks[0].hours == RoundPercent(d.hours, 60)
      && d.subtasks[1].hours == RoundPercent(d.hours, 25)
      && d.subtasks[2].hours == RoundPercent(d.hours, 15)
      && Consecutive(OwnIds(d), start) && |OwnIds(d)| == 4
  {
    var sts := CustomPackage(cm, w, start).subtasks;
    SubtaskHours3(sts[0], sts[1], sts[2]);
    assert sts == [sts[0], sts[1], sts[2]];
  }

  /** The integrations deliverable: 16 hours split 4 + 8 + 4. */
  function IntegrationPackage(list: string, w: Wording, start: nat): Deliverable
  {
    Deliv(start, TaskText(w.integrationTitle, Fill(w.integrationDescription, list)),
      16, High, Implementation, w.goLiveMilestone,
      [ Sub(start + 1, w.integrationAnalysis, 4, High, Implementation),
        Sub(start + 2, w.integrationConnectors, 8, High, Implementation),
        Sub(start + 3, w.integrationTesting, 4, High, Implementation) ])
  }

  lemma IntegrationPackageShape(list: string, w: Wording, start: nat)
    ensures var d := IntegrationPackage(list, w, start);
      && d.hours == 16 && SubtaskHours(d.subtasks) == d.hours && d.milestone == w.goLiveMilestone
      && d.description == Fill(w.integrationDescription, list)
      && Consecutive(OwnIds(d), start) && |OwnIds(d)| == 4
  {
    var sts := IntegrationPackage(list, w, start).subtasks;
    SubtaskHours3(sts[0], sts[1], sts[2]);
    assert sts == [sts[0], sts[1], sts[2]];
  }

  /** The multi-warehouse deliverable: 4 hours per warehouse (2 warehouses
      when the count is 0), no subtasks. */
  function WarehousePackage(warehouseCount: int, w: Wording, start: nat): Deliverable
  {
    var count := OrDefault(warehouseCount, 2);
    Deliv(start, TaskText(w.warehouseTitle, Fill(w.warehouseDescription, IntToString(count))),
      count * 4, Medium, Implementation, w.goLiveMilestone, [])
  }

  lemma WarehousePackageShape(warehouseCount: int, w: Wording, start: nat)
    ensures var d := WarehousePackage(warehouseCount, w, start);
      && d.hours == 4 * (if warehouseCount == 0 then 2 else warehouseCount)
      && d.priority == Medium && d.subtasks == [] && OwnIds(d) == [start]
  {
  }

  // ---------------------------------------------------------------------
  // Adoption
  // ---------------------------------------------------------------------

  /** The training deliverable: 35% admins, 50% end users, 15% materials. */
  function TrainingPackage(hours: int, w: Wording, start: nat): Deliverable
  {
    Deliv(start, w.training, hours, High, Adoption, w.goLiveMilestone,
      [ Sub(start + 1, w.trainingAdmins, RoundPercent(hours, 35), High, Adoption),
        Sub(start + 2, w.trainingUsers, RoundPercent(hours, 50), High, Adoption),
        Sub(start + 3, w.trainingMaterials, RoundPercent(hours, 15), Medium, Adoption) ])
  }

  lemma TrainingPackageShape(hours: int, w: Wording, start: nat)
    ensures var d := TrainingPackage(hours, w, start);
      && d.hours == hours && |d.subtasks| == 3
      && SubtaskHours(d.subtasks) == RoundPercent(hours, 35) + RoundPercent(hours, 50) + RoundPercent(hours, 15)
      && Consecutive(OwnIds(d), start) && |OwnIds(d)| == 4
  {
    var sts := TrainingPackage(hours, w, start).subtasks;
    SubtaskHours3(sts[0], sts[1], sts[2]);
    assert sts == [sts[0], sts[1], sts[2]];
  }

  /** The go-live deliverable: a quarter, rounded, for preparation and the
      remainder for support. */
  function GoLivePackage(hours: int, w: Wording, start: nat): Deliverable
  {
    var prep := RoundPercent(hours, 25);
    Deliv(start, w.goLive, hours, High, Adoption, w.goLiveMilestone,
      [ Sub(start + 1, w.goLivePreparation, prep, High, Adoption),
        Sub(start + 2, w.goLiveSupport, hours - prep, High, Adoption) ])
  }

  /** Unlike the other packages, the go-live split is exact. */
  lemma GoLivePackageExact(hours: int, w: Wording, start: nat)
    ensures var d := GoLivePackage(hours, w, start);
      && d.hours == hours && SubtaskHours(d.subtasks) == hours
      && Consecutive(OwnIds(d), start) && |OwnIds(d)| == 3
  {
    var sts := GoLivePackage(hours, w, start).subtasks;
    SubtaskHours2(sts[0], sts[1]);
    assert sts == [sts[0], sts[1]];
  }

  /** The subtask of support month `month`. */
  function MonthSubtask(month: int, perMonth: int, w: Wording, id: nat): Subtask
  {
    Sub(id, TaskText(Fill(w.month.title, IntToString(month)), Fill(w.month.description, IntToString(month))),
      perMonth, Medium, Adoption)
  }

  /** The subtasks of months 1 to `n`, the first on id `firstId`. */
  function MonthlySubtasks(perMonth: int, n: nat, w: Wording, firstId: nat): seq<Subtask>
  {
    if n == 0 then []
    else MonthlySubtasks(perMonth, n - 1, w, firstId) + [MonthSubtask(n, perMonth, w, firstId + n - 1)]
  }

  lemma {:induction false} MonthlySubtasksLength(perMonth: int, n: nat, w: Wording, firstId: nat)
    ensures |MonthlySubtasks(perMonth, n, w, firstId)| == n
  {
    if n > 0 {
      MonthlySubtasksLength(perMonth, n - 1, w, firstId);
    }
  }

  /** Month subtasks of `perMonth` hours each add up to `perMonth * n`. */
  lemma {:induction false} MonthlySubtasksHours(perMonth: int, n: nat, w: Wording, firstId: nat)
    ensures SubtaskHours(MonthlySubtasks(perMonth, n, w, firstId)) == perMonth * n
  {
    if n > 0 {
      var prev := MonthlySubtasks(perMonth, n - 1, w, firstId);
      var last := MonthSubtask(n, perMonth, w, firstId + n - 1);
      MonthlySubtasksHours(perMonth, n - 1, w, firstId);
      SubtaskHoursAppend(prev, [last]);
      assert SubtaskHours([last]) == perMonth by {
        assert [last][..0] == [];
      }
      assert perMonth * n == perMonth * (n - 1) + perMonth;
    }
  }

  /** The month subtasks sit on consecutive ids from `firstId`. */
  lemma {:induction false} MonthlySubtasksIds(perMonth: int, n: nat, w: Wording, firstId: nat)
    ensures Consecutive(SubtaskIds(MonthlySubtasks(perMonth, n, w, firstId)), firstId)
  {
    if n > 0 {
      var prev := MonthlySubtasks(perMonth, n - 1, w, firstId);
      var last := MonthSubtask(n, perMonth, w, firstId + n - 1);
      MonthlySubtasksIds(perMonth, n - 1, w, firstId);
      MonthlySubtasksLength(perMonth, n - 1, w, firstId);
      var sts := prev + [last];
      assert sts[..|sts| - 1] == prev;
      assert SubtaskIds(sts) == SubtaskIds(prev) + [last.id];
      ConsecutiveAppend(SubtaskIds(prev), [last.id], firstId);
    }
  }

  /** One subtask of `perMonth` hours per month, on consecutive ids. */
  lemma MonthlySubtasksShape(perMonth: int, n: nat, w: Wording, firstId: nat)
    ensures var sts := MonthlySubtasks(perMonth, n, w, firstId);
      |sts| == n && SubtaskHours(sts) == perMonth * n && Consecutive(SubtaskIds(sts), firstId)
  {
    MonthlySubtasksLength(perMonth, n, w, firstId);
    MonthlySubtasksHours(perMonth, n, w, firstId);
    MonthlySubtasksIds(perMonth, n, w, firstId);
  }

  /** Subtask `m` (from 0) is the one of month `m + 1`. */
  lemma {:induction false} MonthlySubtaskAt(perMonth: int, n: nat, w: Wording, firstId: nat, m: nat)
    requires m < n
    ensures |MonthlySubtasks(perMonth, n, w, firstId)| == n
    ensures MonthlySubtasks(perMonth, n, w, firstId)[m] == MonthSubtask(m + 1, perMonth, w, firstId + m)
  {
    MonthlySubtasksLength(perMonth, n, w, firstId);
    MonthlySubtasksLength(perMonth, n - 1, w, firstId);
    var front := MonthlySubtasks(perMonth, n - 1, w, firstId);
    assert MonthlySubtasks(perMonth, n, w, firstId) == front + [MonthSubtask(n, perMonth, w, firstId + n - 1)];
    hide MonthSubtask, MonthlySubtasks;
    if m < n - 1 {
      MonthlySubtaskAt(perMonth, n - 1, w, firstId, m);
    }
  }

  /** The post-go-live support deliverable over the given month subtasks. */
  function SupportPackage(perMonth: int, months: int, w: Wording, start: nat, subtasks: seq<Subtask>): Deliverable
  {
    Deliv(start, TaskText(w.supportTitle, Fill2(w.supportDescription, IntToString(months), IntToString(perMonth))),
      perMonth * months, Medium, Adoption, w.goLiveMilestone, subtasks)
  }

  /** The training hours, go-live hours, support hours per month and support
      months of `generateAdoptionPhase`, with its defaults. */
  function AdoptionTraining(r: Responses): int { OrDefault(r.trainingHours, 24) }
  function AdoptionGoLive(r: Responses): int { OrDefault(r.goLiveHours, 8) }
  function AdoptionPerMonth(r: Responses): int { OrDefault(r.supportHoursPerMonth, 10) }
  function AdoptionMonths(r: Responses): int { OrDefault(r.supportMonths, 2) }

  function TrainingPart(r: Responses, w: Wording, start: nat): seq<Deliverable>
  {
    if AdoptionTraining(r) > 0 then [TrainingPackage(AdoptionTraining(r), w, start)] else []
  }

  function GoLivePart(r: Responses, w: Wording, start: nat): seq<Deliverable>
  {
    if AdoptionGoLive(r) > 0 then [GoLivePackage(AdoptionGoLive(r), w, start)] else []
  }

  function SupportPart(r: Responses, w: Wording, start: nat): seq<Deliverable>
  {
    var months := AdoptionMonths(r);
    var perMonth := AdoptionPerMonth(r);
    if months > 0 && perMonth > 0 then
      [SupportPackage(perMonth, months, w, start, MonthlySubtasks(perMonth, months, w, start + 1))]
    else []
  }

  /** The Adoption deliverables: training, go-live and monthly support, each
      only when its hours are positive, on ids from `start`. */
  function AdoptionPhase(r: Responses, w: Wording, start: nat): seq<Deliverable>
  {
    var t := TrainingPart(r, w, start);
    var g := GoLivePart(r, w, start + 4 * |t|);
    var s := SupportPart(r, w, start + 4 * |t| + 3 * |g|);
    t + g + s
  }

  /** How many ids the Adoption phase uses. */
  function AdoptionIdCount(r: Responses): nat
  {
    (if AdoptionTraining(r) > 0 then 4 else 0)
    + (if AdoptionGoLive(r) > 0 then 3 else 0)
    + (if AdoptionMonths(r) > 0 && AdoptionPerMonth(r) > 0 then 1 + AdoptionMonths(r) else 0)
  }

  /** The support block of `generateAdoptionPhase`: the deliverable on
      `supportId`, then one subtask per month on the following ids. */
  method GenerateSupport(perMonth: int, months: int, w: Wording, supportId: nat) returns (d: Deliverable)
    requires months > 0
    ensures d == SupportPackage(perMonth, months, w, supportId, MonthlySubtasks(perMonth, months, w, supportId + 1))
  {
    var id := supportId + 1;
    var subtasks: seq<Subtask> := [];
    var month := 1;
    while month <= months
      invariant 1 <= month <= months + 1
      invariant id == supportId + month
      invariant subtasks == MonthlySubtasks(perMonth, month - 1, w, supportId + 1)
    {
      subtasks := subtasks + [MonthSubtask(month, perMonth, w, id)];
      id := id + 1;
      month := month + 1;
    }
    d := SupportPackage(perMonth, months, w, supportId, subtasks);
  }

  /** `generateAdoptionPhase`. */
  method GenerateAdoptionPhase(r: Responses, w: Wording, startId: nat) returns (ds: seq<Deliverable>)
    ensures ds == AdoptionPhase(r, w, startId)
  {
    ds := [];
    var id := startId;
    var training := OrDefault(r.trainingHours, 24);
    var perMonth := OrDefault(r.supportHoursPerMonth, 10);
    var months := OrDefault(r.supportMonths, 2);
    if training > 0 {
      ds := ds + [TrainingPackage(training, w, id)];
      id := id + 4;
    }
    assert ds == TrainingPart(r, w, startId) && id == startId + 4 * |ds|;
    ghost var t := ds;
    var goLive := OrDefault(r.goLiveHours, 8);
    if goLive > 0 {
      ds := ds + [GoLivePackage(goLive, w, id)];
      id := id + 3;
    }
    ghost var g := GoLivePart(r, w, startId + 4 * |t|);
    assert ds == t + g && id == startId + 4 * |t| + 3 * |g|;
    ghost var tg := ds;
    if months > 0 && perMonth > 0 {
      var support := GenerateSupport(perMonth, months, w, id);
      ds := ds + [support];
    }
    assert ds == tg + SupportPart(r, w, id);
  }

  /** The ids of a part holding at most one package. */
  lemma PartIds(part: seq<Deliverable>, start: nat, count: nat)
    requires |part| <= 1
    requires part != [] ==> Consecutive(OwnIds(part[0]), start) && |OwnIds(part[0])| == count
    ensures Consecutive(Ids(part), start)
    ensures |Ids(part)| == if part == [] then 0 else count
  {
    if part != [] {
      IdsSingle(part[0]);
      assert part == [part[0]];
    }
  }

  lemma SupportPackageIds(r: Responses, w: Wording, start: nat)
    requires AdoptionMonths(r) > 0 && AdoptionPerMonth(r) > 0
    ensures var d := SupportPart(r, w, start)[0];
      Consecutive(OwnIds(d), start) && |OwnIds(d)| == 1 + AdoptionMonths(r)
  {
    var d := SupportPart(r, w, start)[0];
    MonthlySubtasksShape(AdoptionPerMonth(r), AdoptionMonths(r), w, start + 1);
    ConsecutiveAppend([start], SubtaskIds(d.subtasks), start);
  }

  lemma TrainingPartIds(r: Responses, w: Wording, start: nat)
    ensures Consecutive(Ids(TrainingPart(r, w, start)), start)
    ensures |Ids(TrainingPart(r, w, start))| == if AdoptionTraining(r) > 0 then 4 else 0
    ensures |TrainingPart(r, w, start)| == if AdoptionTraining(r) > 0 then 1 else 0
  {
    TrainingPackageShape(AdoptionTraining(r), w, start);
    PartIds(TrainingPart(r, w, start), start, 4);
  }

  lemma GoLivePartIds(r: Responses, w: Wording, start: nat)
    ensures Consecutive(Ids(GoLivePart(r, w, start)), start)
    ensures |Ids(GoLivePart(r, w, start))| == if AdoptionGoLive(r) > 0 then 3 else 0
    ensures |GoLivePart(r, w, start)| == if AdoptionGoLive(r) > 0 then 1 else 0
  {
    GoLivePackageExact(AdoptionGoLive(r), w, start);
    PartIds(GoLivePart(r, w, start), start, 3);
  }

  lemma SupportPartIds(r: Responses, w: Wording, start: nat)
    ensures Consecutive(Ids(SupportPart(r, w, start)), start)
    ensures |Ids(SupportPart(r, w, start))|
            == if AdoptionMonths(r) > 0 && AdoptionPerMonth(r) > 0 then 1 + AdoptionMonths(r) else 0
  {
    if AdoptionMonths(r) > 0 && AdoptionPerMonth(r) > 0 {
      SupportPackageIds(r, w, start);
      PartIds(SupportPart(r, w, start), start, 1 + AdoptionMonths(r));
    }
  }

  lemma AdoptionPhaseSplit(r: Responses, w: Wording, start: nat)
    ensures var t := TrainingPart(r, w, start);
            var g := GoLivePart(r, w, start + 4 * |t|);
            AdoptionPhase(r, w, start) == t + g + SupportPart(r, w, start + 4 * |t| + 3 * |g|)
  {
  }

  /** The Adoption ids are consecutive from `start`. */
  lemma AdoptionPhaseIds(r: Responses, w: Wording, start: nat)
    ensures Consecutive(Ids(AdoptionPhase(r, w, start)), start)
    ensures |Ids(AdoptionPhase(r, w, start))| == AdoptionIdCount(r)
  {
    hide AdoptionPhase, TrainingPart, GoLivePart, SupportPart, Ids, Consecutive;
    var t := TrainingPart(r, w, start);
    var g0 := start + 4 * |t|;
    var g := GoLivePart(r, w, g0);
    var s0 := g0 + 3 * |g|;
    var s := SupportPart(r, w, s0);
    AdoptionPhaseSplit(r, w, start);
    TrainingPartIds(r, w, start);
    GoLivePartIds(r, w, g0);
    SupportPartIds(r, w, s0);
    ThreePartIds(t, g, s, start);
  }

  /** Three lists whose ids run on from one to the next. */
  lemma ThreePartIds(t: seq<Deliverable>, g: seq<Deliverable>, s: seq<Deliverable>, start: nat)
    requires Consecutive(Ids(t), start) && Consecutive(Ids(g), start + |Ids(t)|)
    requires Consecutive(Ids(s), start + |Ids(t)| + |Ids(g)|)
    ensures Consecutive(Ids(t + g + s), start) && |Ids(t + g + s)| == |Ids(t)| + |Ids(g)| + |Ids(s)|
  {
    IdsAppend(t + g, s);
    IdsAppend(t, g);
    ConsecutiveAppend(Ids(t), Ids(g), start);
    ConsecutiveAppend(Ids(t) + Ids(g), Ids(s), start);
  }

  /** The support deliverable's subtasks add up to its `perMonth * months`
      hours, one subtask per month. */
  lemma SupportPartExact(r: Responses, w: Wording, start: nat)
    requires AdoptionMonths(r) > 0 && AdoptionPerMonth(r) > 0
    ensures var s := SupportPart(r, w, start);
      && |s| == 1 && s[0].hours == AdoptionPerMonth(r) * AdoptionMonths(r)
      && |s[0].subtasks| == AdoptionMonths(r) && SubtaskHours(s[0].subtasks) == s[0].hours
  {
    MonthlySubtasksShape(AdoptionPerMonth(r), AdoptionMonths(r), w, start + 1);
  }
}
