/** `generateProjectPlan`: the whole plan of a questionnaire's responses. The
    Clarity, Implementation and Adoption phases are generated when switched
    on, from one id counter starting at 1; every standard module with
    positive hours and every named custom module with positive hours gets a
    work package and a milestone; the flat task list and the statistics are
    derived from the deliverables. */
module PlanGenerator {
  import opened Common
  import opened PlanModel
  import opened PlanWording
  import opened PlanBlocks
  import opened FlatTasks
  import opened Assignment

  datatype ProjectInfo = ProjectInfo(
    name: string,
    client: string,
    manager: string,
    startDate: Option<int>,
    deadline: Option<int>,
    language: string,
    allocatedHours: int)

  datatype PlanStats = PlanStats(deliverableCount: nat, subtaskCount: nat, totalTasks: nat, totalHours: int)

  datatype ProjectPlan = ProjectPlan(
    projectInfo: ProjectInfo,
    milestones: seq<Milestone>,
    deliverables: seq<Deliverable>,
    flatTasks: seq<FlatTask>,
    stats: PlanStats)

  // ---------------------------------------------------------------------
  // Allocated hours
  // ---------------------------------------------------------------------

  function ClarityBudget(r: Responses): int
  {
    if r.clarityPhase then r.clarityHours else 0
  }

  /** Module and custom-module hours are counted whether or not the
      Implementation phase is switched on. */
  function ImplementationBudget(r: Responses): int
  {
    ModuleHoursTotal(r.moduleHours) + CustomHoursTotal(r.customModules)
  }

  function AdoptionBudget(r: Responses): int
  {
    if r.adoptionPhase then r.trainingHours + r.goLiveHours + r.supportHoursPerMonth * r.supportMonths else 0
  }

  /** `projectInfo.allocated_hours`. */
  function AllocatedHours(r: Responses): int
  {
    ClarityBudget(r) + ImplementationBudget(r) + AdoptionBudget(r)
  }

  // ---------------------------------------------------------------------
  // Standard modules: one package of ten ids per entry with positive hours
  // ---------------------------------------------------------------------

  function PositiveCount(entries: seq<ModuleEntry>): nat
  {
    if entries == [] then 0
    else PositiveCount(entries[..|entries| - 1]) + (if entries[|entries| - 1].hours > 0 then 1 else 0)
  }

  /** The entries with positive hours, in order. */
  function PositiveEntries(entries: seq<ModuleEntry>): (r: seq<ModuleEntry>)
    ensures |r| == PositiveCount(entries)
  {
    if entries == [] then []
    else
      var e := entries[|entries| - 1];
      PositiveEntries(entries[..|entries| - 1]) + (if e.hours > 0 then [e] else [])
  }

  /** The packages of the standard-module loop; the package of the `k`-th
      positive entry starts at `start + 10 * k`. */
  function ModulePackages(entries: seq<ModuleEntry>, w: Wording, start: nat): seq<Deliverable>
  {
    if entries == [] then []
    else
      var init := entries[..|entries| - 1];
      var e := entries[|entries| - 1];
      ModulePackages(init, w, start)
      + (if e.hours > 0 then [ModulePackage(e.name, e.hours, w, start + 10 * PositiveCount(init))] else [])
  }

  /** The milestones of the standard-module loop, ordered from `firstOrder`. */
  function ModuleMilestones(entries: seq<ModuleEntry>, w: Wording, firstOrder: int): seq<Milestone>
  {
    if entries == [] then []
    else
      var init := entries[..|entries| - 1];
      var e := entries[|entries| - 1];
      ModuleMilestones(init, w, firstOrder)
      + (if e.hours > 0 then [Milestone(Implementation, ModuleTitle(w, e.name), firstOrder + PositiveCount(init))] else [])
  }

  // ---------------------------------------------------------------------
  // Custom modules: a package per module with a name and positive hours
  // ---------------------------------------------------------------------

  predicate Eligible(cm: CustomModule)
  {
    cm.name != "" && cm.hours > 0
  }

  function EligibleCount(cms: seq<CustomModule>): nat
  {
    if cms == [] then 0
    else EligibleCount(cms[..|cms| - 1]) + (if Eligible(cms[|cms| - 1]) then 1 else 0)
  }

  function EligibleCustoms(cms: seq<CustomModule>): (r: seq<CustomModule>)
    ensures |r| == EligibleCount(cms)
  {
    if cms == [] then []
    else
      var cm := cms[|cms| - 1];
      EligibleCustoms(cms[..|cms| - 1]) + (if Eligible(cm) then [cm] else [])
  }

  function CustomPackages(cms: seq<CustomModule>, w: Wording, start: nat): seq<Deliverable>
  {
    if cms == [] then []
    else
      var init := cms[..|cms| - 1];
      var cm := cms[|cms| - 1];
      CustomPackages(init, w, start)
      + (if Eligible(cm) then [CustomPackage(cm, w, start + 10 * EligibleCount(init))] else [])
  }

  function CustomMilestones(cms: seq<CustomModule>, w: Wording, firstOrder: int): seq<Milestone>
  {
    if cms == [] then []
    else
      var init := cms[..|cms| - 1];
      var cm := cms[|cms| - 1];
      CustomMilestones(init, w, firstOrder)
      + (if Eligible(cm) then [Milestone(Implementation, ModuleTitle(w, cm.name), firstOrder + EligibleCount(init))] else [])
  }

  /** One more entry of the standard-module loop. */
  lemma ModuleStep(entries: seq<ModuleEntry>, i: nat, w: Wording, start: nat, firstOrder: int)
    requires i < |entries|
    ensures var e := entries[i];
      && PositiveCount(entries[..i + 1]) == PositiveCount(entries[..i]) + (if e.hours > 0 then 1 else 0)
      && ModulePackages(entries[..i + 1], w, start)
         == ModulePackages(entries[..i], w, start)
            + (if e.hours > 0 then [ModulePackage(e.name, e.hours, w, start + 10 * PositiveCount(entries[..i]))] else [])
      && ModuleMilestones(entries[..i + 1], w, firstOrder)
         == ModuleMilestones(entries[..i], w, firstOrder)
            + (if e.hours > 0 then [Milestone(Implementation, ModuleTitle(w, e.name), firstOrder + PositiveCount(entries[..i]))] else [])
  {
    assert entries[..i + 1][..i] == entries[..i];
  }

  /** One more entry of the custom-module loop. */
  lemma CustomStep(cms: seq<CustomModule>, j: nat, w: Wording, start: nat, firstOrder: int)
    requires j < |cms|
    ensures var cm := cms[j];
      && EligibleCount(cms[..j + 1]) == EligibleCount(cms[..j]) + (if Eligible(cm) then 1 else 0)
      && CustomPackages(cms[..j + 1], w, start)
         == CustomPackages(cms[..j], w, start)
            + (if Eligible(cm) then [CustomPackage(cm, w, start + 10 * EligibleCount(cms[..j]))] else [])
      && CustomMilestones(cms[..j + 1], w, firstOrder)
         == CustomMilestones(cms[..j], w, firstOrder)
            + (if Eligible(cm) then [Milestone(Implementation, ModuleTitle(w, cm.name), firstOrder + EligibleCount(cms[..j]))] else [])
  {
    assert cms[..j + 1][..j] == cms[..j];
  }

  // ---------------------------------------------------------------------
  // The phases and where their ids start
  // ---------------------------------------------------------------------

  predicate HasIntegrations(r: Responses)
  {
    r.integrations == "Yes" && r.integrationList != ""
  }

  predicate HasWarehouses(r: Responses)
  {
    r.multiWarehouse == "Yes"
  }

  function CustomsStart(r: Responses, start: nat): nat
  {
    start + 5 + 10 * PositiveCount(r.moduleHours)
  }

  function IntegrationStart(r: Responses, start: nat): nat
  {
    CustomsStart(r, start) + 10 * EligibleCount(r.customModules)
  }

  function WarehouseStart(r: Responses, start: nat): nat
  {
    IntegrationStart(r, start) + (if HasIntegrations(r) then 4 else 0)
  }

  function ImplementationEnd(r: Responses, start: nat): nat
  {
    WarehouseStart(r, start) + (if HasWarehouses(r) then 1 else 0)
  }

  function IntegrationPart(r: Responses, w: Wording, start: nat): seq<Deliverable>
  {
    if HasIntegrations(r) then [IntegrationPackage(r.integrationList, w, IntegrationStart(r, start))] else []
  }

  function WarehousePart(r: Responses, w: Wording, start: nat): seq<Deliverable>
  {
    if HasWarehouses(r) then [WarehousePackage(r.warehouseCount, w, WarehouseStart(r, start))] else []
  }

  /** The Implementation deliverables: the general setup, the standard and
      the custom modules' packages, integrations, multi-warehouse. */
  function ImplementationPhase(r: Responses, w: Wording, start: nat): seq<Deliverable>
  {
    [OdooSetup(w, start)]
    + ModulePackages(r.moduleHours, w, start + 5)
    + CustomPackages(r.customModules, w, CustomsStart(r, start))
    + ExtrasPart(r, w, start)
  }

  /** The integration and the multi-warehouse packages. */
  function ExtrasPart(r: Responses, w: Wording, start: nat): seq<Deliverable>
  {
    IntegrationPart(r, w, start) + WarehousePart(r, w, start)
  }

  function ClarityPart(r: Responses, w: Wording): seq<Deliverable>
  {
    if r.clarityPhase then ClarityPhase(r.clarityHours, w, 1) else []
  }

  /** The counter after Clarity: it advances by five per Clarity
      deliverable, though each uses four ids. */
  function ImplementationStart(r: Responses): nat
  {
    if r.clarityPhase then 16 else 1
  }

  function ImplementationPart(r: Responses, w: Wording): seq<Deliverable>
  {
    if r.implementationPhase then ImplementationPhase(r, w, ImplementationStart(r)) else []
  }

  function AdoptionStart(r: Responses): nat
  {
    if r.implementationPhase then ImplementationEnd(r, ImplementationStart(r)) else ImplementationStart(r)
  }

  function AdoptionPart(r: Responses, w: Wording): seq<Deliverable>
  {
    if r.adoptionPhase then AdoptionPhase(r, w, AdoptionStart(r)) else []
  }

  /** The first id no deliverable or subtask uses. */
  function NextId(r: Responses): nat
  {
    AdoptionStart(r) + (if r.adoptionPhase then AdoptionIdCount(r) else 0)
  }

  /** The plan's deliverables, in the order they are pushed. */
  function PlanDeliverables(r: Responses, w: Wording): seq<Deliverable>
  {
    ClarityPart(r, w) + ImplementationPart(r, w) + AdoptionPart(r, w)
  }

  function ClarityMilestones(r: Responses, w: Wording): seq<Milestone>
  {
    if r.clarityPhase then
      [ Milestone(Clarity, w.mapping.milestone, 1),
        Milestone(Clarity, w.design.milestone, 2),
        Milestone(Clarity, w.master.milestone, 3) ]
    else []
  }

  /** One milestone per generated module package, ordered from 11. */
  function ImplementationMilestones(r: Responses, w: Wording): seq<Milestone>
  {
    if r.implementationPhase then
      ModuleMilestones(r.moduleHours, w, 11) + CustomMilestones(r.customModules, w, 11 + PositiveCount(r.moduleHours))
    else []
  }

  function AdoptionMilestones(r: Responses, w: Wording): seq<Milestone>
  {
    if r.adoptionPhase then [Milestone(Adoption, w.goLiveMilestone, 100)] else []
  }

  function PlanMilestones(r: Responses, w: Wording): seq<Milestone>
  {
    ClarityMilestones(r, w) + ImplementationMilestones(r, w) + AdoptionMilestones(r, w)
  }

  // ---------------------------------------------------------------------
  // The generator
  // ---------------------------------------------------------------------

  /** `generateProjectPlan`, without `generated_at` and with the wording of
      the plan's language given. */
  method GenerateProjectPlan(r: Responses, w: Wording) returns (plan: ProjectPlan)
    ensures plan.deliverables == PlanDeliverables(r, w)
    ensures plan.milestones == PlanMilestones(r, w)
    ensures plan.flatTasks == Flat(plan.deliverables, r.teamMembers, GeneratorRoles, false)
    ensures plan.projectInfo == ProjectInfo(r.projectName, r.clientName, r.projectManager,
                                            r.startDate, r.deadline, r.language, AllocatedHours(r))
    ensures plan.stats.deliverableCount == |plan.deliverables|
    ensures plan.stats.subtaskCount == SubtaskCount(plan.deliverables)
    ensures plan.stats.totalTasks == |plan.flatTasks| == |plan.deliverables| + SubtaskCount(plan.deliverables)
    ensures plan.stats.totalHours == TotalHours(plan.deliverables)
  {
    var clarity, clarityMs, counter := GenerateClarityBlock(r, w);
    var implementation, implementationMs, next := GenerateImplementationBlock(r, w, counter);
    var adoption, adoptionMs := GenerateAdoptionBlock(r, w, next);
    var deliverables := clarity + implementation + adoption;
    var milestones := clarityMs + implementationMs + adoptionMs;
    var flat := GenerateFlatTaskList(deliverables, r.teamMembers, GeneratorRoles, false);
    FlatLength(deliverables, r.teamMembers, GeneratorRoles, false);
    var stats := PlanStats(|deliverables|, SubtaskCount(deliverables), |flat|, TotalHours(deliverables));
    var info := ProjectInfo(r.projectName, r.clientName, r.projectManager, r.startDate, r.deadline,
                            r.language, AllocatedHours(r));
    plan := ProjectPlan(info, milestones, deliverables, flat, stats);
  }

  /** The `clarity_phase` block: three deliverables from id 1, the counter
      advanced by five per deliverable, three milestones. */
  method GenerateClarityBlock(r: Responses, w: Wording) returns (ds: seq<Deliverable>, ms: seq<Milestone>, counter: nat)
    ensures ds == ClarityPart(r, w)
    ensures ms == ClarityMilestones(r, w)
    ensures counter == ImplementationStart(r)
  {
    ds := [];
    ms := [];
    counter := 1;
    if r.clarityPhase {
      var clarity := ClarityPhase(r.clarityHours, w, counter);
      counter := counter + |clarity| * 5;
      ds := ds + clarity;
      ms := ms + [Milestone(Clarity, w.mapping.milestone, 1)];
      ms := ms + [Milestone(Clarity, w.design.milestone, 2)];
      ms := ms + [Milestone(Clarity, w.master.milestone, 3)];
    }
  }

  /** The `implementation_phase` block, with the counter Clarity left. */
  method GenerateImplementationBlock(r: Responses, w: Wording, counter: nat)
    returns (ds: seq<Deliverable>, ms: seq<Milestone>, next: nat)
    requires counter == ImplementationStart(r)
    ensures ds == ImplementationPart(r, w)
    ensures ms == ImplementationMilestones(r, w)
    ensures next == AdoptionStart(r)
  {
    ds, ms, next := [], [], counter;
    if r.implementationPhase {
      ds, ms, next := GenerateImplementationPhase(r, w, counter);
    }
  }

  /** The `adoption_phase` block: its deliverables and the go-live
      milestone. */
  method GenerateAdoptionBlock(r: Responses, w: Wording, counter: nat)
    returns (ds: seq<Deliverable>, ms: seq<Milestone>)
    requires counter == AdoptionStart(r)
    ensures ds == AdoptionPart(r, w)
    ensures ms == AdoptionMilestones(r, w)
  {
    ds, ms := [], [];
    if r.adoptionPhase {
      ds := GenerateAdoptionPhase(r, w, counter);
      ms := [Milestone(Adoption, w.goLiveMilestone, 100)];
    }
  }

  /** The standard-module loop: a package and a milestone per entry with
      positive hours, each package advancing the counter by ten. */
  method GenerateModulePackages(entries: seq<ModuleEntry>, w: Wording, start: nat)
    returns (ds: seq<Deliverable>, ms: seq<Milestone>, counter: nat)
    ensures ds == ModulePackages(entries, w, start)
    ensures ms == ModuleMilestones(entries, w, 11)
    ensures counter == start + 10 * PositiveCount(entries)
  {
    ds, ms, counter := [], [], start;
    var moduleOrder := 1;
    var i := 0;
    while i < |entries|
      invariant 0 <= i <= |entries|
      invariant ds == ModulePackages(entries[..i], w, start)
      invariant ms == ModuleMilestones(entries[..i], w, 11)
      invariant counter == start + 10 * PositiveCount(entries[..i])
      invariant moduleOrder == 1 + PositiveCount(entries[..i])
    {
      var e := entries[i];
      ModuleStep(entries, i, w, start, 11);
      if e.hours > 0 {
        ds := ds + [ModulePackage(e.name, e.hours, w, counter)];
        counter := counter + 10;
        ms := ms + [Milestone(Implementation, ModuleTitle(w, e.name), 10 + moduleOrder)];
        moduleOrder := moduleOrder + 1;
      }
      i := i + 1;
    }
    assert entries[..i] == entries;
  }

  /** The custom-module loop: a package and a milestone per module with a
      name and positive hours; the milestone order continues from
      `firstOrder`. */
  method GenerateCustomPackages(cms: seq<CustomModule>, w: Wording, start: nat, firstOrder: int)
    returns (ds: seq<Deliverable>, ms: seq<Milestone>, counter: nat)
    ensures ds == CustomPackages(cms, w, start)
    ensures ms == CustomMilestones(cms, w, firstOrder)
    ensures counter == start + 10 * EligibleCount(cms)
  {
    ds, ms, counter := [], [], start;
    var moduleOrder := firstOrder - 10;
    var j := 0;
    while j < |cms|
      invariant 0 <= j <= |cms|
      invariant ds == CustomPackages(cms[..j], w, start)
      invariant ms == CustomMilestones(cms[..j], w, firstOrder)
      invariant counter == start + 10 * EligibleCount(cms[..j])
      invariant moduleOrder == firstOrder - 10 + EligibleCount(cms[..j])
    {
      var cm := cms[j];
      CustomStep(cms, j, w, start, firstOrder);
      if cm.name != "" && cm.hours > 0 {
        ds := ds + [CustomPackage(cm, w, counter)];
        counter := counter + 10;
        ms := ms + [Milestone(Implementation, ModuleTitle(w, cm.name), 10 + moduleOrder)];
        moduleOrder := moduleOrder + 1;
      }
      j := j + 1;
    }
    assert cms[..j] == cms;
  }

  /** The body of the `implementation_phase` block: the setup, the two
      module loops, integrations and multi-warehouse. */
  method GenerateImplementationPhase(r: Responses, w: Wording, start: nat)
    returns (ds: seq<Deliverable>, ms: seq<Milestone>, counter: nat)
    ensures ds == ImplementationPhase(r, w, start)
    ensures ms == ModuleMilestones(r.moduleHours, w, 11) + CustomMilestones(r.customModules, w, 11 + PositiveCount(r.moduleHours))
    ensures counter == ImplementationEnd(r, start)
  {
    var setup := OdooSetup(w, start);
    var modules, moduleMs, c1 := GenerateModulePackages(r.moduleHours, w, start + 5);
    var customs, customMs, c2 := GenerateCustomPackages(r.customModules, w, c1, 11 + PositiveCount(r.moduleHours));
    var extras, c3 := GenerateExtras(r, w, start, c2);
    ds := [setup] + modules + customs + extras;
    ms := moduleMs + customMs;
    counter := c3;
  }

  /** The integration package, when integrations are wanted and listed,
      and the multi-warehouse package, when wanted. */
  method GenerateExtras(r: Responses, w: Wording, start: nat, counter: nat)
    returns (ds: seq<Deliverable>, next: nat)
    requires counter == IntegrationStart(r, start)
    ensures ds == ExtrasPart(r, w, start)
    ensures next == ImplementationEnd(r, start)
  {
    ds, next := [], counter;
    if r.integrations == "Yes" && r.integrationList != "" {
      ds := ds + [IntegrationPackage(r.integrationList, w, next)];
      next := next + 4;
    }
    assert ds == IntegrationPart(r, w, start) && next == WarehouseStart(r, start);
    if r.multiWarehouse == "Yes" {
      ds := ds + [WarehousePackage(r.warehouseCount, w, next)];
      next := next + 1;
    }
  }
}
