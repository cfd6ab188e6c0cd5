/** `consolidateTasks`: the raw tasks of the task library grouped into
    deliverables phase by phase, with one id counter threaded through
    every deliverable and subtask, then flattened for export. Each phase is
    specified by a function shaped like its loop (the deliverables so far,
    then the next group's or module's), and each consolidating method is
    proved to build exactly that list. */
module TaskConsolidator {
  import opened Common
  import opened Text
  import opened PlanModel
  import opened PlanWording
  import opened Assignment
  import opened FlatTasks
  import opened HourNormalization
  import opened ConsolidatorConfig
  import opened ConsolidatorParts

  /** The ids a list of deliverables uses: one per deliverable and one per
      subtask, the `1 + d.subtasks.length` the counter advances by. */
  function IdSpan(ds: seq<Deliverable>): nat
  {
    if ds == [] then 0 else IdSpan(ds[..|ds| - 1]) + 1 + |ds[|ds| - 1].subtasks|
  }

  lemma IdSpanOne(d: Deliverable)
    ensures IdSpan([d]) == 1 + |d.subtasks|
  {
    assert [d][..0] == [];
  }

  lemma IdSpanPush(ds: seq<Deliverable>, d: Deliverable)
    ensures IdSpan(ds + [d]) == IdSpan(ds) + 1 + |d.subtasks|
  {
    assert (ds + [d])[..|ds|] == ds;
  }

  // ---------------------------------------------------------------------
  // Hour budgets
  // ---------------------------------------------------------------------

  /** `parseFloat(clarity_hours) || 40`. */
  function ClarityBudget(r: ConsolidatorResponses): int
  {
    OrDefault(r.clarityHours, 40)
  }

  /** Sum of the custom slots' hours, a missing value counting 0. */
  function SlotHoursTotal(slots: seq<CustomSlot>): int
  {
    if slots == [] then 0 else SlotHoursTotal(slots[..|slots| - 1]) + slots[|slots| - 1].hours
  }

  /** `calculateImplementationHours`: an explicit `implementation_hours`
      wins; otherwise 20 per selected module plus the custom slots' hours. */
  function ImplementationHours(r: ConsolidatorResponses): int
  {
    if r.implementationHours != 0 then r.implementationHours
    else 20 * |r.modules| + SlotHoursTotal(r.customSlots)
  }

  method CalculateImplementationHours(r: ConsolidatorResponses) returns (total: int)
    ensures r.implementationHours != 0 ==> total == r.implementationHours
    ensures r.implementationHours == 0 ==> total == 20 * |r.modules| + SlotHoursTotal(r.customSlots)
  {
    total := 0;
    total := total + |r.modules| * 20;
    var i := 0;
    while i < |r.customSlots|
      invariant 0 <= i <= |r.customSlots|
      invariant total == 20 * |r.modules| + SlotHoursTotal(r.customSlots[..i])
    {
      assert r.customSlots[..i + 1][..i] == r.customSlots[..i];
      total := total + r.customSlots[i].hours;
      i := i + 1;
    }
    assert r.customSlots[..i] == r.customSlots;
    if r.implementationHours != 0 {
      return r.implementationHours;
    }
  }

  /** `Math.round(total * 0.7 / modules.length)`, 0 without modules. */
  function HoursPerModule(r: ConsolidatorResponses): int
  {
    if |r.modules| > 0 then RoundQuotient(ImplementationHours(r) * 7, 10 * |r.modules|) else 0
  }

  /** Adoption's budget: training (16 by default) plus support hours per
      month (20 by default) times the months (2 by default, at most 3). */
  function AdoptionTraining(r: ConsolidatorResponses): int { OrDefault(r.trainingHours, 16) }
  function AdoptionPerMonth(r: ConsolidatorResponses): int { OrDefault(r.supportHoursPerMonth, 20) }
  function AdoptionMonths(r: ConsolidatorResponses): int
  {
    var months := OrDefault(r.adoptionMonths, 2);
    if months < 3 then months else 3
  }

  function AdoptionBudget(r: ConsolidatorResponses): int
  {
    AdoptionTraining(r) + AdoptionPerMonth(r) * AdoptionMonths(r)
  }

  // ---------------------------------------------------------------------
  // The ids each part takes, computed from the inputs
  // ---------------------------------------------------------------------

  /** One id per matched Clarity group and one per task it matched. */
  function ClaritySpan(tasks: seq<RawTask>, gs: seq<PhaseGroup>): nat
  {
    if gs == [] then 0
    else
      var matching := Select(tasks, ByPatterns(gs[|gs| - 1].patterns));
      ClaritySpan(tasks, gs[..|gs| - 1]) + (if matching == [] then 0 else 1 + |matching|)
  }

  /** One id per Adoption group, matched or not, and one per task it matched. */
  function AdoptionSpan(tasks: seq<RawTask>, gs: seq<PhaseGroup>): nat
  {
    if gs == [] then 0
    else AdoptionSpan(tasks, gs[..|gs| - 1]) + 1 + |Select(tasks, ByPatterns(gs[|gs| - 1].patterns))|
  }

  /** One id per matched module group of one module and one per task it matched. */
  function ModuleSpan(moduleTasks: seq<RawTask>, gs: seq<ModuleGroup>): nat
  {
    if gs == [] then 0
    else
      var matching := Select(moduleTasks, ByPatterns(gs[|gs| - 1].patterns));
      ModuleSpan(moduleTasks, gs[..|gs| - 1]) + (if matching == [] then 0 else 1 + |matching|)
  }

  function ModulesSpan(tasks: seq<RawTask>, names: seq<string>, gs: seq<ModuleGroup>): nat
  {
    if names == [] then 0
    else ModulesSpan(tasks, names[..|names| - 1], gs) + ModuleSpan(Select(tasks, ByModule(names[|names| - 1])), gs)
  }

  /** The security deliverable, the warehouse deliverable and its subtasks,
      and the integration deliverable, as far as they are present. */
  function SpecialSpan(r: ConsolidatorResponses): nat
  {
    1 + (if r.multiWarehouse == "Yes" then 1 + WarehouseSlots(r) else 0)
    + (if r.integrations == "Yes" && r.integrationList != "" then 1 else 0)
  }

  /** Four ids per named custom slot. */
  function CustomSpan(slots: seq<CustomSlot>): nat
  {
    if slots == [] then 0 else CustomSpan(slots[..|slots| - 1]) + (if slots[|slots| - 1].name == "" then 0 else 4)
  }

  function ImplementationSpan(tasks: seq<RawTask>, r: ConsolidatorResponses, cfg: DeliverableGroups): nat
  {
    ModulesSpan(tasks, r.modules, cfg.moduleGroups) + SpecialSpan(r) + CustomSpan(r.customSlots)
  }

  // ---------------------------------------------------------------------
  // The phases, specified loop by loop
  // ---------------------------------------------------------------------

  /** Clarity: a deliverable for each group some task matches. The
      deliverables of the groups before the last, then what the last one
      adds (`ClarityGroupPart`); the two are defined together because the
      last group's deliverable takes the id after the earlier ones'. */
  function ClarityDeliverables(tasks: seq<RawTask>, gs: seq<PhaseGroup>, hours: int, spanish: bool, start: nat)
    : seq<Deliverable>
    decreases |gs|, 1
  {
    if gs == [] then []
    else ClarityDeliverables(tasks, gs[..|gs| - 1], hours, spanish, start) + ClarityGroupPart(tasks, gs, hours, spanish, start)
  }

  /** The last group's deliverable when some task matches it, nothing otherwise. */
  function ClarityGroupPart(tasks: seq<RawTask>, gs: seq<PhaseGroup>, hours: int, spanish: bool, start: nat)
    : seq<Deliverable>
    requires gs != []
    decreases |gs|, 0
  {
    var g := gs[|gs| - 1];
    var matching := Select(tasks, ByPatterns(g.patterns));
    if matching == [] then []
    else [GroupDeliverable(g, Clarity, matching, RoundPercent(hours, g.percent), false, spanish,
                           start + IdSpan(ClarityDeliverables(tasks, gs[..|gs| - 1], hours, spanish, start)))]
  }

  /** Adoption: a deliverable for every group, matched or not. */
  function AdoptionDeliverables(tasks: seq<RawTask>, gs: seq<PhaseGroup>, hours: int, spanish: bool, start: nat)
    : seq<Deliverable>
    decreases |gs|, 1
  {
    if gs == [] then []
    else AdoptionDeliverables(tasks, gs[..|gs| - 1], hours, spanish, start) + [AdoptionGroupDeliverable(tasks, gs, hours, spanish, start)]
  }

  /** The last group's deliverable, after the earlier groups' ids. */
  function AdoptionGroupDeliverable(tasks: seq<RawTask>, gs: seq<PhaseGroup>, hours: int, spanish: bool, start: nat)
    : Deliverable
    requires gs != []
    decreases |gs|, 0
  {
    var g := gs[|gs| - 1];
    GroupDeliverable(g, Adoption, Select(tasks, ByPatterns(g.patterns)), RoundPercent(hours, g.percent), true,
                     spanish, start + IdSpan(AdoptionDeliverables(tasks, gs[..|gs| - 1], hours, spanish, start)))
  }

  /** One module: a deliverable for each module group some of the module's
      tasks match. */
  function ModuleDeliverables(moduleTasks: seq<RawTask>, name: string, gs: seq<ModuleGroup>, hours: int,
                              spanish: bool, w: ConsolidatorWording, start: nat): seq<Deliverable>
    decreases |gs|, 1
  {
    if gs == [] then []
    else ModuleDeliverables(moduleTasks, name, gs[..|gs| - 1], hours, spanish, w, start)
         + ModuleGroupPart(moduleTasks, name, gs, hours, spanish, w, start)
  }

  /** The last module group's deliverable when some of the module's tasks
      match it, nothing otherwise. */
  function ModuleGroupPart(moduleTasks: seq<RawTask>, name: string, gs: seq<ModuleGroup>, hours: int,
                           spanish: bool, w: ConsolidatorWording, start: nat): seq<Deliverable>
    requires gs != []
    decreases |gs|, 0
  {
    var g := gs[|gs| - 1];
    var matching := Select(moduleTasks, ByPatterns(g.patterns));
    if matching == [] then []
    else [ModuleGroupDeliverable(g, name, matching, RoundPercent(hours, g.percent), spanish, w,
                                 start + IdSpan(ModuleDeliverables(moduleTasks, name, gs[..|gs| - 1], hours, spanish, w, start)))]
  }

  /** Every selected module in turn, each with the tasks that name it. */
  function ModulesDeliverables(tasks: seq<RawTask>, names: seq<string>, gs: seq<ModuleGroup>, hours: int,
                               spanish: bool, w: ConsolidatorWording, start: nat): seq<Deliverable>
  {
    if names == [] then []
    else
      var init := names[..|names| - 1];
      var name := names[|names| - 1];
      ModulesDeliverables(tasks, init, gs, hours, spanish, w, start)
      + ModuleDeliverables(Select(tasks, ByModule(name)), name, gs, hours, spanish, w,
                           start + ModulesSpan(tasks, init, gs))
  }

  /** Security always; multi-warehouse when answered 'Yes'; integrations when
      answered 'Yes' with a non-empty list. */
  function SpecialPart(r: ConsolidatorResponses, sp: SpecialDeliverables, spanish: bool, w: ConsolidatorWording,
                       start: nat): seq<Deliverable>
  {
    var security := [SecurityDeliverable(sp.security, spanish, w, start)];
    var hasWarehouse := r.multiWarehouse == "Yes";
    var warehouse := if hasWarehouse then [WarehouseDeliverable(r, sp.warehouse, spanish, w, start + 1)] else [];
    var integrationId := if hasWarehouse then start + 2 + WarehouseSlots(r) else start + 1;
    var integration := if r.integrations == "Yes" && r.integrationList != ""
                       then [IntegrationDeliverable(r, sp.integration, spanish, w, integrationId)]
                       else [];
    security + warehouse + integration
  }

  /** A deliverable for each custom slot that has a name. */
  function CustomDeliverables(slots: seq<CustomSlot>, t: CustomTemplate, spanish: bool, w: ConsolidatorWording,
                              start: nat): seq<Deliverable>
    decreases |slots|, 1
  {
    if slots == [] then []
    else CustomDeliverables(slots[..|slots| - 1], t, spanish, w, start) + CustomSlotPart(slots, t, spanish, w, start)
  }

  /** The last slot's deliverable when it has a name, nothing otherwise. */
  function CustomSlotPart(slots: seq<CustomSlot>, t: CustomTemplate, spanish: bool, w: ConsolidatorWording,
                          start: nat): seq<Deliverable>
    requires slots != []
    decreases |slots|, 0
  {
    var slot := slots[|slots| - 1];
    if slot.name == "" then []
    else [CustomDeliverable(slot, t, spanish, w, start + IdSpan(CustomDeliverables(slots[..|slots| - 1], t, spanish, w, start)))]
  }

  /** Implementation: the modules, then the fixed deliverables, then the
      custom modules. */
  function ImplementationDeliverables(tasks: seq<RawTask>, r: ConsolidatorResponses, cfg: DeliverableGroups,
                                      spanish: bool, w: ConsolidatorWording, start: nat): seq<Deliverable>
  {
    var afterModules := start + ModulesSpan(tasks, r.modules, cfg.moduleGroups);
    ModulesDeliverables(tasks, r.modules, cfg.moduleGroups, HoursPerModule(r), spanish, w, start)
    + SpecialPart(r, cfg.special, spanish, w, afterModules)
    + CustomDeliverables(r.customSlots, cfg.special.customModule, spanish, w, afterModules + SpecialSpan(r))
  }

  /** Each phase contributes only when it is enabled. */
  function ClarityPart(tasks: seq<RawTask>, r: ConsolidatorResponses, cfg: DeliverableGroups, spanish: bool,
                       start: nat): seq<Deliverable>
  {
    if r.clarityPhase then ClarityDeliverables(tasks, cfg.clarity, ClarityBudget(r), spanish, start) else []
  }

  function ImplementationPart(tasks: seq<RawTask>, r: ConsolidatorResponses, cfg: DeliverableGroups, spanish: bool,
                              w: ConsolidatorWording, start: nat): seq<Deliverable>
  {
    if r.implementationPhase then ImplementationDeliverables(tasks, r, cfg, spanish, w, start) else []
  }

  function AdoptionPart(tasks: seq<RawTask>, r: ConsolidatorResponses, cfg: DeliverableGroups, spanish: bool,
                        start: nat): seq<Deliverable>
  {
    if r.adoptionPhase then AdoptionDeliverables(tasks, cfg.adoption, AdoptionBudget(r), spanish, start) else []
  }

  /** The ids the Clarity and the Implementation phase take when enabled. */
  function ClarityPartSpan(tasks: seq<RawTask>, r: ConsolidatorResponses, cfg: DeliverableGroups): nat
  {
    if r.clarityPhase then ClaritySpan(tasks, cfg.clarity) else 0
  }

  function ImplementationPartSpan(tasks: seq<RawTask>, r: ConsolidatorResponses, cfg: DeliverableGroups): nat
  {
    if r.implementationPhase then ImplementationSpan(tasks, r, cfg) else 0
  }

  /** The consolidated plan: the enabled phases in order, ids from 1, each
      phase's tasks picked out of the raw tasks by their phase. */
  function ConsolidatedDeliverables(raw: seq<RawTask>, r: ConsolidatorResponses, cfg: DeliverableGroups,
                                    spanish: bool, w: ConsolidatorWording): seq<Deliverable>
  {
    var clarityTasks := Select(raw, ByPhase(Clarity));
    var implementationTasks := Select(raw, ByPhase(Implementation));
    var implementationStart := 1 + ClarityPartSpan(clarityTasks, r, cfg);
    ClarityPart(clarityTasks, r, cfg, spanish, 1)
    + ImplementationPart(implementationTasks, r, cfg, spanish, w, implementationStart)
    + AdoptionPart(Select(raw, ByPhase(Adoption)), r, cfg, spanish,
                   implementationStart + ImplementationPartSpan(implementationTasks, r, cfg))
  }

  // ---------------------------------------------------------------------
  // The counter's advance
  // ---------------------------------------------------------------------

  lemma IdSpanAppend(a: seq<Deliverable>, b: seq<Deliverable>)
    ensures IdSpan(a + b) == IdSpan(a) + IdSpan(b)
  {
    IdSpanIsIdCount(a);
    IdSpanIsIdCount(b);
    IdSpanIsIdCount(a + b);
    IdsAppend(a, b);
  }

  /** The counter's advance is the number of ids the list holds. */
  lemma {:induction false} IdSpanIsIdCount(ds: seq<Deliverable>)
    ensures IdSpan(ds) == |Ids(ds)|
    decreases |ds|
  {
    if ds != [] {
      IdSpanIsIdCount(ds[..|ds| - 1]);
    }
  }

  // ---------------------------------------------------------------------
  // One more group, module group or slot
  // ---------------------------------------------------------------------

  /** Group `i` adds its deliverable, when it matched, after those of the
      groups before it and with the id that follows theirs. */
  lemma ClarityStep(tasks: seq<RawTask>, gs: seq<PhaseGroup>, i: nat, hours: int, spanish: bool, start: nat)
    requires i < |gs|
    ensures var prev := ClarityDeliverables(tasks, gs[..i], hours, spanish, start);
            var matching := Select(tasks, ByPatterns(gs[i].patterns));
            ClarityDeliverables(tasks, gs[..i + 1], hours, spanish, start)
            == prev + if matching == [] then []
                      else [GroupDeliverable(gs[i], Clarity, matching, RoundPercent(hours, gs[i].percent), false,
                                             spanish, start + IdSpan(prev))]
  {
    hide GroupDeliverable, Select;
    assert gs[..i + 1][..i] == gs[..i];
  }

  lemma AdoptionStep(tasks: seq<RawTask>, gs: seq<PhaseGroup>, i: nat, hours: int, spanish: bool, start: nat,
                     ds: seq<Deliverable>, d: Deliverable)
    requires i < |gs| && ds == AdoptionDeliverables(tasks, gs[..i], hours, spanish, start)
    requires d == GroupDeliverable(gs[i], Adoption, Select(tasks, ByPatterns(gs[i].patterns)),
                                   RoundPercent(hours, gs[i].percent), true, spanish, start + IdSpan(ds))
    ensures AdoptionDeliverables(tasks, gs[..i + 1], hours, spanish, start) == ds + [d]
  {
    hide GroupDeliverable, Select;
    assert gs[..i + 1][..i] == gs[..i];
  }

  lemma ModuleStep(moduleTasks: seq<RawTask>, name: string, gs: seq<ModuleGroup>, i: nat, hours: int,
                   spanish: bool, w: ConsolidatorWording, start: nat)
    requires i < |gs|
    ensures var prev := ModuleDeliverables(moduleTasks, name, gs[..i], hours, spanish, w, start);
            var matching := Select(moduleTasks, ByPatterns(gs[i].patterns));
            ModuleDeliverables(moduleTasks, name, gs[..i + 1], hours, spanish, w, start)
            == prev + if matching == [] then []
                      else [ModuleGroupDeliverable(gs[i], name, matching, RoundPercent(hours, gs[i].percent), spanish,
                                                   w, start + IdSpan(prev))]
  {
    hide ModuleGroupDeliverable, Select;
    assert gs[..i + 1][..i] == gs[..i];
  }

  /** A named slot adds its deliverable after those of the slots before it;
      an unnamed one adds nothing. */
  lemma CustomPush(slots: seq<CustomSlot>, i: nat, t: CustomTemplate, spanish: bool, w: ConsolidatorWording,
                   start: nat, ds: seq<Deliverable>, d: Deliverable)
    requires i < |slots| && slots[i].name != "" && ds == CustomDeliverables(slots[..i], t, spanish, w, start)
    requires d == CustomDeliverable(slots[i], t, spanish, w, start + IdSpan(ds))
    ensures CustomDeliverables(slots[..i + 1], t, spanish, w, start) == ds + [d]
  {
    hide CustomDeliverable;
    assert slots[..i + 1][..i] == slots[..i];
  }

  lemma CustomSkip(slots: seq<CustomSlot>, i: nat, t: CustomTemplate, spanish: bool, w: ConsolidatorWording,
                   start: nat, ds: seq<Deliverable>)
    requires i < |slots| && slots[i].name == "" && ds == CustomDeliverables(slots[..i], t, spanish, w, start)
    ensures CustomDeliverables(slots[..i + 1], t, spanish, w, start) == ds
  {
    hide CustomDeliverable;
    assert slots[..i + 1][..i] == slots[..i];
    assert ds + [] == ds;
  }

  /** Each part advances the counter by exactly its span. */
  lemma {:induction false} ClarityIdSpan(tasks: seq<RawTask>, gs: seq<PhaseGroup>, hours: int, spanish: bool,
                                         start: nat)
    ensures IdSpan(ClarityDeliverables(tasks, gs, hours, spanish, start)) == ClaritySpan(tasks, gs)
    decreases |gs|
  {
    hide GroupDeliverable, Select;
    if gs != [] {
      var n := |gs| - 1;
      var init := gs[..n];
      ClarityIdSpan(tasks, init, hours, spanish, start);
      ClarityStep(tasks, gs, n, hours, spanish, start);
      assert gs[..n + 1] == gs;
      var prev := ClarityDeliverables(tasks, init, hours, spanish, start);
      var matching := Select(tasks, ByPatterns(gs[n].patterns));
      if matching != [] {
        var id := start + IdSpan(prev);
        GroupDeliverableFacts(gs[n], Clarity, matching, RoundPercent(hours, gs[n].percent), false, spanish, id);
        IdSpanPush(prev, GroupDeliverable(gs[n], Clarity, matching, RoundPercent(hours, gs[n].percent), false, spanish, id));
      } else {
        assert prev + [] == prev;
      }
    }
  }

  lemma {:induction false} AdoptionIdSpan(tasks: seq<RawTask>, gs: seq<PhaseGroup>, hours: int, spanish: bool,
                                          start: nat)
    ensures IdSpan(AdoptionDeliverables(tasks, gs, hours, spanish, start)) == AdoptionSpan(tasks, gs)
    decreases |gs|
  {
    hide GroupDeliverable, Select;
    if gs != [] {
      var n := |gs| - 1;
      var init := gs[..n];
      AdoptionIdSpan(tasks, init, hours, spanish, start);
      var prev := AdoptionDeliverables(tasks, init, hours, spanish, start);
      var matching := Select(tasks, ByPatterns(gs[n].patterns));
      var id := start + IdSpan(prev);
      var d := GroupDeliverable(gs[n], Adoption, matching, RoundPercent(hours, gs[n].percent), true, spanish, id);
      AdoptionStep(tasks, gs, n, hours, spanish, start, prev, d);
      assert gs[..n + 1] == gs;
      GroupDeliverableFacts(gs[n], Adoption, matching, RoundPercent(hours, gs[n].percent), true, spanish, id);
      IdSpanPush(prev, d);
    }
  }

  lemma {:induction false} ModuleIdSpan(moduleTasks: seq<RawTask>, name: string, gs: seq<ModuleGroup>, hours: int,
                                        spanish: bool, w: ConsolidatorWording, start: nat)
    ensures IdSpan(ModuleDeliverables(moduleTasks, name, gs, hours, spanish, w, start)) == ModuleSpan(moduleTasks, gs)
    decreases |gs|
  {
    hide ModuleGroupDeliverable, Select;
    if gs != [] {
      var n := |gs| - 1;
      var init := gs[..n];
      ModuleIdSpan(moduleTasks, name, init, hours, spanish, w, start);
      ModuleStep(moduleTasks, name, gs, n, hours, spanish, w, start);
      assert gs[..n + 1] == gs;
      var prev := ModuleDeliverables(moduleTasks, name, init, hours, spanish, w, start);
      var matching := Select(moduleTasks, ByPatterns(gs[n].patterns));
      if matching != [] {
        var id := start + IdSpan(prev);
        ModuleGroupDeliverableFacts(gs[n], name, matching, RoundPercent(hours, gs[n].percent), spanish, w, id);
        IdSpanPush(prev, ModuleGroupDeliverable(gs[n], name, matching, RoundPercent(hours, gs[n].percent), spanish, w, id));
      } else {
        assert prev + [] == prev;
      }
    }
  }

  lemma {:induction false} ModulesIdSpan(tasks: seq<RawTask>, names: seq<string>, gs: seq<ModuleGroup>, hours: int,
                                         spanish: bool, w: ConsolidatorWording, start: nat)
    ensures IdSpan(ModulesDeliverables(tasks, names, gs, hours, spanish, w, start)) == ModulesSpan(tasks, names, gs)
    decreases |names|
  {
    hide ModuleDeliverables, ModuleGroupDeliverable, Select;
    if names != [] {
      var init := names[..|names| - 1];
      var name := names[|names| - 1];
      ModulesIdSpan(tasks, init, gs, hours, spanish, w, start);
      var next := start + ModulesSpan(tasks, init, gs);
      ModuleIdSpan(Select(tasks, ByModule(name)), name, gs, hours, spanish, w, next);
      IdSpanAppend(ModulesDeliverables(tasks, init, gs, hours, spanish, w, start),
                   ModuleDeliverables(Select(tasks, ByModule(name)), name, gs, hours, spanish, w, next));
    }
  }

  lemma SpecialIdSpan(r: ConsolidatorResponses, sp: SpecialDeliverables, spanish: bool, w: ConsolidatorWording,
                      start: nat)
    ensures IdSpan(SpecialPart(r, sp, spanish, w, start)) == SpecialSpan(r)
  {
    var security := [SecurityDeliverable(sp.security, spanish, w, start)];
    var hasWarehouse := r.multiWarehouse == "Yes";
    var warehouse := if hasWarehouse then [WarehouseDeliverable(r, sp.warehouse, spanish, w, start + 1)] else [];
    var integrationId := if hasWarehouse then start + 2 + WarehouseSlots(r) else start + 1;
    var integration := if r.integrations == "Yes" && r.integrationList != ""
                       then [IntegrationDeliverable(r, sp.integration, spanish, w, integrationId)]
                       else [];
    assert SpecialPart(r, sp, spanish, w, start) == security + warehouse + integration;
    assert IdSpan(security) == 1 by {
      IdSpanOne(security[0]);
    }
    assert IdSpan(warehouse) == if hasWarehouse then 1 + WarehouseSlots(r) else 0 by {
      if hasWarehouse {
        IdSpanOne(warehouse[0]);
      }
    }
    assert IdSpan(integration) == if integration == [] then 0 else 1 by {
      if integration != [] {
        IdSpanOne(integration[0]);
      }
    }
    hide SpecialPart, SecurityDeliverable, WarehouseDeliverable, IntegrationDeliverable, WarehouseSlots;
    IdSpanAppend(security, warehouse);
    IdSpanAppend(security + warehouse, integration);
  }

  lemma {:induction false} CustomIdSpan(slots: seq<CustomSlot>, t: CustomTemplate, spanish: bool,
                                        w: ConsolidatorWording, start: nat)
    ensures IdSpan(CustomDeliverables(slots, t, spanish, w, start)) == CustomSpan(slots)
    decreases |slots|
  {
    hide CustomDeliverable;
    if slots != [] {
      var n := |slots| - 1;
      var init := slots[..n];
      CustomIdSpan(init, t, spanish, w, start);
      var prev := CustomDeliverables(init, t, spanish, w, start);
      assert slots[..n + 1] == slots;
      if slots[n].name != "" {
        var d := CustomDeliverable(slots[n], t, spanish, w, start + IdSpan(prev));
        CustomPush(slots, n, t, spanish, w, start, prev, d);
        CustomDeliverableFacts(slots[n], t, spanish, w, start + IdSpan(prev));
        IdSpanPush(prev, d);
      } else {
        CustomSkip(slots, n, t, spanish, w, start, prev);
      }
    }
  }

  lemma ImplementationIdSpan(tasks: seq<RawTask>, r: ConsolidatorResponses, cfg: DeliverableGroups, spanish: bool,
                             w: ConsolidatorWording, start: nat)
    ensures IdSpan(ImplementationDeliverables(tasks, r, cfg, spanish, w, start)) == ImplementationSpan(tasks, r, cfg)
  {
    hide ModulesDeliverables, CustomDeliverables, SpecialPart, ModulesSpan, CustomSpan, HoursPerModule, Select;
    var afterModules := start + ModulesSpan(tasks, r.modules, cfg.moduleGroups);
    var modules := ModulesDeliverables(tasks, r.modules, cfg.moduleGroups, HoursPerModule(r), spanish, w, start);
    var special := SpecialPart(r, cfg.special, spanish, w, afterModules);
    var customs := CustomDeliverables(r.customSlots, cfg.special.customModule, spanish, w, afterModules + SpecialSpan(r));
    ModulesIdSpan(tasks, r.modules, cfg.moduleGroups, HoursPerModule(r), spanish, w, start);
    SpecialIdSpan(r, cfg.special, spanish, w, afterModules);
    CustomIdSpan(r.customSlots, cfg.special.customModule, spanish, w, afterModules + SpecialSpan(r));
    IdSpanAppend(modules, special);
    IdSpanAppend(modules + special, customs);
  }

  // ---------------------------------------------------------------------
  // The consolidating methods
  // ---------------------------------------------------------------------

  /** A Clarity or Adoption group's deliverable as the loops build it: the
      object with its subtasks, then (for Adoption only when there are
      subtasks) `normalizeSubtaskHours`. */
  method BuildGroupDeliverable(group: PhaseGroup, phase: Phase, matching: seq<RawTask>, allocatedHours: int,
                               orTwo: bool, spanish: bool, currentId: nat) returns (d: Deliverable)
    ensures d == GroupDeliverable(group, phase, matching, allocatedHours, orTwo, spanish, currentId)
    ensures |d.subtasks| == |matching|
  {
    var name := Pick(spanish, group.name);
    var milestone := Pick(spanish, group.milestone);
    var shape := SubtaskShape(phase, None, milestone, name, allocatedHours, EstimatedTotal(matching), orTwo);
    d := Deliverable(currentId, name, Pick(spanish, group.description), allocatedHours, group.priority, phase,
                     None, milestone, false, "", TaskSubtasks(matching, shape, spanish, currentId + 1));
    if |d.subtasks| > 0 {
      d := NormalizeSubtaskHours(d);
    } else {
      assert Normalized(d) == d;
    }
  }

  /** A module group's deliverable: the templates filled with the module's
      name, then `normalizeSubtaskHours`. */
  method BuildModuleGroupDeliverable(group: ModuleGroup, name: string, matching: seq<RawTask>, groupHours: int,
                                     spanish: bool, w: ConsolidatorWording, next: nat) returns (d: Deliverable)
    ensures d == ModuleGroupDeliverable(group, name, matching, groupHours, spanish, w, next)
    ensures |d.subtasks| == |matching|
  {
    var title := ReplaceFirst(Pick(spanish, group.nameTemplate), "{module}", name);
    var milestone := Fill(w.moduleMilestone, name);
    var shape := SubtaskShape(Implementation, Some(name), milestone, title, groupHours, EstimatedTotal(matching), true);
    d := Deliverable(next, title, ReplaceFirst(Pick(spanish, group.descriptionTemplate), "{module}", name),
                     groupHours, group.priority, Implementation, Some(name), milestone, false, "",
                     TaskSubtasks(matching, shape, spanish, next + 1));
    d := NormalizeSubtaskHours(d);
  }

  method ConsolidateClarityPhase(tasks: seq<RawTask>, r: ConsolidatorResponses, groups: seq<PhaseGroup>,
                                 spanish: bool, startId: nat) returns (ds: seq<Deliverable>)
    ensures ds == ClarityDeliverables(tasks, groups, ClarityBudget(r), spanish, startId)
  {
    hide GroupDeliverable, Select;
    var clarityHours := ClarityBudget(r);
    ds := [];
    var currentId := startId;
    var i := 0;
    while i < |groups|
      invariant 0 <= i <= |groups|
      invariant ds == ClarityDeliverables(tasks, groups[..i], clarityHours, spanish, startId)
      invariant currentId == startId + IdSpan(ds)
    {
      var group := groups[i];
      ClarityStep(tasks, groups, i, clarityHours, spanish, startId);
      var matching := Select(tasks, ByPatterns(group.patterns));
      if |matching| > 0 {
        var allocatedHours := RoundPercent(clarityHours, group.percent);
        var d := BuildGroupDeliverable(group, Clarity, matching, allocatedHours, false, spanish, currentId);
        IdSpanPush(ds, d);
        ds := ds + [d];
        currentId := currentId + 1 + |matching|;
      } else {
        assert ds + [] == ds;
      }
      i := i + 1;
    }
    assert groups[..i] == groups;
  }

  method ConsolidateAdoptionPhase(tasks: seq<RawTask>, r: ConsolidatorResponses, groups: seq<PhaseGroup>,
                                  spanish: bool, startId: nat) returns (ds: seq<Deliverable>)
    ensures ds == AdoptionDeliverables(tasks, groups, AdoptionBudget(r), spanish, startId)
  {
    hide GroupDeliverable, Select;
    var totalAdoptionHours := AdoptionTraining(r) + AdoptionPerMonth(r) * AdoptionMonths(r);
    assert totalAdoptionHours == AdoptionBudget(r);
    ds := [];
    var currentId := startId;
    var i := 0;
    while i < |groups|
      invariant 0 <= i <= |groups|
      invariant ds == AdoptionDeliverables(tasks, groups[..i], totalAdoptionHours, spanish, startId)
      invariant currentId == startId + IdSpan(ds)
    {
      var group := groups[i];
      var matching := Select(tasks, ByPatterns(group.patterns));
      var allocatedHours := RoundPercent(totalAdoptionHours, group.percent);
      var d := BuildGroupDeliverable(group, Adoption, matching, allocatedHours, true, spanish, currentId);
      AdoptionStep(tasks, groups, i, totalAdoptionHours, spanish, startId, ds, d);
      IdSpanPush(ds, d);
      ds := ds + [d];
      currentId := currentId + 1 + |matching|;
      i := i + 1;
    }
    assert groups[..i] == groups;
  }

  /** The groups of one module; returns the counter after them. */
  method ConsolidateModule(moduleTasks: seq<RawTask>, name: string, groups: seq<ModuleGroup>, hoursPerModule: int,
                           spanish: bool, w: ConsolidatorWording, startId: nat)
    returns (ds: seq<Deliverable>, next: nat)
    ensures ds == ModuleDeliverables(moduleTasks, name, groups, hoursPerModule, spanish, w, startId)
    ensures next == startId + IdSpan(ds)
  {
    hide ModuleGroupDeliverable, Select;
    ds := [];
    next := startId;
    var i := 0;
    while i < |groups|
      invariant 0 <= i <= |groups|
      invariant ds == ModuleDeliverables(moduleTasks, name, groups[..i], hoursPerModule, spanish, w, startId)
      invariant next == startId + IdSpan(ds)
    {
      var group := groups[i];
      ModuleStep(moduleTasks, name, groups, i, hoursPerModule, spanish, w, startId);
      var matching := Select(moduleTasks, ByPatterns(group.patterns));
      if |matching| > 0 {
        var groupHours := RoundPercent(hoursPerModule, group.percent);
        var d := BuildModuleGroupDeliverable(group, name, matching, groupHours, spanish, w, next);
        IdSpanPush(ds, d);
        ds := ds + [d];
        next := next + 1 + |matching|;
      } else {
        assert ds + [] == ds;
      }
      i := i + 1;
    }
    assert groups[..i] == groups;
  }

  /** The selected modules in turn; returns the counter after them. */
  method ConsolidateModules(tasks: seq<RawTask>, names: seq<string>, groups: seq<ModuleGroup>, hoursPerModule: int,
                            spanish: bool, w: ConsolidatorWording, startId: nat)
    returns (ds: seq<Deliverable>, next: nat)
    ensures ds == ModulesDeliverables(tasks, names, groups, hoursPerModule, spanish, w, startId)
    ensures next == startId + ModulesSpan(tasks, names, groups)
  {
    hide ModuleDeliverables, ModuleGroupDeliverable, Select;
    ds := [];
    next := startId;
    var i := 0;
    while i < |names|
      invariant 0 <= i <= |names|
      invariant ds == ModulesDeliverables(tasks, names[..i], groups, hoursPerModule, spanish, w, startId)
      invariant next == startId + ModulesSpan(tasks, names[..i], groups)
    {
      var moduleName := names[i];
      assert names[..i + 1][..i] == names[..i];
      var moduleTasks := Select(tasks, ByModule(moduleName));
      var more, after := ConsolidateModule(moduleTasks, moduleName, groups, hoursPerModule, spanish, w, next);
      ModuleIdSpan(moduleTasks, moduleName, groups, hoursPerModule, spanish, w, next);
      ds := ds + more;
      next := after;
      i := i + 1;
    }
    assert names[..i] == names;
  }

  /** Security, multi-warehouse and integrations; returns the counter after them. */
  method AddSpecialDeliverables(r: ConsolidatorResponses, sp: SpecialDeliverables, spanish: bool,
                                w: ConsolidatorWording, startId: nat) returns (ds: seq<Deliverable>, next: nat)
    ensures ds == SpecialPart(r, sp, spanish, w, startId)
    ensures next == startId + SpecialSpan(r)
  {
    var currentId := startId;
    var security := SecurityDeliverable(sp.security, spanish, w, currentId);
    currentId := currentId + 1;
    var warehouse: seq<Deliverable> := [];
    if r.multiWarehouse == "Yes" {
      var d := WarehouseDeliverable(r, sp.warehouse, spanish, w, currentId);
      warehouse := [d];
      currentId := currentId + 1 + |d.subtasks|;
    }
    var integration: seq<Deliverable> := [];
    if r.integrations == "Yes" && r.integrationList != "" {
      integration := [IntegrationDeliverable(r, sp.integration, spanish, w, currentId)];
      currentId := currentId + 1;
    }
    ds := [security] + warehouse + integration;
    next := currentId;
  }

  /** The named custom slots in turn; each takes four ids. */
  method ConsolidateCustomModules(slots: seq<CustomSlot>, t: CustomTemplate, spanish: bool, w: ConsolidatorWording,
                                  startId: nat) returns (ds: seq<Deliverable>)
    ensures ds == CustomDeliverables(slots, t, spanish, w, startId)
  {
    ds := [];
    assert ds == CustomDeliverables(slots[..0], t, spanish, w, startId);
    hide CustomDeliverable, CustomDeliverables;
    var currentId := startId;
    var i := 0;
    while i < |slots|
      invariant 0 <= i <= |slots|
      invariant ds == CustomDeliverables(slots[..i], t, spanish, w, startId)
      invariant currentId == startId + IdSpan(ds)
    {
      var slot := slots[i];
      if slot.name != "" {
        var d := CustomDeliverable(slot, t, spanish, w, currentId);
        CustomDeliverableFacts(slot, t, spanish, w, currentId);
        CustomPush(slots, i, t, spanish, w, startId, ds, d);
        currentId := currentId + 1;
        IdSpanPush(ds, d);
        ds := ds + [d];
        currentId := currentId + 3;
      } else {
        CustomSkip(slots, i, t, spanish, w, startId, ds);
      }
      i := i + 1;
    }
    assert slots[..i] == slots;
  }

  method ConsolidateImplementationPhase(tasks: seq<RawTask>, r: ConsolidatorResponses, cfg: DeliverableGroups,
                                        spanish: bool, w: ConsolidatorWording, startId: nat)
    returns (ds: seq<Deliverable>)
    ensures ds == ImplementationDeliverables(tasks, r, cfg, spanish, w, startId)
  {
    hide ModulesDeliverables, CustomDeliverables, SpecialPart, ModuleGroupDeliverable, CustomDeliverable, Select;
    var totalImplHours := CalculateImplementationHours(r);
    var hoursPerModule := if |r.modules| > 0 then RoundQuotient(totalImplHours * 7, 10 * |r.modules|) else 0;
    assert hoursPerModule == HoursPerModule(r);
    var modules, afterModules := ConsolidateModules(tasks, r.modules, cfg.moduleGroups, hoursPerModule, spanish, w,
                                                    startId);
    var special, afterSpecial := AddSpecialDeliverables(r, cfg.special, spanish, w, afterModules);
    var customs := ConsolidateCustomModules(r.customSlots, cfg.special.customModule, spanish, w, afterSpecial);
    ds := modules + special + customs;
  }

  datatype ConsolidationStats = ConsolidationStats(deliverableCount: nat, subtaskCount: nat, totalTasks: nat)

  datatype Consolidation = Consolidation(
    deliverables: seq<Deliverable>,
    flatTasks: seq<FlatTask>,
    stats: ConsolidationStats)

  /** The enabled phases in order, the counter running on from one phase
      to the next by the ids each phase's deliverables hold. */
  method ConsolidatePhases(raw: seq<RawTask>, r: ConsolidatorResponses, cfg: DeliverableGroups, spanish: bool,
                           w: ConsolidatorWording) returns (deliverables: seq<Deliverable>)
    ensures deliverables == ConsolidatedDeliverables(raw, r, cfg, spanish, w)
  {
    hide ClarityDeliverables, ImplementationDeliverables, AdoptionDeliverables, GroupDeliverable, Select;
    var taskIdCounter := 1;
    var clarityTasks := Select(raw, ByPhase(Clarity));
    var implementationTasks := Select(raw, ByPhase(Implementation));
    var adoptionTasks := Select(raw, ByPhase(Adoption));
    var clarity: seq<Deliverable> := [];
    if r.clarityPhase {
      clarity := ConsolidateClarityPhase(clarityTasks, r, cfg.clarity, spanish, taskIdCounter);
      ClarityIdSpan(clarityTasks, cfg.clarity, ClarityBudget(r), spanish, taskIdCounter);
      taskIdCounter := taskIdCounter + IdSpan(clarity);
    }
    assert clarity == ClarityPart(clarityTasks, r, cfg, spanish, 1);
    assert taskIdCounter == 1 + ClarityPartSpan(clarityTasks, r, cfg);
    var implementation: seq<Deliverable> := [];
    if r.implementationPhase {
      implementation := ConsolidateImplementationPhase(implementationTasks, r, cfg, spanish, w, taskIdCounter);
      ImplementationIdSpan(implementationTasks, r, cfg, spanish, w, taskIdCounter);
      taskIdCounter := taskIdCounter + IdSpan(implementation);
    }
    var adoption: seq<Deliverable> := [];
    if r.adoptionPhase {
      adoption := ConsolidateAdoptionPhase(adoptionTasks, r, cfg.adoption, spanish, taskIdCounter);
    }
    deliverables := clarity + implementation + adoption;
  }

  /** The whole consolidation, worded in Spanish exactly when `language` is
      "Spanish". */
  method ConsolidateTasks(raw: seq<RawTask>, r: ConsolidatorResponses, cfg: DeliverableGroups, language: string)
    returns (c: Consolidation)
    ensures c.deliverables == ConsolidatedDeliverables(raw, r, cfg, language == "Spanish",
                                                       ConsolidatorWordingFor(language == "Spanish"))
    ensures c.flatTasks == Flat(c.deliverables, r.teamMembers, ConsolidatorRoles, true)
    ensures c.stats.deliverableCount == |c.deliverables|
    ensures c.stats.subtaskCount == SubtaskCount(c.deliverables)
    ensures c.stats.totalTasks == |c.flatTasks| == |c.deliverables| + SubtaskCount(c.deliverables)
  {
    hide ConsolidatorWordingFor;
    var spanish := language == "Spanish";
    var w := ConsolidatorWordingFor(spanish);
    var deliverables := ConsolidatePhases(raw, r, cfg, spanish, w);
    var flat := GenerateFlatTaskList(deliverables, r.teamMembers, ConsolidatorRoles, true);
    FlatLength(deliverables, r.teamMembers, ConsolidatorRoles, true);
    c := Consolidation(deliverables, flat, ConsolidationStats(|deliverables|, SubtaskCount(deliverables), |flat|));
  }
}
