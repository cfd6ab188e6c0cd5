/** The ids `consolidateTasks` hands out: one counter, starting at 1, that
    every deliverable and every subtask takes in turn. Each part of the
    consolidated plan is shown to use a run of consecutive ids starting
    where the counter stood, so the whole plan uses exactly 1, 2, 3, … and
    no two rows of its flat task list share an id. */
module ConsolidatorIds {
  import opened Common
  import opened PlanModel
  import opened Assignment
  import opened FlatTasks
  import opened ConsolidatorConfig
  import opened ConsolidatorParts
  import opened TaskConsolidator

  /** A run of consecutive ids followed by the run the counter continues
      with is one run. */
  lemma Threaded(ds: seq<Deliverable>, extra: seq<Deliverable>, start: nat)
    requires Consecutive(Ids(ds), start) && Consecutive(Ids(extra), start + IdSpan(ds))
    ensures Consecutive(Ids(ds + extra), start)
  {
    IdsAppend(ds, extra);
    IdSpanIsIdCount(ds);
    ConsecutiveAppend(Ids(ds), Ids(extra), start);
  }

  /** A deliverable whose subtasks take the ids after its own. */
  lemma SingleConsecutive(d: Deliverable, id: nat)
    requires d.id == id && Consecutive(SubtaskIds(d.subtasks), id + 1)
    ensures Consecutive(Ids([d]), id)
  {
    IdsSingle(d);
    ConsecutiveAppend([d.id], SubtaskIds(d.subtasks), id);
  }

  lemma {:induction false} ClarityIds(tasks: seq<RawTask>, gs: seq<PhaseGroup>, hours: int, spanish: bool, start: nat)
    ensures Consecutive(Ids(ClarityDeliverables(tasks, gs, hours, spanish, start)), start)
    decreases |gs|
  {
    hide GroupDeliverable, Select;
    if gs != [] {
      var n := |gs| - 1;
      var init := gs[..n];
      ClarityIds(tasks, init, hours, spanish, start);
      ClarityStep(tasks, gs, n, hours, spanish, start);
      assert gs[..n + 1] == gs;
      var prev := ClarityDeliverables(tasks, init, hours, spanish, start);
      var matching := Select(tasks, ByPatterns(gs[n].patterns));
      if matching != [] {
        var id := start + IdSpan(prev);
        var d := GroupDeliverable(gs[n], Clarity, matching, RoundPercent(hours, gs[n].percent), false, spanish, id);
        GroupDeliverableFacts(gs[n], Clarity, matching, RoundPercent(hours, gs[n].percent), false, spanish, id);
        SingleConsecutive(d, id);
        Threaded(prev, [d], start);
      } else {
        assert prev + [] == prev;
      }
    }
  }

  lemma {:induction false} AdoptionIds(tasks: seq<RawTask>, gs: seq<PhaseGroup>, hours: int, spanish: bool, start: nat)
    ensures Consecutive(Ids(AdoptionDeliverables(tasks, gs, hours, spanish, start)), start)
    decreases |gs|
  {
    hide GroupDeliverable, Select;
    if gs != [] {
      var n := |gs| - 1;
      var init := gs[..n];
      AdoptionIds(tasks, init, hours, spanish, start);
      var prev := AdoptionDeliverables(tasks, init, hours, spanish, start);
      var matching := Select(tasks, ByPatterns(gs[n].patterns));
      var id := start + IdSpan(prev);
      var d := GroupDeliverable(gs[n], Adoption, matching, RoundPercent(hours, gs[n].percent), true, spanish, id);
      AdoptionStep(tasks, gs, n, hours, spanish, start, prev, d);
      assert gs[..n + 1] == gs;
      GroupDeliverableFacts(gs[n], Adoption, matching, RoundPercent(hours, gs[n].percent), true, spanish, id);
      SingleConsecutive(d, id);
      Threaded(prev, [d], start);
    }
  }

  lemma {:induction false} ModuleIds(moduleTasks: seq<RawTask>, name: string, gs: seq<ModuleGroup>, hours: int,
                                     spanish: bool, w: ConsolidatorWording, start: nat)
    ensures Consecutive(Ids(ModuleDeliverables(moduleTasks, name, gs, hours, spanish, w, start)), start)
    decreases |gs|
  {
    hide ModuleGroupDeliverable, Select;
    if gs != [] {
      var n := |gs| - 1;
      var init := gs[..n];
      ModuleIds(moduleTasks, name, init, hours, spanish, w, start);
      ModuleStep(moduleTasks, name, gs, n, hours, spanish, w, start);
      assert gs[..n + 1] == gs;
      var prev := ModuleDeliverables(moduleTasks, name, init, hours, spanish, w, start);
      var matching := Select(moduleTasks, ByPatterns(gs[n].patterns));
      if matching != [] {
        var id := start + IdSpan(prev);
        var d := ModuleGroupDeliverable(gs[n], name, matching, RoundPercent(hours, gs[n].percent), spanish, w, id);
        ModuleGroupDeliverableFacts(gs[n], name, matching, RoundPercent(hours, gs[n].percent), spanish, w, id);
        SingleConsecutive(d, id);
        Threaded(prev, [d], start);
      } else {
        assert prev + [] == prev;
      }
    }
  }

  lemma {:induction false} ModulesIds(tasks: seq<RawTask>, names: seq<string>, gs: seq<ModuleGroup>, hours: int,
                                      spanish: bool, w: ConsolidatorWording, start: nat)
    ensures Consecutive(Ids(ModulesDeliverables(tasks, names, gs, hours, spanish, w, start)), start)
    decreases |names|
  {
    hide ModuleDeliverables, ModuleGroupDeliverable, Select;
    if names != [] {
      var init := names[..|names| - 1];
      var name := names[|names| - 1];
      var prev := ModulesDeliverables(tasks, init, gs, hours, spanish, w, start);
      var next := start + ModulesSpan(tasks, init, gs);
      ModulesIds(tasks, init, gs, hours, spanish, w, start);
      ModulesIdSpan(tasks, init, gs, hours, spanish, w, start);
      ModuleIds(Select(tasks, ByModule(name)), name, gs, hours, spanish, w, next);
      Threaded(prev, ModuleDeliverables(Select(tasks, ByModule(name)), name, gs, hours, spanish, w, next), start);
    }
  }

  lemma SpecialIds(r: ConsolidatorResponses, sp: SpecialDeliverables, spanish: bool, w: ConsolidatorWording,
                   start: nat)
    ensures Consecutive(Ids(SpecialPart(r, sp, spanish, w, start)), start)
  {
    var security := [SecurityDeliverable(sp.security, spanish, w, start)];
    var hasWarehouse := r.multiWarehouse == "Yes";
    var warehouse := if hasWarehouse then [WarehouseDeliverable(r, sp.warehouse, spanish, w, start + 1)] else [];
    var integrationId := if hasWarehouse then start + 2 + WarehouseSlots(r) else start + 1;
    var integration := if r.integrations == "Yes" && r.integrationList != ""
                       then [IntegrationDeliverable(r, sp.integration, spanish, w, integrationId)]
                       else [];
    assert SpecialPart(r, sp, spanish, w, start) == security + warehouse + integration;
    SingleConsecutive(security[0], start);
    IdSpanOne(security[0]);
    if hasWarehouse {
      WarehouseDeliverableFacts(r, sp.warehouse, spanish, w, start + 1);
      SingleConsecutive(warehouse[0], start + 1);
      IdSpanOne(warehouse[0]);
    }
    if integration != [] {
      SingleConsecutive(integration[0], integrationId);
    }
    hide SpecialPart, SecurityDeliverable, WarehouseDeliverable, IntegrationDeliverable, WarehouseSlots;
    Threaded(security, warehouse, start);
    IdSpanAppend(security, warehouse);
    Threaded(security + warehouse, integration, start);
  }

  lemma {:induction false} CustomIds(slots: seq<CustomSlot>, t: CustomTemplate, spanish: bool,
                                     w: ConsolidatorWording, start: nat)
    ensures Consecutive(Ids(CustomDeliverables(slots, t, spanish, w, start)), start)
    decreases |slots|
  {
    hide CustomDeliverable;
    if slots != [] {
      var n := |slots| - 1;
      var init := slots[..n];
      CustomIds(init, t, spanish, w, start);
      var prev := CustomDeliverables(init, t, spanish, w, start);
      assert slots[..n + 1] == slots;
      if slots[n].name != "" {
        var id := start + IdSpan(prev);
        var d := CustomDeliverable(slots[n], t, spanish, w, id);
        CustomPush(slots, n, t, spanish, w, start, prev, d);
        CustomDeliverableFacts(slots[n], t, spanish, w, id);
        SingleConsecutive(d, id);
        Threaded(prev, [d], start);
      } else {
        CustomSkip(slots, n, t, spanish, w, start, prev);
      }
    }
  }

  lemma ImplementationIds(tasks: seq<RawTask>, r: ConsolidatorResponses, cfg: DeliverableGroups, spanish: bool,
                          w: ConsolidatorWording, start: nat)
    ensures Consecutive(Ids(ImplementationDeliverables(tasks, r, cfg, spanish, w, start)), start)
  {
    hide ModulesDeliverables, CustomDeliverables, SpecialPart, ModulesSpan, CustomSpan, HoursPerModule, Select;
    var afterModules := start + ModulesSpan(tasks, r.modules, cfg.moduleGroups);
    var modules := ModulesDeliverables(tasks, r.modules, cfg.moduleGroups, HoursPerModule(r), spanish, w, start);
    var special := SpecialPart(r, cfg.special, spanish, w, afterModules);
    var customs := CustomDeliverables(r.customSlots, cfg.special.customModule, spanish, w, afterModules + SpecialSpan(r));
    ModulesIds(tasks, r.modules, cfg.moduleGroups, HoursPerModule(r), spanish, w, start);
    ModulesIdSpan(tasks, r.modules, cfg.moduleGroups, HoursPerModule(r), spanish, w, start);
    SpecialIds(r, cfg.special, spanish, w, afterModules);
    SpecialIdSpan(r, cfg.special, spanish, w, afterModules);
    CustomIds(r.customSlots, cfg.special.customModule, spanish, w, afterModules + SpecialSpan(r));
    Threaded(modules, special, start);
    IdSpanAppend(modules, special);
    Threaded(modules + special, customs, start);
  }

  /** Each enabled phase takes a run of ids from where the counter stood,
      as long as its span; a phase switched off takes none. */
  lemma ClarityPartIds(tasks: seq<RawTask>, r: ConsolidatorResponses, cfg: DeliverableGroups, spanish: bool,
                       start: nat)
    ensures Consecutive(Ids(ClarityPart(tasks, r, cfg, spanish, start)), start)
    ensures IdSpan(ClarityPart(tasks, r, cfg, spanish, start)) == ClarityPartSpan(tasks, r, cfg)
  {
    if r.clarityPhase {
      ClarityIds(tasks, cfg.clarity, ClarityBudget(r), spanish, start);
      ClarityIdSpan(tasks, cfg.clarity, ClarityBudget(r), spanish, start);
    }
  }

  lemma ImplementationPartIds(tasks: seq<RawTask>, r: ConsolidatorResponses, cfg: DeliverableGroups, spanish: bool,
                              w: ConsolidatorWording, start: nat)
    ensures Consecutive(Ids(ImplementationPart(tasks, r, cfg, spanish, w, start)), start)
    ensures IdSpan(ImplementationPart(tasks, r, cfg, spanish, w, start)) == ImplementationPartSpan(tasks, r, cfg)
  {
    if r.implementationPhase {
      ImplementationIds(tasks, r, cfg, spanish, w, start);
      ImplementationIdSpan(tasks, r, cfg, spanish, w, start);
    }
  }

  lemma AdoptionPartIds(tasks: seq<RawTask>, r: ConsolidatorResponses, cfg: DeliverableGroups, spanish: bool,
                        start: nat)
    ensures Consecutive(Ids(AdoptionPart(tasks, r, cfg, spanish, start)), start)
  {
    if r.adoptionPhase {
      AdoptionIds(tasks, cfg.adoption, AdoptionBudget(r), spanish, start);
    }
  }

  /** The consolidated deliverables and their subtasks take the ids 1, 2, 3,
      … in the order they appear. */
  lemma ConsolidatedIds(raw: seq<RawTask>, r: ConsolidatorResponses, cfg: DeliverableGroups, spanish: bool,
                        w: ConsolidatorWording)
    ensures Consecutive(Ids(ConsolidatedDeliverables(raw, r, cfg, spanish, w)), 1)
  {
    hide ClarityPart, ImplementationPart, AdoptionPart, ClarityPartSpan, ImplementationPartSpan, Select;
    var clarityTasks := Select(raw, ByPhase(Clarity));
    var implementationTasks := Select(raw, ByPhase(Implementation));
    var implementationStart := 1 + ClarityPartSpan(clarityTasks, r, cfg);
    var clarity := ClarityPart(clarityTasks, r, cfg, spanish, 1);
    var implementation := ImplementationPart(implementationTasks, r, cfg, spanish, w, implementationStart);
    var adoptionStart := implementationStart + ImplementationPartSpan(implementationTasks, r, cfg);
    var adoption := AdoptionPart(Select(raw, ByPhase(Adoption)), r, cfg, spanish, adoptionStart);
    assert ConsolidatedDeliverables(raw, r, cfg, spanish, w) == clarity + implementation + adoption;
    ClarityPartIds(clarityTasks, r, cfg, spanish, 1);
    ImplementationPartIds(implementationTasks, r, cfg, spanish, w, implementationStart);
    AdoptionPartIds(Select(raw, ByPhase(Adoption)), r, cfg, spanish, adoptionStart);
    Threaded(clarity, implementation, 1);
    IdSpanAppend(clarity, implementation);
    Threaded(clarity + implementation, adoption, 1);
  }

  /** Row `k` of the consolidated flat task list has id `k + 1`; so the ids
      are exactly 1 to the task count, and no two rows share one. */
  lemma ConsolidatedRowIds(raw: seq<RawTask>, r: ConsolidatorResponses, cfg: DeliverableGroups, spanish: bool,
                           w: ConsolidatorWording, k: nat)
    requires k < |Flat(ConsolidatedDeliverables(raw, r, cfg, spanish, w), r.teamMembers, ConsolidatorRoles, true)|
    ensures Flat(ConsolidatedDeliverables(raw, r, cfg, spanish, w), r.teamMembers, ConsolidatorRoles, true)[k].id
            == k + 1
  {
    var ds := ConsolidatedDeliverables(raw, r, cfg, spanish, w);
    ConsolidatedIds(raw, r, cfg, spanish, w);
    FlatIds(ds, r.teamMembers, ConsolidatorRoles, true);
    RowIdsAt(Flat(ds, r.teamMembers, ConsolidatorRoles, true), k);
  }
}
