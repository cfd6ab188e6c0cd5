/** What a generated plan promises: every standard module with positive
    hours and every named custom module with positive hours gets its own
    package and a milestone of the same name; the ids of the plan increase
    strictly, so no two tasks share one; the milestone orders increase; the
    deliverables' hours against the allocated hours. */
module PlanFacts {
  import opened Common
  import opened PlanModel
  import opened PlanWording
  import opened PlanBlocks
  import opened FlatTasks
  import opened Assignment
  import opened PlanGenerator

  // ---------------------------------------------------------------------
  // Which modules get a package, and which package
  // ---------------------------------------------------------------------

  /** An entry gets a package exactly when its hours are positive. */
  lemma {:induction false} PositiveEntriesMembers(entries: seq<ModuleEntry>, e: ModuleEntry)
    ensures e in PositiveEntries(entries) <==> e in entries && e.hours > 0
    decreases |entries|
  {
    if entries != [] {
      var init := entries[..|entries| - 1];
      PositiveEntriesMembers(init, e);
      assert entries == init + [entries[|entries| - 1]];
    }
  }

  /** A custom module gets a package exactly when it has a name and positive
      hours. */
  lemma {:induction false} EligibleCustomsMembers(cms: seq<CustomModule>, cm: CustomModule)
    ensures cm in EligibleCustoms(cms) <==> cm in cms && cm.name != "" && cm.hours > 0
    decreases |cms|
  {
    if cms != [] {
      var init := cms[..|cms| - 1];
      EligibleCustomsMembers(init, cm);
      assert cms == init + [cms[|cms| - 1]];
    }
  }

  /** The `k`-th module package is the package of the `k`-th entry with
      positive hours, on the ids from `start + 10 * k`, and the `k`-th module
      milestone carries that module's title and order `firstOrder + k`. */
  lemma {:induction false} ModulePackageAt(entries: seq<ModuleEntry>, w: Wording, start: nat, firstOrder: int, k: nat)
    requires k < PositiveCount(entries)
    ensures |ModulePackages(entries, w, start)| == PositiveCount(entries)
    ensures |ModuleMilestones(entries, w, firstOrder)| == PositiveCount(entries)
    ensures var e := PositiveEntries(entries)[k];
      && ModulePackages(entries, w, start)[k] == ModulePackage(e.name, e.hours, w, start + 10 * k)
      && ModuleMilestones(entries, w, firstOrder)[k]
         == Milestone(Implementation, ModuleTitle(w, e.name), firstOrder + k)
    decreases |entries|
  {
    var init := entries[..|entries| - 1];
    var last := entries[|entries| - 1];
    ModulePackagesLength(init, w, start, firstOrder);
    if k < PositiveCount(init) {
      ModulePackageAt(init, w, start, firstOrder, k);
    }
  }

  lemma {:induction false} ModulePackagesLength(entries: seq<ModuleEntry>, w: Wording, start: nat, firstOrder: int)
    ensures |ModulePackages(entries, w, start)| == PositiveCount(entries)
    ensures |ModuleMilestones(entries, w, firstOrder)| == PositiveCount(entries)
    decreases |entries|
  {
    if entries != [] {
      ModulePackagesLength(entries[..|entries| - 1], w, start, firstOrder);
    }
  }

  /** Each module milestone is named after the milestone its package
      declares. */
  lemma ModuleMilestoneMatchesPackage(entries: seq<ModuleEntry>, w: Wording, start: nat, firstOrder: int, k: nat)
    requires k < PositiveCount(entries)
    ensures |ModulePackages(entries, w, start)| == |ModuleMilestones(entries, w, firstOrder)| == PositiveCount(entries)
    ensures ModuleMilestones(entries, w, firstOrder)[k].name == ModulePackages(entries, w, start)[k].milestone
    ensures ModuleMilestones(entries, w, firstOrder)[k].phase == ModulePackages(entries, w, start)[k].phase
  {
    ModulePackageAt(entries, w, start, firstOrder, k);
    var e := PositiveEntries(entries)[k];
    ModulePackageShape(e.name, e.hours, w, start + 10 * k);
  }

  lemma {:induction false} CustomPackagesLength(cms: seq<CustomModule>, w: Wording, start: nat, firstOrder: int)
    ensures |CustomPackages(cms, w, start)| == EligibleCount(cms)
    ensures |CustomMilestones(cms, w, firstOrder)| == EligibleCount(cms)
    decreases |cms|
  {
    if cms != [] {
      CustomPackagesLength(cms[..|cms| - 1], w, start, firstOrder);
    }
  }

  /** The `k`-th custom package is the package of the `k`-th named custom
      module with positive hours, on the ids from `start + 10 * k`, and the
      `k`-th custom milestone carries that module's title. */
  lemma {:induction false} CustomPackageAt(cms: seq<CustomModule>, w: Wording, start: nat, firstOrder: int, k: nat)
    requires k < EligibleCount(cms)
    ensures |CustomPackages(cms, w, start)| == EligibleCount(cms)
    ensures |CustomMilestones(cms, w, firstOrder)| == EligibleCount(cms)
    ensures var cm := EligibleCustoms(cms)[k];
      && CustomPackages(cms, w, start)[k] == CustomPackage(cm, w, start + 10 * k)
      && CustomMilestones(cms, w, firstOrder)[k]
         == Milestone(Implementation, ModuleTitle(w, cm.name), firstOrder + k)
    decreases |cms|
  {
    var init := cms[..|cms| - 1];
    CustomPackagesLength(init, w, start, firstOrder);
    if k < EligibleCount(init) {
      CustomPackageAt(init, w, start, firstOrder, k);
    }
  }

  lemma CustomMilestoneMatchesPackage(cms: seq<CustomModule>, w: Wording, start: nat, firstOrder: int, k: nat)
    requires k < EligibleCount(cms)
    ensures |CustomPackages(cms, w, start)| == |CustomMilestones(cms, w, firstOrder)| == EligibleCount(cms)
    ensures CustomMilestones(cms, w, firstOrder)[k].name == CustomPackages(cms, w, start)[k].milestone
    ensures CustomMilestones(cms, w, firstOrder)[k].phase == CustomPackages(cms, w, start)[k].phase
  {
    CustomPackageAt(cms, w, start, firstOrder, k);
    CustomPackageShape(EligibleCustoms(cms)[k], w, start + 10 * k);
  }

  // ---------------------------------------------------------------------
  // Ids
  // ---------------------------------------------------------------------

  /** A package on `n` consecutive ids from `lo` lies within `[lo, hi)`. */
  lemma SingleWithin(d: Deliverable, lo: int, n: int, hi: int)
    requires Consecutive(OwnIds(d), lo) && |OwnIds(d)| == n && lo + n <= hi
    ensures IncreasingWithin(Ids([d]), lo, hi)
  {
    IdsSingle(d);
    ConsecutiveIsIncreasing(OwnIds(d), lo);
    IncreasingWiden(OwnIds(d), lo, lo + n, lo, hi);
  }

  lemma IdsAppendWithin(a: seq<Deliverable>, b: seq<Deliverable>, lo: int, mid: int, hi: int)
    requires lo <= mid <= hi
    requires IncreasingWithin(Ids(a), lo, mid) && IncreasingWithin(Ids(b), mid, hi)
    ensures IncreasingWithin(Ids(a + b), lo, hi)
  {
    IdsAppend(a, b);
    IncreasingAppend(Ids(a), Ids(b), lo, mid, hi);
  }

  lemma IdsAppend4Within(a: seq<Deliverable>, b: seq<Deliverable>, c: seq<Deliverable>, d: seq<Deliverable>,
                         lo: int, m1: int, m2: int, m3: int, hi: int)
    ensures && lo <= m1 <= m2 <= m3 <= hi
            && IncreasingWithin(Ids(a), lo, m1) && IncreasingWithin(Ids(b), m1, m2)
            && IncreasingWithin(Ids(c), m2, m3) && IncreasingWithin(Ids(d), m3, hi)
            ==> IncreasingWithin(Ids(a + b + c + d), lo, hi)
  {
    if && lo <= m1 <= m2 <= m3 <= hi
       && IncreasingWithin(Ids(a), lo, m1) && IncreasingWithin(Ids(b), m1, m2)
       && IncreasingWithin(Ids(c), m2, m3) && IncreasingWithin(Ids(d), m3, hi)
    {
      IdsAppendWithin(a, b, lo, m1, m2);
      IdsAppendWithin(a + b, c, lo, m2, m3);
      IdsAppendWithin(a + b + c, d, lo, m3, hi);
    }
  }

  /** A package of four consecutive ids appended in a slot of ten. */
  lemma AppendPackage(before: seq<Deliverable>, d: Deliverable, lo: int, p: int)
    requires lo <= p && IncreasingWithin(Ids(before), lo, p)
    requires Consecutive(OwnIds(d), p) && |OwnIds(d)| == 4
    ensures IncreasingWithin(Ids(before + [d]), lo, p + 10)
  {
    SingleWithin(d, p, 4, p + 10);
    IdsAppendWithin(before, [d], lo, p, p + 10);
  }

  lemma ModulePackageIds(name: string, hours: int, w: Wording, p: nat)
    ensures Consecutive(OwnIds(ModulePackage(name, hours, w, p)), p)
    ensures |OwnIds(ModulePackage(name, hours, w, p))| == 4
  {
    ModulePackageShape(name, hours, w, p);
  }

  lemma CustomPackageIds(cm: CustomModule, w: Wording, p: nat)
    ensures Consecutive(OwnIds(CustomPackage(cm, w, p)), p)
    ensures |OwnIds(CustomPackage(cm, w, p))| == 4
  {
    CustomPackageShape(cm, w, p);
  }

  /** The module packages use ids in `[start, start + 10 * count)`, in
      increasing order. */
  lemma {:induction false} ModulePackagesIds(entries: seq<ModuleEntry>, w: Wording, start: nat)
    ensures IncreasingWithin(Ids(ModulePackages(entries, w, start)), start, start + 10 * PositiveCount(entries))
    decreases |entries|
  {
    if entries != [] {
      var init := entries[..|entries| - 1];
      var e := entries[|entries| - 1];
      var before := ModulePackages(init, w, start);
      var p := start + 10 * PositiveCount(init);
      ModulePackagesIds(init, w, start);
      if e.hours > 0 {
        var d := ModulePackage(e.name, e.hours, w, p);
        assert ModulePackages(entries, w, start) == before + [d];
        assert PositiveCount(entries) == PositiveCount(init) + 1;
        ModulePackageIds(e.name, e.hours, w, p);
        AppendPackage(before, d, start, p);
      } else {
        assert ModulePackages(entries, w, start) == before;
        assert PositiveCount(entries) == PositiveCount(init);
      }
    }
  }

  lemma {:induction false} CustomPackagesIds(cms: seq<CustomModule>, w: Wording, start: nat)
    ensures IncreasingWithin(Ids(CustomPackages(cms, w, start)), start, start + 10 * EligibleCount(cms))
    decreases |cms|
  {
    if cms != [] {
      var init := cms[..|cms| - 1];
      var cm := cms[|cms| - 1];
      var before := CustomPackages(init, w, start);
      var p := start + 10 * EligibleCount(init);
      CustomPackagesIds(init, w, start);
      if Eligible(cm) {
        var d := CustomPackage(cm, w, p);
        assert CustomPackages(cms, w, start) == before + [d];
        assert EligibleCount(cms) == EligibleCount(init) + 1;
        CustomPackageIds(cm, w, p);
        AppendPackage(before, d, start, p);
      } else {
        assert CustomPackages(cms, w, start) == before;
        assert EligibleCount(cms) == EligibleCount(init);
      }
    }
  }

  lemma SetupIds(w: Wording, start: nat)
    ensures IncreasingWithin(Ids([OdooSetup(w, start)]), start, start + 5)
  {
    OdooSetupShape(w, start);
    SingleWithin(OdooSetup(w, start), start, 5, start + 5);
  }

  lemma ExtrasIds(r: Responses, w: Wording, start: nat)
    ensures IncreasingWithin(Ids(ExtrasPart(r, w, start)), IntegrationStart(r, start), ImplementationEnd(r, start))
  {
    var integration := IntegrationPart(r, w, start);
    var warehouse := WarehousePart(r, w, start);
    if HasIntegrations(r) {
      IntegrationPackageShape(r.integrationList, w, IntegrationStart(r, start));
      SingleWithin(integration[0], IntegrationStart(r, start), 4, WarehouseStart(r, start));
    }
    if HasWarehouses(r) {
      WarehousePackageShape(r.warehouseCount, w, WarehouseStart(r, start));
      SingleWithin(warehouse[0], WarehouseStart(r, start), 1, ImplementationEnd(r, start));
    }
    IdsAppendWithin(integration, warehouse, IntegrationStart(r, start), WarehouseStart(r, start), ImplementationEnd(r, start));
  }

  lemma SetupAndModulesIds(r: Responses, w: Wording, start: nat)
    ensures IncreasingWithin(Ids([OdooSetup(w, start)] + ModulePackages(r.moduleHours, w, start + 5)),
                             start, CustomsStart(r, start))
  {
    SetupIds(w, start);
    ModulePackagesIds(r.moduleHours, w, start + 5);
    IdsAppendWithin([OdooSetup(w, start)], ModulePackages(r.moduleHours, w, start + 5),
      start, start + 5, CustomsStart(r, start));
  }

  lemma SetupModulesAndCustomsIds(r: Responses, w: Wording, start: nat)
    ensures IncreasingWithin(Ids([OdooSetup(w, start)] + ModulePackages(r.moduleHours, w, start + 5)
                                 + CustomPackages(r.customModules, w, CustomsStart(r, start))),
                             start, IntegrationStart(r, start))
  {
    SetupAndModulesIds(r, w, start);
    CustomPackagesIds(r.customModules, w, CustomsStart(r, start));
    IdsAppendWithin([OdooSetup(w, start)] + ModulePackages(r.moduleHours, w, start + 5),
      CustomPackages(r.customModules, w, CustomsStart(r, start)),
      start, CustomsStart(r, start), IntegrationStart(r, start));
  }

  lemma ImplementationPhaseUnfold(r: Responses, w: Wording, start: nat)
    ensures ImplementationPhase(r, w, start)
            == [OdooSetup(w, start)] + ModulePackages(r.moduleHours, w, start + 5)
               + CustomPackages(r.customModules, w, CustomsStart(r, start)) + ExtrasPart(r, w, start)
  {
  }

  lemma ImplementationPartsIds(r: Responses, w: Wording, start: nat)
    ensures IncreasingWithin(Ids([OdooSetup(w, start)] + ModulePackages(r.moduleHours, w, start + 5)
                                 + CustomPackages(r.customModules, w, CustomsStart(r, start))
                                 + ExtrasPart(r, w, start)),
                             start, ImplementationEnd(r, start))
  {
    SetupModulesAndCustomsIds(r, w, start);
    ExtrasIds(r, w, start);
    IdsAppendWithin([OdooSetup(w, start)] + ModulePackages(r.moduleHours, w, start + 5)
                    + CustomPackages(r.customModules, w, CustomsStart(r, start)),
      ExtrasPart(r, w, start), start, IntegrationStart(r, start), ImplementationEnd(r, start));
  }

  /** The Implementation ids increase from `start` and stay below the
      counter the phase hands on. */
  lemma ImplementationPhaseIds(r: Responses, w: Wording, start: nat)
    ensures IncreasingWithin(Ids(ImplementationPhase(r, w, start)), start, ImplementationEnd(r, start))
  {
    ImplementationPhaseUnfold(r, w, start);
    ImplementationPartsIds(r, w, start);
  }

  lemma ClarityPartIds(r: Responses, w: Wording)
    ensures IncreasingWithin(Ids(ClarityPart(r, w)), 1, ImplementationStart(r))
  {
    if r.clarityPhase {
      ClarityPhaseShape(r.clarityHours, w, 1);
      ConsecutiveIsIncreasing(Ids(ClarityPart(r, w)), 1);
      IncreasingWiden(Ids(ClarityPart(r, w)), 1, 13, 1, 16);
    }
  }

  lemma AdoptionPartIds(r: Responses, w: Wording)
    ensures IncreasingWithin(Ids(AdoptionPart(r, w)), AdoptionStart(r), NextId(r))
  {
    if r.adoptionPhase {
      AdoptionPhaseIds(r, w, AdoptionStart(r));
      ConsecutiveIsIncreasing(Ids(AdoptionPart(r, w)), AdoptionStart(r));
    }
  }

  /** The plan's ids increase strictly from 1 and stay below `NextId`. */
  lemma PlanIdsIncreasing(r: Responses, w: Wording)
    ensures IncreasingWithin(Ids(PlanDeliverables(r, w)), 1, NextId(r))
  {
    var clarity := ClarityPart(r, w);
    var implementation := ImplementationPart(r, w);
    ClarityPartIds(r, w);
    if r.implementationPhase {
      ImplementationPhaseIds(r, w, ImplementationStart(r));
    }
    AdoptionPartIds(r, w);
    IdsAppendWithin(clarity, implementation, 1, ImplementationStart(r), AdoptionStart(r));
    IdsAppendWithin(clarity + implementation, AdoptionPart(r, w), 1, AdoptionStart(r), NextId(r));
  }

  /** No two rows of the flat task list share an id: the ids increase down
      the list. */
  lemma PlanTaskIdsDistinct(r: Responses, w: Wording, i: nat, j: nat)
    requires i < j < |Flat(PlanDeliverables(r, w), r.teamMembers, GeneratorRoles, false)|
    ensures var flat := Flat(PlanDeliverables(r, w), r.teamMembers, GeneratorRoles, false);
      1 <= flat[i].id < flat[j].id < NextId(r)
  {
    var flat := Flat(PlanDeliverables(r, w), r.teamMembers, GeneratorRoles, false);
    PlanIdsIncreasing(r, w);
    FlatIds(PlanDeliverables(r, w), r.teamMembers, GeneratorRoles, false);
    RowIdsAt(flat, i);
    RowIdsAt(flat, j);
    IncreasingAt(Ids(PlanDeliverables(r, w)), 1, NextId(r), i, j);
  }

  // ---------------------------------------------------------------------
  // Milestone orders
  // ---------------------------------------------------------------------

  /** The `order` fields of a milestone list. */
  function Orders(ms: seq<Milestone>): (r: seq<int>)
    ensures |r| == |ms|
  {
    if ms == [] then [] else Orders(ms[..|ms| - 1]) + [ms[|ms| - 1].order]
  }

  lemma {:induction false} OrdersAppend(a: seq<Milestone>, b: seq<Milestone>)
    ensures Orders(a + b) == Orders(a) + Orders(b)
    decreases |b|
  {
    if b == [] {
      assert a + b == a;
    } else {
      assert (a + b)[..|a + b| - 1] == a + b[..|b| - 1];
      OrdersAppend(a, b[..|b| - 1]);
    }
  }

  /** The module milestones are ordered `firstOrder, firstOrder + 1, …`. */
  lemma {:induction false} ModuleMilestonesOrders(entries: seq<ModuleEntry>, w: Wording, firstOrder: int)
    ensures Consecutive(Orders(ModuleMilestones(entries, w, firstOrder)), firstOrder)
    ensures |ModuleMilestones(entries, w, firstOrder)| == PositiveCount(entries)
    decreases |entries|
  {
    if entries != [] {
      var init := entries[..|entries| - 1];
      var e := entries[|entries| - 1];
      var before := ModuleMilestones(init, w, firstOrder);
      ModuleMilestonesOrders(init, w, firstOrder);
      if e.hours > 0 {
        var m := Milestone(Implementation, ModuleTitle(w, e.name), firstOrder + PositiveCount(init));
        assert ModuleMilestones(entries, w, firstOrder) == before + [m];
        OrdersAppend(before, [m]);
        assert Orders([m]) == [m.order];
        ConsecutiveAppend(Orders(before), [m.order], firstOrder);
      } else {
        assert ModuleMilestones(entries, w, firstOrder) == before;
      }
    }
  }

  lemma {:induction false} CustomMilestonesOrders(cms: seq<CustomModule>, w: Wording, firstOrder: int)
    ensures Consecutive(Orders(CustomMilestones(cms, w, firstOrder)), firstOrder)
    ensures |CustomMilestones(cms, w, firstOrder)| == EligibleCount(cms)
    decreases |cms|
  {
    if cms != [] {
      var init := cms[..|cms| - 1];
      var cm := cms[|cms| - 1];
      var before := CustomMilestones(init, w, firstOrder);
      CustomMilestonesOrders(init, w, firstOrder);
      if Eligible(cm) {
        var m := Milestone(Implementation, ModuleTitle(w, cm.name), firstOrder + EligibleCount(init));
        assert CustomMilestones(cms, w, firstOrder) == before + [m];
        OrdersAppend(before, [m]);
        assert Orders([m]) == [m.order];
        ConsecutiveAppend(Orders(before), [m.order], firstOrder);
      } else {
        assert CustomMilestones(cms, w, firstOrder) == before;
      }
    }
  }

  /** The Implementation milestones are ordered `11, 12, …`, one per
      generated module package. */
  lemma ImplementationMilestonesOrders(r: Responses, w: Wording)
    ensures Consecutive(Orders(ImplementationMilestones(r, w)), 11)
    ensures |ImplementationMilestones(r, w)|
            == if r.implementationPhase then PositiveCount(r.moduleHours) + EligibleCount(r.customModules) else 0
  {
    if r.implementationPhase {
      var p := PositiveCount(r.moduleHours);
      ModuleMilestonesOrders(r.moduleHours, w, 11);
      CustomMilestonesOrders(r.customModules, w, 11 + p);
      OrdersAppend(ModuleMilestones(r.moduleHours, w, 11), CustomMilestones(r.customModules, w, 11 + p));
      ConsecutiveAppend(Orders(ModuleMilestones(r.moduleHours, w, 11)),
                        Orders(CustomMilestones(r.customModules, w, 11 + p)), 11);
    }
  }

  lemma Orders3(a: Milestone, b: Milestone, c: Milestone)
    ensures Orders([a, b, c]) == [a.order, b.order, c.order]
  {
    assert [a][..0] == [];
    assert Orders([a]) == [a.order];
    assert [a, b][..1] == [a];
    assert Orders([a, b]) == [a.order, b.order];
    assert [a, b, c][..2] == [a, b];
  }

  lemma ClarityAndAdoptionOrders(r: Responses, w: Wording)
    ensures IncreasingWithin(Orders(ClarityMilestones(r, w)), 1, 11)
    ensures IncreasingWithin(Orders(AdoptionMilestones(r, w)), 100, 101)
  {
    var c := ClarityMilestones(r, w);
    if r.clarityPhase {
      Orders3(c[0], c[1], c[2]);
      assert c == [c[0], c[1], c[2]];
      ConsecutiveIsIncreasing(Orders(c), 1);
      IncreasingWiden(Orders(c), 1, 4, 1, 11);
    }
    if r.adoptionPhase {
      assert Orders(AdoptionMilestones(r, w)) == [100];
      ConsecutiveIsIncreasing([100], 100);
    }
  }

  /** The milestone orders increase down the list, provided there are at
      most 89 module packages: the Implementation orders run from 11 and the
      go-live milestone has order 100. */
  lemma PlanMilestonesOrdered(r: Responses, w: Wording)
    requires PositiveCount(r.moduleHours) + EligibleCount(r.customModules) <= 89
    ensures IncreasingWithin(Orders(PlanMilestones(r, w)), 1, 101)
  {
    var c := ClarityMilestones(r, w);
    var i := ImplementationMilestones(r, w);
    var a := AdoptionMilestones(r, w);
    ClarityAndAdoptionOrders(r, w);
    ImplementationMilestonesOrders(r, w);
    ConsecutiveIsIncreasing(Orders(i), 11);
    IncreasingWiden(Orders(i), 11, 11 + |i|, 11, 100);
    OrdersAppend(c, i);
    OrdersAppend(c + i, a);
    IncreasingAppend(Orders(c), Orders(i), 1, 11, 100);
    IncreasingAppend(Orders(c + i), Orders(a), 1, 100, 101);
  }

  /** With 90 module packages the last of them takes order 100, the order
      of the go-live milestone. */
  lemma MilestoneOrderCollision(r: Responses, w: Wording)
    requires r.implementationPhase && r.adoptionPhase
    requires PositiveCount(r.moduleHours) + EligibleCount(r.customModules) == 90
    ensures var ms := PlanMilestones(r, w);
      var k := |ClarityMilestones(r, w)| + 89;
      k < |ms| - 1 && ms[k].order == ms[|ms| - 1].order == 100
  {
    var c := ClarityMilestones(r, w);
    var i := ImplementationMilestones(r, w);
    var a := AdoptionMilestones(r, w);
    ImplementationMilestonesOrders(r, w);
    var ms := c + i + a;
    assert ms[|c| + 89] == i[89];
    OrdersAppend([], i);
    assert Orders(i)[89] == 11 + 89;
    OrderAt(i, 89);
  }

  lemma {:induction false} OrderAt(ms: seq<Milestone>, k: nat)
    requires k < |ms|
    ensures Orders(ms)[k] == ms[k].order
    decreases |ms|
  {
    if k < |ms| - 1 {
      OrderAt(ms[..|ms| - 1], k);
    }
  }

  // ---------------------------------------------------------------------
  // Hours
  // ---------------------------------------------------------------------

  /** The module packages carry the hours of the entries with positive
      hours. */
  lemma {:induction false} ModulePackagesHours(entries: seq<ModuleEntry>, w: Wording, start: nat)
    ensures TotalHours(ModulePackages(entries, w, start)) == ModuleHoursTotal(PositiveEntries(entries))
    decreases |entries|
  {
    if entries != [] {
      var init := entries[..|entries| - 1];
      var e := entries[|entries| - 1];
      var before := ModulePackages(init, w, start);
      ModulePackagesHours(init, w, start);
      if e.hours > 0 {
        var d := ModulePackage(e.name, e.hours, w, start + 10 * PositiveCount(init));
        assert ModulePackages(entries, w, start) == before + [d];
        assert (before + [d])[..|before|] == before;
        assert PositiveEntries(entries) == PositiveEntries(init) + [e];
        assert (PositiveEntries(init) + [e])[..|PositiveEntries(init)|] == PositiveEntries(init);
      } else {
        assert ModulePackages(entries, w, start) == before;
        assert PositiveEntries(entries) == PositiveEntries(init);
      }
    }
  }

  /** With no negative hours, leaving out the entries of 0 hours changes no
      sum. */
  lemma {:induction false} PositiveEntriesHours(entries: seq<ModuleEntry>)
    requires forall i | 0 <= i < |entries| :: entries[i].hours >= 0
    ensures ModuleHoursTotal(PositiveEntries(entries)) == ModuleHoursTotal(entries)
    decreases |entries|
  {
    if entries != [] {
      var init := entries[..|entries| - 1];
      var e := entries[|entries| - 1];
      assert forall i | 0 <= i < |init| :: init[i] == entries[i];
      PositiveEntriesHours(init);
      if e.hours > 0 {
        assert PositiveEntries(entries) == PositiveEntries(init) + [e];
        assert (PositiveEntries(init) + [e])[..|PositiveEntries(init)|] == PositiveEntries(init);
      } else {
        assert PositiveEntries(entries) == PositiveEntries(init);
        assert ModuleHoursTotal(entries) == ModuleHoursTotal(init);
      }
    }
  }

  /** The custom packages carry the hours of the eligible custom modules. */
  lemma {:induction false} CustomPackagesHours(cms: seq<CustomModule>, w: Wording, start: nat)
    ensures TotalHours(CustomPackages(cms, w, start)) == CustomHoursTotal(EligibleCustoms(cms))
    decreases |cms|
  {
    if cms != [] {
      var init := cms[..|cms| - 1];
      var cm := cms[|cms| - 1];
      var before := CustomPackages(init, w, start);
      CustomPackagesHours(init, w, start);
      if Eligible(cm) {
        var d := CustomPackage(cm, w, start + 10 * EligibleCount(init));
        assert CustomPackages(cms, w, start) == before + [d];
        assert (before + [d])[..|before|] == before;
        assert EligibleCustoms(cms) == EligibleCustoms(init) + [cm];
        assert (EligibleCustoms(init) + [cm])[..|EligibleCustoms(init)|] == EligibleCustoms(init);
      } else {
        assert CustomPackages(cms, w, start) == before;
        assert EligibleCustoms(cms) == EligibleCustoms(init);
      }
    }
  }

  /** With no negative hours and a name on every custom module that has
      hours, every custom hour gets a package. */
  lemma {:induction false} EligibleCustomsHours(cms: seq<CustomModule>)
    requires forall i | 0 <= i < |cms| :: cms[i].hours >= 0 && (cms[i].hours > 0 ==> cms[i].name != "")
    ensures CustomHoursTotal(EligibleCustoms(cms)) == CustomHoursTotal(cms)
    decreases |cms|
  {
    if cms != [] {
      var init := cms[..|cms| - 1];
      var cm := cms[|cms| - 1];
      assert forall i | 0 <= i < |init| :: init[i] == cms[i];
      EligibleCustomsHours(init);
      if Eligible(cm) {
        assert EligibleCustoms(cms) == EligibleCustoms(init) + [cm];
        assert (EligibleCustoms(init) + [cm])[..|EligibleCustoms(init)|] == EligibleCustoms(init);
      } else {
        assert EligibleCustoms(cms) == EligibleCustoms(init);
        assert CustomHoursTotal(cms) == CustomHoursTotal(init);
      }
    }
  }

  /** The hours of the integration and multi-warehouse packages. */
  function ExtrasHours(r: Responses): int
  {
    (if HasIntegrations(r) then 16 else 0)
    + (if HasWarehouses(r) then 4 * OrDefault(r.warehouseCount, 2) else 0)
  }

  lemma ExtrasPartHours(r: Responses, w: Wording, start: nat)
    ensures TotalHours(ExtrasPart(r, w, start)) == ExtrasHours(r)
  {
    var integration := IntegrationPart(r, w, start);
    var warehouse := WarehousePart(r, w, start);
    TotalHoursAppend(integration, warehouse);
    if HasIntegrations(r) {
      IntegrationPackageShape(r.integrationList, w, IntegrationStart(r, start));
      assert integration[..0] == [];
    }
    if HasWarehouses(r) {
      WarehousePackageShape(r.warehouseCount, w, WarehouseStart(r, start));
      assert warehouse[..0] == [];
    }
  }

  lemma ImplementationPartsHours(r: Responses, w: Wording, start: nat)
    ensures TotalHours([OdooSetup(w, start)] + ModulePackages(r.moduleHours, w, start + 5)
                       + CustomPackages(r.customModules, w, CustomsStart(r, start)) + ExtrasPart(r, w, start))
            == 8 + ModuleHoursTotal(PositiveEntries(r.moduleHours)) + CustomHoursTotal(EligibleCustoms(r.customModules))
               + ExtrasHours(r)
  {
    var setup := [OdooSetup(w, start)];
    var modules := ModulePackages(r.moduleHours, w, start + 5);
    var customs := CustomPackages(r.customModules, w, CustomsStart(r, start));
    var extras := ExtrasPart(r, w, start);
    assert setup[..0] == [];
    ModulePackagesHours(r.moduleHours, w, start + 5);
    CustomPackagesHours(r.customModules, w, CustomsStart(r, start));
    ExtrasPartHours(r, w, start);
    TotalHoursAppend(setup, modules);
    TotalHoursAppend(setup + modules, customs);
    TotalHoursAppend(setup + modules + customs, extras);
  }

  /** The Implementation deliverables carry 8 setup hours, the hours of the
      generated module packages and the integration and warehouse hours. */
  lemma ImplementationPhaseHours(r: Responses, w: Wording, start: nat)
    ensures TotalHours(ImplementationPhase(r, w, start))
            == 8 + ModuleHoursTotal(PositiveEntries(r.moduleHours)) + CustomHoursTotal(EligibleCustoms(r.customModules))
               + ExtrasHours(r)
  {
    ImplementationPhaseUnfold(r, w, start);
    ImplementationPartsHours(r, w, start);
  }

  /** When no hours are negative and every custom module with hours has a
      name, the Implementation deliverables carry the Implementation part of
      the allocated hours, plus the setup, integration and warehouse hours
      that the allocation does not count. */
  lemma ImplementationAgainstBudget(r: Responses, w: Wording, start: nat)
    requires forall i | 0 <= i < |r.moduleHours| :: r.moduleHours[i].hours >= 0
    requires forall i | 0 <= i < |r.customModules| ::
      r.customModules[i].hours >= 0 && (r.customModules[i].hours > 0 ==> r.customModules[i].name != "")
    ensures TotalHours(ImplementationPhase(r, w, start)) == ImplementationBudget(r) + 8 + ExtrasHours(r)
  {
    ImplementationPhaseHours(r, w, start);
    PositiveEntriesHours(r.moduleHours);
    EligibleCustomsHours(r.customModules);
  }

  /** The hours of the Adoption deliverables: each part's hours when it is
      generated. */
  lemma AdoptionPhaseHours(r: Responses, w: Wording, start: nat)
    ensures TotalHours(AdoptionPhase(r, w, start))
            == (if AdoptionTraining(r) > 0 then AdoptionTraining(r) else 0)
               + (if AdoptionGoLive(r) > 0 then AdoptionGoLive(r) else 0)
               + (if AdoptionMonths(r) > 0 && AdoptionPerMonth(r) > 0 then AdoptionPerMonth(r) * AdoptionMonths(r) else 0)
  {
    var t := TrainingPart(r, w, start);
    var g := GoLivePart(r, w, start + 4 * |t|);
    var s := SupportPart(r, w, start + 4 * |t| + 3 * |g|);
    TrainingPartHours(r, w, start);
    GoLivePartHours(r, w, start + 4 * |t|);
    SupportPartHours(r, w, start + 4 * |t| + 3 * |g|);
    hide TrainingPart, GoLivePart, SupportPart;
    assert AdoptionPhase(r, w, start) == t + g + s;
    TotalHoursAppend(t, g);
    TotalHoursAppend(t + g, s);
  }

  lemma TrainingPartHours(r: Responses, w: Wording, start: nat)
    ensures TotalHours(TrainingPart(r, w, start)) == if AdoptionTraining(r) > 0 then AdoptionTraining(r) else 0
  {
    var t := TrainingPart(r, w, start);
    if t != [] { assert t[..0] == []; }
  }

  lemma GoLivePartHours(r: Responses, w: Wording, start: nat)
    ensures TotalHours(GoLivePart(r, w, start)) == if AdoptionGoLive(r) > 0 then AdoptionGoLive(r) else 0
  {
    var g := GoLivePart(r, w, start);
    if g != [] { assert g[..0] == []; }
  }

  lemma SupportPartHours(r: Responses, w: Wording, start: nat)
    ensures TotalHours(SupportPart(r, w, start))
         == if AdoptionMonths(r) > 0 && AdoptionPerMonth(r) > 0 then AdoptionPerMonth(r) * AdoptionMonths(r) else 0
  {
    var s := SupportPart(r, w, start);
    if s != [] { assert s[..0] == []; }
  }

  /** With every Adoption value positive, the Adoption deliverables carry
      exactly the Adoption part of the allocated hours. */
  lemma AdoptionMatchesBudget(r: Responses, w: Wording)
    requires r.adoptionPhase
    requires r.trainingHours > 0 && r.goLiveHours > 0 && r.supportHoursPerMonth > 0 && r.supportMonths > 0
    ensures TotalHours(AdoptionPart(r, w)) == AdoptionBudget(r)
  {
    AdoptionPhaseHours(r, w, AdoptionStart(r));
  }

  /** With every Adoption value left at 0, the allocation counts no Adoption
      hours while the deliverables fall back to 24 + 8 + 2 * 10 hours. */
  lemma AdoptionDefaultsExceedBudget(r: Responses, w: Wording)
    requires r.adoptionPhase
    requires r.trainingHours == 0 && r.goLiveHours == 0 && r.supportHoursPerMonth == 0 && r.supportMonths == 0
    ensures AdoptionBudget(r) == 0
    ensures TotalHours(AdoptionPart(r, w)) == 52
  {
    AdoptionPhaseHours(r, w, AdoptionStart(r));
  }

  /** The Clarity deliverables carry the Clarity part of the allocated
      hours, give or take one hour of rounding. */
  lemma ClarityAgainstBudget(r: Responses, w: Wording)
    ensures ClarityBudget(r) - 1 <= TotalHours(ClarityPart(r, w)) <= ClarityBudget(r) + 1
    ensures !r.clarityPhase ==> TotalHours(ClarityPart(r, w)) == ClarityBudget(r) == 0
  {
    if r.clarityPhase {
      ClarityPhaseHoursNearBudget(r.clarityHours, w, 1);
    }
  }
}
