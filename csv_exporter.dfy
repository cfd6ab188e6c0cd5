/** The CSV exporter: the rows of the project, milestone, task and
    deliverable files Odoo imports, and the file-name stem. Writing the CSV
    text and downloading the files are left out; a row here is the record
    whose fields become the file's columns, in column order. */
module CsvExport {
  import opened Common
  import opened PlanModel
  import opened Dates
  import opened ModuleHoursMap
  import opened Assignment
  import opened FlatTasks
  import opened PlanWording
  import opened PlanBlocks
  import PlanGenerator

  // ---------------------------------------------------------------------
  // The project file
  // ---------------------------------------------------------------------

  /** Display Name, Customer, Company, Project Manager, Last Update Status,
      Status, Start Date, Expiration Date, Allocated Time. */
  datatype ProjectRow = ProjectRow(
    displayName: string,
    customer: string,
    company: string,
    projectManager: string,
    lastUpdateStatus: string,
    status: string,
    startDate: Date,
    expirationDate: Date,
    allocatedTime: int)

  /** `exportProjectCSV`: one row; its allocated time is the deliverables'
      hours, their subtasks not counted again. */
  function ProjectRows(r: Responses, ds: seq<Deliverable>): (rows: seq<ProjectRow>)
    ensures |rows| == 1
    ensures rows[0].displayName == r.projectName && rows[0].customer == r.clientName
    ensures rows[0].startDate == r.startDate && rows[0].expirationDate == r.deadline
    ensures rows[0].allocatedTime == TotalHours(ds)
  {
    [ProjectRow(r.projectName, r.clientName, "", r.projectManager, "Set Status", "",
                r.startDate, r.deadline, TotalHours(ds))]
  }

  /** Exporting more deliverables adds their hours to the allocated time. */
  lemma ProjectTimeAdds(r: Responses, a: seq<Deliverable>, b: seq<Deliverable>)
    ensures ProjectRows(r, a + b)[0].allocatedTime
         == ProjectRows(r, a)[0].allocatedTime + ProjectRows(r, b)[0].allocatedTime
  {
    TotalHoursAppend(a, b);
  }

  // ---------------------------------------------------------------------
  // The milestone file
  // ---------------------------------------------------------------------

  /** A milestone before it becomes a row. */
  datatype DatedName = DatedName(name: string, deadline: Date)

  /** Project, Milestone, Deadline. */
  datatype MilestoneRow = MilestoneRow(project: string, milestone: string, deadline: Date)

  /** The start date of the export: the response's, or `today` when it is
      empty. */
  function ExportStart(r: Responses, today: int): int
  {
    if r.startDate.Some? then r.startDate.value else today
  }

  /** The deadline of the export: the response's, or twelve weeks after the
      start when it is empty. */
  function ExportDeadline(r: Responses, today: int): (d: Date)
    ensures d.Some?
    ensures r.deadline.None? ==> d == Some(ExportStart(r, today) + 84)
  {
    if r.deadline.Some? then r.deadline else AddWeeks(Some(ExportStart(r, today)), 12)
  }

  /** The milestone of module `name`. */
  function ModuleMilestoneName(spanish: bool, name: string): string
  {
    if spanish then "Implementación del Módulo de " + name else name + " Module Implementation"
  }

  /** One milestone per module name, in order, all due on `deadline`. */
  function ModuleMilestonesAt(spanish: bool, names: seq<string>, deadline: Date): (ms: seq<DatedName>)
    ensures |ms| == |names|
  {
    if names == [] then []
    else
      ModuleMilestonesAt(spanish, names[..|names| - 1], deadline)
      + [DatedName(ModuleMilestoneName(spanish, names[|names| - 1]), deadline)]
  }

  /** The names of the custom modules. `PlanNames` and `ExportNames` below
      take the names of plan milestones and of exported milestones the same
      way: three element types, so three projections of one shape rather
      than one projection that every lemma would have to pass a function
      to. */
  function CustomNames(cms: seq<CustomModule>): (names: seq<string>)
    ensures |names| == |cms|
  {
    if cms == [] then [] else CustomNames(cms[..|cms| - 1]) + [cms[|cms| - 1].name]
  }

  /** Clarity's three milestones, at two, three and four weeks from
      `start`. */
  function ClarityMilestonesFrom(spanish: bool, start: int): seq<DatedName>
  {
    [DatedName(if spanish then "Mapeo de Procesos" else "Process Mapping", Some(start + 14)),
     DatedName(if spanish then "Hallazgos y TO-BE" else "Findings & TO-BE", Some(start + 21)),
     DatedName(if spanish then "Master de Implementación" else "Master of Implementation", Some(start + 28))]
  }

  function GoLiveMilestoneName(spanish: bool): string
  {
    if spanish then "Capacitación y Go-Live" else "Training & Go-Live"
  }

  function ExportClarity(r: Responses, today: int): seq<DatedName>
  {
    if r.clarityPhase then ClarityMilestonesFrom(IsSpanish(r), ExportStart(r, today)) else []
  }

  function ExportImplementation(r: Responses, today: int): seq<DatedName>
  {
    if r.implementationPhase
    then ModuleMilestonesAt(IsSpanish(r), Selected(r.moduleHours), ExportDeadline(r, today))
         + ModuleMilestonesAt(IsSpanish(r), CustomNames(PlanGenerator.EligibleCustoms(r.customModules)),
                              ExportDeadline(r, today))
    else []
  }

  function ExportAdoption(r: Responses, today: int): seq<DatedName>
  {
    if r.adoptionPhase then [DatedName(GoLiveMilestoneName(IsSpanish(r)), ExportDeadline(r, today))] else []
  }

  /** The milestones of the export, phase by phase: Clarity's three at two,
      three and four weeks from the start; one per selected module and one
      per custom module with a name and positive hours at the deadline; the
      go-live one at the deadline. */
  function ExportMilestones(r: Responses, today: int): seq<DatedName>
  {
    ExportClarity(r, today) + ExportImplementation(r, today) + ExportAdoption(r, today)
  }

  function MilestoneRows(project: string, ms: seq<DatedName>): (rows: seq<MilestoneRow>)
    ensures |rows| == |ms|
  {
    if ms == [] then []
    else MilestoneRows(project, ms[..|ms| - 1]) + [MilestoneRow(project, ms[|ms| - 1].name, ms[|ms| - 1].deadline)]
  }

  /** `exportMilestonesCSV` up to the download: the milestones pushed one by
      one while the current date moves through Clarity, then their rows. */
  method ExportMilestonesCsv(r: Responses, today: int) returns (rows: seq<MilestoneRow>)
    ensures rows == MilestoneRows(r.projectName, ExportMilestones(r, today))
  {
    hide ClarityMilestonesFrom, ModuleMilestonesAt, CustomNames, Selected, MilestoneRows, GoLiveMilestoneName,
         PlanGenerator.EligibleCustoms;
    var language := if r.language == "" then "English" else r.language;
    var isSpanish := language == "Spanish";
    var milestones: seq<DatedName> := [];
    var projectStartDate := if r.startDate.Some? then r.startDate.value else today;
    var projectDeadline := if r.deadline.Some? then r.deadline else AddWeeks(Some(projectStartDate), 12);
    var currentDate: Date := Some(projectStartDate);
    assert isSpanish == IsSpanish(r);

    if r.clarityPhase {
      milestones, currentDate := PushClarityMilestones(milestones, isSpanish, currentDate);
    }
    ghost var afterClarity := milestones;
    assert afterClarity == ExportClarity(r, today);

    if r.implementationPhase {
      var selectedModules := Selected(r.moduleHours);
      var customModules := PlanGenerator.EligibleCustoms(r.customModules);
      var implementationEndDate := projectDeadline;

      milestones := PushModuleMilestones(milestones, isSpanish, selectedModules, implementationEndDate);
      ghost var moduleMilestones := ModuleMilestonesAt(isSpanish, selectedModules, implementationEndDate);
      milestones := PushCustomMilestones(milestones, isSpanish, customModules, implementationEndDate);
      ghost var customMilestones := ModuleMilestonesAt(isSpanish, CustomNames(customModules), implementationEndDate);
      assert ExportImplementation(r, today) == moduleMilestones + customMilestones;
      AppendAssociates(afterClarity, moduleMilestones, customMilestones);
    }
    assert milestones == ExportClarity(r, today) + ExportImplementation(r, today);

    if r.adoptionPhase {
      milestones := milestones + [DatedName(GoLiveMilestoneName(isSpanish), projectDeadline)];
    }

    assert milestones == ExportMilestones(r, today);
    rows := MilestoneRows(r.projectName, milestones);
  }

  /** Clarity's three milestones, the current date moving two weeks, then
      one, then one. */
  method PushClarityMilestones(milestones: seq<DatedName>, isSpanish: bool, startDate: Date)
    returns (ms: seq<DatedName>, currentDate: Date)
    requires startDate.Some?
    ensures ms == milestones + ClarityMilestonesFrom(isSpanish, startDate.value)
    ensures currentDate == Some(startDate.value + 28)
  {
    ms := milestones;
    currentDate := startDate;
    var mappingEnd := AddWeeks(currentDate, 2);
    ms := ms + [DatedName(if isSpanish then "Mapeo de Procesos" else "Process Mapping", mappingEnd)];
    currentDate := mappingEnd;

    var toBeEnd := AddWeeks(currentDate, 1);
    ms := ms + [DatedName(if isSpanish then "Hallazgos y TO-BE" else "Findings & TO-BE", toBeEnd)];
    currentDate := toBeEnd;

    var moiEnd := AddWeeks(currentDate, 1);
    ms := ms + [DatedName(if isSpanish then "Master de Implementación" else "Master of Implementation", moiEnd)];
    currentDate := moiEnd;
  }

  /** The loop over the selected modules: one milestone each, due on
      `deadline`. */
  method PushModuleMilestones(milestones: seq<DatedName>, isSpanish: bool, selectedModules: seq<string>, deadline: Date)
    returns (ms: seq<DatedName>)
    ensures ms == milestones + ModuleMilestonesAt(isSpanish, selectedModules, deadline)
  {
    ms := milestones;
    var i := 0;
    while i < |selectedModules|
      invariant 0 <= i <= |selectedModules|
      invariant ms == milestones + ModuleMilestonesAt(isSpanish, selectedModules[..i], deadline)
    {
      ModuleMilestonesPush(isSpanish, selectedModules[..i], selectedModules[i], deadline);
      assert selectedModules[..i + 1] == selectedModules[..i] + [selectedModules[i]];
      ms := ms + [DatedName(ModuleMilestoneName(isSpanish, selectedModules[i]), deadline)];
      i := i + 1;
    }
    assert selectedModules[..i] == selectedModules;
  }

  /** The loop over the custom modules with a name and positive hours. */
  method PushCustomMilestones(milestones: seq<DatedName>, isSpanish: bool, customModules: seq<CustomModule>, deadline: Date)
    returns (ms: seq<DatedName>)
    ensures ms == milestones + ModuleMilestonesAt(isSpanish, CustomNames(customModules), deadline)
  {
    ms := milestones;
    var j := 0;
    while j < |customModules|
      invariant 0 <= j <= |customModules|
      invariant ms == milestones + ModuleMilestonesAt(isSpanish, CustomNames(customModules[..j]), deadline)
    {
      CustomNamesPush(customModules, j);
      ModuleMilestonesPush(isSpanish, CustomNames(customModules[..j]), customModules[j].name, deadline);
      AppendAssociates(milestones, ModuleMilestonesAt(isSpanish, CustomNames(customModules[..j]), deadline),
                       [DatedName(ModuleMilestoneName(isSpanish, customModules[j].name), deadline)]);
      ms := ms + [DatedName(ModuleMilestoneName(isSpanish, customModules[j].name), deadline)];
      j := j + 1;
    }
    assert customModules[..j] == customModules;
  }

  lemma AppendAssociates(a: seq<DatedName>, b: seq<DatedName>, c: seq<DatedName>)
    ensures a + b + c == a + (b + c)
  {
  }

  lemma ModuleMilestonesPush(spanish: bool, names: seq<string>, name: string, deadline: Date)
    ensures ModuleMilestonesAt(spanish, names + [name], deadline)
         == ModuleMilestonesAt(spanish, names, deadline) + [DatedName(ModuleMilestoneName(spanish, name), deadline)]
  {
    assert (names + [name])[..|names|] == names;
  }

  lemma CustomNamesPush(cms: seq<CustomModule>, j: nat)
    requires j < |cms|
    ensures CustomNames(cms[..j + 1]) == CustomNames(cms[..j]) + [cms[j].name]
  {
    assert cms[..j + 1][..j] == cms[..j];
  }

  /** Row `k` of the milestone file is milestone `k`. */
  lemma {:induction false} MilestoneRowsAt(project: string, ms: seq<DatedName>, k: nat)
    requires k < |ms|
    ensures MilestoneRows(project, ms)[k] == MilestoneRow(project, ms[k].name, ms[k].deadline)
    decreases |ms|
  {
    if k < |ms| - 1 {
      MilestoneRowsAt(project, ms[..|ms| - 1], k);
    }
  }

  lemma {:induction false} ModuleMilestonesAtFacts(spanish: bool, names: seq<string>, deadline: Date, k: nat)
    requires k < |names|
    ensures ModuleMilestonesAt(spanish, names, deadline)[k] == DatedName(ModuleMilestoneName(spanish, names[k]), deadline)
    decreases |names|
  {
    if k < |names| - 1 {
      ModuleMilestonesAtFacts(spanish, names[..|names| - 1], deadline, k);
    }
  }

  lemma {:induction false} CustomNamesAt(cms: seq<CustomModule>, k: nat)
    requires k < |cms|
    ensures CustomNames(cms)[k] == cms[k].name
    decreases |cms|
  {
    if k < |cms| - 1 {
      CustomNamesAt(cms[..|cms| - 1], k);
    }
  }

  /** The milestone file has three Clarity rows, one row per module with
      positive hours and per named custom module with positive hours, and
      one go-live row, each only when its phase is on. */
  lemma MilestoneCount(r: Responses, today: int)
    ensures |ExportMilestones(r, today)|
         == (if r.clarityPhase then 3 else 0)
            + (if r.implementationPhase
               then PlanGenerator.PositiveCount(r.moduleHours) + PlanGenerator.EligibleCount(r.customModules)
               else 0)
            + (if r.adoptionPhase then 1 else 0)
  {
    SelectedArePositive(r.moduleHours);
  }

  /** The number of leading Clarity milestones. */
  function ClarityCount(r: Responses): nat
  {
    if r.clarityPhase then 3 else 0
  }

  /** With Clarity on, the file opens with its three milestones at two,
      three and four weeks after the start. */
  lemma ClarityDeadlines(r: Responses, today: int, k: nat)
    requires k < ClarityCount(r)
    ensures k < |ExportMilestones(r, today)|
    ensures ExportMilestones(r, today)[k].deadline == Some(ExportStart(r, today) + 14 + 7 * k)
  {
    assert ExportMilestones(r, today)[k] == ExportClarity(r, today)[k];
  }

  /** Every milestone after Clarity's is due on the deadline, which is
      twelve weeks after the start when none is given. */
  lemma LaterDeadlines(r: Responses, today: int, k: nat)
    requires ClarityCount(r) <= k < |ExportMilestones(r, today)|
    ensures ExportMilestones(r, today)[k].deadline == ExportDeadline(r, today)
  {
    var c := ExportClarity(r, today);
    var impl := ExportImplementation(r, today);
    var ms := ExportMilestones(r, today);
    assert |c| == ClarityCount(r);
    if k < |c| + |impl| {
      assert ms[k] == impl[k - |c|];
      ImplementationDeadlines(r, today, k - |c|);
    } else {
      assert ms[k] == ExportAdoption(r, today)[k - |c| - |impl|];
    }
  }

  /** Every Implementation milestone is due on the deadline. */
  lemma ImplementationDeadlines(r: Responses, today: int, i: nat)
    requires i < |ExportImplementation(r, today)|
    ensures ExportImplementation(r, today)[i].deadline == ExportDeadline(r, today)
  {
    var spanish := IsSpanish(r);
    var deadline := ExportDeadline(r, today);
    var names := Selected(r.moduleHours);
    var customs := CustomNames(PlanGenerator.EligibleCustoms(r.customModules));
    var mods := ModuleMilestonesAt(spanish, names, deadline);
    if i < |mods| {
      ModuleMilestonesAtFacts(spanish, names, deadline, i);
    } else {
      ModuleMilestonesAtFacts(spanish, customs, deadline, i - |mods|);
    }
  }

  /** The module milestones the generator gives a plan, read as names. */
  function PlanNames(ms: seq<Milestone>): (names: seq<string>)
    ensures |names| == |ms|
  {
    if ms == [] then [] else PlanNames(ms[..|ms| - 1]) + [ms[|ms| - 1].name]
  }

  /** The exported milestones, read as names. */
  function ExportNames(ms: seq<DatedName>): (names: seq<string>)
    ensures |names| == |ms|
  {
    if ms == [] then [] else ExportNames(ms[..|ms| - 1]) + [ms[|ms| - 1].name]
  }

  lemma {:induction false} PlanNamesAppend(a: seq<Milestone>, b: seq<Milestone>)
    ensures PlanNames(a + b) == PlanNames(a) + PlanNames(b)
    decreases |b|
  {
    if b != [] {
      assert (a + b)[..|a + b| - 1] == a + b[..|b| - 1];
      PlanNamesAppend(a, b[..|b| - 1]);
    } else {
      assert a + b == a;
    }
  }

  lemma {:induction false} ExportNamesAppend(a: seq<DatedName>, b: seq<DatedName>)
    ensures ExportNames(a + b) == ExportNames(a) + ExportNames(b)
    decreases |b|
  {
    if b != [] {
      assert (a + b)[..|a + b| - 1] == a + b[..|b| - 1];
      ExportNamesAppend(a, b[..|b| - 1]);
    } else {
      assert a + b == a;
    }
  }

  /** The module-title wording of the plan in each language. */
  ghost predicate TitlesLike(w: Wording, spanish: bool)
  {
    w.moduleTitle == if spanish then Frame("Implementación del Módulo de ", "") else Frame("", " Module Implementation")
  }

  /** The plan's Spanish milestone wording. */
  lemma SpanishPlanWords()
    ensures TitlesLike(WordingFor(true), true)
    ensures WordingFor(true).mapping.milestone == "Mapeo de Procesos"
    ensures WordingFor(true).design.milestone == "Hallazgos y TO-BE"
    ensures WordingFor(true).master.milestone == "Master de Implementación"
    ensures WordingFor(true).goLiveMilestone == "Capacitación y Go-Live"
  {
  }

  /** The plan's English milestone wording. */
  lemma EnglishPlanWords()
    ensures TitlesLike(WordingFor(false), false)
    ensures WordingFor(false).mapping.milestone == "Process Mapping"
    ensures WordingFor(false).design.milestone == "Findings and TO-BE"
    ensures WordingFor(false).master.milestone == "Master of Implementation"
    ensures WordingFor(false).goLiveMilestone == "Training and Go-Live"
  {
  }

  /** The plan's module-title wording in either language. */
  lemma PlanTitles(spanish: bool)
    ensures TitlesLike(WordingFor(spanish), spanish)
  {
  }

  lemma TitleAgrees(w: Wording, spanish: bool, name: string)
    requires TitlesLike(w, spanish)
    ensures ModuleTitle(w, name) == ModuleMilestoneName(spanish, name)
  {
  }

  /** One more entry of `module_hours`, on the generator's side. */
  lemma PlanModuleStep(es: seq<ModuleEntry>, w: Wording, firstOrder: int)
    requires es != []
    ensures PlanNames(PlanGenerator.ModuleMilestones(es, w, firstOrder))
         == PlanNames(PlanGenerator.ModuleMilestones(es[..|es| - 1], w, firstOrder))
            + (if es[|es| - 1].hours > 0 then [ModuleTitle(w, es[|es| - 1].name)] else [])
  {
    var init := es[..|es| - 1];
    var e := es[|es| - 1];
    var pm := PlanGenerator.ModuleMilestones(init, w, firstOrder);
    if e.hours > 0 {
      PlanNamesAppend(pm, [Milestone(Implementation, ModuleTitle(w, e.name), firstOrder + PlanGenerator.PositiveCount(init))]);
    } else {
      assert PlanGenerator.ModuleMilestones(es, w, firstOrder) == pm + [] == pm;
    }
  }

  /** One more entry of `module_hours`, on the export's side. */
  lemma ExportModuleStep(es: seq<ModuleEntry>, spanish: bool, deadline: Date)
    requires es != []
    ensures ExportNames(ModuleMilestonesAt(spanish, Selected(es), deadline))
         == ExportNames(ModuleMilestonesAt(spanish, Selected(es[..|es| - 1]), deadline))
            + (if es[|es| - 1].hours > 0 then [ModuleMilestoneName(spanish, es[|es| - 1].name)] else [])
  {
    var init := es[..|es| - 1];
    var e := es[|es| - 1];
    var sel := Selected(es);
    if e.hours > 0 {
      assert sel == Selected(init) + [e.name];
      assert sel[..|sel| - 1] == Selected(init);
      ExportNamesAppend(ModuleMilestonesAt(spanish, Selected(init), deadline),
                        [DatedName(ModuleMilestoneName(spanish, e.name), deadline)]);
    } else {
      assert sel == Selected(init) + [] == Selected(init);
    }
  }

  /** The generator's module milestones, named after the modules with
      positive hours, are the export's module milestones. */
  lemma {:induction false} ModuleNamesAgree(es: seq<ModuleEntry>, w: Wording, spanish: bool, firstOrder: int,
                                            deadline: Date)
    requires TitlesLike(w, spanish)
    ensures PlanNames(PlanGenerator.ModuleMilestones(es, w, firstOrder))
         == ExportNames(ModuleMilestonesAt(spanish, Selected(es), deadline))
    decreases |es|
  {
    hide ModuleTitle, ModuleMilestoneName, PlanNames, ExportNames, TitlesLike;
    if es != [] {
      ModuleNamesAgree(es[..|es| - 1], w, spanish, firstOrder, deadline);
      PlanModuleStep(es, w, firstOrder);
      ExportModuleStep(es, spanish, deadline);
      TitleAgrees(w, spanish, es[|es| - 1].name);
    }
  }

  /** One more custom module, on the generator's side. */
  lemma PlanCustomStep(cms: seq<CustomModule>, w: Wording, firstOrder: int)
    requires cms != []
    ensures PlanNames(PlanGenerator.CustomMilestones(cms, w, firstOrder))
         == PlanNames(PlanGenerator.CustomMilestones(cms[..|cms| - 1], w, firstOrder))
            + (if PlanGenerator.Eligible(cms[|cms| - 1]) then [ModuleTitle(w, cms[|cms| - 1].name)] else [])
  {
    var init := cms[..|cms| - 1];
    var cm := cms[|cms| - 1];
    var pm := PlanGenerator.CustomMilestones(init, w, firstOrder);
    if PlanGenerator.Eligible(cm) {
      PlanNamesAppend(pm, [Milestone(Implementation, ModuleTitle(w, cm.name), firstOrder + PlanGenerator.EligibleCount(init))]);
    } else {
      assert PlanGenerator.CustomMilestones(cms, w, firstOrder) == pm + [] == pm;
    }
  }

  /** One more custom module, on the export's side. */
  lemma ExportCustomStep(cms: seq<CustomModule>, spanish: bool, deadline: Date)
    requires cms != []
    ensures ExportNames(ModuleMilestonesAt(spanish, CustomNames(PlanGenerator.EligibleCustoms(cms)), deadline))
         == ExportNames(ModuleMilestonesAt(spanish, CustomNames(PlanGenerator.EligibleCustoms(cms[..|cms| - 1])), deadline))
            + (if PlanGenerator.Eligible(cms[|cms| - 1]) then [ModuleMilestoneName(spanish, cms[|cms| - 1].name)] else [])
  {
    var init := cms[..|cms| - 1];
    var cm := cms[|cms| - 1];
    var ei := PlanGenerator.EligibleCustoms(init);
    var ec := PlanGenerator.EligibleCustoms(cms);
    if PlanGenerator.Eligible(cm) {
      assert ec == ei + [cm];
      assert ec[..|ec| - 1] == ei;
      var cn := CustomNames(ec);
      assert cn == CustomNames(ei) + [cm.name];
      assert cn[..|cn| - 1] == CustomNames(ei);
      ExportNamesAppend(ModuleMilestonesAt(spanish, CustomNames(ei), deadline),
                        [DatedName(ModuleMilestoneName(spanish, cm.name), deadline)]);
    } else {
      assert ec == ei + [] == ei;
    }
  }

  /** The same for the custom modules with a name and positive hours. */
  lemma {:induction false} CustomNamesAgree(cms: seq<CustomModule>, w: Wording, spanish: bool, firstOrder: int,
                                            deadline: Date)
    requires TitlesLike(w, spanish)
    ensures PlanNames(PlanGenerator.CustomMilestones(cms, w, firstOrder))
         == ExportNames(ModuleMilestonesAt(spanish, CustomNames(PlanGenerator.EligibleCustoms(cms)), deadline))
    decreases |cms|
  {
    hide ModuleTitle, ModuleMilestoneName, PlanNames, ExportNames, TitlesLike;
    if cms != [] {
      CustomNamesAgree(cms[..|cms| - 1], w, spanish, firstOrder, deadline);
      PlanCustomStep(cms, w, firstOrder);
      ExportCustomStep(cms, spanish, deadline);
      TitleAgrees(w, spanish, cms[|cms| - 1].name);
    }
  }

  /** The Implementation milestones of the file and of the plan bear the
      same names in the same order. */
  lemma ImplementationNamesAgree(r: Responses, today: int)
    requires r.implementationPhase
    ensures PlanNames(PlanGenerator.ImplementationMilestones(r, WordingFor(IsSpanish(r))))
         == ExportNames(ModuleMilestonesAt(IsSpanish(r), Selected(r.moduleHours), ExportDeadline(r, today))
                        + ModuleMilestonesAt(IsSpanish(r), CustomNames(PlanGenerator.EligibleCustoms(r.customModules)),
                                             ExportDeadline(r, today)))
  {
    var spanish := IsSpanish(r);
    var w := WordingFor(spanish);
    PlanTitles(spanish);
    hide WordingFor, SpanishWording, EnglishWording, TitlesLike;
    var deadline := ExportDeadline(r, today);
    var pmods := PlanGenerator.ModuleMilestones(r.moduleHours, w, 11);
    var pcust := PlanGenerator.CustomMilestones(r.customModules, w, 11 + PlanGenerator.PositiveCount(r.moduleHours));
    var emods := ModuleMilestonesAt(spanish, Selected(r.moduleHours), deadline);
    var ecust := ModuleMilestonesAt(spanish, CustomNames(PlanGenerator.EligibleCustoms(r.customModules)), deadline);
    ModuleNamesAgree(r.moduleHours, w, spanish, 11, deadline);
    CustomNamesAgree(r.customModules, w, spanish, 11 + PlanGenerator.PositiveCount(r.moduleHours), deadline);
    PlanNamesAppend(pmods, pcust);
    ExportNamesAppend(emods, ecust);
  }

  /** The plan's Spanish wording of the phase milestones. */
  ghost predicate SpanishMilestoneWords(w: Wording)
  {
    && w.mapping.milestone == "Mapeo de Procesos"
    && w.design.milestone == "Hallazgos y TO-BE"
    && w.master.milestone == "Master de Implementación"
    && w.goLiveMilestone == "Capacitación y Go-Live"
  }

  lemma SpanishWords()
    ensures SpanishMilestoneWords(WordingFor(true))
  {
    SpanishPlanWords();
  }

  lemma SpanishClarityNames(r: Responses, today: int, w: Wording)
    requires IsSpanish(r) && SpanishMilestoneWords(w)
    ensures PlanNames(PlanGenerator.ClarityMilestones(r, w)) == ExportNames(ExportClarity(r, today))
  {
    if r.clarityPhase {
      var pc := PlanGenerator.ClarityMilestones(r, w);
      var ec := ExportClarity(r, today);
      assert pc[..2][..1] == pc[..1] && pc[..1][..0] == [];
      assert ec[..2][..1] == ec[..1] && ec[..1][..0] == [];
      assert PlanNames(pc[..1]) == [pc[0].name];
      assert PlanNames(pc[..2]) == [pc[0].name, pc[1].name];
      assert PlanNames(pc) == [pc[0].name, pc[1].name, pc[2].name];
      assert |ec| == 3;
      assert ExportNames(ec[..1]) == [ec[0].name];
      assert ExportNames(ec[..2]) == [ec[0].name, ec[1].name];
      assert ExportNames(ec) == [ec[0].name, ec[1].name, ec[2].name];
    }
  }

  lemma SpanishAdoptionNames(r: Responses, today: int, w: Wording)
    requires IsSpanish(r) && SpanishMilestoneWords(w)
    ensures PlanNames(PlanGenerator.AdoptionMilestones(r, w)) == ExportNames(ExportAdoption(r, today))
  {
    if r.adoptionPhase {
      assert PlanGenerator.AdoptionMilestones(r, w)[..0] == [] && ExportAdoption(r, today)[..0] == [];
    }
  }

  /** In Spanish the milestone file names exactly the plan's milestones, in
      the plan's order. */
  lemma SpanishMilestonesMatchPlan(r: Responses, today: int)
    requires IsSpanish(r)
    ensures PlanNames(PlanGenerator.PlanMilestones(r, WordingFor(true))) == ExportNames(ExportMilestones(r, today))
  {
    var w := WordingFor(true);
    SpanishWords();
    if r.implementationPhase {
      ImplementationNamesAgree(r, today);
    }
    hide WordingFor, SpanishWording, EnglishWording, SpanishMilestoneWords;
    SpanishClarityNames(r, today, w);
    SpanishAdoptionNames(r, today, w);
    var pc := PlanGenerator.ClarityMilestones(r, w);
    var pi := PlanGenerator.ImplementationMilestones(r, w);
    var pa := PlanGenerator.AdoptionMilestones(r, w);
    var ec := ExportClarity(r, today);
    var ei := ExportImplementation(r, today);
    var ea := ExportAdoption(r, today);
    PlanNamesAppend(pc, pi);
    PlanNamesAppend(pc + pi, pa);
    ExportNamesAppend(ec, ei);
    ExportNamesAppend(ec + ei, ea);
  }

  /** In English two milestone names of the file differ from the plan's:
      the file writes `&` where the plan writes `and`. */
  lemma EnglishNamesDiffer(r: Responses, today: int)
    requires !IsSpanish(r) && r.clarityPhase
    ensures |ExportMilestones(r, today)| > 1 && ExportMilestones(r, today)[1].name == "Findings & TO-BE"
    ensures var pm := PlanGenerator.PlanMilestones(r, WordingFor(false));
            |pm| > 1 && pm[1].name == "Findings and TO-BE"
  {
    EnglishPlanWords();
    hide WordingFor, SpanishWording, EnglishWording;
    var pm := PlanGenerator.PlanMilestones(r, WordingFor(false));
    assert pm[1] == PlanGenerator.ClarityMilestones(r, WordingFor(false))[1];
  }

  // ---------------------------------------------------------------------
  // The task and deliverable files
  // ---------------------------------------------------------------------

  /** Title, Project, Assignees, Allocated Time, Stage, Priority, Tags,
      Parent Task, Description. */
  datatype TaskRow = TaskRow(
    title: string,
    project: string,
    assignees: string,
    allocatedTime: int,
    stage: string,
    priority: string,
    tags: string,
    parentTask: string,
    description: string)

  /** Odoo's priority label; any priority other than High and Medium is
      exported as low. */
  function PriorityLabel(p: Priority): (s: string)
    ensures s == "High priority" <==> p == High
    ensures s == "Medium priority" <==> p == Medium
    ensures s == "Low priority" <==> !(p == High || p == Medium)
  {
    if p == High then "High priority" else if p == Medium then "Medium priority" else "Low priority"
  }

  /** `getOdooTag`: Clarity is tagged as process mapping, Adoption as
      support, every other phase as implementation. */
  function OdooTag(ph: Phase): (tag: string)
    ensures tag == "Process Mapping" <==> ph == Clarity
    ensures tag == "Soporte" <==> ph == Adoption
    ensures tag == "Odoo Implementation" <==> !(ph == Clarity || ph == Adoption)
  {
    match ph
    case Clarity => "Process Mapping"
    case Implementation => "Odoo Implementation"
    case Adoption => "Soporte"
    case OtherPhase(_) => "Odoo Implementation"
  }

  function TaskRowOf(project: string, t: FlatTask): TaskRow
  {
    TaskRow(t.title, project, t.assignee, t.hours, "Backlog", PriorityLabel(t.priority), OdooTag(t.phase),
            t.parentTask, t.description)
  }

  /** `exportTasksCSV`: a row per task, in the order of the list. */
  function TaskRows(project: string, fs: seq<FlatTask>): (rows: seq<TaskRow>)
    ensures |rows| == |fs|
  {
    if fs == [] then [] else TaskRows(project, fs[..|fs| - 1]) + [TaskRowOf(project, fs[|fs| - 1])]
  }

  /** Row `k` of the task file carries task `k`'s title, hours, assignee and
      parent. */
  lemma {:induction false} TaskRowsAt(project: string, fs: seq<FlatTask>, k: nat)
    requires k < |fs|
    ensures TaskRows(project, fs)[k] == TaskRowOf(project, fs[k])
    ensures TaskRows(project, fs)[k].parentTask == fs[k].parentTask
    ensures TaskRows(project, fs)[k].allocatedTime == fs[k].hours
    decreases |fs|
  {
    if k < |fs| - 1 {
      TaskRowsAt(project, fs[..|fs| - 1], k);
    }
  }

  lemma {:induction false} TaskRowsAppend(project: string, a: seq<FlatTask>, b: seq<FlatTask>)
    ensures TaskRows(project, a + b) == TaskRows(project, a) + TaskRows(project, b)
    decreases |b|
  {
    if b != [] {
      assert (a + b)[..|a + b| - 1] == a + b[..|b| - 1];
      TaskRowsAppend(project, a, b[..|b| - 1]);
    } else {
      assert a + b == a;
    }
  }

  /** The deliverable rows of a task list, in order. */
  function OnlyDeliverables(fs: seq<FlatTask>): (ds: seq<FlatTask>)
    ensures |ds| <= |fs|
  {
    if fs == [] then []
    else OnlyDeliverables(fs[..|fs| - 1]) + (if fs[|fs| - 1].taskType == DeliverableRow then [fs[|fs| - 1]] else [])
  }

  /** `exportDeliverablesOnlyCSV`: the deliverable rows only, none with a
      parent. */
  function DeliverableRows(project: string, fs: seq<FlatTask>): (rows: seq<TaskRow>)
  {
    if fs == [] then []
    else
      var t := fs[|fs| - 1];
      DeliverableRows(project, fs[..|fs| - 1])
      + (if t.taskType == DeliverableRow then [TaskRowOf(project, t).(parentTask := "")] else [])
  }

  lemma {:induction false} OnlyDeliverablesAppend(a: seq<FlatTask>, b: seq<FlatTask>)
    ensures OnlyDeliverables(a + b) == OnlyDeliverables(a) + OnlyDeliverables(b)
    decreases |b|
  {
    if b != [] {
      assert (a + b)[..|a + b| - 1] == a + b[..|b| - 1];
      OnlyDeliverablesAppend(a, b[..|b| - 1]);
    } else {
      assert a + b == a;
    }
  }

  /** No subtask row is a deliverable row. */
  lemma {:induction false} SubtaskRowsHaveNoDeliverable(d: Deliverable, sts: seq<Subtask>, team: seq<string>,
                                                        roles: map<string, Role>, ownMilestone: bool)
    ensures OnlyDeliverables(SubtaskRows(d, sts, team, roles, ownMilestone)) == []
    decreases |sts|
  {
    if sts != [] {
      SubtaskRowsHaveNoDeliverable(d, sts[..|sts| - 1], team, roles, ownMilestone);
      var rows := SubtaskRows(d, sts, team, roles, ownMilestone);
      assert rows[..|rows| - 1] == SubtaskRows(d, sts[..|sts| - 1], team, roles, ownMilestone);
    }
  }

  /** The deliverable rows of the flat list, one per deliverable. */
  function DeliverableToRows(ds: seq<Deliverable>, team: seq<string>, roles: map<string, Role>): (rows: seq<FlatTask>)
    ensures |rows| == |ds|
  {
    if ds == [] then [] else DeliverableToRows(ds[..|ds| - 1], team, roles) + [DeliverableToRow(ds[|ds| - 1], team, roles)]
  }

  /** Of the flat list, exactly the deliverables' own rows are deliverable
      rows, one per deliverable and in the deliverables' order. */
  lemma {:induction false} FlatDeliverables(ds: seq<Deliverable>, team: seq<string>, roles: map<string, Role>,
                                            ownMilestone: bool)
    ensures OnlyDeliverables(Flat(ds, team, roles, ownMilestone)) == DeliverableToRows(ds, team, roles)
    decreases |ds|
  {
    if ds != [] {
      var d := ds[|ds| - 1];
      FlatUnfold(ds, team, roles, ownMilestone);
      FlatDeliverables(ds[..|ds| - 1], team, roles, ownMilestone);
      var head := [DeliverableToRow(d, team, roles)];
      var tail := SubtaskRows(d, d.subtasks, team, roles, ownMilestone);
      OnlyDeliverablesAppend(Flat(ds[..|ds| - 1], team, roles, ownMilestone), head + tail);
      OnlyDeliverablesAppend(head, tail);
      SubtaskRowsHaveNoDeliverable(d, d.subtasks, team, roles, ownMilestone);
      assert head[..0] == [];
    }
  }

  lemma {:induction false} DeliverableToRowsAt(ds: seq<Deliverable>, team: seq<string>, roles: map<string, Role>, k: nat)
    requires k < |ds|
    ensures DeliverableToRows(ds, team, roles)[k] == DeliverableToRow(ds[k], team, roles)
    decreases |ds|
  {
    if k < |ds| - 1 {
      DeliverableToRowsAt(ds[..|ds| - 1], team, roles, k);
    }
  }

  /** The deliverable file lists the task file's deliverable rows: a row
      without a parent stays as it is. */
  lemma {:induction false} DeliverableRowsAreTaskRows(project: string, fs: seq<FlatTask>)
    requires forall k | 0 <= k < |fs| && fs[k].taskType == DeliverableRow :: fs[k].parentTask == ""
    ensures DeliverableRows(project, fs) == TaskRows(project, OnlyDeliverables(fs))
    decreases |fs|
  {
    if fs != [] {
      var front := fs[..|fs| - 1];
      var t := fs[|fs| - 1];
      DeliverableRowsAreTaskRows(project, front);
      TaskRowsAppend(project, OnlyDeliverables(front), if t.taskType == DeliverableRow then [t] else []);
      if t.taskType == DeliverableRow {
        assert [t][..0] == [];
        assert TaskRowOf(project, t).(parentTask := "") == TaskRowOf(project, t);
      }
    }
  }

  /** For a flat list of the plan, the deliverable file has one row per
      deliverable, with its title and its hours. */
  lemma DeliverableFileOfPlan(project: string, ds: seq<Deliverable>, team: seq<string>, roles: map<string, Role>,
                              ownMilestone: bool)
    ensures |DeliverableRows(project, Flat(ds, team, roles, ownMilestone))| == |ds|
    ensures forall k | 0 <= k < |ds| ::
              DeliverableRows(project, Flat(ds, team, roles, ownMilestone))[k].title == ds[k].title
              && DeliverableRows(project, Flat(ds, team, roles, ownMilestone))[k].allocatedTime == ds[k].hours
              && DeliverableRows(project, Flat(ds, team, roles, ownMilestone))[k].parentTask == ""
  {
    var fs := Flat(ds, team, roles, ownMilestone);
    FlatDeliverables(ds, team, roles, ownMilestone);
    forall k | 0 <= k < |fs| && fs[k].taskType == DeliverableRow
      ensures fs[k].parentTask == ""
    {
      OnlyDeliverablesHas(fs, k);
      var j :| 0 <= j < |ds| && OnlyDeliverables(fs)[j] == fs[k];
      DeliverableToRowsAt(ds, team, roles, j);
    }
    DeliverableRowsAreTaskRows(project, fs);
    forall k | 0 <= k < |ds|
      ensures DeliverableRows(project, fs)[k].title == ds[k].title
      ensures DeliverableRows(project, fs)[k].allocatedTime == ds[k].hours
      ensures DeliverableRows(project, fs)[k].parentTask == ""
    {
      TaskRowsAt(project, OnlyDeliverables(fs), k);
      DeliverableToRowsAt(ds, team, roles, k);
    }
  }

  /** Every deliverable row of the list is among its deliverable rows. */
  lemma {:induction false} OnlyDeliverablesHas(fs: seq<FlatTask>, k: nat)
    requires k < |fs| && fs[k].taskType == DeliverableRow
    ensures exists j | 0 <= j < |OnlyDeliverables(fs)| :: OnlyDeliverables(fs)[j] == fs[k]
    decreases |fs|
  {
    var front := fs[..|fs| - 1];
    if k < |fs| - 1 {
      OnlyDeliverablesHas(front, k);
      var j :| 0 <= j < |OnlyDeliverables(front)| && OnlyDeliverables(front)[j] == front[k];
      assert OnlyDeliverables(fs)[j] == fs[k];
    } else {
      assert OnlyDeliverables(fs)[|OnlyDeliverables(front)|] == fs[k];
    }
  }

  /** The deliverables-only filter keeps exactly the deliverable rows of the
      list: every row it keeps is a deliverable row of the list, and every
      deliverable row of the list is kept. */
  lemma {:induction false} OnlyDeliverablesExactly(fs: seq<FlatTask>, t: FlatTask)
    ensures t in OnlyDeliverables(fs) <==> t in fs && t.taskType == DeliverableRow
    decreases |fs|
  {
    if fs != [] {
      var front := fs[..|fs| - 1];
      var last := fs[|fs| - 1];
      OnlyDeliverablesExactly(front, t);
      assert fs == front + [last];
      assert t in fs <==> t in front || t == last;
    }
  }

  // ---------------------------------------------------------------------
  // File names
  // ---------------------------------------------------------------------

  predicate IsAsciiAlnum(c: char)
  {
    'a' <= c <= 'z' || 'A' <= c <= 'Z' || '0' <= c <= '9'
  }

  /** Every character outside `[A-Za-z0-9]` replaced by `_`. */
  function Underscored(s: string): (r: string)
    ensures |r| == |s|
  {
    if s == [] then [] else Underscored(s[..|s| - 1]) + [if IsAsciiAlnum(s[|s| - 1]) then s[|s| - 1] else '_']
  }

  /** Every run of `_` shortened to one. */
  function Squeezed(s: string): (r: string)
    ensures |r| <= |s|
    ensures s != [] ==> r != []
  {
    if s == [] then []
    else
      var front := Squeezed(s[..|s| - 1]);
      var c := s[|s| - 1];
      if c == '_' && front != [] && front[|front| - 1] == '_' then front else front + [c]
  }

  /** `sanitizeFilename`: `project` for an empty name. */
  function SanitizeFilename(name: string): string
  {
    if name == "" then "project" else Squeezed(Underscored(name))
  }

  /** Only letters, digits and `_`. */
  ghost predicate SafeName(s: string)
  {
    forall i | 0 <= i < |s| :: IsAsciiAlnum(s[i]) || s[i] == '_'
  }

  ghost predicate NoDoubleUnderscore(s: string)
  {
    forall i | 0 <= i < |s| - 1 :: !(s[i] == '_' && s[i + 1] == '_')
  }

  /** The letters and digits of a string, in order. */
  function Alnums(s: string): string
  {
    if s == [] then [] else Alnums(s[..|s| - 1]) + (if IsAsciiAlnum(s[|s| - 1]) then [s[|s| - 1]] else [])
  }

  lemma {:induction false} UnderscoredFacts(s: string)
    ensures SafeName(Underscored(s))
    ensures Alnums(Underscored(s)) == Alnums(s)
    ensures SafeName(s) ==> Underscored(s) == s
    decreases |s|
  {
    if s != [] {
      UnderscoredFacts(s[..|s| - 1]);
      var u := Underscored(s);
      assert u[..|u| - 1] == Underscored(s[..|s| - 1]);
      if SafeName(s) {
        var init := s[..|s| - 1];
        assert SafeName(init) by {
          forall i | 0 <= i < |init|
            ensures IsAsciiAlnum(init[i]) || init[i] == '_'
          {
            assert init[i] == s[i];
          }
        }
        assert s == s[..|s| - 1] + [s[|s| - 1]];
      }
    }
  }

  lemma {:induction false} SqueezedNoDouble(s: string)
    ensures NoDoubleUnderscore(Squeezed(s))
    decreases |s|
  {
    if s != [] {
      var front := Squeezed(s[..|s| - 1]);
      var c := s[|s| - 1];
      SqueezedNoDouble(s[..|s| - 1]);
      if !(c == '_' && front != [] && front[|front| - 1] == '_') {
        var r := front + [c];
        forall i | 0 <= i < |r| - 1
          ensures !(r[i] == '_' && r[i + 1] == '_')
        {
          assert r[i] == front[i];
          if i + 1 < |front| {
            assert r[i + 1] == front[i + 1];
          }
        }
      }
    }
  }

  /** Squeezing drops underscores only. */
  lemma {:induction false} SqueezedAlnums(s: string)
    ensures Alnums(Squeezed(s)) == Alnums(s)
    decreases |s|
  {
    if s != [] {
      var front := Squeezed(s[..|s| - 1]);
      var c := s[|s| - 1];
      SqueezedAlnums(s[..|s| - 1]);
      if c == '_' && front != [] && front[|front| - 1] == '_' {
        assert Alnums(s) == Alnums(s[..|s| - 1]) + [];
      } else {
        assert (front + [c])[..|front|] == front;
      }
    }
  }

  lemma {:induction false} SqueezedSafe(s: string)
    requires SafeName(s)
    ensures SafeName(Squeezed(s))
    decreases |s|
  {
    if s != [] {
      var init := s[..|s| - 1];
      var front := Squeezed(init);
      var c := s[|s| - 1];
      assert SafeName(init) by {
        forall i | 0 <= i < |init|
          ensures IsAsciiAlnum(init[i]) || init[i] == '_'
        {
          assert init[i] == s[i];
        }
      }
      SqueezedSafe(init);
      if !(c == '_' && front != [] && front[|front| - 1] == '_') {
        var r := front + [c];
        forall i | 0 <= i < |r|
          ensures IsAsciiAlnum(r[i]) || r[i] == '_'
        {
          if i < |front| {
            assert r[i] == front[i];
          }
        }
      }
    }
  }

  /** A string without doubled underscores is already squeezed. */
  lemma {:induction false} SqueezedFixed(s: string)
    requires NoDoubleUnderscore(s)
    ensures Squeezed(s) == s
    decreases |s|
  {
    if s != [] {
      var init := s[..|s| - 1];
      assert NoDoubleUnderscore(init) by {
        forall i | 0 <= i < |init| - 1
          ensures !(init[i] == '_' && init[i + 1] == '_')
        {
          assert init[i] == s[i] && init[i + 1] == s[i + 1];
        }
      }
      SqueezedFixed(init);
      if |s| >= 2 {
        assert init[|init| - 1] == s[|s| - 2];
      }
      assert s == init + [s[|s| - 1]];
    }
  }

  /** The file-name stem is never empty, uses only letters, digits and
      `_`, never has two `_` together, and keeps the name's letters and
      digits in order. */
  lemma SanitizedName(name: string)
    ensures SanitizeFilename(name) != ""
    ensures SafeName(SanitizeFilename(name))
    ensures NoDoubleUnderscore(SanitizeFilename(name))
    ensures name != "" ==> Alnums(SanitizeFilename(name)) == Alnums(name)
  {
    if name == "" {
      assert SafeName("project") by {
        forall i | 0 <= i < |"project"|
          ensures IsAsciiAlnum("project"[i])
        {
        }
      }
    } else {
      UnderscoredFacts(name);
      SqueezedNoDouble(Underscored(name));
      SqueezedAlnums(Underscored(name));
      SqueezedSafe(Underscored(name));
    }
  }

  /** A name is its own stem exactly when it is non-empty, safe and free of
      doubled underscores; so sanitizing twice is sanitizing once. */
  lemma SanitizeFixedPoints(name: string)
    ensures SanitizeFilename(name) == name <==> name != "" && SafeName(name) && NoDoubleUnderscore(name)
    ensures SanitizeFilename(SanitizeFilename(name)) == SanitizeFilename(name)
  {
    SanitizedName(name);
    if name != "" && SafeName(name) && NoDoubleUnderscore(name) {
      UnderscoredFacts(name);
      SqueezedFixed(name);
    }
    var s := SanitizeFilename(name);
    UnderscoredFacts(s);
    SqueezedFixed(s);
  }
}
