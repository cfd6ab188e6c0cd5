/** `useQuestionnaire`: the questionnaire's state, meaning the current
    section, the responses and the selected template, with the actions that
    change it and the totals and checks computed from it. The section
    structure and the project templates are data files of the application;
    here they are given to the constructor. */
module QuestionnaireState {
  import opened Common
  import opened PlanModel
  import opened ModuleHoursMap
  import opened QuestionConditions
  import PlanGenerator

  /** A section of the questionnaire; `conditional` is `""` when it has
      none. */
  datatype Section = Section(id: string, conditional: string)

  /** `phases.<phase>` of a template: `enabled` is absent when not given,
      `hours` is 0 when not given. */
  datatype PhaseSetting = PhaseSetting(enabled: Option<bool>, hours: int)

  /** A project template. Numbers that are missing are 0. */
  datatype Template = Template(
    id: string,
    clarity: PhaseSetting,
    implementation: PhaseSetting,
    adoption: PhaseSetting,
    modules: seq<string>,
    trainingHours: int,
    supportHoursPerMonth: int,
    supportMonths: int,
    integrations: bool,
    multiWarehouse: bool,
    warehouseCount: int)

  /** `x ?? true`. */
  function OrTrue(x: Option<bool>): bool
  {
    if x.None? then true else x.value
  }

  // ---------------------------------------------------------------------
  // Responses
  // ---------------------------------------------------------------------

  /** The responses a new questionnaire starts with; `today` is the day the
      questionnaire is opened. */
  function InitialResponses(today: int): Responses
  {
    Responses("", "", "English", "", [], Some(today), None,
              true, 40, true, true,
              24, 8, 10, 2,
              [], [],
              "No", "", "No", 2,
              None)
  }

  /** `updateResponse(questionId, value)`: one field of the responses set
      to a value of its type. */
  datatype ResponseEdit =
    | ProjectNameIs(projectName: string)
    | ClientNameIs(clientName: string)
    | LanguageIs(language: string)
    | ProjectManagerIs(projectManager: string)
    | TeamMembersAre(teamMembers: seq<string>)
    | StartDateIs(startDate: Option<int>)
    | DeadlineIs(deadline: Option<int>)
    | ClarityPhaseIs(clarityPhase: bool)
    | ClarityHoursAre(clarityHours: int)
    | ImplementationPhaseIs(implementationPhase: bool)
    | AdoptionPhaseIs(adoptionPhase: bool)
    | TrainingHoursAre(trainingHours: int)
    | GoLiveHoursAre(goLiveHours: int)
    | SupportHoursPerMonthAre(supportHoursPerMonth: int)
    | SupportMonthsAre(supportMonths: int)
    | ModuleHoursAre(moduleHours: seq<ModuleEntry>)
    | CustomModulesAre(customModules: seq<CustomModule>)
    | IntegrationsAre(integrations: string)
    | IntegrationListIs(integrationList: string)
    | MultiWarehouseIs(multiWarehouse: string)
    | WarehouseCountIs(warehouseCount: int)
    | SelectedTemplateIs(selectedTemplate: Option<string>)

  /** An edit that sets `module_hours` sets an object, whose keys are
      distinct. */
  ghost predicate WellFormedEdit(e: ResponseEdit)
  {
    e.ModuleHoursAre? ==> DistinctKeys(e.moduleHours)
  }

  function Edited(r: Responses, e: ResponseEdit): Responses
  {
    match e
    case ProjectNameIs(v) => r.(projectName := v)
    case ClientNameIs(v) => r.(clientName := v)
    case LanguageIs(v) => r.(language := v)
    case ProjectManagerIs(v) => r.(projectManager := v)
    case TeamMembersAre(v) => r.(teamMembers := v)
    case StartDateIs(v) => r.(startDate := v)
    case DeadlineIs(v) => r.(deadline := v)
    case ClarityPhaseIs(v) => r.(clarityPhase := v)
    case ClarityHoursAre(v) => r.(clarityHours := v)
    case ImplementationPhaseIs(v) => r.(implementationPhase := v)
    case AdoptionPhaseIs(v) => r.(adoptionPhase := v)
    case TrainingHoursAre(v) => r.(trainingHours := v)
    case GoLiveHoursAre(v) => r.(goLiveHours := v)
    case SupportHoursPerMonthAre(v) => r.(supportHoursPerMonth := v)
    case SupportMonthsAre(v) => r.(supportMonths := v)
    case ModuleHoursAre(v) => r.(moduleHours := v)
    case CustomModulesAre(v) => r.(customModules := v)
    case IntegrationsAre(v) => r.(integrations := v)
    case IntegrationListIs(v) => r.(integrationList := v)
    case MultiWarehouseIs(v) => r.(multiWarehouse := v)
    case WarehouseCountIs(v) => r.(warehouseCount := v)
    case SelectedTemplateIs(v) => r.(selectedTemplate := v)
  }

  // ---------------------------------------------------------------------
  // The custom-module list
  // ---------------------------------------------------------------------

  /** `updateCustomModule(index, field, value)`: the field and its new
      value. */
  datatype CustomEdit = NameIs(name: string) | DescriptionIs(description: string) | HoursAre(hours: int)

  function EditedModule(m: CustomModule, e: CustomEdit): CustomModule
  {
    match e
    case NameIs(v) => m.(name := v)
    case DescriptionIs(v) => m.(description := v)
    case HoursAre(v) => m.(hours := v)
  }

  /** `addCustomModule`: an unnamed module of 20 hours at the end. */
  function WithNewCustom(cms: seq<CustomModule>): (r: seq<CustomModule>)
    ensures |r| == |cms| + 1 && r[..|cms|] == cms && r[|cms|] == CustomModule("", "", 20)
  {
    cms + [CustomModule("", "", 20)]
  }

  /** `removeCustomModule(index)`: the module at `index` is dropped and the
      later ones move up; an index outside the list drops nothing. */
  function WithoutCustom(cms: seq<CustomModule>, index: int): (r: seq<CustomModule>)
    ensures 0 <= index < |cms| ==> |r| == |cms| - 1
    ensures 0 <= index < |cms| ==> forall j | 0 <= j < |r| :: r[j] == if j < index then cms[j] else cms[j + 1]
    ensures !(0 <= index < |cms|) ==> r == cms
  {
    if 0 <= index < |cms| then cms[..index] + cms[index + 1..] else cms
  }

  /** `updateCustomModule(index, field, value)`: only the given field of the
      module at `index` changes. */
  function WithEditedCustom(cms: seq<CustomModule>, index: int, e: CustomEdit): (r: seq<CustomModule>)
    ensures |r| == |cms|
    ensures forall j | 0 <= j < |cms| :: r[j] == if j == index then EditedModule(cms[j], e) else cms[j]
  {
    if 0 <= index < |cms| then cms[index := EditedModule(cms[index], e)] else cms
  }

  // ---------------------------------------------------------------------
  // Templates
  // ---------------------------------------------------------------------

  /** `templates.find(t => t.id === id)`. */
  function FindTemplate(ts: seq<Template>, id: string): (r: Option<Template>)
    ensures r.Some? ==> r.value in ts && r.value.id == id
    ensures r.None? ==> forall k | 0 <= k < |ts| :: ts[k].id != id
  {
    if ts == [] then None
    else if ts[0].id == id then Some(ts[0])
    else FindTemplate(ts[1..], id)
  }

  /** The template `custom`: every phase off, every hour at 0, no modules;
      the project's name, client, dates, team and language stay. */
  function CustomStart(r: Responses): Responses
  {
    r.(selectedTemplate := Some("custom"),
       clarityPhase := false, clarityHours := 0,
       implementationPhase := false, adoptionPhase := false,
       trainingHours := 0, goLiveHours := 0, supportHoursPerMonth := 0, supportMonths := 0,
       moduleHours := [], customModules := [],
       integrations := "No", multiWarehouse := "No", warehouseCount := 2)
  }

  /** The hours each module of a template starts with: its implementation
      hours (120 when not given) spread over its modules (5 when it has none),
      rounded. */
  function TemplateModuleShare(t: Template): int
  {
    RoundQuotient(OrDefault(t.implementation.hours, 120), OrDefault(|t.modules|, 5))
  }

  /** `module_hours` built from a module list, every module at `hours`. */
  function ModuleHoursOf(mods: seq<string>, hours: int): seq<ModuleEntry>
  {
    if mods == [] then [] else Put(ModuleHoursOf(mods[..|mods| - 1], hours), mods[|mods| - 1], hours)
  }

  /** The responses after applying a template other than `custom`. */
  function FromTemplate(r: Responses, t: Template, moduleHours: seq<ModuleEntry>): Responses
  {
    r.(selectedTemplate := Some(t.id),
       clarityPhase := OrTrue(t.clarity.enabled),
       clarityHours := OrDefault(t.clarity.hours, 40),
       implementationPhase := OrTrue(t.implementation.enabled),
       adoptionPhase := OrTrue(t.adoption.enabled),
       trainingHours := OrDefault(t.trainingHours, 24),
       goLiveHours := 8,
       supportHoursPerMonth := OrDefault(t.supportHoursPerMonth, 10),
       supportMonths := OrDefault(t.supportMonths, 2),
       moduleHours := moduleHours,
       customModules := [],
       integrations := if t.integrations then "Yes" else "No",
       multiWarehouse := if t.multiWarehouse then "Yes" else "No",
       warehouseCount := OrDefault(t.warehouseCount, 2))
  }

  /** Every module of the template, and no other, gets the hours, and the
      keys are distinct even when the template names a module twice. */
  lemma {:induction false} ModuleHoursOfFacts(mods: seq<string>, hours: int, m: string)
    ensures Lookup(ModuleHoursOf(mods, hours), m) == if m in mods then Some(hours) else None
    ensures DistinctKeys(ModuleHoursOf(mods, hours))
    decreases |mods|
  {
    if mods != [] {
      var front := mods[..|mods| - 1];
      ModuleHoursOfFacts(front, hours, m);
      PutLookup(ModuleHoursOf(front, hours), mods[|mods| - 1], hours, m);
      PutDistinct(ModuleHoursOf(front, hours), mods[|mods| - 1], hours);
      assert mods == front + [mods[|mods| - 1]];
    }
  }

  /** A template's module share is its implementation hours divided among
      its modules to the nearest hour: `n` modules at the share are within
      half a module of those hours. */
  lemma TemplateShareBounds(t: Template)
    requires t.modules != []
    ensures var h := OrDefault(t.implementation.hours, 120); var n := |t.modules|;
            2 * n * TemplateModuleShare(t) <= 2 * h + n < 2 * n * TemplateModuleShare(t) + 2 * n
  {
    RoundQuotientBounds(OrDefault(t.implementation.hours, 120), |t.modules|);
  }

  // ---------------------------------------------------------------------
  // Totals and checks
  // ---------------------------------------------------------------------

  /** `implementationHours`: standard and custom module hours, whether or
      not the phase is on. */
  function ImplementationHoursOf(r: Responses): int
  {
    ModuleHoursTotal(r.moduleHours) + CustomHoursTotal(r.customModules)
  }

  /** `adoptionHours`: 0 with the phase off. */
  function AdoptionHoursOf(r: Responses): int
  {
    if !r.adoptionPhase then 0
    else r.trainingHours + r.goLiveHours + r.supportHoursPerMonth * r.supportMonths
  }

  /** `totalHours`: each phase's hours when that phase is on. */
  function TotalHoursOf(r: Responses): int
  {
    (if r.clarityPhase then r.clarityHours else 0)
    + (if r.implementationPhase then ImplementationHoursOf(r) else 0)
    + (if r.adoptionPhase then AdoptionHoursOf(r) else 0)
  }

  /** `canGenerate`. */
  predicate CanGenerateOf(r: Responses)
  {
    r.projectName != "" && r.clientName != "" && r.deadline.Some?
    && (r.clarityPhase || r.implementationPhase || r.adoptionPhase)
  }

  /** The questionnaire's total is the plan's allocated hours, except that
      the plan also counts the module hours when the Implementation phase
      is off. */
  lemma TotalMatchesAllocated(r: Responses)
    ensures TotalHoursOf(r) + (if r.implementationPhase then 0 else PlanGenerator.ImplementationBudget(r))
            == PlanGenerator.AllocatedHours(r)
  {
  }

  /** A new questionnaire totals 92 hours (40 of Clarity, 52 of Adoption)
      and cannot generate a plan until name, client and deadline are given. */
  lemma InitialTotals(today: int)
    ensures TotalHoursOf(InitialResponses(today)) == 92
    ensures !CanGenerateOf(InitialResponses(today))
  {
    var r := InitialResponses(today);
    assert ImplementationHoursOf(r) == 0;
  }

  /** The template `custom` leaves nothing to count and nothing to
      generate. */
  lemma CustomStartTotals(r: Responses)
    ensures TotalHoursOf(CustomStart(r)) == 0 && ImplementationHoursOf(CustomStart(r)) == 0
    ensures AdoptionHoursOf(CustomStart(r)) == 0
    ensures !CanGenerateOf(CustomStart(r))
  {
  }

  /** With every phase off, no plan can be generated, whatever else is
      answered, and the total is 0 hours. */
  lemma CanGenerateNeedsAPhase(r: Responses)
    requires !r.clarityPhase && !r.implementationPhase && !r.adoptionPhase
    ensures !CanGenerateOf(r) && TotalHoursOf(r) == 0
  {
  }

  // ---------------------------------------------------------------------
  // Sections and navigation
  // ---------------------------------------------------------------------

  /** A section is shown unless it is tied to a phase that is off. */
  predicate SectionVisible(r: Responses, s: Section)
  {
    if s.conditional == ImplementationOn then r.implementationPhase
    else if s.conditional == ClarityOn then r.clarityPhase
    else if s.conditional == AdoptionOn then r.adoptionPhase
    else true
  }

  /** `visibleSections`, in order. */
  function VisibleSectionsOf(r: Responses, ss: seq<Section>): (vs: seq<Section>)
    ensures |vs| <= |ss|
  {
    if ss == [] then []
    else VisibleSectionsOf(r, ss[..|ss| - 1]) + (if SectionVisible(r, ss[|ss| - 1]) then [ss[|ss| - 1]] else [])
  }

  /** A section is visible exactly when it is one of the sections and its
      condition holds. */
  lemma {:induction false} VisibleSectionsMembers(r: Responses, ss: seq<Section>, s: Section)
    ensures s in VisibleSectionsOf(r, ss) <==> s in ss && SectionVisible(r, s)
    decreases |ss|
  {
    if ss != [] {
      VisibleSectionsMembers(r, ss[..|ss| - 1], s);
      assert ss == ss[..|ss| - 1] + [ss[|ss| - 1]];
    }
  }

  lemma {:induction false} AllPhasesOnShowsAll(r: Responses, ss: seq<Section>)
    requires r.clarityPhase && r.implementationPhase && r.adoptionPhase
    ensures VisibleSectionsOf(r, ss) == ss
    decreases |ss|
  {
    if ss != [] {
      AllPhasesOnShowsAll(r, ss[..|ss| - 1]);
      assert ss == ss[..|ss| - 1] + [ss[|ss| - 1]];
    }
  }

  /** `goToNextSection` on `count` visible sections. */
  function NextSection(current: int, count: int): (r: int)
    ensures current < count - 1 ==> r == current + 1
    ensures current >= count - 1 ==> r == current
  {
    if current < count - 1 then current + 1 else current
  }

  /** `goToPreviousSection`. */
  function PreviousSection(current: int): (r: int)
    ensures current > 0 ==> r == current - 1
    ensures current <= 0 ==> r == current
  {
    if current > 0 then current - 1 else current
  }

  /** `goToSection(index)`. */
  function SectionAt(current: int, index: int, count: int): (r: int)
    ensures 0 <= index < count ==> r == index
    ensures !(0 <= index < count) ==> r == current
  {
    if 0 <= index < count then index else current
  }

  /** No move leaves the visible sections: from a section among them every
      move lands among them, and no move goes below 0. */
  lemma NavigationStaysInRange(current: int, index: int, count: int)
    ensures 0 <= current < count ==>
              0 <= NextSection(current, count) < count && 0 <= PreviousSection(current) < count
              && 0 <= SectionAt(current, index, count) < count
    ensures 0 <= current ==>
              0 <= NextSection(current, count) && 0 <= PreviousSection(current) && 0 <= SectionAt(current, index, count)
  {
  }

  /** Going forward and back returns to the section when there was a next
      one. */
  lemma NextThenPrevious(current: int, count: int)
    requires 0 <= current < count - 1
    ensures PreviousSection(NextSection(current, count)) == current
  {
  }

  // ---------------------------------------------------------------------
  // The hook's state
  // ---------------------------------------------------------------------

  class Questionnaire {
    const sections: seq<Section>
    const templates: seq<Template>
    var currentSection: int
    var responses: Responses
    var selectedTemplate: Option<string>

    /** `module_hours` is an object, so its keys are distinct, and the
        section index never goes below 0. */
    ghost predicate Valid()
      reads this
    {
      DistinctKeys(responses.moduleHours) && 0 <= currentSection
    }

    constructor(sections: seq<Section>, templates: seq<Template>, today: int)
      ensures this.sections == sections && this.templates == templates
      ensures currentSection == 0 && responses == InitialResponses(today) && selectedTemplate == None
      ensures Valid()
    {
      this.sections := sections;
      this.templates := templates;
      currentSection := 0;
      responses := InitialResponses(today);
      selectedTemplate := None;
    }

    method UpdateResponse(e: ResponseEdit)
      requires Valid() && WellFormedEdit(e)
      modifies this
      ensures responses == Edited(old(responses), e)
      ensures currentSection == old(currentSection) && selectedTemplate == old(selectedTemplate)
      ensures Valid()
    {
      responses := Edited(responses, e);
    }

    method ToggleModule(name: string)
      requires Valid()
      modifies this
      ensures responses == old(responses).(moduleHours := Toggle(old(responses).moduleHours, name))
      ensures currentSection == old(currentSection) && selectedTemplate == old(selectedTemplate)
      ensures Valid()
    {
      ToggleFacts(responses.moduleHours, name, name);
      responses := responses.(moduleHours := Toggle(responses.moduleHours, name));
    }

    method UpdateModuleHours(name: string, hours: int)
      requires Valid()
      modifies this
      ensures responses == old(responses).(moduleHours := Put(old(responses).moduleHours, name, hours))
      ensures currentSection == old(currentSection) && selectedTemplate == old(selectedTemplate)
      ensures Valid()
    {
      PutDistinct(responses.moduleHours, name, hours);
      responses := responses.(moduleHours := Put(responses.moduleHours, name, hours));
    }

    method AddCustomModule()
      requires Valid()
      modifies this
      ensures responses == old(responses).(customModules := WithNewCustom(old(responses).customModules))
      ensures currentSection == old(currentSection) && selectedTemplate == old(selectedTemplate)
      ensures Valid()
    {
      responses := responses.(customModules := WithNewCustom(responses.customModules));
    }

    method RemoveCustomModule(index: int)
      requires Valid()
      modifies this
      ensures responses == old(responses).(customModules := WithoutCustom(old(responses).customModules, index))
      ensures currentSection == old(currentSection) && selectedTemplate == old(selectedTemplate)
      ensures Valid()
    {
      responses := responses.(customModules := WithoutCustom(responses.customModules, index));
    }

    method UpdateCustomModule(index: int, e: CustomEdit)
      requires Valid()
      modifies this
      ensures responses == old(responses).(customModules := WithEditedCustom(old(responses).customModules, index, e))
      ensures currentSection == old(currentSection) && selectedTemplate == old(selectedTemplate)
      ensures Valid()
    {
      responses := responses.(customModules := WithEditedCustom(responses.customModules, index, e));
    }

    /** `applyTemplate(id)`. `custom` wins over a template of that id; an
        unknown id clears the selected template and leaves the responses,
        their `selected_template` included, as they were. */
    method ApplyTemplate(id: string)
      requires Valid()
      modifies this
      ensures id == "custom" ==> selectedTemplate == Some("custom") && responses == CustomStart(old(responses))
      ensures id != "custom" && FindTemplate(templates, id).None? ==>
                selectedTemplate == None && responses == old(responses)
      ensures id != "custom" && FindTemplate(templates, id).Some? ==>
                var t := FindTemplate(templates, id).value;
                selectedTemplate == Some(id)
                && responses == FromTemplate(old(responses), t, ModuleHoursOf(t.modules, TemplateModuleShare(t)))
      ensures currentSection == old(currentSection)
      ensures Valid()
    {
      var found := FindTemplate(templates, id);
      if id == "custom" {
        selectedTemplate := Some("custom");
        responses := CustomStart(responses);
        return;
      }
      if found.None? {
        selectedTemplate := None;
        return;
      }
      var t := found.value;
      selectedTemplate := Some(id);
      var share := TemplateModuleShare(t);
      var moduleHours: seq<ModuleEntry> := [];
      var i := 0;
      while i < |t.modules|
        invariant 0 <= i <= |t.modules|
        invariant moduleHours == ModuleHoursOf(t.modules[..i], share)
      {
        assert t.modules[..i + 1][..i] == t.modules[..i];
        moduleHours := Put(moduleHours, t.modules[i], share);
        i := i + 1;
      }
      assert t.modules[..i] == t.modules;
      ModuleHoursOfFacts(t.modules, share, "");
      responses := FromTemplate(responses, t, moduleHours);
    }

    method GoToNextSection()
      requires Valid()
      modifies this
      ensures currentSection == NextSection(old(currentSection), |VisibleSections()|)
      ensures responses == old(responses) && selectedTemplate == old(selectedTemplate)
      ensures Valid()
    {
      if currentSection < |VisibleSections()| - 1 {
        currentSection := currentSection + 1;
      }
    }

    method GoToPreviousSection()
      requires Valid()
      modifies this
      ensures currentSection == PreviousSection(old(currentSection))
      ensures responses == old(responses) && selectedTemplate == old(selectedTemplate)
      ensures Valid()
    {
      if currentSection > 0 {
        currentSection := currentSection - 1;
      }
    }

    method GoToSection(index: int)
      requires Valid()
      modifies this
      ensures currentSection == SectionAt(old(currentSection), index, |VisibleSections()|)
      ensures responses == old(responses) && selectedTemplate == old(selectedTemplate)
      ensures Valid()
    {
      if 0 <= index < |VisibleSections()| {
        currentSection := index;
      }
    }

    /** `reset`, on the day `today`. */
    method Reset(today: int)
      modifies this
      ensures currentSection == 0 && responses == InitialResponses(today) && selectedTemplate == None
      ensures Valid()
    {
      responses := InitialResponses(today);
      currentSection := 0;
      selectedTemplate := None;
    }

    function VisibleSections(): (vs: seq<Section>)
      reads this
      ensures forall s :: s in vs <==> s in sections && SectionVisible(responses, s)
    {
      VisibleSectionsAll(responses, sections);
      VisibleSectionsOf(responses, sections)
    }

    /** `currentSectionData`; none when the index is past the visible
        sections. */
    function CurrentSectionData(): (s: Option<Section>)
      reads this
      ensures s.Some? ==> s.value in sections && SectionVisible(responses, s.value)
      ensures s.None? <==> !(0 <= currentSection < |VisibleSections()|)
    {
      var vs := VisibleSections();
      if 0 <= currentSection < |vs| then Some(vs[currentSection]) else None
    }

    /** `selectedModules`: with distinct keys, exactly the modules with
        positive hours. */
    function SelectedModules(): (ms: seq<string>)
      requires Valid()
      reads this
      ensures forall m :: m in ms <==> Lookup(responses.moduleHours, m).Some? && Lookup(responses.moduleHours, m).value > 0
    {
      SelectedAll(responses.moduleHours);
      Selected(responses.moduleHours)
    }

    /** The wizard's implementation hours are the generator's
        implementation budget. */
    function ImplementationHours(): (h: int)
      reads this
      ensures h == PlanGenerator.ImplementationBudget(responses)
    {
      ImplementationHoursOf(responses)
    }

    function AdoptionHours(): (h: int)
      reads this
      ensures !responses.adoptionPhase ==> h == 0
      ensures h == PlanGenerator.AdoptionBudget(responses)
    {
      AdoptionHoursOf(responses)
    }

    function TotalHours(): (h: int)
      reads this
      ensures h + (if responses.implementationPhase then 0 else PlanGenerator.ImplementationBudget(responses))
              == PlanGenerator.AllocatedHours(responses)
    {
      TotalMatchesAllocated(responses);
      TotalHoursOf(responses)
    }

    predicate CanGenerate()
      reads this
    {
      CanGenerateOf(responses)
    }

    predicate IsQuestionVisible(conditional: string)
      reads this
    {
      Visible(responses, conditional)
    }
  }

  lemma VisibleSectionsAll(r: Responses, ss: seq<Section>)
    ensures forall s :: s in VisibleSectionsOf(r, ss) <==> s in ss && SectionVisible(r, s)
  {
    forall s
      ensures s in VisibleSectionsOf(r, ss) <==> s in ss && SectionVisible(r, s)
    {
      VisibleSectionsMembers(r, ss, s);
    }
  }

  lemma SelectedAll(es: seq<ModuleEntry>)
    requires DistinctKeys(es)
    ensures forall m :: m in Selected(es) <==> Lookup(es, m).Some? && Lookup(es, m).value > 0
  {
    forall m
      ensures m in Selected(es) <==> Lookup(es, m).Some? && Lookup(es, m).value > 0
    {
      SelectedMembers(es, m);
    }
  }
}
