/** The inputs of the task consolidator: the raw task library entries it
    groups, the responses it reads, the deliverable groups configuration and
    the fixed wording it writes in each language. The configuration file's
    contents are a parameter; only its shape is modelled. */
module ConsolidatorConfig {
  import opened Common
  import opened PlanModel
  import opened PlanWording

  /** A text in English and in Spanish. */
  datatype Localized = Localized(en: string, es: string)

  function Pick(spanish: bool, l: Localized): string
  {
    if spanish then l.es else l.en
  }

  /** A granular task of the task library. `title`, `category` and `module`
      are absent when the entry does not carry them; `nameEs` and
      `descriptionEs` are '' when missing; `priority` is absent when missing
      or ''. */
  datatype RawTask = RawTask(
    title: Option<string>,
    nameEs: string,
    description: string,
    descriptionEs: string,
    category: Option<string>,
    moduleName: Option<string>,
    phase: Phase,
    estimatedHours: nat,
    priority: Option<Priority>)

  /** A Clarity or Adoption group: its fixed texts, the patterns a task's
      title or category is matched against, and its share of the phase. */
  datatype PhaseGroup = PhaseGroup(
    name: Localized,
    description: Localized,
    milestone: Localized,
    priority: Priority,
    patterns: seq<string>,
    percent: int)

  /** A per-module group: templates with a `{module}` placeholder. */
  datatype ModuleGroup = ModuleGroup(
    nameTemplate: Localized,
    descriptionTemplate: Localized,
    priority: Priority,
    patterns: seq<string>,
    percent: int)

  /** A fixed deliverable of the Implementation phase; `hours` is the
      security deliverable's default hours, the warehouse hours per
      warehouse, or the integration base hours. */
  datatype SpecialItem = SpecialItem(name: Localized, description: Localized, priority: Priority, hours: int)

  /** The custom-module deliverable: a name template with a `{name}`
      placeholder. */
  datatype CustomTemplate = CustomTemplate(nameTemplate: Localized, priority: Priority)

  datatype SpecialDeliverables = SpecialDeliverables(
    security: SpecialItem,
    warehouse: SpecialItem,
    integration: SpecialItem,
    customModule: CustomTemplate)

  /** The deliverable groups configuration. */
  datatype DeliverableGroups = DeliverableGroups(
    clarity: seq<PhaseGroup>,
    moduleGroups: seq<ModuleGroup>,
    special: SpecialDeliverables,
    adoption: seq<PhaseGroup>)

  /** One `custom_module_<i>_…` slot of the responses; a missing name is ''
      and missing hours are 0. */
  datatype CustomSlot = CustomSlot(name: string, hours: int, description: string)

  /** The responses the consolidator reads. A number that is missing or does
      not parse is 0, `implementationHours` included; `customSlots` holds
      `custom_modules_count` slots. */
  datatype ConsolidatorResponses = ConsolidatorResponses(
    clarityPhase: bool,
    implementationPhase: bool,
    adoptionPhase: bool,
    clarityHours: int,
    modules: seq<string>,
    implementationHours: int,
    customSlots: seq<CustomSlot>,
    multiWarehouse: string,
    warehouseCount: int,
    integrations: string,
    integrationList: string,
    trainingHours: int,
    supportHoursPerMonth: int,
    adoptionMonths: int,
    teamMembers: seq<string>)

  /** The texts the consolidator writes itself, in one language. */
  datatype ConsolidatorWording = ConsolidatorWording(
    moduleMilestone: Frame,
    securityMilestone: string,
    warehouseMilestone: string,
    warehouseSubtask: FramedText,
    integrationMilestone: string,
    customDescription: Frame,
    customMilestone: Frame,
    customDevelopment: FramedText,
    customTesting: FramedText,
    customDocumentation: FramedText)

  const SpanishConsolidatorWording: ConsolidatorWording := ConsolidatorWording(
    Frame("Implementación del Módulo de ", ""),
    "Configuración de Seguridad",
    "Configuración Multi-Almacén",
    FramedText(Frame("Almacén ", " - Configuración"),
               Frame("Configuración de ubicaciones, rutas y reglas para almacén ", "")),
    "Integraciones",
    Frame("Desarrollo e implementación del módulo personalizado: ", ""),
    Frame("Módulo Personalizado: ", ""),
    FramedText(Frame("", " - Diseño y Desarrollo"), Frame("Diseño técnico y desarrollo del módulo ", "")),
    FramedText(Frame("", " - Testing y QA"), Frame("Pruebas unitarias y de integración para ", "")),
    FramedText(Frame("", " - Documentación"), Frame("Documentación técnica y de usuario para ", "")))

  const EnglishConsolidatorWording: ConsolidatorWording := ConsolidatorWording(
    Frame("Implementation of ", " Module"),
    "Security Configuration",
    "Multi-Warehouse Setup",
    FramedText(Frame("Warehouse ", " Configuration"),
               Frame("Setup locations, routes, and rules for warehouse ", "")),
    "Integrations",
    Frame("Development and implementation of custom module: ", ""),
    Frame("Custom Module: ", ""),
    FramedText(Frame("", " - Design & Development"), Frame("Technical design and development of ", " module")),
    FramedText(Frame("", " - Testing & QA"), Frame("Unit and integration testing for ", "")),
    FramedText(Frame("", " - Documentation"), Frame("Technical and user documentation for ", "")))

  function ConsolidatorWordingFor(spanish: bool): ConsolidatorWording
  {
    if spanish then SpanishConsolidatorWording else EnglishConsolidatorWording
  }
}
