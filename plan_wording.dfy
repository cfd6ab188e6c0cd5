/** The fixed wording of a generated plan, in one language: every title,
    description and milestone name the plan generator writes, and the
    module-activity table. The source picks each text with `isSpanish ? … : …`;
    here the texts of one language are gathered in a `Wording` value and the
    generator reads them from it. */
module PlanWording {
  import opened ModuleActivities

  /** A title and a description. */
  datatype TaskText = TaskText(title: string, description: string)

  /** A template literal with one hole: `before + value + after`. */
  datatype Frame = Frame(before: string, after: string)

  function Fill(f: Frame, value: string): string
  {
    f.before + value + f.after
  }

  /** A template literal with two holes. */
  datatype Frame2 = Frame2(before: string, middle: string, after: string)

  function Fill2(f: Frame2, a: string, b: string): string
  {
    f.before + a + f.middle + b + f.after
  }

  /** A title and a description, each with the same one hole. */
  datatype FramedText = FramedText(title: Frame, description: Frame)

  /** A deliverable with three subtasks and its milestone. */
  datatype Package3 = Package3(main: TaskText, milestone: string, first: TaskText, second: TaskText, third: TaskText)

  datatype Wording = Wording(
    // Clarity
    mapping: Package3,
    design: Package3,
    master: Package3,
    // Implementation
    goLiveMilestone: string,
    setup: TaskText,
    setupInstance: TaskText,
    setupCompany: TaskText,
    setupUsers: TaskText,
    setupAccess: TaskText,
    moduleTitle: Frame,
    moduleDescription: Frame,
    moduleConfig: Frame,
    moduleMigration: Frame,
    moduleTesting: Frame,
    catalog: seq<KeyedActivities>,
    defaultActivities: Activities,
    customDescription: Frame,
    customDevelopment: FramedText,
    customTesting: FramedText,
    customDocumentation: FramedText,
    integrationTitle: string,
    integrationDescription: Frame,
    integrationAnalysis: TaskText,
    integrationConnectors: TaskText,
    integrationTesting: TaskText,
    warehouseTitle: string,
    warehouseDescription: Frame,
    // Adoption
    training: TaskText,
    trainingAdmins: TaskText,
    trainingUsers: TaskText,
    trainingMaterials: TaskText,
    goLive: TaskText,
    goLivePreparation: TaskText,
    goLiveSupport: TaskText,
    supportTitle: string,
    supportDescription: Frame2,
    month: FramedText)

  const SpanishWording: Wording := Wording(
    Package3(
      TaskText("Mapeo de Procesos Actuales", "Sesiones de discovery y documentación de procesos AS-IS por área"),
      "Mapeo de Procesos",
      TaskText("Sesiones de discovery", "Reuniones con stakeholders para entender procesos y requerimientos actuales"),
      TaskText("Documentar proceso AS-IS por departamento", "Crear diagramas de flujo y documentación de procesos actuales por área"),
      TaskText("Identificar áreas de oportunidad", "Detectar ineficiencias, cuellos de botella y oportunidades de mejora")),
    Package3(
      TaskText("Diseño de Proceso TO-BE", "Diseño de procesos futuros, mapeo a módulos de Odoo e identificación de personalizaciones"),
      "Hallazgos y TO-BE",
      TaskText("Mapear requisitos a módulos de Odoo", "Relacionar necesidades del negocio con funcionalidades estándar de Odoo"),
      TaskText("Identificar necesidades de personalización", "Documentar gaps entre funcionalidad estándar y requerimientos específicos"),
      TaskText("Definir workflows y reglas de negocio", "Diseñar flujos de trabajo y reglas de automatización para cada proceso")),
    Package3(
      TaskText("Master de Implementación", "Definición de módulos, propiedades, reglas de negocio y maquetado de Odoo"),
      "Master de Implementación",
      TaskText("Definir módulos a implementar", "Listado final de módulos con alcance y dependencias"),
      TaskText("Bajar propiedades y reglas de negocio", "Especificación detallada de campos, valores por defecto y validaciones"),
      TaskText("Diseñar maquetado de Odoo", "Estructura de menús, vistas y dashboards personalizados")),
    "Capacitación y Go-Live",
    TaskText("Configuración General de Odoo", "Configuración inicial de la instancia, empresas, usuarios y roles"),
    TaskText("Configuración de instancia Odoo", "Configuración base de la instancia: idioma, zona horaria, moneda y ajustes generales"),
      TaskText("Configuración de empresa(s)", "Datos de empresa, logo, información fiscal y configuración multi-compañía si aplica"),
      TaskText("Configuración de usuarios y roles", "Crear usuarios, asignar grupos de acceso y configurar perfiles por departamento"),
      TaskText("Configuración de accesos y seguridad", "Reglas de registro, permisos por grupo y restricciones de seguridad"),
    Frame("Implementación del Módulo de ", ""),
    Frame("Configuración, migración y pruebas del módulo de ", ""),
    Frame("Configuración y Setup de ", ""),
    Frame("Migración de Datos de ", ""),
    Frame("Testing y Validación de ", ""),
    SpanishCatalog,
    SpanishDefaultActivities,
    Frame("Desarrollo del módulo personalizado: ", ""),
    FramedText(Frame("Diseño y Desarrollo de ", ""), Frame("Diseño técnico y desarrollo del módulo ", "")),
    FramedText(Frame("Testing y QA de ", ""), Frame("Pruebas unitarias y de integración para ", "")),
    FramedText(Frame("Documentación de ", ""), Frame("Documentación técnica y de usuario para ", "")),
    "Integraciones con Sistemas Externos",
    Frame("Desarrollo e integración con: ", ""),
    TaskText("Análisis de requerimientos de integración", "Documentar endpoints, formatos de datos y flujos de integración requeridos"),
      TaskText("Desarrollo de conectores", "Desarrollo de conectores API y transformación de datos entre sistemas"),
      TaskText("Pruebas de integración", "Validar sincronización de datos, manejo de errores y casos límite"),
    "Configuración Multi-Almacén",
    Frame("Configuración de ", " almacenes con ubicaciones, rutas y reglas"),
    TaskText("Capacitación", "Capacitación de administradores y usuarios finales del sistema"),
    TaskText("Capacitación de administradores (power users)", "Entrenamiento avanzado para usuarios clave que darán soporte interno"),
      TaskText("Capacitación de usuarios finales", "Sesiones de capacitación por departamento para usuarios del día a día"),
      TaskText("Materiales de capacitación", "Guías rápidas, videos tutoriales y documentación de usuario"),
    TaskText("Go-Live", "Preparación y ejecución de go-live con soporte intensivo"),
    TaskText("Preparación y checklist de go-live", "Verificar configuración, datos, usuarios y permisos antes de producción"),
    TaskText("Soporte de go-live", "Soporte intensivo durante los primeros días de producción"),
    "Soporte Post Go-Live",
    Frame2("", " meses de soporte con ", " horas por mes"),
    FramedText(Frame("Mes ", ": Soporte y optimización"),
               Frame("Soporte técnico, resolución de incidencias y mejoras menores durante el mes ", "")))

  const EnglishWording: Wording := Wording(
    Package3(
      TaskText("Current Process Mapping", "Discovery sessions and AS-IS process documentation by area"),
      "Process Mapping",
      TaskText("Discovery sessions", "Meetings with stakeholders to understand current processes and requirements"),
      TaskText("Document AS-IS process by department", "Create flowcharts and documentation of current processes by area"),
      TaskText("Identify opportunity areas", "Detect inefficiencies, bottlenecks and improvement opportunities")),
    Package3(
      TaskText("TO-BE Process Design", "Future process design, Odoo module mapping and customization identification"),
      "Findings and TO-BE",
      TaskText("Map requirements to Odoo modules", "Relate business needs to standard Odoo functionalities"),
      TaskText("Identify customization needs", "Document gaps between standard functionality and specific requirements"),
      TaskText("Define workflows and business rules", "Design workflows and automation rules for each process")),
    Package3(
      TaskText("Master of Implementation", "Module definition, properties, business rules and Odoo layout design"),
      "Master of Implementation",
      TaskText("Define modules to implement", "Final module list with scope and dependencies"),
      TaskText("Document properties and business rules", "Detailed specification of fields, default values and validations"),
      TaskText("Design Odoo layout", "Menu structure, views and custom dashboards")),
    "Training and Go-Live",
    TaskText("General Odoo Configuration", "Initial instance configuration, companies, users and roles setup"),
    TaskText("Odoo instance configuration", "Base instance setup: language, timezone, currency and general settings"),
      TaskText("Company(ies) setup", "Company data, logo, tax info and multi-company setup if applicable"),
      TaskText("Users and roles setup", "Create users, assign access groups and configure profiles by department"),
      TaskText("Access and security configuration", "Record rules, group permissions and security restrictions"),
    Frame("", " Module Implementation"),
    Frame("Configuration, migration and testing of ", " module"),
    Frame("", " Configuration & Setup"),
    Frame("", " Data Migration"),
    Frame("", " Testing & Validation"),
    EnglishCatalog,
    EnglishDefaultActivities,
    Frame("Development of custom module: ", ""),
    FramedText(Frame("", " Design & Development"), Frame("Technical design and development of ", " module")),
    FramedText(Frame("", " Testing & QA"), Frame("Unit and integration testing for ", "")),
    FramedText(Frame("", " Documentation"), Frame("Technical and user documentation for ", "")),
    "External System Integrations",
    Frame("Development and integration with: ", ""),
    TaskText("Integration requirements analysis", "Document endpoints, data formats and required integration flows"),
      TaskText("Connector development", "API connector development and data transformation between systems"),
      TaskText("Integration testing", "Validate data sync, error handling and edge cases"),
    "Multi-Warehouse Configuration",
    Frame("Configuration of ", " warehouses with locations, routes, and rules"),
    TaskText("Training", "Admin and end-user training sessions"),
    TaskText("Admin training (power users)", "Advanced training for key users who will provide internal support"),
      TaskText("End-user training", "Training sessions by department for day-to-day users"),
      TaskText("Training materials", "Quick guides, tutorial videos and user documentation"),
    TaskText("Go-Live", "Go-live preparation and execution with intensive support"),
    TaskText("Go-live preparation & checklist", "Verify configuration, data, users and permissions before production"),
    TaskText("Go-live support", "Intensive support during first days in production"),
    "Post Go-Live Support",
    Frame2("", " months of support with ", " hours per month"),
    FramedText(Frame("Month ", ": Support and optimization"),
               Frame("Technical support, incident resolution and minor improvements during month ", "")))

  /** The wording of the plan's language: Spanish when `language` is
      'Spanish', English otherwise. */
  function WordingFor(spanish: bool): Wording
  {
    if spanish then SpanishWording else EnglishWording
  }
}
