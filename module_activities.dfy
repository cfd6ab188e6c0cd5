/** MODULE_ACTIVITIES and `getModuleActivities` of the plan generator: the
    configuration, migration and testing activities listed in a standard
    module's subtask descriptions, looked up by a case-insensitive key. The
    table is split by language; the generator reads the one of the plan's
    language. */
module ModuleActivities {
  import opened Common
  import opened Text

  datatype Activities = Activities(config: seq<string>, migration: seq<string>, testing: seq<string>)

  datatype KeyedActivities = KeyedActivities(key: string, activities: Activities)

  /** `find(key => key.toLowerCase() === moduleName.toLowerCase())`: the
      first entry whose key equals the name once both are lower-cased. */
  function FindEntry(catalog: seq<KeyedActivities>, name: string): (r: Option<nat>)
    ensures r.Some? ==> r.value < |catalog| && Lower(catalog[r.value].key) == Lower(name)
    ensures r.Some? ==> forall i | 0 <= i < r.value :: Lower(catalog[i].key) != Lower(name)
    ensures r.None? ==> forall i | 0 <= i < |catalog| :: Lower(catalog[i].key) != Lower(name)
  {
    if catalog == [] then None
    else if Lower(catalog[0].key) == Lower(name) then Some(0)
    else
      var rest := FindEntry(catalog[1..], name);
      if rest.None? then None else Some(rest.value + 1)
  }

  /** The activities of the entry the name finds, else the defaults. */
  function GetModuleActivities(catalog: seq<KeyedActivities>, defaults: Activities, name: string): Activities
  {
    var found := FindEntry(catalog, name);
    if found.None? then defaults else catalog[found.value].activities
  }

  /** A name that matches entry `i` up to case, and no earlier entry, gets
      that entry's activities. */
  lemma KnownModuleActivities(catalog: seq<KeyedActivities>, defaults: Activities, name: string, i: nat)
    requires i < |catalog| && Lower(catalog[i].key) == Lower(name)
    requires forall j | 0 <= j < i :: Lower(catalog[j].key) != Lower(name)
    ensures GetModuleActivities(catalog, defaults, name) == catalog[i].activities
  {
    var found := FindEntry(catalog, name);
    assert found.Some?;
  }

  /** A name matching no key gets the defaults. */
  lemma UnknownModuleActivities(catalog: seq<KeyedActivities>, defaults: Activities, name: string)
    requires forall i | 0 <= i < |catalog| :: Lower(catalog[i].key) != Lower(name)
    ensures GetModuleActivities(catalog, defaults, name) == defaults
  {
    var found := FindEntry(catalog, name);
    if found.Some? {
      assert false;
    }
  }

  /** Names differing only in the case of ASCII letters find the same entry. */
  lemma {:induction false} FindEntryIgnoresCase(catalog: seq<KeyedActivities>, a: string, b: string)
    requires Lower(a) == Lower(b)
    ensures FindEntry(catalog, a) == FindEntry(catalog, b)
  {
    if catalog != [] {
      FindEntryIgnoresCase(catalog[1..], a, b);
    }
  }

  const EnglishCatalog: seq<KeyedActivities> := [
    KeyedActivities("CRM", Activities(
        ["Pipeline stages and sales team structure", "Lead scoring rules and automation", "Email integration and templates", "Custom fields and views"],
        ["Import contacts and companies", "Import leads and opportunities", "Historical activities and notes"],
        ["Sales workflow validation", "Lead conversion testing", "Report accuracy verification"])),
    KeyedActivities("Sales", Activities(
        ["Quotation templates and pricing rules", "Product catalog structure", "Approval workflows", "Discount policies"],
        ["Import product catalog", "Import historical orders", "Customer payment terms"],
        ["Order-to-invoice flow", "Pricing rules validation", "Discount and approval testing"])),
    KeyedActivities("Inventory", Activities(
        ["Warehouse locations and zones", "Routes and reordering rules", "Lot/serial number tracking", "Barcode configuration"],
        ["Import product inventory", "Opening stock balances", "Supplier lead times"],
        ["Stock movement validation", "Reordering rule testing", "Inventory adjustment flows"])),
    KeyedActivities("Purchase", Activities(
        ["Vendor management setup", "RFQ and PO workflows", "Approval matrix", "Purchase agreements"],
        ["Import vendor master data", "Purchase history", "Open purchase orders"],
        ["Requisition to PO flow", "Three-way matching", "Vendor performance tracking"])),
    KeyedActivities("Accounting", Activities(
        ["Chart of accounts setup", "Tax configuration and rules", "Payment terms and methods", "Bank reconciliation setup"],
        ["Opening balances", "Customer/vendor balances", "Fixed asset register"],
        ["Invoice to payment flow", "Tax calculation validation", "Financial report accuracy"])),
    KeyedActivities("Manufacturing", Activities(
        ["Bill of Materials structure", "Work centers and routings", "Manufacturing orders workflow", "Quality control points"],
        ["Import BOMs", "Work center capacity", "WIP inventory"],
        ["MO creation and completion", "Material consumption tracking", "Production scheduling"])),
    KeyedActivities("Project", Activities(
        ["Project stages and templates", "Task types and workflows", "Time tracking setup", "Billing rules"],
        ["Import active projects", "Historical timesheets", "Project templates"],
        ["Project lifecycle flow", "Timesheet to billing", "Resource allocation"])),
    KeyedActivities("HR", Activities(
        ["Employee records structure", "Department hierarchy", "Leave types and policies", "Expense categories"],
        ["Import employee data", "Leave balances", "Expense history"],
        ["Leave request workflow", "Expense approval flow", "Payroll integration"]))
  ]

  const SpanishCatalog: seq<KeyedActivities> := [
    KeyedActivities("CRM", Activities(
        ["Etapas de pipeline y estructura de equipo de ventas", "Reglas de scoring de leads y automatización", "Integración de email y plantillas", "Campos personalizados y vistas"],
        ["Importar contactos y empresas", "Importar leads y oportunidades", "Actividades históricas y notas"],
        ["Validación del flujo de ventas", "Pruebas de conversión de leads", "Verificación de precisión de reportes"])),
    KeyedActivities("Sales", Activities(
        ["Plantillas de cotización y reglas de precios", "Estructura del catálogo de productos", "Flujos de aprobación", "Políticas de descuento"],
        ["Importar catálogo de productos", "Importar órdenes históricas", "Términos de pago de clientes"],
        ["Flujo de orden a factura", "Validación de reglas de precios", "Pruebas de descuentos y aprobaciones"])),
    KeyedActivities("Inventory", Activities(
        ["Ubicaciones y zonas de almacén", "Rutas y reglas de reabastecimiento", "Seguimiento de lotes/números de serie", "Configuración de código de barras"],
        ["Importar inventario de productos", "Saldos de stock inicial", "Tiempos de entrega de proveedores"],
        ["Validación de movimientos de stock", "Pruebas de reglas de reabastecimiento", "Flujos de ajuste de inventario"])),
    KeyedActivities("Purchase", Activities(
        ["Configuración de gestión de proveedores", "Flujos de RFQ y PO", "Matriz de aprobación", "Acuerdos de compra"],
        ["Importar datos maestros de proveedores", "Historial de compras", "Órdenes de compra abiertas"],
        ["Flujo de requisición a PO", "Conciliación tripartita", "Seguimiento de desempeño de proveedores"])),
    KeyedActivities("Accounting", Activities(
        ["Configuración del plan de cuentas", "Configuración de impuestos y reglas", "Términos y métodos de pago", "Configuración de conciliación bancaria"],
        ["Saldos de apertura", "Saldos de clientes/proveedores", "Registro de activos fijos"],
        ["Flujo de factura a pago", "Validación de cálculo de impuestos", "Precisión de reportes financieros"])),
    KeyedActivities("Manufacturing", Activities(
        ["Estructura de Lista de Materiales", "Centros de trabajo y rutas", "Flujo de órdenes de manufactura", "Puntos de control de calidad"],
        ["Importar BOMs", "Capacidad de centros de trabajo", "Inventario en proceso"],
        ["Creación y completación de MO", "Seguimiento de consumo de materiales", "Programación de producción"])),
    KeyedActivities("Project", Activities(
        ["Etapas y plantillas de proyecto", "Tipos de tarea y flujos", "Configuración de seguimiento de tiempo", "Reglas de facturación"],
        ["Importar proyectos activos", "Hojas de tiempo históricas", "Plantillas de proyecto"],
        ["Flujo del ciclo de vida del proyecto", "Hoja de tiempo a facturación", "Asignación de recursos"])),
    KeyedActivities("HR", Activities(
        ["Estructura de registros de empleados", "Jerarquía departamental", "Tipos de ausencia y políticas", "Categorías de gastos"],
        ["Importar datos de empleados", "Saldos de ausencias", "Historial de gastos"],
        ["Flujo de solicitud de ausencia", "Flujo de aprobación de gastos", "Integración con nómina"]))
  ]

  /** The activities of a module missing from the catalog. */
  const EnglishDefaultActivities: Activities := Activities(
    ["Initial module configuration", "Custom fields and views", "Automation rules"],
    ["Data preparation", "Import and validation"],
    ["Workflow testing", "User validation"])

  const SpanishDefaultActivities: Activities := Activities(
    ["Configuración inicial del módulo", "Campos y vistas personalizadas", "Reglas de automatización"],
    ["Preparación de datos", "Importación y validación"],
    ["Pruebas de flujo de trabajo", "Validación con usuarios"])
}
