/** Role-based access control of the frontend: the three roles, the permission matrix and
    the navigation menu of each role (frontend/src/utils/constants.js). */
module Access {
  import opened Wrappers

  datatype Role = Admin | DecisionMaker | Operator

  /** The role's key in `ROLES`. */
  function RoleKey(r: Role): (k: string)
    ensures k in {"admin", "tomador_decisiones", "operativo"}
  {
    match r
    case Admin => "admin"
    case DecisionMaker => "tomador_decisiones"
    case Operator => "operativo"
  }

  /** The role a key names, if any (`PERMISSIONS[key]` is defined exactly for these). */
  function RoleOfKey(k: string): (r: Option<Role>)
    ensures r.Some? <==> k in {"admin", "tomador_decisiones", "operativo"}
    ensures r.Some? ==> RoleKey(r.value) == k
  {
    if k == "admin" then Some(Admin)
    else if k == "tomador_decisiones" then Some(DecisionMaker)
    else if k == "operativo" then Some(Operator)
    else None
  }

  /** Role keys are distinct and name their role back. */
  lemma RoleKeyRoundTrip(r: Role)
    ensures RoleOfKey(RoleKey(r)) == Some(r)
  {
  }

  /** The ten boolean capabilities of a permission table. */
  datatype Flag =
    | CanUploadFiles | CanTriggerRetrain | CanViewLogs | CanAccessDashboard | CanViewModels
    | CanViewCorrelations | CanViewAlerts | CanViewBalances | CanExportReports | CanManageAlerts

  const AllFlags: set<Flag> := {
    CanUploadFiles, CanTriggerRetrain, CanViewLogs, CanAccessDashboard, CanViewModels,
    CanViewCorrelations, CanViewAlerts, CanViewBalances, CanExportReports, CanManageAlerts
  }

  /** The flag's property name in a permission table. */
  function FlagName(f: Flag): string {
    match f
    case CanUploadFiles => "canUploadFiles"
    case CanTriggerRetrain => "canTriggerRetrain"
    case CanViewLogs => "canViewLogs"
    case CanAccessDashboard => "canAccessDashboard"
    case CanViewModels => "canViewModels"
    case CanViewCorrelations => "canViewCorrelations"
    case CanViewAlerts => "canViewAlerts"
    case CanViewBalances => "canViewBalances"
    case CanExportReports => "canExportReports"
    case CanManageAlerts => "canManageAlerts"
  }

  /** The flag a property name denotes; `label` and unknown names denote none. */
  function FlagOfName(name: string): (f: Option<Flag>)
    ensures f.Some? ==> FlagName(f.value) == name
    ensures f.None? ==> forall g: Flag :: FlagName(g) != name
  {
    if name == "canUploadFiles" then Some(CanUploadFiles)
    else if name == "canTriggerRetrain" then Some(CanTriggerRetrain)
    else if name == "canViewLogs" then Some(CanViewLogs)
    else if name == "canAccessDashboard" then Some(CanAccessDashboard)
    else if name == "canViewModels" then Some(CanViewModels)
    else if name == "canViewCorrelations" then Some(CanViewCorrelations)
    else if name == "canViewAlerts" then Some(CanViewAlerts)
    else if name == "canViewBalances" then Some(CanViewBalances)
    else if name == "canExportReports" then Some(CanExportReports)
    else if name == "canManageAlerts" then Some(CanManageAlerts)
    else None
  }

  /** A role's entry of `PERMISSIONS`: its `label` (`displayName`) and the flags that are `true` (all others
      are `false`). */
  datatype PermissionTable = PermissionTable(displayName: string, granted: set<Flag>)

  /** A property of a permission table as JavaScript reads it. */
  datatype JsValue = JsBool(b: bool) | JsString(s: string) | JsUndefined

  /** `table[name]`. */
  function Lookup(t: PermissionTable, name: string): (v: JsValue)
    ensures v == JsBool(true) <==> exists f :: f in t.granted && FlagName(f) == name
    ensures name == "label" ==> v == JsString(t.displayName)
  {
    if name == "label" then JsString(t.displayName)
    else match FlagOfName(name)
      case Some(f) => JsBool(f in t.granted)
      case None => JsUndefined
  }

  /** `PERMISSIONS[role]`. */
  function Permissions(r: Role): (t: PermissionTable)
    ensures t.granted <= AllFlags
    ensures r == Admin ==> t.granted == AllFlags - {CanManageAlerts}
    ensures r == Operator ==> t.granted == {CanViewAlerts, CanViewBalances, CanManageAlerts}
    ensures CanManageAlerts in t.granted <==> r == Operator
  {
    match r
    case Admin => PermissionTable("Administrador", AllFlags - {CanManageAlerts})
    case DecisionMaker =>
      PermissionTable("Tomador de Decisiones",
        {CanAccessDashboard, CanViewModels, CanViewCorrelations, CanViewAlerts, CanViewBalances,
         CanExportReports})
    case Operator =>
      PermissionTable("Usuario Operativo", {CanViewAlerts, CanViewBalances, CanManageAlerts})
  }

  /** The administrator can do everything the decision-maker can; only the operator manages
      alerts. */
  lemma PermissionHierarchy()
    ensures Permissions(DecisionMaker).granted <= Permissions(Admin).granted
    ensures forall r: Role :: CanManageAlerts in Permissions(r).granted <==> r == Operator
  {
  }

  /** `PERMISSIONS[key]`, undefined for a key outside `ROLES`. */
  function PermissionsFor(key: string): (t: Option<PermissionTable>)
    ensures t.Some? <==> RoleOfKey(key).Some?
    ensures t.Some? ==> t.value == Permissions(RoleOfKey(key).value)
  {
    match RoleOfKey(key)
    case Some(r) => Some(Permissions(r))
    case None => None
  }

  // ---------------------------------------------------------------- navigation

  /** The pages a menu can link to. */
  datatype Page = AdminPage | DashboardPage | ModelsPage | CorrelationsPage | BalancesPage | AlertsPage

  function PagePath(p: Page): string {
    match p
    case AdminPage => "/admin"
    case DashboardPage => "/"
    case ModelsPage => "/modelos"
    case CorrelationsPage => "/correlaciones"
    case BalancesPage => "/balances"
    case AlertsPage => "/alertas"
  }

  /** Pages have distinct paths. */
  lemma PagePathInjective(p: Page, q: Page)
    requires PagePath(p) == PagePath(q)
    ensures p == q
  {
  }

  datatype NavItem = NavItem(page: Page, title: string, icon: string) {
    function Path(): string { PagePath(page) }
  }

  const AdminMenu: seq<NavItem> := [
    NavItem(AdminPage, "Gestión de Datos", "Upload"),
    NavItem(DashboardPage, "Dashboard", "LayoutDashboard"),
    NavItem(ModelsPage, "Modelos", "Brain"),
    NavItem(CorrelationsPage, "Correlaciones", "Network"),
    NavItem(BalancesPage, "Balances", "Scale"),
    NavItem(AlertsPage, "Alertas", "AlertTriangle")
  ]

  /** `NAVIGATION_ITEMS[role]`. */
  function Menu(r: Role): (m: seq<NavItem>)
    ensures |m| > 0
  {
    match r
    case Admin => AdminMenu
    case DecisionMaker => AdminMenu[1..]
    case Operator => [
      NavItem(AlertsPage, "Alertas", "AlertTriangle"),
      NavItem(BalancesPage, "Balances", "Scale")
    ]
  }

  /** The pages of a menu, in order. */
  function Pages(m: seq<NavItem>): (ps: seq<Page>)
    ensures |ps| == |m| && forall i :: 0 <= i < |m| ==> ps[i] == m[i].page
  {
    seq(|m|, i requires 0 <= i < |m| => m[i].page)
  }

  /** The decision-maker's menu is the administrator's without its first entry, `/admin`. */
  lemma DecisionMakerMenu()
    ensures Menu(DecisionMaker) == Menu(Admin)[1..]
    ensures Menu(Admin)[0].Path() == "/admin"
  {
  }

  /** The operator sees exactly alerts then balances. */
  lemma OperatorMenu()
    ensures Pages(Menu(Operator)) == [AlertsPage, BalancesPage]
    ensures Menu(Operator)[0].Path() == "/alertas" && Menu(Operator)[1].Path() == "/balances"
  {
  }

  /** The flag that grants access to a page. */
  function PageFlag(p: Page): Flag {
    match p
    case AdminPage => CanUploadFiles
    case DashboardPage => CanAccessDashboard
    case ModelsPage => CanViewModels
    case CorrelationsPage => CanViewCorrelations
    case BalancesPage => CanViewBalances
    case AlertsPage => CanViewAlerts
  }

  /** A page is in a role's menu exactly when the role holds the flag for that page. */
  lemma MenuAgreesWithFlags(r: Role, p: Page)
    ensures p in Pages(Menu(r)) <==> PageFlag(p) in Permissions(r).granted
  {
    var ps := Pages(Menu(r));
    match r
    case Admin =>
      assert ps == [AdminPage, DashboardPage, ModelsPage, CorrelationsPage, BalancesPage, AlertsPage];
    case DecisionMaker =>
      assert ps == [DashboardPage, ModelsPage, CorrelationsPage, BalancesPage, AlertsPage];
    case Operator =>
      assert ps == [AlertsPage, BalancesPage];
  }

  /** Alerts and balances are in every role's menu. */
  lemma AlertsAndBalancesForAll(r: Role)
    ensures AlertsPage in Pages(Menu(r)) && BalancesPage in Pages(Menu(r))
  {
    var ps := Pages(Menu(r));
    match r
    case Admin =>
      assert ps[4] == BalancesPage && ps[5] == AlertsPage;
    case DecisionMaker =>
      assert ps[3] == BalancesPage && ps[4] == AlertsPage;
    case Operator =>
      assert ps[0] == AlertsPage && ps[1] == BalancesPage;
  }

  /** No menu lists a page twice, so no path appears twice. */
  lemma MenuPathsDistinct(r: Role)
    ensures forall i, j :: 0 <= i < j < |Menu(r)| ==> Menu(r)[i].Path() != Menu(r)[j].Path()
  {
    forall i, j | 0 <= i < j < |Menu(r)| ensures Menu(r)[i].Path() != Menu(r)[j].Path() {
      if Menu(r)[i].Path() == Menu(r)[j].Path() {
        PagePathInjective(Menu(r)[i].page, Menu(r)[j].page);
      }
    }
  }
}
