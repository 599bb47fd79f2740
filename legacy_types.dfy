/** The older entity definitions (types.ts) still used by views/ExegesisView.tsx,
    views/AdminView.tsx and services/geminiService.ts. The theology lines and
    the six module identifiers are those of CoreTypes; one module label differs. */
module LegacyTypes {
  import opened Text
  import opened CoreTypes

  /** The older, shorter screen enum. */
  datatype LegacyView =
    | LWelcome | LHome | LBible | LExegesis | LNotes | LCommunity | LProfile | LSettings
    | LAdminLogin | LAdminDashboard
  {
    function Id(): string {
      match this
      case LWelcome => "WELCOME"
      case LHome => "HOME"
      case LBible => "BIBLE"
      case LExegesis => "EXEGESIS"
      case LNotes => "NOTES"
      case LCommunity => "COMMUNITY"
      case LProfile => "PROFILE"
      case LSettings => "SETTINGS"
      case LAdminLogin => "ADMIN_LOGIN"
      case LAdminDashboard => "ADMIN_DASHBOARD"
    }
  }

  /** In the older enum only the login and the dashboard carry the admin prefix. */
  lemma LegacyAdminPrefix(v: LegacyView)
    ensures StartsWith(v.Id(), AdminPrefix) <==> (v == LAdminLogin || v == LAdminDashboard)
  {
    match v
    case LAdminLogin => assert v.Id()[..6] == AdminPrefix;
    case LAdminDashboard => assert v.Id()[..6] == AdminPrefix;
    case _ => assert v.Id()[0] != AdminPrefix[0];
  }

  /** The older runtime strings of the module enum. */
  function LegacyModuleLabel(m: ExegesisModule): string {
    match m
    case Dictionary => "Dicionários & Palavras-chave"
    case _ => m.Label()
  }

  /** The labels agree with the current enum except for the dictionary module. */
  lemma LegacyLabelsAgreeExceptDictionary(m: ExegesisModule)
    ensures LegacyModuleLabel(m) == m.Label() <==> m != Dictionary
  {
    if m == Dictionary {
      assert LegacyModuleLabel(m)[14] != m.Label()[14];
    }
  }

  /** The older profile has no identity and no guest sentinel. */
  datatype LegacyUser = LegacyUser(name: string, church: string, avatarUrl: string)

  const LegacyInitialUser: LegacyUser :=
    LegacyUser("Visitante", "Sem denominação definida", "https://picsum.photos/200")

  /** The older study record; its date is a `Date` object, modelled as the
      milliseconds since the epoch it wraps. */
  datatype LegacyStudy = LegacyStudy(
    id: string,
    reference: string,
    theology: TheologyLine,
    studyModule: ExegesisModule,
    content: string,
    date: int)

  /** The older configuration: no library link, no announcement. */
  datatype LegacyConfig = LegacyConfig(
    coverImageUrl: string,
    coverTitle: string,
    maintenanceMode: bool,
    activeModules: seq<ExegesisModule>)

  const LegacyInitialConfig: LegacyConfig :=
    LegacyConfig("https://picsum.photos/800/600", "Estude as Escrituras Profundamente", false, AllModules)

  /** The older seed configuration is open to users and enables every module. */
  lemma LegacyInitialConfigEnablesAll(m: ExegesisModule)
    ensures !LegacyInitialConfig.maintenanceMode
    ensures m in LegacyInitialConfig.activeModules
  {
    ModuleLabelsDistinct(m, m);
  }
}
