/** The entities of the current client (core/types.ts): screen identifiers,
    doctrinal lines, study modules, the records kept in the store and the
    cache, and the seed values the application boots with. */
module CoreTypes {
  import opened Text
  import opened Seqs

  /** Every screen of the client and of the admin console. */
  datatype AppView =
    | Welcome | Register | Home | Bible | Exegesis | Tools | Community | More
    | Profile | Settings
    | AdminLogin | AdminHome | AdminUsers | AdminContent | AdminAnalytics | AdminSupport
  {
    /** The enum's runtime string. */
    function Id(): string {
      match this
      case Welcome => "WELCOME"
      case Register => "REGISTER"
      case Home => "HOME"
      case Bible => "BIBLE"
      case Exegesis => "EXEGESIS"
      case Tools => "TOOLS"
      case Community => "COMMUNITY"
      case More => "MORE"
      case Profile => "PROFILE"
      case Settings => "SETTINGS"
      case AdminLogin => "ADMIN_LOGIN"
      case AdminHome => "ADMIN_HOME"
      case AdminUsers => "ADMIN_USERS"
      case AdminContent => "ADMIN_CONTENT"
      case AdminAnalytics => "ADMIN_ANALYTICS"
      case AdminSupport => "ADMIN_SUPPORT"
    }

    /** Declared under "ADMIN VIEWS". */
    predicate IsAdmin() {
      AdminLogin? || AdminHome? || AdminUsers? || AdminContent? || AdminAnalytics? || AdminSupport?
    }
  }

  /** The prefix the router tests to recognise the admin console. */
  const AdminPrefix: string := "ADMIN_"

  /** `Object.values(AppView)`, in declaration order. */
  const AllViews: seq<AppView> :=
    [Welcome, Register, Home, Bible, Exegesis, Tools, Community, More, Profile, Settings,
     AdminLogin, AdminHome, AdminUsers, AdminContent, AdminAnalytics, AdminSupport]

  /** The router's prefix test picks out exactly the admin identifiers. */
  lemma AdminPrefixExact(v: AppView)
    ensures StartsWith(v.Id(), AdminPrefix) <==> v.IsAdmin()
  {
    match v
    case Welcome => assert v.Id()[0] != AdminPrefix[0];
    case Register => assert v.Id()[0] != AdminPrefix[0];
    case Home => assert v.Id()[0] != AdminPrefix[0];
    case Bible => assert v.Id()[0] != AdminPrefix[0];
    case Exegesis => assert v.Id()[0] != AdminPrefix[0];
    case Tools => assert v.Id()[0] != AdminPrefix[0];
    case Community => assert v.Id()[0] != AdminPrefix[0];
    case More => assert v.Id()[0] != AdminPrefix[0];
    case Profile => assert v.Id()[0] != AdminPrefix[0];
    case Settings => assert v.Id()[0] != AdminPrefix[0];
    case _ => assert v.Id()[..6] == AdminPrefix;
  }

  /** The enum lists every identifier. */
  lemma AllViewsComplete(v: AppView)
    ensures v in AllViews && |AllViews| == 16
  {
  }

  /** Exactly the last six identifiers of the enum are admin views. */
  lemma AdminViewsAreSix()
    ensures forall k :: 0 <= k < |AllViews| ==> (AllViews[k].IsAdmin() <==> k >= |AllViews| - 6)
    ensures forall v: AppView :: v.IsAdmin() <==> v in AllViews[|AllViews| - 6..]
  {
  }

  /** The doctrinal perspective a study is written from. */
  datatype TheologyLine = Calvinist | Arminian | Pentecostal {
    function Label(): string {
      match this
      case Calvinist => "Calvinista"
      case Arminian => "Arminiana"
      case Pentecostal => "Pentecostal"
    }
  }

  const AllTheologies: seq<TheologyLine> := [Calvinist, Arminian, Pentecostal]

  /** Three lines, each with its own label. */
  lemma TheologyLabelsDistinct(a: TheologyLine, b: TheologyLine)
    ensures a.Label() == b.Label() ==> a == b
    ensures a in AllTheologies && |AllTheologies| == 3
  {
    if a != b {
      assert a.Label()[..3] != b.Label()[..3] || a.Label()[3] != b.Label()[3];
    }
  }

  /** The study format that selects the prompt shape. */
  datatype ExegesisModule = Originals | FullExegesis | Homiletic | Teacher | Dictionary | Syntax {
    function Label(): string {
      match this
      case Originals => "Originais (Hebraico/Grego)"
      case FullExegesis => "Exegese Completa"
      case Homiletic => "Esboço Homilético"
      case Teacher => "Professor de EBD"
      case Dictionary => "Dicionários & Chaves"
      case Syntax => "Estrutura Sintática"
    }
  }

  /** `Object.values(ExegesisModule)`, in declaration order. */
  const AllModules: seq<ExegesisModule> :=
    [Originals, FullExegesis, Homiletic, Teacher, Dictionary, Syntax]

  /** The first and third characters of each label, which tell them apart. */
  lemma ModuleLabelKey(m: ExegesisModule)
    ensures |m.Label()| > 2
    ensures (m.Label()[0], m.Label()[2]) == match m
      case Originals => ('O', 'i') case FullExegesis => ('E', 'e') case Homiletic => ('E', 'b')
      case Teacher => ('P', 'o') case Dictionary => ('D', 'c') case Syntax => ('E', 't')
  {
    match m
    case Originals => assert m.Label()[0] == 'O' && m.Label()[2] == 'i';
    case FullExegesis => assert m.Label()[0] == 'E' && m.Label()[2] == 'e';
    case Homiletic => assert m.Label()[0] == 'E' && m.Label()[2] == 'b';
    case Teacher => assert m.Label()[0] == 'P' && m.Label()[2] == 'o';
    case Dictionary => assert m.Label()[0] == 'D' && m.Label()[2] == 'c';
    case Syntax => assert m.Label()[0] == 'E' && m.Label()[2] == 't';
  }

  /** Six modules, each with its own label. */
  lemma ModuleLabelsDistinct(a: ExegesisModule, b: ExegesisModule)
    ensures a.Label() == b.Label() ==> a == b
    ensures a in AllModules && |AllModules| == 6
  {
    ModuleLabelKey(a);
    ModuleLabelKey(b);
  }

  /** The application's user record; `id == "guest"` marks an anonymous session. */
  datatype UserProfile = UserProfile(
    id: string,
    name: string,
    age: string,
    church: string,
    role: string,
    whatsapp: string,
    isRegistered: bool,
    avatarUrl: string,
    registrationDate: string)

  const GuestId: string := "guest"

  /** The guest sentinel is never a registered user. */
  predicate GuestInvariant(u: UserProfile) {
    u.id == GuestId ==> !u.isRegistered
  }

  /** A locally saved study. */
  datatype StudyResult = StudyResult(
    id: string,
    reference: string,
    theology: TheologyLine,
    studyModule: ExegesisModule,
    content: string,
    date: string)

  datatype PersonalNote = PersonalNote(id: string, title: string, content: string, updatedAt: string)

  datatype Feedback = Feedback(id: string, userId: string, userName: string, message: string, date: string)

  /** The global content configuration edited in the admin console. */
  datatype AdminConfig = AdminConfig(
    coverImageUrl: string,
    coverTitle: string,
    libraryDriveUrl: string,
    announcement: string,
    maintenanceMode: bool,
    activeModules: seq<ExegesisModule>)

  const InitialAdminConfig: AdminConfig := AdminConfig(
    "/cover.png",
    "Estude as Escrituras Profundamente",
    "",
    "Dica do dia: Use a ferramenta de Exegese para analisar o texto original em grego e hebraico.",
    false,
    AllModules)

  /** The seeded configuration is open to users, has no library link and
      enables every module. */
  lemma InitialAdminConfigEnablesAll(m: ExegesisModule)
    ensures !InitialAdminConfig.maintenanceMode
    ensures InitialAdminConfig.libraryDriveUrl == ""
    ensures m in InitialAdminConfig.activeModules
    ensures InitialAdminConfig.activeModules == AllModules
  {
    ModuleLabelsDistinct(m, m);
  }

  datatype FontFamily = Serif | Sans

  /** lineHeight is a floating-point number in the application. */
  datatype ReadingSettings = ReadingSettings(fontSize: int, lineHeight: real, fontFamily: FontFamily)

  const InitialReadingSettings: ReadingSettings := ReadingSettings(16, 1.6, Serif)

  datatype Theme = Light | Dark

  const InitialUser: UserProfile := UserProfile(
    GuestId, "", "", "", "", "", false,
    "https://api.dicebear.com/7.x/avataaars/svg?seed=Felix", "")

  /** A freshly booted session is the unregistered guest with an empty form. */
  lemma InitialUserIsGuest()
    ensures InitialUser.id == GuestId && !InitialUser.isRegistered
    ensures GuestInvariant(InitialUser)
    ensures InitialUser.name == "" && InitialUser.age == "" && InitialUser.church == ""
    ensures InitialUser.role == "" && InitialUser.whatsapp == "" && InitialUser.registrationDate == ""
  {
  }
}
