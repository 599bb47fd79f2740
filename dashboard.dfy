/** The administrator dashboard (admin/Dashboard.tsx): the panel chosen by
    the current admin view, the user count read from the local member
    list, and the content editor, which writes the configuration to the
    local cache only. */
module Dashboard {
  import opened CoreTypes
  import opened Storage
  import opened Registration

  /** What the dashboard's main area shows. */
  datatype AdminPanel =
    | HomePanel(userCount: int)
    | UsersPanel
    | ContentPanel
    | SupportPanel

  /** `renderContent`'s switch; `default` (the analytics entry and any
      non-admin view) falls back to the home panel. */
  function RenderContent(currentView: AppView, userCount: int): AdminPanel {
    match currentView
    case AdminUsers => UsersPanel
    case AdminContent => ContentPanel
    case AdminSupport => SupportPanel
    case _ => HomePanel(userCount)
  }

  /** Exactly three views have a panel of their own; every other view,
      analytics included, shows the home panel with the current count. */
  lemma RenderContentCases(v: AppView, userCount: int)
    ensures RenderContent(v, userCount).HomePanel? <==> v !in {AdminUsers, AdminContent, AdminSupport}
    ensures RenderContent(v, userCount).HomePanel? ==> RenderContent(v, userCount).userCount == userCount
    ensures RenderContent(AdminAnalytics, userCount) == RenderContent(AdminHome, userCount)
  {
  }

  /** One row of the members table. */
  datatype MemberRow = MemberRow(name: string, role: string)

  /** The members table: one row per cached member, in stored order
      (the screen shows `Vazio` for an empty list). */
  function MemberRows(users: seq<UserProfile>): (rows: seq<MemberRow>)
    ensures |rows| == |users|
    ensures forall k :: 0 <= k < |users| ==> rows[k] == MemberRow(users[k].name, users[k].role)
  {
    seq(|users|, k requires 0 <= k < |users| => MemberRow(users[k].name, users[k].role))
  }

  /** The home panel's count and the members table read the same list:
      the panel counts one member per table row, and the table is empty
      (`Vazio`) exactly when the count is zero. */
  lemma MemberTableAgreesWithCount(users: seq<UserProfile>)
    ensures RenderContent(AdminHome, |users|) == HomePanel(|MemberRows(users)|)
    ensures MemberRows(users) == [] <==> |users| == 0
  {
  }

  /** After a registration the new member is the table's last row, under
      the name and role from the form. */
  lemma RegisteredMemberListedLast(all: seq<UserProfile>, u: UserProfile)
    ensures var rows := MemberRows(UpsertCrm(all, u));
      |rows| > 0 && rows[|rows| - 1] == MemberRow(u.name, u.role)
  {
  }

  class DashboardScreen {
    var currentView: AppView
    var userCount: int

    constructor ()
      ensures currentView == AdminHome && userCount == 0
    {
      currentView := AdminHome;
      userCount := 0;
    }

    /** The mount effect: the count is the length of the member list. */
    method LoadUserCount(cache: LocalCache)
      modifies this
      ensures userCount == |cache.crmUsers| && currentView == old(currentView)
      ensures userCount == |MemberRows(cache.crmUsers)|
    {
      userCount := |cache.crmUsers|;
    }

    /** The bottom navigation's `onChangeView`. */
    method Navigate(v: AppView)
      modifies this
      ensures currentView == v && userCount == old(userCount)
    {
      currentView := v;
    }

    /** What is shown now. */
    method Current() returns (panel: AdminPanel)
      ensures panel == RenderContent(currentView, userCount)
    {
      panel := RenderContent(currentView, userCount);
    }
  }

  /** The content editor: a copy of the cached configuration whose four
      text fields the form edits. */
  class ContentConfigEditor {
    var config: AdminConfig
    /** The configuration the editor was opened with. */
    ghost const loaded: AdminConfig

    /** The form never touches the maintenance switch or the module list. */
    ghost predicate Valid()
      reads this
    {
      config.maintenanceMode == loaded.maintenanceMode && config.activeModules == loaded.activeModules
    }

    constructor (cache: LocalCache)
      ensures config == cache.config && loaded == cache.config && Valid()
    {
      config := cache.config;
      loaded := cache.config;
    }

    method SetCoverTitle(t: string)
      requires Valid()
      modifies this
      ensures Valid() && config == old(config).(coverTitle := t)
    {
      config := config.(coverTitle := t);
    }

    method SetCoverImageUrl(u: string)
      requires Valid()
      modifies this
      ensures Valid() && config == old(config).(coverImageUrl := u)
    {
      config := config.(coverImageUrl := u);
    }

    method SetAnnouncement(a: string)
      requires Valid()
      modifies this
      ensures Valid() && config == old(config).(announcement := a)
    {
      config := config.(announcement := a);
    }

    method SetLibraryDriveUrl(u: string)
      requires Valid()
      modifies this
      ensures Valid() && config == old(config).(libraryDriveUrl := u)
    {
      config := config.(libraryDriveUrl := u);
    }

    /** `handleSave`: the edited configuration replaces the cached one;
        the switch and the modules stay as they were when the editor opened. */
    method HandleSave(cache: LocalCache)
      requires Valid()
      modifies cache
      ensures cache.Snapshot() == old(cache.Snapshot()).(config := config)
      ensures cache.config.maintenanceMode == loaded.maintenanceMode
      ensures cache.config.activeModules == loaded.activeModules
    {
      cache.SaveConfig(config);
    }
  }
}
