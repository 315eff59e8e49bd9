/** The dashboard home page: which module set applies to the signed-in user,
    and which sections and cards that set switches on. */
module Dashboard {
  import opened Wrappers
  import opened AuthContext
  import Sidebar

  const Overview := "dashboard-overview"
  const Analytics := "analytics"
  const Bookings := "bookings"
  const Gaming := "gaming"

  const AdminDefaults: set<string> := {Overview, Analytics, Bookings, Gaming}
  const ClientDefaults: set<string> := {Overview, Bookings, Gaming}
  const BasicDefaults: set<string> := {Overview}

  /** Role defaults, used when the user has no explicit module list. */
  function RoleDefaults(role: string): (m: set<string>)
    ensures Overview in m && m <= AdminDefaults
    ensures Analytics in m <==> role == AdminRole
    ensures Bookings in m <==> role == AdminRole || role == ClientRole
    ensures Gaming in m <==> role == AdminRole || role == ClientRole
  {
    if role == AdminRole then AdminDefaults
    else if role == ClientRole then ClientDefaults
    else BasicDefaults
  }

  /** The `modules` memo: empty without a user; the role defaults when the
      module list is absent or empty; otherwise the list's non-empty entries. */
  function ResolveModules(user: Option<User>): (m: set<string>)
    ensures user.None? ==> m == {}
    ensures user.Some? && user.value.modules.Some? && user.value.modules.value != [] ==>
              forall k :: k in m <==> k in user.value.modules.value && k != ""
    ensures user.Some? && (user.value.modules.None? || user.value.modules.value == []) ==>
              m == RoleDefaults(user.value.role)
  {
    if user.None? then {}
    else if user.value.modules.None? || |user.value.modules.value| == 0 then RoleDefaults(user.value.role)
    else set k | k in user.value.modules.value && k != ""
  }

  /** What the page renders, section by section. */
  datatype Sections = Sections(
    ownerTitle: bool,       // "Business Owner Dashboard" instead of "Dashboard"
    statsGrid: bool,        // the stat cards row, with the Total Revenue card
    activeUsersCard: bool,
    bookingsCard: bool,
    gamingCard: bool,
    chartsRow: bool,
    revenueChart: bool,
    gamingChart: bool,
    recentBookings: bool)

  function Layout(user: Option<User>): (s: Sections)
    // every card sits inside the stats grid, every chart inside the charts row
    ensures s.activeUsersCard || s.bookingsCard || s.gamingCard ==> s.statsGrid
    ensures s.revenueChart || s.gamingChart ==> s.chartsRow
    // the charts row exists only to hold a chart
    ensures s.chartsRow ==> s.revenueChart || s.gamingChart
    // the owner title and the active-users card never go together
    ensures !(s.ownerTitle && s.activeUsersCard)
    ensures s.ownerTitle <==> user.Some? && user.value.role == ClientRole
    ensures s.statsGrid <==> Overview in ResolveModules(user)
    ensures s.activeUsersCard <==> s.statsGrid && !(user.Some? && user.value.role == ClientRole)
    ensures s.bookingsCard <==> s.statsGrid && Bookings in ResolveModules(user)
    ensures s.gamingCard <==> s.statsGrid && Gaming in ResolveModules(user)
    ensures s.chartsRow <==> Analytics in ResolveModules(user) || Gaming in ResolveModules(user)
    ensures s.revenueChart <==> s.chartsRow && Analytics in ResolveModules(user)
    ensures s.gamingChart <==> s.chartsRow && Gaming in ResolveModules(user)
    ensures s.recentBookings <==> Bookings in ResolveModules(user)
  {
    var modules := ResolveModules(user);
    var showOverview := Overview in modules;
    var showAnalytics := Analytics in modules;
    var showBookings := Bookings in modules;
    var showGaming := Gaming in modules;
    var isClientView := user.Some? && user.value.role == ClientRole;
    Sections(
      ownerTitle := isClientView,
      statsGrid := showOverview,
      activeUsersCard := showOverview && !isClientView,
      bookingsCard := showOverview && showBookings,
      gamingCard := showOverview && showGaming,
      chartsRow := showAnalytics || showGaming,
      revenueChart := (showAnalytics || showGaming) && showAnalytics,
      gamingChart := (showAnalytics || showGaming) && showGaming,
      recentBookings := showBookings)
  }

  /** Nobody signed in: no module and no section. */
  lemma NoUserNoSections()
    ensures ResolveModules(None) == {}
    ensures Layout(None) == Sections(false, false, false, false, false, false, false, false, false)
  {
  }

  /** Without an explicit list an admin gets overview, analytics, bookings and
      gaming; a client overview, bookings and gaming; every other role,
      `super_admin` and `user` included, the overview alone. */
  lemma DefaultsByRole(u: User)
    requires u.modules.None? || u.modules.value == []
    ensures u.role == AdminRole ==> ResolveModules(Some(u)) == {Overview, Analytics, Bookings, Gaming}
    ensures u.role == ClientRole ==> ResolveModules(Some(u)) == {Overview, Bookings, Gaming}
    ensures u.role != AdminRole && u.role != ClientRole ==> ResolveModules(Some(u)) == {Overview}
  {
  }

  /** A super admin without a list sees the overview and its active-users card,
      and nothing else. */
  lemma SuperAdminDefaultLayout(u: User)
    requires u.role == SuperAdminRole && (u.modules.None? || u.modules.value == [])
    ensures Layout(Some(u)) == Sections(false, true, true, false, false, false, false, false, false)
  {
  }

  /** An explicit non-empty list replaces the role defaults whatever the role:
      two users with the same list resolve to the same set. */
  lemma OverrideIgnoresRole(u: User, v: User)
    requires u.modules == v.modules && u.modules.Some? && u.modules.value != []
    ensures ResolveModules(Some(u)) == ResolveModules(Some(v))
  {
  }

  /** Absent and empty lists mean the same thing. */
  lemma EmptyListIsNoList(u: User)
    ensures ResolveModules(Some(u.(modules := Some([])))) == ResolveModules(Some(u.(modules := None)))
  {
  }

  /** A list of empty entries is not "no list": it resolves to the empty set,
      so no section shows at all, whatever the role. */
  lemma BlankListShowsNothing(u: User)
    requires u.modules == Some([""])
    ensures ResolveModules(Some(u)) == {}
    ensures !Layout(Some(u)).statsGrid && !Layout(Some(u)).chartsRow && !Layout(Some(u)).recentBookings
  {
    assert forall k :: k in ResolveModules(Some(u)) ==> k == "";
  }

  /** With an explicit list, the dashboard and the sidebar read the same
      modules: the resolved set is exactly the sidebar's effective list. */
  lemma AgreesWithSidebar(u: User)
    requires u.modules.Some? && u.modules.value != []
    ensures Sidebar.EffectiveModules(Some(u)).Some?
    ensures forall k :: k in ResolveModules(Some(u)) <==> k in Sidebar.EffectiveModules(Some(u)).value
  {
    var effective := Sidebar.EffectiveModules(Some(u)).value;
    forall k | k in ResolveModules(Some(u))
      ensures k in effective
    {
      var i :| 0 <= i < |u.modules.value| && u.modules.value[i] == k;
    }
    forall k | k in effective
      ensures k in ResolveModules(Some(u))
    {
      var i :| 0 <= i < |effective| && effective[i] == k;
    }
  }
}
