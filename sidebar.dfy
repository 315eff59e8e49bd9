/** The navigation filter of the sidebar: a fixed, ordered manifest of entries,
    each optionally gated by roles and by a dashboard module key. */
module Sidebar {
  import opened Wrappers
  import opened AuthContext
  import Seqs
  import Text
  import ProtectedRoute

  /** A manifest entry; `name` holds the entry's label (`label` is a reserved word in Dafny). */
  datatype NavItem = NavItem(name: string, href: string, roles: Option<seq<string>>, moduleKey: Option<string>)

  /** The manifest, in rendering order (icons left out). */
  const DashboardEntry := NavItem("Dashboard", "/dashboard", None, Some("dashboard-overview"))
  const BusinessSetupEntry := NavItem("Business Setup", "/dashboard/setup", Some([AdminRole]), None)
  const BusinessesEntry := NavItem("Businesses", "/dashboard/clients", Some([AdminRole]), None)
  const GamingEntry := NavItem("Gaming", "/dashboard/gaming", Some([AdminRole, ClientRole]), Some("gaming"))
  const SnookerEntry := NavItem("Snooker", "/dashboard/snooker", Some([AdminRole, ClientRole]), Some("snooker"))
  const TableTennisEntry := NavItem("Table Tennis", "/dashboard/table-tennis", Some([AdminRole, ClientRole]), Some("table-tennis"))
  const CricketEntry := NavItem("Cricket", "/dashboard/cricket", Some([AdminRole, ClientRole]), Some("cricket"))
  const FutsalTurfEntry := NavItem("Futsal Turf", "/dashboard/futsal-turf", Some([AdminRole, ClientRole]), Some("futsal-turf"))
  const PadelEntry := NavItem("Padel", "/dashboard/padel", Some([AdminRole, ClientRole]), Some("padel"))
  const LocationsEntry := NavItem("Locations", "/dashboard/locations", Some([AdminRole, ClientRole]), Some("locations"))
  const FacilitiesEntry := NavItem("Facilities", "/dashboard/facilities", Some([ClientRole]), None)
  const UsersEntry := NavItem("Users", "/dashboard/users", Some([SuperAdminRole, AdminRole, ClientRole]), Some("users"))
  const BookingsEntry := NavItem("Bookings", "/dashboard/bookings", Some([AdminRole, ClientRole]), Some("bookings"))
  const AnalyticsEntry := NavItem("Analytics", "/dashboard/analytics", Some([AdminRole, ClientRole]), Some("analytics"))
  const SettingsEntry := NavItem("Settings", "/dashboard/settings", Some([AdminRole, ClientRole, UserRole]), Some("settings"))

  /** The manifest, in rendering order (icons left out). */
  const NavItems: seq<NavItem> := [
    DashboardEntry,
    BusinessSetupEntry,
    BusinessesEntry,
    GamingEntry,
    SnookerEntry,
    TableTennisEntry,
    CricketEntry,
    FutsalTurfEntry,
    PadelEntry,
    LocationsEntry,
    FacilitiesEntry,
    UsersEntry,
    BookingsEntry,
    AnalyticsEntry,
    SettingsEntry
  ]

  /** Labels a client may ever see. */
  const ClientLabels: set<string> := {"Bookings", "Locations", "Facilities", "Settings"}

  /** `effectiveModules`: no override (`null`) for no user or an absent or
      empty module list; otherwise the list without its empty entries. */
  function EffectiveModules(user: Option<User>): (r: Option<seq<string>>)
    ensures r.None? <==> user.None? || user.value.modules.None? || user.value.modules.value == []
    ensures r.Some? ==>
              (forall i :: 0 <= i < |r.value| ==> r.value[i] != "" && r.value[i] in user.value.modules.value)
              && (forall k :: k in user.value.modules.value && k != "" ==> k in r.value)
  {
    if user.None? then None
    else if user.value.modules.None? || |user.value.modules.value| == 0 then None
    else Some(Seqs.Filter(Text.Truthy, user.value.modules.value))
  }

  predicate ClientMayOpen(item: NavItem)
  {
    item.name in ClientLabels
  }

  /** `visibleNavItems`: a client gets the label allow-list, everyone else the
      whole manifest. */
  function VisibleNavItems(manifest: seq<NavItem>, user: Option<User>): (r: seq<NavItem>)
    ensures !(user.Some? && user.value.role == ClientRole) ==> r == manifest
    ensures user.Some? && user.value.role == ClientRole ==>
              Seqs.IsSubsequence(r, manifest)
              && (forall i :: 0 <= i < |r| ==> ClientMayOpen(r[i]))
              && (forall i :: 0 <= i < |manifest| && ClientMayOpen(manifest[i]) ==> manifest[i] in r)
  {
    if user.None? then manifest
    else if user.value.role == ClientRole then Seqs.Filter(ClientMayOpen, manifest)
    else manifest
  }

  predicate IsSuperAdmin(user: Option<User>)
  {
    user.Some? && user.value.role == SuperAdminRole
  }

  /** The role test of the render loop: an entry passes for a super admin,
      for nobody signed in, when it has no role list, or when the list names
      the user's role. */
  function RolePasses(user: Option<User>, item: NavItem): (passes: bool)
    ensures passes <==> IsSuperAdmin(user) || user.None? || item.roles.None? || user.value.role in item.roles.value
  {
    !(!IsSuperAdmin(user) && item.roles.Some? && user.Some? && user.value.role !in item.roles.value)
  }

  /** The module test of the render loop: an entry passes for a super admin,
      for a user without a non-empty module list, when it has no (or an empty)
      module key, or when the user's list holds its key. */
  function ModulePasses(user: Option<User>, item: NavItem): (passes: bool)
    ensures passes <==>
              IsSuperAdmin(user) || user.None? || user.value.modules.None? || user.value.modules.value == []
              || item.moduleKey.None? || item.moduleKey.value == "" || item.moduleKey.value in user.value.modules.value
  {
    var effective := EffectiveModules(user);
    !(!IsSuperAdmin(user) && effective.Some? && item.moduleKey.Some? && item.moduleKey.value != ""
      && item.moduleKey.value !in effective.value)
  }

  predicate Shown(user: Option<User>, item: NavItem)
  {
    RolePasses(user, item) && ModulePasses(user, item)
  }

  /** The entries the render loop keeps, in order. */
  function Render(manifest: seq<NavItem>, user: Option<User>): (r: seq<NavItem>)
    ensures forall i :: 0 <= i < |r| ==> r[i] in manifest && Shown(user, r[i])
    ensures forall i :: 0 <= i < |r| ==> user.Some? && user.value.role == ClientRole ==> r[i].name in ClientLabels
  {
    Seqs.Filter(item => Shown(user, item), VisibleNavItems(manifest, user))
  }

  /** The rendered list is the manifest with some entries dropped, in manifest order. */
  lemma RenderKeepsManifestOrder(manifest: seq<NavItem>, user: Option<User>)
    ensures Seqs.IsSubsequence(Render(manifest, user), manifest)
  {
    if user.Some? && user.value.role == ClientRole {
      Seqs.FilterFilter(ClientMayOpen, item => Shown(user, item), manifest);
    }
  }

  /** With nobody logged in, every entry is shown, in manifest order. */
  lemma NoUserSeesEverything(manifest: seq<NavItem>)
    ensures Render(manifest, None) == manifest
  {
    Seqs.FilterKeepsAll(item => Shown(None, item), manifest);
  }

  /** A super admin sees every entry, whatever its roles and the user's modules. */
  lemma SuperAdminSeesEverything(manifest: seq<NavItem>, u: User)
    requires u.role == SuperAdminRole
    ensures Render(manifest, Some(u)) == manifest
  {
    Seqs.FilterKeepsAll(item => Shown(Some(u), item), manifest);
  }

  /** Any other user never sees an entry whose role list leaves out their role. */
  lemma RoleListHides(manifest: seq<NavItem>, u: User, item: NavItem)
    requires u.role != SuperAdminRole && item.roles.Some? && u.role !in item.roles.value
    ensures item !in Render(manifest, Some(u))
  {
  }

  /** With an explicit module list, an entry gated by a module the list lacks
      is hidden from any user but a super admin. */
  lemma ModuleListHides(manifest: seq<NavItem>, u: User, item: NavItem)
    requires u.role != SuperAdminRole && u.modules.Some? && u.modules.value != []
    requires item.moduleKey.Some? && item.moduleKey.value != "" && item.moduleKey.value !in u.modules.value
    ensures item !in Render(manifest, Some(u))
  {
  }

  /** A module list holding only empty entries still counts as an explicit
      list: it hides every entry with a module key from anyone but a super admin. */
  lemma BlankModuleListHidesGatedEntries(manifest: seq<NavItem>, u: User, item: NavItem)
    requires u.role != SuperAdminRole && u.modules == Some([""])
    requires item.moduleKey.Some? && item.moduleKey.value != ""
    ensures EffectiveModules(Some(u)) == Some([])
    ensures item !in Render(manifest, Some(u))
  {
    Seqs.FilterDropsAll(Text.Truthy, [""]);
  }

  /** The module test never hides an entry without a module key, nor any entry
      of a user without an explicit module list. */
  lemma ModuleTestSpares(u: Option<User>, item: NavItem)
    requires item.moduleKey.None? || EffectiveModules(u).None?
    ensures ModulePasses(u, item)
  {
  }

  /** An entry of the (allow-listed) manifest that passes both tests is shown. */
  lemma ShownEntriesAppear(manifest: seq<NavItem>, u: Option<User>, item: NavItem)
    requires item in VisibleNavItems(manifest, u) && RolePasses(u, item) && ModulePasses(u, item)
    ensures item in Render(manifest, u)
  {
    var visible := VisibleNavItems(manifest, u);
    var i :| 0 <= i < |visible| && visible[i] == item;
  }

  /** The only entries the allow-list lets a client have. */
  lemma ClientCandidates(item: NavItem)
    requires item in NavItems && ClientMayOpen(item)
    ensures item in [LocationsEntry, FacilitiesEntry, BookingsEntry, SettingsEntry]
  {
    assert item.name == "Bookings" || item.name == "Locations" || item.name == "Facilities" || item.name == "Settings";
  }

  /** ... and the allow-list lets a client have each of them. */
  lemma ClientCandidatesAllowed(item: NavItem)
    requires item in [LocationsEntry, FacilitiesEntry, BookingsEntry, SettingsEntry]
    ensures item in NavItems && ClientMayOpen(item)
  {
    assert NavItems[9] == LocationsEntry && NavItems[10] == FacilitiesEntry;
    assert NavItems[12] == BookingsEntry && NavItems[14] == SettingsEntry;
  }

  /** A client whose only module is "bookings" is shown Facilities (which has
      no module key) and Bookings ... */
  lemma BookingsOnlyClientSees(u: User)
    requires u.role == ClientRole && u.modules == Some(["bookings"])
    ensures FacilitiesEntry in Render(NavItems, Some(u)) && BookingsEntry in Render(NavItems, Some(u))
  {
    var user := Some(u);
    assert EffectiveModules(user) == Some(["bookings"]) by {
      Seqs.FilterKeepsAll(Text.Truthy, ["bookings"]);
    }
    assert NavItems[10] == FacilitiesEntry && NavItems[12] == BookingsEntry;
    ShownEntriesAppear(NavItems, user, FacilitiesEntry);
    ShownEntriesAppear(NavItems, user, BookingsEntry);
  }

  /** ... and nothing else. */
  lemma BookingsOnlyClientSeesNothingElse(u: User)
    requires u.role == ClientRole && u.modules == Some(["bookings"])
    ensures forall item :: item in Render(NavItems, Some(u)) ==> item == FacilitiesEntry || item == BookingsEntry
  {
    var user := Some(u);
    assert EffectiveModules(user) == Some(["bookings"]) by {
      Seqs.FilterKeepsAll(Text.Truthy, ["bookings"]);
    }
    forall item | item in Render(NavItems, user)
      ensures item == FacilitiesEntry || item == BookingsEntry
    {
      ClientCandidates(item);
    }
  }

  /** The sidebar's own filter keeps the Businesses entry for a super admin,
      although the businesses layout would refuse them; the dashboard layout
      around the sidebar already refuses a super admin, so the sidebar is
      never shown to one. */
  lemma SuperAdminFilterKeepsRefusedEntry(u: User)
    requires u.role == SuperAdminRole
    ensures BusinessesEntry in Render(NavItems, Some(u))
    ensures ProtectedRoute.Decide(false, Some(u), Some(ProtectedRoute.ClientsRoles), BusinessesEntry.href)
            == ProtectedRoute.Verdict(Some("/dashboard"), ProtectedRoute.Nothing)
    ensures ProtectedRoute.Decide(false, Some(u), Some(ProtectedRoute.DashboardRoles), BusinessesEntry.href)
            == ProtectedRoute.Verdict(Some("/dashboard"), ProtectedRoute.Nothing)
  {
    SuperAdminSeesEverything(NavItems, u);
    assert NavItems[2] == BusinessesEntry;
    ProtectedRoute.ClientsPagesRefuseOthers(u, BusinessesEntry.href);
    ProtectedRoute.DashboardRefusesOtherRoles(u, BusinessesEntry.href);
  }

}
