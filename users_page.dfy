/** The users page: per-user dashboard-module overrides edited chip by chip,
    the user list updated by id, and the role counts. */
module UsersPage {
  import opened Wrappers
  import opened AuthContext
  import Seqs
  import Text

  /** The chips, in display order. */
  const AllModules: seq<string> := [
    "dashboard-overview", "gaming", "snooker", "table-tennis", "cricket", "futsal-turf",
    "padel", "locations", "users", "bookings", "analytics", "settings"
  ]

  const LoadFailedMessage := "Failed to load users"
  const UpdateFailedMessage := "Failed to update modules"

  /** The set a toggle starts from: empty for an absent or empty list, else
      the list's distinct entries in first-occurrence order. */
  function StartingSet(modules: Option<seq<string>>): (r: seq<string>)
    ensures Seqs.NoDups(r)
    ensures forall x :: x in r <==> modules.Some? && x in modules.value
    ensures modules.Some? && Seqs.NoDups(modules.value) ==> r == modules.value
  {
    if modules.Some? && |modules.value| > 0 then Seqs.Dedup(modules.value) else []
  }

  /** A repeated key keeps the place of its first occurrence: a key listed
      again after a list without repeats adds nothing. */
  lemma StartingSetKeepsFirstOccurrence(modules: seq<string>, key: string)
    requires Seqs.NoDups(modules) && key in modules
    ensures StartingSet(Some(modules + [key])) == modules
  {
    var s := modules + [key];
    assert s[..|s| - 1] == modules;
    assert s[|s| - 1] == key;
  }

  predicate IsNot(key: string, x: string)
  {
    x != key
  }

  /** `delete` when the key is present, `add` (at the end) otherwise. */
  function Toggle(current: seq<string>, key: string): (r: seq<string>)
    requires Seqs.NoDups(current)
    ensures Seqs.NoDups(r)
    // the chosen key flips; every other key keeps its membership
    ensures key in r <==> key !in current
    ensures forall x :: x != key ==> (x in r <==> x in current)
    // an added key goes last; a removal keeps the others in their order
    ensures key !in current ==> r == current + [key]
    ensures key in current ==> Seqs.IsSubsequence(r, current) && |r| < |current|
  {
    if key in current then
      Seqs.FilterNoDups(x => IsNot(key, x), current);
      var i :| 0 <= i < |current| && current[i] == key;
      Seqs.FilterDropsOne(x => IsNot(key, x), current, i);
      Seqs.Filter(x => IsNot(key, x), current)
    else
      current + [key]
  }

  /** A toggle empties the set exactly when it removes the set's only key. */
  lemma ToggleEmpties(current: seq<string>, key: string)
    requires Seqs.NoDups(current)
    ensures Toggle(current, key) == [] <==> key in current && forall x :: x in current ==> x == key
  {
    var r := Toggle(current, key);
    if key in current && forall x :: x in current ==> x == key {
      assert forall x :: x !in r;
    }
  }

  /** The list sent to the server: `null` instead of an empty list. */
  function NextModules(modules: Option<seq<string>>, key: string): (r: Option<seq<string>>)
    ensures r != Some([])
    // `null` exactly when the click removes the only key the user had
    ensures r.None? <==> key in StartingSet(modules) && forall x :: x in StartingSet(modules) ==> x == key
    ensures r.Some? ==> r.value == Toggle(StartingSet(modules), key)
  {
    var next := Toggle(StartingSet(modules), key);
    ToggleEmpties(StartingSet(modules), key);
    if |next| == 0 then None else Some(next)
  }

  /** The keys a stored override holds. */
  function Members(modules: Option<seq<string>>): (m: set<string>)
    ensures forall x :: x in m <==> modules.Some? && x in modules.value
  {
    if modules.None? then {} else set x | x in modules.value
  }

  /** Toggling flips exactly the chosen key, whatever the stored list looked like. */
  lemma ToggleFlipsOneKey(modules: Option<seq<string>>, key: string)
    ensures key in Members(NextModules(modules, key)) <==> key !in Members(modules)
    ensures forall x :: x != key ==> (x in Members(NextModules(modules, key)) <==> x in Members(modules))
  {
  }

  /** Toggling the same key twice gives back the starting set ... */
  lemma {:induction false} ToggleTwiceRestores(current: seq<string>, key: string)
    requires Seqs.NoDups(current)
    ensures forall x :: x in Toggle(Toggle(current, key), key) <==> x in current
    ensures key !in current ==> Toggle(Toggle(current, key), key) == current
  {
    if key !in current {
      var p := x => IsNot(key, x);
      Seqs.FilterAppend(p, current, [key]);
      Seqs.FilterKeepsAll(p, current);
      assert Seqs.Filter(p, [key]) == [];
    }
  }

  /** ... and so does a second click on the same chip once the first result
      is stored (an emptied list is stored as `null`). */
  lemma ToggleTwiceThroughServer(modules: Option<seq<string>>, key: string)
    ensures Members(NextModules(NextModules(modules, key), key)) == Members(modules)
  {
    var once := NextModules(modules, key);
    ToggleFlipsOneKey(modules, key);
    ToggleFlipsOneKey(once, key);
    forall x
      ensures x in Members(NextModules(once, key)) <==> x in Members(modules)
    {
    }
  }

  /** Removing the last remaining key sends `null`, never an empty list. */
  lemma RemovingLastKeySendsNull(key: string)
    ensures NextModules(Some([key]), key).None?
    ensures NextModules(Some([key, key]), key).None?
  {
    assert Seqs.Dedup([key]) == [key];
    assert Seqs.Dedup([key, key]) == [key] by {
      assert [key, key][..1] == [key];
    }
  }

  /** An absent and an empty override both start from the empty set, so the
      first click sends the clicked key alone. */
  lemma FirstClickSendsOneKey(key: string)
    ensures NextModules(None, key) == Some([key])
    ensures NextModules(Some([]), key) == Some([key])
  {
    assert [] + [key] == [key];
  }

  /** `prev.map(u => u.id === id ? updated : u)`. */
  function ReplaceById(users: seq<User>, id: string, updated: User): (r: seq<User>)
    ensures |r| == |users|
    ensures forall i :: 0 <= i < |users| && users[i].id != id ==> r[i] == users[i]
    ensures forall i :: 0 <= i < |users| && users[i].id == id ==> r[i] == updated
  {
    seq(|users|, i requires 0 <= i < |users| => if users[i].id == id then updated else users[i])
  }

  /** An id nobody has leaves the list as it was. */
  lemma ReplaceUnknownIdIsIdentity(users: seq<User>, id: string, updated: User)
    requires forall i :: 0 <= i < |users| ==> users[i].id != id
    ensures ReplaceById(users, id, updated) == users
  {
  }

  /** Replacing with a record that keeps its id keeps every id in place. */
  lemma ReplaceKeepsIds(users: seq<User>, updated: User, i: nat)
    requires i < |users|
    ensures ReplaceById(users, updated.id, updated)[i].id == users[i].id
  {
  }

  predicate HasRoleAdmin(u: User)
  {
    u.role == AdminRole
  }

  predicate HasRoleClient(u: User)
  {
    u.role == ClientRole
  }

  /** The header counts: total, admins and clients. */
  datatype Counts = Counts(totalUsers: nat, admins: nat, clients: nat)

  function RoleCounts(users: seq<User>): (c: Counts)
    ensures c.totalUsers == |users|
    ensures c.admins <= c.totalUsers && c.clients <= c.totalUsers
    ensures users == [] ==> c.admins == 0 && c.clients == 0
  {
    Counts(|users|, |Seqs.Filter(HasRoleAdmin, users)|, |Seqs.Filter(HasRoleClient, users)|)
  }

  /** One more user adds one to the admins exactly when their role is
      `admin`, and one to the clients exactly when it is `client`. */
  lemma RoleCountsStep(users: seq<User>, u: User)
    ensures RoleCounts(users + [u]).totalUsers == RoleCounts(users).totalUsers + 1
    ensures RoleCounts(users + [u]).admins == RoleCounts(users).admins + (if u.role == AdminRole then 1 else 0)
    ensures RoleCounts(users + [u]).clients == RoleCounts(users).clients + (if u.role == ClientRole then 1 else 0)
  {
    Seqs.FilterLengthSnoc(HasRoleAdmin, users, u);
    Seqs.FilterLengthSnoc(HasRoleClient, users, u);
  }

  /** No user is counted both as an admin and as a client. */
  lemma AdminsAndClientsAreDisjoint(users: seq<User>)
    ensures RoleCounts(users).admins + RoleCounts(users).clients <= RoleCounts(users).totalUsers
  {
    Seqs.DisjointFilterLengths(HasRoleAdmin, HasRoleClient, users);
  }

  /** `activeModules.has(key)`: the chip is lit when the key is among the
      user's non-empty module entries. */
  function ChipChecked(u: User, key: string): (checked: bool)
    ensures checked <==> key != "" && u.modules.Some? && key in u.modules.value
  {
    var active := if u.modules.Some? then Seqs.Filter(Text.Truthy, u.modules.value) else [];
    key in active
  }

  /** Clicking a chip and storing the server's echo of the sent list lights
      that chip exactly when it was dark, and leaves every other chip alone. */
  lemma ClickFlipsOnlyThatChip(u: User, key: string, other: string)
    requires key != ""
    ensures var after := u.(modules := NextModules(u.modules, key));
            && (ChipChecked(after, key) <==> !ChipChecked(u, key))
            && (other != key ==> (ChipChecked(after, other) <==> ChipChecked(u, other)))
  {
    ToggleFlipsOneKey(u.modules, key);
  }

  /** The users page state. */
  class Page {
    var users: seq<User>
    var loading: bool
    var error: Option<string>
    var savingUserId: Option<string>

    constructor ()
      ensures users == [] && loading && error.None? && savingUserId.None?
    {
      users := [];
      loading := true;
      error := None;
      savingUserId := None;
    }

    /** The mount effect: the fetched list, or the error's message (or a
        default); loading ends either way. */
    method LoadUsers(reply: Result<seq<User>>)
      modifies this
      ensures !loading && savingUserId == old(savingUserId)
      ensures reply.Success? ==> users == reply.value && error.None?
      ensures reply.Failure? ==> users == old(users) && error == Some(Text.Or(reply.message, LoadFailedMessage))
    {
      loading := true;
      error := None;
      if reply.Success? {
        users := reply.value;
      } else {
        error := Some(Text.Or(reply.message, LoadFailedMessage));
      }
      loading := false;
    }

    /** `handleToggleModule`: works on a fresh set built from the user's
        list, sends the toggled list (or `null`), and on success replaces the
        user with the matching id by the server's record. */
    method HandleToggleModule(user: User, moduleKey: string, reply: Result<User>) returns (sent: Option<seq<string>>)
      modifies this
      ensures sent == NextModules(user.modules, moduleKey)
      ensures reply.Success? ==> users == ReplaceById(old(users), user.id, reply.value) && error.None?
      ensures reply.Failure? ==> users == old(users) && error == Some(Text.Or(reply.message, UpdateFailedMessage))
      ensures savingUserId.None? && loading == old(loading)
    {
      var currentModules := StartingSet(user.modules);
      if moduleKey in currentModules {
        currentModules := Seqs.Filter(x => IsNot(moduleKey, x), currentModules);
      } else {
        currentModules := currentModules + [moduleKey];
      }
      sent := if |currentModules| == 0 then None else Some(currentModules);
      savingUserId := Some(user.id);
      error := None;
      if reply.Success? {
        users := ReplaceById(users, user.id, reply.value);
      } else {
        error := Some(Text.Or(reply.message, UpdateFailedMessage));
      }
      savingUserId := None;
    }
  }
}
