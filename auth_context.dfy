/** The session store: the logged-in user and the loading flag, the role
    predicates every consumer calls, and the transitions that fill or clear
    the session over the token storage. */
module AuthContext {
  import opened Wrappers
  import Api

  const SuperAdminRole := "super_admin"
  const AdminRole := "admin"
  const ClientRole := "client"
  const UserRole := "user"

  /** The profile the backend returns. The role is kept as the backend's
      string: nothing normalises its case. */
  datatype User = User(id: string, email: string, name: string, role: string, modules: Option<seq<string>>)

  /** The argument of `hasRole`: one role or a list of roles. */
  datatype RoleQuery = One(role: string) | AnyOf(roles: seq<string>)

  function Accepted(q: RoleQuery): seq<string>
  {
    match q
    case One(r) => [r]
    case AnyOf(rs) => rs
  }

  /** `hasRole(roles)`: the user's role is one of the accepted roles, by
      exact string comparison; no role is exempt. */
  function HasRole(user: Option<User>, q: RoleQuery): (r: bool)
    ensures r <==> user.Some? && user.value.role in Accepted(q)
  {
    if user.None? then false
    else match q
      case AnyOf(rs) => user.value.role in rs
      case One(x) => user.value.role == x
  }

  function IsAdmin(user: Option<User>): (r: bool)
    ensures r <==> user.Some? && user.value.role == AdminRole
  {
    HasRole(user, One(AdminRole))
  }

  function IsClient(user: Option<User>): (r: bool)
    ensures r <==> user.Some? && user.value.role == ClientRole
  {
    HasRole(user, One(ClientRole))
  }

  function IsAuthenticated(user: Option<User>): (r: bool)
    ensures r <==> user.Some?
  {
    user.Some?
  }

  /** `hasRole` does not let `super_admin` through a list that does not name it. */
  lemma NoSuperAdminBypass(u: User, roles: seq<string>)
    requires u.role == SuperAdminRole && SuperAdminRole !in roles
    ensures !HasRole(Some(u), AnyOf(roles))
  {
  }

  /** Role comparison is case-sensitive: a backend role "Admin" is not an admin. */
  lemma RoleCaseMatters(u: User)
    requires u.role == "Admin"
    ensures !IsAdmin(Some(u)) && !HasRole(Some(u), AnyOf([AdminRole, ClientRole]))
  {
  }

  /** A role accepted by a list is accepted by every longer list. */
  lemma HasRoleWidens(user: Option<User>, rs: seq<string>, more: seq<string>)
    requires HasRole(user, AnyOf(rs))
    ensures HasRole(user, AnyOf(rs + more)) && HasRole(user, AnyOf(more + rs))
  {
  }

  /** What `getProfileApi` yields: the backend answers for the access token in
      storage at the time of the call; without a usable token it refuses. */
  function ProfileFor(directory: map<string, User>, token: Option<string>): (p: Option<User>)
    ensures p.Some? ==> Api.Truthy(token) && token.value in directory && p.value == directory[token.value]
    ensures Api.Truthy(token) && token.value in directory ==> p.Some?
  {
    if Api.Truthy(token) && token.value in directory then Some(directory[token.value]) else None
  }

  /** What `login` gets from `loginApi`. */
  datatype LoginResponse = LoginResponse(accessToken: string, refreshToken: Option<string>)

  /** `AuthProvider`'s state. `directory` stands for the backend's
      `/auth/profile` endpoint. */
  class AuthProvider {
    var user: Option<User>
    var loading: bool
    const storage: Api.TokenStore

    constructor (storage: Api.TokenStore)
      ensures user.None? && loading && this.storage == storage
    {
      this.storage := storage;
      user := None;
      loading := true;
    }

    /** `loadUser`: on success the profile becomes the session; on failure
        only the access token is removed and the session is emptied. Loading
        ends either way. */
    method LoadUser(directory: map<string, User>)
      modifies this, storage
      ensures !loading
      ensures var fetched := ProfileFor(directory, old(storage.GetAccessToken()));
              && user == fetched
              && storage.items == if fetched.Some? then old(storage.items) else old(storage.items) - {Api.AccessTokenKey}
      ensures storage.GetRefreshToken() == old(storage.GetRefreshToken())
    {
      var profile := ProfileFor(directory, storage.GetAccessToken());
      if profile.Some? {
        user := profile;
      } else {
        storage.items := storage.items - {Api.AccessTokenKey};
        user := None;
      }
      loading := false;
    }

    /** The mount effect: fetch the profile only when an access token is stored. */
    method Initialize(directory: map<string, User>) returns (fetched: bool)
      modifies this, storage
      ensures !loading
      ensures fetched <==> Api.Truthy(old(storage.GetAccessToken()))
      ensures !fetched ==> user == old(user) && storage.items == old(storage.items)
      ensures fetched ==>
                var profile := ProfileFor(directory, old(storage.GetAccessToken()));
                && user == profile
                && storage.items == if profile.Some? then old(storage.items) else old(storage.items) - {Api.AccessTokenKey}
      ensures storage.GetRefreshToken() == old(storage.GetRefreshToken())
    {
      var token := storage.GetAccessToken();
      if Api.Truthy(token) {
        LoadUser(directory);
        fetched := true;
      } else {
        loading := false;
        fetched := false;
      }
    }

    /** `login`: a rejected `loginApi` propagates before any state changes;
        otherwise the tokens are stored first, the profile is then loaded with
        the new access token, and the app navigates to the dashboard. */
    method Login(reply: Result<LoginResponse>, directory: map<string, User>) returns (outcome: Result<string>)
      modifies this, storage
      ensures reply.Failure? ==>
                outcome == Failure(reply.message) && user == old(user) && loading == old(loading)
                && storage.items == old(storage.items)
      ensures reply.Success? ==>
                var data := reply.value;
                var stored := Api.WithTokens(old(storage.items), data.accessToken, data.refreshToken);
                && outcome == Success("/dashboard")
                && !loading
                && user == ProfileFor(directory, Some(data.accessToken))
                && storage.items == if user.Some? then stored else stored - {Api.AccessTokenKey}
    {
      if reply.Failure? {
        outcome := Failure(reply.message);
        return;
      }
      var data := reply.value;
      storage.SetAuthTokens(data.accessToken, data.refreshToken);
      LoadUser(directory);
      outcome := Success("/dashboard");
    }

    /** `logout`: the best-effort logout request is built while the refresh
        token is still stored; then both tokens are cleared, the session is
        emptied and the app navigates to the login page. */
    method Logout() returns (logoutBody: Option<map<string, string>>, navigation: string)
      modifies this, storage
      ensures Api.Truthy(old(storage.GetRefreshToken())) ==>
                logoutBody == Some(map[Api.RefreshTokenKey := old(storage.GetRefreshToken()).value])
      ensures !Api.Truthy(old(storage.GetRefreshToken())) ==> logoutBody.None?
      ensures storage.items == Api.Cleared(old(storage.items))
      ensures user.None? && loading == old(loading)
      ensures navigation == "/login"
    {
      logoutBody := Api.LogoutBody(storage, None);
      storage.ClearAuthTokens();
      user := None;
      navigation := "/login";
    }
  }
}
