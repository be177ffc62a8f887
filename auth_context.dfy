/** The session store (src/contexts/AuthContext.tsx): four pieces of state, restored from
    `localStorage` when the provider mounts, set by `login` and cleared by `logout`. */
module AuthContext {
  import opened Js
  import opened AuthService

  /** The observable session: `isAuthenticated`, `userRole`, `userId` and `username`. */
  datatype Session = Session(isAuthenticated: bool, userRole: Option<string>, userId: Option<string>, username: Option<string>)

  /** The initial state, and the state after `logout`. */
  const SignedOut: Session := Session(false, None, None, None)

  /** What the restore effect does with the stored entries. */
  datatype RestoreOutcome =
    | NothingStored            // one of `token`, `role`, `user` is missing or empty: no change
    | Restored(session: Session)
    | UnreadableUser           // `JSON.parse` of `user` throws before any state is set

  /** The restore effect's reading of the store. */
  function RestoreFrom(m: map<string, string>): (r: RestoreOutcome)
    // The store is read only when all three entries are present and non-empty ...
    ensures r != NothingStored <==>
      TokenKey in m && m[TokenKey] != "" && RoleKey in m && m[RoleKey] != "" && UserKey in m && m[UserKey] != ""
    // ... and then the session is restored exactly when the `user` entry parses.
    ensures r.Restored? <==>
      TokenKey in m && m[TokenKey] != "" && RoleKey in m && m[RoleKey] != "" && UserKey in m && m[UserKey] != ""
      && DecodeUser(m[UserKey]).Some?
    // The role comes from the `role` entry, the id and name from the parsed `user` entry.
    ensures r.Restored? ==>
      r.session.isAuthenticated && r.session.userRole == Some(m[RoleKey]) &&
      DecodeUser(m[UserKey]).Some? &&
      r.session.userId == Some(DecodeUser(m[UserKey]).value.userId) &&
      r.session.username == Some(DecodeUser(m[UserKey]).value.username)
  {
    var token, role, user := Lookup(m, TokenKey), Lookup(m, RoleKey), Lookup(m, UserKey);
    if Truthy(token) && Truthy(role) && Truthy(user) then
      match DecodeUser(user.value)
      case None => UnreadableUser
      case Some(u) => Restored(Session(true, role, Some(u.userId), Some(u.username)))
    else
      NothingStored
  }

  /** The session a successful login sets from the backend's response. */
  function SessionOf(r: AuthResponse): Session
  {
    Session(true, Some(r.role), Some(r.userId), Some(r.username))
  }

  /** The store after a successful login: `token`, then `role`, then `user` written. */
  function StorageAfterLogin(m: map<string, string>, r: AuthResponse): map<string, string>
  {
    m[TokenKey := r.token][RoleKey := r.role][UserKey := EncodeUser(StoredUser(r.userId, r.username, r.role))]
  }

  /** The session and the store tell the same story: signed out with nothing set, or signed
      in with the stored role and a stored identity carrying the same id and name. */
  predicate Agrees(s: Session, m: map<string, string>)
  {
    && (!s.isAuthenticated ==> s == SignedOut)
    && (s.isAuthenticated ==>
          && s.userRole.Some? && s.userId.Some? && s.username.Some?
          && TokenKey in m && RoleKey in m && m[RoleKey] == s.userRole.value
          && UserKey in m && DecodeUser(m[UserKey]).Some?
          && DecodeUser(m[UserKey]).value.userId == s.userId.value
          && DecodeUser(m[UserKey]).value.username == s.username.value)
  }

  /** After a successful login the in-memory session agrees with the store. */
  lemma LoginAgrees(m: map<string, string>, r: AuthResponse)
    ensures Agrees(SessionOf(r), StorageAfterLogin(m, r))
  {
    DecodeEncodeUser(StoredUser(r.userId, r.username, r.role));
  }

  /** Reloading the page after a successful login restores the same session, provided the
      backend's token and role are non-empty (an empty one is falsy and skips the restore). */
  lemma RestoreAfterLogin(m: map<string, string>, r: AuthResponse)
    ensures RestoreFrom(StorageAfterLogin(m, r)) ==
      if r.token != "" && r.role != "" then Restored(SessionOf(r)) else NothingStored
  {
    DecodeEncodeUser(StoredUser(r.userId, r.username, r.role));
  }

  /** A restored session agrees with the store it was read from. */
  lemma RestoredAgrees(m: map<string, string>)
    requires RestoreFrom(m).Restored?
    ensures Agrees(RestoreFrom(m).session, m)
  {
  }

  /** Reloading the page after a logout restores nothing. */
  lemma RestoreAfterLogout(m: map<string, string>)
    ensures RestoreFrom(WithoutSession(m)) == NothingStored
  {
  }

  /** `AuthProvider`: the session state beside the `localStorage` it persists to. */
  class AuthProvider {
    var isAuthenticated: bool
    var userRole: Option<string>
    var userId: Option<string>
    var username: Option<string>
    const storage: LocalStorage

    function State(): Session
      reads this
    {
      Session(isAuthenticated, userRole, userId, username)
    }

    predicate Valid()
      reads this, storage
    {
      Agrees(State(), storage.items)
    }

    /** The provider mounts signed out, whatever the store holds. */
    constructor(storage: LocalStorage)
      ensures this.storage == storage
      ensures State() == SignedOut
      ensures Valid()
    {
      this.storage := storage;
      isAuthenticated := false;
      userRole := None;
      userId := None;
      username := None;
    }

    /** The mount effect: read the three entries and parse `user` (`RestoreFrom`), then adopt
        the stored session when there is one. */
    method Restore() returns (outcome: RestoreOutcome)
      modifies this
      ensures outcome.Restored? || old(Valid()) ==> Valid()
      ensures outcome == RestoreFrom(storage.items)
      ensures State() == if outcome.Restored? then outcome.session else old(State())
    {
      outcome := RestoreFrom(storage.items);
      if outcome.Restored? {
        RestoredAgrees(storage.items);
        isAuthenticated := true;
        userRole := outcome.session.userRole;
        userId := outcome.session.userId;
        username := outcome.session.username;
      }
    }

    /** `login`: post the credentials to the endpoint for `userType`; when the call resolves,
        persist token, role and identity and then set the session; when it rejects, rethrow
        (`succeeded` false) with nothing changed, since every write follows the awaited call. */
    method Login(userType: UserType, name: string, password: string, reply: Reply<AuthResponse>)
      returns (call: Post<LoginRequest>, succeeded: bool)
      modifies this, storage
      ensures reply.Ok? || old(Valid()) ==> Valid()
      ensures call == Post(LoginPath(userType), LoginRequest(name, password))
      ensures succeeded == reply.Ok?
      ensures reply.Ok? ==>
        State() == SessionOf(reply.data) && storage.items == StorageAfterLogin(old(storage.items), reply.data)
      ensures reply.Failed? ==> State() == old(State()) && storage.items == old(storage.items)
    {
      call := Post(LoginPath(userType), LoginRequest(name, password));
      match reply
      case Failed =>
        succeeded := false;
      case Ok(response) =>
        SaveToken(storage, response.token);
        SaveRole(storage, response.role);
        SaveUser(storage, StoredUser(response.userId, response.username, response.role));
        isAuthenticated := true;
        userRole := Some(response.role);
        userId := Some(response.userId);
        username := Some(response.username);
        succeeded := true;
        assert storage.items == StorageAfterLogin(old(storage.items), response);
        assert State() == SessionOf(response);
        LoginAgrees(old(storage.items), response);
    }

    /** `logout`: clear the three entries, then reset the session, whatever it was. */
    method Logout()
      modifies this, storage
      ensures Valid()
      ensures State() == SignedOut
      ensures storage.items == WithoutSession(old(storage.items))
    {
      AuthService.Logout(storage);
      isAuthenticated := false;
      userRole := None;
      userId := None;
      username := None;
    }
  }
}
