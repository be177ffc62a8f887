/** The authentication service (src/services/authService.ts): the login and registration
    endpoints, and the three session entries it keeps in the browser's `localStorage`. */
module AuthService {
  import opened Js

  /** The kinds of account one can sign in as. */
  datatype UserType = PatientUser | DoctorUser | AdminUser

  function UserTypeName(t: UserType): string
  {
    match t
    case PatientUser => "patient"
    case DoctorUser => "doctor"
    case AdminUser => "admin"
  }

  datatype LoginRequest = LoginRequest(username: string, password: string)
  datatype RegisterRequest = RegisterRequest(username: string, password: string, email: string, fullName: string)
  datatype AuthResponse = AuthResponse(token: string, role: string, userId: string, username: string)

  /** A POST the service sends: the endpoint path and the body. */
  datatype Post<T> = Post(path: string, body: T)

  const AuthenticatePrefix: string := "/authenticate/"
  const RegisterPath: string := "/users/register"

  /** The endpoint `login` posts the credentials to: `/authenticate/` and the account kind. */
  function LoginPath(t: UserType): (p: string)
    ensures |AuthenticatePrefix| < |p| && p[..|AuthenticatePrefix|] == AuthenticatePrefix
    ensures p[|AuthenticatePrefix|..] == UserTypeName(t)
  {
    AuthenticatePrefix + UserTypeName(t)
  }

  /** Each kind of account has its own login endpoint. */
  lemma LoginPathsDistinct(a: UserType, b: UserType)
    ensures LoginPath(a) == LoginPath(b) <==> a == b
  {
    if LoginPath(a) == LoginPath(b) {
      assert UserTypeName(a) == LoginPath(a)[|AuthenticatePrefix|..] == UserTypeName(b);
      assert |UserTypeName(a)| == |UserTypeName(b)|;
    }
  }

  // ---------------------------------------------------------------------------
  // The stored identity. `saveUser` keeps `JSON.stringify(user)` under the `user` key and
  // `getCurrentUser` reads it back with `JSON.parse`. The model writes the JSON text of the
  // three-field object for strings without control characters (escaping only '"' and '\'),
  // and reads back exactly the shape it writes.

  /** The object `login` stores under the `user` key. */
  datatype StoredUser = StoredUser(userId: string, username: string, role: string)

  /** The body of a JSON string literal for `s`: '"' and '\' are preceded by '\'. */
  function Escape(s: string): string
    decreases |s|
  {
    if s == [] then []
    else (if s[0] == '"' || s[0] == '\\' then ['\\', s[0]] else [s[0]]) + Escape(s[1..])
  }

  /** The JSON string literal for `s`. */
  function Quote(s: string): string
  {
    "\"" + Escape(s) + "\""
  }

  /** Reads the body of a JSON string literal up to its closing quote, undoing the escapes
      `\"` and `\\`; gives the text and what follows the closing quote, or `None` when the
      quote never comes or a backslash is followed by anything else. */
  function ReadString(s: string): (r: Option<(string, string)>)
    // What follows the closing quote is a proper suffix of the input.
    ensures r.Some? ==> |r.value.1| < |s| && r.value.1 == s[|s| - |r.value.1|..]
    decreases |s|
  {
    if s == [] then None
    else if s[0] == '"' then Some(([], s[1..]))
    else if s[0] == '\\' then
      if |s| < 2 || (s[1] != '"' && s[1] != '\\') then None
      else match ReadString(s[2..])
        case None => None
        case Some((text, rest)) => Some(([s[1]] + text, rest))
    else match ReadString(s[1..])
      case None => None
      case Some((text, rest)) => Some(([s[0]] + text, rest))
  }

  /** Reading an escaped body back gives the original text and leaves the rest untouched. */
  lemma {:induction false} ReadEscaped(x: string, rest: string)
    ensures ReadString(Escape(x) + "\"" + rest) == Some((x, rest))
    decreases |x|
  {
    if x == [] {
      assert Escape(x) + "\"" + rest == ['"'] + rest;
      assert (['"'] + rest)[1..] == rest;
    } else {
      ReadEscaped(x[1..], rest);
      var tail := Escape(x[1..]) + "\"" + rest;
      if x[0] == '"' || x[0] == '\\' {
        assert Escape(x) + "\"" + rest == ['\\', x[0]] + tail;
        assert (['\\', x[0]] + tail)[2..] == tail;
      } else {
        assert Escape(x) + "\"" + rest == [x[0]] + tail;
        assert ([x[0]] + tail)[1..] == tail;
      }
      assert [x[0]] + x[1..] == x;
    }
  }

  /** Strips the literal text `lit` from the front of `s`. */
  function Expect(lit: string, s: string): Option<string>
  {
    if |lit| <= |s| && s[..|lit|] == lit then Some(s[|lit|..]) else None
  }

  /** Reads the literal text `lit` followed by a JSON string literal. */
  function ReadField(lit: string, s: string): (r: Option<(string, string)>)
    ensures r.Some? ==> |lit| < |s| && s[..|lit|] == lit
    ensures r.Some? && lit != [] ==> s[0] == lit[0]
    ensures r.Some? ==> |r.value.1| < |s|
    ensures r.Some? && r.value.1 != [] ==> s[|s| - 1] == r.value.1[|r.value.1| - 1]
  {
    match Expect(lit + "\"", s)
    case None => None
    case Some(body) => ReadString(body)
  }

  lemma ReadFieldOf(lit: string, x: string, rest: string)
    ensures ReadField(lit, lit + Quote(x) + rest) == Some((x, rest))
  {
    var s := lit + Quote(x) + rest;
    assert s == (lit + "\"") + (Escape(x) + "\"" + rest);
    assert s[..|lit| + 1] == lit + "\"";
    assert s[|lit| + 1..] == Escape(x) + "\"" + rest;
    ReadEscaped(x, rest);
  }

  const UserIdField: string := "{\"userId\":"
  const UsernameField: string := ",\"username\":"
  const RoleField: string := ",\"role\":"

  /** `JSON.stringify({userId, username, role})` for strings without control characters
      (which `JSON.stringify` would escape and `Escape` writes unchanged). */
  function EncodeUser(u: StoredUser): (s: string)
    ensures s != "" && s[0] == '{' && s[|s| - 1] == '}'
  {
    UserIdField + Quote(u.userId) + UsernameField + Quote(u.username) + RoleField + Quote(u.role) + "}"
  }

  /** `JSON.parse` of a stored identity; `None` unless the text has exactly the shape
      `EncodeUser` writes, so also for some valid JSON spelled otherwise. */
  function DecodeUser(s: string): (r: Option<StoredUser>)
    // Only the text of a JSON object parses; in particular an empty entry does not.
    ensures r.Some? ==> |s| >= 2 && s[0] == '{' && s[|s| - 1] == '}'
  {
    match ReadField(UserIdField, s)
    case None => None
    case Some((userId, r1)) =>
      match ReadField(UsernameField, r1)
      case None => None
      case Some((username, r2)) =>
        match ReadField(RoleField, r2)
        case None => None
        case Some((role, r3)) =>
          if r3 == "}" then
            assert r3[|r3| - 1] == '}';
            assert r2 != [] && r2[|r2| - 1] == '}';
            assert r1 != [] && r1[|r1| - 1] == '}';
            Some(StoredUser(userId, username, role))
          else None
  }

  /** Whatever identity is stored is read back unchanged. */
  lemma {:induction false} DecodeEncodeUser(u: StoredUser)
    ensures DecodeUser(EncodeUser(u)) == Some(u)
  {
    var tail2 := RoleField + Quote(u.role) + "}";
    var tail1 := UsernameField + Quote(u.username) + tail2;
    assert EncodeUser(u) == UserIdField + Quote(u.userId) + tail1;
    ReadFieldOf(UserIdField, u.userId, tail1);
    assert UsernameField + Quote(u.username) + tail2 == tail1;
    ReadFieldOf(UsernameField, u.username, tail2);
    ReadFieldOf(RoleField, u.role, "}");
  }

  // ---------------------------------------------------------------------------
  // The storage itself.

  /** The browser's `localStorage`: a string-to-string key/value store. */
  class LocalStorage {
    var items: map<string, string>

    constructor(initial: map<string, string>)
      ensures items == initial
    {
      items := initial;
    }

    method GetItem(key: string) returns (v: Option<string>)
      ensures v == Lookup(items, key)
    {
      v := if key in items then Some(items[key]) else None;
    }

    method SetItem(key: string, value: string)
      modifies this
      ensures items == old(items)[key := value]
    {
      items := items[key := value];
    }

    method RemoveItem(key: string)
      modifies this
      ensures items == old(items) - {key}
    {
      items := items - {key};
    }
  }

  const TokenKey: string := "token"
  const UserKey: string := "user"
  const RoleKey: string := "role"

  /** The store once the three session entries are gone and every other entry is kept. */
  function WithoutSession(m: map<string, string>): (r: map<string, string>)
    ensures r.Keys == m.Keys - {TokenKey, UserKey, RoleKey}
    ensures forall k :: k in r ==> r[k] == m[k]
  {
    m - {TokenKey, UserKey, RoleKey}
  }

  /** Signing out twice leaves the store as signing out once. */
  lemma WithoutSessionIdempotent(m: map<string, string>)
    ensures WithoutSession(WithoutSession(m)) == WithoutSession(m)
  {
  }

  /** `logout`: removes `token`, `user` and `role`, in that order. */
  method Logout(storage: LocalStorage)
    modifies storage
    ensures storage.items == WithoutSession(old(storage.items))
  {
    storage.RemoveItem(TokenKey);
    storage.RemoveItem(UserKey);
    storage.RemoveItem(RoleKey);
    assert storage.items == old(storage.items) - {TokenKey} - {UserKey} - {RoleKey};
  }

  /** `saveToken`: writes the `token` entry and nothing else. */
  method SaveToken(storage: LocalStorage, token: string)
    modifies storage
    ensures storage.items == old(storage.items)[TokenKey := token]
  {
    storage.SetItem(TokenKey, token);
  }

  /** `saveUser`: writes the serialised identity under `user` and nothing else. */
  method SaveUser(storage: LocalStorage, user: StoredUser)
    modifies storage
    ensures storage.items == old(storage.items)[UserKey := EncodeUser(user)]
  {
    storage.SetItem(UserKey, EncodeUser(user));
  }

  /** `saveRole`: writes the `role` entry and nothing else. */
  method SaveRole(storage: LocalStorage, role: string)
    modifies storage
    ensures storage.items == old(storage.items)[RoleKey := role]
  {
    storage.SetItem(RoleKey, role);
  }

  /** What `getCurrentUser` finds: `null` when no (or an empty) `user` entry is stored, the
      parsed identity, or a parse failure (the source throws there). */
  datatype UserLookup = NoUser | CurrentUser(user: StoredUser) | UnparsableUser

  function CurrentUserIn(m: map<string, string>): (r: UserLookup)
    ensures UserKey !in m ==> r == NoUser
    // `null` exactly for a missing or empty entry ...
    ensures r == NoUser <==> !Truthy(Lookup(m, UserKey))
    // ... and otherwise the parse of the entry, or its failure.
    ensures Truthy(Lookup(m, UserKey)) ==> (r == UnparsableUser <==> DecodeUser(m[UserKey]).None?)
    ensures r.CurrentUser? ==> UserKey in m && DecodeUser(m[UserKey]) == Some(r.user)
  {
    var user := Lookup(m, UserKey);
    if !Truthy(user) then NoUser
    else match DecodeUser(user.value)
      case None => UnparsableUser
      case Some(u) => CurrentUser(u)
  }

  /** `getCurrentUser`. */
  method GetCurrentUser(storage: LocalStorage) returns (r: UserLookup)
    ensures r == CurrentUserIn(storage.items)
  {
    var user := storage.GetItem(UserKey);
    if !Truthy(user) {
      r := NoUser;
    } else {
      match DecodeUser(user.value)
      case None => r := UnparsableUser;
      case Some(u) => r := CurrentUser(u);
    }
  }

  /** `saveUser(u)` followed by `getCurrentUser()` gives `u` back, whatever was stored before. */
  lemma SavedUserIsCurrent(m: map<string, string>, u: StoredUser)
    ensures CurrentUserIn(m[UserKey := EncodeUser(u)]) == CurrentUser(u)
  {
    DecodeEncodeUser(u);
  }
}
