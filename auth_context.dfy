/** The demo authentication provider: one hard-coded administrator, the
    signed-in user held in state and mirrored under one key of the
    browser's local storage, restored from there when the provider mounts. */
module AuthContext {
  import opened Values

  /** The user record the provider keeps (it never holds the password). */
  datatype User = User(username: string, role: string)

  const AdminUsername: string := "admin"
  const AdminPassword: string := "password123"
  const AdminRole: string := "admin"

  /** The one user a successful login produces. */
  const Admin: User := User(AdminUsername, AdminRole)

  /** The local-storage key the signed-in user is kept under. */
  const StorageKey: string := "finsentinal_user"

  // ---------------------------------------------------------------------
  // The stored text
  // ---------------------------------------------------------------------

  /** Text that `JSON.stringify` writes between quotes unchanged. */
  predicate PlainText(s: string) {
    forall i :: 0 <= i < |s| ==> s[i] != '"' && s[i] != '\\' && s[i] >= ' '
  }

  const UserPrefix: string := "{\"username\":\""
  const UserMiddle: string := "\",\"role\":\""
  const UserSuffix: string := "\"}"

  /** `JSON.stringify({username, role})`. */
  function EncodeUser(u: User): (s: string)
    ensures |s| == |UserPrefix| + |u.username| + |UserMiddle| + |u.role| + |UserSuffix|
    ensures s[..|UserPrefix|] == UserPrefix && s[|s| - |UserSuffix|..] == UserSuffix
  {
    UserPrefix + u.username + UserMiddle + u.role + UserSuffix
  }

  /** The length of the longest prefix of `s` without a double quote. */
  function QuoteFreeRun(s: string): (k: nat)
    ensures k <= |s|
    ensures forall i :: 0 <= i < k ==> s[i] != '"'
    ensures k < |s| ==> s[k] == '"'
  {
    if s == [] || s[0] == '"' then 0 else 1 + QuoteFreeRun(s[1..])
  }

  /** `JSON.parse` of exactly the texts `EncodeUser` writes: the compact
      object with `username` then `role`, each a string without escapes.
      Every other text gives None; what `JSON.parse` makes of it is a
      parameter of the mount effect (see `Parsed`). */
  function DecodeUser(s: string): (r: Option<User>)
    ensures r.Some? ==> PlainText(r.value.username) && PlainText(r.value.role) && EncodeUser(r.value) == s
  {
    if |s| < |UserPrefix| || s[..|UserPrefix|] != UserPrefix then None
    else
      var rest := s[|UserPrefix|..];
      var n := QuoteFreeRun(rest);
      var tail := rest[n..];
      if |tail| < |UserMiddle| || tail[..|UserMiddle|] != UserMiddle then None
      else
        var rest2 := tail[|UserMiddle|..];
        var m := QuoteFreeRun(rest2);
        if rest2[m..] != UserSuffix || !PlainText(rest[..n]) || !PlainText(rest2[..m]) then None
        else
          var u := User(rest[..n], rest2[..m]);
          EncodeOfPieces(s, rest, tail, rest2, u);
          Some(u)
  }

  lemma {:induction false} QuoteFreeRunOfPlain(x: string, y: string)
    requires PlainText(x) && |y| > 0 && y[0] == '"'
    ensures QuoteFreeRun(x + y) == |x|
    decreases |x|
  {
    if x == [] {
      assert x + y == y;
    } else {
      var z := x + y;
      assert z[0] == x[0] && x[0] != '"';
      assert z[1..] == x[1..] + y;
      assert PlainText(x[1..]) by {
        forall i | 0 <= i < |x| - 1
          ensures x[1..][i] != '"' && x[1..][i] != '\\' && x[1..][i] >= ' '
        {
          assert x[1..][i] == x[i + 1];
        }
      }
      QuoteFreeRunOfPlain(x[1..], y);
    }
  }

  lemma SplitConcat(a: string, b: string)
    ensures (a + b)[..|a|] == a && (a + b)[|a|..] == b
  {
  }

  /** What the provider writes, it reads back. */
  lemma {:induction false} DecodeEncodeUser(u: User)
    requires PlainText(u.username) && PlainText(u.role)
    ensures DecodeUser(EncodeUser(u)) == Some(u)
  {
    var rest2 := u.role + UserSuffix;
    var tail := UserMiddle + rest2;
    var rest := u.username + tail;
    var s := UserPrefix + rest;
    assert EncodeUser(u) == s;
    SplitConcat(UserPrefix, rest);
    SplitConcat(u.username, tail);
    SplitConcat(UserMiddle, rest2);
    SplitConcat(u.role, UserSuffix);
    QuoteFreeRunOfPlain(u.username, tail);
    QuoteFreeRunOfPlain(u.role, UserSuffix);
  }

  lemma EncodeOfPieces(s: string, rest: string, tail: string, rest2: string, u: User)
    requires |UserPrefix| <= |s| && s[..|UserPrefix|] == UserPrefix && rest == s[|UserPrefix|..]
    requires |u.username| <= |rest| && rest[..|u.username|] == u.username && tail == rest[|u.username|..]
    requires |UserMiddle| <= |tail| && tail[..|UserMiddle|] == UserMiddle && rest2 == tail[|UserMiddle|..]
    requires |u.role| <= |rest2| && rest2[..|u.role|] == u.role && rest2[|u.role|..] == UserSuffix
    ensures EncodeUser(u) == s
  {
    Rejoin(rest2, |u.role|, u.role);
    Rejoin(tail, |UserMiddle|, UserMiddle);
    Rejoin(rest, |u.username|, u.username);
    Rejoin(s, |UserPrefix|, UserPrefix);
    assert s == UserPrefix + (u.username + (UserMiddle + (u.role + UserSuffix)));
  }

  lemma Rejoin(s: string, k: nat, a: string)
    requires k <= |s| && s[..k] == a
    ensures s == a + s[k..]
  {
  }

  // ---------------------------------------------------------------------
  // The provider's state and its transitions
  // ---------------------------------------------------------------------

  /** `currentUser`, `loading` and the local storage. */
  datatype AuthState = AuthState(currentUser: Option<User>, loading: bool, storage: map<string, string>)

  /** The provider before its mount effect has run. */
  function InitialAuth(storage: map<string, string>): AuthState {
    AuthState(None, true, storage)
  }

  /** The stored text, when the key holds a non-empty one (empty text is
      falsy and is skipped). */
  function StoredText(storage: map<string, string>): (t: Option<string>)
    ensures t.Some? <==> StorageKey in storage && storage[StorageKey] != ""
    ensures t.Some? ==> t.value == storage[StorageKey]
  {
    if StorageKey in storage && storage[StorageKey] != "" then Some(storage[StorageKey]) else None
  }

  /** The stored user, when the stored text is one that login writes. */
  function StoredUser(storage: map<string, string>): (u: Option<User>)
    ensures u.Some? ==> StoredText(storage).Some? && EncodeUser(u.value) == StoredText(storage).value
    ensures u.Some? <==> StoredText(storage).Some? && DecodeUser(StoredText(storage).value).Some?
  {
    match StoredText(storage)
    case None => None
    case Some(t) =>
      var u := DecodeUser(t);
      if u.Some? then u else None
  }

  /** What `JSON.parse` makes of a stored text: a value, or a SyntaxError.
      None stands for a falsy value (`null`, `false`, `0`, `""`), Some(u)
      for any truthy one, `u.role` being its `role` member when that is a
      string and some text other than "admin" when it is missing or not a
      string. */
  datatype Parsed = ParsedValue(value: Option<User>) | ParseError

  /** `JSON.parse(text)`: the texts login writes are decoded exactly;
      `other` is what it gives for every other text. */
  function ParseStored(text: string, other: Parsed): (p: Parsed)
    ensures DecodeUser(text).Some? ==> p == ParsedValue(DecodeUser(text))
    ensures DecodeUser(text).None? ==> p == other
  {
    var u := DecodeUser(text);
    if u.Some? then ParsedValue(u) else other
  }

  /** The mount effect: with a stored text, `setCurrentUser(JSON.parse(text))`,
      then `setLoading(false)`. A text that does not parse throws out of the
      effect before loading is cleared, so nothing changes. `other` is what
      `JSON.parse` gives for a text login does not write. */
  function MountAuth(s: AuthState, other: Parsed): (r: AuthState)
    ensures r.storage == s.storage
    ensures StoredText(s.storage).None? ==> r == s.(loading := false)
    ensures StoredUser(s.storage).Some? ==> r == s.(currentUser := StoredUser(s.storage), loading := false)
    ensures StoredText(s.storage).Some? && StoredUser(s.storage).None? && other.ParsedValue? ==>
      r == s.(currentUser := other.value, loading := false)
    ensures StoredText(s.storage).Some? && StoredUser(s.storage).None? && other.ParseError? ==> r == s
  {
    match StoredText(s.storage)
    case None => s.(loading := false)
    case Some(t) =>
      match ParseStored(t, other)
      case ParseError => s
      case ParsedValue(v) => s.(currentUser := v, loading := false)
  }

  predicate ValidCredentials(username: string, password: string) {
    username == AdminUsername && password == AdminPassword
  }

  /** How a `login` call ends: true, false, or a thrown storage error. */
  datatype LoginOutcome = Accepted | Rejected | Threw

  /** `login(username, password)`; `writable` says whether the storage write
      succeeds. The state is set before the write, so a failed write leaves
      the user signed in without the key. */
  function LoginAuth(s: AuthState, username: string, password: string, writable: bool): (r: (LoginOutcome, AuthState))
    ensures r.0 == Rejected <==> !ValidCredentials(username, password)
    ensures r.0 == Rejected ==> r.1 == s
    ensures r.0 != Rejected ==> r.1.currentUser == Some(Admin) && r.1.loading == s.loading
    ensures r.0 == Threw ==> r.1.storage == s.storage
  {
    if !ValidCredentials(username, password) then (Rejected, s)
    else if writable then (Accepted, s.(currentUser := Some(Admin), storage := s.storage[StorageKey := EncodeUser(Admin)]))
    else (Threw, s.(currentUser := Some(Admin)))
  }

  /** `logout()`. */
  function LogoutAuth(s: AuthState): (r: AuthState)
    ensures r.currentUser == None && StorageKey !in r.storage && r.loading == s.loading
    ensures forall k :: k in s.storage && k != StorageKey ==> k in r.storage && r.storage[k] == s.storage[k]
    ensures r.storage.Keys == s.storage.Keys - {StorageKey}
  {
    AuthState(None, s.loading, s.storage - {StorageKey})
  }

  /** `isAdmin()`: optional chaining makes "no user" not an administrator. */
  predicate IsAdmin(s: AuthState)
    ensures IsAdmin(s) ==> s.currentUser.Some?
    ensures s.currentUser == Some(Admin) ==> IsAdmin(s)
  {
    s.currentUser.Some? && s.currentUser.value.role == AdminRole
  }

  /** `{!loading && children}`. */
  predicate RendersChildren(s: AuthState) {
    !s.loading
  }

  /** Login returns true exactly for the administrator's credentials and a
      writable store, and then signs the administrator in and stores it. */
  lemma LoginSucceedsIff(s: AuthState, username: string, password: string, writable: bool)
    ensures LoginAuth(s, username, password, writable).0 == Accepted
        <==> username == "admin" && password == "password123" && writable
    ensures var (o, r) := LoginAuth(s, username, password, writable);
      o == Accepted ==>
        && r.currentUser == Some(User("admin", "admin"))
        && StorageKey in r.storage && DecodeUser(r.storage[StorageKey]) == Some(User("admin", "admin"))
        && r.loading == s.loading
        && forall k :: k in s.storage && k != StorageKey ==> k in r.storage && r.storage[k] == s.storage[k]
  {
    DecodeEncodeUser(Admin);
  }

  /** Wrong credentials change neither the state nor the storage. */
  lemma FailedLoginChangesNothing(s: AuthState, username: string, password: string, writable: bool)
    requires !ValidCredentials(username, password)
    ensures LoginAuth(s, username, password, writable) == (Rejected, s)
  {
  }

  /** A storage write that throws leaves the administrator signed in for
      this session but not stored. */
  lemma ThrowingLoginKeepsStorage(s: AuthState, username: string, password: string)
    requires ValidCredentials(username, password)
    ensures LoginAuth(s, username, password, false) == (Threw, s.(currentUser := Some(Admin)))
    ensures IsAdmin(LoginAuth(s, username, password, false).1)
  {
  }

  /** Logging in and then out leaves the storage without the key and with
      every other entry as it was. */
  lemma LoginThenLogoutClearsKey(s: AuthState, username: string, password: string, writable: bool)
    ensures var r := LogoutAuth(LoginAuth(s, username, password, writable).1);
      r.currentUser == None && StorageKey !in r.storage && r.storage == s.storage - {StorageKey}
  {
    var r1 := LoginAuth(s, username, password, writable).1;
    assert r1.storage - {StorageKey} == s.storage - {StorageKey};
  }

  /** A successful login survives a reload: a provider mounted over the
      storage it left restores the administrator, whatever other texts
      would parse to. */
  lemma LoginSurvivesRemount(s: AuthState, username: string, password: string, other: Parsed)
    requires LoginAuth(s, username, password, true).0 == Accepted
    ensures var stored := LoginAuth(s, username, password, true).1.storage;
      var r := MountAuth(InitialAuth(stored), other);
      r.currentUser == Some(Admin) && IsAdmin(r) && RendersChildren(r)
  {
    DecodeEncodeUser(Admin);
  }

  /** After logout, a reload restores nobody and renders the children. */
  lemma LogoutSurvivesRemount(s: AuthState, other: Parsed)
    ensures var r := MountAuth(InitialAuth(LogoutAuth(s).storage), other);
      r.currentUser == None && RendersChildren(r)
  {
  }

  /** Children never render before the mount effect, and render after it
      unless the stored text is one `JSON.parse` rejects. */
  lemma ChildrenRenderAfterMount(s: AuthState, other: Parsed)
    ensures !RendersChildren(InitialAuth(s.storage))
    ensures RendersChildren(MountAuth(s, other)) <==>
      StoredText(s.storage).None? || StoredUser(s.storage).Some? || other.ParsedValue? || !s.loading
  {
  }

  /** Any stored text that parses to a truthy object whose role is "admin"
      is restored as an administrator, though login never wrote it. */
  lemma ForeignAdminRestored(storage: map<string, string>, username: string)
    requires StoredText(storage).Some? && StoredUser(storage).None?
    ensures IsAdmin(MountAuth(InitialAuth(storage), ParsedValue(Some(User(username, "admin")))))
  {
  }

  /** A stored text `JSON.parse` rejects leaves the provider loading, so
      nothing below it ever renders. */
  lemma UnparsableTextBlocksChildren(storage: map<string, string>)
    requires StoredText(storage).Some? && StoredUser(storage).None?
    ensures !RendersChildren(MountAuth(InitialAuth(storage), ParseError))
  {
  }

  // ---------------------------------------------------------------------
  // The provider component
  // ---------------------------------------------------------------------

  class AuthProvider {
    var currentUser: Option<User>
    var loading: bool
    /** The browser's local storage. */
    var storage: map<string, string>

    function State(): AuthState
      reads this
    {
      AuthState(currentUser, loading, storage)
    }

    /** The first render: no user, loading. */
    constructor (storage: map<string, string>)
      ensures State() == InitialAuth(storage)
    {
      currentUser, loading, this.storage := None, true, storage;
    }

    /** The mount effect; `other` is what `JSON.parse` gives for a stored
        text login does not write. */
    method Mount(other: Parsed)
      modifies this
      ensures State() == MountAuth(old(State()), other)
    {
      var stored := if StorageKey in storage then storage[StorageKey] else "";
      if stored != "" {
        var u := DecodeUser(stored);
        var parsed := if u.Some? then ParsedValue(u) else other;
        if parsed.ParseError? {
          return;
        }
        currentUser := parsed.value;
      }
      loading := false;
    }

    /** `login`: returns true or false, or reports that the storage write threw. */
    method Login(username: string, password: string, writable: bool) returns (outcome: LoginOutcome)
      modifies this
      ensures (outcome, State()) == LoginAuth(old(State()), username, password, writable)
    {
      if username == AdminUsername && password == AdminPassword {
        currentUser := Some(User(AdminUsername, AdminRole));
        if !writable {
          return Threw;
        }
        storage := storage[StorageKey := EncodeUser(User(AdminUsername, AdminRole))];
        return Accepted;
      }
      return Rejected;
    }

    /** `logout`. */
    method Logout()
      modifies this
      ensures State() == LogoutAuth(old(State()))
    {
      currentUser := None;
      storage := storage - {StorageKey};
    }

    predicate IsAdminNow()
      reads this
    {
      IsAdmin(State())
    }
  }
}
