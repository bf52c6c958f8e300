/**
 * The client's sign-in state: token, user, loading flag, error and
 * `isAuthenticated`, mirrored into the browser's key-value storage so that a
 * reload starts from the same session. JSON serialisation of the user is a
 * pair of parameters.
 */
module AuthSlice {
  import opened Wrappers
  import opened AuthController

  const TokenKey: string := "token"
  const UserKey: string := "user"

  /** The two requests this state tracks. */
  datatype Thunk = SignupRequest | LoginRequest

  datatype Action =
    | Logout
    | SetLoading(loading: bool)
    | ClearError
    | Pending(thunk: Thunk)
    | Fulfilled(thunk: Thunk, token: string, data: UserData)
    | Rejected(thunk: Thunk, message: string)

  datatype AuthState = AuthState(
    token: Option<string>, user: Option<UserData>, loading: bool, error: Option<string>,
    isAuthenticated: bool)

  /** The state together with the storage it mirrors into. */
  datatype Session = Session(state: AuthState, storage: map<string, string>)

  /** `getItem(key) || null`: a missing or empty entry reads as nothing. */
  function Stored(storage: map<string, string>, key: string): (r: Option<string>)
    ensures r.Some? <==> key in storage && storage[key] != ""
    ensures r.Some? ==> r.value == storage[key]
  {
    if key in storage && storage[key] != "" then Some(storage[key]) else None
  }

  /** The stored user, parsed; `parse` yields `None` for the JSON `null`. */
  function StoredUser(storage: map<string, string>, parse: string -> Option<UserData>): Option<UserData> {
    var text := Stored(storage, UserKey);
    if text.None? then None else parse(text.value)
  }

  /** `initialState`, read from storage when the page loads. */
  function Load(storage: map<string, string>, parse: string -> Option<UserData>): (s: AuthState)
    ensures s.isAuthenticated <==> s.token.Some?
    ensures s.token == Stored(storage, TokenKey) && s.user == StoredUser(storage, parse)
    ensures !s.loading && s.error.None?
  {
    var token := Stored(storage, TokenKey);
    AuthState(token, StoredUser(storage, parse), false, None, token.Some?)
  }

  /** The slice's reducer; `stringify` is `JSON.stringify` on the user. */
  function Reduce(s: Session, a: Action, stringify: UserData -> string): (r: Session)
    ensures r.storage != s.storage ==> a.Logout? || a.Fulfilled?
    ensures r.state.token != s.state.token || r.state.user != s.state.user ==> a.Logout? || a.Fulfilled?
    ensures r.state.error != s.state.error ==> a.ClearError? || a.Pending? || a.Rejected?
    ensures r.state.loading != s.state.loading ==> !a.Logout? && !a.ClearError?
  {
    var st := s.state;
    match a
    case Logout =>
      Session(st.(token := None, user := None, isAuthenticated := false),
              s.storage - {TokenKey} - {UserKey})
    case SetLoading(b) => Session(st.(loading := b), s.storage)
    case ClearError => Session(st.(error := None), s.storage)
    case Pending(_) => Session(st.(loading := true, error := None), s.storage)
    case Fulfilled(_, token, data) =>
      Session(st.(loading := false, token := Some(token), user := Some(data), isAuthenticated := true),
              s.storage[TokenKey := token][UserKey := stringify(data)])
    case Rejected(_, message) => Session(st.(loading := false, error := Some(message)), s.storage)
  }

  /** `isAuthenticated` holds exactly when there is a token. */
  predicate Consistent(s: AuthState) {
    s.isAuthenticated <==> s.token.Some?
  }

  /** Every reducer case keeps `isAuthenticated` in step with the token. */
  lemma ReduceKeepsConsistent(s: Session, a: Action, stringify: UserData -> string)
    requires Consistent(s.state)
    ensures Consistent(Reduce(s, a, stringify).state)
  {
  }

  /** Storage holds what the state holds: reading it back gives the same token and user. */
  ghost predicate Mirrored(s: Session, parse: string -> Option<UserData>) {
    s.state.token == Stored(s.storage, TokenKey) && s.state.user == StoredUser(s.storage, parse)
  }

  /** `parse` reads back what `stringify` writes, and what it writes is never empty. */
  ghost predicate RoundTrip(stringify: UserData -> string, parse: string -> Option<UserData>) {
    forall u :: stringify(u) != "" && parse(stringify(u)) == Some(u)
  }

  /**
   * Every reducer case keeps storage a mirror of the state, provided a
   * successful response carries a non-empty token.
   */
  lemma ReduceKeepsMirror(s: Session, a: Action, stringify: UserData -> string, parse: string -> Option<UserData>)
    requires Mirrored(s, parse) && RoundTrip(stringify, parse)
    requires a.Fulfilled? ==> a.token != ""
    ensures Mirrored(Reduce(s, a, stringify), parse)
  {
    var r := Reduce(s, a, stringify);
    match a
    case Logout =>
      assert TokenKey !in r.storage && UserKey !in r.storage;
    case Fulfilled(_, token, data) =>
      assert r.storage[TokenKey] == token;
      assert r.storage[UserKey] == stringify(data);
    case _ =>
  }

  /**
   * A reload after a mirrored session restores its token, user and
   * `isAuthenticated`; loading and error start afresh.
   */
  lemma ReloadRestoresSession(s: Session, parse: string -> Option<UserData>)
    requires Mirrored(s, parse) && Consistent(s.state)
    ensures Load(s.storage, parse) == s.state.(loading := false, error := None)
  {
  }

  /** Logging out forgets the session in the state and in storage alike. */
  lemma LogoutForgets(s: Session, stringify: UserData -> string, parse: string -> Option<UserData>)
    ensures var r := Reduce(s, Logout, stringify);
      && r.state.token.None? && r.state.user.None? && !r.state.isAuthenticated
      && r.state.loading == s.state.loading && r.state.error == s.state.error
      && Load(r.storage, parse).token.None? && Load(r.storage, parse).user.None?
      && forall k :: k in r.storage <==> k in s.storage && k != TokenKey && k != UserKey
  {
  }

  /** A sign-up or login that fails changes only the loading flag and the error. */
  lemma FailedRequestKeepsSession(s: Session, t: Thunk, message: string, stringify: UserData -> string)
    ensures Reduce(Reduce(s, Pending(t), stringify), Rejected(t, message), stringify)
            == Session(s.state.(loading := false, error := Some(message)), s.storage)
  {
  }

  /** The browser's key-value storage. */
  class LocalStorage {
    var items: map<string, string>

    constructor (items: map<string, string>)
      ensures this.items == items
    {
      this.items := items;
    }

    method SetItem(key: string, value: string)
      modifies this
      ensures items == old(items)[key := value]
    {
      items := items[key := value];
    }

    method RemoveItem(key: string)
      modifies this
      ensures items == old(items) - {key}
    {
      items := items - {key};
    }
  }

  /** The store's state object, updated in place by each case, with the storage it writes to. */
  class AuthStore {
    var token: Option<string>
    var user: Option<UserData>
    var loading: bool
    var error: Option<string>
    var isAuthenticated: bool
    const storage: LocalStorage

    function State(): AuthState
      reads this
    {
      AuthState(token, user, loading, error, isAuthenticated)
    }

    function Current(): Session
      reads this, storage
    {
      Session(State(), storage.items)
    }

    ghost predicate Valid()
      reads this
    {
      Consistent(State())
    }

    constructor (storage: LocalStorage, parse: string -> Option<UserData>)
      ensures this.storage == storage && State() == Load(storage.items, parse) && Valid()
    {
      this.storage := storage;
      var t := if TokenKey in storage.items && storage.items[TokenKey] != "" then Some(storage.items[TokenKey]) else None;
      var u := if UserKey in storage.items && storage.items[UserKey] != "" then parse(storage.items[UserKey]) else None;
      token := t;
      user := u;
      loading := false;
      error := None;
      isAuthenticated := t.Some?;
    }

    method Logout(stringify: UserData -> string)
      requires Valid()
      modifies this, storage
      ensures Valid() && Current() == Reduce(old(Current()), Action.Logout, stringify)
    {
      token := None;
      user := None;
      isAuthenticated := false;
      storage.RemoveItem(TokenKey);
      storage.RemoveItem(UserKey);
    }

    method SetLoading(b: bool, stringify: UserData -> string)
      requires Valid()
      modifies this
      ensures Valid() && Current() == Reduce(old(Current()), Action.SetLoading(b), stringify)
    {
      loading := b;
    }

    method ClearError(stringify: UserData -> string)
      requires Valid()
      modifies this
      ensures Valid() && Current() == Reduce(old(Current()), Action.ClearError, stringify)
    {
      error := None;
    }

    /** The pending case of sign-up and of login. */
    method Pending(t: Thunk, stringify: UserData -> string)
      requires Valid()
      modifies this
      ensures Valid() && Current() == Reduce(old(Current()), Action.Pending(t), stringify)
    {
      loading := true;
      error := None;
    }

    /** The fulfilled case of sign-up and of login: the response's token and user data. */
    method Fulfilled(t: Thunk, newToken: string, data: UserData, stringify: UserData -> string)
      requires Valid()
      modifies this, storage
      ensures Valid() && Current() == Reduce(old(Current()), Action.Fulfilled(t, newToken, data), stringify)
    {
      loading := false;
      token := Some(newToken);
      user := Some(data);
      isAuthenticated := true;
      storage.SetItem(TokenKey, newToken);
      storage.SetItem(UserKey, stringify(data));
    }

    /** The rejected case of sign-up and of login. */
    method Rejected(t: Thunk, message: string, stringify: UserData -> string)
      requires Valid()
      modifies this
      ensures Valid() && Current() == Reduce(old(Current()), Action.Rejected(t, message), stringify)
    {
      loading := false;
      error := Some(message);
    }
  }
}
