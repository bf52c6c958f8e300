/**
 * The client's user state: the signed-in user's profile and, for
 * administrators, a page of users with its pagination.
 */
module UserSlice {
  import opened Wrappers
  import opened AuthController
  import opened WaterUsageController

  /** The three requests this state tracks. */
  datatype Thunk = FetchCurrentUser | UpdateUserProfile | FetchAllUsers

  datatype Action =
    | ClearError
    | Pending(thunk: Thunk)
    | Rejected(thunk: Thunk, message: string)
    | UserFetched(user: UserData)
    | ProfileUpdated(user: UserData)
    | UsersFetched(users: seq<UserData>, pagination: Pagination)

  datatype UserState = UserState(
    user: Option<UserData>, users: seq<UserData>, loading: bool, error: Option<string>,
    pagination: Option<Pagination>)

  const Initial: UserState := UserState(None, [], false, None, None)

  /** Whether the action sets the signed-in user. */
  predicate SetsUser(a: Action) {
    a.UserFetched? || a.ProfileUpdated?
  }

  /** The slice's reducer: one case per action. */
  function Reduce(s: UserState, a: Action): (r: UserState)
    ensures r.user != s.user ==> SetsUser(a)
    ensures r.users != s.users || r.pagination != s.pagination ==> a.UsersFetched?
    ensures r.error != s.error ==> a.ClearError? || a.Pending? || a.Rejected?
    ensures r.loading <==> a.Pending? || (a.ClearError? && s.loading)
  {
    match a
    case ClearError => s.(error := None)
    case Pending(_) => s.(loading := true, error := None)
    case Rejected(_, message) => s.(loading := false, error := Some(message))
    case UserFetched(u) => s.(loading := false, user := Some(u))
    case ProfileUpdated(u) => s.(loading := false, user := Some(u))
    case UsersFetched(us, p) => s.(loading := false, users := us, pagination := Some(p))
  }

  /** The state after the actions, applied in order. */
  function ReduceAll(s: UserState, actions: seq<Action>): UserState {
    if actions == [] then s
    else Reduce(ReduceAll(s, actions[..|actions| - 1]), actions[|actions| - 1])
  }

  /** The user the last fetch or profile update among the actions delivered, if any. */
  function LastUser(actions: seq<Action>): Option<UserData> {
    if actions == [] then None
    else
      var a := actions[|actions| - 1];
      if SetsUser(a) then Some(a.user) else LastUser(actions[..|actions| - 1])
  }

  /** The last list of users fetched among the actions, with its pagination, if any. */
  function LastUsers(actions: seq<Action>): Option<(seq<UserData>, Pagination)> {
    if actions == [] then None
    else
      var a := actions[|actions| - 1];
      if a.UsersFetched? then Some((a.users, a.pagination)) else LastUsers(actions[..|actions| - 1])
  }

  /**
   * The signed-in user is the one the latest fetch or profile update
   * delivered, or unchanged if there was none; fetching the user list never
   * touches it.
   */
  lemma {:induction false} LatestUserWins(s: UserState, actions: seq<Action>)
    ensures ReduceAll(s, actions).user == if LastUser(actions).Some? then LastUser(actions) else s.user
  {
    if actions != [] {
      LatestUserWins(s, actions[..|actions| - 1]);
    }
  }

  /**
   * The user list and its pagination are the latest fetched ones, or
   * unchanged if there was none; user fetches and profile updates never touch them.
   */
  lemma {:induction false} LatestUsersWin(s: UserState, actions: seq<Action>)
    ensures var r := ReduceAll(s, actions);
      if LastUsers(actions).Some? then
        r.users == LastUsers(actions).value.0 && r.pagination == Some(LastUsers(actions).value.1)
      else
        r.users == s.users && r.pagination == s.pagination
  {
    if actions != [] {
      LatestUsersWin(s, actions[..|actions| - 1]);
    }
  }

  /** A request that fails changes only the loading flag and the error. */
  lemma FailedRequestKeepsData(s: UserState, t: Thunk, message: string)
    ensures Reduce(Reduce(s, Pending(t)), Rejected(t, message)) == s.(loading := false, error := Some(message))
  {
  }

  /** The store's state object, updated in place by each reducer case. */
  class UserSliceState {
    var user: Option<UserData>
    var users: seq<UserData>
    var loading: bool
    var error: Option<string>
    var pagination: Option<Pagination>

    function State(): UserState
      reads this
    {
      UserState(user, users, loading, error, pagination)
    }

    constructor ()
      ensures State() == Initial
    {
      user := None;
      users := [];
      loading := false;
      error := None;
      pagination := None;
    }

    method ClearError()
      modifies this
      ensures State() == Reduce(old(State()), Action.ClearError)
    {
      error := None;
    }

    /** The pending case of every request. */
    method Pending(t: Thunk)
      modifies this
      ensures State() == Reduce(old(State()), Action.Pending(t))
    {
      loading := true;
      error := None;
    }

    /** The rejected case of every request. */
    method Rejected(t: Thunk, message: string)
      modifies this
      ensures State() == Reduce(old(State()), Action.Rejected(t, message))
    {
      loading := false;
      error := Some(message);
    }

    method UserFetched(u: UserData)
      modifies this
      ensures State() == Reduce(old(State()), Action.UserFetched(u))
    {
      loading := false;
      user := Some(u);
    }

    method ProfileUpdated(u: UserData)
      modifies this
      ensures State() == Reduce(old(State()), Action.ProfileUpdated(u))
    {
      loading := false;
      user := Some(u);
    }

    method UsersFetched(us: seq<UserData>, p: Pagination)
      modifies this
      ensures State() == Reduce(old(State()), Action.UsersFetched(us, p))
    {
      loading := false;
      users := us;
      pagination := Some(p);
    }
  }
}
