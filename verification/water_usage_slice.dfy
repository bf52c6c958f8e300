/**
 * The client's water-usage state: the reducer that answers the four
 * requests' pending, fulfilled and rejected actions, and the store object
 * whose fields its cases assign in place.
 */
module WaterUsageSlice {
  import opened Wrappers
  import opened Analytics
  import opened WaterUsageController

  /** The four requests this state tracks. */
  datatype Thunk = AddUsage | FetchMyUsage | FetchAnalytics | FetchSystemAnalytics

  datatype Action =
    | ClearError
    | Pending(thunk: Thunk)
    | Rejected(thunk: Thunk, message: string)
    | UsageAdded(usage: UsageRecord)
    | MyUsageFetched(usages: seq<UsageRecord>, pagination: Pagination)
    | AnalyticsFetched(analytics: AnalyticsData)
    | SystemAnalyticsFetched(report: SystemReport)

  datatype UsageState = UsageState(
    usages: seq<UsageRecord>, analytics: Option<AnalyticsData>, systemAnalytics: Option<SystemReport>,
    loading: bool, error: Option<string>, pagination: Option<Pagination>)

  const Initial: UsageState := UsageState([], None, None, false, None, None)

  /** The slice's reducer: one case per action. */
  function Reduce(s: UsageState, a: Action): (r: UsageState)
    ensures r.usages != s.usages ==> a.UsageAdded? || a.MyUsageFetched?
    ensures r.pagination != s.pagination ==> a.MyUsageFetched?
    ensures r.analytics != s.analytics ==> a.AnalyticsFetched?
    ensures r.systemAnalytics != s.systemAnalytics ==> a.SystemAnalyticsFetched?
    ensures r.error != s.error ==> a.ClearError? || a.Pending? || a.Rejected?
    ensures r.loading <==> a.Pending? || (a.ClearError? && s.loading)
  {
    match a
    case ClearError => s.(error := None)
    case Pending(_) => s.(loading := true, error := None)
    case Rejected(_, message) => s.(loading := false, error := Some(message))
    case UsageAdded(u) => s.(loading := false, usages := [u] + s.usages)
    case MyUsageFetched(us, p) => s.(loading := false, usages := us, pagination := Some(p))
    case AnalyticsFetched(d) => s.(loading := false, analytics := Some(d))
    case SystemAnalyticsFetched(d) => s.(loading := false, systemAnalytics := Some(d))
  }

  /** The state after the actions, applied in order. */
  function ReduceAll(s: UsageState, actions: seq<Action>): UsageState {
    if actions == [] then s
    else Reduce(ReduceAll(s, actions[..|actions| - 1]), actions[|actions| - 1])
  }

  /** A request that fails leaves the data as it was and reports the failure. */
  lemma FailedRequestKeepsData(s: UsageState, t: Thunk, message: string)
    ensures Reduce(Reduce(s, Pending(t)), Rejected(t, message)) == s.(loading := false, error := Some(message))
  {
  }

  /** Adding a record puts it first and keeps the rest in order. */
  lemma AddedUsageFirst(s: UsageState, u: UsageRecord)
    ensures var r := Reduce(s, UsageAdded(u));
      |r.usages| == |s.usages| + 1 && r.usages[0] == u && r.usages[1..] == s.usages && !r.loading
  {
  }

  function Reverse<T>(s: seq<T>): (r: seq<T>)
    ensures |r| == |s|
  {
    if s == [] then [] else [s[|s| - 1]] + Reverse(s[..|s| - 1])
  }

  /** The records the actions add, in the order they were added. */
  function Added(actions: seq<Action>): seq<UsageRecord> {
    if actions == [] then []
    else
      var a := actions[|actions| - 1];
      Added(actions[..|actions| - 1]) + (if a.UsageAdded? then [a.usage] else [])
  }

  lemma {:induction false} ReduceAllAppend(s: UsageState, xs: seq<Action>, ys: seq<Action>)
    ensures ReduceAll(s, xs + ys) == ReduceAll(ReduceAll(s, xs), ys)
  {
    if ys == [] {
      assert xs + ys == xs;
    } else {
      assert (xs + ys)[..|xs + ys| - 1] == xs + ys[..|ys| - 1];
      assert (xs + ys)[|xs + ys| - 1] == ys[|ys| - 1];
      ReduceAllAppend(s, xs, ys[..|ys| - 1]);
    }
  }

  lemma ReverseSnoc<T>(x: seq<T>, u: T)
    ensures Reverse(x + [u]) == [u] + Reverse(x)
  {
    assert (x + [u])[..|x|] == x;
  }

  lemma UsagesStep(prev: UsageState, a: Action)
    requires !a.MyUsageFetched?
    ensures Reduce(prev, a).usages == (if a.UsageAdded? then [a.usage] else []) + prev.usages
  {
  }

  /**
   * Without a fetch of the farmer's own records, the list is the added
   * records, newest first, in front of the list the actions started from.
   */
  lemma {:induction false} UsagesNewestFirst(s: UsageState, actions: seq<Action>)
    requires forall i :: 0 <= i < |actions| ==> !actions[i].MyUsageFetched?
    ensures ReduceAll(s, actions).usages == Reverse(Added(actions)) + s.usages
  {
    if actions != [] {
      var init := actions[..|actions| - 1];
      var a := actions[|actions| - 1];
      UsagesNewestFirst(s, init);
      UsagesStep(ReduceAll(s, init), a);
      if a.UsageAdded? {
        ReverseSnoc(Added(init), a.usage);
      } else {
        assert Added(actions) == Added(init) + [];
        assert Added(init) + [] == Added(init);
        assert [] + ReduceAll(s, init).usages == ReduceAll(s, init).usages;
      }
    }
  }

  /**
   * After the last fetch of the farmer's own records, the list is that
   * fetch's records behind whatever was added since, newest first, and the
   * pagination is the fetch's.
   */
  lemma LastFetchWins(s: UsageState, actions: seq<Action>, k: nat)
    requires k < |actions| && actions[k].MyUsageFetched?
    requires forall i :: k < i < |actions| ==> !actions[i].MyUsageFetched?
    ensures var r := ReduceAll(s, actions);
      r.usages == Reverse(Added(actions[k + 1..])) + actions[k].usages
      && r.pagination == Some(actions[k].pagination)
  {
    var xs := actions[..k + 1];
    var ys := actions[k + 1..];
    assert actions == xs + ys;
    ReduceAllAppend(s, xs, ys);
    assert xs[..|xs| - 1] == actions[..k];
    var mid := ReduceAll(s, xs);
    UsagesNewestFirst(mid, ys);
    PaginationKept(mid, ys);
  }

  lemma {:induction false} PaginationKept(s: UsageState, actions: seq<Action>)
    requires forall i :: 0 <= i < |actions| ==> !actions[i].MyUsageFetched?
    ensures ReduceAll(s, actions).pagination == s.pagination
  {
    if actions != [] {
      PaginationKept(s, actions[..|actions| - 1]);
    }
  }

  /**
   * One `loading` flag serves all four requests: when one of two requests
   * in flight completes, `loading` is false although the other is still
   * pending.
   */
  lemma SharedLoadingFlag(s: UsageState, d: AnalyticsData)
    ensures !ReduceAll(s, [Pending(FetchAnalytics), Pending(FetchSystemAnalytics), AnalyticsFetched(d)]).loading
  {
    var actions := [Pending(FetchAnalytics), Pending(FetchSystemAnalytics), AnalyticsFetched(d)];
    assert actions[..2][..1] == [Pending(FetchAnalytics)];
    assert actions[..2] == [Pending(FetchAnalytics), Pending(FetchSystemAnalytics)];
  }

  /** The store's state object, updated in place by each reducer case. */
  class UsageSliceState {
    var usages: seq<UsageRecord>
    var analytics: Option<AnalyticsData>
    var systemAnalytics: Option<SystemReport>
    var loading: bool
    var error: Option<string>
    var pagination: Option<Pagination>

    function State(): UsageState
      reads this
    {
      UsageState(usages, analytics, systemAnalytics, loading, error, pagination)
    }

    constructor ()
      ensures State() == Initial
    {
      usages := [];
      analytics := None;
      systemAnalytics := None;
      loading := false;
      error := None;
      pagination := None;
    }

    method ClearError()
      modifies this
      ensures State() == Reduce(old(State()), Action.ClearError)
    {
      error := None;
    }

    /** The pending case of every request. */
    method Pending(t: Thunk)
      modifies this
      ensures State() == Reduce(old(State()), Action.Pending(t))
    {
      loading := true;
      error := None;
    }

    /** The rejected case of every request. */
    method Rejected(t: Thunk, message: string)
      modifies this
      ensures State() == Reduce(old(State()), Action.Rejected(t, message))
    {
      loading := false;
      error := Some(message);
    }

    method UsageAdded(u: UsageRecord)
      modifies this
      ensures State() == Reduce(old(State()), Action.UsageAdded(u))
    {
      loading := false;
      usages := [u] + usages;
    }

    method MyUsageFetched(us: seq<UsageRecord>, p: Pagination)
      modifies this
      ensures State() == Reduce(old(State()), Action.MyUsageFetched(us, p))
    {
      loading := false;
      usages := us;
      pagination := Some(p);
    }

    method AnalyticsFetched(d: AnalyticsData)
      modifies this
      ensures State() == Reduce(old(State()), Action.AnalyticsFetched(d))
    {
      loading := false;
      analytics := Some(d);
    }

    method SystemAnalyticsFetched(d: SystemReport)
      modifies this
      ensures State() == Reduce(old(State()), Action.SystemAnalyticsFetched(d))
    {
      loading := false;
      systemAnalytics := Some(d);
    }
  }
}
