/**
 * The water-usage request handlers: the required-field check before logging a
 * record, the period selector, pagination arithmetic, the per-source and
 * per-crop breakdowns, and the administrators' system-wide aggregation.
 */
module WaterUsageController {
  import opened Wrappers
  import opened Constants
  import opened Json
  import opened AssocList
  import opened Analytics
  import opened Sequences

  // ---------------------------------------------------------------- addWaterUsage

  /** The body fields the handler reads; absent fields are `None`. */
  datatype UsageBody = UsageBody(
    source: Option<Value>, usageAmount: Option<Value>, date: Option<Value>,
    cropType: Option<Value>, areaIrrigated: Option<Value>)

  /** `source && usageAmount && date && cropType && areaIrrigated`. */
  predicate HasRequiredFields(b: UsageBody) {
    Truthy(b.source) && Truthy(b.usageAmount) && Truthy(b.date)
    && Truthy(b.cropType) && Truthy(b.areaIrrigated)
  }

  /** The typed fields the schema casts a body to, when it accepts it. */
  datatype UsageFields = UsageFields(source: Source, amount: Liters, date: int, crop: Crop, area: real)

  /**
   * `MissingFields` is the 400 response, `CreateFailed` an error the schema
   * raised (handed to the error handler), `Logged` the 201 response with the new record.
   */
  datatype AddOutcome = MissingFields | CreateFailed | Logged(record: UsageRecord)

  /** The stored usage records. */
  class UsageStore {
    var records: seq<UsageRecord>

    constructor (records: seq<UsageRecord>)
      ensures this.records == records
    {
      this.records := records;
    }

    /**
     * `addWaterUsage`: reject a body missing a required field (an amount of 0
     * is missing), otherwise create the record for the signed-in farmer.
     * `cast` is the schema's casting and validation.
     */
    method AddWaterUsage(farmer: FarmerId, body: UsageBody, cast: UsageBody -> Option<UsageFields>)
      returns (outcome: AddOutcome)
      modifies this
      ensures !HasRequiredFields(body) ==> outcome == MissingFields && records == old(records)
      ensures body.usageAmount == Some(Num(0.0)) ==> outcome == MissingFields
      ensures HasRequiredFields(body) && cast(body).None? ==>
                outcome == CreateFailed && records == old(records)
      ensures HasRequiredFields(body) && cast(body).Some? ==>
                var f := cast(body).value;
                var r := UsageRecord(farmer, f.source, f.amount, f.date, f.crop, f.area);
                outcome == Logged(r) && records == old(records) + [r]
    {
      if !Truthy(body.source) || !Truthy(body.usageAmount) || !Truthy(body.date)
         || !Truthy(body.cropType) || !Truthy(body.areaIrrigated) {
        return MissingFields;
      }
      var fields := cast(body);
      if fields.None? {
        return CreateFailed;
      }
      var f := fields.value;
      var r := UsageRecord(farmer, f.source, f.amount, f.date, f.crop, f.area);
      records := records + [r];
      outcome := Logged(r);
    }
  }

  // ---------------------------------------------------------------- pagination

  /** `(page - 1) * limit`: the records skipped before the requested page. */
  function Skip(page: int, limit: int): int {
    (page - 1) * limit
  }

  /** `Math.ceil(a / b)` for a non-zero divisor. */
  function CeilDiv(a: int, b: int): (q: int)
    requires b != 0
    ensures b > 0 ==> (q - 1) * b < a <= q * b
    ensures b < 0 ==> q * b <= a < (q - 1) * b
  {
    if b > 0 then
      var m := -a;
      var d := m / b;
      assert d * b + m % b == m;
      -d
    else
      var d := a / b;
      assert d * b + a % b == a;
      d
  }

  /** The `pagination` object; `pages` is `None` where `total / 0` is not a finite number. */
  datatype Pagination = Pagination(page: int, limit: int, total: nat, pages: Option<int>)

  /** Pagination for the query's `page` and `limit`, defaulting to 1 and 20. */
  function PaginationOf(page: Option<int>, limit: Option<int>, total: nat): Pagination {
    var p := page.GetOr(1);
    var l := limit.GetOr(20);
    Pagination(p, l, total, if l == 0 then None else Some(CeilDiv(total, l)))
  }

  /** For a positive limit, page `p` starts inside the result set exactly when `p <= pages`. */
  lemma PageHasRecords(page: int, limit: int, total: nat)
    requires page >= 1 && limit > 0
    ensures var pages := PaginationOf(Some(page), Some(limit), total).pages;
      pages.Some? && (Skip(page, limit) < total <==> page <= pages.value)
  {
    var q := CeilDiv(total, limit);
    if page <= q {
      MulMonotone(page - 1, q - 1, limit);
    } else {
      MulMonotone(q, page - 1, limit);
    }
  }

  lemma MulMonotone(a: int, b: int, k: int)
    requires a <= b && k >= 0
    ensures a * k <= b * k
  {
    assert b * k - a * k == (b - a) * k;
  }

  // ---------------------------------------------------------------- getAnalytics

  /** The query filter: the farmer and, for a period, a lower bound on the date. */
  datatype Filter = Filter(farmer: FarmerId, since: Option<int>)

  /** The `period` selector: `daily`, `weekly` and `monthly` add a date bound, anything else none. */
  function PeriodFilter(period: string, farmer: FarmerId, c: Cutoffs): Filter {
    if period == "daily" then Filter(farmer, Some(c.todayStart))
    else if period == "weekly" then Filter(farmer, Some(c.weekAgo))
    else if period == "monthly" then Filter(farmer, Some(c.monthAgo))
    else Filter(farmer, None)
  }

  predicate Matches(f: Filter, u: UsageRecord) {
    u.farmer == f.farmer && (f.since.Some? ==> u.date >= f.since.value)
  }

  /** `find(filter)`: the matching records, in store order. */
  function Select(store: seq<UsageRecord>, f: Filter): (r: seq<UsageRecord>)
    ensures forall u :: u in r <==> u in store && Matches(f, u)
  {
    if store == [] then []
    else
      var init := store[..|store| - 1];
      var u := store[|store| - 1];
      assert store == init + [u];
      Select(init, f) + (if Matches(f, u) then [u] else [])
  }

  /** The selection keeps every copy of a matching record and none of the others. */
  lemma {:induction false} SelectCounts(store: seq<UsageRecord>, f: Filter)
    ensures forall u :: multiset(Select(store, f))[u] == if Matches(f, u) then multiset(store)[u] else 0
  {
    if store != [] {
      var init := store[..|store| - 1];
      var v := store[|store| - 1];
      assert store == init + [v];
      SelectCounts(init, f);
      assert multiset(store) == multiset(init) + multiset{v};
      if Matches(f, v) {
        assert multiset(Select(store, f)) == multiset(Select(init, f)) + multiset{v};
      } else {
        assert Select(store, f) == Select(init, f);
      }
    }
  }

  /** The selection keeps the records in store order. */
  lemma {:induction false} SelectInOrder(store: seq<UsageRecord>, f: Filter)
    ensures Subsequence(Select(store, f), store)
  {
    if store != [] {
      var init := store[..|store| - 1];
      var v := store[|store| - 1];
      SelectInOrder(init, f);
      var p := Select(init, f);
      if Matches(f, v) {
        var r := Select(store, f);
        assert r == p + [v];
        assert r[..|r| - 1] == p;
      } else {
        assert Select(store, f) == p;
        assert Subsequence(p, store);
      }
    }
  }

  /** The records of one farmer, in store order. */
  function Own(store: seq<UsageRecord>, farmer: FarmerId): (r: seq<UsageRecord>)
    ensures forall u :: u in r <==> u in store && u.farmer == farmer
  {
    if store == [] then []
    else
      var init := store[..|store| - 1];
      var u := store[|store| - 1];
      assert store == init + [u];
      Own(init, farmer) + (if u.farmer == farmer then [u] else [])
  }

  /** A filter selects the farmer's records, cut at its date bound if it has one. */
  lemma {:induction false} SelectOwn(store: seq<UsageRecord>, farmer: FarmerId, since: Option<int>)
    ensures Select(store, Filter(farmer, since)) ==
      if since.Some? then Since(Own(store, farmer), since.value) else Own(store, farmer)
  {
    if store != [] {
      var init := store[..|store| - 1];
      var u := store[|store| - 1];
      SelectOwn(init, farmer, since);
      var own := Own(init, farmer);
      if u.farmer == farmer {
        var o := own + [u];
        assert o[..|o| - 1] == own;
      } else {
        assert own + [] == own;
      }
    }
  }

  /** The farmer's records: every copy of each, nobody else's, in store order. */
  lemma OwnKeeps(store: seq<UsageRecord>, farmer: FarmerId)
    ensures var r := Own(store, farmer);
      (forall u :: multiset(r)[u] == if u.farmer == farmer then multiset(store)[u] else 0)
      && Subsequence(r, store)
  {
    SelectOwn(store, farmer, None);
    SelectCounts(store, Filter(farmer, None));
    SelectInOrder(store, Filter(farmer, None));
  }

  /**
   * What the selector hands the aggregator: the farmer's records, cut at
   * today's start, a week ago or a month ago; all of them for any other period.
   */
  lemma PeriodSelection(store: seq<UsageRecord>, period: string, farmer: FarmerId, c: Cutoffs)
    ensures Select(store, PeriodFilter(period, farmer, c)) ==
      if period == "daily" then Since(Own(store, farmer), c.todayStart)
      else if period == "weekly" then Since(Own(store, farmer), c.weekAgo)
      else if period == "monthly" then Since(Own(store, farmer), c.monthAgo)
      else Own(store, farmer)
  {
    SelectOwn(store, farmer, PeriodFilter(period, farmer, c).since);
  }

  /**
   * The selector narrows the input before the aggregator buckets it: after
   * `period=daily` the weekly and monthly figures equal the daily one.
   */
  lemma DailySelectionCollapsesBuckets(store: seq<UsageRecord>, farmer: FarmerId, c: Cutoffs)
    requires Ordered(c)
    requires Select(store, PeriodFilter("daily", farmer, c)) != []
    ensures var r := AnalyticsOf(Select(store, PeriodFilter("daily", farmer, c)), c);
      r.dailyUsage == Some(r.weeklyUsage) && r.weeklyUsage == r.monthlyUsage == r.totalUsage
  {
    PeriodSelection(store, "daily", farmer, c);
    var own := Own(store, farmer);
    SinceSince(own, c.todayStart, c.todayStart);
    SinceSince(own, c.todayStart, c.weekAgo);
    SinceSince(own, c.todayStart, c.monthAgo);
  }

  /**
   * The single `forEach` of `getAnalytics` that fills the source and the crop
   * breakdowns together.
   */
  method Breakdowns(rs: seq<UsageRecord>) returns (sourceBreakdown: Dict<Source, int>, cropBreakdown: Dict<Crop, int>)
    ensures sourceBreakdown == Totals(SourcePairs(rs))
    ensures cropBreakdown == Totals(CropPairs(rs))
  {
    var sp, cp := SourcePairs(rs), CropPairs(rs);
    sourceBreakdown, cropBreakdown := [], [];
    var i := 0;
    while i < |rs|
      invariant 0 <= i <= |rs|
      invariant sourceBreakdown == Totals(sp[..i])
      invariant cropBreakdown == Totals(cp[..i])
    {
      var u := rs[i];
      AddTotals(sp[..i], u.source, u.amount);
      AddTotals(cp[..i], u.crop, u.amount);
      assert sp[..i + 1] == sp[..i] + [(u.source, u.amount as int)];
      assert cp[..i + 1] == cp[..i] + [(u.crop, u.amount as int)];
      sourceBreakdown := Add(sourceBreakdown, u.source, u.amount);
      cropBreakdown := Add(cropBreakdown, u.crop, u.amount);
      i := i + 1;
    }
    assert sp[..i] == sp && cp[..i] == cp;
  }

  lemma {:induction false} PairsTotal(rs: seq<UsageRecord>)
    ensures Sum(Values(SourcePairs(rs))) == Total(rs)
    ensures Sum(Values(CropPairs(rs))) == Total(rs)
  {
    if rs != [] {
      var init := rs[..|rs| - 1];
      PairsTotal(init);
      assert Values(SourcePairs(rs))[..|rs| - 1] == Values(SourcePairs(init));
      assert Values(CropPairs(rs))[..|rs| - 1] == Values(CropPairs(init));
    }
  }

  /** Which keys a breakdown has: the record keys, each exactly once. */
  lemma KeysOfPairs<K>(rs: seq<UsageRecord>, ps: seq<(K, int)>, key: UsageRecord -> K)
    requires |ps| == |rs| && forall i :: 0 <= i < |rs| ==> ps[i].0 == key(rs[i])
    ensures forall k :: k in Keys(ps) <==> exists u :: u in rs && key(u) == k
  {
    forall k ensures k in Keys(ps) <==> exists u :: u in rs && key(u) == k {
      if k in Keys(ps) {
        var i :| 0 <= i < |ps| && Keys(ps)[i] == k;
        assert rs[i] in rs;
      }
      if exists u :: u in rs && key(u) == k {
        var u :| u in rs && key(u) == k;
        var i :| 0 <= i < |rs| && rs[i] == u;
        assert Keys(ps)[i] == k;
      }
    }
  }

  /**
   * The source breakdown holds exactly the sources present, once each, each
   * with its own sum, and its values add up to the total usage.
   */
  lemma SourceBreakdownFacts(rs: seq<UsageRecord>)
    ensures var sb := Totals(SourcePairs(rs));
      && Distinct(Keys(sb))
      && (forall s :: s in Keys(sb) <==> exists u :: u in rs && u.source == s)
      && (forall s :: s in Keys(sb) ==> Lookup(sb, s) == Some(SumFor(SourcePairs(rs), s)))
      && Sum(Values(sb)) == Total(rs)
  {
    var sp := SourcePairs(rs);
    PairsTotal(rs);
    TotalsSum(sp);
    KeysOfPairs(rs, sp, (u: UsageRecord) => u.source);
    forall s | s in Keys(Totals(sp)) ensures Lookup(Totals(sp), s) == Some(SumFor(sp, s)) {
      TotalsLookup(sp, s);
    }
  }

  /**
   * The crop breakdown holds exactly the crops present, once each, each with
   * its own sum, and its values add up to the total usage.
   */
  lemma CropBreakdownFacts(rs: seq<UsageRecord>)
    ensures var cb := Totals(CropPairs(rs));
      && Distinct(Keys(cb))
      && (forall c :: c in Keys(cb) <==> exists u :: u in rs && u.crop == c)
      && (forall c :: c in Keys(cb) ==> Lookup(cb, c) == Some(SumFor(CropPairs(rs), c)))
      && Sum(Values(cb)) == Total(rs)
  {
    var cp := CropPairs(rs);
    PairsTotal(rs);
    TotalsSum(cp);
    KeysOfPairs(rs, cp, (u: UsageRecord) => u.crop);
    forall c | c in Keys(Totals(cp)) ensures Lookup(Totals(cp), c) == Some(SumFor(cp, c)) {
      TotalsLookup(cp, c);
    }
  }

  /** The `data` of the analytics response. */
  datatype AnalyticsData = AnalyticsData(
    report: Report, sourceBreakdown: Dict<Source, int>, cropBreakdown: Dict<Crop, int>, period: string)

  /** The response `getAnalytics` builds for a farmer and a `period` query (default `all`). */
  function AnalyticsResponse(store: seq<UsageRecord>, farmer: FarmerId, period: Option<string>, c: Cutoffs): AnalyticsData {
    var p := period.GetOr("all");
    var selected := Select(store, PeriodFilter(p, farmer, c));
    AnalyticsData(AnalyticsOf(selected, c), Totals(SourcePairs(selected)), Totals(CropPairs(selected)), p)
  }

  /** `getAnalytics`: select by period, aggregate, add both breakdowns and echo the period. */
  method GetAnalytics(store: seq<UsageRecord>, farmer: FarmerId, period: Option<string>, c: Cutoffs)
    returns (data: AnalyticsData)
    ensures data == AnalyticsResponse(store, farmer, period, c)
  {
    var p := if period.Some? then period.value else "all";
    var selected := Select(store, PeriodFilter(p, farmer, c));
    var analytics := CalculateAnalytics(selected, c);
    var sourceBreakdown, cropBreakdown := Breakdowns(selected);
    data := AnalyticsData(analytics, sourceBreakdown, cropBreakdown, p);
  }

  // ---------------------------------------------------------------- getSystemAnalytics

  const HeavyBorewellIssue: string := "Heavy borewell dependency"
  const SeverityHigh: string := "high"

  datatype Inefficiency = Inefficiency(farmerId: FarmerId, issue: string, severity: string)

  /** The `data` of the system analytics response. */
  datatype SystemReport = SystemReport(
    totalUsage: int, farmerCount: nat, avgPerFarmer: int,
    sourceDistribution: Dict<Source, int>, inefficiencies: seq<Inefficiency>)

  function Farmers(rs: seq<UsageRecord>): (fs: seq<FarmerId>)
    ensures |fs| == |rs| && forall i :: 0 <= i < |rs| ==> fs[i] == rs[i].farmer
  {
    seq(|rs|, i requires 0 <= i < |rs| => rs[i].farmer)
  }

  /** The per-farmer, per-source totals: farmers in first-seen order, each with their own source totals. */
  function FarmerBreakdown(rs: seq<UsageRecord>): (d: Dict<FarmerId, Dict<Source, int>>)
    ensures Keys(d) == FirstSeen(Farmers(rs))
  {
    var fs := FirstSeen(Farmers(rs));
    seq(|fs|, i requires 0 <= i < |fs| => (fs[i], Totals(SourcePairs(Own(rs, fs[i])))))
  }

  /**
   * One step of the nested `forEach`: create the farmer's `{}` if absent, then
   * add the amount under the record's source.
   */
  function NestedAdd(d: Dict<FarmerId, Dict<Source, int>>, u: UsageRecord): Dict<FarmerId, Dict<Source, int>> {
    match Find(d, u.farmer)
    case Some(j) => d[j := (u.farmer, Add(d[j].1, u.source, u.amount))]
    case None => d + [(u.farmer, Add([], u.source, u.amount))]
  }

  lemma {:induction false} OwnAbsent(rs: seq<UsageRecord>, f: FarmerId)
    requires f !in Farmers(rs)
    ensures Own(rs, f) == []
  {
    if rs != [] {
      assert Farmers(rs[..|rs| - 1]) == Farmers(rs)[..|rs| - 1];
      OwnAbsent(rs[..|rs| - 1], f);
    }
  }

  lemma SourcePairsAppend(rs: seq<UsageRecord>, u: UsageRecord)
    ensures SourcePairs(rs + [u]) == SourcePairs(rs) + [(u.source, u.amount as int)]
  {
  }

  /** Appending a record changes only its own farmer's source totals, by one `Add`. */
  lemma EntryStep(rs: seq<UsageRecord>, u: UsageRecord, g: FarmerId)
    ensures Totals(SourcePairs(Own(rs + [u], g))) ==
      if g == u.farmer then Add(Totals(SourcePairs(Own(rs, g))), u.source, u.amount)
      else Totals(SourcePairs(Own(rs, g)))
  {
    var qs := rs + [u];
    assert qs[..|qs| - 1] == rs;
    if g == u.farmer {
      assert Own(qs, g) == Own(rs, g) + [u];
      SourcePairsAppend(Own(rs, g), u);
      assert SourcePairs(Own(qs, g)) == SourcePairs(Own(rs, g)) + [(u.source, u.amount as int)];
      AddTotals(SourcePairs(Own(rs, g)), u.source, u.amount);
    } else {
      assert Own(qs, g) == Own(rs, g) + [];
      assert Own(qs, g) == Own(rs, g);
    }
  }

  /** Folding one more record into the nested breakdown gives the breakdown of the longer list. */
  lemma NestedAddStep(rs: seq<UsageRecord>, u: UsageRecord)
    ensures NestedAdd(FarmerBreakdown(rs), u) == FarmerBreakdown(rs + [u])
  {
    var qs := rs + [u];
    assert Farmers(qs)[..|qs| - 1] == Farmers(rs);
    if u.farmer in Farmers(rs) {
      NestedAddKnown(rs, u);
    } else {
      NestedAddNew(rs, u);
    }
  }

  /** A record of a farmer already present updates that farmer's entry in place. */
  lemma NestedAddKnown(rs: seq<UsageRecord>, u: UsageRecord)
    requires u.farmer in Farmers(rs)
    requires Farmers(rs + [u])[..|rs|] == Farmers(rs)
    ensures NestedAdd(FarmerBreakdown(rs), u) == FarmerBreakdown(rs + [u])
  {
    var qs := rs + [u];
    var fs := FirstSeen(Farmers(rs));
    var d := FarmerBreakdown(rs);
    var e := FarmerBreakdown(qs);
    assert Farmers(qs)[|rs|] == u.farmer;
    assert FirstSeen(Farmers(qs)) == fs;
    var j := Find(d, u.farmer).value;
    var a := NestedAdd(d, u);
    assert a == d[j := (u.farmer, Add(d[j].1, u.source, u.amount))];
    assert |a| == |e|;
    forall i | 0 <= i < |e| ensures a[i] == e[i] {
      EntryStep(rs, u, fs[i]);
      if i != j {
        assert fs[i] != fs[j];
      }
    }
  }

  /** A record of a new farmer appends that farmer with a single source total. */
  lemma NestedAddNew(rs: seq<UsageRecord>, u: UsageRecord)
    requires u.farmer !in Farmers(rs)
    requires Farmers(rs + [u])[..|rs|] == Farmers(rs)
    ensures NestedAdd(FarmerBreakdown(rs), u) == FarmerBreakdown(rs + [u])
  {
    var qs := rs + [u];
    var fs := FirstSeen(Farmers(rs));
    var d := FarmerBreakdown(rs);
    var e := FarmerBreakdown(qs);
    assert Farmers(qs)[|rs|] == u.farmer;
    assert FirstSeen(Farmers(qs)) == fs + [u.farmer];
    var a := NestedAdd(d, u);
    assert a == d + [(u.farmer, Add([], u.source, u.amount))];
    forall i | 0 <= i < |e| ensures a[i] == e[i] {
      EntryStep(rs, u, e[i].0);
      if i == |fs| {
        OwnAbsent(rs, u.farmer);
        assert SourcePairs([]) == [];
      }
    }
  }

  /** The nested `forEach` building each farmer's source totals. */
  method BreakdownByFarmer(rs: seq<UsageRecord>) returns (sourceBreakdown: Dict<FarmerId, Dict<Source, int>>)
    ensures sourceBreakdown == FarmerBreakdown(rs)
  {
    sourceBreakdown := [];
    var i := 0;
    assert rs[..0] == [];
    while i < |rs|
      invariant 0 <= i <= |rs|
      invariant sourceBreakdown == FarmerBreakdown(rs[..i])
    {
      NestedAddStep(rs[..i], rs[i]);
      assert rs[..i + 1] == rs[..i] + [rs[i]];
      sourceBreakdown := NestedAdd(sourceBreakdown, rs[i]);
      i := i + 1;
    }
    assert rs[..i] == rs;
  }

  /** `sources.borewell && sources.borewell > farmerTotal * 0.7`. */
  predicate HeavyBorewell(sources: Dict<Source, int>) {
    match Lookup(sources, Borewell)
    case Some(b) => b != 0 && 10 * b > 7 * Sum(Values(sources))
    case None => false
  }

  /** The farmers flagged, in the breakdown's key order. */
  function Flagged(d: Dict<FarmerId, Dict<Source, int>>): (r: seq<Inefficiency>)
    ensures forall x :: x in r ==> x.issue == HeavyBorewellIssue && x.severity == SeverityHigh
    ensures forall f :: Inefficiency(f, HeavyBorewellIssue, SeverityHigh) in r <==>
                          exists i :: 0 <= i < |d| && d[i].0 == f && HeavyBorewell(d[i].1)
  {
    if d == [] then []
    else
      var (f, sources) := d[|d| - 1];
      assert forall i :: 0 <= i < |d| - 1 ==> d[..|d| - 1][i] == d[i];
      Flagged(d[..|d| - 1])
      + (if HeavyBorewell(sources) then [Inefficiency(f, HeavyBorewellIssue, SeverityHigh)] else [])
  }

  /** Each inefficiency names a farmer of `ks`, once each, in the order of `ks`. */
  ghost predicate InFarmerOrder(ks: seq<FarmerId>, r: seq<Inefficiency>) {
    && Distinct(r)
    && (forall i :: 0 <= i < |r| ==> r[i].farmerId in ks)
    && (forall i, j :: 0 <= i < j < |r| ==> IndexOf(ks, r[i].farmerId) < IndexOf(ks, r[j].farmerId))
  }

  /** Over a breakdown keyed by distinct farmers, each is flagged at most once, in key order. */
  lemma {:induction false} FlaggedInOrder(d: Dict<FarmerId, Dict<Source, int>>)
    requires Distinct(Keys(d))
    ensures InFarmerOrder(Keys(d), Flagged(d))
  {
    var r := Flagged(d);
    if d != [] {
      var init := d[..|d| - 1];
      var f := d[|d| - 1].0;
      var ks := Keys(d);
      assert ks == Keys(init) + [f];
      assert Distinct(Keys(init));
      FlaggedInOrder(init);
      var p := Flagged(init);
      assert r[..|p|] == p;
      forall i | 0 <= i < |r| ensures r[i].farmerId in ks {
        if i < |p| {
          assert r[i] == p[i];
        }
      }
      forall i, j | 0 <= i < j < |r|
        ensures IndexOf(ks, r[i].farmerId) < IndexOf(ks, r[j].farmerId)
      {
        var a, b := r[i].farmerId, r[j].farmerId;
        assert r[i] == p[i];
        IndexOfPrefix(Keys(init), f, a);
        if j < |p| {
          assert r[j] == p[j];
          IndexOfPrefix(Keys(init), f, b);
        } else {
          assert b == f && f !in Keys(init);
          assert IndexOf(ks, b) == |init|;
        }
      }
    }
  }

  /** The `forEach` over the breakdown's entries that pushes one inefficiency per heavy borewell user. */
  method DetectInefficiencies(d: Dict<FarmerId, Dict<Source, int>>) returns (inefficiencies: seq<Inefficiency>)
    ensures inefficiencies == Flagged(d)
  {
    inefficiencies := [];
    var i := 0;
    assert d[..0] == [];
    while i < |d|
      invariant 0 <= i <= |d|
      invariant inefficiencies == Flagged(d[..i])
    {
      assert d[..i + 1][..i] == d[..i];
      var (farmerId, sources) := d[i];
      var farmerTotal := Sum(Values(sources));
      var borewell := Lookup(sources, Borewell);
      if borewell.Some? && borewell.value != 0 && borewell.value * 10 > farmerTotal * 7 {
        inefficiencies := inefficiencies + [Inefficiency(farmerId, HeavyBorewellIssue, SeverityHigh)];
      }
      i := i + 1;
    }
    assert d[..i] == d;
  }

  /** `slice(0, n)`. */
  function Take<T>(s: seq<T>, n: nat): (r: seq<T>)
    ensures |r| <= n && |r| <= |s| && r == s[..|r|]
    ensures |s| <= n ==> r == s
  {
    if |s| <= n then s else s[..n]
  }

  /** The number of distinct farmer ids (`new Set(...).size`). */
  function FarmerCount(rs: seq<UsageRecord>): nat {
    |set i | 0 <= i < |rs| :: rs[i].farmer|
  }

  /** What `getSystemAnalytics` responds with, for all stored records. */
  function SystemReportOf(all: seq<UsageRecord>): SystemReport {
    var total := Total(all);
    var farmerCount := FarmerCount(all);
    TotalPositive(all);
    SystemReport(total, farmerCount, if farmerCount > 0 then RoundDiv(total, farmerCount) else 0,
                 Totals(SourcePairs(all)), Take(Flagged(FarmerBreakdown(all)), 10))
  }

  /** `getSystemAnalytics`. */
  method SystemAnalytics(all: seq<UsageRecord>) returns (r: SystemReport)
    ensures r == SystemReportOf(all)
  {
    var totalUsage := Total(all);
    var farmerCount := |set i | 0 <= i < |all| :: all[i].farmer|;
    TotalPositive(all);
    var avgPerFarmer := if farmerCount > 0 then RoundDiv(totalUsage, farmerCount) else 0;
    var sourceDistribution := Tally(SourcePairs(all));
    var sourceBreakdown := BreakdownByFarmer(all);
    var inefficiencies := DetectInefficiencies(sourceBreakdown);
    r := SystemReport(totalUsage, farmerCount, avgPerFarmer, sourceDistribution, Take(inefficiencies, 10));
  }

  // ---------------------------------------------------------------- system properties

  /** `farmerCount` counts distinct farmer ids: one per first-seen farmer, zero only without records. */
  lemma FarmerCountFacts(rs: seq<UsageRecord>)
    ensures FarmerCount(rs) == |FirstSeen(Farmers(rs))| <= |rs|
    ensures FarmerCount(rs) == 0 <==> rs == []
  {
    var fs := FirstSeen(Farmers(rs));
    DistinctCard(fs);
    assert (set i | 0 <= i < |rs| :: rs[i].farmer) == (set x | x in fs) by {
      forall x | x in fs ensures x in (set i | 0 <= i < |rs| :: rs[i].farmer) {
        var i :| 0 <= i < |rs| && Farmers(rs)[i] == x;
      }
    }
    if rs != [] {
      assert rs[0].farmer in (set i | 0 <= i < |rs| :: rs[i].farmer);
    }
  }

  /**
   * A farmer's entry is heavy exactly when their borewell liters are positive
   * and exceed 70% of all their liters.
   */
  lemma HeavyMeaning(rs: seq<UsageRecord>, f: FarmerId)
    ensures HeavyBorewell(Totals(SourcePairs(Own(rs, f)))) <==>
      BorewellTotal(Own(rs, f)) > 0 && 10 * BorewellTotal(Own(rs, f)) > 7 * Total(Own(rs, f))
  {
    var ps := SourcePairs(Own(rs, f));
    TotalsLookup(ps, Borewell);
    TotalsSum(ps);
    PairsTotal(Own(rs, f));
    SumForPositive(ps, Borewell);
    if Borewell !in Keys(ps) {
      SumForAbsent(ps, Borewell);
    }
  }

  /**
   * Every reported inefficiency names a farmer whose borewell liters are
   * positive and above 70% of their own total, with the fixed issue and
   * severity; the list is the flagged list cut to its first 10 entries; and
   * while no more than 10 farmers are flagged, every such farmer is reported.
   */
  lemma InefficiencyFacts(all: seq<UsageRecord>)
    ensures var r := SystemReportOf(all);
      var flagged := Flagged(FarmerBreakdown(all));
      && |r.inefficiencies| <= 10
      && r.inefficiencies == flagged[..|r.inefficiencies|]
      && (forall x :: x in r.inefficiencies ==>
            x.issue == HeavyBorewellIssue && x.severity == SeverityHigh
            && BorewellTotal(Own(all, x.farmerId)) > 0
            && 10 * BorewellTotal(Own(all, x.farmerId)) > 7 * Total(Own(all, x.farmerId)))
      && (|flagged| <= 10 ==>
            forall f :: (f in Farmers(all) && BorewellTotal(Own(all, f)) > 0
                         && 10 * BorewellTotal(Own(all, f)) > 7 * Total(Own(all, f)))
              ==> Inefficiency(f, HeavyBorewellIssue, SeverityHigh) in r.inefficiencies)
  {
    var d := FarmerBreakdown(all);
    var flagged := Flagged(d);
    var r := SystemReportOf(all);
    var fs := FirstSeen(Farmers(all));
    forall x | x in r.inefficiencies
      ensures BorewellTotal(Own(all, x.farmerId)) > 0
              && 10 * BorewellTotal(Own(all, x.farmerId)) > 7 * Total(Own(all, x.farmerId))
    {
      assert x in flagged;
      assert x == Inefficiency(x.farmerId, HeavyBorewellIssue, SeverityHigh);
      var i :| 0 <= i < |d| && d[i].0 == x.farmerId && HeavyBorewell(d[i].1);
      HeavyMeaning(all, x.farmerId);
    }
    if |flagged| <= 10 {
      forall f | f in Farmers(all)
        && BorewellTotal(Own(all, f)) > 0 && 10 * BorewellTotal(Own(all, f)) > 7 * Total(Own(all, f))
        ensures Inefficiency(f, HeavyBorewellIssue, SeverityHigh) in r.inefficiencies
      {
        assert f in fs;
        var i := IndexOf(fs, f);
        HeavyMeaning(all, f);
        assert d[i].0 == f && HeavyBorewell(d[i].1);
      }
    }
  }

  /**
   * The ten reported inefficiencies are the first flagged farmers in the order
   * of their first record, each reported once: the order decides who is cut.
   */
  lemma ReportedInOrder(all: seq<UsageRecord>)
    ensures InFarmerOrder(Farmers(all), SystemReportOf(all).inefficiencies)
  {
    var ks := Farmers(all);
    var fs := FirstSeen(ks);
    var d := FarmerBreakdown(all);
    FlaggedInOrder(d);
    var flagged := Flagged(d);
    var r := SystemReportOf(all).inefficiencies;
    assert r == flagged[..|r|];
    forall i | 0 <= i < |r| ensures r[i] == flagged[i] && r[i].farmerId in ks {
      assert r[i] == flagged[i];
    }
    forall i, j | 0 <= i < j < |r| ensures IndexOf(ks, r[i].farmerId) < IndexOf(ks, r[j].farmerId) {
      FirstSeenOrder(ks, IndexOf(fs, flagged[i].farmerId), IndexOf(fs, flagged[j].farmerId));
    }
  }

  /**
   * The totals: `totalUsage` sums every record, the source distribution's
   * values add up to it, and `avgPerFarmer` is the total per distinct farmer
   * rounded to the nearest integer (0 without farmers).
   */
  lemma SystemTotals(all: seq<UsageRecord>)
    ensures var r := SystemReportOf(all);
      && r.totalUsage == Total(all) >= |all|
      && Sum(Values(r.sourceDistribution)) == r.totalUsage
      && (r.farmerCount == 0 ==> r.avgPerFarmer == 0)
      && (r.farmerCount > 0 ==>
            2 * r.farmerCount * r.avgPerFarmer - r.farmerCount <= 2 * r.totalUsage
            < 2 * r.farmerCount * r.avgPerFarmer + r.farmerCount)
  {
    SourceBreakdownFacts(all);
    TotalPositive(all);
  }
}
