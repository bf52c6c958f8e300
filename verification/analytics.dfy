/**
 * The usage analytics aggregator: buckets a farmer's usage records by three
 * date cutoffs, sums each bucket, raises threshold alerts and derives advice
 * from per-source and per-crop totals.
 */
module Analytics {
  import opened Wrappers
  import opened Constants
  import opened AssocList
  import opened Text
  import opened Sequences

  type FarmerId = string

  /** Usage amounts in liters; the schema requires at least 1. */
  type Liters = x: int | x >= 1 witness 1

  /** One logged irrigation event; `date` is a timestamp in milliseconds. */
  datatype UsageRecord = UsageRecord(
    farmer: FarmerId, source: Source, amount: Liters, date: int, crop: Crop, area: real)

  /**
   * The three lower bounds of the buckets: the start of today, now minus seven
   * days, and the same day of the previous calendar month (all in milliseconds).
   */
  datatype Cutoffs = Cutoffs(todayStart: int, weekAgo: int, monthAgo: int)

  /** The order in which calendar arithmetic places the cutoffs. */
  predicate Ordered(c: Cutoffs) {
    c.monthAgo <= c.weekAgo <= c.todayStart
  }

  datatype Level = Warning | Critical

  /** Alert texts, each carrying the liters it reports. */
  datatype AlertMessage =
    | TodayExceedsCritical(liters: int)   // "Today's water usage (nL) exceeds critical threshold!"
    | TodayIsHigh(liters: int)            // "Today's water usage (nL) is high. Consider optimizing irrigation."
    | WeeklyAboveAverage(liters: int)     // "Weekly water usage (nL) is above average."

  datatype Alert = Alert(level: Level, message: AlertMessage)

  datatype SuggestionType = SourceAdvice | CropAdvice | GeneralAdvice
  datatype Priority = High | Medium | Low

  datatype SuggestionMessage = BorewellReliance | WaterIntensive(crop: Crop) | WellManaged

  /** The text of each suggestion, the crop name capitalised. */
  function MessageText(m: SuggestionMessage): string {
    match m
    case BorewellReliance =>
      "Heavy reliance on borewell. Consider using canal or rainwater harvesting."
    case WaterIntensive(c) =>
      Capitalize(CropName(c)) + " is water-intensive. Diversify with water-efficient crops."
    case WellManaged =>
      "Your water usage is well-managed. Keep monitoring irrigation schedules."
  }

  datatype Suggestion = Suggestion(kind: SuggestionType, message: SuggestionMessage, priority: Priority)

  /** The analytics object; `dailyUsage` is absent (`None`) in the empty-input branch. */
  datatype Report = Report(
    totalUsage: int, averageDailyUsage: int, dailyUsage: Option<int>,
    weeklyUsage: int, monthlyUsage: int, alerts: seq<Alert>, suggestions: seq<Suggestion>)

  // ---------------------------------------------------------------- sums and buckets

  /** `reduce((sum, u) => sum + u.usageAmount, 0)`. */
  function Total(rs: seq<UsageRecord>): int {
    if rs == [] then 0 else Total(rs[..|rs| - 1]) + rs[|rs| - 1].amount
  }

  /**
   * `filter((u) => new Date(u.date) >= cutoff)`: no upper bound. Every copy of
   * a record dated at or after the cutoff is kept, in input order.
   */
  function Since(rs: seq<UsageRecord>, cutoff: int): (r: seq<UsageRecord>)
    ensures forall u :: u in r <==> u in rs && u.date >= cutoff
    ensures |r| <= |rs|
  {
    if rs == [] then []
    else
      var init := rs[..|rs| - 1];
      assert rs == init + [rs[|rs| - 1]];
      Since(init, cutoff) + (if rs[|rs| - 1].date >= cutoff then [rs[|rs| - 1]] else [])
  }

  /** The bucket keeps every copy of a record on or after the cutoff and none before it. */
  lemma {:induction false} SinceCounts(rs: seq<UsageRecord>, cutoff: int)
    ensures forall u :: multiset(Since(rs, cutoff))[u] == if u.date >= cutoff then multiset(rs)[u] else 0
  {
    if rs != [] {
      var init := rs[..|rs| - 1];
      var v := rs[|rs| - 1];
      assert rs == init + [v];
      SinceCounts(init, cutoff);
      assert multiset(rs) == multiset(init) + multiset{v};
      if v.date >= cutoff {
        assert multiset(Since(rs, cutoff)) == multiset(Since(init, cutoff)) + multiset{v};
      } else {
        assert Since(rs, cutoff) == Since(init, cutoff);
      }
    }
  }

  /** The bucket keeps the records in input order. */
  lemma {:induction false} SinceInOrder(rs: seq<UsageRecord>, cutoff: int)
    ensures Subsequence(Since(rs, cutoff), rs)
  {
    if rs != [] {
      var init := rs[..|rs| - 1];
      var v := rs[|rs| - 1];
      SinceInOrder(init, cutoff);
      var p := Since(init, cutoff);
      if v.date >= cutoff {
        var r := Since(rs, cutoff);
        assert r == p + [v];
        assert r[..|r| - 1] == p;
      } else {
        assert Since(rs, cutoff) == p;
        assert Subsequence(p, rs);
      }
    }
  }

  lemma {:induction false} TotalPositive(rs: seq<UsageRecord>)
    ensures Total(rs) >= |rs|
  {
    if rs != [] { TotalPositive(rs[..|rs| - 1]); }
  }

  /** A later cutoff selects a smaller total, and no bucket exceeds the grand total. */
  lemma {:induction false} SinceMonotone(rs: seq<UsageRecord>, early: int, late: int)
    requires early <= late
    ensures Total(Since(rs, late)) <= Total(Since(rs, early)) <= Total(rs)
  {
    if rs != [] {
      var init := rs[..|rs| - 1];
      var u := rs[|rs| - 1];
      SinceMonotone(init, early, late);
      AppendTotal(Since(init, late), if u.date >= late then [u] else []);
      AppendTotal(Since(init, early), if u.date >= early then [u] else []);
    }
  }

  lemma AppendTotal(a: seq<UsageRecord>, b: seq<UsageRecord>)
    requires |b| <= 1
    ensures Total(a + b) == Total(a) + Total(b)
  {
    if |b| == 1 { assert (a + b)[..|a + b| - 1] == a; } else { assert a + b == a; }
  }

  /** Filtering twice keeps the records at or after the later cutoff. */
  lemma {:induction false} SinceSince(rs: seq<UsageRecord>, a: int, b: int)
    ensures Since(Since(rs, a), b) == Since(rs, if a < b then b else a)
  {
    if rs != [] {
      var init := rs[..|rs| - 1];
      var u := rs[|rs| - 1];
      SinceSince(init, a, b);
      var s := Since(init, a);
      if u.date >= a {
        var t := s + [u];
        assert t[..|t| - 1] == s;
      } else {
        assert s + [] == s;
      }
    }
  }

  /** `Math.round(t / n)` for non-negative `t` and positive `n`: halves round up. */
  function RoundDiv(t: int, n: int): (r: int)
    requires t >= 0 && n > 0
    ensures 2 * n * r - n <= 2 * t < 2 * n * r + n
    ensures r >= 0
  {
    var q := (2 * t + n) / (2 * n);
    var m := (2 * t + n) % (2 * n);
    assert 2 * n * q + m == 2 * t + n;
    q
  }

  // ---------------------------------------------------------------- alerts

  /** The threshold ladder: at most one daily alert, then the weekly one. */
  function Alerts(daily: int, weekly: int): seq<Alert> {
    (if daily > DailyCritical then [Alert(Critical, TodayExceedsCritical(daily))]
     else if daily > DailyWarning then [Alert(Warning, TodayIsHigh(daily))]
     else [])
    + (if weekly > WeeklyWarning then [Alert(Warning, WeeklyAboveAverage(weekly))] else [])
  }

  /**
   * At most two alerts, each one of the three below; a critical daily alert exactly above 10000 liters, a
   * daily warning exactly in (5000, 10000], the weekly warning exactly above
   * 30000 liters and always after any daily alert.
   */
  lemma AlertLadder(daily: int, weekly: int)
    ensures var a := Alerts(daily, weekly);
      && |a| <= 2
      && (forall x :: x in a ==>
            x == Alert(Critical, TodayExceedsCritical(daily)) || x == Alert(Warning, TodayIsHigh(daily))
            || x == Alert(Warning, WeeklyAboveAverage(weekly)))
      && (Alert(Critical, TodayExceedsCritical(daily)) in a <==> daily > 10000)
      && (Alert(Warning, TodayIsHigh(daily)) in a <==> 5000 < daily <= 10000)
      && (Alert(Warning, WeeklyAboveAverage(weekly)) in a <==> weekly > 30000)
      && (forall i :: 0 <= i < |a| ==> (a[i].message.WeeklyAboveAverage? <==> i == |a| - 1 && weekly > 30000))
      && (forall i :: 0 <= i < |a| && a[i].level == Critical ==> i == 0)
  {
  }

  // ---------------------------------------------------------------- suggestions

  function SourcePairs(rs: seq<UsageRecord>): (ps: seq<(Source, int)>)
    ensures |ps| == |rs|
    ensures forall i :: 0 <= i < |rs| ==> ps[i] == (rs[i].source, rs[i].amount as int)
  {
    seq(|rs|, i requires 0 <= i < |rs| => (rs[i].source, rs[i].amount as int))
  }

  function CropPairs(rs: seq<UsageRecord>): (ps: seq<(Crop, int)>)
    ensures |ps| == |rs|
    ensures forall i :: 0 <= i < |rs| ==> ps[i] == (rs[i].crop, rs[i].amount as int)
  {
    seq(|rs|, i requires 0 <= i < |rs| => (rs[i].crop, rs[i].amount as int))
  }

  /** Liters drawn from borewells over all the records. */
  function BorewellTotal(rs: seq<UsageRecord>): int {
    SumFor(SourcePairs(rs), Borewell)
  }

  /** Borewell water exceeds 60% of the weekly bucket (and is present at all). */
  predicate BorewellHeavy(rs: seq<UsageRecord>, weekly: int) {
    BorewellTotal(rs) > 0 && 10 * BorewellTotal(rs) > 6 * weekly
  }

  predicate IsWaterIntensive(c: Crop) {
    c == Sugarcane || c == Rice
  }

  function CropSuggestion(c: Crop): Suggestion {
    Suggestion(CropAdvice, WaterIntensive(c), Medium)
  }

  const BorewellSuggestion: Suggestion := Suggestion(SourceAdvice, BorewellReliance, High)
  const GeneralSuggestion: Suggestion := Suggestion(GeneralAdvice, WellManaged, Low)

  /** One crop suggestion per water-intensive crop of `crops`, in order. */
  function CropSuggestions(crops: seq<Crop>): (r: seq<Suggestion>)
    ensures |r| <= |crops|
    ensures forall i :: 0 <= i < |r| ==>
              r[i].message.WaterIntensive? && IsWaterIntensive(r[i].message.crop)
              && r[i] == CropSuggestion(r[i].message.crop)
    ensures forall c :: CropSuggestion(c) in r <==> c in crops && IsWaterIntensive(c)
  {
    if crops == [] then []
    else
      var init := crops[..|crops| - 1];
      var c := crops[|crops| - 1];
      assert crops == init + [c];
      CropSuggestions(init) + (if IsWaterIntensive(c) then [CropSuggestion(c)] else [])
  }

  /** The crops of the records, in order (the keys the crop totals are keyed by). */
  function Crops(rs: seq<UsageRecord>): seq<Crop> {
    Keys(CropPairs(rs))
  }

  /** The advice list: borewell advice, then crop advice, else the general fallback. */
  function Suggestions(rs: seq<UsageRecord>, weekly: int): seq<Suggestion> {
    var s := (if BorewellHeavy(rs, weekly) then [BorewellSuggestion] else [])
             + CropSuggestions(FirstSeen(Crops(rs)));
    if s == [] then [GeneralSuggestion] else s
  }

  lemma {:induction false} SumForPositive<K>(ps: seq<(K, int)>, k: K)
    requires forall i :: 0 <= i < |ps| ==> ps[i].1 >= 1
    ensures SumFor(ps, k) >= 0
    ensures k in Keys(ps) ==> SumFor(ps, k) >= 1
  {
    if ps != [] {
      var init := ps[..|ps| - 1];
      assert Keys(ps) == Keys(init) + [ps[|ps| - 1].0];
      SumForPositive(init, k);
    }
  }

  /** `sourceUsage.borewell && sourceUsage.borewell > weeklyUsage * 0.6`, read off the totals. */
  lemma BorewellRule(rs: seq<UsageRecord>, weekly: int)
    ensures var b := Lookup(Totals(SourcePairs(rs)), Borewell);
      (b.Some? && b.value != 0 && b.value * 10 > weekly * 6) <==> BorewellHeavy(rs, weekly)
  {
    TotalsLookup(SourcePairs(rs), Borewell);
    SumForPositive(SourcePairs(rs), Borewell);
    if Borewell !in Keys(SourcePairs(rs)) {
      SumForAbsent(SourcePairs(rs), Borewell);
    }
  }

  /** The `forEach` over the crop keys: pushes one suggestion per water-intensive crop. */
  method PushCropSuggestions(head: seq<Suggestion>, crops: seq<Crop>) returns (suggestions: seq<Suggestion>)
    ensures suggestions == head + CropSuggestions(crops)
  {
    suggestions := head;
    var i := 0;
    assert crops[..0] == [];
    while i < |crops|
      invariant 0 <= i <= |crops|
      invariant suggestions == head + CropSuggestions(crops[..i])
    {
      assert crops[..i + 1][..i] == crops[..i];
      if crops[i] == Sugarcane || crops[i] == Rice {
        suggestions := suggestions + [CropSuggestion(crops[i])];
      }
      i := i + 1;
    }
    assert crops[..i] == crops;
  }

  /**
   * `generateSuggestions`: totals per source and per crop, the borewell rule,
   * the water-intensive crop rule over the crop keys, and the fallback.
   */
  method GenerateSuggestions(rs: seq<UsageRecord>, weekly: int) returns (suggestions: seq<Suggestion>)
    ensures suggestions == Suggestions(rs, weekly)
  {
    suggestions := [];
    var sourceUsage := Tally(SourcePairs(rs));
    var borewell := Lookup(sourceUsage, Borewell);
    BorewellRule(rs, weekly);
    if borewell.Some? && borewell.value != 0 && borewell.value * 10 > weekly * 6 {
      suggestions := suggestions + [BorewellSuggestion];
    }
    var head := suggestions;
    assert head == if BorewellHeavy(rs, weekly) then [BorewellSuggestion] else [];

    var cropUsage := Tally(CropPairs(rs));
    var crops := Keys(cropUsage);
    assert crops == FirstSeen(Crops(rs));
    suggestions := PushCropSuggestions(suggestions, crops);

    if |suggestions| == 0 {
      suggestions := suggestions + [GeneralSuggestion];
    }
  }

  // ---------------------------------------------------------------- the report

  /** What `calculateAnalytics` returns for the records and the cutoffs. */
  function AnalyticsOf(rs: seq<UsageRecord>, c: Cutoffs): Report {
    if |rs| == 0 then Report(0, 0, None, 0, 0, [], [])
    else
      var daily := Total(Since(rs, c.todayStart));
      var weekly := Total(Since(rs, c.weekAgo));
      var monthly := Total(Since(rs, c.monthAgo));
      var total := Total(rs);
      TotalPositive(rs);
      Report(total, RoundDiv(total, |rs|), Some(daily), weekly, monthly,
             Alerts(daily, weekly), Suggestions(rs, weekly))
  }

  /** `calculateAnalytics`, statement by statement. */
  method CalculateAnalytics(rs: seq<UsageRecord>, c: Cutoffs) returns (r: Report)
    ensures r == AnalyticsOf(rs, c)
  {
    if |rs| == 0 {
      return Report(0, 0, None, 0, 0, [], []);
    }
    var todayUsages := Since(rs, c.todayStart);
    var weekUsages := Since(rs, c.weekAgo);
    var monthUsages := Since(rs, c.monthAgo);

    var totalUsage := Total(rs);
    var dailyUsage := Total(todayUsages);
    var weeklyUsage := Total(weekUsages);
    var monthlyUsage := Total(monthUsages);
    TotalPositive(rs);
    var averageDailyUsage := RoundDiv(totalUsage, |rs|);

    var alerts: seq<Alert> := [];
    if dailyUsage > DailyCritical {
      alerts := alerts + [Alert(Critical, TodayExceedsCritical(dailyUsage))];
    } else if dailyUsage > DailyWarning {
      alerts := alerts + [Alert(Warning, TodayIsHigh(dailyUsage))];
    }
    if weeklyUsage > WeeklyWarning {
      alerts := alerts + [Alert(Warning, WeeklyAboveAverage(weeklyUsage))];
    }

    assert alerts == Alerts(dailyUsage, weeklyUsage);
    var suggestions := GenerateSuggestions(rs, weeklyUsage);
    r := Report(totalUsage, averageDailyUsage, Some(dailyUsage), weeklyUsage, monthlyUsage,
                alerts, suggestions);
  }

  // ---------------------------------------------------------------- properties

  /** Empty input: every figure zero, no alerts, no advice, and no daily figure at all. */
  lemma EmptyInput(c: Cutoffs)
    ensures var r := AnalyticsOf([], c);
      r.totalUsage == 0 && r.averageDailyUsage == 0 && r.dailyUsage.None?
      && r.weeklyUsage == 0 && r.monthlyUsage == 0 && r.alerts == [] && r.suggestions == []
  {
  }

  /**
   * With cutoffs in calendar order the buckets nest:
   * daily <= weekly <= monthly <= total, and the average is the per-record mean, rounded.
   */
  lemma {:induction false} BucketsNest(rs: seq<UsageRecord>, c: Cutoffs)
    requires Ordered(c) && rs != []
    ensures var r := AnalyticsOf(rs, c);
      r.dailyUsage.Some? && r.dailyUsage.value <= r.weeklyUsage <= r.monthlyUsage <= r.totalUsage
      && |rs| <= r.totalUsage
      && 2 * |rs| * r.averageDailyUsage - |rs| <= 2 * r.totalUsage < 2 * |rs| * r.averageDailyUsage + |rs|
  {
    SinceMonotone(rs, c.weekAgo, c.todayStart);
    SinceMonotone(rs, c.monthAgo, c.weekAgo);
    TotalPositive(rs);
  }

  /**
   * Over distinct crops, the crop advice comes once per crop and in the order
   * of the crops.
   */
  lemma {:induction false} CropSuggestionsInOrder(crops: seq<Crop>)
    requires Distinct(crops)
    ensures var r := CropSuggestions(crops);
      && Distinct(r)
      && (forall i :: 0 <= i < |r| ==> r[i].message.crop in crops)
      && (forall i, j :: 0 <= i < j < |r| ==> IndexOf(crops, r[i].message.crop) < IndexOf(crops, r[j].message.crop))
  {
    var r := CropSuggestions(crops);
    forall i | 0 <= i < |r| ensures r[i].message.crop in crops {
      assert CropSuggestion(r[i].message.crop) in r;
    }
    if crops != [] {
      var init := crops[..|crops| - 1];
      var c := crops[|crops| - 1];
      assert crops == init + [c];
      assert Distinct(init);
      CropSuggestionsInOrder(init);
      var p := CropSuggestions(init);
      assert r[..|p|] == p;
      forall i, j | 0 <= i < j < |r|
        ensures IndexOf(crops, r[i].message.crop) < IndexOf(crops, r[j].message.crop)
      {
        var a, b := r[i].message.crop, r[j].message.crop;
        assert r[i] == p[i];
        IndexOfPrefix(init, c, a);
        if j < |p| {
          assert r[j] == p[j];
          IndexOfPrefix(init, c, b);
        } else {
          assert b == c && c !in init;
          assert IndexOf(crops, b) == |init|;
        }
      }
    }
  }

  /** Only two crops are water-intensive, so at most two distinct crop suggestions exist. */
  lemma AtMostTwoCropSuggestions(cs: seq<Suggestion>)
    requires Distinct(cs)
    requires forall i :: 0 <= i < |cs| ==> cs[i].message.WaterIntensive? && IsWaterIntensive(cs[i].message.crop)
                                           && cs[i] == CropSuggestion(cs[i].message.crop)
    ensures |cs| <= 2
  {
    DistinctCard(cs);
    var both := {CropSuggestion(Sugarcane), CropSuggestion(Rice)};
    assert (set x | x in cs) <= both;
    SubsetCard((set x | x in cs), both);
  }

  lemma SubsetCard<T>(a: set<T>, b: set<T>)
    requires a <= b
    ensures |a| <= |b|
  {
    assert b == a + (b - a);
  }

  /**
   * The advice list for non-empty input holds one to three entries, none
   * twice: the borewell advice at most once and first exactly when borewell
   * water is present and exceeds 60% of the weekly bucket; one advice per
   * distinct water-intensive crop present, no more than two; the general
   * advice exactly when neither rule fired.
   */
  lemma SuggestionsShape(rs: seq<UsageRecord>, weekly: int)
    ensures var s := Suggestions(rs, weekly);
      && 1 <= |s| <= 3
      && Distinct(s)
      && (s[0] == BorewellSuggestion <==> BorewellHeavy(rs, weekly))
      && (forall i :: 1 <= i < |s| ==> s[i] != BorewellSuggestion)
      && (forall c :: CropSuggestion(c) in s <==> c in Crops(rs) && IsWaterIntensive(c))
      && (GeneralSuggestion in s <==> s == [GeneralSuggestion])
      && (s == [GeneralSuggestion] <==>
            !BorewellHeavy(rs, weekly) && forall c :: c in Crops(rs) ==> !IsWaterIntensive(c))
  {
    var crops := FirstSeen(Crops(rs));
    CropSuggestionsInOrder(crops);
    var cs := CropSuggestions(crops);
    AtMostTwoCropSuggestions(cs);
  }

  /**
   * Every crop advice in `s` names a crop of `ks`, and the crop advice follows
   * the order in which those crops first occur in `ks`.
   */
  ghost predicate CropAdviceInOrder(ks: seq<Crop>, s: seq<Suggestion>) {
    && (forall i :: 0 <= i < |s| && s[i].message.WaterIntensive? ==> s[i].message.crop in ks)
    && (forall i, j :: 0 <= i < j < |s| && s[i].message.WaterIntensive? && s[j].message.WaterIntensive? ==>
          IndexOf(ks, s[i].message.crop) < IndexOf(ks, s[j].message.crop))
  }

  /** The crop advice follows the order in which the crops first occur in the records. */
  lemma SuggestionsInCropOrder(rs: seq<UsageRecord>, weekly: int)
    ensures CropAdviceInOrder(Crops(rs), Suggestions(rs, weekly))
  {
    var head := if BorewellHeavy(rs, weekly) then [BorewellSuggestion] else [];
    var s := head + CropSuggestions(FirstSeen(Crops(rs)));
    if s != [] {
      AdviceInCropOrder(Crops(rs), head);
      assert Suggestions(rs, weekly) == s;
    } else {
      assert Suggestions(rs, weekly) == [GeneralSuggestion];
    }
  }

  lemma AdviceInCropOrder(ks: seq<Crop>, head: seq<Suggestion>)
    requires head == [] || head == [BorewellSuggestion]
    ensures CropAdviceInOrder(ks, head + CropSuggestions(FirstSeen(ks)))
  {
    var crops := FirstSeen(ks);
    CropSuggestionsInOrder(crops);
    var cs := CropSuggestions(crops);
    var s := head + cs;
    forall i | 0 <= i < |s| && s[i].message.WaterIntensive? ensures s[i].message.crop in ks {
      assert s[i] == cs[i - |head|];
    }
    forall i, j | 0 <= i < j < |s| && s[i].message.WaterIntensive? && s[j].message.WaterIntensive?
      ensures IndexOf(ks, s[i].message.crop) < IndexOf(ks, s[j].message.crop)
    {
      var a, b := cs[i - |head|], cs[j - |head|];
      assert s[i] == a && s[j] == b;
      FirstSeenOrder(ks, IndexOf(crops, a.message.crop), IndexOf(crops, b.message.crop));
    }
  }

  /** Without borewell water and without water-intensive crops, only the general advice is given. */
  lemma NoRuleFires(rs: seq<UsageRecord>, weekly: int)
    requires forall i :: 0 <= i < |rs| ==> rs[i].source != Borewell && !IsWaterIntensive(rs[i].crop)
    ensures Suggestions(rs, weekly) == [GeneralSuggestion]
  {
    var ps := SourcePairs(rs);
    assert Borewell !in Keys(ps);
    SumForAbsent(ps, Borewell);
    forall c | c in Crops(rs) ensures !IsWaterIntensive(c) {
      var i :| 0 <= i < |Crops(rs)| && Crops(rs)[i] == c;
    }
    SuggestionsShape(rs, weekly);
  }

  /** The buckets of the worked case below. */
  lemma WorkedBuckets(r0: UsageRecord, r1: UsageRecord, r2: UsageRecord, c: Cutoffs)
    requires r2.date < c.monthAgo <= r1.date < c.todayStart <= r0.date && c.weekAgo <= r1.date
    requires c.monthAgo <= c.weekAgo
    ensures Since([r0, r1, r2], c.todayStart) == [r0]
    ensures Since([r0, r1, r2], c.weekAgo) == [r0, r1]
    ensures Since([r0, r1, r2], c.monthAgo) == [r0, r1]
  {
    var rs := [r0, r1, r2];
    assert rs[..2] == [r0, r1] && [r0, r1][..1] == [r0];
  }

  /**
   * A worked case: today is day 100, records of 6000 L today, 2000 L five days
   * ago and 1000 L forty-five days ago, the month cutoff 31 days back. Today's
   * 6000 L raise a warning, not a critical alert, and the oldest record falls
   * outside the month.
   */
  lemma WorkedExample()
    ensures var day := 86400000;
      var rs := [UsageRecord("f", Canal, 6000, 100 * day, Wheat, 1.0),
                 UsageRecord("f", Canal, 2000, 95 * day, Wheat, 1.0),
                 UsageRecord("f", Canal, 1000, 55 * day, Wheat, 1.0)];
      AnalyticsOf(rs, Cutoffs(100 * day, 93 * day + day / 2, 69 * day))
      == Report(9000, 3000, Some(6000), 8000, 8000,
                [Alert(Warning, TodayIsHigh(6000))], [GeneralSuggestion])
  {
    var day := 86400000;
    WorkedReport(UsageRecord("f", Canal, 6000, 100 * day, Wheat, 1.0),
                 UsageRecord("f", Canal, 2000, 95 * day, Wheat, 1.0),
                 UsageRecord("f", Canal, 1000, 55 * day, Wheat, 1.0),
                 Cutoffs(100 * day, 93 * day + day / 2, 69 * day));
  }

  lemma WorkedReport(r0: UsageRecord, r1: UsageRecord, r2: UsageRecord, c: Cutoffs)
    requires r2.date < c.monthAgo <= r1.date < c.todayStart <= r0.date && c.weekAgo <= r1.date
    requires c.monthAgo <= c.weekAgo
    requires r0.amount == 6000 && r1.amount == 2000 && r2.amount == 1000
    requires forall u :: u in [r0, r1, r2] ==> u.source == Canal && u.crop == Wheat
    ensures AnalyticsOf([r0, r1, r2], c)
            == Report(9000, 3000, Some(6000), 8000, 8000, [Alert(Warning, TodayIsHigh(6000))], [GeneralSuggestion])
  {
    var rs := [r0, r1, r2];
    WorkedBuckets(r0, r1, r2, c);
    assert [r0, r1][..1] == [r0] && rs[..2] == [r0, r1];
    assert Total([r0]) == 6000;
    assert Total([r0, r1]) == 8000;
    assert Total(rs) == 9000;
    NoRuleFires(rs, 8000);
    assert RoundDiv(9000, 3) == 3000;
  }
}
