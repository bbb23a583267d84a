/** The weekly operations-notes generator of ops_notes/generator.py: the collectors that
    turn overrun predictions, daily safety predictions and drift alerts into the figures of
    the weekly notes, the scorecard health labels, and the narrative with its fallback.
    The language model is a parameter; the summaries are kept as the values their lines
    show rather than as rendered text. */
module OpsNotes {
  import opened Common
  import opened Sorting
  import opened Overrun
  import Safety

  /** `enumerate(s, first)`. */
  function Numbered<T>(s: seq<T>, first: nat): seq<(nat, T)>
  {
    seq(|s|, i requires 0 <= i < |s| => (first + i, s[i]))
  }

  lemma NumberedAppend<T>(s: seq<T>, x: T, first: nat)
    ensures Numbered(s + [x], first) == Numbered(s, first) + [(first + |s|, x)]
  {
  }

  /** A filtered sequence keeps every ordering relation that held between the elements it
      was taken from. */
  lemma {:induction false} FilterKeepsOrder<T>(s: seq<T>, p: T -> bool, before: (T, T) -> bool)
    requires forall i, j :: 0 <= i < j < |s| ==> before(s[i], s[j])
    ensures var f := Filter(s, p); forall i, j :: 0 <= i < j < |f| ==> before(f[i], f[j])
  {
    if s != [] {
      FilterKeepsOrder(s[1..], p, before);
      var rest := Filter(s[1..], p);
      forall j | 0 <= j < |rest| ensures before(s[0], rest[j]) {
        FilterMembership(s[1..], p, rest[j]);
        var k :| 0 <= k < |s[1..]| && s[1..][k] == rest[j];
        assert s[k + 1] == rest[j];
      }
    }
  }

  lemma {:induction false} CountWeaker<T>(s: seq<T>, p: T -> bool, q: T -> bool)
    requires forall x :: p(x) ==> q(x)
    ensures Count(s, p) <= Count(s, q)
  {
    if s != [] {
      CountWeaker(s[1..], p, q);
    }
  }

  // ---------------------------------------------------------------------------------------
  // Time overrun section (`collect_time_overrun_data`)

  /** One iteration of the project loop: the project's `features` and then its `project_id`
      entry (a missing one raises KeyError), then `predict_time_overrun` with probabilities
      on the predictor's `loaded` state. */
  function TimeEntry(loaded: Option<Models>, p: ProjectInput): (r: Result<OverrunResult>)
    ensures p.features.None? ==> r == Err(KeyError("features"))
    ensures p.features.Some? && p.projectId.None? ==> r == Err(KeyError("project_id"))
    ensures p.features.Some? && p.projectId.Some? && loaded.None? ==> r.Err? && r.error.RuntimeError?
    ensures r.Ok? ==> (loaded.Some? && r.value.target == TimeTarget && r.value.confidence.Some? &&
      r.value.projectId == ProjectIdOr(p.projectId))
    ensures p.features.Some? && p.projectId.Some? && loaded.Some? ==>
      r == Predict(loaded.value, TimeTarget, p.features.value, true, p.projectId)
  {
    if p.features.None? then Err(KeyError("features"))
    else if p.projectId.None? then Err(KeyError("project_id"))
    else if loaded.None? then Err(RuntimeError("Models not loaded. Initialize predictor first."))
    else Predict(loaded.value, TimeTarget, p.features.value, true, p.projectId)
  }

  function TimeStep(loaded: Option<Models>): (nat, ProjectInput) -> Result<OverrunResult>
  {
    (i: nat, p: ProjectInput) => TimeEntry(loaded, p)
  }

  /** The sort key `result['confidence']`. */
  function Confidence(r: OverrunResult): real
  {
    if r.confidence.Some? then r.confidence.value else 0.0
  }

  predicate IsOverrun(r: OverrunResult)
  {
    r.prediction == 1
  }

  predicate IsNotOverrun(r: OverrunResult)
  {
    r.prediction != 1
  }

  predicate IsNoOverrun(r: OverrunResult)
  {
    r.prediction == 0
  }

  predicate IsOverrunEntry(e: (nat, OverrunResult))
  {
    e.1.prediction == 1
  }

  /** Numbers increase and confidences do not, from one listed entry to the next. */
  predicate ListedBefore(a: (nat, OverrunResult), b: (nat, OverrunResult))
  {
    a.0 < b.0 && Confidence(a.1) >= Confidence(b.1)
  }

  predicate NotLessConfident(a: OverrunResult, b: OverrunResult)
  {
    Confidence(a) >= Confidence(b)
  }

  /** The time overrun section: the "No project data provided" notice, or the counts, the
      high-risk projects with their position in the confidence order, and the projects
      predicted not to overrun. */
  datatype TimeSummary =
    | NoProjectData(weekLabel: string)
    | TimeReport(weekLabel: string, total: nat, overrunCount: nat, noOverrunCount: nat,
                 highRisk: seq<(nat, OverrunResult)>, lowerRisk: seq<OverrunResult>)

  /** The section for the predictions `results`, in input order. */
  function TimeReportOf(weekLabel: string, results: seq<OverrunResult>): TimeSummary
  {
    var sorted := SortDesc(results, Confidence);
    var overrun := Count(results, IsOverrun);
    TimeReport(weekLabel, |results|, overrun, |results| - overrun,
               Filter(Numbered(sorted, 1), IsOverrunEntry), Filter(sorted, IsNoOverrun))
  }

  lemma {:induction false} CountNumbered(s: seq<OverrunResult>, first: nat)
    ensures Count(Numbered(s, first), IsOverrunEntry) == Count(s, IsOverrun)
  {
    if s != [] {
      assert Numbered(s, first)[1..] == Numbered(s[1..], first + 1);
      CountNumbered(s[1..], first + 1);
    }
  }

  /** Overrun and no-overrun counts add up to the number of projects, the second counting
      every prediction other than 1, and one high-risk entry is listed per overrun. */
  lemma TimeCounts(weekLabel: string, results: seq<OverrunResult>)
    ensures var s := TimeReportOf(weekLabel, results);
      s.total == |results| && s.overrunCount + s.noOverrunCount == s.total
      && s.overrunCount == Count(results, IsOverrun)
      && s.noOverrunCount == Count(results, IsNotOverrun)
      && |s.highRisk| == s.overrunCount
      && |s.lowerRisk| <= s.noOverrunCount
  {
    var sorted := SortDesc(results, Confidence);
    CountSplit(results, IsOverrun, IsNotOverrun);
    CountNumbered(sorted, 1);
    SortDescCount(results, Confidence, IsOverrun);
    SortDescCount(results, Confidence, IsNoOverrun);
    CountWeaker(results, IsNoOverrun, IsNotOverrun);
  }

  /** Numbering `s` from 1 and keeping the overrun entries gives each overrun element of `s`
      once, with its 1-based position, in the order of `s`. */
  lemma HighRiskEntries(s: seq<OverrunResult>)
    ensures var h := Filter(Numbered(s, 1), IsOverrunEntry);
      (forall k :: 0 <= k < |h| ==> 1 <= h[k].0 <= |s| && s[h[k].0 - 1] == h[k].1 && h[k].1.prediction == 1)
      && (forall i :: 0 <= i < |s| && s[i].prediction == 1 ==> (i + 1, s[i]) in h)
  {
    var n := Numbered(s, 1);
    var h := Filter(n, IsOverrunEntry);
    forall k | 0 <= k < |h|
      ensures 1 <= h[k].0 <= |s| && s[h[k].0 - 1] == h[k].1 && h[k].1.prediction == 1
    {
      FilterMembership(n, IsOverrunEntry, h[k]);
    }
    forall i | 0 <= i < |s| && s[i].prediction == 1 ensures (i + 1, s[i]) in h {
      assert n[i] == (i + 1, s[i]);
      FilterMembership(n, IsOverrunEntry, n[i]);
    }
  }

  lemma HighRiskEntriesOrdered(s: seq<OverrunResult>)
    requires SortedDesc(s, Confidence)
    ensures var h := Filter(Numbered(s, 1), IsOverrunEntry);
      forall k, l :: 0 <= k < l < |h| ==> h[k].0 < h[l].0 && Confidence(h[k].1) >= Confidence(h[l].1)
  {
    var n := Numbered(s, 1);
    assert forall i, j :: 0 <= i < j < |n| ==> ListedBefore(n[i], n[j]);
    FilterKeepsOrder(n, IsOverrunEntry, ListedBefore);
  }

  /** The high-risk list: entries carry their 1-based position in the descending-confidence
      order of all results, every overrun result appears with its position, and the list runs
      in that order. */
  lemma TimeHighRiskListing(weekLabel: string, results: seq<OverrunResult>)
    ensures var sorted := SortDesc(results, Confidence);
      var h := TimeReportOf(weekLabel, results).highRisk;
      |sorted| == |results| && SortedDesc(sorted, Confidence) && multiset(sorted) == multiset(results)
      && (forall k :: 0 <= k < |h| ==>
            1 <= h[k].0 <= |results| && sorted[h[k].0 - 1] == h[k].1 && h[k].1.prediction == 1)
      && (forall i :: 0 <= i < |sorted| && sorted[i].prediction == 1 ==> (i + 1, sorted[i]) in h)
      && (forall k, l :: 0 <= k < l < |h| ==> h[k].0 < h[l].0 && Confidence(h[k].1) >= Confidence(h[l].1))
  {
    var sorted := SortDesc(results, Confidence);
    SortDescSorted(results, Confidence);
    SortDescPermutes(results, Confidence);
    HighRiskEntries(sorted);
    HighRiskEntriesOrdered(sorted);
    assert TimeReportOf(weekLabel, results).highRisk == Filter(Numbered(sorted, 1), IsOverrunEntry);
  }

  /** The lower-risk list holds exactly the results predicted 0, by descending confidence. */
  lemma TimeLowerRiskListing(weekLabel: string, results: seq<OverrunResult>, x: OverrunResult)
    ensures var low := TimeReportOf(weekLabel, results).lowerRisk;
      (x in low <==> x in results && x.prediction == 0) && SortedDesc(low, Confidence)
  {
    var sorted := SortDesc(results, Confidence);
    SortDescSorted(results, Confidence);
    SortDescPermutes(results, Confidence);
    assert x in sorted <==> x in multiset(results);
    FilterMembership(sorted, IsNoOverrun, x);
    FilterKeepsOrder(sorted, IsNoOverrun, NotLessConfident);
  }

  // ---------------------------------------------------------------------------------------
  // Trigger breakdown (the `trigger_counts` dictionary of `collect_safety_data`)

  /** A dictionary filled by `counts[k] = counts.get(k, 0) + 1`: its keys in insertion order
      and the counts. */
  datatype Tally<K> = Tally(order: seq<K>, counts: map<K, nat>)

  function Bump<K>(t: Tally<K>, k: K): Tally<K>
  {
    if k in t.counts then Tally(t.order, t.counts[k := t.counts[k] + 1])
    else Tally(t.order + [k], t.counts[k := 1])
  }

  /** The dictionary after counting `keys` from an empty one. */
  function TallyOf<K>(keys: seq<K>): Tally<K>
  {
    if keys == [] then Tally([], map[]) else Bump(TallyOf(keys[..|keys| - 1]), keys[|keys| - 1])
  }

  /** `trigger_counts.items()`, in insertion order. */
  function Entries<K>(t: Tally<K>): seq<(K, nat)>
  {
    seq(|t.order|, i requires 0 <= i < |t.order| => (t.order[i], if t.order[i] in t.counts then t.counts[t.order[i]] else 0))
  }

  function EntryCount<K>(e: (K, nat)): nat
  {
    e.1
  }

  function EntryKey<K>(e: (K, nat)): real
  {
    e.1 as real
  }

  /** The listed breakdown: the items sorted by count, highest first. */
  function Breakdown<K(==)>(keys: seq<K>): seq<(K, nat)>
  {
    SortDesc(Entries(TallyOf(keys)), EntryKey)
  }

  /** Keys listed once each, and listed exactly when counted. */
  predicate Consistent<K>(t: Tally<K>)
  {
    (forall i, j :: 0 <= i < j < |t.order| ==> t.order[i] != t.order[j])
    && t.counts.Keys == set i | 0 <= i < |t.order| :: t.order[i]
  }

  /** One `counts[k] = counts.get(k, 0) + 1` step: `k` gains one, nothing else changes, and the
      total grows by one. */
  lemma BumpSpec<K>(t: Tally<K>, k: K)
    requires Consistent(t)
    ensures Consistent(Bump(t, k))
    ensures forall x :: x in Bump(t, k).counts <==> x in t.counts || x == k
    ensures forall x :: x in Bump(t, k).counts ==>
      Bump(t, k).counts[x] == (if x in t.counts then t.counts[x] else 0) + (if x == k then 1 else 0)
    ensures Total(Entries(Bump(t, k)), EntryCount) == Total(Entries(t), EntryCount) + 1
  {
    var b := Bump(t, k);
    if k in t.counts {
      var p :| 0 <= p < |t.order| && t.order[p] == k;
      assert Entries(b) == Entries(t)[p := (k, t.counts[k] + 1)];
      TotalUpdate(Entries(t), p, (k, t.counts[k] + 1), EntryCount);
    } else {
      assert Entries(b) == Entries(t) + [(k, 1)];
      assert (set i | 0 <= i < |b.order| :: b.order[i]) == (set i | 0 <= i < |t.order| :: t.order[i]) + {k} by {
        assert forall i :: 0 <= i < |t.order| ==> b.order[i] == t.order[i];
        assert b.order[|t.order|] == k;
      }
      TotalAppend(Entries(t), [(k, 1)], EntryCount);
    }
  }

  /** Every key is counted once per occurrence, each distinct key has one entry, and the
      counts add up to the number of keys. */
  lemma {:induction false} TallySpec<K>(keys: seq<K>)
    ensures Consistent(TallyOf(keys))
    ensures forall k :: k in TallyOf(keys).counts <==> k in keys
    ensures forall k :: k in TallyOf(keys).counts ==> TallyOf(keys).counts[k] == multiset(keys)[k]
    ensures Total(Entries(TallyOf(keys)), EntryCount) == |keys|
  {
    if keys != [] {
      var init := keys[..|keys| - 1];
      var k := keys[|keys| - 1];
      assert keys == init + [k];
      TallySpec(init);
      BumpSpec(TallyOf(init), k);
    }
  }

  /** The breakdown is sorted by count, lists every key with its number of occurrences, and
      its counts add up to the number of keys. */
  lemma BreakdownSpec<K>(keys: seq<K>)
    ensures var b := Breakdown(keys);
      SortedDesc(b, EntryKey)
      && (forall i :: 0 <= i < |b| ==> b[i].0 in keys && b[i].1 == multiset(keys)[b[i].0])
      && (forall k :: k in keys ==> exists i :: 0 <= i < |b| && b[i].0 == k)
      && Total(b, EntryCount) == |keys|
  {
    var t := TallyOf(keys);
    var e := Entries(t);
    var b := Breakdown(keys);
    TallySpec(keys);
    assert forall k :: k in t.order <==> k in keys;
    SortDescSorted(e, EntryKey);
    SortDescPermutes(e, EntryKey);
    SortDescTotal(e, EntryKey, EntryCount);
    forall i | 0 <= i < |b| ensures b[i].0 in keys && b[i].1 == multiset(keys)[b[i].0] {
      assert b[i] in multiset(e);
    }
    forall k | k in keys ensures exists i :: 0 <= i < |b| && b[i].0 == k {
      var j :| 0 <= j < |t.order| && t.order[j] == k;
      assert e[j] in multiset(b);
    }
  }

  /** The keys of one day's triggers. */
  function KeysOf<K>(triggers: seq<Safety.Trigger>, key: Safety.Trigger -> K): seq<K>
  {
    seq(|triggers|, i requires 0 <= i < |triggers| => key(triggers[i]))
  }

  /** The keys counted over `days`, day by day. */
  function TriggerKeys<K>(days: seq<Safety.Prediction>, key: Safety.Trigger -> K): seq<K>
  {
    if days == [] then [] else KeysOf(days[0].triggered, key) + TriggerKeys(days[1..], key)
  }

  lemma {:induction false} TriggerKeysAppend<K>(days: seq<Safety.Prediction>, day: Safety.Prediction,
                                                key: Safety.Trigger -> K)
    ensures TriggerKeys(days + [day], key) == TriggerKeys(days, key) + KeysOf(day.triggered, key)
  {
    if days == [] {
      assert TriggerKeys([day], key) == KeysOf(day.triggered, key) + TriggerKeys([], key);
    } else {
      assert (days + [day])[1..] == days[1..] + [day];
      TriggerKeysAppend(days[1..], day, key);
    }
  }

  function TriggerCount(p: Safety.Prediction): nat
  {
    |p.triggered|
  }

  /** One key per trigger: the breakdown's counts add up to the number of triggers over the
      days. */
  lemma {:induction false} TriggerKeysCount<K>(days: seq<Safety.Prediction>, key: Safety.Trigger -> K)
    ensures |TriggerKeys(days, key)| == Total(days, TriggerCount)
    ensures Total(Breakdown(TriggerKeys(days, key)), EntryCount) == Total(days, TriggerCount)
  {
    if days != [] {
      TriggerKeysCount(days[1..], key);
    }
    BreakdownSpec(TriggerKeys(days, key));
  }

  lemma TallyOfSnoc<K>(keys: seq<K>, k: K)
    ensures TallyOf(keys + [k]) == Bump(TallyOf(keys), k)
  {
    assert (keys + [k])[..|keys|] == keys;
  }

  lemma KeysOfSnoc<K>(triggers: seq<Safety.Trigger>, j: nat, key: Safety.Trigger -> K)
    requires j < |triggers|
    ensures KeysOf(triggers[..j + 1], key) == KeysOf(triggers[..j], key) + [key(triggers[j])]
  {
  }

  /** The inner loop of `collect_safety_data`: one day's triggers counted into the dictionary. */
  method CountTriggers<K(==)>(order: seq<K>, counts: map<K, nat>, triggers: seq<Safety.Trigger>,
                              key: Safety.Trigger -> K, ghost before: seq<K>)
    returns (order': seq<K>, counts': map<K, nat>)
    requires Tally(order, counts) == TallyOf(before)
    ensures Tally(order', counts') == TallyOf(before + KeysOf(triggers, key))
  {
    order', counts' := order, counts;
    assert before + KeysOf(triggers[..0], key) == before;
    for j := 0 to |triggers|
      invariant Tally(order', counts') == TallyOf(before + KeysOf(triggers[..j], key))
    {
      var k := key(triggers[j]);
      KeysOfSnoc(triggers, j, key);
      TallyOfSnoc(before + KeysOf(triggers[..j], key), k);
      assert before + KeysOf(triggers[..j + 1], key) == before + KeysOf(triggers[..j], key) + [k];
      if k !in counts' {
        order' := order' + [k];
      }
      counts' := counts'[k := (if k in counts' then counts'[k] else 0) + 1];
    }
    assert triggers[..|triggers|] == triggers;
  }

  /** The nested loop of `collect_safety_data` that fills the dictionary, then the listing
      sorted by count. */
  method TallyTriggers<K(==)>(days: seq<Safety.Prediction>, key: Safety.Trigger -> K) returns (breakdown: seq<(K, nat)>)
    ensures breakdown == Breakdown(TriggerKeys(days, key))
  {
    var order: seq<K> := [];
    var counts: map<K, nat> := map[];
    for d := 0 to |days|
      invariant Tally(order, counts) == TallyOf(TriggerKeys(days[..d], key))
    {
      order, counts := CountTriggers(order, counts, days[d].triggered, key, TriggerKeys(days[..d], key));
      assert days[..d + 1] == days[..d] + [days[d]];
      TriggerKeysAppend(days[..d], days[d], key);
    }
    assert days[..|days|] == days;
    breakdown := SortDesc(Entries(Tally(order, counts)), EntryKey);
  }

  /** The key the source actually uses: the whole trigger text with its reading and
      threshold (the text has no `]` to split on). */
  function TriggerText(t: Safety.Trigger): Safety.Trigger
  {
    t
  }

  /** The key evidently intended: the indicator. */
  function TriggerFactor(t: Safety.Trigger): Safety.Factor
  {
    t.factor
  }

  /** A high-risk day with one trigger, for the counterexample below. */
  function HighRiskDay(date: string, t: Safety.Trigger): Safety.Prediction
  {
    var shown := Safety.Shown(0.0, 2);
    Safety.Prediction(date, Safety.HighRisk, Safety.Features(shown, shown, shown, shown, shown, shown, shown),
                      Safety.DefaultThresholds, [t], [Safety.Advice(t.factor)], map[])
  }

  /** Counting two keys: two entries of one when they differ, one entry of two when not. */
  lemma TallyOfPair<K>(x: K, y: K)
    ensures x != y ==> TallyOf([x, y]) == Tally([x, y], map[x := 1, y := 1])
    ensures x == y ==> TallyOf([x, y]) == Tally([x], map[x := 2])
  {
    assert [x, y][..1] == [x];
    assert [x][..0] == [];
    var empty: Tally<K> := Tally([], map[]);
    var one := TallyOf([x]);
    assert TallyOf([x][..0]) == empty;
    assert one == Bump(TallyOf([x][..0]), x);
    assert empty.order + [x] == [x];
    assert empty.counts[x := 1] == map[x := 1];
    assert TallyOf([x, y]) == Bump(one, y);
    if x == y {
      assert map[x := 1][x := 2] == map[x := 2];
    }
  }

  /** The trigger keys of two one-trigger days. */
  lemma TwoDayKeys<K>(d1: Safety.Prediction, d2: Safety.Prediction, key: Safety.Trigger -> K)
    requires |d1.triggered| == 1 && |d2.triggered| == 1
    ensures TriggerKeys([d1, d2], key) == [key(d1.triggered[0]), key(d2.triggered[0])]
  {
    var days := [d1, d2];
    assert days[1..] == [d2];
    assert days[1..][1..] == [];
    assert KeysOf(d1.triggered, key) == [key(d1.triggered[0])];
    assert KeysOf(d2.triggered, key) == [key(d2.triggered[0])];
    assert TriggerKeys(days[1..][1..], key) == [];
    assert TriggerKeys(days[1..], key) == [key(d2.triggered[0])] + [];
    assert TriggerKeys(days, key) == [key(d1.triggered[0])] + [key(d2.triggered[0])];
  }

  /** As written, two days on which vibration fired with different readings give two
      entries of one day each; counted by indicator they give one entry of two days. */
  lemma AsWrittenSplitsFactor()
    ensures var days := [HighRiskDay("2023-01-01", Safety.Trigger(Safety.Vibration, 45.3, 35.0)),
                         HighRiskDay("2023-01-02", Safety.Trigger(Safety.Vibration, 38.3, 35.0))];
      |Breakdown(TriggerKeys(days, TriggerText))| == 2
      && Breakdown(TriggerKeys(days, TriggerFactor)) == [(Safety.Vibration, 2)]
  {
    var t1 := Safety.Trigger(Safety.Vibration, 45.3, 35.0);
    var t2 := Safety.Trigger(Safety.Vibration, 38.3, 35.0);
    var d1 := HighRiskDay("2023-01-01", t1);
    var d2 := HighRiskDay("2023-01-02", t2);
    TwoDayKeys(d1, d2, TriggerText);
    TallyOfPair(t1, t2);
    SortDescPermutes(Entries(Tally([t1, t2], map[t1 := 1, t2 := 1])), EntryKey);
    TwoDayKeys(d1, d2, TriggerFactor);
    var vs := [Safety.Vibration, Safety.Vibration];
    assert TriggerKeys([d1, d2], TriggerFactor) == vs;
    TallyOfPair(Safety.Vibration, Safety.Vibration);
    var entries := Entries(TallyOf(vs));
    assert entries == [(Safety.Vibration, 2)];
    assert entries[1..] == [];
    assert SortDesc(entries, EntryKey) == Insert(entries[0], [], EntryKey);
  }

  /** The indicators of one day's triggers are distinct, as `check_thresholds` lists them. */
  predicate FactorsDistinct(p: Safety.Prediction)
  {
    forall i, j :: 0 <= i < j < |p.triggered| ==> p.triggered[i].factor != p.triggered[j].factor
  }

  function FiredOn(f: Safety.Factor): Safety.Prediction -> bool
  {
    (p: Safety.Prediction) => exists i :: 0 <= i < |p.triggered| && p.triggered[i].factor == f
  }

  lemma {:induction false} DistinctOccurrence<K>(s: seq<K>, k: K)
    requires forall i, j :: 0 <= i < j < |s| ==> s[i] != s[j]
    ensures multiset(s)[k] == if k in s then 1 else 0
  {
    if s != [] {
      DistinctOccurrence(s[1..], k);
      assert s == [s[0]] + s[1..];
    }
  }

  lemma {:induction false} FactorOccurrences(days: seq<Safety.Prediction>, f: Safety.Factor)
    requires forall d :: 0 <= d < |days| ==> FactorsDistinct(days[d])
    ensures multiset(TriggerKeys(days, TriggerFactor))[f] == Count(days, FiredOn(f))
  {
    if days != [] {
      FactorOccurrences(days[1..], f);
      var ks := KeysOf(days[0].triggered, TriggerFactor);
      assert forall i :: 0 <= i < |ks| ==> ks[i] == days[0].triggered[i].factor;
      DistinctOccurrence(ks, f);
      if FiredOn(f)(days[0]) {
        var i :| 0 <= i < |days[0].triggered| && days[0].triggered[i].factor == f;
        assert ks[i] == f;
      }
    }
  }

  /** Counted by indicator, each listed count is the number of days on which that indicator
      fired, the counts are sorted, and every indicator that fired is listed. */
  lemma FactorBreakdownCountsDays(days: seq<Safety.Prediction>)
    requires forall d :: 0 <= d < |days| ==> FactorsDistinct(days[d])
    ensures var b := Breakdown(TriggerKeys(days, TriggerFactor));
      SortedDesc(b, EntryKey)
      && (forall i :: 0 <= i < |b| ==> b[i].1 == Count(days, FiredOn(b[i].0)) && b[i].1 > 0)
      && (forall d, i :: 0 <= d < |days| && 0 <= i < |days[d].triggered| ==>
            exists k :: 0 <= k < |b| && b[k].0 == days[d].triggered[i].factor)
  {
    var keys := TriggerKeys(days, TriggerFactor);
    BreakdownSpec(keys);
    forall i | 0 <= i < |Breakdown(keys)| ensures Breakdown(keys)[i].1 == Count(days, FiredOn(Breakdown(keys)[i].0)) {
      FactorOccurrences(days, Breakdown(keys)[i].0);
    }
    forall d, i | 0 <= d < |days| && 0 <= i < |days[d].triggered|
      ensures days[d].triggered[i].factor in keys
    {
      TriggerKeysIn(days, d, i);
    }
  }

  lemma {:induction false} TriggerKeysIn(days: seq<Safety.Prediction>, d: nat, i: nat)
    requires d < |days| && i < |days[d].triggered|
    ensures days[d].triggered[i].factor in TriggerKeys(days, TriggerFactor)
  {
    if d == 0 {
      assert KeysOf(days[0].triggered, TriggerFactor)[i] == days[d].triggered[i].factor;
    } else {
      TriggerKeysIn(days[1..], d - 1, i);
    }
  }

  /** Every successful daily prediction lists each indicator at most once. */
  lemma RowPredictionFactorsDistinct(t: Safety.Thresholds, perf: map<string, real>, row: Safety.Row)
    requires Safety.RowPrediction(t, perf, row).Ok?
    ensures FactorsDistinct(Safety.RowPrediction(t, perf, row).value)
  {
    var c := row.columns;
    var u := Safety.RowUtilization(c);
    Safety.AssessListsParallel(t, c["vibration_level"], Safety.HeatIndex(c["temperature"], c["humidity"]),
                               Safety.WorkerDensity(c["worker_count"], u));
  }

  // ---------------------------------------------------------------------------------------
  // Safety section (`collect_safety_data`)

  /** A point in time as `pd.to_datetime` gives it; only its order matters here. */
  type Instant = int

  /** One row of the daily frame: its `date` and the columns `batch_predict` reads. */
  datatype DailyRow = DailyRow(date: Instant, row: Safety.Row)

  /** The closed-interval week filter `week_start <= date <= week_end`. */
  function InWeek(weekStart: Instant, weekEnd: Instant): DailyRow -> bool
  {
    (d: DailyRow) => weekStart <= d.date <= weekEnd
  }

  /** One iteration of `batch_predict` on a row of the week. */
  function DayStep(t: Safety.Thresholds, perf: map<string, real>): (nat, DailyRow) -> Result<Safety.Prediction>
  {
    (i: nat, d: DailyRow) => Safety.RowPrediction(t, perf, d.row)
  }

  predicate IsHighRisk(p: Safety.Prediction)
  {
    p.level == Safety.HighRisk
  }

  predicate IsLowRisk(p: Safety.Prediction)
  {
    p.level != Safety.HighRisk
  }

  /** The safety section: the "No data available" notice, or the day counts, the high-risk
      days in input order and the trigger breakdown. */
  datatype SafetySummary =
    | NoSafetyData(weekStart: Instant, weekEnd: Instant)
    | SafetyReport(weekStart: Instant, weekEnd: Instant, totalDays: nat, highRiskDays: seq<Safety.Prediction>,
                   lowRiskDays: nat, breakdown: seq<(Safety.Factor, nat)>)

  /** The section for the week's predictions; the breakdown counts by indicator. */
  function SafetyReportOf(weekStart: Instant, weekEnd: Instant, predictions: seq<Safety.Prediction>): SafetySummary
  {
    var high := Filter(predictions, IsHighRisk);
    SafetyReport(weekStart, weekEnd, |predictions|, high, |predictions| - |high|,
                 Breakdown(TriggerKeys(high, TriggerFactor)))
  }

  /** High-risk days are exactly the predictions at HIGH RISK, the high- and low-risk day
      counts add up to the days monitored, and the breakdown's counts add up to the
      triggers of the high-risk days. */
  lemma SafetyCounts(weekStart: Instant, weekEnd: Instant, predictions: seq<Safety.Prediction>, x: Safety.Prediction)
    ensures var s := SafetyReportOf(weekStart, weekEnd, predictions);
      s.totalDays == |predictions|
      && |s.highRiskDays| + s.lowRiskDays == s.totalDays
      && s.lowRiskDays == Count(predictions, IsLowRisk)
      && (x in s.highRiskDays <==> x in predictions && x.level == Safety.HighRisk)
      && Total(s.breakdown, EntryCount) == Total(s.highRiskDays, TriggerCount)
  {
    CountSplit(predictions, IsHighRisk, IsLowRisk);
    FilterMembership(predictions, IsHighRisk, x);
    TriggerKeysCount(Filter(predictions, IsHighRisk), TriggerFactor);
  }

  /** On the predictions `batch_predict` makes, each breakdown count is the number of
      high-risk days on which that indicator fired. */
  lemma SafetyBreakdownCountsDays(t: Safety.Thresholds, perf: map<string, real>, week: seq<DailyRow>,
                                  weekStart: Instant, weekEnd: Instant)
    requires MapFrom(week, 0, DayStep(t, perf)).Ok?
    ensures var s := SafetyReportOf(weekStart, weekEnd, MapFrom(week, 0, DayStep(t, perf)).value);
      forall i :: 0 <= i < |s.breakdown| ==> s.breakdown[i].1 == Count(s.highRiskDays, FiredOn(s.breakdown[i].0))
  {
    var predictions := MapFrom(week, 0, DayStep(t, perf)).value;
    MapFromOk(week, 0, DayStep(t, perf));
    var high := Filter(predictions, IsHighRisk);
    forall d | 0 <= d < |high| ensures FactorsDistinct(high[d]) {
      FilterMembership(predictions, IsHighRisk, high[d]);
      var j :| 0 <= j < |predictions| && predictions[j] == high[d];
      RowPredictionFactorsDistinct(t, perf, week[j].row);
    }
    FactorBreakdownCountsDays(high);
  }

  /** The `row` column of each day of the week: what `batch_predict` is given. */
  function Rows(week: seq<DailyRow>): (rows: seq<Safety.Row>)
    ensures |rows| == |week| && forall j :: 0 <= j < |week| ==> rows[j] == week[j].row
  {
    seq(|week|, j requires 0 <= j < |week| => week[j].row)
  }

  /** `batch_predict` on the week's rows is the day-by-day loop over the week. */
  lemma WeekPredictions(t: Safety.Thresholds, perf: map<string, real>, week: seq<DailyRow>)
    ensures MapFrom(Rows(week), 0, Safety.RowStep(t, perf)) == MapFrom(week, 0, DayStep(t, perf))
  {
    var dayStep := DayStep(t, perf);
    var rowStep := Safety.RowStep(t, perf);
    var rows := Rows(week);
    assert forall j :: 0 <= j < |week| ==> dayStep(j, week[j]) == rowStep(j, rows[j]);
    MapFromAgree(week, rows, 0, dayStep, rowStep);
  }

  // ---------------------------------------------------------------------------------------
  // Drift section (`collect_drift_data`)

  /** A drift alert: the time fields the filter reads (absent keys are `None`) and the
      fields it displays. */
  datatype DriftAlert = DriftAlert(startTime: Option<Instant>, timestamp: Option<Instant>, date: Option<Instant>,
                                   endTime: Option<Instant>, details: map<string, string>)

  /** `start_time`, else `timestamp`, else `date`, else the empty string, which parses to
      NaT (`None`). */
  function AlertStart(a: DriftAlert): Option<Instant>
  {
    if a.startTime.Some? then a.startTime else if a.timestamp.Some? then a.timestamp else a.date
  }

  /** `end_time`, defaulting to the start. */
  function AlertEnd(a: DriftAlert): Option<Instant>
  {
    if a.endTime.Some? then a.endTime else AlertStart(a)
  }

  /** The overlap test `alert_start <= week_end and alert_end >= week_start`; any comparison
      with NaT is false. */
  function Overlaps(weekStart: Instant, weekEnd: Instant): DriftAlert -> bool
  {
    (a: DriftAlert) => AlertStart(a).Some? && AlertEnd(a).Some? &&
      AlertStart(a).value <= weekEnd && AlertEnd(a).value >= weekStart
  }

  const AlertsPath := "results/task3_alerts.json"

  /** At most this many alerts are listed. */
  const ShownAlerts := 10

  /** The drift section: the missing-file notice, or the number of alerts in the week, the
      first ten numbered from 1 and the count of those not shown. */
  datatype DriftSummary =
    | NoDriftFile(path: string)
    | DriftReport(weekStart: Instant, weekEnd: Instant, total: nat, shown: seq<(nat, DriftAlert)>, more: Option<nat>)

  function DriftReportOf(weekStart: Instant, weekEnd: Instant, week: seq<DriftAlert>): DriftSummary
  {
    DriftReport(weekStart, weekEnd, |week|, Numbered(Head(week, ShownAlerts), 1),
                if |week| > ShownAlerts then Some(|week| - ShownAlerts) else None)
  }

  /** An alert is in the week exactly when it overlaps the closed week; without an end it is
      in the week exactly when its start is. */
  lemma DriftSelection(alerts: seq<DriftAlert>, weekStart: Instant, weekEnd: Instant, a: DriftAlert)
    ensures a in Filter(alerts, Overlaps(weekStart, weekEnd)) <==>
      a in alerts && AlertStart(a).Some? && AlertEnd(a).Some? &&
      AlertStart(a).value <= weekEnd && AlertEnd(a).value >= weekStart
    ensures a.endTime.None? ==>
      (Overlaps(weekStart, weekEnd)(a) <==> AlertStart(a).Some? && weekStart <= AlertStart(a).value <= weekEnd)
  {
    FilterMembership(alerts, Overlaps(weekStart, weekEnd), a);
  }

  /** At most ten alerts are listed, the first ones numbered from 1, and the "... and N more"
      line appears exactly when there are more than ten, with N the rest. */
  lemma DriftCap(weekStart: Instant, weekEnd: Instant, week: seq<DriftAlert>)
    ensures var s := DriftReportOf(weekStart, weekEnd, week);
      |s.shown| <= ShownAlerts && |s.shown| == (if |week| < ShownAlerts then |week| else ShownAlerts)
      && (forall i :: 0 <= i < |s.shown| ==> s.shown[i] == (i + 1, week[i]))
      && (s.more.Some? <==> |week| > ShownAlerts)
      && (s.more.Some? ==> s.more.value == |week| - ShownAlerts && |s.shown| + s.more.value == s.total)
  {
  }

  // ---------------------------------------------------------------------------------------
  // Scorecard health labels (`collect_scorecard_data`)

  datatype HealthLabel = Critical | Concerning | Good {
    function Order(): nat
    {
      match this
      case Critical => 0
      case Concerning => 1
      case Good => 2
    }
  }

  /** Good from `goodFrom`, Concerning from `concerningFrom`, Critical below; both
      boundaries inclusive. */
  function HealthLabelOf(score: real, goodFrom: real, concerningFrom: real): HealthLabel
  {
    if score >= goodFrom then Good else if score >= concerningFrom then Concerning else Critical
  }

  /** "Overall Health" of the daily per-site scorecard. */
  function DailyScorecardHealth(average: real): (h: HealthLabel)
    ensures h == Good <==> average >= 80.0
    ensures h == Concerning <==> 60.0 <= average < 80.0
    ensures h == Critical <==> average < 60.0
  {
    HealthLabelOf(average, 80.0, 60.0)
  }

  /** "Health Status" of the project scorecard results. */
  function ResultsScorecardHealth(average: real): (h: HealthLabel)
    ensures h == Good <==> average >= 70.0
    ensures h == Concerning <==> 50.0 <= average < 70.0
    ensures h == Critical <==> average < 50.0
  {
    HealthLabelOf(average, 70.0, 50.0)
  }

  /** A higher average never gets a worse label. */
  lemma HealthLabelMonotone(a: real, b: real, goodFrom: real, concerningFrom: real)
    requires concerningFrom <= goodFrom && a <= b
    ensures HealthLabelOf(a, goodFrom, concerningFrom).Order() <= HealthLabelOf(b, goodFrom, concerningFrom).Order()
  {
  }

  // ---------------------------------------------------------------------------------------
  // Narrative (`generate_narrative`, `_generate_fallback_narrative`)

  /** The five section texts handed to the narrative; an empty string is a skipped section. */
  datatype Summaries = Summaries(time: string, safety: string, kpi: string, drift: string, scorecard: string)

  /** The values the prompt template is filled with. */
  datatype PromptData = PromptData(kpiData: string, timeOverrunData: string, driftData: string,
                                   safetyData: string, scorecardData: string)

  /** `s or fallback`. */
  function OrElse(s: string, fallback: string): string
  {
    if s == "" then fallback else s
  }

  function FillPrompt(s: Summaries): PromptData
  {
    PromptData(OrElse(s.kpi, "No KPI data available"), s.time,
               OrElse(s.drift, "No drift detection data available"), s.safety,
               OrElse(s.scorecard, "No scorecard data available"))
  }

  /** The optional summaries are never empty in the prompt: an empty one is replaced by its
      "No ... data available" notice, a non-empty one is passed as it is. */
  lemma FillPromptDefaults(s: Summaries)
    ensures var p := FillPrompt(s);
      p.timeOverrunData == s.time && p.safetyData == s.safety
      && p.kpiData != "" && p.driftData != "" && p.scorecardData != ""
      && (s.kpi != "" ==> p.kpiData == s.kpi)
      && (s.drift != "" ==> p.driftData == s.drift)
      && (s.scorecard != "" ==> p.scorecardData == s.scorecard)
  {
  }

  datatype SectionKind = KpiSection | TimeSection | DriftSection | SafetySection | ScorecardSection {
    function Title(): string
    {
      match this
      case KpiSection => "KPI Dashboard"
      case TimeSection => "Time Overrun Predictions"
      case DriftSection => "Drift Detection"
      case SafetySection => "Safety Alerts"
      case ScorecardSection => "Project Scorecard"
    }

    /** Position in the fallback narrative. */
    function Order(): nat
    {
      match this
      case KpiSection => 0
      case TimeSection => 1
      case DriftSection => 2
      case SafetySection => 3
      case ScorecardSection => 4
    }

    /** KPI, drift and scorecard sections are skipped when their summary is empty. */
    predicate Optional()
    {
      this == KpiSection || this == DriftSection || this == ScorecardSection
    }
  }

  datatype Section = Section(kind: SectionKind, body: string)

  function SummaryFor(s: Summaries, k: SectionKind): string
  {
    match k
    case KpiSection => s.kpi
    case TimeSection => s.time
    case DriftSection => s.drift
    case SafetySection => s.safety
    case ScorecardSection => s.scorecard
  }

  /** The sections `_generate_fallback_narrative` appends. */
  function FallbackSections(s: Summaries): seq<Section>
  {
    (if s.kpi != "" then [Section(KpiSection, s.kpi)] else [])
    + [Section(TimeSection, s.time)]
    + (if s.drift != "" then [Section(DriftSection, s.drift)] else [])
    + [Section(SafetySection, s.safety)]
    + (if s.scorecard != "" then [Section(ScorecardSection, s.scorecard)] else [])
  }

  /** The sections run KPI, time, drift, safety, scorecard; each carries its own summary; the
      time and safety sections are always there and the others exactly when non-empty. */
  lemma FallbackSectionsSpec(s: Summaries, k: SectionKind)
    ensures var secs := FallbackSections(s);
      (forall i, j :: 0 <= i < j < |secs| ==> secs[i].kind.Order() < secs[j].kind.Order())
      && (forall i :: 0 <= i < |secs| ==> secs[i].body == SummaryFor(s, secs[i].kind))
      && ((exists i :: 0 <= i < |secs| && secs[i].kind == k) <==> !k.Optional() || SummaryFor(s, k) != "")
  {
    var secs := FallbackSections(s);
    if !k.Optional() || SummaryFor(s, k) != "" {
      var i := match k
        case KpiSection => 0
        case TimeSection => if s.kpi != "" then 1 else 0
        case DriftSection => if s.kpi != "" then 2 else 1
        case SafetySection => (if s.kpi != "" then 2 else 1) + (if s.drift != "" then 1 else 0)
        case ScorecardSection => (if s.kpi != "" then 3 else 2) + (if s.drift != "" then 1 else 0);
      assert secs[i].kind == k;
    }
  }

  function SectionText(sec: Section): string
  {
    "### " + sec.kind.Title() + "\n```\n" + sec.body + "\n```\n"
  }

  /** `sep.join(parts)`. */
  function Join(parts: seq<string>, sep: string): string
  {
    if parts == [] then "" else if |parts| == 1 then parts[0] else parts[0] + sep + Join(parts[1..], sep)
  }

  function SectionTexts(sections: seq<Section>): seq<string>
  {
    seq(|sections|, i requires 0 <= i < |sections| => SectionText(sections[i]))
  }

  const FallbackHeader := "# Weekly Operations Summary\n\n## Raw Data\n\n"
  const FallbackFooter := "\n\n## Note\nFull narrative generation unavailable. Please review raw data above.\n"

  /** The fallback narrative text. */
  function FallbackText(sections: seq<Section>): string
  {
    FallbackHeader + Join(SectionTexts(sections), "\n") + FallbackFooter
  }

  // ---------------------------------------------------------------------------------------
  // The loops of the collectors

  /** The `enumerate(results_sorted, 1)` loop keeping the projects predicted to overrun. */
  method ListHighRisk(sorted: seq<OverrunResult>) returns (highRisk: seq<(nat, OverrunResult)>)
    ensures highRisk == Filter(Numbered(sorted, 1), IsOverrunEntry)
  {
    highRisk := [];
    for i := 0 to |sorted|
      invariant highRisk == Filter(Numbered(sorted[..i], 1), IsOverrunEntry)
    {
      assert sorted[..i + 1] == sorted[..i] + [sorted[i]];
      var entry: (nat, OverrunResult) := (i + 1, sorted[i]);
      NumberedAppend(sorted[..i], sorted[i], 1);
      FilterAppend(Numbered(sorted[..i], 1), [entry], IsOverrunEntry);
      if sorted[i].prediction == 1 {
        highRisk := highRisk + [entry];
      }
    }
    assert sorted[..|sorted|] == sorted;
  }

  /** The loop listing the projects predicted 0. */
  method ListLowerRisk(sorted: seq<OverrunResult>) returns (lowerRisk: seq<OverrunResult>)
    ensures lowerRisk == Filter(sorted, IsNoOverrun)
  {
    lowerRisk := [];
    for i := 0 to |sorted|
      invariant lowerRisk == Filter(sorted[..i], IsNoOverrun)
    {
      assert sorted[..i + 1] == sorted[..i] + [sorted[i]];
      FilterAppend(sorted[..i], [sorted[i]], IsNoOverrun);
      if sorted[i].prediction == 0 {
        lowerRisk := lowerRisk + [sorted[i]];
      }
    }
    assert sorted[..|sorted|] == sorted;
  }

  /** The loop appending the alerts that overlap the week to `week_alerts`. */
  method SelectWeekAlerts(alerts: seq<DriftAlert>, weekStart: Instant, weekEnd: Instant) returns (weekAlerts: seq<DriftAlert>)
    ensures weekAlerts == Filter(alerts, Overlaps(weekStart, weekEnd))
  {
    weekAlerts := [];
    for i := 0 to |alerts|
      invariant weekAlerts == Filter(alerts[..i], Overlaps(weekStart, weekEnd))
    {
      assert alerts[..i + 1] == alerts[..i] + [alerts[i]];
      FilterAppend(alerts[..i], [alerts[i]], Overlaps(weekStart, weekEnd));
      var a := alerts[i];
      var alertStart := AlertStart(a);
      var alertEnd := AlertEnd(a);
      if alertStart.Some? && alertEnd.Some? && alertStart.value <= weekEnd && alertEnd.value >= weekStart {
        weekAlerts := weekAlerts + [a];
      }
    }
    assert alerts[..|alerts|] == alerts;
  }

  /** A loop over `enumerate(s, first)`. */
  method NumberFrom<T>(s: seq<T>, first: nat) returns (r: seq<(nat, T)>)
    ensures r == Numbered(s, first)
  {
    r := [];
    for i := 0 to |s|
      invariant r == Numbered(s[..i], first)
    {
      assert s[..i + 1] == s[..i] + [s[i]];
      NumberedAppend(s[..i], s[i], first);
      r := r + [(first + i, s[i])];
    }
    assert s[..|s|] == s;
  }

  // ---------------------------------------------------------------------------------------
  // The generator

  /** `WeeklyOpsNotesGenerator`: the overrun predictor, the safety system and the language
      model it was built with; `llm` gives `None` when the call raises. */
  class WeeklyOpsNotesGenerator {
    const timePredictor: OverrunPredictor
    const safetySystem: Safety.SafetyAlertSystem
    const llm: PromptData -> Option<string>

    constructor (timePredictor: OverrunPredictor, safetySystem: Safety.SafetyAlertSystem,
                 llm: PromptData -> Option<string>)
      ensures this.timePredictor == timePredictor && this.safetySystem == safetySystem && this.llm == llm
    {
      this.timePredictor := timePredictor;
      this.safetySystem := safetySystem;
      this.llm := llm;
    }

    /** `collect_time_overrun_data`: no projects gives the notice without consulting the
        predictor; otherwise every project is predicted in turn (the first failure is
        raised), the results are sorted by confidence and listed. */
    method CollectTimeOverrunData(projects: Option<seq<ProjectInput>>, weekLabel: string) returns (r: Result<TimeSummary>)
      ensures projects.None? || projects.value == [] ==> r == Ok(NoProjectData(weekLabel))
      ensures projects.Some? && projects.value != [] ==>
        var results := MapFrom(projects.value, 0, TimeStep(timePredictor.loaded));
        r == if results.Err? then Err(results.error) else Ok(TimeReportOf(weekLabel, results.value))
    {
      if projects.None? || projects.value == [] {
        return Ok(NoProjectData(weekLabel));
      }
      var results := Collect(projects.value, TimeStep(timePredictor.loaded));
      if results.Err? {
        return Err(results.error);
      }
      var all := results.value;
      var sorted := SortDesc(all, Confidence);
      var overrunCount := Count(all, IsOverrun);
      var noOverrunCount := |all| - overrunCount;
      TimeCounts(weekLabel, all);
      var highRisk: seq<(nat, OverrunResult)> := [];
      if overrunCount > 0 {
        highRisk := ListHighRisk(sorted);
      }
      var lowerRisk: seq<OverrunResult> := [];
      if noOverrunCount > 0 {
        lowerRisk := ListLowerRisk(sorted);
      }
      r := Ok(TimeReport(weekLabel, |all|, overrunCount, noOverrunCount, highRisk, lowerRisk));
    }

    /** `collect_safety_data`: the rows of the closed week, the notice when there are none,
        otherwise `batch_predict` on them and the high-risk days with their breakdown. */
    method CollectSafetyData(daily: seq<DailyRow>, weekStart: Instant, weekEnd: Instant) returns (r: Result<SafetySummary>)
      ensures var week := Filter(daily, InWeek(weekStart, weekEnd));
        var predictions := MapFrom(week, 0, DayStep(safetySystem.thresholds, safetySystem.performance));
        r == if week == [] then Ok(NoSafetyData(weekStart, weekEnd))
             else if predictions.Err? then Err(predictions.error)
             else Ok(SafetyReportOf(weekStart, weekEnd, predictions.value))
    {
      var week := Filter(daily, InWeek(weekStart, weekEnd));
      if |week| == 0 {
        return Ok(NoSafetyData(weekStart, weekEnd));
      }
      var predictions := safetySystem.BatchPredict(Rows(week));
      WeekPredictions(safetySystem.thresholds, safetySystem.performance, week);
      if predictions.Err? {
        return Err(predictions.error);
      }
      var high := Filter(predictions.value, IsHighRisk);
      var breakdown := TallyTriggers(high, TriggerFactor);
      r := Ok(SafetyReport(weekStart, weekEnd, |predictions.value|, high, |predictions.value| - |high|, breakdown));
    }

    /** `collect_drift_data`: the notice when the alerts file is missing, otherwise the
        alerts overlapping the week, in file order, the first ten of them listed. */
    method CollectDriftData(alerts: Option<seq<DriftAlert>>, weekStart: Instant, weekEnd: Instant) returns (s: DriftSummary)
      ensures alerts.None? ==> s == NoDriftFile(AlertsPath)
      ensures alerts.Some? ==> s == DriftReportOf(weekStart, weekEnd, Filter(alerts.value, Overlaps(weekStart, weekEnd)))
    {
      if alerts.None? {
        return NoDriftFile(AlertsPath);
      }
      var weekAlerts := SelectWeekAlerts(alerts.value, weekStart, weekEnd);
      var shown := NumberFrom(Head(weekAlerts, ShownAlerts), 1);
      var more := if |weekAlerts| > ShownAlerts then Some(|weekAlerts| - ShownAlerts) else None;
      s := DriftReport(weekStart, weekEnd, |weekAlerts|, shown, more);
    }

    /** `_generate_fallback_narrative`: appends the sections in order and joins them. */
    method FallbackNarrative(s: Summaries) returns (text: string)
      ensures text == FallbackText(FallbackSections(s))
    {
      var sections: seq<Section> := [];
      if s.kpi != "" {
        sections := sections + [Section(KpiSection, s.kpi)];
      }
      sections := sections + [Section(TimeSection, s.time)];
      if s.drift != "" {
        sections := sections + [Section(DriftSection, s.drift)];
      }
      sections := sections + [Section(SafetySection, s.safety)];
      if s.scorecard != "" {
        sections := sections + [Section(ScorecardSection, s.scorecard)];
      }
      assert sections == FallbackSections(s);
      text := FallbackText(sections);
    }

    /** `generate_narrative`: the model's text for the filled prompt, or the fallback
        narrative when the call fails. */
    method GenerateNarrative(s: Summaries) returns (text: string)
      ensures llm(FillPrompt(s)).Some? ==> text == llm(FillPrompt(s)).value
      ensures llm(FillPrompt(s)).None? ==> text == FallbackText(FallbackSections(s))
    {
      var prompt := FillPrompt(s);
      var response := llm(prompt);
      if response.Some? {
        return response.value;
      }
      text := FallbackNarrative(s);
    }
  }
}
