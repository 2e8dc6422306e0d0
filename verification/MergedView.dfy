/** What samples() shows: every series once, carrying the sum of its facts, and the derived
    presence of every order's lifecycles. */
module MergedView {
  import opened Text
  import opened Sorting
  import opened Dict
  import opened Exposition
  import opened DataPlane

  /** The sum of the raw facts of one series. */
  function Total(samples: seq<Sample>, series: Series): int
  {
    if samples == [] then 0
    else Total(samples[..|samples| - 1], series)
         + if SeriesOf(samples[|samples| - 1]) == series then samples[|samples| - 1].value else 0
  }

  function Sum(samples: seq<Sample>): int
  {
    if samples == [] then 0 else Sum(samples[..|samples| - 1]) + samples[|samples| - 1].value
  }

  predicate DistinctSeries(samples: seq<Sample>)
  {
    forall i, j :: 0 <= i < j < |samples| ==> SeriesOf(samples[i]) != SeriesOf(samples[j])
  }

  ghost predicate HasSeries(samples: seq<Sample>, series: Series)
  {
    exists s :: s in samples && SeriesOf(s) == series
  }

  lemma HasSeriesSnoc(samples: seq<Sample>, s: Sample, series: Series)
    ensures HasSeries(samples + [s], series) <==> SeriesOf(s) == series || HasSeries(samples, series)
  {
    var all := samples + [s];
    assert all[|samples|] == s;
    if t :| t in samples && SeriesOf(t) == series { assert t in all; }
  }

  // ----- merging ------------------------------------------------------------

  lemma {:induction false} MergeKeys(samples: seq<Sample>)
    ensures Distinct(Keys(Merge(samples)))
    ensures |Merge(samples)| <= |samples|
  {
    if samples != [] {
      MergeKeys(samples[..|samples| - 1]);
      MergeKeysStep(Merge(samples[..|samples| - 1]), SeriesOf(samples[|samples| - 1]), samples[|samples| - 1].value);
    }
  }

  lemma MergeKeysStep(d: Dict<Series, int>, series: Series, value: int)
    requires Distinct(Keys(d))
    ensures Distinct(Keys(Assign(d, series, Get(d, series, 0) + value))) && |Assign(d, series, Get(d, series, 0) + value)| <= |d| + 1
  {
    AssignDistinct(d, series, Get(d, series, 0) + value);
    AssignKeys(d, series, Get(d, series, 0) + value);
  }

  lemma {:induction false} MergeGet(samples: seq<Sample>, series: Series)
    ensures Has(Merge(samples), series) <==> HasSeries(samples, series)
    ensures Get(Merge(samples), series, 0) == Total(samples, series)
  {
    if samples != [] {
      var front, s := samples[..|samples| - 1], samples[|samples| - 1];
      assert samples == front + [s];
      var d := Merge(front);
      MergeGet(front, series);
      AssignGet(d, SeriesOf(s), Get(d, SeriesOf(s), 0) + s.value, series, 0);
      HasSeriesSnoc(front, s, series);
    }
  }

  lemma {:induction false} UnmergeAt(d: Dict<Series, int>)
    ensures forall i :: 0 <= i < |d| ==> Unmerge(d)[i] == Sample(d[i].0.0, d[i].0.1, d[i].1)
  {
    if d != [] { UnmergeAt(d[1..]); }
  }

  /** Each series appears once, exactly if some fact has it, and its value is the sum of its facts. */
  lemma Merged(samples: seq<Sample>)
    ensures var r := DedupSum(samples);
      && DistinctSeries(r) && |r| <= |samples|
      && (forall s :: s in r ==> s.value == Total(samples, SeriesOf(s)) && HasSeries(samples, SeriesOf(s)))
      && (forall s :: s in samples ==> HasSeries(r, SeriesOf(s)))
  {
    var d := Merge(samples);
    var r := DedupSum(samples);
    MergeKeys(samples);
    KeysAt(d);
    UnmergeAt(d);
    forall i, j | 0 <= i < j < |r| ensures SeriesOf(r[i]) != SeriesOf(r[j]) {
      assert Keys(d)[i] != Keys(d)[j];
    }
    forall s | s in r ensures s.value == Total(samples, SeriesOf(s)) && HasSeries(samples, SeriesOf(s)) {
      var i :| 0 <= i < |r| && r[i] == s;
      assert d[i] in d && d[i] == (SeriesOf(s), s.value);
      EntryIsGet(d, SeriesOf(s), s.value, 0);
      MergeGet(samples, SeriesOf(s));
    }
    forall s | s in samples ensures HasSeries(r, SeriesOf(s)) {
      assert HasSeries(samples, SeriesOf(s));
      MergeGet(samples, SeriesOf(s));
      GetIsEntry(d, SeriesOf(s), 0);
      var i :| 0 <= i < |d| && d[i] == (SeriesOf(s), Get(d, SeriesOf(s), 0));
      assert r[i] in r && SeriesOf(r[i]) == SeriesOf(s);
    }
  }

  lemma {:induction false} AssignSum(d: Dict<Series, int>, k: Series, v: int)
    ensures SumValues(Assign(d, k, Get(d, k, 0) + v)) == SumValues(d) + v
  {
    if d != [] { AssignSum(d[1..], k, v); }
  }

  function SumValues(d: Dict<Series, int>): int { if d == [] then 0 else d[0].1 + SumValues(d[1..]) }

  lemma {:induction false} SumFront(s: Sample, rest: seq<Sample>)
    ensures Sum([s] + rest) == s.value + Sum(rest)
  {
    if rest != [] {
      SumFront(s, rest[..|rest| - 1]);
      assert ([s] + rest)[..|rest|] == [s] + rest[..|rest| - 1];
    }
  }

  lemma {:induction false} UnmergeSum(d: Dict<Series, int>)
    ensures Sum(Unmerge(d)) == SumValues(d)
  {
    if d != [] {
      UnmergeSum(d[1..]);
      SumFront(Unmerge(d)[0], Unmerge(d[1..]));
    }
  }

  lemma {:induction false} MergeSum(samples: seq<Sample>)
    ensures SumValues(Merge(samples)) == Sum(samples)
  {
    if samples != [] {
      MergeSum(samples[..|samples| - 1]);
      AssignSum(Merge(samples[..|samples| - 1]), SeriesOf(samples[|samples| - 1]), samples[|samples| - 1].value);
    }
  }

  /** Nothing spent is lost or counted twice by merging. */
  lemma MergingConserves(samples: seq<Sample>)
    ensures Sum(DedupSum(samples)) == Sum(samples)
  {
    MergeSum(samples);
    UnmergeSum(Merge(samples));
  }

  lemma {:induction false} MergeOfDistinct(samples: seq<Sample>)
    requires DistinctSeries(samples)
    ensures |Merge(samples)| == |samples|
    ensures forall i :: 0 <= i < |samples| ==> Merge(samples)[i] == (SeriesOf(samples[i]), samples[i].value)
  {
    if samples != [] {
      var front, s := samples[..|samples| - 1], samples[|samples| - 1];
      MergeOfDistinct(front);
      MergeGet(front, SeriesOf(s));
      NewSeries(samples);
      GetIsEntry(Merge(front), SeriesOf(s), 0);
      AssignNew(Merge(front), SeriesOf(s), s.value);
      assert Merge(samples) == Merge(front) + [(SeriesOf(s), s.value)];
    }
  }

  lemma NewSeries(samples: seq<Sample>)
    requires samples != [] && DistinctSeries(samples)
    ensures !HasSeries(samples[..|samples| - 1], SeriesOf(samples[|samples| - 1]))
  {
    var front := samples[..|samples| - 1];
    forall s | s in front ensures SeriesOf(s) != SeriesOf(samples[|samples| - 1]) {
      var i :| 0 <= i < |front| && front[i] == s;
      assert samples[i] == s;
    }
  }

  lemma DedupOfDistinct(samples: seq<Sample>)
    requires DistinctSeries(samples)
    ensures DedupSum(samples) == samples
  {
    MergeOfDistinct(samples);
    UnmergeAt(Merge(samples));
  }

  // ----- presence -----------------------------------------------------------

  lemma {:induction false} OrderPresenceIs(p: Plane, order: string, n: nat)
    requires n <= |LIFECYCLES|
    ensures forall s :: s in OrderPresence(p, order, n) <==>
      exists i :: 0 <= i < n && MarkSample(p, order, i) == Some(s)
  {
    if n > 0 {
      OrderPresenceIs(p, order, n - 1);
      var last := MarkSample(p, order, n - 1);
      assert OrderPresence(p, order, n) == OrderPresence(p, order, n - 1) + (if last.Some? then [last.value] else []);
    }
  }

  function MarkSample(p: Plane, order: string, i: nat): Option<Sample>
    requires i < |LIFECYCLES|
  {
    match Mark(p, order, LIFECYCLES[i])
    case None => None
    case Some(v) => Some(PresenceSample(order, LIFECYCLES[i], v))
  }

  lemma {:induction false} PresenceIs(p: Plane, orders: seq<string>)
    ensures forall s :: s in Presence(p, orders) <==>
      exists o :: o in orders && s in OrderPresence(p, o, |LIFECYCLES|)
  {
    if orders != [] {
      var front, last := orders[..|orders| - 1], orders[|orders| - 1];
      PresenceIs(p, front);
      assert orders == front + [last];
      forall s ensures s in Presence(p, orders) <==> exists o :: o in orders && s in OrderPresence(p, o, |LIFECYCLES|) {
        if s in OrderPresence(p, last, |LIFECYCLES|) { assert last in orders; }
        if s in Presence(p, front) {
          var o :| o in front && s in OrderPresence(p, o, |LIFECYCLES|);
          assert o in orders;
        }
      }
    }
  }

  lemma LifecycleAt(lifecycle: string)
    requires lifecycle in LIFECYCLES
    ensures exists i :: 0 <= i < |LIFECYCLES| && LIFECYCLES[i] == lifecycle
  {
  }

  lemma PresenceSampleInjective(o: string, l: string, v: int, o': string, l': string, v': int)
    requires PresenceSample(o, l, v) == PresenceSample(o', l', v')
    ensures o == o' && l == l' && v == v'
  {
    var s, t := PresenceSample(o, l, v), PresenceSample(o', l', v');
    assert s.labels[0] == t.labels[0] && s.labels[1] == t.labels[1];
  }

  lemma PresenceSound(p: Plane, order: string, lifecycle: string, value: int, orders: seq<string>)
    requires PresenceSample(order, lifecycle, value) in Presence(p, orders)
    ensures order in orders && Mark(p, order, lifecycle) == Some(value)
  {
    var s := PresenceSample(order, lifecycle, value);
    PresenceIs(p, orders);
    var o :| o in orders && s in OrderPresence(p, o, |LIFECYCLES|);
    OrderPresenceIs(p, o, |LIFECYCLES|);
    var i :| 0 <= i < |LIFECYCLES| && MarkSample(p, o, i) == Some(s);
    var mark := Mark(p, o, LIFECYCLES[i]);
    PresenceSampleInjective(order, lifecycle, value, o, LIFECYCLES[i], mark.value);
  }

  lemma PresenceComplete(p: Plane, order: string, lifecycle: string, value: int, orders: seq<string>)
    requires order in orders && lifecycle in LIFECYCLES && Mark(p, order, lifecycle) == Some(value)
    ensures PresenceSample(order, lifecycle, value) in Presence(p, orders)
  {
    LifecycleAt(lifecycle);
    var i :| 0 <= i < |LIFECYCLES| && LIFECYCLES[i] == lifecycle;
    assert MarkSample(p, order, i) == Some(PresenceSample(order, lifecycle, value));
    OrderPresenceIs(p, order, |LIFECYCLES|);
    PresenceIs(p, orders);
  }

  lemma OrdersListed(orders: set<string>)
    ensures var r := SortedSet(StrLe, orders);
      SortedBy(StrLe, r) && Distinct(r) && forall o :: o in r <==> o in orders
  {
    StrLePreorder();
    SortedSetSorted(StrLe, orders);
  }

  /** A lifecycle of an order shows 1 exactly when it has a fact, 0 exactly when it was accounted
      absent and has no fact, and nothing otherwise. */
  lemma PresenceExact(p: Plane, order: string, lifecycle: string, value: int)
    requires lifecycle in LIFECYCLES
    ensures PresenceSample(order, lifecycle, value) in Presence(p, SortedSet(StrLe, OrdersOf(p)))
            <==> || (value == 1 && lifecycle in Of(p.facts, order))
                 || (value == 0 && lifecycle in Of(p.absent, order) && lifecycle !in Of(p.facts, order))
  {
    var orders := SortedSet(StrLe, OrdersOf(p));
    OrdersListed(OrdersOf(p));
    if PresenceSample(order, lifecycle, value) in Presence(p, orders) {
      PresenceSound(p, order, lifecycle, value, orders);
    }
    if Mark(p, order, lifecycle) == Some(value) {
      PresenceComplete(p, order, lifecycle, value, orders);
    }
  }
}
