/** Suspending and resuming a cost data plane through its own exposition file. */
module FixedPoint {
  import opened Text
  import opened Sorting
  import opened Dict
  import opened Exposition
  import opened RoundTrip
  import opened Unambiguous
  import opened DataPlane
  import opened MergedView
  import opened PlaneRuns
  import opened PlaneShape
  import opened Resume

  // ----- the lines of the file ----------------------------------------------

  ghost function PresenceOf(p: Plane): seq<Sample> { Presence(p, SortedSet(StrLe, OrdersOf(p))) }

  function Facts(p: Plane): seq<Sample> { DedupSum(Values(p.samples)) }

  lemma SourceOfSeries(s: Sample, t: Sample)
    requires Source(t) && SeriesOf(s) == SeriesOf(t)
    ensures Source(s) && OrderOf(s) == OrderOf(t) && PhaseOf(s) == PhaseOf(t) && AttributionOf(s) == AttributionOf(t)
    ensures Clean(s) <==> Clean(t)
  {
  }

  /** Each exposed fact stems from an entry of the same series, and the other way round. */
  lemma FactEntry(p: Plane, s: Sample) returns (e: (string, Sample))
    requires s in Facts(p)
    ensures e in p.samples && SeriesOf(e.1) == SeriesOf(s)
  {
    Merged(Values(p.samples));
    var t :| t in Values(p.samples) && SeriesOf(t) == SeriesOf(s);
    ValueIsEntry(p.samples);
    e :| e in p.samples && e.1 == t;
  }

  lemma EntryFact(p: Plane, e: (string, Sample)) returns (s: Sample)
    requires e in p.samples
    ensures s in Facts(p) && SeriesOf(e.1) == SeriesOf(s)
  {
    Merged(Values(p.samples));
    ValueIsEntry(p.samples);
    assert HasSeries(Facts(p), SeriesOf(e.1));
    s :| s in Facts(p) && SeriesOf(s) == SeriesOf(e.1);
  }

  lemma FactsAreSources(p: Plane)
    requires Keyed(p)
    ensures forall s :: s in Facts(p) ==> Source(s)
    ensures (forall e :: e in p.samples ==> Clean(e.1)) ==> forall s :: s in Facts(p) ==> Clean(s)
  {
    forall s | s in Facts(p)
      ensures Source(s) && ((forall e :: e in p.samples ==> Clean(e.1)) ==> Clean(s))
    {
      var e := FactEntry(p, s);
      SourceOfSeries(s, e.1);
    }
  }

  lemma PresenceIsLines(p: Plane, orders: seq<string>)
    ensures forall s :: s in Presence(p, orders) ==> PresenceLine(s) && OrderOf(s) in orders
  {
    PresenceIs(p, orders);
    forall s | s in Presence(p, orders) ensures PresenceLine(s) && OrderOf(s) in orders {
      var o :| o in orders && s in OrderPresence(p, o, |LIFECYCLES|);
      OrderPresenceIs(p, o, |LIFECYCLES|);
      var i :| 0 <= i < |LIFECYCLES| && MarkSample(p, o, i) == Some(s);
      assert LIFECYCLES[i] in LIFECYCLES;
      PresenceLineLabels(s);
    }
  }

  lemma DistinctSeriesConcat(a: seq<Sample>, b: seq<Sample>)
    requires DistinctSeries(a) && DistinctSeries(b)
    requires forall s, t :: s in a && t in b ==> SeriesOf(s) != SeriesOf(t)
    ensures DistinctSeries(a + b)
  {
    var all := a + b;
    assert forall i :: 0 <= i < |a| ==> all[i] == a[i] && all[i] in a;
    assert forall i :: |a| <= i < |all| ==> all[i] == b[i - |a|] && all[i] in b;
  }

  lemma SamePresenceSeries(s: Sample, t: Sample)
    requires PresenceLine(s) && PresenceLine(t) && SeriesOf(s) == SeriesOf(t)
    ensures OrderOf(s) == OrderOf(t) && s.labels[0].1 == t.labels[0].1
  {
    PresenceLineLabels(s);
    PresenceLineLabels(t);
  }

  lemma {:induction false} OrderPresenceDistinct(p: Plane, order: string, n: nat)
    requires n <= |LIFECYCLES|
    ensures DistinctSeries(OrderPresence(p, order, n))
    ensures forall s :: s in OrderPresence(p, order, n) ==> |s.labels| == 2 && s.labels[0].1 in LIFECYCLES[..n]
  {
    if n > 0 {
      OrderPresenceDistinct(p, order, n - 1);
      LifecyclesDistinct();
      var last := MarkSample(p, order, n - 1);
      var tail := if last.Some? then [last.value] else [];
      assert OrderPresence(p, order, n) == OrderPresence(p, order, n - 1) + tail;
      assert LIFECYCLES[..n] == LIFECYCLES[..n - 1] + [LIFECYCLES[n - 1]];
      DistinctSeriesConcat(OrderPresence(p, order, n - 1), tail);
    }
  }

  lemma LifecyclesDistinct()
    ensures Distinct(LIFECYCLES)
    ensures forall n :: 0 <= n < |LIFECYCLES| ==> LIFECYCLES[n] !in LIFECYCLES[..n]
  {
    assert LAUNCH[0] == 'l' && REVIEW[0] == 'r' && PROMOTION[0] == 'p' && SETTLEMENT[0] == 's';
  }

  lemma {:induction false} PresenceDistinct(p: Plane, orders: seq<string>)
    requires Distinct(orders)
    ensures DistinctSeries(Presence(p, orders))
  {
    if orders != [] {
      var front, last := orders[..|orders| - 1], orders[|orders| - 1];
      PresenceDistinct(p, front);
      OrderPresenceDistinct(p, last, |LIFECYCLES|);
      PresenceIsLines(p, front);
      PresenceIsLines(p, [last]);
      assert [last][..0] == [] && Presence(p, [last]) == OrderPresence(p, last, |LIFECYCLES|);
      forall s, t | s in Presence(p, front) && t in OrderPresence(p, last, |LIFECYCLES|) ensures SeriesOf(s) != SeriesOf(t) {
        if SeriesOf(s) == SeriesOf(t) { SamePresenceSeries(s, t); }
      }
      DistinctSeriesConcat(Presence(p, front), OrderPresence(p, last, |LIFECYCLES|));
    }
  }

  /** The exposed lines are the facts and the presence lines, and no series comes twice. */
  lemma ExposedLines(p: Plane)
    requires Keyed(p)
    ensures forall s :: s in Exposed(p) ==> FileLine(s) && WellFormed(s)
    ensures forall s :: s in PresenceOf(p) ==> PresenceLine(s)
    ensures forall s :: s in Facts(p) ==> Source(s)
    ensures DistinctSeries(Exposed(p))
  {
    FactsAreSources(p);
    OrdersListed(OrdersOf(p));
    PresenceIsLines(p, SortedSet(StrLe, OrdersOf(p)));
    PresenceDistinct(p, SortedSet(StrLe, OrdersOf(p)));
    Merged(Values(p.samples));
    forall s | s in PresenceOf(p) ensures PresenceLine(s) && !Source(s) && WellFormed(s) && s.name == PRESENCE_METRIC {
      PresenceLineLabels(s);
    }
    MetricsDiffer();
    DistinctSeriesConcat(Facts(p), PresenceOf(p));
  }

  /** Every text a plane would print is clean. */
  predicate CleanPlane(p: Plane)
  {
    && (forall e :: e in p.samples ==> Clean(e.1))
    && forall o :: o in OrdersOf(p) ==> CleanValue(o)
  }

  lemma LifecyclesClean()
    ensures forall l :: l in LIFECYCLES ==> CleanValue(l)
  {
  }

  lemma ExposedClean(p: Plane)
    requires Keyed(p) && CleanPlane(p)
    ensures forall s :: s in Exposed(p) ==> Clean(s)
  {
    FactsAreSources(p);
    OrdersListed(OrdersOf(p));
    PresenceIsLines(p, SortedSet(StrLe, OrdersOf(p)));
    LifecyclesClean();
    forall s | s in PresenceOf(p) ensures Clean(s) {
      PresenceLineLabels(s);
      assert s.labels == [s.labels[0], s.labels[1]];
    }
  }

  // ----- the file sorted by name --------------------------------------------

  /** The samples that a parse of the plane's file gives back. */
  ghost function Lines(p: Plane): seq<Sample> { ByName(Exposed(p)) }

  lemma PermutedDistinctSeries(a: seq<Sample>, b: seq<Sample>)
    requires DistinctSeries(a) && multiset(a) == multiset(b)
    ensures DistinctSeries(b)
  {
    DistinctMultiset(a);
    DistinctFromMultiset(b, set x | x in a);
    SameElements(a, b);
    forall i, j | 0 <= i < j < |b| ensures SeriesOf(b[i]) != SeriesOf(b[j]) {
      assert b[i] in a && b[j] in a;
      var k :| 0 <= k < |a| && a[k] == b[i];
      var l :| 0 <= l < |a| && a[l] == b[j];
      assert k != l;
    }
  }

  lemma LinesFacts(p: Plane)
    requires Keyed(p)
    ensures DistinctSeries(Lines(p)) && |Lines(p)| == |Exposed(p)|
    ensures forall s :: s in Lines(p) <==> s in Exposed(p)
    ensures forall s :: s in Lines(p) ==> FileLine(s)
    ensures forall s :: s in Lines(p) && Source(s) ==> s in Facts(p)
  {
    ExposedLines(p);
    SortByElements(NameLe, Exposed(p));
    PermutedDistinctSeries(Exposed(p), Lines(p));
    forall s | s in PresenceOf(p) ensures !Source(s) { PresenceLineLabels(s); }
  }

  lemma SameEntry(p: Plane, e: (string, Sample), f: (string, Sample))
    requires Keyed(p) && e in p.samples && f in p.samples && e.0 == f.0
    ensures e == f
  {
    EntryIsGet(p.samples, e.0, e.1, e.1);
    EntryIsGet(p.samples, f.0, f.1, e.1);
  }

  /** Spend of one order under one attribution always carries the same labels. */
  predicate OneLabelSet(p: Plane)
  {
    forall e, f :: e in p.samples && f in p.samples && e.1.name == COST_METRIC && f.1.name == COST_METRIC
                   && OrderOf(e.1) == OrderOf(f.1) && AttributionOf(e.1) == AttributionOf(f.1)
                   ==> e.1.labels == f.1.labels
  }

  /** No line of a plane's own file replaces another, unless its spend carries several label sets. */
  lemma SingleIsOneLabelSet(p: Plane)
    requires Keyed(p)
    ensures Single(Lines(p)) <==> OneLabelSet(p)
  {
    var lines := Lines(p);
    if OneLabelSet(p) {
      LinesFacts(p);
      forall i, j | 0 <= i < j < |lines| ensures !Replaces(lines[j], lines[i]) {
        assert SeriesOf(lines[i]) != SeriesOf(lines[j]);
        if Replaces(lines[j], lines[i]) { ReplacesSameSeries(p, lines[j], lines[i]); }
      }
    }
    if Single(lines) {
      forall e, f | e in p.samples && f in p.samples && e.1.name == COST_METRIC && f.1.name == COST_METRIC
                    && OrderOf(e.1) == OrderOf(f.1) && AttributionOf(e.1) == AttributionOf(f.1)
        ensures e.1.labels == f.1.labels {
        SameSpendLabels(p, e, f);
      }
    }
  }

  lemma ReplacesSameSeries(p: Plane, s: Sample, t: Sample)
    requires Keyed(p) && OneLabelSet(p) && s in Lines(p) && t in Lines(p) && Replaces(s, t)
    ensures SeriesOf(s) == SeriesOf(t)
  {
    LinesFacts(p);
    NotPresence(s);
    NotPresence(t);
    var e := FactEntry(p, s);
    var f := FactEntry(p, t);
    MetricsDiffer();
    if s.name != COST_METRIC { SameEntry(p, e, f); }
  }

  lemma SingleSpendLine(lines: seq<Sample>, s: Sample, t: Sample)
    requires Single(lines) && s in lines && t in lines && s.name == COST_METRIC == t.name
    requires OrderOf(s) == OrderOf(t) && AttributionOf(s) == AttributionOf(t)
    ensures s == t
  {
    var i :| 0 <= i < |lines| && lines[i] == s;
    var j :| 0 <= j < |lines| && lines[j] == t;
    assert Replaces(s, t) && Replaces(t, s);
  }

  lemma SameSpendLabels(p: Plane, e: (string, Sample), f: (string, Sample))
    requires Keyed(p) && Single(Lines(p)) && e in p.samples && f in p.samples
    requires e.1.name == COST_METRIC && f.1.name == COST_METRIC
    requires OrderOf(e.1) == OrderOf(f.1) && AttributionOf(e.1) == AttributionOf(f.1)
    ensures e.1.labels == f.1.labels
  {
    LinesFacts(p);
    var s := EntryFact(p, e);
    var t := EntryFact(p, f);
    assert s in Exposed(p) && t in Exposed(p);
    SourceOfSeries(s, e.1);
    SourceOfSeries(t, f.1);
    SingleSpendLine(Lines(p), s, t);
  }

  // ----- the facts among the lines ------------------------------------------

  lemma {:induction false} SourcesNamed(lines: seq<Sample>, name: string)
    ensures Named(Sources(lines), name) == if name == PRESENCE_METRIC then [] else Named(lines, name)
    ensures |lines| == |Sources(lines)| + |Named(lines, PRESENCE_METRIC)|
  {
    if lines != [] {
      var front, last := lines[..|lines| - 1], lines[|lines| - 1];
      SourcesNamed(front, name);
      assert [last][..0] == [];
      if last.name == PRESENCE_METRIC {
        assert Sources(lines) == Sources(front);
      } else {
        NamedConcat(Sources(front), [last], name);
      }
    }
  }

  lemma FactsAreNotPresence(p: Plane)
    requires Keyed(p)
    ensures Named(Exposed(p), PRESENCE_METRIC) == PresenceOf(p)
    ensures forall name :: name != PRESENCE_METRIC ==> Named(Exposed(p), name) == Named(Facts(p), name)
  {
    ExposedLines(p);
    MetricsDiffer();
    forall s | s in PresenceOf(p) ensures s.name == PRESENCE_METRIC { PresenceLineLabels(s); }
    forall name ensures Named(Exposed(p), name) == if name == PRESENCE_METRIC then PresenceOf(p) else Named(Facts(p), name) {
      NamedConcat(Facts(p), PresenceOf(p), name);
      if name == PRESENCE_METRIC {
        NamedNone(Facts(p), name);
        NamedAll(PresenceOf(p), name);
      } else {
        NamedNone(PresenceOf(p), name);
      }
    }
  }

  lemma CountLines(p: Plane)
    requires Keyed(p)
    ensures |Sources(Lines(p))| == |Exposed(p)| - |PresenceOf(p)|
  {
    LinesFacts(p);
    SourcesNamed(Lines(p), PRESENCE_METRIC);
    ByNameKeepsGroups(Exposed(p), PRESENCE_METRIC);
    FactsAreNotPresence(p);
  }

  // ----- presence after a resume --------------------------------------------

  lemma MarkAfterResume(p: Plane, q: Plane, o: string, l: string)
    requires PlaneInv(p) && TablesRebuilt(q, Lines(p)) && l in LIFECYCLES
    ensures Mark(q, o, l) == if o == "" then None else Mark(p, o, l)
  {
    assert FactRight(q.facts, Lines(p), o, l);
    assert AbsentRight(q.absent, Lines(p), o, l);
    if o != "" {
      WitnessIsFact(p, o, l);
      AbsenceIsLine(p, o, l);
    }
  }

  lemma WitnessIsFact(p: Plane, o: string, l: string)
    requires PlaneInv(p) && l in LIFECYCLES && o != ""
    ensures Witness(Lines(p), o, l) <==> l in Of(p.facts, o)
  {
    LinesFacts(p);
    LifecycleMetric(l);
    if Witness(Lines(p), o, l) {
      var s :| s in Lines(p) && Source(s) && s.name == MetricOf(l) && OrderOf(s) == o;
      var e := FactEntry(p, s);
      assert OrderOf(e.1) == o;
    }
    if l in Of(p.facts, o) {
      assert Evidence(p.samples, o, l);
      var e :| e in p.samples && e.1.name == MetricOf(l) && OrderOf(e.1) == o;
      var s := EntryFact(p, e);
      SourceOfSeries(s, e.1);
      assert s in Lines(p);
    }
  }

  lemma AbsenceIsLine(p: Plane, o: string, l: string)
    requires Keyed(p) && l in LIFECYCLES
    ensures PresenceSample(o, l, 0) in Lines(p) <==> Mark(p, o, l) == Some(0)
  {
    LinesFacts(p);
    ExposedLines(p);
    PresenceExact(p, o, l, 0);
    MetricsDiffer();
    assert !Source(PresenceSample(o, l, 0));
  }

  lemma {:induction false} SameOrderPresence(p: Plane, q: Plane, o: string, n: nat)
    requires n <= |LIFECYCLES|
    requires forall l :: l in LIFECYCLES ==> Mark(p, o, l) == Mark(q, o, l)
    ensures OrderPresence(p, o, n) == OrderPresence(q, o, n)
  {
    if n > 0 {
      assert LIFECYCLES[n - 1] in LIFECYCLES;
      SameOrderPresence(p, q, o, n - 1);
    }
  }

  lemma {:induction false} SamePresence(p: Plane, q: Plane, orders: seq<string>)
    requires forall o, l :: o in orders && l in LIFECYCLES ==> Mark(p, o, l) == Mark(q, o, l)
    ensures Presence(p, orders) == Presence(q, orders)
  {
    if orders != [] {
      var front, last := orders[..|orders| - 1], orders[|orders| - 1];
      assert orders == front + [last];
      SamePresence(p, q, front);
      SameOrderPresence(p, q, last, |LIFECYCLES|);
    }
  }

  ghost predicate Marked(p: Plane, o: string) { exists l :: l in LIFECYCLES && Mark(p, o, l).Some? }

  /** An order is listed exactly if it shows at least one presence. */
  lemma ListedIsMarked(p: Plane, o: string)
    requires TablesFit(p) && forall l :: l in Of(p.facts, o) ==> l in LIFECYCLES
    ensures o in OrdersOf(p) <==> Marked(p, o)
  {
    if o in p.facts {
      var l :| l in p.facts[o];
      assert l in Of(p.facts, o) && Mark(p, o, l).Some?;
    } else if o in p.absent {
      var l :| l in p.absent[o];
      assert l in Of(p.absent, o) && Mark(p, o, l).Some?;
    }
  }

  lemma MarkedAfterResume(p: Plane, q: Plane, o: string)
    requires PlaneInv(p) && TablesRebuilt(q, Lines(p))
    ensures Marked(q, o) <==> o != "" && Marked(p, o)
  {
    if Marked(q, o) {
      var l :| l in LIFECYCLES && Mark(q, o, l).Some?;
      MarkAfterResume(p, q, o, l);
    }
    if o != "" && Marked(p, o) {
      var l :| l in LIFECYCLES && Mark(p, o, l).Some?;
      MarkAfterResume(p, q, o, l);
    }
  }

  lemma InvListed(p: Plane, o: string)
    requires Backed(p.samples, p.facts) && TablesFit(p)
    ensures o in OrdersOf(p) <==> Marked(p, o)
  {
    ListedIsMarked(p, o);
  }

  lemma RebuiltListed(q: Plane, lines: seq<Sample>, o: string)
    requires TablesRebuilt(q, lines)
    ensures o in OrdersOf(q) <==> Marked(q, o)
  {
    forall l | l in Of(q.facts, o) ensures l in LIFECYCLES { assert FactRight(q.facts, lines, o, l); }
    ListedIsMarked(q, o);
  }

  lemma OrdersAfterResume(p: Plane, q: Plane)
    requires PlaneInv(p) && TablesRebuilt(q, Lines(p))
    ensures OrdersOf(q) == OrdersOf(p) - {""}
  {
    forall o ensures o in OrdersOf(q) <==> o in OrdersOf(p) && o != "" {
      InvListed(p, o);
      RebuiltListed(q, Lines(p), o);
      MarkedAfterResume(p, q, o);
    }
  }

  lemma EmptyFirst(rest: seq<string>)
    requires SortedBy(StrLe, rest) && Distinct(rest) && "" !in rest
    ensures SortedBy(StrLe, [""] + rest) && Distinct([""] + rest)
  {
    var all := [""] + rest;
    assert forall i :: 1 <= i < |all| ==> all[i] == rest[i - 1] && rest[i - 1] in rest;
  }

  lemma EmptyListed(orders: set<string>, rest: seq<string>)
    requires SortedBy(StrLe, rest) && Distinct(rest) && "" in orders
    requires forall o :: o in rest <==> o in orders - {""}
    ensures SortedSet(StrLe, orders) == [""] + rest
  {
    var all := [""] + rest;
    EmptyFirst(rest);
    forall o: string ensures o in all <==> o in orders {
      assert o in all <==> o == "" || o in rest;
    }
    AscendingOrders(all, orders);
  }

  /** Dropping the empty order drops the head of the ascending list. */
  lemma SortedOrdersWithoutEmpty(orders: set<string>)
    ensures var rest := SortedSet(StrLe, orders - {""});
      SortedSet(StrLe, orders) == if "" in orders then [""] + rest else rest
  {
    var rest := SortedSet(StrLe, orders - {""});
    OrdersListed(orders - {""});
    if "" in orders {
      EmptyListed(orders, rest);
    } else {
      assert orders - {""} == orders;
    }
  }

  lemma {:induction false} PresenceHead(p: Plane, o: string, rest: seq<string>)
    ensures Presence(p, [o] + rest) == OrderPresence(p, o, |LIFECYCLES|) + Presence(p, rest)
  {
    var orders := [o] + rest;
    if rest == [] {
      assert orders == [o] && [o][..0] == [];
    } else {
      var front, last := rest[..|rest| - 1], rest[|rest| - 1];
      PresenceHead(p, o, front);
      assert orders[..|orders| - 1] == [o] + front;
    }
  }

  lemma MarkedShows(p: Plane, o: string)
    requires Marked(p, o)
    ensures OrderPresence(p, o, |LIFECYCLES|) != []
  {
    var l :| l in LIFECYCLES && Mark(p, o, l).Some?;
    LifecycleAt(l);
    var i :| 0 <= i < |LIFECYCLES| && LIFECYCLES[i] == l;
    assert MarkSample(p, o, i) == Some(PresenceSample(o, l, Mark(p, o, l).value));
    OrderPresenceIs(p, o, |LIFECYCLES|);
  }

  lemma SameNamedPresence(p: Plane, q: Plane, rest: seq<string>)
    requires PlaneInv(p) && TablesRebuilt(q, Lines(p)) && "" !in rest
    ensures Presence(p, rest) == Presence(q, rest)
  {
    forall o, l | o in rest && l in LIFECYCLES ensures Mark(p, o, l) == Mark(q, o, l) { MarkAfterResume(p, q, o, l); }
    SamePresence(p, q, rest);
  }

  /** The presence series survives a resume, but for the order without a name. */
  lemma PresenceAfterResume(p: Plane, q: Plane)
    requires PlaneInv(p) && TablesRebuilt(q, Lines(p))
    ensures "" !in OrdersOf(p) ==> PresenceOf(q) == PresenceOf(p)
    ensures "" in OrdersOf(p) ==> |PresenceOf(q)| < |PresenceOf(p)|
  {
    var rest := SortedSet(StrLe, OrdersOf(p) - {""});
    OrdersAfterResume(p, q);
    OrdersListed(OrdersOf(p) - {""});
    SameNamedPresence(p, q, rest);
    PresenceWithoutEmpty(p, rest);
  }

  lemma PresenceWithoutEmpty(p: Plane, rest: seq<string>)
    requires PlaneInv(p) && rest == SortedSet(StrLe, OrdersOf(p) - {""})
    ensures "" !in OrdersOf(p) ==> PresenceOf(p) == Presence(p, rest)
    ensures "" in OrdersOf(p) ==> |PresenceOf(p)| > |Presence(p, rest)|
  {
    SortedOrdersWithoutEmpty(OrdersOf(p));
    if "" in OrdersOf(p) {
      PresenceHead(p, "", rest);
      InvListed(p, "");
      MarkedShows(p, "");
    }
  }

  // ----- the theorem --------------------------------------------------------

  lemma ResumedIs(p: Plane)
    requires Keyed(p) && CleanPlane(p)
    ensures ParseText(RenderText(Exposed(p))) == Ok(Lines(p))
    ensures Resumed(p) == Rehydrated(FRESH, Lines(p)).plane
  {
    ExposedLines(p);
    ExposedClean(p);
    CleanFileParses(Exposed(p));
  }

  lemma SourcesElements(lines: seq<Sample>)
    ensures forall s :: s in Sources(lines) ==> s in lines
  {
    forall s | s in Sources(lines) ensures s in lines { SourcesElement(lines, s); }
  }

  lemma {:induction false} SourcesElement(lines: seq<Sample>, s: Sample)
    requires s in Sources(lines)
    ensures s in lines
  {
    var front := lines[..|lines| - 1];
    if s in Sources(front) { SourcesElement(front, s); }
  }

  lemma {:induction false} SourcesDistinct(lines: seq<Sample>)
    requires DistinctSeries(lines)
    ensures DistinctSeries(Sources(lines))
  {
    if lines != [] {
      var front, last := lines[..|lines| - 1], lines[|lines| - 1];
      SourcesDistinct(front);
      SourcesElements(front);
      forall s | s in Sources(front) ensures SeriesOf(s) != SeriesOf(last) {
        var i :| 0 <= i < |front| && front[i] == s;
        assert SeriesOf(lines[i]) != SeriesOf(lines[|lines| - 1]);
      }
      DistinctSeriesConcat(Sources(front), [last]);
    }
  }

  /** When nothing is overwritten the resumed plane exposes the same lines. */
  lemma SameLines(p: Plane, q: Plane)
    requires Keyed(p) && Values(q.samples) == Sources(Lines(p)) && PresenceOf(q) == PresenceOf(p)
    ensures ByName(Exposed(q)) == Lines(p)
  {
    var lines := Lines(p);
    LinesFacts(p);
    SourcesDistinct(lines);
    DedupOfDistinct(Sources(lines));
    ByNameSorted(Exposed(p));
    ExposedLines(p);
    assert Exposed(q) == Sources(lines) + PresenceOf(p);
    forall name ensures Named(lines, name) == Named(Exposed(q), name) { SameGroup(p, name); }
    ByNameUnique(Exposed(q), lines);
  }

  lemma SameGroup(p: Plane, name: string)
    requires Keyed(p)
    ensures Named(Lines(p), name) == Named(Sources(Lines(p)) + PresenceOf(p), name)
  {
    PresenceNames(p);
    NamedGroup(PresenceOf(p), PRESENCE_METRIC, name);
    SourcesNamed(Lines(p), name);
    ByNameKeepsGroups(Exposed(p), name);
    GroupSplits(p, name);
    SplitGroup(Lines(p), Sources(Lines(p)), PresenceOf(p), name);
  }

  lemma SplitGroup(lines: seq<Sample>, sources: seq<Sample>, presence: seq<Sample>, name: string)
    requires Named(sources, name) == if name == PRESENCE_METRIC then [] else Named(lines, name)
    requires Named(presence, name) == if name == PRESENCE_METRIC then presence else []
    requires name == PRESENCE_METRIC ==> Named(lines, name) == presence
    ensures Named(lines, name) == Named(sources + presence, name)
  {
    NamedConcat(sources, presence, name);
    var a, b := Named(sources, name), Named(presence, name);
    if name == PRESENCE_METRIC { assert a + b == b; } else { assert a + b == a; }
  }

  lemma PresenceNames(p: Plane)
    requires Keyed(p)
    ensures forall s :: s in PresenceOf(p) ==> s.name == PRESENCE_METRIC
  {
    ExposedLines(p);
    forall s | s in PresenceOf(p) ensures s.name == PRESENCE_METRIC { PresenceLineLabels(s); }
  }

  lemma GroupSplits(p: Plane, name: string)
    requires Keyed(p)
    ensures name == PRESENCE_METRIC ==> Named(Exposed(p), name) == PresenceOf(p)
  {
    FactsAreNotPresence(p);
  }

  /** Equal files hold equal lines. */
  lemma SameTextSameLines(p: Plane, q: Plane)
    requires (forall s :: s in Exposed(p) ==> WellFormed(s)) && (forall s :: s in Exposed(q) ==> WellFormed(s))
    ensures RenderText(Exposed(q)) == RenderText(Exposed(p)) <==> Lines(q) == Lines(p)
  {
    RenderInjective(Exposed(p), Exposed(q));
  }

  lemma ResumedBacked(lines: seq<Sample>, q: Plane, o: string, l: string)
    requires FactRight(q.facts, lines, o, l) && l in Of(q.facts, o)
    requires forall s :: s in lines && Source(s) && s.name != COST_METRIC ==> Shown(q.samples, s)
    ensures l in LIFECYCLES && Evidence(q.samples, o, l)
  {
    var s :| s in lines && Source(s) && s.name == MetricOf(l) && OrderOf(s) == o;
    LifecycleMetric(l);
    assert Shown(q.samples, s);
  }

  lemma ResumedListed(lines: seq<Sample>, q: Plane, s: Sample)
    requires forall o, l :: FactRight(q.facts, lines, o, l)
    requires s in lines && Source(s) && s.name != COST_METRIC && OrderOf(s) != ""
    ensures LifecycleOf(s.name) in Of(q.facts, OrderOf(s))
  {
    MetricLifecycle(s.name);
    assert Witness(lines, OrderOf(s), LifecycleOf(s.name));
    assert FactRight(q.facts, lines, OrderOf(s), LifecycleOf(s.name));
  }

  lemma ResumedFactsAgree(lines: seq<Sample>, q: Plane)
    requires TablesRebuilt(q, lines)
    requires forall e :: e in q.samples ==> e.1 in lines && Source(e.1)
    requires forall s :: s in lines && Source(s) && s.name != COST_METRIC ==> Shown(q.samples, s)
    ensures Backed(q.samples, q.facts) && Listed(q.samples, q.facts)
  {
    forall o, l | l in Of(q.facts, o) ensures l in LIFECYCLES && Evidence(q.samples, o, l) {
      assert FactRight(q.facts, lines, o, l);
      ResumedBacked(lines, q, o, l);
    }
    ResumedAllListed(lines, q);
  }

  lemma ResumedAllListed(lines: seq<Sample>, q: Plane)
    requires TablesRebuilt(q, lines)
    requires forall e :: e in q.samples ==> e.1 in lines && Source(e.1)
    ensures Listed(q.samples, q.facts)
  {
    forall e | e in q.samples && e.1.name != COST_METRIC && OrderOf(e.1) != ""
      ensures LifecycleOf(e.1.name) in Of(q.facts, OrderOf(e.1)) {
      ResumedListed(lines, q, e.1);
    }
  }

  /** A resumed plane is again a plane fed by its own emitters. */
  lemma ResumedKeepsShape(p: Plane)
    requires PlaneInv(p) && CleanPlane(p)
    ensures PlaneInv(Resumed(p)) && CleanPlane(Resumed(p)) && TablesRebuilt(Resumed(p), Lines(p))
  {
    var lines, q := Lines(p), Resumed(p);
    ResumedIs(p);
    LinesFacts(p);
    RehydratedKeyed(lines);
    forall e | e in q.samples ensures e.1 in lines { EntryIsLine(lines, e); }
    forall s | s in lines && Source(s) && s.name != COST_METRIC ensures Shown(q.samples, s) { RehydrationShows(lines, s); }
    TablesAreRebuilt(lines);
    OrdersAfterResume(p, q);
    ExposedClean(p);
    ResumedFactsAgree(lines, q);
  }

  /** The lifecycle tables of a plane fed from any file speak of clean orders. */
  lemma {:induction false} RehydratedOrders(lines: seq<Sample>)
    requires forall s :: s in lines ==> GoodLabels(s)
    ensures forall o :: o in OrdersOf(Rehydrated(FRESH, lines).plane) ==> CleanValue(o)
  {
    if lines != [] {
      var s := lines[|lines| - 1];
      assert s in lines;
      RehydratedOrders(lines[..|lines| - 1]);
      OrderIsClean(s.labels, "order_id");
      AbsorbedOrders(Rehydrated(FRESH, lines[..|lines| - 1]), s);
    }
  }

  lemma AbsorbedOrders(r: Rehydration, s: Sample)
    ensures OrdersOf(Absorb(r, s).plane) <= OrdersOf(r.plane) + {OrderOf(s)}
  {
    if SourceMetric(s.name) { AbsorbSource(r, s); }
  }

  lemma {:induction false} OrderIsClean(labels: seq<Label>, key: string)
    requires forall l :: l in labels ==> GoodLabel(l)
    ensures CleanValue(LabelOr(labels, key, ""))
  {
    if labels != [] && labels[|labels| - 1].0 != key {
      OrderIsClean(labels[..|labels| - 1], key);
    } else if labels != [] {
      assert labels[|labels| - 1] in labels;
    }
  }

  lemma MetricIsNamed(name: string)
    requires SourceMetric(name)
    ensures WellNamed(name)
  {
    SourceMetricIsIdent(name);
    IdentIsGood(name);
  }

  /** Whatever file a plane is fed from, what it exposes is well formed and clean. */
  lemma RehydratedExposes(lines: seq<Sample>, q: Plane)
    requires (forall s :: s in lines ==> GoodLabels(s)) && q == Rehydrated(FRESH, lines).plane
    ensures forall s :: s in Exposed(q) ==> WellFormed(s) && Clean(s)
  {
    forall s | s in Facts(q) ensures WellFormed(s) && Clean(s) {
      var e := FactEntry(q, s);
      AnyEntryIsLine(lines, e);
      MetricIsNamed(e.1.name);
    }
    RehydratedOrders(lines);
    OrdersListed(OrdersOf(q));
    PresenceIsLines(q, SortedSet(StrLe, OrdersOf(q)));
    forall s | s in PresenceOf(q) ensures WellFormed(s) && Clean(s) {
      PresenceLineLabels(s);
      LifecyclesClean();
      assert s.labels == [s.labels[0], s.labels[1]];
    }
  }

  lemma {:induction false} AnyEntryIsLine(lines: seq<Sample>, e: (string, Sample))
    requires e in Rehydrated(FRESH, lines).plane.samples
    ensures e.1 in lines && SourceMetric(e.1.name)
  {
    var front, s := lines[..|lines| - 1], lines[|lines| - 1];
    var r := Rehydrated(FRESH, front);
    if SourceMetric(s.name) {
      AbsorbSource(r, s);
      AssignedEntry(r.plane.samples, RestoredKey(r, s), s, e);
    } else {
      AbsorbOther(r, s);
    }
    if e in r.plane.samples { AnyEntryIsLine(front, e); }
  }

  lemma {:induction false} AssignedEntry(d: Dict<string, Sample>, key: string, s: Sample, e: (string, Sample))
    requires e in Assign(d, key, s)
    ensures e in d || e.1 == s
  {
    if d != [] && d[0].0 != key && e != d[0] { AssignedEntry(d[1..], key, s, e); }
  }

  /** The text after a resume; None if the file does not parse, and the resume raises. */
  ghost function FileAfterResume(p: Plane): Option<string>
  {
    match ParseText(RenderText(Exposed(p)))
    case Ok(samples) => Some(RenderText(Exposed(Rehydrated(FRESH, samples).plane)))
    case Err(_) => None
  }

  /** A plane that exposes clean lines holds clean texts. */
  lemma ExposedCleanPlane(p: Plane)
    requires PlaneInv(p) && forall s :: s in Exposed(p) ==> Clean(s)
    ensures CleanPlane(p)
  {
    forall e | e in p.samples ensures Clean(e.1) {
      var s := EntryFact(p, e);
      assert s in Exposed(p);
      SourceOfSeries(s, e.1);
    }
    forall o | o in OrdersOf(p) ensures CleanValue(o) {
      InvListed(p, o);
      OrdersListed(OrdersOf(p));
      var l :| l in LIFECYCLES && Mark(p, o, l).Some?;
      var s := PresenceSample(o, l, Mark(p, o, l).value);
      PresenceComplete(p, o, l, s.value, SortedSet(StrLe, OrdersOf(p)));
      assert s in Exposed(p) && s.labels[1] == ("order_id", o);
    }
  }

  /** A file with a text that the parser would change is never reproduced. */
  lemma ReproducedIsClean(p: Plane)
    requires PlaneInv(p) && FileAfterResume(p) == Some(RenderText(Exposed(p)))
    ensures CleanPlane(p)
  {
    var samples := ParseText(RenderText(Exposed(p))).value;
    var q := Rehydrated(FRESH, samples).plane;
    ParsedIsClean(SplitLines(RenderText(Exposed(p))), 1);
    RehydratedExposes(samples, q);
    ExposedLines(p);
    SameTextSameLines(p, q);
    SortByElements(NameLe, Exposed(p));
    SortByElements(NameLe, Exposed(q));
    ExposedCleanPlane(p);
  }

  lemma CleanFixedPoint(p: Plane)
    requires PlaneInv(p) && CleanPlane(p)
    ensures RenderText(Exposed(Resumed(p))) == RenderText(Exposed(p))
            <==> "" !in OrdersOf(p) && OneLabelSet(p)
  {
    var q := Resumed(p);
    ResumedIs(p);
    LinesFacts(p);
    ResumedKeepsShape(p);
    RebuiltSamples(Lines(p));
    SingleIsOneLabelSet(p);
    PresenceAfterResume(p, q);
    ExposedLines(p);
    ExposedLines(q);
    SameTextSameLines(p, q);
    if "" !in OrdersOf(p) && OneLabelSet(p) {
      SameLines(p, q);
    } else {
      CountLines(p);
      Merged(Values(q.samples));
      LinesFacts(q);
    }
  }

  /** Suspend and resume: rendering, parsing, rehydrating a fresh plane and rendering again gives
      the same text, if and only if every text the plane prints is clean, no lifecycle was booked on
      the order without a name, and the spend of each order and attribution carries one label set. */
  lemma ResumeFixedPoint(p: Plane)
    requires PlaneInv(p)
    ensures FileAfterResume(p) == Some(RenderText(Exposed(p))) <==> CleanPlane(p) && "" !in OrdersOf(p) && OneLabelSet(p)
  {
    if CleanPlane(p) {
      ResumedIs(p);
      CleanFixedPoint(p);
    }
    if FileAfterResume(p) == Some(RenderText(Exposed(p))) { ReproducedIsClean(p); }
  }
}
