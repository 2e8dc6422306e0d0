/** What a run of emissions shows of each order's lifecycle: presence and reconciliation, read off the
    calls alone. */
module Lifecycles {
  import opened Text
  import opened Sorting
  import opened Dict
  import opened Exposition
  import opened DataPlane
  import opened MergedView
  import opened PlaneRuns
  import opened PlaneShape
  import opened OwnRuns
  import opened Booking

  // ----- what a call says about an order ------------------------------------

  /** The call reports that the order went through this lifecycle. */
  predicate Reports(op: Op, order: string, lifecycle: string)
  {
    match op
    case Launch(o, _, _, _, _) => o == order && lifecycle == "launch"
    case Review(o, phase, _, _) => o == order && lifecycle == "review" && (phase == "continuous" || phase == "final")
    case Promotion(o, _, _) => o == order && lifecycle == "promotion"
    case Settlement(o) => o == order && lifecycle == "settlement"
    case _ => false
  }

  ghost predicate Reported(ops: seq<Op>, order: string, lifecycle: string)
  {
    exists i :: 0 <= i < |ops| && Reports(ops[i], order, lifecycle)
  }

  predicate LifecycleName(l: string) { l == "launch" || l == "review" || l == "promotion" || l == "settlement" }

  /** The k-th call accounts for a lifecycle that the order did not go through: by name, or with all
      that nothing has reported yet. */
  ghost predicate Excuses(ops: seq<Op>, k: nat, order: string, lifecycle: string)
    requires k < |ops|
  {
    || (ops[k].MarkAbsence? && ops[k].order == order && ops[k].lifecycle == lifecycle)
    || (ops[k].MarkMissing? && ops[k].order == order && !Reported(ops[..k], order, lifecycle))
  }

  ghost predicate Excused(ops: seq<Op>, order: string, lifecycle: string)
  {
    exists k :: 0 <= k < |ops| && Excuses(ops, k, order, lifecycle)
  }

  lemma LifecyclesAre(l: string)
    ensures l in LIFECYCLES <==> LifecycleName(l)
  {
    assert LIFECYCLES[0] == "launch" && LIFECYCLES[1] == "review" && LIFECYCLES[2] == "promotion" && LIFECYCLES[3] == "settlement";
  }

  // ----- the tables ---------------------------------------------------------

  lemma AddedTo(table: map<string, set<string>>, o: string, l: string, order: string, lifecycle: string)
    ensures lifecycle in Of(Add(table, o, l), order) <==> lifecycle in Of(table, order) || (o == order && l == lifecycle)
  {
  }

  lemma FactReports(p: Plane, name: string, labels: seq<Label>, key: string, o: string, l: string, order: string, lifecycle: string)
    ensures var q := WithFact(Emit(p, name, labels, 1, key), o, l).0;
      && (lifecycle in Of(q.facts, order) <==> lifecycle in Of(p.facts, order) || (o == order && l == lifecycle))
      && q.absent == p.absent
  {
    AddedTo(p.facts, o, l, order, lifecycle);
  }

  ghost predicate TablesGain(p: Plane, q: Plane, gains: bool, order: string, lifecycle: string)
  {
    (lifecycle in Of(q.facts, order) <==> lifecycle in Of(p.facts, order) || gains) && q.absent == p.absent
  }

  lemma RecordReports(p: Plane, op: Op, order: string, lifecycle: string)
    requires Records(op)
    ensures TablesGain(p, RecordStep(p, op).0, Reports(op, order, lifecycle), order, lifecycle)
  {
    match op
    case Launch(o, d, g, s, m) => FactReports(p, LAUNCH_METRIC, LaunchLabels(o, d, g, s, m), LaunchKey(o), o, LAUNCH, order, lifecycle);
    case Review(o, ph, v, n) => FactReports(p, REVIEW_METRIC, ReviewLabels(o, ph, v), ReviewKey(o, ph, n), o, REVIEW, order, lifecycle);
    case Promotion(o, t, v) => FactReports(p, PROMOTION_METRIC, PromotionLabels(o, t, v), PromotionKey(o), o, PROMOTION, order, lifecycle);
    case Settlement(o) => FactReports(p, SETTLEMENT_METRIC, SettlementLabels(o), SettlementKey(o), o, SETTLEMENT, order, lifecycle);
  }

  lemma {:induction false} MissingMarked(p: Plane, o: string, n: nat, order: string, lifecycle: string)
    requires n <= |LIFECYCLES|
    ensures lifecycle in Of(MarkedMissing(p, o, n).absent, order) <==>
      lifecycle in Of(p.absent, order) || (o == order && lifecycle in LIFECYCLES[..n] && lifecycle !in Of(p.facts, order))
  {
    if n > 0 {
      var q := MarkedMissing(p, o, n - 1);
      MissingMarked(p, o, n - 1, order, lifecycle);
      AddedTo(q.absent, o, LIFECYCLES[n - 1], order, lifecycle);
      assert lifecycle in LIFECYCLES[..n] <==> lifecycle in LIFECYCLES[..n - 1] || lifecycle == LIFECYCLES[n - 1];
    }
  }

  /** The marks of one call. */
  predicate Marking(op: Op, reported: bool, order: string, lifecycle: string)
  {
    || (op.MarkAbsence? && op.order == order && op.lifecycle == lifecycle)
    || (op.MarkMissing? && op.order == order && !reported)
  }

  lemma MarkMarks(p: Plane, op: Op, order: string, lifecycle: string)
    requires Marks(op) && LifecycleName(lifecycle)
    ensures lifecycle in Of(MarkStep(p, op).absent, order)
      <==> lifecycle in Of(p.absent, order) || Marking(op, lifecycle in Of(p.facts, order), order, lifecycle)
  {
    LifecyclesAre(lifecycle);
    match op
    case MarkAbsence(o, l) => AddedTo(p.absent, o, l, order, lifecycle);
    case MarkMissing(o) =>
      assert LIFECYCLES[..|LIFECYCLES|] == LIFECYCLES;
      MissingMarked(p, o, |LIFECYCLES|, order, lifecycle);
  }

  lemma SpendKeepsTables(p: Plane, op: Op)
    requires Spends(op)
    ensures SpendStep(p, op).0.facts == p.facts && SpendStep(p, op).0.absent == p.absent
  {
    match op
    case Cost(a, o, t, e) => SpentKeepsTables(p, a, o, t, e);
    case FailureCost(a, o, t, e, c, r) => FailingKeepsTables(p, a, o, t, e, c, r);
  }

  lemma SpentKeepsTables(p: Plane, a: string, o: string, t: int, e: string)
    ensures Spent(p, a, o, t, e).0.facts == p.facts && Spent(p, a, o, t, e).0.absent == p.absent
  {
    EmitKeepsTables(p, COST_METRIC, CostLabels(a, o), t, CostKey(e, a));
  }

  lemma FailingKeepsTables(p: Plane, a: string, o: string, t: int, e: string, c: string, r: string)
    ensures SpentFailing(p, a, o, t, e, c, r).0.facts == p.facts && SpentFailing(p, a, o, t, e, c, r).0.absent == p.absent
  {
    EmitKeepsTables(p, COST_METRIC, FailureLabels(a, o, c, r), t, CostKey(e, a));
  }

  lemma EmitKeepsTables(p: Plane, name: string, labels: seq<Label>, value: int, key: string)
    ensures Emit(p, name, labels, value, key).0.facts == p.facts && Emit(p, name, labels, value, key).0.absent == p.absent
  {
  }

  lemma TablesAfter(p: Plane, op: Op, order: string, lifecycle: string)
    requires !op.Rehydration? && !op.Resume? && LifecycleName(lifecycle)
    ensures var q := Step(p, op).0;
      && (lifecycle in Of(q.facts, order) <==> lifecycle in Of(p.facts, order) || Reports(op, order, lifecycle))
      && (lifecycle in Of(q.absent, order)
          <==> lifecycle in Of(p.absent, order) || Marking(op, lifecycle in Of(p.facts, order), order, lifecycle))
  {
    if Records(op) {
      RecordReports(p, op, order, lifecycle);
    } else if Spends(op) {
      SpendKeepsTables(p, op);
    } else {
      MarkKeepsFacts(p, op);
      MarkMarks(p, op, order, lifecycle);
    }
  }

  lemma ReportedSnoc(ops: seq<Op>, op: Op, order: string, lifecycle: string)
    ensures Reported(ops + [op], order, lifecycle) <==> Reported(ops, order, lifecycle) || Reports(op, order, lifecycle)
  {
    var all := ops + [op];
    assert all[|ops|] == op && forall i :: 0 <= i < |ops| ==> all[i] == ops[i];
  }

  lemma ExcusedSnoc(ops: seq<Op>, op: Op, order: string, lifecycle: string)
    ensures Excused(ops + [op], order, lifecycle)
      <==> Excused(ops, order, lifecycle) || Marking(op, Reported(ops, order, lifecycle), order, lifecycle)
  {
    var all := ops + [op];
    assert all[..|ops|] == ops && all[|ops|] == op;
    assert Excuses(all, |ops|, order, lifecycle) <==> Marking(op, Reported(ops, order, lifecycle), order, lifecycle);
    forall k | 0 <= k < |ops| ensures Excuses(all, k, order, lifecycle) <==> Excuses(ops, k, order, lifecycle) {
      assert all[k] == ops[k] && all[..k] == ops[..k];
    }
  }

  /** The tables of a plane after a run: what was reported, and what was excused. */
  lemma {:induction false} TablesAre(ops: seq<Op>, order: string, lifecycle: string)
    requires Emissions(ops) && LifecycleName(lifecycle)
    ensures lifecycle in Of(Run(ops).facts, order) <==> Reported(ops, order, lifecycle)
    ensures lifecycle in Of(Run(ops).absent, order) <==> Excused(ops, order, lifecycle)
  {
    if ops != [] {
      var front, op := ops[..|ops| - 1], ops[|ops| - 1];
      assert ops == front + [op] && op in ops && forall x :: x in front ==> x in ops;
      TablesAre(front, order, lifecycle);
      TablesAfter(Run(front), op, order, lifecycle);
      ReportedSnoc(front, op, order, lifecycle);
      ExcusedSnoc(front, op, order, lifecycle);
    }
  }

  // ----- presence -----------------------------------------------------------

  lemma StoredNames(p: Plane, s: Sample)
    requires Keyed(p) && s in DedupSum(Values(p.samples))
    ensures SourceMetric(s.name)
  {
    Merged(Values(p.samples));
    assert HasSeries(Values(p.samples), SeriesOf(s));
    var t :| t in Values(p.samples) && SeriesOf(t) == SeriesOf(s);
    ValueIsEntry(p.samples);
    var e :| e in p.samples && e.1 == t;
    assert Source(e.1);
  }

  lemma ShownPresence(p: Plane, s: Sample)
    requires Keyed(p) && s.name == "cost_obs_lifecycle_present"
    ensures s in Exposed(p) <==> s in Presence(p, SortedSet(StrLe, OrdersOf(p)))
  {
    MetricsDiffer();
    forall t | t in DedupSum(Values(p.samples)) ensures t.name != PRESENCE_METRIC { StoredNames(p, t); }
  }

  /** Presence tells what was reported from what is missing: after any run of emissions an order's
      lifecycle shows 1 exactly if some call reported it, 0 exactly if it was accounted for and never
      reported, and nothing otherwise. */
  lemma PresenceIsReported(ops: seq<Op>, order: string, lifecycle: string, value: int)
    requires Emissions(ops) && LifecycleName(lifecycle)
    ensures Sample("cost_obs_lifecycle_present", [("lifecycle", lifecycle), ("order_id", order)], value) in Exposed(Run(ops))
      <==> || (value == 1 && Reported(ops, order, lifecycle))
           || (value == 0 && Excused(ops, order, lifecycle) && !Reported(ops, order, lifecycle))
  {
    EmissionsAreOwnRun(ops);
    RunKeeps(ops);
    TablesAre(ops, order, lifecycle);
    LifecyclesAre(lifecycle);
    PresenceExact(Run(ops), order, lifecycle, value);
    ShownPresence(Run(ops), PresenceSample(order, lifecycle, value));
  }

  // ----- reconciliation -----------------------------------------------------

  /** Launches, or settlements. */
  datatype Side = Opening | Closing

  predicate Files(op: Op, side: Side, order: string)
  {
    match side
    case Opening => op.Launch? && op.order == order
    case Closing => op.Settlement? && op.order == order
  }

  ghost predicate Happened(ops: seq<Op>, side: Side, order: string) { exists i :: 0 <= i < |ops| && Files(ops[i], side, order) }

  function KeyOn(side: Side, order: string): string { if side.Opening? then LaunchKey(order) else SettlementKey(order) }

  function MetricOn(side: Side): string { if side.Opening? then "cost_obs_launch_total" else "cost_obs_settlement_total" }

  function SideCount(p: Plane, side: Side, order: string): nat { CountFor(Values(p.samples), MetricOn(side), order) }

  /** One more of a side is counted at the first call that files it. */
  ghost predicate CountsOn(p: Plane, q: Plane, files: bool, side: Side, order: string)
  {
    && SideCount(q, side, order) == SideCount(p, side, order) + (if files && KeyOn(side, order) !in p.seen then 1 else 0)
    && (KeyOn(side, order) in q.seen <==> KeyOn(side, order) in p.seen || files)
  }

  lemma EmitCounts(p: Plane, name: string, labels: seq<Label>, value: int, key: string, o: string, side: Side, order: string)
    requires Keyed(p) && NamesOrder(labels, o)
    requires key == KeyOn(side, order) <==> name == MetricOn(side) && o == order
    ensures CountsOn(p, Emit(p, name, labels, value, key).0, name == MetricOn(side) && o == order, side, order)
  {
    if key !in p.seen {
      var s := Sample(name, SortBy(LabelLe, labels), value);
      AssignNew(p.samples, key, s);
      ValuesAppend(p.samples, (key, s));
      SortedLabels(labels, "order_id", o);
      CountSnoc(Values(p.samples), s, MetricOn(side), order);
    }
  }

  lemma CountSnoc(samples: seq<Sample>, s: Sample, metric: string, order: string)
    ensures CountFor(samples + [s], metric, order) == CountFor(samples, metric, order) + if Counted(s, metric, order) then 1 else 0
  {
    assert (samples + [s])[..|samples|] == samples;
  }

  lemma KeysOnSides(side: Side, order: string, o: string, ph: string, n: int, e: string, a: string)
    ensures KeyOn(side, order) == KeyOn(side, o) <==> order == o
    ensures KeyOn(Opening, order) != KeyOn(Closing, o) && KeyOn(side, order) != PromotionKey(o)
    ensures KeyOn(side, order) != ReviewKey(o, ph, n) && KeyOn(side, order) != CostKey(e, a)
  {
    KeyFamilies(order, ph, n, e, a);
    KeyFamilies(o, ph, n, e, a);
    if KeyOn(side, order) == KeyOn(side, o) {
      if side.Opening? { PrefixCancels("launch:", order, o); } else { PrefixCancels("settlement:", order, o); }
    }
  }

  lemma LaunchCounts(p: Plane, o: string, d: string, g: int, m: string, n: string, side: Side, order: string)
    requires Keyed(p)
    ensures CountsOn(p, Launched(p, o, d, g, m, n).0, side.Opening? && o == order, side, order)
  {
    MetricsDiffer();
    LaunchNames(o, d, g, m, n);
    KeysOnSides(Opening, order, o, "", 0, "", "");
    KeysOnSides(Closing, o, order, "", 0, "", "");
    EmitCounts(p, LAUNCH_METRIC, LaunchLabels(o, d, g, m, n), 1, LaunchKey(o), o, side, order);
  }

  lemma SettlementCounts(p: Plane, o: string, side: Side, order: string)
    requires Keyed(p)
    ensures CountsOn(p, Settled(p, o).0, side.Closing? && o == order, side, order)
  {
    MetricsDiffer();
    SettlementNames(o);
    KeysOnSides(Closing, order, o, "", 0, "", "");
    KeysOnSides(Opening, order, o, "", 0, "", "");
    EmitCounts(p, SETTLEMENT_METRIC, SettlementLabels(o), 1, SettlementKey(o), o, side, order);
  }

  lemma OtherCounts(p: Plane, name: string, labels: seq<Label>, value: int, key: string, o: string, side: Side, order: string)
    requires Keyed(p) && NamesOrder(labels, o) && key != KeyOn(side, order)
    requires name == REVIEW_METRIC || name == PROMOTION_METRIC || name == COST_METRIC
    ensures CountsOn(p, Emit(p, name, labels, value, key).0, false, side, order)
  {
    MetricsDiffer();
    EmitCounts(p, name, labels, value, key, o, side, order);
  }

  lemma ReviewCounts(p: Plane, o: string, ph: string, v: string, n: int, side: Side, order: string)
    requires Keyed(p)
    ensures CountsOn(p, Reviewed(p, o, ph, v, n).0, false, side, order)
  {
    ReviewNames(o, ph, v);
    KeysOnSides(side, order, o, ph, n, "", "");
    OtherCounts(p, REVIEW_METRIC, ReviewLabels(o, ph, v), 1, ReviewKey(o, ph, n), o, side, order);
  }

  lemma PromotionCounts(p: Plane, o: string, t: string, v: string, side: Side, order: string)
    requires Keyed(p)
    ensures CountsOn(p, Promoted(p, o, t, v).0, false, side, order)
  {
    PromotionNames(o, t, v);
    KeysOnSides(side, order, o, "", 0, "", "");
    OtherCounts(p, PROMOTION_METRIC, PromotionLabels(o, t, v), 1, PromotionKey(o), o, side, order);
  }

  lemma RecordCounts(p: Plane, op: Op, side: Side, order: string)
    requires Keyed(p) && Records(op)
    ensures CountsOn(p, RecordStep(p, op).0, Files(op, side, order), side, order)
  {
    match op
    case Launch(o, d, g, s, m) => LaunchCounts(p, o, d, g, s, m, side, order);
    case Review(o, ph, v, n) => ReviewCounts(p, o, ph, v, n, side, order);
    case Promotion(o, t, v) => PromotionCounts(p, o, t, v, side, order);
    case Settlement(o) => SettlementCounts(p, o, side, order);
  }

  lemma SpendCounts(p: Plane, op: Op, side: Side, order: string)
    requires Keyed(p) && Spends(op)
    ensures CountsOn(p, SpendStep(p, op).0, false, side, order)
  {
    match op
    case Cost(a, o, t, e) =>
      CostNames(a, o);
      CostCounts(p, CostLabels(a, o), t, e, a, o, side, order);
    case FailureCost(a, o, t, e, c, r) =>
      FailureNames(a, o, c, r);
      CostCounts(p, FailureLabels(a, o, c, r), t, e, a, o, side, order);
  }

  lemma CostCounts(p: Plane, labels: seq<Label>, t: int, e: string, a: string, o: string, side: Side, order: string)
    requires Keyed(p) && NamesOrder(labels, o)
    ensures CountsOn(p, Emit(p, COST_METRIC, labels, t, CostKey(e, a)).0, false, side, order)
  {
    KeysOnSides(side, order, order, "", 0, e, a);
    OtherCounts(p, COST_METRIC, labels, t, CostKey(e, a), o, side, order);
  }

  lemma StepCounts(p: Plane, op: Op, side: Side, order: string)
    requires Keyed(p) && !op.Rehydration? && !op.Resume?
    ensures CountsOn(p, Step(p, op).0, Files(op, side, order), side, order)
  {
    if Records(op) {
      RecordCounts(p, op, side, order);
    } else if Spends(op) {
      SpendCounts(p, op, side, order);
    } else {
      MarkKeepsFacts(p, op);
    }
  }

  lemma HappenedSnoc(ops: seq<Op>, op: Op, side: Side, order: string)
    ensures Happened(ops + [op], side, order) <==> Happened(ops, side, order) || Files(op, side, order)
  {
    var all := ops + [op];
    assert all[|ops|] == op && forall i :: 0 <= i < |ops| ==> all[i] == ops[i];
  }

  lemma {:induction false} SideCounted(ops: seq<Op>, side: Side, order: string)
    requires Emissions(ops)
    ensures SideCount(Run(ops), side, order) == if Happened(ops, side, order) then 1 else 0
    ensures KeyOn(side, order) in Run(ops).seen <==> Happened(ops, side, order)
  {
    if ops != [] {
      var front, op := ops[..|ops| - 1], ops[|ops| - 1];
      assert ops == front + [op] && op in ops && forall x :: x in front ==> x in ops;
      SideCounted(front, side, order);
      EmissionsAreOwnRun(front);
      RunKeeps(front);
      StepCounts(Run(front), op, side, order);
      HappenedSnoc(front, op, side, order);
    }
  }

  /** The books of a run: an order counts one launch if any call launched it and one settlement if any
      call settled it, however often they were replayed, ... */
  lemma TallyIsWhatHappened(ops: seq<Op>, order: string)
    requires Emissions(ops)
    ensures Tally(Values(Run(ops).samples), order)
      == (if Happened(ops, Opening, order) then 1 else 0, if Happened(ops, Closing, order) then 1 else 0)
  {
    SideCounted(ops, Opening, order);
    SideCounted(ops, Closing, order);
  }

  /** ... and they are exact once if and only if no order was settled that was never launched. */
  lemma ExactIfLaunched(ops: seq<Op>)
    requires Emissions(ops)
    ensures (forall o :: Tally(Values(Run(ops).samples), o) != (0, 0) ==> ExactTally(Tally(Values(Run(ops).samples), o)))
      <==> forall o :: Happened(ops, Closing, o) ==> Happened(ops, Opening, o)
  {
    forall o ensures var t := Tally(Values(Run(ops).samples), o);
      t == (if Happened(ops, Opening, o) then 1 else 0, if Happened(ops, Closing, o) then 1 else 0) { TallyIsWhatHappened(ops, o); }
  }

  // ----- order of the series ------------------------------------------------

  /** The series come in the order in which their first fact was filed. */
  lemma {:induction false} SeriesInOrder(samples: seq<Sample>, s: Sample)
    ensures Keys(Merge(samples + [s])) == Keys(Merge(samples)) + if HasSeries(samples, SeriesOf(s)) then [] else [SeriesOf(s)]
  {
    MergeSnoc(samples, s);
    MergeGet(samples, SeriesOf(s));
    AssignKeys(Merge(samples), SeriesOf(s), Get(Merge(samples), SeriesOf(s), 0) + s.value);
  }

  lemma MergeSnoc(samples: seq<Sample>, s: Sample)
    ensures Merge(samples + [s]) == Assign(Merge(samples), SeriesOf(s), Get(Merge(samples), SeriesOf(s), 0) + s.value)
  {
    assert (samples + [s])[..|samples|] == samples;
  }

  /** The presence of one order: launch, review, promotion and settlement, in this order. */
  lemma PresenceOfOrderIs(p: Plane, order: string)
    ensures OrderPresence(p, order, |LIFECYCLES|)
      == Line(p, order, "launch") + Line(p, order, "review") + Line(p, order, "promotion") + Line(p, order, "settlement")
  {
    assert OrderPresence(p, order, 0) == [];
    assert OrderPresence(p, order, 1) == [] + Line(p, order, "launch");
    assert OrderPresence(p, order, 2) == OrderPresence(p, order, 1) + Line(p, order, "review");
    assert OrderPresence(p, order, 3) == OrderPresence(p, order, 2) + Line(p, order, "promotion");
    assert OrderPresence(p, order, 4) == OrderPresence(p, order, 3) + Line(p, order, "settlement");
    assert [] + Line(p, order, "launch") == Line(p, order, "launch");
  }

  function Line(p: Plane, order: string, lifecycle: string): seq<Sample>
  {
    var here, gone := lifecycle in Of(p.facts, order), lifecycle in Of(p.absent, order);
    if here || gone
    then [Sample("cost_obs_lifecycle_present", [("lifecycle", lifecycle), ("order_id", order)], if here then 1 else 0)]
    else []
  }
}
