/** Whole runs of a cost data plane: any interleaving of emissions, replays, absence marks,
    foreign rehydrations and resumes from the plane's own file. */
module PlaneRuns {
  import opened Text
  import opened Sorting
  import opened Dict
  import opened Exposition
  import opened DataPlane

  datatype Op =
    | Launch(order: string, development: string, generation: int, seat: string, model: string)
    | Review(order: string, phase: string, verdict: string, attempt: int)
    | Promotion(order: string, target: string, via: string)
    | Settlement(order: string)
    | Cost(attribution: string, order: string, tokens: int, event: string)
    | FailureCost(attribution: string, order: string, tokens: int, event: string, code: string, cause: string)
    | MarkAbsence(order: string, lifecycle: string)
    | MarkMissing(order: string)
    | Rehydration(samples: seq<Sample>)
    | Resume

  /** The resume path: a fresh plane fed with the parse of the old plane's file. A file that
      does not parse raises, and the run goes on with the old plane. */
  ghost function Resumed(p: Plane): Plane
  {
    match ParseText(RenderText(Exposed(p)))
    case Ok(samples) => Rehydrated(FRESH, samples).plane
    case Err(_) => p
  }

  predicate Records(op: Op) { op.Launch? || op.Review? || op.Promotion? || op.Settlement? }

  predicate Spends(op: Op) { op.Cost? || op.FailureCost? }

  predicate Marks(op: Op) { op.MarkAbsence? || op.MarkMissing? }

  function RecordStep(p: Plane, op: Op): (Plane, bool)
    requires Records(op)
  {
    match op
    case Launch(o, d, g, s, m) => Launched(p, o, d, g, s, m)
    case Review(o, ph, v, a) => if Phase(ph) then Reviewed(p, o, ph, v, a) else (p, false)
    case Promotion(o, t, v) => Promoted(p, o, t, v)
    case Settlement(o) => Settled(p, o)
  }

  function SpendStep(p: Plane, op: Op): (Plane, bool)
    requires Spends(op)
  {
    if !Attribution(op.attribution) then (p, false)
    else
      match op
      case Cost(a, o, t, e) => Spent(p, a, o, t, e)
      case FailureCost(a, o, t, e, c, r) => SpentFailing(p, a, o, t, e, c, r)
  }

  function MarkStep(p: Plane, op: Op): Plane
    requires Marks(op)
  {
    match op
    case MarkAbsence(o, l) => if l in LIFECYCLES then MarkedAbsent(p, o, l) else p
    case MarkMissing(o) => MarkedMissing(p, o, |LIFECYCLES|)
  }

  function Call(p: Plane, op: Op): (Plane, bool)
    requires !op.Rehydration? && !op.Resume?
  {
    if Records(op) then RecordStep(p, op) else if Spends(op) then SpendStep(p, op) else (MarkStep(p, op), false)
  }

  /** The plane after one call, and the call's answer where it has one. */
  ghost function Step(p: Plane, op: Op): (Plane, bool)
  {
    match op
    case Resume => (Resumed(p), false)
    case Rehydration(samples) => (Rehydrated(p, samples).plane, false)
    case _ => Call(p, op)
  }

  ghost function Run(ops: seq<Op>): Plane
  {
    if ops == [] then FRESH else Step(Run(ops[..|ops| - 1]), ops[|ops| - 1]).0
  }

  // ----- metric names -------------------------------------------------------

  lemma MetricsDiffer()
    ensures LAUNCH_METRIC != REVIEW_METRIC && LAUNCH_METRIC != PROMOTION_METRIC
    ensures LAUNCH_METRIC != SETTLEMENT_METRIC && LAUNCH_METRIC != COST_METRIC
    ensures REVIEW_METRIC != PROMOTION_METRIC && REVIEW_METRIC != SETTLEMENT_METRIC
    ensures REVIEW_METRIC != COST_METRIC && PROMOTION_METRIC != SETTLEMENT_METRIC
    ensures PROMOTION_METRIC != COST_METRIC && SETTLEMENT_METRIC != COST_METRIC
    ensures PRESENCE_METRIC != LAUNCH_METRIC && PRESENCE_METRIC != REVIEW_METRIC
    ensures PRESENCE_METRIC != PROMOTION_METRIC && PRESENCE_METRIC != SETTLEMENT_METRIC
    ensures PRESENCE_METRIC != COST_METRIC
  {
    assert LAUNCH_METRIC[9] == 'l' && REVIEW_METRIC[9] == 'r';
    assert |LAUNCH_METRIC| == 21 == |REVIEW_METRIC| && |PROMOTION_METRIC| == 24;
    assert |SETTLEMENT_METRIC| == 25 && |COST_METRIC| == 29 && |PRESENCE_METRIC| == 26;
  }

  // ----- labels -------------------------------------------------------------

  /** No label name appears with two values. */
  predicate Functional(labels: seq<Label>)
  {
    forall a, b :: a in labels && b in labels && a.0 == b.0 ==> a == b
  }

  lemma {:induction false} LabelGetIs(labels: seq<Label>, key: string, value: string)
    requires Functional(labels) && (key, value) in labels
    ensures LabelGet(labels, key) == Some(value)
  {
    var front, last := labels[..|labels| - 1], labels[|labels| - 1];
    assert labels == front + [last];
    assert last in labels;
    if last.0 != key { LabelGetIs(front, key, value); }
  }

  /** Sorting keeps what the labels say. */
  lemma SortedLabels(labels: seq<Label>, key: string, value: string)
    requires Functional(labels)
    ensures Functional(SortBy(LabelLe, labels))
    ensures (key, value) in labels ==> LabelGet(SortBy(LabelLe, labels), key) == Some(value)
  {
    SortByElements(LabelLe, labels);
    if (key, value) in labels { LabelGetIs(SortBy(LabelLe, labels), key, value); }
  }

  predicate NamesOrder(labels: seq<Label>, order: string)
  {
    Functional(labels) && ("order_id", order) in labels
  }

  lemma EmittedOrder(name: string, labels: seq<Label>, value: int, order: string)
    requires NamesOrder(labels, order)
    ensures OrderOf(Sample(name, SortBy(LabelLe, labels), value)) == order
  {
    SortedLabels(labels, "order_id", order);
  }

  lemma LaunchNames(o: string, d: string, g: int, s: string, m: string)
    ensures NamesOrder(LaunchLabels(o, d, g, s, m), o)
  {
    var l := LaunchLabels(o, d, g, s, m);
    assert l[0].0[0] == 'o' && l[1].0[0] == 'd' && l[2].0[0] == 'g' && l[3].0[0] == 's' && l[4].0[0] == 'm';
  }

  lemma ReviewNames(o: string, ph: string, v: string)
    ensures NamesOrder(ReviewLabels(o, ph, v), o)
  {
    var l := ReviewLabels(o, ph, v);
    assert l[0].0[0] == 'o' && l[1].0[0] == 'p' && l[2].0[0] == 'v';
  }

  lemma PromotionNames(o: string, t: string, v: string)
    ensures NamesOrder(PromotionLabels(o, t, v), o)
  {
    var l := PromotionLabels(o, t, v);
    assert l[0].0[0] == 'o' && l[1].0[0] == 't' && l[2].0[0] == 'v';
  }

  lemma SettlementNames(o: string)
    ensures NamesOrder(SettlementLabels(o), o)
  {
    var l := SettlementLabels(o);
    assert l[0].0[0] == 'o' && l[1].0[0] == 's';
  }

  lemma CostNames(a: string, o: string)
    ensures NamesOrder(CostLabels(a, o), o)
  {
    var l := CostLabels(a, o);
    assert l[0].0[0] == 'a' && l[1].0[0] == 'o';
  }

  lemma FailureNames(a: string, o: string, c: string, r: string)
    ensures NamesOrder(FailureLabels(a, o, c, r), o)
  {
    var l := FailureLabels(a, o, c, r);
    assert l[0].0[0] == 'a' && l[1].0[0] == 'o' && l[2].0[0] == 'f' && l[3].0[0] == 'r';
  }

  // ----- one launch and one settlement per order ----------------------------

  /** Launches, promotions and settlements are filed under their order. */
  predicate Filed(key: string, s: Sample)
  {
    && (s.name == LAUNCH_METRIC ==> key == LaunchKey(OrderOf(s)))
    && (s.name == PROMOTION_METRIC ==> key == PromotionKey(OrderOf(s)))
    && (s.name == SETTLEMENT_METRIC ==> key == SettlementKey(OrderOf(s)))
  }

  ghost predicate AllFiled(p: Plane)
  {
    Distinct(Keys(p.samples)) && forall e :: e in p.samples ==> Filed(e.0, e.1)
  }

  lemma AssignFiled(p: Plane, key: string, s: Sample)
    requires AllFiled(p) && Filed(key, s)
    ensures forall q: Plane :: q.samples == Assign(p.samples, key, s) ==> AllFiled(q)
  {
    AssignDistinct(p.samples, key, s);
    AssignEntries(p.samples, key, s);
  }

  lemma EmitFiled(p: Plane, name: string, labels: seq<Label>, value: int, key: string)
    requires AllFiled(p) && Filed(key, Sample(name, SortBy(LabelLe, labels), value))
    ensures AllFiled(Emit(p, name, labels, value, key).0)
  {
    AssignFiled(p, key, Sample(name, SortBy(LabelLe, labels), value));
  }

  lemma {:induction false} MarkedMissingKeepsFacts(p: Plane, order: string, n: nat)
    requires n <= |LIFECYCLES|
    ensures var q := MarkedMissing(p, order, n);
      q.samples == p.samples && q.seen == p.seen && q.facts == p.facts
  {
    if n > 0 { MarkedMissingKeepsFacts(p, order, n - 1); }
  }

  lemma AbsorbFiled(r: DataPlane.Rehydration, s: Sample)
    requires AllFiled(r.plane)
    ensures AllFiled(Absorb(r, s).plane)
  {
    MetricsDiffer();
    if s.name == LAUNCH_METRIC {
      AssignFiled(r.plane, LaunchKey(OrderOf(s)), s);
    } else if s.name == PROMOTION_METRIC {
      AssignFiled(r.plane, PromotionKey(OrderOf(s)), s);
    } else if s.name == SETTLEMENT_METRIC {
      AssignFiled(r.plane, SettlementKey(OrderOf(s)), s);
    } else if s.name == REVIEW_METRIC {
      AbsorbReviewFiled(r, s);
    } else {
      AssignFiled(r.plane, RestoredCostKey(s), s);
    }
  }

  lemma AbsorbReviewFiled(r: DataPlane.Rehydration, s: Sample)
    requires AllFiled(r.plane) && s.name == REVIEW_METRIC
    ensures AllFiled(Absorb(r, s).plane)
  {
    MetricsDiffer();
    var phase := LabelOr(s.labels, "phase", "continuous");
    var attempt := (if (OrderOf(s), phase) in r.attempts then r.attempts[(OrderOf(s), phase)] else 0) + 1;
    AssignFiled(r.plane, ReviewKey(OrderOf(s), phase, attempt), s);
  }

  lemma {:induction false} RehydratedFiled(p: Plane, samples: seq<Sample>)
    requires AllFiled(p)
    ensures AllFiled(Rehydrated(p, samples).plane)
  {
    if samples != [] {
      RehydratedFiled(p, samples[..|samples| - 1]);
      AbsorbFiled(Rehydrated(p, samples[..|samples| - 1]), samples[|samples| - 1]);
    }
  }

  lemma LaunchedFiled(p: Plane, o: string, d: string, g: int, s: string, m: string)
    requires AllFiled(p)
    ensures AllFiled(Launched(p, o, d, g, s, m).0)
  {
    MetricsDiffer();
    LaunchNames(o, d, g, s, m);
    EmittedOrder(LAUNCH_METRIC, LaunchLabels(o, d, g, s, m), 1, o);
    EmitFiled(p, LAUNCH_METRIC, LaunchLabels(o, d, g, s, m), 1, LaunchKey(o));
  }

  lemma PromotedFiled(p: Plane, o: string, t: string, v: string)
    requires AllFiled(p)
    ensures AllFiled(Promoted(p, o, t, v).0)
  {
    MetricsDiffer();
    PromotionNames(o, t, v);
    EmittedOrder(PROMOTION_METRIC, PromotionLabels(o, t, v), 1, o);
    EmitFiled(p, PROMOTION_METRIC, PromotionLabels(o, t, v), 1, PromotionKey(o));
  }

  lemma SettledFiled(p: Plane, o: string)
    requires AllFiled(p)
    ensures AllFiled(Settled(p, o).0)
  {
    MetricsDiffer();
    SettlementNames(o);
    EmittedOrder(SETTLEMENT_METRIC, SettlementLabels(o), 1, o);
    EmitFiled(p, SETTLEMENT_METRIC, SettlementLabels(o), 1, SettlementKey(o));
  }

  lemma OtherFiled(p: Plane, name: string, labels: seq<Label>, value: int, key: string)
    requires AllFiled(p) && (name == REVIEW_METRIC || name == COST_METRIC)
    ensures AllFiled(Emit(p, name, labels, value, key).0)
  {
    MetricsDiffer();
    EmitFiled(p, name, labels, value, key);
  }

  lemma ResumedFiled(p: Plane)
    requires AllFiled(p)
    ensures AllFiled(Resumed(p))
  {
    var r := ParseText(RenderText(Exposed(p)));
    if r.Ok? { RehydratedFiled(FRESH, r.value); }
  }

  lemma RecordFiled(p: Plane, op: Op)
    requires AllFiled(p) && Records(op)
    ensures AllFiled(RecordStep(p, op).0)
  {
    match op
    case Launch(o, d, g, s, m) => LaunchedFiled(p, o, d, g, s, m);
    case Review(o, ph, v, a) => OtherFiled(p, REVIEW_METRIC, ReviewLabels(o, ph, v), 1, ReviewKey(o, ph, a));
    case Promotion(o, t, v) => PromotedFiled(p, o, t, v);
    case Settlement(o) => SettledFiled(p, o);
  }

  lemma SpendFiled(p: Plane, op: Op)
    requires AllFiled(p) && Spends(op)
    ensures AllFiled(SpendStep(p, op).0)
  {
    match op
    case Cost(a, o, t, e) => OtherFiled(p, COST_METRIC, CostLabels(a, o), t, CostKey(e, a));
    case FailureCost(a, o, t, e, c, r) => OtherFiled(p, COST_METRIC, FailureLabels(a, o, c, r), t, CostKey(e, a));
  }

  lemma MarkKeepsFacts(p: Plane, op: Op)
    requires Marks(op)
    ensures var q := MarkStep(p, op); q.samples == p.samples && q.seen == p.seen && q.facts == p.facts
  {
    if op.MarkMissing? { MarkedMissingKeepsFacts(p, op.order, |LIFECYCLES|); }
  }

  lemma StepFiled(p: Plane, op: Op)
    requires AllFiled(p)
    ensures AllFiled(Step(p, op).0)
  {
    if Records(op) {
      RecordFiled(p, op);
    } else if Spends(op) {
      SpendFiled(p, op);
    } else if Marks(op) {
      MarkKeepsFacts(p, op);
    } else if op.Rehydration? {
      RehydratedFiled(p, op.samples);
    } else {
      ResumedFiled(p);
    }
  }

  lemma {:induction false} RunFiled(ops: seq<Op>)
    ensures AllFiled(Run(ops))
  {
    if ops != [] {
      RunFiled(ops[..|ops| - 1]);
      StepFiled(Run(ops[..|ops| - 1]), ops[|ops| - 1]);
    }
  }

  lemma {:induction false} CountIsAny(samples: seq<Sample>, metric: string, order: string)
    ensures CountFor(samples, metric, order) > 0 <==> exists s :: s in samples && Counted(s, metric, order)
  {
    if samples != [] {
      var front, last := samples[..|samples| - 1], samples[|samples| - 1];
      CountIsAny(front, metric, order);
      assert samples == front + [last];
      if Counted(last, metric, order) { assert last in samples; }
    }
  }

  lemma {:induction false} CountAtMostOne(samples: seq<Sample>, metric: string, order: string)
    requires forall i, j :: 0 <= i < j < |samples| ==>
                            !(Counted(samples[i], metric, order) && Counted(samples[j], metric, order))
    ensures CountFor(samples, metric, order) <= 1
  {
    if samples != [] {
      var front, last := samples[..|samples| - 1], samples[|samples| - 1];
      CountAtMostOne(front, metric, order);
      CountIsAny(front, metric, order);
      assert forall i :: 0 <= i < |front| ==> front[i] == samples[i];
    }
  }

  lemma FiledOnce(p: Plane, metric: string, order: string)
    requires AllFiled(p) && metric in {LAUNCH_METRIC, PROMOTION_METRIC, SETTLEMENT_METRIC}
    ensures CountFor(Values(p.samples), metric, order) <= 1
  {
    var all := Values(p.samples);
    KeysAt(p.samples);
    forall i, j | 0 <= i < j < |all| ensures !(Counted(all[i], metric, order) && Counted(all[j], metric, order)) {
      assert p.samples[i] in p.samples && p.samples[j] in p.samples;
      assert Keys(p.samples)[i] != Keys(p.samples)[j];
    }
    CountAtMostOne(all, metric, order);
  }

  /** Some fact of this metric names the order. */
  ghost predicate HasFact(p: Plane, metric: string, order: string)
  {
    exists s :: s in Values(p.samples) && Counted(s, metric, order)
  }

  /** Over every run an order has at most one launch and one settlement, so the books are exact
      once if and only if every settled order has launched. */
  lemma ExactOnce(ops: seq<Op>)
    ensures var all := Values(Run(ops).samples);
      && (forall o :: CountFor(all, LAUNCH_METRIC, o) <= 1 && CountFor(all, SETTLEMENT_METRIC, o) <= 1)
      && ((forall o :: Tally(all, o) != (0, 0) ==> ExactTally(Tally(all, o)))
          <==> forall o :: HasFact(Run(ops), SETTLEMENT_METRIC, o) ==> HasFact(Run(ops), LAUNCH_METRIC, o))
  {
    var p := Run(ops);
    RunFiled(ops);
    forall o
      ensures CountFor(Values(p.samples), LAUNCH_METRIC, o) <= 1 && CountFor(Values(p.samples), SETTLEMENT_METRIC, o) <= 1
      ensures HasFact(p, LAUNCH_METRIC, o) <==> CountFor(Values(p.samples), LAUNCH_METRIC, o) == 1
      ensures HasFact(p, SETTLEMENT_METRIC, o) <==> CountFor(Values(p.samples), SETTLEMENT_METRIC, o) == 1
    {
      FiledOnce(p, LAUNCH_METRIC, o);
      FiledOnce(p, SETTLEMENT_METRIC, o);
      CountIsAny(Values(p.samples), LAUNCH_METRIC, o);
      CountIsAny(Values(p.samples), SETTLEMENT_METRIC, o);
    }
    if forall o :: Tally(Values(p.samples), o) != (0, 0) ==> ExactTally(Tally(Values(p.samples), o)) {
      forall o | HasFact(p, SETTLEMENT_METRIC, o) ensures HasFact(p, LAUNCH_METRIC, o) {
        assert ExactTally(Tally(Values(p.samples), o));
      }
    }
  }
}
