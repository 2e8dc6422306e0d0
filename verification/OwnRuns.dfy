/** The life of one plane: its own emissions and absence marks, suspended and resumed any number
    of times. What its file reproduces, and which replays it recognizes, at every point of it. */
module OwnRuns {
  import opened Text
  import opened Sorting
  import opened Dict
  import opened Exposition
  import opened RoundTrip
  import opened DataPlane
  import opened PlaneRuns
  import opened PlaneShape
  import opened Resume
  import opened FixedPoint

  /** A plane that is never fed from a foreign file, and is resumed only while every text it
      holds survives the file. */
  ghost predicate OwnRun(ops: seq<Op>)
  {
    ops != [] ==>
      var before, op := ops[..|ops| - 1], ops[|ops| - 1];
      OwnRun(before) && !op.Rehydration? && (op.Resume? ==> CleanPlane(Run(before)))
  }

  /** A call whose texts survive the file. Event ids are never printed. */
  predicate CleanOp(op: Op)
  {
    match op
    case Launch(o, d, _, s, m) => CleanValue(o) && CleanValue(d) && CleanValue(s) && CleanValue(m)
    case Review(o, _, v, _) => CleanValue(o) && CleanValue(v)
    case Promotion(o, t, v) => CleanValue(o) && CleanValue(t) && CleanValue(v)
    case Settlement(o) => CleanValue(o)
    case Cost(_, o, _, _) => CleanValue(o)
    case FailureCost(_, o, _, _, c, r) => CleanValue(o) && CleanValue(c) && CleanValue(r)
    case MarkAbsence(o, _) => CleanValue(o)
    case MarkMissing(o) => CleanValue(o)
    case Rehydration(_) => false
    case Resume => true
  }

  // ----- the invariant holds all along --------------------------------------

  /** The invariant holds afterwards, and clean texts stay clean. */
  ghost predicate KeptBy(p: Plane, clean: bool, q: Plane)
  {
    PlaneInv(q) && (CleanPlane(p) && clean ==> CleanPlane(q))
  }

  predicate CleanLabels(labels: seq<Label>) { forall l :: l in labels ==> CleanValue(l.1) }

  lemma EmittedClean(name: string, labels: seq<Label>, value: int)
    requires CleanLabels(labels)
    ensures Clean(Sample(name, SortBy(LabelLe, labels), value))
  {
    SortByElements(LabelLe, labels);
  }

  lemma KeptClean(p: Plane, key: string, s: Sample)
    requires Keyed(p) && CleanPlane(p) && Clean(s)
    ensures CleanPlane(Kept(p, key, s))
  {
    AssignEntries(p.samples, key, s);
  }

  lemma LifecycleKeeps(p: Plane, name: string, labels: seq<Label>, key: string, order: string, lifecycle: string)
    requires PlaneInv(p) && lifecycle in LIFECYCLES && name == MetricOf(lifecycle)
    requires IdentLabels(labels) && NamesOrder(labels, order)
    requires name == REVIEW_METRIC ==> exists ph :: Phase(ph) && ("phase", ph) in labels
    requires KeyFits(key, Sample(name, SortBy(LabelLe, labels), 1))
    ensures KeptBy(p, CleanLabels(labels) && CleanValue(order), WithFact(Emit(p, name, labels, 1, key), order, lifecycle).0)
  {
    var s := Sample(name, SortBy(LabelLe, labels), 1);
    LifecycleMetric(lifecycle);
    EmittedSource(name, labels, 1, order);
    RecordKeeps(p, s, key, lifecycle);
    if CleanPlane(p) && CleanLabels(labels) && CleanValue(order) { LifecycleClean(p, name, labels, key, order, lifecycle); }
  }

  lemma LifecycleClean(p: Plane, name: string, labels: seq<Label>, key: string, order: string, lifecycle: string)
    requires Keyed(p) && CleanPlane(p) && CleanLabels(labels) && CleanValue(order)
    ensures CleanPlane(WithFact(Emit(p, name, labels, 1, key), order, lifecycle).0)
  {
    EmittedClean(name, labels, 1);
    KeptClean(p, key, Sample(name, SortBy(LabelLe, labels), 1));
  }

  lemma LifecyclesAndMetrics()
    ensures LAUNCH in LIFECYCLES && REVIEW in LIFECYCLES && PROMOTION in LIFECYCLES && SETTLEMENT in LIFECYCLES
    ensures MetricOf(LAUNCH) == LAUNCH_METRIC && MetricOf(REVIEW) == REVIEW_METRIC
    ensures MetricOf(PROMOTION) == PROMOTION_METRIC && MetricOf(SETTLEMENT) == SETTLEMENT_METRIC
  {
    assert LIFECYCLES[0] == LAUNCH && LIFECYCLES[1] == REVIEW && LIFECYCLES[2] == PROMOTION && LIFECYCLES[3] == SETTLEMENT;
  }

  lemma LaunchLabelsGood(o: string, d: string, g: int, s: string, m: string)
    ensures IdentLabels(LaunchLabels(o, d, g, s, m))
    ensures CleanOp(Launch(o, d, g, s, m)) ==> CleanLabels(LaunchLabels(o, d, g, s, m))
  {
    LabelNamesAreIdents();
    assert forall c :: c in IntText(g) ==> c != ',' && !IsBreak(c);
  }

  lemma LaunchKeeps(p: Plane, o: string, d: string, g: int, s: string, m: string)
    requires PlaneInv(p)
    ensures KeptBy(p, CleanOp(Launch(o, d, g, s, m)), Launched(p, o, d, g, s, m).0)
  {
    MetricsDiffer();
    LaunchNames(o, d, g, s, m);
    LaunchLabelsGood(o, d, g, s, m);
    EmittedOrder(LAUNCH_METRIC, LaunchLabels(o, d, g, s, m), 1, o);
    LifecyclesAndMetrics();
    LifecycleKeeps(p, LAUNCH_METRIC, LaunchLabels(o, d, g, s, m), LaunchKey(o), o, LAUNCH);
  }

  lemma PromotionLabelsGood(o: string, t: string, v: string)
    ensures IdentLabels(PromotionLabels(o, t, v))
    ensures CleanOp(Promotion(o, t, v)) ==> CleanLabels(PromotionLabels(o, t, v))
  {
    LabelNamesAreIdents();
  }

  lemma PromotionKeeps(p: Plane, o: string, t: string, v: string)
    requires PlaneInv(p)
    ensures KeptBy(p, CleanOp(Promotion(o, t, v)), Promoted(p, o, t, v).0)
  {
    MetricsDiffer();
    PromotionNames(o, t, v);
    PromotionLabelsGood(o, t, v);
    EmittedOrder(PROMOTION_METRIC, PromotionLabels(o, t, v), 1, o);
    LifecyclesAndMetrics();
    LifecycleKeeps(p, PROMOTION_METRIC, PromotionLabels(o, t, v), PromotionKey(o), o, PROMOTION);
  }

  lemma SettlementLabelsGood(o: string)
    ensures IdentLabels(SettlementLabels(o))
    ensures CleanValue(o) ==> CleanLabels(SettlementLabels(o))
  {
    LabelNamesAreIdents();
    assert CleanValue("settled");
  }

  lemma SettlementKeeps(p: Plane, o: string)
    requires PlaneInv(p)
    ensures KeptBy(p, CleanOp(Settlement(o)), Settled(p, o).0)
  {
    MetricsDiffer();
    SettlementNames(o);
    SettlementLabelsGood(o);
    EmittedOrder(SETTLEMENT_METRIC, SettlementLabels(o), 1, o);
    LifecyclesAndMetrics();
    LifecycleKeeps(p, SETTLEMENT_METRIC, SettlementLabels(o), SettlementKey(o), o, SETTLEMENT);
  }

  lemma ReviewLabelsGood(o: string, ph: string, v: string)
    requires Phase(ph)
    ensures IdentLabels(ReviewLabels(o, ph, v)) && ("phase", ph) in ReviewLabels(o, ph, v)
    ensures CleanValue(o) && CleanValue(v) ==> CleanLabels(ReviewLabels(o, ph, v))
  {
    LabelNamesAreIdents();
    assert ReviewLabels(o, ph, v)[1] == ("phase", ph);
    assert CleanValue(ph);
  }

  lemma ReviewKeeps(p: Plane, o: string, ph: string, v: string, a: int)
    requires PlaneInv(p) && Phase(ph)
    ensures KeptBy(p, CleanOp(Review(o, ph, v, a)), Reviewed(p, o, ph, v, a).0)
  {
    MetricsDiffer();
    ReviewNames(o, ph, v);
    ReviewLabelsGood(o, ph, v);
    EmittedOrder(REVIEW_METRIC, ReviewLabels(o, ph, v), 1, o);
    EmittedPhase(REVIEW_METRIC, ReviewLabels(o, ph, v), 1, ph);
    LifecyclesAndMetrics();
    LifecycleKeeps(p, REVIEW_METRIC, ReviewLabels(o, ph, v), ReviewKey(o, ph, a), o, REVIEW);
  }

  lemma CostKeeps(p: Plane, labels: seq<Label>, a: string, o: string, tokens: int, event: string)
    requires PlaneInv(p) && Attribution(a) && ("attribution", a) in labels && NamesOrder(labels, o) && IdentLabels(labels)
    ensures KeptBy(p, CleanLabels(labels), Emit(p, COST_METRIC, labels, tokens, CostKey(event, a)).0)
  {
    var s := Sample(COST_METRIC, SortBy(LabelLe, labels), tokens);
    MetricsDiffer();
    EmittedSource(COST_METRIC, labels, tokens, o);
    EmittedAttribution(COST_METRIC, labels, tokens, a);
    SpendKeeps(p, s, CostKey(event, a));
    if CleanPlane(p) && CleanLabels(labels) {
      EmittedClean(COST_METRIC, labels, tokens);
      KeptClean(p, CostKey(event, a), s);
    }
  }

  lemma AttributionIsClean(a: string)
    requires Attribution(a)
    ensures CleanValue(a)
  {
  }

  lemma CostLabelsGood(a: string, o: string)
    requires Attribution(a)
    ensures IdentLabels(CostLabels(a, o)) && ("attribution", a) in CostLabels(a, o)
    ensures CleanValue(o) ==> CleanLabels(CostLabels(a, o))
  {
    LabelNamesAreIdents();
    AttributionIsClean(a);
    assert CostLabels(a, o)[0] == ("attribution", a);
  }

  lemma FailureLabelsGood(a: string, o: string, code: string, cause: string)
    requires Attribution(a)
    ensures IdentLabels(FailureLabels(a, o, code, cause)) && ("attribution", a) in FailureLabels(a, o, code, cause)
    ensures CleanValue(o) && CleanValue(code) && CleanValue(cause) ==> CleanLabels(FailureLabels(a, o, code, cause))
  {
    LabelNamesAreIdents();
    AttributionIsClean(a);
    assert FailureLabels(a, o, code, cause)[0] == ("attribution", a);
  }

  lemma AbsenceKeeps(p: Plane, o: string, l: string)
    requires PlaneInv(p) && l in LIFECYCLES
    ensures KeptBy(p, CleanValue(o), MarkedAbsent(p, o, l))
  {
  }

  lemma {:induction false} MissingKeeps(p: Plane, o: string, n: nat)
    requires PlaneInv(p) && n <= |LIFECYCLES|
    ensures KeptBy(p, CleanValue(o), MarkedMissing(p, o, n))
  {
    if n > 0 {
      MissingKeeps(p, o, n - 1);
      var l := MissingStep(p, o, n);
      MissingStepKeeps(p, MarkedMissing(p, o, n - 1), o, l);
    }
  }

  lemma MissingStep(p: Plane, o: string, n: nat) returns (l: string)
    requires 0 < n <= |LIFECYCLES|
    ensures l in LIFECYCLES
    ensures var q := MarkedMissing(p, o, n - 1); MarkedMissing(p, o, n) == if l in Of(p.facts, o) then q else MarkedAbsent(q, o, l)
  {
    l := LIFECYCLES[n - 1];
  }

  lemma MissingStepKeeps(p: Plane, q: Plane, o: string, l: string)
    requires PlaneInv(p) && KeptBy(p, CleanValue(o), q) && l in LIFECYCLES
    ensures KeptBy(p, CleanValue(o), if l in Of(p.facts, o) then q else MarkedAbsent(q, o, l))
  {
    AbsenceKeeps(q, o, l);
  }

  lemma RecordStepKeeps(p: Plane, op: Op)
    requires PlaneInv(p) && Records(op)
    ensures KeptBy(p, CleanOp(op), RecordStep(p, op).0)
  {
    match op
    case Launch(o, d, g, s, m) => LaunchKeeps(p, o, d, g, s, m);
    case Review(o, ph, v, a) => if Phase(ph) { ReviewKeeps(p, o, ph, v, a); }
    case Promotion(o, t, v) => PromotionKeeps(p, o, t, v);
    case Settlement(o) => SettlementKeeps(p, o);
  }

  lemma SpendStepKeeps(p: Plane, op: Op)
    requires PlaneInv(p) && Spends(op)
    ensures KeptBy(p, CleanOp(op), SpendStep(p, op).0)
  {
    if !Attribution(op.attribution) {
      assert SpendStep(p, op) == (p, false);
    } else if op.Cost? {
      SpentKeeps(p, op.attribution, op.order, op.tokens, op.event);
      assert SpendStep(p, op) == Spent(p, op.attribution, op.order, op.tokens, op.event);
    } else {
      SpentFailingKeeps(p, op.attribution, op.order, op.tokens, op.event, op.code, op.cause);
      assert SpendStep(p, op) == SpentFailing(p, op.attribution, op.order, op.tokens, op.event, op.code, op.cause);
    }
  }

  lemma SpentKeeps(p: Plane, a: string, o: string, t: int, e: string)
    requires PlaneInv(p) && Attribution(a)
    ensures KeptBy(p, CleanValue(o), Spent(p, a, o, t, e).0)
  {
    CostLabelsGood(a, o);
    CostNames(a, o);
    CostKeeps(p, CostLabels(a, o), a, o, t, e);
  }

  lemma SpentFailingKeeps(p: Plane, a: string, o: string, t: int, e: string, c: string, r: string)
    requires PlaneInv(p) && Attribution(a)
    ensures KeptBy(p, CleanValue(o) && CleanValue(c) && CleanValue(r), SpentFailing(p, a, o, t, e, c, r).0)
  {
    FailureLabelsGood(a, o, c, r);
    FailureNames(a, o, c, r);
    CostKeeps(p, FailureLabels(a, o, c, r), a, o, t, e);
  }

  lemma MarkStepKeeps(p: Plane, op: Op)
    requires PlaneInv(p) && Marks(op)
    ensures KeptBy(p, CleanOp(op), MarkStep(p, op))
  {
    match op
    case MarkAbsence(o, l) => if l in LIFECYCLES { AbsenceKeeps(p, o, l); }
    case MarkMissing(o) => MissingKeeps(p, o, |LIFECYCLES|);
  }

  lemma StepKeeps(p: Plane, op: Op)
    requires PlaneInv(p) && !op.Rehydration? && (op.Resume? ==> CleanPlane(p))
    ensures KeptBy(p, CleanOp(op), Step(p, op).0)
  {
    if Records(op) {
      RecordStepKeeps(p, op);
    } else if Spends(op) {
      SpendStepKeeps(p, op);
    } else if Marks(op) {
      MarkStepKeeps(p, op);
    } else {
      ResumedKeepsShape(p);
    }
  }

  /** The invariant holds at every point of a plane's life. */
  lemma {:induction false} RunKeeps(ops: seq<Op>)
    requires OwnRun(ops)
    ensures PlaneInv(Run(ops))
  {
    if ops != [] {
      RunKeeps(ops[..|ops| - 1]);
      StepKeeps(Run(ops[..|ops| - 1]), ops[|ops| - 1]);
    }
  }

  /** Calls with clean texts may be resumed anywhere. */
  lemma {:induction false} CleanCallsAreOwnRun(ops: seq<Op>)
    requires forall op :: op in ops ==> CleanOp(op)
    ensures OwnRun(ops) && CleanPlane(Run(ops))
  {
    if ops != [] {
      var before := ops[..|ops| - 1];
      assert ops[|ops| - 1] in ops;
      CleanCallsAreOwnRun(before);
      RunKeeps(before);
      StepKeeps(Run(before), ops[|ops| - 1]);
    }
  }

  ghost predicate Reproduced(ops: seq<Op>) { FileAfterResume(Run(ops)) == Some(RenderText(Exposed(Run(ops)))) }

  /** At every point of a plane's life: suspending and resuming it reproduces its file, if and only
      if every text it prints is clean, no lifecycle was booked on the order without a name, and
      the spend of each order and attribution carries one label set. */
  lemma ResumeReproducesFile(ops: seq<Op>)
    requires OwnRun(ops)
    ensures Reproduced(ops) <==> CleanPlane(Run(ops)) && "" !in OrdersOf(Run(ops)) && OneLabelSet(Run(ops))
  {
    RunKeeps(ops);
    ResumeFixedPoint(Run(ops));
  }

  lemma RunSnoc(ops: seq<Op>, op: Op)
    ensures Run(ops + [op]) == Step(Run(ops), op).0
    ensures OwnRun(ops + [op]) <==> OwnRun(ops) && !op.Rehydration? && (op.Resume? ==> CleanPlane(Run(ops)))
  {
    assert (ops + [op])[..|ops|] == ops;
  }

  lemma OwnFront(ops: seq<Op>, op: Op)
    requires OwnRun(ops + [op])
    ensures OwnRun(ops)
  {
    assert (ops + [op])[..|ops|] == ops;
  }

  // ----- what a step keeps --------------------------------------------------

  lemma EmitKeepsEntry(p: Plane, name: string, labels: seq<Label>, value: int, key: string, e: (string, Sample))
    requires Keyed(p) && e in p.samples
    ensures e in Emit(p, name, labels, value, key).0.samples
  {
    if key !in p.seen { AssignNew(p.samples, key, Sample(name, SortBy(LabelLe, labels), value)); }
  }

  lemma RecordKeepsEntry(p: Plane, op: Op, e: (string, Sample))
    requires Keyed(p) && Records(op) && e in p.samples
    ensures e in RecordStep(p, op).0.samples
  {
    match op
    case Launch(o, d, g, s, m) => EmitKeepsEntry(p, LAUNCH_METRIC, LaunchLabels(o, d, g, s, m), 1, LaunchKey(o), e);
    case Review(o, ph, v, a) => EmitKeepsEntry(p, REVIEW_METRIC, ReviewLabels(o, ph, v), 1, ReviewKey(o, ph, a), e);
    case Promotion(o, t, v) => EmitKeepsEntry(p, PROMOTION_METRIC, PromotionLabels(o, t, v), 1, PromotionKey(o), e);
    case Settlement(o) => EmitKeepsEntry(p, SETTLEMENT_METRIC, SettlementLabels(o), 1, SettlementKey(o), e);
  }

  lemma SpendKeepsEntry(p: Plane, op: Op, e: (string, Sample))
    requires Keyed(p) && Spends(op) && e in p.samples
    ensures e in SpendStep(p, op).0.samples
  {
    match op
    case Cost(a, o, t, ev) => EmitKeepsEntry(p, COST_METRIC, CostLabels(a, o), t, CostKey(ev, a), e);
    case FailureCost(a, o, t, ev, c, r) => EmitKeepsEntry(p, COST_METRIC, FailureLabels(a, o, c, r), t, CostKey(ev, a), e);
  }

  ghost predicate Extends(p: Plane, q: Plane) { forall e :: e in p.samples ==> e in q.samples }

  lemma RecordExtends(p: Plane, op: Op)
    requires Keyed(p) && Records(op)
    ensures Extends(p, RecordStep(p, op).0)
  {
    forall e | e in p.samples ensures e in RecordStep(p, op).0.samples { RecordKeepsEntry(p, op, e); }
  }

  lemma SpendExtends(p: Plane, op: Op)
    requires Keyed(p) && Spends(op)
    ensures Extends(p, SpendStep(p, op).0)
  {
    forall e | e in p.samples ensures e in SpendStep(p, op).0.samples { SpendKeepsEntry(p, op, e); }
  }

  /** No call but a resume touches a fact that is there. */
  lemma StepExtends(p: Plane, op: Op)
    requires Keyed(p) && !op.Resume? && !op.Rehydration?
    ensures Extends(p, Step(p, op).0)
  {
    if Records(op) {
      RecordExtends(p, op);
    } else if Spends(op) {
      SpendExtends(p, op);
    } else {
      MarkKeepsFacts(p, op);
    }
  }

  lemma RunResume(ops: seq<Op>, op: Op)
    requires OwnRun(ops + [op]) && op.Resume?
    ensures OwnRun(ops) && PlaneInv(Run(ops)) && CleanPlane(Run(ops)) && Run(ops + [op]) == Resumed(Run(ops))
  {
    RunSnoc(ops, op);
    RunKeeps(ops);
  }

  lemma RunCall(ops: seq<Op>, op: Op)
    requires OwnRun(ops + [op]) && !op.Resume?
    ensures OwnRun(ops) && PlaneInv(Run(ops)) && Extends(Run(ops), Run(ops + [op]))
  {
    RunSnoc(ops, op);
    RunKeeps(ops);
    StepExtends(Run(ops), op);
  }

  // ----- replayed launches, promotions and settlements ----------------------

  /** The plane holds this order's launch, promotion or settlement. */
  ghost predicate Holds(p: Plane, metric: string, order: string)
  {
    exists e :: e in p.samples && e.0 == OnceKey(metric, order) && e.1.name == metric && OrderOf(e.1) == order
  }

  lemma OnceKeyLetter(metric: string, order: string)
    requires OncePerOrder(metric)
    ensures OnceKey(metric, order)[..1] == if metric == LAUNCH_METRIC then "l" else if metric == PROMOTION_METRIC then "p" else "s"
  {
    MetricsDiffer();
    KeyFamilies(order, "", 0, "", "");
  }

  /** A known key holds the fact it stands for. */
  lemma KnownIsHeld(p: Plane, metric: string, order: string)
    requires Keyed(p) && OncePerOrder(metric)
    ensures OnceKey(metric, order) in p.seen <==> Holds(p, metric, order)
  {
    var key := OnceKey(metric, order);
    if key in p.seen {
      var s := Get(p.samples, key, Sample("", [], 0));
      GetIsEntry(p.samples, key, Sample("", [], 0));
      KeyLetter(key, s);
      OnceKeyLetter(metric, order);
      MetricsDiffer();
      OnceKeyInjective(s.name, OrderOf(s), metric, order);
    }
    if Holds(p, metric, order) {
      var e :| e in p.samples && e.0 == key;
      EntryIsGet(p.samples, e.0, e.1, e.1);
    }
  }

  lemma ResumeHolds(p: Plane, metric: string, order: string)
    requires PlaneInv(p) && CleanPlane(p) && OncePerOrder(metric) && Holds(p, metric, order)
    ensures Holds(Resumed(p), metric, order)
  {
    var e :| e in p.samples && e.1.name == metric && OrderOf(e.1) == order;
    var t := EntryFact(p, e);
    SourceOfSeries(t, e.1);
    ResumedIs(p);
    LinesFacts(p);
    assert t in Lines(p);
    OnceKnown(Lines(p), metric, order);
    RebuiltHolds(Lines(p), OnceKey(metric, order));
    RehydratedKeyed(Lines(p));
    KnownIsHeld(Resumed(p), metric, order);
  }

  lemma ExtendsHolds(p: Plane, q: Plane, metric: string, order: string)
    requires Extends(p, q) && Holds(p, metric, order)
    ensures Holds(q, metric, order)
  {
    var e :| e in p.samples && e.0 == OnceKey(metric, order) && e.1.name == metric && OrderOf(e.1) == order;
    assert e in q.samples;
  }

  lemma {:induction false} RunHolds(ops: seq<Op>, later: seq<Op>, metric: string, order: string)
    requires OwnRun(ops + later) && OncePerOrder(metric) && Holds(Run(ops), metric, order)
    ensures Holds(Run(ops + later), metric, order)
  {
    if later == [] {
      assert ops + later == ops;
    } else {
      var before, op := ops + later[..|later| - 1], later[|later| - 1];
      LastSplit(ops, later);
      OwnFront(before, op);
      RunHolds(ops, later[..|later| - 1], metric, order);
      NextHolds(before, op, metric, order);
    }
  }

  lemma NextHolds(ops: seq<Op>, op: Op, metric: string, order: string)
    requires OwnRun(ops + [op]) && OncePerOrder(metric) && Holds(Run(ops), metric, order)
    ensures Holds(Run(ops + [op]), metric, order)
  {
    if op.Resume? {
      RunResume(ops, op);
      ResumeHolds(Run(ops), metric, order);
    } else {
      RunCall(ops, op);
      ExtendsHolds(Run(ops), Run(ops + [op]), metric, order);
    }
  }

  lemma {:induction false} RunPrefix(ops: seq<Op>, later: seq<Op>)
    requires OwnRun(ops + later)
    ensures OwnRun(ops)
  {
    if later == [] {
      assert ops + later == ops;
    } else {
      LastSplit(ops, later);
      OwnFront(ops + later[..|later| - 1], later[|later| - 1]);
      RunPrefix(ops, later[..|later| - 1]);
    }
  }

  /** Telling a plane again what it holds; a plane that was resumed lists the order again, unless
      it has a name. */
  lemma FactAddedTwice(facts: map<string, set<string>>, order: string, lifecycle: string)
    ensures Add(facts, order, lifecycle) == facts <==> lifecycle in Of(facts, order)
  {
    assert lifecycle in Of(Add(facts, order, lifecycle), order);
    if lifecycle in Of(facts, order) { assert Of(facts, order) + {lifecycle} == Of(facts, order); }
  }

  lemma HeldIsListed(p: Plane, metric: string, order: string)
    requires PlaneInv(p) && OncePerOrder(metric) && Holds(p, metric, order) && order != ""
    ensures LifecycleOf(metric) in Of(p.facts, order)
  {
    MetricsDiffer();
    var e :| e in p.samples && e.1.name == metric && OrderOf(e.1) == order;
  }

  predicate Unchanged(q: Plane, r: (Plane, bool), order: string, lifecycle: string)
  {
    && !r.1
    && (r.0 == q <==> lifecycle in Of(q.facts, order))
    && (order != "" ==> r.0 == q)
  }

  /** Telling a plane again what it holds. */
  lemma ReplayOfHeld(p: Plane, metric: string, order: string, labels: seq<Label>)
    requires PlaneInv(p) && OncePerOrder(metric) && Holds(p, metric, order)
    ensures var lifecycle := LifecycleOf(metric);
      Unchanged(p, WithFact(Emit(p, metric, labels, 1, OnceKey(metric, order)), order, lifecycle), order, lifecycle)
  {
    KnownIsHeld(p, metric, order);
    FactAddedTwice(p.facts, order, LifecycleOf(metric));
    if order != "" { HeldIsListed(p, metric, order); }
  }

  /** Once an order has launched, been promoted or been settled, telling the plane so again is
      answered False, however often it was suspended and resumed in between. It changes nothing,
      if and only if the order still lists the lifecycle; an order with a name does. */
  lemma ReplaysChangeNothing(ops: seq<Op>, later: seq<Op>, order: string)
    requires OwnRun(ops + later)
    ensures var q := Run(ops + later);
      && (LaunchKey(order) in Run(ops).seen ==>
            forall d, g, s, m :: Unchanged(q, Launched(q, order, d, g, s, m), order, LAUNCH))
      && (PromotionKey(order) in Run(ops).seen ==> forall t, v :: Unchanged(q, Promoted(q, order, t, v), order, PROMOTION))
      && (SettlementKey(order) in Run(ops).seen ==> Unchanged(q, Settled(q, order), order, SETTLEMENT))
  {
    MetricsDiffer();
    var q := Run(ops + later);
    if LaunchKey(order) in Run(ops).seen {
      forall d, g, s, m ensures Unchanged(q, Launched(q, order, d, g, s, m), order, LAUNCH) {
        ReplayUnchanged(ops, later, LAUNCH_METRIC, order, LaunchLabels(order, d, g, s, m));
      }
    }
    if PromotionKey(order) in Run(ops).seen {
      forall t, v ensures Unchanged(q, Promoted(q, order, t, v), order, PROMOTION) {
        ReplayUnchanged(ops, later, PROMOTION_METRIC, order, PromotionLabels(order, t, v));
      }
    }
    if SettlementKey(order) in Run(ops).seen {
      ReplayUnchanged(ops, later, SETTLEMENT_METRIC, order, SettlementLabels(order));
    }
  }

  lemma ReplayUnchanged(ops: seq<Op>, later: seq<Op>, metric: string, order: string, labels: seq<Label>)
    requires OwnRun(ops + later) && OncePerOrder(metric) && OnceKey(metric, order) in Run(ops).seen
    ensures var q := Run(ops + later);
      Unchanged(q, WithFact(Emit(q, metric, labels, 1, OnceKey(metric, order)), order, LifecycleOf(metric)), order, LifecycleOf(metric))
  {
    RunPrefix(ops, later);
    RunKeeps(ops);
    RunKeeps(ops + later);
    KnownIsHeld(Run(ops), metric, order);
    RunHolds(ops, later, metric, order);
    ReplayOfHeld(Run(ops + later), metric, order, labels);
  }

  // ----- replayed spend and reviews -----------------------------------------

  /** Some spend of the plane is of this class and comes back under this event id. */
  ghost predicate Booked(p: Plane, event: string, attribution: string)
  {
    exists e :: e in p.samples && ComesBackAs(e.1, event, attribution)
  }

  lemma BookedGetsIntoFile(p: Plane, event: string, attribution: string)
    requires Keyed(p) && Booked(p, event, attribution)
    ensures SpendIn(Lines(p), event, attribution)
  {
    LinesFacts(p);
    var e :| e in p.samples && ComesBackAs(e.1, event, attribution);
    var s := EntryFact(p, e);
    assert s in Lines(p);
    SameSeriesComesBack(s, e.1, event, attribution);
  }

  lemma SameSeriesComesBack(s: Sample, t: Sample, event: string, attribution: string)
    requires SeriesOf(s) == SeriesOf(t)
    ensures ComesBackAs(s, event, attribution) == ComesBackAs(t, event, attribution)
  {
    assert s.labels == t.labels;
  }

  lemma FiledIsBooked(p: Plane, event: string, attribution: string)
    requires Keyed(p) && SpendIn(Lines(p), event, attribution)
    ensures Booked(p, event, attribution)
  {
    LinesFacts(p);
    var s :| s in Lines(p) && ComesBackAs(s, event, attribution);
    NotPresence(s);
    var e := FactEntry(p, s);
    SameSeriesComesBack(s, e.1, event, attribution);
  }

  lemma BookedIsInFile(p: Plane, event: string, attribution: string)
    requires Keyed(p)
    ensures Booked(p, event, attribution) <==> SpendIn(Lines(p), event, attribution)
  {
    if Booked(p, event, attribution) { BookedGetsIntoFile(p, event, attribution); }
    if SpendIn(Lines(p), event, attribution) { FiledIsBooked(p, event, attribution); }
  }

  lemma KnownAfterResume(p: Plane, key: string)
    requires PlaneInv(p) && CleanPlane(p)
    ensures key in Resumed(p).seen <==> LastUnder(Lines(p), key).Some?
  {
    ResumedIs(p);
    RebuiltHolds(Lines(p), key);
  }

  /** After a resume, spend is recognized as a replay if and only if its event id is the one under
      which some spend of its class comes back. Every other event is booked a second time. */
  lemma SpendKnownAfterResume(p: Plane, a: string, o: string, tokens: int, event: string, code: string, cause: string)
    requires PlaneInv(p) && CleanPlane(p) && Attribution(a)
    ensures !Spent(Resumed(p), a, o, tokens, event).1 <==> Booked(p, event, a)
    ensures !SpentFailing(Resumed(p), a, o, tokens, event, code, cause).1 <==> Booked(p, event, a)
  {
    LinesFacts(p);
    KnownAfterResume(p, CostKey(event, a));
    SpendKnown(Lines(p), event, a);
    BookedIsInFile(p, event, a);
  }

  /** After a resume, a review attempt is recognized as a replay if and only if it is one of 1 to
      the number of review lines of its order and phase. */
  lemma ReviewKnownAfterResume(p: Plane, o: string, phase: string, verdict: string, attempt: int)
    requires PlaneInv(p) && CleanPlane(p) && Phase(phase)
    ensures !Reviewed(Resumed(p), o, phase, verdict, attempt).1 <==> 1 <= attempt <= ReviewsOf(Lines(p), o, phase)
  {
    LinesFacts(p);
    KnownAfterResume(p, ReviewKey(o, phase, attempt));
    ReviewsKnown(Lines(p), o, phase, attempt);
  }

  /** Spend filed under the event id that it comes back with. */
  ghost predicate AtHome(p: Plane, event: string, attribution: string)
  {
    exists e :: e in p.samples && e.0 == CostKey(event, attribution) && ComesBackAs(e.1, event, attribution)
  }

  lemma FiledComesHome(lines: seq<Sample>, event: string, attribution: string)
    requires Attribution(attribution) && (forall s :: s in lines ==> FileLine(s)) && SpendIn(lines, event, attribution)
    ensures AtHome(Rehydrated(FRESH, lines).plane, event, attribution)
  {
    var key := CostKey(event, attribution);
    SpendKnown(lines, event, attribution);
    RebuiltHolds(lines, key);
    LastSpendIs(lines, event, attribution);
    GetIsEntry(Rehydrated(FRESH, lines).plane.samples, key, Sample("", [], 0));
  }

  lemma LastSpendIs(lines: seq<Sample>, event: string, attribution: string)
    requires Attribution(attribution) && (forall s :: s in lines ==> FileLine(s))
    requires LastUnder(lines, CostKey(event, attribution)).Some?
    ensures ComesBackAs(LastUnder(lines, CostKey(event, attribution)).value, event, attribution)
  {
    var n := LastUnderIs(lines, CostKey(event, attribution));
    SpendKnownStep(lines[..n], lines[n - 1], event, attribution);
  }

  /** A resume brings all spend home. */
  lemma ResumeBringsHome(p: Plane, event: string, attribution: string)
    requires PlaneInv(p) && CleanPlane(p) && Attribution(attribution) && Booked(p, event, attribution)
    ensures AtHome(Resumed(p), event, attribution)
  {
    LinesFacts(p);
    ResumedIs(p);
    BookedGetsIntoFile(p, event, attribution);
    FiledComesHome(Lines(p), event, attribution);
  }

  lemma ExtendsHome(p: Plane, q: Plane, event: string, attribution: string)
    requires Extends(p, q) && AtHome(p, event, attribution)
    ensures AtHome(q, event, attribution)
  {
    var e :| e in p.samples && e.0 == CostKey(event, attribution) && ComesBackAs(e.1, event, attribution);
    assert e in q.samples;
  }

  lemma HomeIsBooked(p: Plane, event: string, attribution: string)
    requires AtHome(p, event, attribution)
    ensures Booked(p, event, attribution)
  {
  }

  lemma {:induction false} RunKeepsHome(ops: seq<Op>, later: seq<Op>, event: string, attribution: string)
    requires OwnRun(ops + later) && Attribution(attribution) && AtHome(Run(ops), event, attribution)
    ensures AtHome(Run(ops + later), event, attribution)
  {
    if later == [] {
      assert ops + later == ops;
    } else {
      var before, op := ops + later[..|later| - 1], later[|later| - 1];
      LastSplit(ops, later);
      OwnFront(before, op);
      RunKeepsHome(ops, later[..|later| - 1], event, attribution);
      NextKeepsHome(before, op, event, attribution);
    }
  }

  lemma NextKeepsHome(ops: seq<Op>, op: Op, event: string, attribution: string)
    requires OwnRun(ops + [op]) && Attribution(attribution) && AtHome(Run(ops), event, attribution)
    ensures AtHome(Run(ops + [op]), event, attribution)
  {
    if op.Resume? {
      RunResume(ops, op);
      HomeIsBooked(Run(ops), event, attribution);
      ResumeBringsHome(Run(ops), event, attribution);
    } else {
      RunCall(ops, op);
      ExtendsHome(Run(ops), Run(ops + [op]), event, attribution);
    }
  }

  ghost predicate SpendIsKnown(q: Plane, attribution: string, event: string)
  {
    && (forall o, tokens :: Spent(q, attribution, o, tokens, event) == (q, false))
    && (forall o, tokens, code, cause :: SpentFailing(q, attribution, o, tokens, event, code, cause) == (q, false))
  }

  /** Spend at home: booking it again changes nothing, whatever happens in between. */
  lemma HomeReplaysChangeNothing(ops: seq<Op>, later: seq<Op>, event: string, attribution: string)
    requires OwnRun(ops + later) && Attribution(attribution) && AtHome(Run(ops), event, attribution)
    ensures SpendIsKnown(Run(ops + later), attribution, event)
  {
    RunKeepsHome(ops, later, event, attribution);
    RunKeeps(ops + later);
    HomeIsKnown(Run(ops + later), event, attribution);
  }

  lemma HomeIsKnown(q: Plane, event: string, attribution: string)
    requires Keyed(q) && AtHome(q, event, attribution)
    ensures SpendIsKnown(q, attribution, event)
  {
    var e :| e in q.samples && e.0 == CostKey(event, attribution);
    EntryIsGet(q.samples, e.0, e.1, e.1);
  }

  /** Once resumed, a plane knows its earlier spend for good under the event id that it came back
      with. */
  lemma RestoredSpendStaysKnown(ops: seq<Op>, later: seq<Op>, event: string, attribution: string)
    requires OwnRun(ops + [Op.Resume] + later) && Attribution(attribution) && Booked(Run(ops), event, attribution)
    ensures SpendIsKnown(Run(ops + [Op.Resume] + later), attribution, event)
  {
    var op := Op.Resume;
    RunPrefix(ops + [op], later);
    RunResume(ops, op);
    ResumeBringsHome(Run(ops), event, attribution);
    HomeReplaysChangeNothing(ops + [op], later, event, attribution);
  }

  /** Management spend of a named order is booked under the very id that it comes back with: the
      walker may repeat it before and after any resume. */
  lemma ManagementReplaysChangeNothing(ops: seq<Op>, later: seq<Op>, e: (string, Sample))
    requires OwnRun(ops + later) && e in Run(ops).samples && e.1.name == COST_METRIC
    requires OrderOf(e.1) != "" && e.0 == CostKey("management:" + OrderOf(e.1), MANAGEMENT)
    ensures SpendIsKnown(Run(ops + later), MANAGEMENT, "management:" + OrderOf(e.1))
  {
    var event := "management:" + OrderOf(e.1);
    RunPrefix(ops, later);
    RunKeeps(ops);
    MetricsDiffer();
    var other :| e.0 == CostKey(other, AttributionOf(e.1));
    CostKeyInjective(event, MANAGEMENT, other, AttributionOf(e.1));
    assert ComesBackAs(e.1, event, MANAGEMENT);
    HomeReplaysChangeNothing(ops, later, event, MANAGEMENT);
  }

  // ----- where a replay is booked again -------------------------------------

  lemma SpendShape(labels: seq<Label>, a: string, o: string, v: int)
    requires IdentLabels(labels) && NamesOrder(labels, o) && Attribution(a) && ("attribution", a) in labels
    ensures var s := Sample(COST_METRIC, SortBy(LabelLe, labels), v);
      OrderOf(s) == o && AttributionOf(s) == a && |s.labels| == |labels|
  {
    MetricsDiffer();
    EmittedOrder(COST_METRIC, labels, v, o);
    EmittedAttribution(COST_METRIC, labels, v, a);
    SortByElements(LabelLe, labels);
  }

  function OrdinaryEvent(a: string, o: string): string { (if a == MANAGEMENT && o != "" then "management:" else "rehydrated:") + o }

  lemma FirstSpend(op: Op) returns (s: Sample)
    requires op.Cost? && Attribution(op.attribution)
    ensures Run([op]).samples == [(CostKey(op.event, op.attribution), s)]
    ensures SpendEvent(s) == OrdinaryEvent(op.attribution, op.order)
  {
    s := Sample(COST_METRIC, SortBy(LabelLe, CostLabels(op.attribution, op.order)), op.tokens);
    assert [op] == [] + [op];
    RunSnoc([], op);
    SpendStepIs(FRESH, op);
    FirstSpendEvent(op.attribution, op.order, op.tokens);
  }

  lemma FirstSpendEvent(a: string, o: string, tokens: int)
    requires Attribution(a)
    ensures SpendEvent(Sample(COST_METRIC, SortBy(LabelLe, CostLabels(a, o)), tokens)) == OrdinaryEvent(a, o)
  {
    CostNames(a, o);
    CostLabelsGood(a, o);
    SpendShape(CostLabels(a, o), a, o, tokens);
  }

  lemma SpendStepIs(p: Plane, op: Op)
    requires op.Cost? && Attribution(op.attribution)
    ensures Step(p, op) == Spent(p, op.attribution, op.order, op.tokens, op.event)
  {
  }

  lemma CleanSpendRun(op: Op)
    requires op.Cost? && CleanValue(op.order)
    ensures OwnRun([op]) && PlaneInv(Run([op])) && CleanPlane(Run([op]))
    ensures OwnRun([op, Op.Resume]) && Run([op, Op.Resume]) == Resumed(Run([op]))
  {
    var resume := Op.Resume;
    assert CleanOp(op) && forall x :: x in [op] ==> x == op;
    CleanCallsAreOwnRun([op]);
    assert [op, resume] == [op] + [resume];
    RunSnoc([op], resume);
    RunResume([op], resume);
  }

  /** Spend under any other event id is known as long as the plane lives, lost sight of by a
      resume, and booked again. */
  lemma OrdinarySpendIsBookedTwice(op: Op)
    requires op.Cost? && Attribution(op.attribution) && CleanValue(op.order)
    requires op.event != OrdinaryEvent(op.attribution, op.order)
    ensures OwnRun([op, Op.Resume]) && Step(Run([op]), op) == (Run([op]), false)
    ensures Step(Run([op, Op.Resume]), op).1
  {
    var s := FirstSpend(op);
    CleanSpendRun(op);
    var p := Run([op]);
    assert Has(p.samples, CostKey(op.event, op.attribution));
    SpendStepIs(p, op);
    SpendStepIs(Resumed(p), op);
    SpendKnownAfterResume(p, op.attribution, op.order, op.tokens, op.event, "", "");
  }

  // ----- where the file is not reproduced -----------------------------------

  lemma EmittedEntry(p: Plane, name: string, labels: seq<Label>, value: int, key: string)
    requires Keyed(p) && key !in p.seen
    ensures (key, Sample(name, SortBy(LabelLe, labels), value)) in Emit(p, name, labels, value, key).0.samples
  {
    AssignNew(p.samples, key, Sample(name, SortBy(LabelLe, labels), value));
  }

  /** The plane holds spend of this order and class with this many labels. */
  ghost predicate HoldsSpend(p: Plane, a: string, o: string, n: nat)
  {
    exists e :: e in p.samples && e.1.name == COST_METRIC && OrderOf(e.1) == o && AttributionOf(e.1) == a && |e.1.labels| == n
  }

  lemma EmittedSpend(p: Plane, labels: seq<Label>, a: string, o: string, value: int, key: string)
    requires Keyed(p) && key !in p.seen
    requires IdentLabels(labels) && NamesOrder(labels, o) && Attribution(a) && ("attribution", a) in labels
    ensures HoldsSpend(Emit(p, COST_METRIC, labels, value, key).0, a, o, |labels|)
  {
    EmittedEntry(p, COST_METRIC, labels, value, key);
    SpendShape(labels, a, o, value);
  }

  lemma TwoLabelSets(p: Plane, a: string, o: string, m: nat, n: nat)
    requires HoldsSpend(p, a, o, m) && HoldsSpend(p, a, o, n) && m != n
    ensures !OneLabelSet(p)
  {
    var e :| e in p.samples && e.1.name == COST_METRIC && OrderOf(e.1) == o && AttributionOf(e.1) == a && |e.1.labels| == m;
    var f :| f in p.samples && f.1.name == COST_METRIC && OrderOf(f.1) == o && AttributionOf(f.1) == a && |f.1.labels| == n;
    assert e.1.labels != f.1.labels;
  }

  lemma ExtendsSpend(p: Plane, q: Plane, a: string, o: string, n: nat)
    requires Extends(p, q) && HoldsSpend(p, a, o, n)
    ensures HoldsSpend(q, a, o, n)
  {
    var e :| e in p.samples && e.1.name == COST_METRIC && OrderOf(e.1) == o && AttributionOf(e.1) == a && |e.1.labels| == n;
    assert e in q.samples;
  }

  lemma SeenAfterSpend(p: Plane, op: Op, key: string)
    requires op.Cost? && Attribution(op.attribution) && key !in p.seen && key != CostKey(op.event, op.attribution)
    ensures key !in Step(p, op).0.seen
  {
    SpendStepIs(p, op);
  }

  lemma CostHeld(p: Plane, op: Op)
    requires Keyed(p) && op.Cost? && Attribution(op.attribution) && CostKey(op.event, op.attribution) !in p.seen
    ensures HoldsSpend(Step(p, op).0, op.attribution, op.order, 2)
  {
    SpendStepIs(p, op);
    CostNames(op.attribution, op.order);
    CostLabelsGood(op.attribution, op.order);
    EmittedSpend(p, CostLabels(op.attribution, op.order), op.attribution, op.order, op.tokens, CostKey(op.event, op.attribution));
  }

  lemma FailureStepIs(p: Plane, op: Op)
    requires op.FailureCost? && Attribution(op.attribution)
    ensures Step(p, op) == SpentFailing(p, op.attribution, op.order, op.tokens, op.event, op.code, op.cause)
  {
  }

  lemma FailureCostHeld(p: Plane, op: Op)
    requires Keyed(p) && op.FailureCost? && Attribution(op.attribution) && CostKey(op.event, op.attribution) !in p.seen
    ensures HoldsSpend(Step(p, op).0, op.attribution, op.order, 4)
  {
    FailureStepIs(p, op);
    var labels := FailureLabels(op.attribution, op.order, op.code, op.cause);
    FailureNames(op.attribution, op.order, op.code, op.cause);
    FailureLabelsGood(op.attribution, op.order, op.code, op.cause);
    EmittedSpend(p, labels, op.attribution, op.order, op.tokens, CostKey(op.event, op.attribution));
  }

  /** A run's spend on its success path and on its failure path, for the same order and class, are
      two series that come back under one key: whatever was booked before, the file is not
      reproduced. */
  lemma FailureSpendOverwrites(ops: seq<Op>, first: Op, second: Op)
    requires OwnRun(ops) && first.Cost? && second.FailureCost?
    requires first.attribution == second.attribution && Attribution(first.attribution) && first.order == second.order
    requires CostKey(first.event, first.attribution) !in Run(ops).seen
    requires CostKey(second.event, second.attribution) !in Run(ops).seen && first.event != second.event
    ensures OwnRun(ops + [first] + [second]) && !Reproduced(ops + [first] + [second])
  {
    var a, o := first.attribution, first.order;
    RunSnoc(ops, first);
    RunSnoc(ops + [first], second);
    RunKeeps(ops);
    RunKeeps(ops + [first]);
    if CostKey(first.event, a) == CostKey(second.event, a) { CostKeyInjective(first.event, a, second.event, a); }
    SeenAfterSpend(Run(ops), first, CostKey(second.event, a));
    CostHeld(Run(ops), first);
    FailureCostHeld(Run(ops + [first]), second);
    RunCall(ops + [first], second);
    ExtendsSpend(Run(ops + [first]), Run(ops + [first] + [second]), a, o, 2);
    TwoLabelSets(Run(ops + [first] + [second]), a, o, 2, 4);
    ResumeReproducesFile(ops + [first] + [second]);
  }

  /** Anything settled on the order without a name loses its presence line. */
  lemma NamelessOrderLosesPresence(ops: seq<Op>, op: Op)
    requires OwnRun(ops) && op.Settlement? && op.order == ""
    ensures OwnRun(ops + [op]) && !Reproduced(ops + [op])
  {
    RunSnoc(ops, op);
    SettledIsListed(Run(ops), op);
    ResumeReproducesFile(ops + [op]);
  }

  lemma SettledIsListed(p: Plane, op: Op)
    requires op.Settlement?
    ensures op.order in OrdersOf(Step(p, op).0)
  {
    assert Step(p, op) == Settled(p, op.order);
  }
}
