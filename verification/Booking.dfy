/** What is booked is what is shown: over every run of emissions, each spend series shows the tokens
    of the calls that booked it, and each fact prints its own arguments under its own label names. */
module Booking {
  import opened Text
  import opened Sorting
  import opened Dict
  import opened Exposition
  import opened RoundTrip
  import opened DataPlane
  import opened MergedView
  import opened PlaneRuns
  import opened PlaneShape
  import opened Resume
  import opened FixedPoint
  import opened OwnRuns

  predicate Emissions(ops: seq<Op>) { forall op :: op in ops ==> !op.Rehydration? && !op.Resume? }

  /** A spend call of this class under this event id. */
  predicate SpendsUnder(op: Op, event: string, attribution: string)
  {
    (op.Cost? || op.FailureCost?) && op.event == event && op.attribution == attribution
  }

  predicate ClassName(a: string)
  {
    a == "management" || a == "launch" || a == "review" || a == "promotion" || a == "settlement" || a == "unknown"
  }

  lemma ClassNamesAre(a: string)
    ensures ClassName(a) <==> Attribution(a)
  {
  }

  /** The k-th call is the first to spend under its event id and class, and names a class there is. */
  predicate Books(ops: seq<Op>, k: nat)
    requires k < |ops|
  {
    && (ops[k].Cost? || ops[k].FailureCost?)
    && ClassName(ops[k].attribution)
    && forall j :: 0 <= j < k ==> !SpendsUnder(ops[j], ops[k].event, ops[k].attribution)
  }

  predicate BooksPlain(ops: seq<Op>, k: nat, a: string, o: string)
    requires k < |ops|
  {
    ops[k].Cost? && ops[k].attribution == a && ops[k].order == o && Books(ops, k)
  }

  predicate BooksFailing(ops: seq<Op>, k: nat, a: string, o: string, code: string, cause: string)
    requires k < |ops|
  {
    && ops[k].FailureCost? && ops[k].attribution == a && ops[k].order == o && ops[k].code == code && ops[k].cause == cause
    && Books(ops, k)
  }

  /** The tokens that plain calls booked on an order and a class. */
  function PlainTokens(ops: seq<Op>, attribution: string, order: string): int
  {
    if ops == [] then 0
    else
      var n := |ops| - 1;
      PlainTokens(ops[..n], attribution, order)
      + if BooksPlain(ops, n, attribution, order) then ops[n].tokens else 0
  }

  /** The tokens that failing calls booked on an order, a class, a failure code and a root cause. */
  function FailingTokens(ops: seq<Op>, attribution: string, order: string, code: string, cause: string): int
  {
    if ops == [] then 0
    else
      var n := |ops| - 1;
      FailingTokens(ops[..n], attribution, order, code, cause)
      + if BooksFailing(ops, n, attribution, order, code, cause) then ops[n].tokens else 0
  }

  /** The series of plain spend, and of failing spend, as they are printed. */
  function PlainSeries(attribution: string, order: string): Series
  {
    ("cost_obs_execution_cost_total", [("attribution", attribution), ("order_id", order)])
  }

  function FailingSeries(attribution: string, order: string, code: string, cause: string): Series
  {
    ("cost_obs_execution_cost_total",
     [("attribution", attribution), ("failure_code", code), ("order_id", order), ("root_cause", cause)])
  }

  // ----- the printed labels -------------------------------------------------

  lemma LabelLeAntisymmetric(a: Label, b: Label)
    requires LabelLe(a, b) && LabelLe(b, a)
    ensures a == b
  {
    StrLeTotal(a.0, a.0);
    StrLeTotal(b.0, b.0);
    if a.0 != b.0 { StrLeAntisymmetric(a.0, b.0); } else { StrLeAntisymmetric(a.1, b.1); }
  }

  /** Labels with ascending names are the sorted form of any list of the same labels. */
  predicate NamesAscend(labels: seq<Label>)
  {
    forall i, j :: 0 <= i < j < |labels| ==> StrLe(labels[i].0, labels[j].0) && labels[i].0 != labels[j].0
  }

  lemma SortedIs(labels: seq<Label>, sorted: seq<Label>)
    requires NamesAscend(sorted) && multiset(labels) == multiset(sorted)
    ensures SortBy(LabelLe, labels) == sorted
  {
    var r := SortBy(LabelLe, labels);
    SortedLabelsSorted(labels);
    LabelLePreorder();
    SameElements(r, sorted);
    var s := set l | l in sorted;
    DistinctAscending(sorted);
    DistinctFromMultiset(r, s);
    forall x: Label, y: Label | LabelLe(x, y) && LabelLe(y, x) ensures x == y { LabelLeAntisymmetric(x, y); }
    AscendingUnique(LabelLe, r, sorted);
  }

  lemma DistinctAscending(sorted: seq<Label>)
    requires NamesAscend(sorted)
    ensures SortedBy(LabelLe, sorted) && Distinct(sorted) && multiset(sorted) == multiset(set l | l in sorted)
  {
    DistinctMultiset(sorted);
  }

  lemma PlainSorted(a: string, o: string)
    ensures SortBy(LabelLe, CostLabels(a, o)) == PlainSeries(a, o).1
  {
    assert StrLe("attribution", "order_id");
    SortedIs(CostLabels(a, o), PlainSeries(a, o).1);
  }

  lemma FailingNames()
    ensures StrLe("attribution", "failure_code") && StrLe("attribution", "order_id") && StrLe("attribution", "root_cause")
    ensures StrLe("failure_code", "order_id") && StrLe("failure_code", "root_cause") && StrLe("order_id", "root_cause")
    ensures "attribution"[0] == 'a' && "failure_code"[0] == 'f' && "order_id"[0] == 'o' && "root_cause"[0] == 'r'
  {
  }

  lemma FailingSorted(a: string, o: string, code: string, cause: string)
    ensures SortBy(LabelLe, FailureLabels(a, o, code, cause)) == FailingSeries(a, o, code, cause).1
  {
    FailingNames();
    SortedIs(FailureLabels(a, o, code, cause), FailingSeries(a, o, code, cause).1);
  }

  // ----- one call -----------------------------------------------------------

  lemma TotalSnoc(samples: seq<Sample>, s: Sample, series: Series)
    ensures Total(samples + [s], series) == Total(samples, series) + if SeriesOf(s) == series then s.value else 0
  {
    assert (samples + [s])[..|samples|] == samples;
  }

  lemma EmitTotals(p: Plane, name: string, labels: seq<Label>, value: int, key: string, series: Series)
    requires Keyed(p)
    ensures var q := Emit(p, name, labels, value, key).0;
      && Total(Values(q.samples), series) == Total(Values(p.samples), series)
         + (if key !in p.seen && (name, SortBy(LabelLe, labels)) == series then value else 0)
      && (HasSeries(Values(q.samples), series)
          <==> HasSeries(Values(p.samples), series) || (key !in p.seen && (name, SortBy(LabelLe, labels)) == series))
  {
    if key !in p.seen {
      var s := Sample(name, SortBy(LabelLe, labels), value);
      AssignNew(p.samples, key, s);
      ValuesAppend(p.samples, (key, s));
      TotalSnoc(Values(p.samples), s, series);
      HasSeriesSnoc(Values(p.samples), s, series);
    }
  }

  /** What a call adds to a series. */
  ghost predicate AddsTo(p: Plane, q: Plane, series: Series, books: bool, value: int)
  {
    && Total(Values(q.samples), series) == Total(Values(p.samples), series) + (if books then value else 0)
    && (HasSeries(Values(q.samples), series) <==> HasSeries(Values(p.samples), series) || books)
  }

  lemma CostAdds(p: Plane, op: Op, a: string, o: string)
    requires Keyed(p) && op.Cost? && Attribution(op.attribution)
    ensures AddsTo(p, Step(p, op).0, PlainSeries(a, o),
                   op.attribution == a && op.order == o && CostKey(op.event, op.attribution) !in p.seen, op.tokens)
  {
    PlainSorted(op.attribution, op.order);
    EmitTotals(p, COST_METRIC, CostLabels(op.attribution, op.order), op.tokens, CostKey(op.event, op.attribution), PlainSeries(a, o));
    SamePlainSeries(op.attribution, op.order, a, o);
  }

  lemma SamePlainSeries(a: string, o: string, a': string, o': string)
    ensures PlainSeries(a, o) == PlainSeries(a', o') <==> a == a' && o == o'
  {
    var l, m := PlainSeries(a, o).1, PlainSeries(a', o').1;
    if l == m { assert l[0] == m[0] && l[1] == m[1]; }
  }

  lemma SameFailingSeries(a: string, o: string, c: string, r: string, a': string, o': string, c': string, r': string)
    ensures FailingSeries(a, o, c, r) == FailingSeries(a', o', c', r') <==> a == a' && o == o' && c == c' && r == r'
  {
    var l, m := FailingSeries(a, o, c, r).1, FailingSeries(a', o', c', r').1;
    if l == m { assert l[0] == m[0] && l[1] == m[1] && l[2] == m[2] && l[3] == m[3]; }
  }

  lemma FailingAdds(p: Plane, op: Op, a: string, o: string, code: string, cause: string)
    requires Keyed(p) && op.FailureCost? && Attribution(op.attribution)
    ensures AddsTo(p, Step(p, op).0, FailingSeries(a, o, code, cause),
                   op.attribution == a && op.order == o && op.code == code && op.cause == cause
                   && CostKey(op.event, op.attribution) !in p.seen, op.tokens)
  {
    FailingEmits(p, op.attribution, op.order, op.tokens, op.event, op.code, op.cause, FailingSeries(a, o, code, cause));
    SameFailingSeries(op.attribution, op.order, op.code, op.cause, a, o, code, cause);
  }

  lemma FailingEmits(p: Plane, a: string, o: string, t: int, e: string, c: string, r: string, series: Series)
    requires Keyed(p)
    ensures AddsTo(p, SpentFailing(p, a, o, t, e, c, r).0, series, FailingSeries(a, o, c, r) == series && CostKey(e, a) !in p.seen, t)
  {
    FailingSorted(a, o, c, r);
    EmitTotals(p, COST_METRIC, FailureLabels(a, o, c, r), t, CostKey(e, a), series);
  }

  /** Any other call adds nothing to a spend series of so many labels. */
  lemma OthersAddNothing(p: Plane, op: Op, series: Series)
    requires Keyed(p) && !op.Rehydration? && !op.Resume?
    requires series.0 == "cost_obs_execution_cost_total"
    requires op.Cost? && Attribution(op.attribution) ==> |series.1| != 2
    requires op.FailureCost? && Attribution(op.attribution) ==> |series.1| != 4
    ensures AddsTo(p, Step(p, op).0, series, false, 0)
  {
    if Records(op) {
      RecordAddsNothing(p, op, series);
    } else if Marks(op) {
      MarkKeepsFacts(p, op);
    } else if Attribution(op.attribution) {
      SpendAddsNothing(p, op, series);
    }
  }

  lemma SpendAddsNothing(p: Plane, op: Op, series: Series)
    requires Keyed(p) && Spends(op) && Attribution(op.attribution)
    requires if op.Cost? then |series.1| != 2 else |series.1| != 4
    ensures AddsTo(p, SpendStep(p, op).0, series, false, 0)
  {
    match op
    case Cost(a, o, t, e) =>
      PlainSorted(a, o);
      EmitTotals(p, COST_METRIC, CostLabels(a, o), t, CostKey(e, a), series);
    case FailureCost(a, o, t, e, c, r) =>
      FailingSorted(a, o, c, r);
      EmitTotals(p, COST_METRIC, FailureLabels(a, o, c, r), t, CostKey(e, a), series);
  }

  lemma RecordAddsNothing(p: Plane, op: Op, series: Series)
    requires Keyed(p) && Records(op) && series.0 == COST_METRIC
    ensures AddsTo(p, RecordStep(p, op).0, series, false, 0)
  {
    MetricsDiffer();
    match op
    case Launch(o, d, g, s, m) => EmitTotals(p, LAUNCH_METRIC, LaunchLabels(o, d, g, s, m), 1, LaunchKey(o), series);
    case Review(o, ph, v, a) => EmitTotals(p, REVIEW_METRIC, ReviewLabels(o, ph, v), 1, ReviewKey(o, ph, a), series);
    case Promotion(o, t, v) => EmitTotals(p, PROMOTION_METRIC, PromotionLabels(o, t, v), 1, PromotionKey(o), series);
    case Settlement(o) => EmitTotals(p, SETTLEMENT_METRIC, SettlementLabels(o), 1, SettlementKey(o), series);
  }

  // ----- which spend keys are known -----------------------------------------

  lemma EmitSees(p: Plane, name: string, labels: seq<Label>, value: int, key: string, k: string)
    ensures k in Emit(p, name, labels, value, key).0.seen <==> k in p.seen || k == key
  {
  }

  lemma CostKeyDiffers(event: string, a: string, o: string, ph: string, n: int)
    ensures CostKey(event, a) != LaunchKey(o) && CostKey(event, a) != PromotionKey(o)
    ensures CostKey(event, a) != SettlementKey(o) && CostKey(event, a) != ReviewKey(o, ph, n)
  {
    KeyFamilies(o, ph, n, event, a);
  }

  lemma RecordSees(p: Plane, op: Op, event: string, a: string)
    requires Records(op)
    ensures CostKey(event, a) in RecordStep(p, op).0.seen <==> CostKey(event, a) in p.seen
  {
    var key := CostKey(event, a);
    match op
    case Launch(o, d, g, s, m) =>
      CostKeyDiffers(event, a, o, "", 0);
      EmitSees(p, LAUNCH_METRIC, LaunchLabels(o, d, g, s, m), 1, LaunchKey(o), key);
    case Review(o, ph, v, n) =>
      CostKeyDiffers(event, a, o, ph, n);
      EmitSees(p, REVIEW_METRIC, ReviewLabels(o, ph, v), 1, ReviewKey(o, ph, n), key);
    case Promotion(o, t, v) =>
      CostKeyDiffers(event, a, o, "", 0);
      EmitSees(p, PROMOTION_METRIC, PromotionLabels(o, t, v), 1, PromotionKey(o), key);
    case Settlement(o) =>
      CostKeyDiffers(event, a, o, "", 0);
      EmitSees(p, SETTLEMENT_METRIC, SettlementLabels(o), 1, SettlementKey(o), key);
  }

  lemma SpendSees(p: Plane, op: Op, event: string, a: string)
    requires Spends(op) && Attribution(a)
    ensures CostKey(event, a) in SpendStep(p, op).0.seen <==> CostKey(event, a) in p.seen || SpendsUnder(op, event, a)
  {
    if Attribution(op.attribution) {
      if CostKey(event, a) == CostKey(op.event, op.attribution) { CostKeyInjective(event, a, op.event, op.attribution); }
      SpendStepSees(p, op, CostKey(event, a));
    }
  }

  lemma SpendStepSees(p: Plane, op: Op, k: string)
    requires Spends(op) && Attribution(op.attribution)
    ensures k in SpendStep(p, op).0.seen <==> k in p.seen || k == CostKey(op.event, op.attribution)
    ensures SpendStep(p, op).1 <==> CostKey(op.event, op.attribution) !in p.seen
  {
    match op
    case Cost(a, o, t, e) => EmitSees(p, COST_METRIC, CostLabels(a, o), t, CostKey(e, a), k);
    case FailureCost(a, o, t, e, c, r) => EmitSees(p, COST_METRIC, FailureLabels(a, o, c, r), t, CostKey(e, a), k);
  }

  lemma StepSees(p: Plane, op: Op, event: string, a: string)
    requires !op.Rehydration? && !op.Resume? && Attribution(a)
    ensures CostKey(event, a) in Step(p, op).0.seen <==> CostKey(event, a) in p.seen || SpendsUnder(op, event, a)
  {
    if Records(op) {
      RecordSees(p, op, event, a);
    } else if Spends(op) {
      SpendSees(p, op, event, a);
    } else {
      MarkKeepsFacts(p, op);
    }
  }

  predicate SpentUnder(ops: seq<Op>, event: string, a: string) { exists j :: 0 <= j < |ops| && SpendsUnder(ops[j], event, a) }

  lemma SpentUnderSnoc(ops: seq<Op>, op: Op, event: string, a: string)
    ensures SpentUnder(ops + [op], event, a) <==> SpentUnder(ops, event, a) || SpendsUnder(op, event, a)
  {
    var all := ops + [op];
    assert all[|ops|] == op && forall i :: 0 <= i < |ops| ==> all[i] == ops[i];
  }

  lemma {:induction false} RunSees(ops: seq<Op>, event: string, a: string)
    requires Emissions(ops) && Attribution(a)
    ensures CostKey(event, a) in Run(ops).seen <==> SpentUnder(ops, event, a)
  {
    if ops != [] {
      var front, op := ops[..|ops| - 1], ops[|ops| - 1];
      assert ops == front + [op] && op in ops && forall x :: x in front ==> x in ops;
      RunSees(front, event, a);
      StepSees(Run(front), op, event, a);
      SpentUnderSnoc(front, op, event, a);
    }
  }

  lemma {:induction false} EmissionsAreOwnRun(ops: seq<Op>)
    requires Emissions(ops)
    ensures OwnRun(ops)
  {
    if ops != [] {
      assert ops[|ops| - 1] in ops && forall op :: op in ops[..|ops| - 1] ==> op in ops;
      EmissionsAreOwnRun(ops[..|ops| - 1]);
    }
  }

  lemma BooksIsNew(ops: seq<Op>, n: nat)
    requires Emissions(ops) && n < |ops| && Spends(ops[n])
    ensures Books(ops, n) <==> Attribution(ops[n].attribution) && CostKey(ops[n].event, ops[n].attribution) !in Run(ops[..n]).seen
  {
    var front, op := ops[..n], ops[n];
    ClassNamesAre(op.attribution);
    assert forall j :: 0 <= j < n ==> front[j] == ops[j];
    if Attribution(op.attribution) {
      assert forall x :: x in front ==> x in ops;
      RunSees(front, op.event, op.attribution);
    }
  }

  lemma StepIsSpend(p: Plane, op: Op)
    requires Spends(op)
    ensures Step(p, op) == SpendStep(p, op)
  {
  }

  lemma SpendIsAnswered(p: Plane, op: Op)
    requires Spends(op)
    ensures SpendStep(p, op).1 <==> Attribution(op.attribution) && CostKey(op.event, op.attribution) !in p.seen
  {
    if Attribution(op.attribution) { SpendStepSees(p, op, ""); }
  }

  /** A call answers True exactly if it is the first to spend under its event id and class. */
  lemma BooksIsAnswered(ops: seq<Op>, n: nat)
    requires Emissions(ops) && n < |ops| && Spends(ops[n])
    ensures Step(Run(ops[..n]), ops[n]).1 <==> Books(ops, n)
  {
    BooksIsNew(ops, n);
    StepIsSpend(Run(ops[..n]), ops[n]);
    SpendIsAnswered(Run(ops[..n]), ops[n]);
  }

  // ----- over every run -----------------------------------------------------

  ghost predicate PlainBooked(ops: seq<Op>, a: string, o: string)
  {
    exists k :: 0 <= k < |ops| && BooksPlain(ops, k, a, o)
  }

  ghost predicate FailingBooked(ops: seq<Op>, a: string, o: string, code: string, cause: string)
  {
    exists k :: 0 <= k < |ops| && BooksFailing(ops, k, a, o, code, cause)
  }

  lemma BooksFront(ops: seq<Op>, k: nat)
    requires k < |ops| - 1
    ensures Books(ops[..|ops| - 1], k) <==> Books(ops, k)
  {
    assert forall j :: 0 <= j <= k ==> ops[..|ops| - 1][j] == ops[j];
  }

  lemma PlainBookedSnoc(ops: seq<Op>, a: string, o: string)
    requires ops != []
    ensures PlainBooked(ops, a, o) <==> PlainBooked(ops[..|ops| - 1], a, o) || BooksPlain(ops, |ops| - 1, a, o)
  {
    var front := ops[..|ops| - 1];
    forall k | 0 <= k < |front| ensures BooksPlain(front, k, a, o) <==> BooksPlain(ops, k, a, o) { BooksFront(ops, k); }
    if PlainBooked(ops, a, o) {
      var k :| 0 <= k < |ops| && BooksPlain(ops, k, a, o);
    }
    if PlainBooked(front, a, o) {
      var k :| 0 <= k < |front| && BooksPlain(front, k, a, o);
      assert BooksPlain(ops, k, a, o);
    }
  }

  lemma FailingBookedSnoc(ops: seq<Op>, a: string, o: string, code: string, cause: string)
    requires ops != []
    ensures FailingBooked(ops, a, o, code, cause)
      <==> FailingBooked(ops[..|ops| - 1], a, o, code, cause) || BooksFailing(ops, |ops| - 1, a, o, code, cause)
  {
    var front := ops[..|ops| - 1];
    forall k | 0 <= k < |front| ensures BooksFailing(front, k, a, o, code, cause) <==> BooksFailing(ops, k, a, o, code, cause) {
      BooksFront(ops, k);
    }
    if FailingBooked(ops, a, o, code, cause) {
      var k :| 0 <= k < |ops| && BooksFailing(ops, k, a, o, code, cause);
    }
    if FailingBooked(front, a, o, code, cause) {
      var k :| 0 <= k < |front| && BooksFailing(front, k, a, o, code, cause);
      assert BooksFailing(ops, k, a, o, code, cause);
    }
  }

  /** A spend call that is new to the plane. */
  predicate New(p: Plane, op: Op)
    requires Spends(op)
  {
    Attribution(op.attribution) && CostKey(op.event, op.attribution) !in p.seen
  }

  lemma PlainAdds(p: Plane, op: Op, a: string, o: string, books: bool, value: int)
    requires Keyed(p) && !op.Rehydration? && !op.Resume?
    requires books == (op.Cost? && op.attribution == a && op.order == o && New(p, op))
    requires value == if books then op.tokens else 0
    ensures AddsTo(p, Step(p, op).0, PlainSeries(a, o), books, value)
  {
    if op.Cost? && Attribution(op.attribution) { CostAdds(p, op, a, o); } else { OthersAddNothing(p, op, PlainSeries(a, o)); }
  }

  lemma FailingAddsIf(p: Plane, op: Op, a: string, o: string, code: string, cause: string, books: bool, value: int)
    requires Keyed(p) && !op.Rehydration? && !op.Resume?
    requires books == (op.FailureCost? && op.attribution == a && op.order == o && op.code == code && op.cause == cause && New(p, op))
    requires value == if books then op.tokens else 0
    ensures AddsTo(p, Step(p, op).0, FailingSeries(a, o, code, cause), books, value)
  {
    if op.FailureCost? && Attribution(op.attribution) {
      FailingAdds(p, op, a, o, code, cause);
    } else {
      OthersAddNothing(p, op, FailingSeries(a, o, code, cause));
    }
  }

  lemma FrontKeeps(ops: seq<Op>) returns (p: Plane, op: Op)
    requires Emissions(ops) && ops != []
    ensures p == Run(ops[..|ops| - 1]) && op == ops[|ops| - 1] && Run(ops) == Step(p, op).0
    ensures Keyed(p) && !op.Rehydration? && !op.Resume?
    ensures Spends(op) ==> (New(p, op) <==> Books(ops, |ops| - 1))
  {
    var n := |ops| - 1;
    p, op := Run(ops[..n]), ops[n];
    assert op in ops && forall x :: x in ops[..n] ==> x in ops;
    EmissionsAreOwnRun(ops[..n]);
    RunKeeps(ops[..n]);
    if Spends(op) { BooksIsNew(ops, n); }
  }

  lemma PlainLast(ops: seq<Op>, a: string, o: string) returns (p: Plane, op: Op, books: bool)
    requires Emissions(ops) && ops != []
    ensures p == Run(ops[..|ops| - 1]) && op == ops[|ops| - 1] && Run(ops) == Step(p, op).0
    ensures Keyed(p) && !op.Rehydration? && !op.Resume?
    ensures books == BooksPlain(ops, |ops| - 1, a, o)
    ensures books == (op.Cost? && op.attribution == a && op.order == o && New(p, op))
  {
    p, op := FrontKeeps(ops);
    books := BooksPlain(ops, |ops| - 1, a, o);
  }

  lemma FailingLast(ops: seq<Op>, a: string, o: string, code: string, cause: string) returns (p: Plane, op: Op, books: bool)
    requires Emissions(ops) && ops != []
    ensures p == Run(ops[..|ops| - 1]) && op == ops[|ops| - 1] && Run(ops) == Step(p, op).0
    ensures Keyed(p) && !op.Rehydration? && !op.Resume?
    ensures books == BooksFailing(ops, |ops| - 1, a, o, code, cause)
    ensures books == (op.FailureCost? && op.attribution == a && op.order == o && op.code == code && op.cause == cause && New(p, op))
  {
    p, op := FrontKeeps(ops);
    books := BooksFailing(ops, |ops| - 1, a, o, code, cause);
  }

  lemma PlainStep(ops: seq<Op>, a: string, o: string) returns (books: bool, value: int)
    requires Emissions(ops) && ops != []
    ensures var front := ops[..|ops| - 1];
      && AddsTo(Run(front), Run(ops), PlainSeries(a, o), books, value) && (books || value == 0)
      && PlainTokens(ops, a, o) == PlainTokens(front, a, o) + value
      && (PlainBooked(ops, a, o) <==> PlainBooked(front, a, o) || books)
  {
    var p, op;
    p, op, books := PlainLast(ops, a, o);
    value := if books then op.tokens else 0;
    PlainAdds(p, op, a, o, books, value);
    PlainBookedSnoc(ops, a, o);
  }

  lemma StoredStep(p: Plane, q: Plane, series: Series, books: bool, value: int, tokens: int, booked: bool)
    requires AddsTo(p, q, series, books, value) && (books || value == 0)
    requires Total(Values(p.samples), series) == tokens && (HasSeries(Values(p.samples), series) <==> booked)
    ensures Total(Values(q.samples), series) == tokens + value && (HasSeries(Values(q.samples), series) <==> booked || books)
  {
  }

  /** The plain spend of an order and a class is stored as the tokens that were booked on them. */
  lemma {:induction false} PlainIsStored(ops: seq<Op>, a: string, o: string)
    requires Emissions(ops)
    ensures Total(Values(Run(ops).samples), PlainSeries(a, o)) == PlainTokens(ops, a, o)
    ensures HasSeries(Values(Run(ops).samples), PlainSeries(a, o)) <==> PlainBooked(ops, a, o)
  {
    if ops == [] {
      assert Run(ops).samples == [] && Values(Run(ops).samples) == [];
    } else {
      var front := ops[..|ops| - 1];
      assert forall x :: x in front ==> x in ops;
      PlainIsStored(front, a, o);
      var books, value := PlainStep(ops, a, o);
      StoredStep(Run(front), Run(ops), PlainSeries(a, o), books, value, PlainTokens(front, a, o), PlainBooked(front, a, o));
    }
  }

  lemma FailingStep(ops: seq<Op>, a: string, o: string, code: string, cause: string) returns (books: bool, value: int)
    requires Emissions(ops) && ops != []
    ensures var front := ops[..|ops| - 1];
      && AddsTo(Run(front), Run(ops), FailingSeries(a, o, code, cause), books, value) && (books || value == 0)
      && FailingTokens(ops, a, o, code, cause) == FailingTokens(front, a, o, code, cause) + value
      && (FailingBooked(ops, a, o, code, cause) <==> FailingBooked(front, a, o, code, cause) || books)
  {
    var p, op;
    p, op, books := FailingLast(ops, a, o, code, cause);
    value := if books then op.tokens else 0;
    FailingAddsIf(p, op, a, o, code, cause, books, value);
    FailingBookedSnoc(ops, a, o, code, cause);
  }

  /** So is failing spend, under its failure code and root cause. */
  lemma {:induction false} FailingIsStored(ops: seq<Op>, a: string, o: string, code: string, cause: string)
    requires Emissions(ops)
    ensures Total(Values(Run(ops).samples), FailingSeries(a, o, code, cause)) == FailingTokens(ops, a, o, code, cause)
    ensures HasSeries(Values(Run(ops).samples), FailingSeries(a, o, code, cause)) <==> FailingBooked(ops, a, o, code, cause)
  {
    if ops == [] {
      assert Run(ops).samples == [] && Values(Run(ops).samples) == [];
    } else {
      var front := ops[..|ops| - 1];
      assert forall x :: x in front ==> x in ops;
      FailingIsStored(front, a, o, code, cause);
      var books, value := FailingStep(ops, a, o, code, cause);
      StoredStep(Run(front), Run(ops), FailingSeries(a, o, code, cause), books, value,
                 FailingTokens(front, a, o, code, cause), FailingBooked(front, a, o, code, cause));
    }
  }

  /** A spend series is shown exactly if it is stored, with its total. */
  lemma StoredIsShown(p: Plane, series: Series)
    requires series.0 == "cost_obs_execution_cost_total"
    ensures HasSeries(Exposed(p), series) <==> HasSeries(Values(p.samples), series)
    ensures forall s :: s in Exposed(p) && SeriesOf(s) == series ==> s.value == Total(Values(p.samples), series)
  {
    Merged(Values(p.samples));
    MetricsDiffer();
    PresenceIsLines(p, SortedSet(StrLe, OrdersOf(p)));
    forall s | s in PresenceOf(p) ensures s.name == PRESENCE_METRIC { PresenceLineLabels(s); }
    if HasSeries(Values(p.samples), series) {
      var t :| t in Values(p.samples) && SeriesOf(t) == series;
      assert HasSeries(Facts(p), SeriesOf(t));
      var s :| s in Facts(p) && SeriesOf(s) == series;
      assert s in Exposed(p);
    }
  }

  /** What is booked is what is shown: after any run of emissions the plain spend of an order and a
      class is exposed exactly if some call booked it, as the sum of the tokens so booked. */
  lemma PlainSpendIsShown(ops: seq<Op>, a: string, o: string)
    requires Emissions(ops)
    ensures HasSeries(Exposed(Run(ops)), PlainSeries(a, o)) <==> PlainBooked(ops, a, o)
    ensures forall s :: s in Exposed(Run(ops)) && SeriesOf(s) == PlainSeries(a, o) ==> s.value == PlainTokens(ops, a, o)
  {
    PlainIsStored(ops, a, o);
    StoredIsShown(Run(ops), PlainSeries(a, o));
  }

  lemma FailingSpendIsShown(ops: seq<Op>, a: string, o: string, code: string, cause: string)
    requires Emissions(ops)
    ensures HasSeries(Exposed(Run(ops)), FailingSeries(a, o, code, cause)) <==> FailingBooked(ops, a, o, code, cause)
    ensures forall s :: s in Exposed(Run(ops)) && SeriesOf(s) == FailingSeries(a, o, code, cause) ==>
      s.value == FailingTokens(ops, a, o, code, cause)
  {
    FailingIsStored(ops, a, o, code, cause);
    StoredIsShown(Run(ops), FailingSeries(a, o, code, cause));
  }

  // ----- every label carries its own argument -------------------------------

  lemma EmittedIsHeld(p: Plane, name: string, labels: seq<Label>, value: int, key: string) returns (s: Sample)
    requires key !in p.seen && !Has(p.samples, key)
    ensures s == Sample(name, SortBy(LabelLe, labels), value) && s in Values(Emit(p, name, labels, value, key).0.samples)
  {
    s := Sample(name, SortBy(LabelLe, labels), value);
    AssignNew(p.samples, key, s);
    ValuesAppend(p.samples, (key, s));
    assert (Values(p.samples) + [s])[|Values(p.samples)|] == s;
  }

  /** A stored fact of this metric and value with these labels and no others, each name once. */
  ghost predicate Shows(p: Plane, name: string, value: int, labels: seq<Label>)
  {
    exists s :: s in Values(p.samples) && s.name == name && s.value == value && LabelledWith(s, labels)
  }

  predicate LabelledWith(s: Sample, labels: seq<Label>)
  {
    |s.labels| == |labels| && forall i :: 0 <= i < |labels| ==> LabelGet(s.labels, labels[i].0) == Some(labels[i].1)
  }

  lemma SortedIsLabelled(name: string, labels: seq<Label>, value: int, shown: seq<Label>)
    requires Functional(labels) && |shown| == |labels| && forall i :: 0 <= i < |shown| ==> shown[i] in labels
    ensures LabelledWith(Sample(name, SortBy(LabelLe, labels), value), shown)
  {
    SortByElements(LabelLe, labels);
    forall i | 0 <= i < |shown| ensures LabelGet(SortBy(LabelLe, labels), shown[i].0) == Some(shown[i].1) {
      SortedLabels(labels, shown[i].0, shown[i].1);
    }
  }

  /** A first launch is stored as one fact that prints the order, the development, the generation,
      the seat and the model under those names. */
  lemma LaunchShows(p: Plane, order: string, development: string, generation: int, seat: string, model: string)
    requires Keyed(p) && LaunchKey(order) !in p.seen
    ensures Shows(Launched(p, order, development, generation, seat, model).0, "cost_obs_launch_total", 1,
                  [("order_id", order), ("seat", seat), ("model", model), ("development_id", development),
                   ("generation", IntText(generation))])
  {
    var labels := LaunchLabels(order, development, generation, seat, model);
    var shown := [("order_id", order), ("seat", seat), ("model", model), ("development_id", development),
                  ("generation", IntText(generation))];
    LaunchNames(order, development, generation, seat, model);
    assert shown[0] == labels[0] && shown[1] == labels[3] && shown[2] == labels[4] && shown[3] == labels[1] && shown[4] == labels[2];
    SortedIsLabelled(LAUNCH_METRIC, labels, 1, shown);
    var s := EmittedIsHeld(p, LAUNCH_METRIC, labels, 1, LaunchKey(order));
  }

  lemma ReviewShows(p: Plane, order: string, phase: string, verdict: string, attempt: int)
    requires Keyed(p) && ReviewKey(order, phase, attempt) !in p.seen
    ensures Shows(Reviewed(p, order, phase, verdict, attempt).0, "cost_obs_review_total", 1,
                  [("order_id", order), ("verdict", verdict), ("phase", phase)])
  {
    var labels := ReviewLabels(order, phase, verdict);
    var shown := [("order_id", order), ("verdict", verdict), ("phase", phase)];
    ReviewNames(order, phase, verdict);
    assert shown[0] == labels[0] && shown[1] == labels[2] && shown[2] == labels[1];
    SortedIsLabelled(REVIEW_METRIC, labels, 1, shown);
    var s := EmittedIsHeld(p, REVIEW_METRIC, labels, 1, ReviewKey(order, phase, attempt));
  }

  lemma PromotionShows(p: Plane, order: string, target: string, via: string)
    requires Keyed(p) && PromotionKey(order) !in p.seen
    ensures Shows(Promoted(p, order, target, via).0, "cost_obs_promotion_total", 1,
                  [("order_id", order), ("via", via), ("target_ref", target)])
  {
    var labels := PromotionLabels(order, target, via);
    var shown := [("order_id", order), ("via", via), ("target_ref", target)];
    PromotionNames(order, target, via);
    assert shown[0] == labels[0] && shown[1] == labels[2] && shown[2] == labels[1];
    SortedIsLabelled(PROMOTION_METRIC, labels, 1, shown);
    var s := EmittedIsHeld(p, PROMOTION_METRIC, labels, 1, PromotionKey(order));
  }

  lemma SettlementShows(p: Plane, order: string)
    requires Keyed(p) && SettlementKey(order) !in p.seen
    ensures Shows(Settled(p, order).0, "cost_obs_settlement_total", 1, [("order_id", order), ("status", "settled")])
  {
    SettlementNames(order);
    SortedIsLabelled(SETTLEMENT_METRIC, SettlementLabels(order), 1, SettlementLabels(order));
    var s := EmittedIsHeld(p, SETTLEMENT_METRIC, SettlementLabels(order), 1, SettlementKey(order));
  }
}
