/** The cost data plane (src/fleet_graph/cost_obs/data_plane.py): the class and, for each of
    its methods, the function of the plane's state that specifies it. */
module DataPlane {
  import opened Text
  import opened Sorting
  import opened Dict
  import opened Exposition

  const COST_METRIC := "cost_obs_execution_cost_total"
  const LAUNCH_METRIC := "cost_obs_launch_total"
  const REVIEW_METRIC := "cost_obs_review_total"
  const PROMOTION_METRIC := "cost_obs_promotion_total"
  const SETTLEMENT_METRIC := "cost_obs_settlement_total"
  const PRESENCE_METRIC := "cost_obs_lifecycle_present"

  const MANAGEMENT := "management"
  const LAUNCH := "launch"
  const REVIEW := "review"
  const PROMOTION := "promotion"
  const SETTLEMENT := "settlement"
  const UNKNOWN := "unknown"

  const LIFECYCLES: seq<string> := [LAUNCH, REVIEW, PROMOTION, SETTLEMENT]

  /** The classes token spend may be booked under. */
  predicate Attribution(a: string)
  {
    a == MANAGEMENT || a == LAUNCH || a == REVIEW || a == PROMOTION || a == SETTLEMENT || a == UNKNOWN
  }

  predicate Phase(p: string) { p == "continuous" || p == "final" }

  // ----- the state ----------------------------------------------------------

  /** One _samples dictionary, the _seen keys, and the two per-order lifecycle tables. */
  datatype Plane = Plane(
    samples: Dict<string, Sample>,
    seen: set<string>,
    facts: map<string, set<string>>,
    absent: map<string, set<string>>)

  const FRESH: Plane := Plane([], {}, map[], map[])

  function Of(table: map<string, set<string>>, order: string): set<string>
  {
    if order in table then table[order] else {}
  }

  /** table.setdefault(order, set()).add(lifecycle) */
  function Add(table: map<string, set<string>>, order: string, lifecycle: string): map<string, set<string>>
  {
    table[order := Of(table, order) + {lifecycle}]
  }

  /** dict(labels).get(key): the last label of that name. */
  function LabelGet(labels: seq<Label>, key: string): Option<string>
  {
    if labels == [] then None
    else if labels[|labels| - 1].0 == key then Some(labels[|labels| - 1].1)
    else LabelGet(labels[..|labels| - 1], key)
  }

  function LabelOr(labels: seq<Label>, key: string, default: string): string
  {
    match LabelGet(labels, key)
    case Some(v) => v
    case None => default
  }

  function OrderOf(s: Sample): string { LabelOr(s.labels, "order_id", "") }

  // ----- identity keys ------------------------------------------------------

  function LaunchKey(order: string): string { "launch:" + order }
  function PromotionKey(order: string): string { "promotion:" + order }
  function SettlementKey(order: string): string { "settlement:" + order }

  function ReviewKey(order: string, phase: string, attempt: int): string
  {
    "review:" + order + ":" + phase + ":" + IntText(attempt)
  }

  function CostKey(event: string, attribution: string): string { "cost:" + event + ":" + attribution }

  // ----- emission -----------------------------------------------------------

  /** Records one fact, unless its key was already emitted. */
  function Emit(p: Plane, name: string, labels: seq<Label>, value: int, key: string): (Plane, bool)
  {
    if key in p.seen then (p, false)
    else
      var sample := Sample(name, SortBy(LabelLe, labels), value);
      (p.(seen := p.seen + {key}, samples := Assign(p.samples, key, sample)), true)
  }

  function WithFact(r: (Plane, bool), order: string, lifecycle: string): (Plane, bool)
  {
    (r.0.(facts := Add(r.0.facts, order, lifecycle)), r.1)
  }

  function LaunchLabels(order: string, development: string, generation: int, seat: string, model: string): seq<Label>
  {
    [("order_id", order), ("development_id", development), ("generation", IntText(generation)),
     ("seat", seat), ("model", model)]
  }

  function Launched(p: Plane, order: string, development: string, generation: int, seat: string, model: string): (Plane, bool)
  {
    var labels := LaunchLabels(order, development, generation, seat, model);
    WithFact(Emit(p, LAUNCH_METRIC, labels, 1, LaunchKey(order)), order, LAUNCH)
  }

  function ReviewLabels(order: string, phase: string, verdict: string): seq<Label>
  {
    [("order_id", order), ("phase", phase), ("verdict", verdict)]
  }

  function Reviewed(p: Plane, order: string, phase: string, verdict: string, attempt: int): (Plane, bool)
  {
    WithFact(Emit(p, REVIEW_METRIC, ReviewLabels(order, phase, verdict), 1, ReviewKey(order, phase, attempt)), order, REVIEW)
  }

  function PromotionLabels(order: string, target: string, via: string): seq<Label>
  {
    [("order_id", order), ("target_ref", target), ("via", via)]
  }

  function Promoted(p: Plane, order: string, target: string, via: string): (Plane, bool)
  {
    WithFact(Emit(p, PROMOTION_METRIC, PromotionLabels(order, target, via), 1, PromotionKey(order)), order, PROMOTION)
  }

  function SettlementLabels(order: string): seq<Label> { [("order_id", order), ("status", "settled")] }

  function Settled(p: Plane, order: string): (Plane, bool)
  {
    WithFact(Emit(p, SETTLEMENT_METRIC, SettlementLabels(order), 1, SettlementKey(order)), order, SETTLEMENT)
  }

  function CostLabels(attribution: string, order: string): seq<Label>
  {
    [("attribution", attribution), ("order_id", order)]
  }

  function Spent(p: Plane, attribution: string, order: string, tokens: int, event: string): (Plane, bool)
  {
    Emit(p, COST_METRIC, CostLabels(attribution, order), tokens, CostKey(event, attribution))
  }

  function FailureLabels(attribution: string, order: string, code: string, cause: string): seq<Label>
  {
    [("attribution", attribution), ("order_id", order), ("failure_code", code), ("root_cause", cause)]
  }

  function SpentFailing(p: Plane, attribution: string, order: string, tokens: int, event: string,
                        code: string, cause: string): (Plane, bool)
  {
    Emit(p, COST_METRIC, FailureLabels(attribution, order, code, cause), tokens, CostKey(event, attribution))
  }

  function MarkedAbsent(p: Plane, order: string, lifecycle: string): Plane
  {
    p.(absent := Add(p.absent, order, lifecycle))
  }

  /** mark_absent_if_missing over the first n lifecycles. */
  function MarkedMissing(p: Plane, order: string, n: nat): Plane
    requires n <= |LIFECYCLES|
  {
    if n == 0 then p
    else
      var q := MarkedMissing(p, order, n - 1);
      if LIFECYCLES[n - 1] in Of(p.facts, order) then q else MarkedAbsent(q, order, LIFECYCLES[n - 1])
  }

  // ----- reading ------------------------------------------------------------

  type Series = (string, seq<Label>)

  function SeriesOf(s: Sample): Series { (s.name, s.labels) }

  /** The values summed per series, series in order of first appearance. */
  function Merge(samples: seq<Sample>): Dict<Series, int>
  {
    if samples == [] then []
    else
      var d, s := Merge(samples[..|samples| - 1]), samples[|samples| - 1];
      Assign(d, SeriesOf(s), Get(d, SeriesOf(s), 0) + s.value)
  }

  function Unmerge(d: Dict<Series, int>): (r: seq<Sample>)
    ensures |r| == |d|
  {
    if d == [] then [] else [Sample(d[0].0.0, d[0].0.1, d[0].1)] + Unmerge(d[1..])
  }

  function DedupSum(samples: seq<Sample>): seq<Sample> { Unmerge(Merge(samples)) }

  /** The presence of one lifecycle of an order: 1 for a fact, 0 for an accounted absence. */
  function Mark(p: Plane, order: string, lifecycle: string): Option<int>
  {
    if lifecycle in Of(p.absent, order) && lifecycle !in Of(p.facts, order) then Some(0)
    else if lifecycle in Of(p.facts, order) then Some(1)
    else None
  }

  function PresenceSample(order: string, lifecycle: string, value: int): Sample
  {
    Sample(PRESENCE_METRIC, [("lifecycle", lifecycle), ("order_id", order)], value)
  }

  /** The presence series of one order over the first n lifecycles. */
  function OrderPresence(p: Plane, order: string, n: nat): seq<Sample>
    requires n <= |LIFECYCLES|
  {
    if n == 0 then []
    else
      OrderPresence(p, order, n - 1)
      + (match Mark(p, order, LIFECYCLES[n - 1])
         case None => []
         case Some(v) => [PresenceSample(order, LIFECYCLES[n - 1], v)])
  }

  function Presence(p: Plane, orders: seq<string>): seq<Sample>
  {
    if orders == [] then []
    else Presence(p, orders[..|orders| - 1]) + OrderPresence(p, orders[|orders| - 1], |LIFECYCLES|)
  }

  function OrdersOf(p: Plane): set<string> { p.facts.Keys + p.absent.Keys }

  /** What samples() returns. */
  ghost function Exposed(p: Plane): seq<Sample>
  {
    DedupSum(Values(p.samples)) + Presence(p, SortedSet(StrLe, OrdersOf(p)))
  }

  // ----- resuming -----------------------------------------------------------

  datatype Rehydration = Rehydration(plane: Plane, attempts: map<(string, string), nat>)

  function Restore(p: Plane, key: string, sample: Sample, lifecycle: string): Plane
  {
    var q := p.(samples := Assign(p.samples, key, sample), seen := p.seen + {key});
    if OrderOf(sample) == "" then q else q.(facts := Add(q.facts, OrderOf(sample), lifecycle))
  }

  function RestoredCostKey(sample: Sample): string
  {
    var attribution := LabelOr(sample.labels, "attribution", "");
    if attribution == MANAGEMENT && OrderOf(sample) != ""
    then "cost:management:" + OrderOf(sample) + ":" + attribution
    else "cost:rehydrated:" + OrderOf(sample) + ":" + attribution
  }

  /** One sample of the file merged back. */
  function Absorb(r: Rehydration, s: Sample): Rehydration
  {
    var p, order := r.plane, OrderOf(s);
    if s.name == PRESENCE_METRIC then
      var lifecycle := LabelGet(s.labels, "lifecycle");
      if order != "" && s.value == 0 && lifecycle.Some? && lifecycle.value in LIFECYCLES
      then r.(plane := MarkedAbsent(p, order, lifecycle.value))
      else r
    else if s.name == LAUNCH_METRIC then r.(plane := Restore(p, LaunchKey(order), s, LAUNCH))
    else if s.name == PROMOTION_METRIC then r.(plane := Restore(p, PromotionKey(order), s, PROMOTION))
    else if s.name == SETTLEMENT_METRIC then r.(plane := Restore(p, SettlementKey(order), s, SETTLEMENT))
    else if s.name == REVIEW_METRIC then
      var phase := LabelOr(s.labels, "phase", "continuous");
      var attempt := (if (order, phase) in r.attempts then r.attempts[(order, phase)] else 0) + 1;
      Rehydration(Restore(p, ReviewKey(order, phase, attempt), s, REVIEW), r.attempts[(order, phase) := attempt])
    else if s.name == COST_METRIC then
      var key := RestoredCostKey(s);
      r.(plane := p.(samples := Assign(p.samples, key, s), seen := p.seen + {key}))
    else r
  }

  function Rehydrated(p: Plane, samples: seq<Sample>): Rehydration
  {
    if samples == [] then Rehydration(p, map[])
    else Absorb(Rehydrated(p, samples[..|samples| - 1]), samples[|samples| - 1])
  }

  // ----- reconciling --------------------------------------------------------

  predicate Counted(s: Sample, metric: string, order: string)
  {
    s.name == metric && LabelGet(s.labels, "order_id") == Some(order)
  }

  function CountFor(samples: seq<Sample>, metric: string, order: string): nat
  {
    if samples == [] then 0
    else CountFor(samples[..|samples| - 1], metric, order)
         + if Counted(samples[|samples| - 1], metric, order) then 1 else 0
  }

  /** Launches and settlements of one order. */
  function Tally(samples: seq<Sample>, order: string): (nat, nat)
  {
    (CountFor(samples, LAUNCH_METRIC, order), CountFor(samples, SETTLEMENT_METRIC, order))
  }

  predicate ExactTally(t: (nat, nat)) { t.0 <= 1 && t.1 <= 1 && (t.1 == 1 ==> t.0 == 1) }

  lemma AscendingOrders(r: seq<string>, orders: set<string>)
    requires SortedBy(StrLe, r) && Distinct(r) && forall o :: o in r <==> o in orders
    ensures r == SortedSet(StrLe, orders)
  {
    StrLePreorder();
    SortedSetSorted(StrLe, orders);
    AscendingUnique(StrLe, r, SortedSet(StrLe, orders));
  }

  function CountOr(counts: map<string, nat>, order: string): nat
  {
    if order in counts then counts[order] else 0
  }

  function PairOf(launches: map<string, nat>, settlements: map<string, nat>, order: string): (nat, nat)
  {
    (CountOr(launches, order), CountOr(settlements, order))
  }

  datatype ReconcileReport = ReconcileReport(orders: map<string, (nat, nat)>, exactOnce: bool)

  datatype ValueError = BadPhase | BadAttribution | BadLifecycle

  class CostDataPlane {
    var seen: set<string>
    var samples: Dict<string, Sample>
    var factLifecycles: map<string, set<string>>
    var absent: map<string, set<string>>

    /** The state the specification functions speak about. */
    function View(): Plane
      reads this
    {
      Plane(samples, seen, factLifecycles, absent)
    }

    constructor ()
      ensures View() == FRESH
    {
      seen, samples, factLifecycles, absent := {}, [], map[], map[];
    }

    method EmitFact(name: string, labels: seq<Label>, value: int, key: string) returns (emitted: bool)
      modifies this
      ensures (View(), emitted) == Emit(old(View()), name, labels, value, key)
    {
      if key in seen { return false; }
      seen := seen + {key};
      samples := Assign(samples, key, Sample(name, SortBy(LabelLe, labels), value));
      emitted := true;
    }

    method RecordLaunch(order: string, development: string, generation: int, seat: string, model: string)
      returns (emitted: bool)
      modifies this
      ensures (View(), emitted) == Launched(old(View()), order, development, generation, seat, model)
    {
      emitted := EmitFact(LAUNCH_METRIC, LaunchLabels(order, development, generation, seat, model), 1, LaunchKey(order));
      factLifecycles := Add(factLifecycles, order, LAUNCH);
    }

    method RecordReview(order: string, phase: string, verdict: string, attempt: int)
      returns (r: Result<bool, ValueError>)
      modifies this
      ensures Phase(phase) ==> r.Ok? && (View(), r.value) == Reviewed(old(View()), order, phase, verdict, attempt)
      ensures !Phase(phase) ==> r == Err(BadPhase) && View() == old(View())
    {
      if !Phase(phase) { return Err(BadPhase); }
      var emitted := EmitFact(REVIEW_METRIC, ReviewLabels(order, phase, verdict), 1, ReviewKey(order, phase, attempt));
      factLifecycles := Add(factLifecycles, order, REVIEW);
      r := Ok(emitted);
    }

    method RecordPromotion(order: string, target: string, via: string) returns (emitted: bool)
      modifies this
      ensures (View(), emitted) == Promoted(old(View()), order, target, via)
    {
      emitted := EmitFact(PROMOTION_METRIC, PromotionLabels(order, target, via), 1, PromotionKey(order));
      factLifecycles := Add(factLifecycles, order, PROMOTION);
    }

    method RecordSettlement(order: string) returns (emitted: bool)
      modifies this
      ensures (View(), emitted) == Settled(old(View()), order)
    {
      emitted := EmitFact(SETTLEMENT_METRIC, SettlementLabels(order), 1, SettlementKey(order));
      factLifecycles := Add(factLifecycles, order, SETTLEMENT);
    }

    method RecordExecutionCost(attribution: string, order: string, tokens: int, event: string)
      returns (r: Result<bool, ValueError>)
      modifies this
      ensures Attribution(attribution) ==>
        r.Ok? && (View(), r.value) == Spent(old(View()), attribution, order, tokens, event)
      ensures !Attribution(attribution) ==> r == Err(BadAttribution) && View() == old(View())
    {
      if !Attribution(attribution) { return Err(BadAttribution); }
      var emitted := EmitFact(COST_METRIC, CostLabels(attribution, order), tokens, CostKey(event, attribution));
      r := Ok(emitted);
    }

    method RecordFailureCost(attribution: string, order: string, tokens: int, event: string, code: string, cause: string)
      returns (r: Result<bool, ValueError>)
      modifies this
      ensures Attribution(attribution) ==>
        r.Ok? && (View(), r.value) == SpentFailing(old(View()), attribution, order, tokens, event, code, cause)
      ensures !Attribution(attribution) ==> r == Err(BadAttribution) && View() == old(View())
    {
      if !Attribution(attribution) { return Err(BadAttribution); }
      var emitted := EmitFact(COST_METRIC, FailureLabels(attribution, order, code, cause), tokens, CostKey(event, attribution));
      r := Ok(emitted);
    }

    method MarkAbsent(order: string, lifecycle: string) returns (r: Result<(), ValueError>)
      modifies this
      ensures lifecycle in LIFECYCLES ==> r.Ok? && View() == MarkedAbsent(old(View()), order, lifecycle)
      ensures lifecycle !in LIFECYCLES ==> r == Err(BadLifecycle) && View() == old(View())
    {
      if lifecycle !in LIFECYCLES { return Err(BadLifecycle); }
      absent := Add(absent, order, lifecycle);
      r := Ok(());
    }

    method MarkAbsentIfMissing(order: string)
      modifies this
      ensures View() == MarkedMissing(old(View()), order, |LIFECYCLES|)
    {
      var facts := Of(factLifecycles, order);
      for n := 0 to |LIFECYCLES|
        invariant View() == MarkedMissing(old(View()), order, n)
        invariant factLifecycles == old(factLifecycles)
      {
        if LIFECYCLES[n] !in facts {
          absent := Add(absent, order, LIFECYCLES[n]);
        }
      }
    }

    static method MergeEqualSeries(facts: seq<Sample>) returns (result: seq<Sample>)
      ensures result == DedupSum(facts)
    {
      var merged: Dict<Series, int> := [];
      for i := 0 to |facts|
        invariant merged == Merge(facts[..i])
      {
        assert facts[..i + 1][..i] == facts[..i];
        var key := SeriesOf(facts[i]);
        merged := Assign(merged, key, Get(merged, key, 0) + facts[i].value);
      }
      assert facts[..|facts|] == facts;
      result := SamplesOf(merged);
    }

    static method SamplesOf(merged: Dict<Series, int>) returns (result: seq<Sample>)
      ensures result == Unmerge(merged)
    {
      result := [];
      for i := 0 to |merged|
        invariant result + Unmerge(merged[i..]) == Unmerge(merged)
      {
        assert merged[i..][1..] == merged[i + 1..];
        result := result + [Sample(merged[i].0.0, merged[i].0.1, merged[i].1)];
      }
    }

    static method SortOrders(orders: set<string>) returns (r: seq<string>)
      ensures SortedBy(StrLe, r) && Distinct(r) && forall o :: o in r <==> o in orders
    {
      var rest, gathered := orders, [];
      while rest != {}
        invariant rest !! (set o | o in gathered) && rest + (set o | o in gathered) == orders
        invariant Distinct(gathered)
        decreases rest
      {
        var o :| o in rest;
        rest, gathered := rest - {o}, gathered + [o];
      }
      r := SortBy(StrLe, gathered);
      StrLePreorder();
      SortedNames(gathered);
    }

    method PresenceOfOrder(order: string) returns (result: seq<Sample>)
      ensures result == OrderPresence(View(), order, |LIFECYCLES|)
    {
      result := [];
      var facts, gone := Of(factLifecycles, order), Of(absent, order);
      for n := 0 to |LIFECYCLES|
        invariant result == OrderPresence(View(), order, n)
      {
        var lifecycle := LIFECYCLES[n];
        var value;
        if lifecycle in gone && lifecycle !in facts { value := 0; }
        else if lifecycle in facts { value := 1; }
        else { continue; }
        result := result + [PresenceSample(order, lifecycle, value)];
      }
    }

    method PresenceSeries(orders: seq<string>) returns (result: seq<Sample>)
      ensures result == Presence(View(), orders)
    {
      result := [];
      for i := 0 to |orders|
        invariant result == Presence(View(), orders[..i])
      {
        assert orders[..i + 1][..i] == orders[..i];
        var presence := PresenceOfOrder(orders[i]);
        result := result + presence;
      }
      assert orders[..|orders|] == orders;
    }

    method Samples() returns (result: seq<Sample>)
      ensures result == Exposed(View())
    {
      var merged := MergeEqualSeries(Values(samples));
      var orders := SortOrders(factLifecycles.Keys + absent.Keys);
      AscendingOrders(orders, OrdersOf(View()));
      var presence := PresenceSeries(orders);
      result := merged + presence;
    }

    method RestoreFact(key: string, sample: Sample, lifecycle: string)
      modifies this
      ensures View() == Restore(old(View()), key, sample, lifecycle)
    {
      samples := Assign(samples, key, sample);
      seen := seen + {key};
      if OrderOf(sample) != "" {
        factLifecycles := Add(factLifecycles, OrderOf(sample), lifecycle);
      }
    }

    method Rehydrate(materialized: seq<Sample>)
      modifies this
      ensures View() == Rehydrated(old(View()), materialized).plane
    {
      var attempts: map<(string, string), nat> := map[];
      for i := 0 to |materialized|
        invariant Rehydration(View(), attempts) == Rehydrated(old(View()), materialized[..i])
      {
        assert materialized[..i + 1][..i] == materialized[..i];
        attempts := RestoreSample(materialized[i], attempts);
      }
      assert materialized[..|materialized|] == materialized;
    }

    method RestoreSample(s: Sample, attempts: map<(string, string), nat>) returns (next: map<(string, string), nat>)
      modifies this
      ensures Rehydration(View(), next) == Absorb(Rehydration(old(View()), attempts), s)
    {
      next := attempts;
      var order := OrderOf(s);
      if s.name == PRESENCE_METRIC {
        if order != "" && s.value == 0 {
          var lifecycle := LabelGet(s.labels, "lifecycle");
          if lifecycle.Some? && lifecycle.value in LIFECYCLES {
            absent := Add(absent, order, lifecycle.value);
          }
        }
        return;
      }
      if s.name == LAUNCH_METRIC {
        RestoreFact(LaunchKey(order), s, LAUNCH);
      } else if s.name == PROMOTION_METRIC {
        RestoreFact(PromotionKey(order), s, PROMOTION);
      } else if s.name == SETTLEMENT_METRIC {
        RestoreFact(SettlementKey(order), s, SETTLEMENT);
      } else if s.name == REVIEW_METRIC {
        var phase := LabelOr(s.labels, "phase", "continuous");
        var attempt := (if (order, phase) in attempts then attempts[(order, phase)] else 0) + 1;
        next := attempts[(order, phase) := attempt];
        RestoreFact(ReviewKey(order, phase, attempt), s, REVIEW);
      } else if s.name == COST_METRIC {
        var key := RestoredCostKey(s);
        samples := Assign(samples, key, s);
        seen := seen + {key};
      }
    }

    /** The scrape file's text. */
    method WriteExposition() returns (text: string)
      ensures text == RenderText(Exposed(View()))
    {
      var all := Samples();
      text := Render(all);
    }

    /** The resume path: False when there is no file (or no directory); a file that does not parse
        raises; both leave the plane alone. */
    method RehydrateFromFile(file: Option<string>) returns (r: Result<bool, ParseError>)
      modifies this
      ensures file.None? ==> r == Ok(false) && View() == old(View())
      ensures file.Some? ==>
        match ParseText(file.value)
        case Ok(samples) => r == Ok(true) && View() == Rehydrated(old(View()), samples).plane
        case Err(e) => r == Err(e) && View() == old(View())
    {
      if file.None? { return Ok(false); }
      var parsed := Parse(file.value);
      if parsed.Err? { return Err(parsed.error); }
      Rehydrate(parsed.value);
      r := Ok(true);
    }

    method CountByOrder(metric: string) returns (counts: map<string, nat>)
      ensures forall o :: o in counts <==> CountFor(Values(samples), metric, o) > 0
      ensures forall o :: o in counts ==> counts[o] == CountFor(Values(samples), metric, o)
    {
      var all := Values(samples);
      counts := map[];
      for i := 0 to |all|
        invariant forall o :: o in counts <==> CountFor(all[..i], metric, o) > 0
        invariant forall o :: o in counts ==> counts[o] == CountFor(all[..i], metric, o)
      {
        assert all[..i + 1][..i] == all[..i];
        if all[i].name != metric { continue; }
        var order := LabelGet(all[i].labels, "order_id");
        if order.None? { continue; }
        counts := counts[order.value := CountOr(counts, order.value) + 1];
      }
      assert all[..|all|] == all;
    }

    static method Correlate(orders: seq<string>, launches: map<string, nat>, settlements: map<string, nat>)
      returns (report: ReconcileReport)
      ensures forall o :: o in report.orders <==> o in orders
      ensures forall o :: o in report.orders ==> report.orders[o] == PairOf(launches, settlements, o)
      ensures report.exactOnce <==> forall o :: o in report.orders ==> ExactTally(report.orders[o])
    {
      report := ReconcileReport(map[], true);
      for i := 0 to |orders|
        invariant forall o :: o in report.orders <==> o in orders[..i]
        invariant forall o :: o in report.orders ==> report.orders[o] == PairOf(launches, settlements, o)
        invariant report.exactOnce <==> forall o :: o in report.orders ==> ExactTally(report.orders[o])
      {
        assert orders[..i + 1] == orders[..i] + [orders[i]];
        ghost var before := report.orders;
        report := Enter(report, orders[i], CountOr(launches, orders[i]), CountOr(settlements, orders[i]));
        assert forall o :: o in before ==> o in report.orders && report.orders[o] == before[o];
        assert orders[i] in report.orders;
      }
      assert orders[..|orders|] == orders;
    }

    static method Enter(report: ReconcileReport, order: string, launch: nat, settled: nat) returns (r: ReconcileReport)
      requires order in report.orders ==> report.orders[order] == (launch, settled)
      ensures r.orders == report.orders[order := (launch, settled)]
      ensures r.exactOnce == (report.exactOnce && ExactTally((launch, settled)))
    {
      r := report.(orders := report.orders[order := (launch, settled)]);
      if launch > 1 || settled > 1 { r := r.(exactOnce := false); }
      if settled == 1 && launch != 1 { r := r.(exactOnce := false); }
    }

    method Reconcile() returns (report: ReconcileReport)
      ensures forall o :: o in report.orders <==> Tally(Values(samples), o) != (0, 0)
      ensures forall o :: o in report.orders ==> report.orders[o] == Tally(Values(samples), o)
      ensures report.exactOnce <==> forall o :: o in report.orders ==> ExactTally(report.orders[o])
    {
      var launches := CountByOrder(LAUNCH_METRIC);
      var settlements := CountByOrder(SETTLEMENT_METRIC);
      ghost var all := Values(samples);
      forall o ensures PairOf(launches, settlements, o) == Tally(all, o) {
        assert CountOr(launches, o) == CountFor(all, LAUNCH_METRIC, o);
        assert CountOr(settlements, o) == CountFor(all, SETTLEMENT_METRIC, o);
      }
      var orders := SortOrders(launches.Keys + settlements.Keys);
      report := Correlate(orders, launches, settlements);
      forall o ensures o in report.orders <==> Tally(all, o) != (0, 0) {
        assert PairOf(launches, settlements, o) == Tally(all, o);
      }
    }
  }
}
