/** Rehydrating a fresh plane from a file: what the rebuilt plane holds after every line. */
module Resume {
  import opened Text
  import opened Dict
  import opened Exposition
  import opened RoundTrip
  import opened DataPlane
  import opened MergedView
  import opened PlaneRuns
  import opened PlaneShape

  /** A presence line as samples() derives it. */
  predicate PresenceLine(s: Sample)
  {
    && |s.labels| == 2 && s.labels[0].1 in LIFECYCLES
    && s == PresenceSample(s.labels[1].1, s.labels[0].1, s.value)
  }

  predicate FileLine(s: Sample) { Source(s) || PresenceLine(s) }

  lemma NotPresence(s: Sample)
    requires FileLine(s) && SourceMetric(s.name)
    ensures Source(s)
  {
    if PresenceLine(s) { PresenceLineLabels(s); }
  }

  lemma PresenceLineLabels(s: Sample)
    requires PresenceLine(s)
    ensures OrderOf(s) == s.labels[1].1 && LabelGet(s.labels, "lifecycle") == Some(s.labels[0].1)
    ensures s.name == PRESENCE_METRIC && !SourceMetric(s.name) && WellFormed(s)
  {
    MetricsDiffer();
    PresenceIsIdent();
    LabelNamesAreIdents();
    IdentIsGood(PRESENCE_METRIC);
    IdentIsGood("lifecycle");
    IdentIsGood("order_id");
    assert s.labels[..1][0] == s.labels[0];
    assert s.labels[0].0[0] == 'l' && s.labels[1].0[0] == 'o';
  }

  // ----- the effect of one line ---------------------------------------------

  function AttemptsOf(r: Rehydration, s: Sample): nat
  {
    if (OrderOf(s), PhaseOf(s)) in r.attempts then r.attempts[(OrderOf(s), PhaseOf(s))] else 0
  }

  /** The key a fact is filed under when it comes back. */
  function RestoredKey(r: Rehydration, s: Sample): string
  {
    if s.name == LAUNCH_METRIC then LaunchKey(OrderOf(s))
    else if s.name == PROMOTION_METRIC then PromotionKey(OrderOf(s))
    else if s.name == SETTLEMENT_METRIC then SettlementKey(OrderOf(s))
    else if s.name == REVIEW_METRIC then ReviewKey(OrderOf(s), PhaseOf(s), AttemptsOf(r, s) + 1)
    else RestoredCostKey(s)
  }

  function RestoredFacts(facts: map<string, set<string>>, s: Sample): map<string, set<string>>
  {
    if s.name == COST_METRIC || OrderOf(s) == "" then facts else Add(facts, OrderOf(s), LifecycleOf(s.name))
  }

  /** Both pictures of the plane after one line agree. */
  ghost predicate AbsorbedAs(r: Rehydration, s: Sample, next: Rehydration)
  {
    && next.plane == r.plane.(
          samples := Assign(r.plane.samples, RestoredKey(r, s), s),
          seen := r.plane.seen + {RestoredKey(r, s)},
          facts := RestoredFacts(r.plane.facts, s))
    && next.attempts == if s.name == REVIEW_METRIC
                        then r.attempts[(OrderOf(s), PhaseOf(s)) := AttemptsOf(r, s) + 1] else r.attempts
  }

  predicate OncePerOrder(name: string)
  {
    name == LAUNCH_METRIC || name == PROMOTION_METRIC || name == SETTLEMENT_METRIC
  }

  lemma AbsorbReview(r: Rehydration, s: Sample)
    requires s.name == REVIEW_METRIC
    ensures AbsorbedAs(r, s, Absorb(r, s))
  {
    MetricsDiffer();
    assert LifecycleOf(s.name) == REVIEW;
  }

  lemma AbsorbCost(r: Rehydration, s: Sample)
    requires s.name == COST_METRIC
    ensures AbsorbedAs(r, s, Absorb(r, s))
  {
    MetricsDiffer();
  }

  lemma AbsorbOnce(r: Rehydration, s: Sample)
    requires OncePerOrder(s.name)
    ensures AbsorbedAs(r, s, Absorb(r, s))
  {
    MetricsDiffer();
  }

  lemma AbsorbSource(r: Rehydration, s: Sample)
    requires SourceMetric(s.name)
    ensures AbsorbedAs(r, s, Absorb(r, s))
  {
    if s.name == REVIEW_METRIC { AbsorbReview(r, s); }
    else if s.name == COST_METRIC { AbsorbCost(r, s); }
    else { AbsorbOnce(r, s); }
  }

  /** A line of any other metric leaves the facts alone. */
  lemma AbsorbOther(r: Rehydration, s: Sample)
    requires !SourceMetric(s.name)
    ensures var next := Absorb(r, s);
      && next.plane.samples == r.plane.samples && next.plane.seen == r.plane.seen
      && next.plane.facts == r.plane.facts && next.attempts == r.attempts
  {
  }

  lemma AbsorbPresence(r: Rehydration, s: Sample)
    requires PresenceLine(s)
    ensures Absorb(r, s) == if OrderOf(s) != "" && s.value == 0
                            then r.(plane := MarkedAbsent(r.plane, OrderOf(s), s.labels[0].1)) else r
  {
    PresenceLineLabels(s);
  }

  // ----- restored keys ------------------------------------------------------

  /** The event id that spend comes back with. */
  function SpendEvent(s: Sample): string
  {
    (if AttributionOf(s) == MANAGEMENT && OrderOf(s) != "" then "management:" else "rehydrated:") + OrderOf(s)
  }

  lemma RestoredCostKeyIs(s: Sample)
    ensures RestoredCostKey(s) == CostKey(SpendEvent(s), AttributionOf(s))
  {
    var o, a := OrderOf(s), AttributionOf(s);
    assert "cost:management:" + o + ":" + a == "cost:" + ("management:" + o) + ":" + a;
    assert "cost:rehydrated:" + o + ":" + a == "cost:" + ("rehydrated:" + o) + ":" + a;
  }

  lemma SpendEventInjective(s: Sample, t: Sample)
    requires SpendEvent(s) == SpendEvent(t)
    ensures OrderOf(s) == OrderOf(t)
  {
    assert SpendEvent(s)[0] == if AttributionOf(s) == MANAGEMENT && OrderOf(s) != "" then 'm' else 'r';
    assert SpendEvent(t)[0] == if AttributionOf(t) == MANAGEMENT && OrderOf(t) != "" then 'm' else 'r';
    assert SpendEvent(s)[11..] == OrderOf(s) && SpendEvent(t)[11..] == OrderOf(t);
  }

  lemma RestoredCostKeyFits(s: Sample)
    requires s.name == COST_METRIC
    ensures KeyFits(RestoredCostKey(s), s)
  {
    MetricsDiffer();
    RestoredCostKeyIs(s);
  }

  /** Spend comes back under one key per order and attribution. */
  lemma RestoredCostKeyInjective(s: Sample, t: Sample)
    requires Attribution(AttributionOf(s)) && Attribution(AttributionOf(t))
    ensures RestoredCostKey(s) == RestoredCostKey(t) <==> OrderOf(s) == OrderOf(t) && AttributionOf(s) == AttributionOf(t)
  {
    RestoredCostKeyIs(s);
    RestoredCostKeyIs(t);
    if RestoredCostKey(s) == RestoredCostKey(t) {
      CostKeyInjective(SpendEvent(s), AttributionOf(s), SpendEvent(t), AttributionOf(t));
      SpendEventInjective(s, t);
    }
  }

  lemma RestoredKeyFits(r: Rehydration, s: Sample)
    requires Source(s)
    ensures KeyFits(RestoredKey(r, s), s)
  {
    MetricsDiffer();
    if s.name == COST_METRIC { RestoredCostKeyFits(s); }
  }

  // ----- what each key holds ------------------------------------------------

  /** The reviews of one order and phase among these lines. */
  function ReviewsOf(lines: seq<Sample>, order: string, phase: string): nat
  {
    if lines == [] then 0
    else
      var s := lines[|lines| - 1];
      ReviewsOf(lines[..|lines| - 1], order, phase)
      + if s.name == REVIEW_METRIC && OrderOf(s) == order && PhaseOf(s) == phase then 1 else 0
  }

  /** The key that the last of these lines comes back under; reviews are numbered. */
  function LastKey(lines: seq<Sample>): string
    requires lines != []
  {
    var s := lines[|lines| - 1];
    if s.name == LAUNCH_METRIC then LaunchKey(OrderOf(s))
    else if s.name == PROMOTION_METRIC then PromotionKey(OrderOf(s))
    else if s.name == SETTLEMENT_METRIC then SettlementKey(OrderOf(s))
    else if s.name == REVIEW_METRIC then ReviewKey(OrderOf(s), PhaseOf(s), ReviewsOf(lines, OrderOf(s), PhaseOf(s)))
    else CostKey(SpendEvent(s), AttributionOf(s))
  }

  /** The last fact among these lines that comes back under this key. */
  function LastUnder(lines: seq<Sample>, key: string): Option<Sample>
  {
    if lines == [] then None
    else
      var s := lines[|lines| - 1];
      if SourceMetric(s.name) && LastKey(lines) == key then Some(s) else LastUnder(lines[..|lines| - 1], key)
  }

  function Held(samples: Dict<string, Sample>, key: string): Option<Sample>
  {
    if Has(samples, key) then Some(Get(samples, key, Sample("", [], 0))) else None
  }

  lemma {:induction false} AttemptsAreCounted(lines: seq<Sample>, order: string, phase: string)
    ensures var attempts := Rehydrated(FRESH, lines).attempts;
      ReviewsOf(lines, order, phase) == if (order, phase) in attempts then attempts[(order, phase)] else 0
  {
    if lines != [] {
      var front, s := lines[..|lines| - 1], lines[|lines| - 1];
      AttemptsAreCounted(front, order, phase);
      if SourceMetric(s.name) { AbsorbSource(Rehydrated(FRESH, front), s); } else { AbsorbOther(Rehydrated(FRESH, front), s); }
    }
  }

  lemma LastKeyIs(lines: seq<Sample>)
    requires lines != [] && SourceMetric(lines[|lines| - 1].name)
    ensures RestoredKey(Rehydrated(FRESH, lines[..|lines| - 1]), lines[|lines| - 1]) == LastKey(lines)
  {
    var s := lines[|lines| - 1];
    AttemptsAreCounted(lines[..|lines| - 1], OrderOf(s), PhaseOf(s));
    if s.name == COST_METRIC { RestoredCostKeyIs(s); }
  }

  /** After a resume from any file, a key holds the last line that comes back under it: a later
      line replaces an earlier one, and nothing else is lost. */
  lemma {:induction false} RebuiltHolds(lines: seq<Sample>, key: string)
    ensures var q := Rehydrated(FRESH, lines).plane;
      Held(q.samples, key) == LastUnder(lines, key) && (key in q.seen <==> LastUnder(lines, key).Some?)
  {
    if lines != [] {
      var front, s := lines[..|lines| - 1], lines[|lines| - 1];
      var r := Rehydrated(FRESH, front);
      RebuiltHolds(front, key);
      if SourceMetric(s.name) {
        AbsorbSource(r, s);
        LastKeyIs(lines);
        AssignGet(r.plane.samples, LastKey(lines), s, key, Sample("", [], 0));
      } else {
        AbsorbOther(r, s);
      }
    }
  }

  /** A review attempt is known after a resume exactly if the file holds that many reviews of the
      order and phase. */
  lemma {:induction false} ReviewsKnown(lines: seq<Sample>, order: string, phase: string, attempt: int)
    requires Phase(phase) && forall s :: s in lines ==> FileLine(s)
    ensures LastUnder(lines, ReviewKey(order, phase, attempt)).Some? <==> 1 <= attempt <= ReviewsOf(lines, order, phase)
  {
    if lines != [] {
      var front, s := lines[..|lines| - 1], lines[|lines| - 1];
      assert s in lines;
      ReviewsKnown(front, order, phase, attempt);
      ReviewKnownStep(lines, s, order, phase, attempt);
    }
  }

  lemma ReviewKnownStep(lines: seq<Sample>, s: Sample, order: string, phase: string, attempt: int)
    requires lines != [] && s == lines[|lines| - 1] && FileLine(s) && Phase(phase)
    ensures SourceMetric(s.name) && LastKey(lines) == ReviewKey(order, phase, attempt)
      <==> s.name == REVIEW_METRIC && OrderOf(s) == order && PhaseOf(s) == phase && attempt == ReviewsOf(lines, order, phase)
  {
    MetricsDiffer();
    if s.name == REVIEW_METRIC {
      NotPresence(s);
      if LastKey(lines) == ReviewKey(order, phase, attempt) {
        ReviewKeyInjective(OrderOf(s), PhaseOf(s), ReviewsOf(lines, OrderOf(s), PhaseOf(s)), order, phase, attempt);
      }
    } else if SourceMetric(s.name) {
      LastKeyLetter(lines);
      KeyFamilies(order, phase, attempt, "", "");
    }
  }

  lemma LastKeyLetter(lines: seq<Sample>)
    requires lines != [] && SourceMetric(lines[|lines| - 1].name)
    ensures LastKey(lines)[..1] == var name := lines[|lines| - 1].name;
      if name == LAUNCH_METRIC then "l" else if name == PROMOTION_METRIC then "p"
      else if name == SETTLEMENT_METRIC then "s" else if name == REVIEW_METRIC then "r" else "c"
  {
    var s := lines[|lines| - 1];
    MetricsDiffer();
    KeyFamilies(OrderOf(s), PhaseOf(s), ReviewsOf(lines, OrderOf(s), PhaseOf(s)), SpendEvent(s), AttributionOf(s));
  }

  /** Some spend of the file comes back under this event and class. */
  ghost predicate SpendIn(lines: seq<Sample>, event: string, attribution: string)
  {
    exists s :: s in lines && ComesBackAs(s, event, attribution)
  }

  predicate ComesBackAs(s: Sample, event: string, attribution: string)
  {
    s.name == COST_METRIC && AttributionOf(s) == attribution && SpendEvent(s) == event
  }

  lemma SpendInSnoc(lines: seq<Sample>, event: string, attribution: string)
    requires lines != []
    ensures SpendIn(lines, event, attribution) <==>
      ComesBackAs(lines[|lines| - 1], event, attribution) || SpendIn(lines[..|lines| - 1], event, attribution)
  {
    var front, s := lines[..|lines| - 1], lines[|lines| - 1];
    assert lines == front + [s] && s in lines;
    if SpendIn(front, event, attribution) {
      var t :| t in front && ComesBackAs(t, event, attribution);
      assert t in lines;
    }
  }

  /** Spend is known after a resume exactly under the event ids that the file's spend comes back with. */
  lemma {:induction false} SpendKnown(lines: seq<Sample>, event: string, attribution: string)
    requires Attribution(attribution) && forall s :: s in lines ==> FileLine(s)
    ensures LastUnder(lines, CostKey(event, attribution)).Some? <==> SpendIn(lines, event, attribution)
  {
    if lines != [] {
      var s := lines[|lines| - 1];
      assert s in lines;
      SpendKnown(lines[..|lines| - 1], event, attribution);
      SpendInSnoc(lines, event, attribution);
      SpendKnownStep(lines, s, event, attribution);
    }
  }

  lemma SpendKnownStep(lines: seq<Sample>, s: Sample, event: string, attribution: string)
    requires lines != [] && s == lines[|lines| - 1] && FileLine(s) && Attribution(attribution)
    ensures SourceMetric(s.name) && LastKey(lines) == CostKey(event, attribution) <==> ComesBackAs(s, event, attribution)
  {
    MetricsDiffer();
    if SourceMetric(s.name) {
      NotPresence(s);
      if s.name == COST_METRIC {
        if LastKey(lines) == CostKey(event, attribution) {
          CostKeyInjective(SpendEvent(s), AttributionOf(s), event, attribution);
        }
      } else {
        LastKeyLetter(lines);
        KeyFamilies("", "", 0, event, attribution);
      }
    }
  }

  /** The key of an order's launch, promotion or settlement. */
  function OnceKey(metric: string, order: string): string
  {
    if metric == LAUNCH_METRIC then LaunchKey(order)
    else if metric == PROMOTION_METRIC then PromotionKey(order)
    else SettlementKey(order)
  }

  lemma OnceKeyInjective(metric: string, order: string, metric': string, order': string)
    requires OncePerOrder(metric) && OncePerOrder(metric') && OnceKey(metric, order) == OnceKey(metric', order')
    ensures metric == metric' && order == order'
  {
    KeyFamilies(order, "", 0, "", "");
    KeyFamilies(order', "", 0, "", "");
    if metric == LAUNCH_METRIC { PrefixCancels("launch:", order, order'); }
    else if metric == PROMOTION_METRIC { PrefixCancels("promotion:", order, order'); }
    else { PrefixCancels("settlement:", order, order'); }
  }

  ghost predicate LineOf(lines: seq<Sample>, metric: string, order: string)
  {
    exists s :: s in lines && s.name == metric && OrderOf(s) == order
  }

  lemma LineOfSnoc(lines: seq<Sample>, metric: string, order: string)
    requires lines != []
    ensures LineOf(lines, metric, order) <==>
      (lines[|lines| - 1].name == metric && OrderOf(lines[|lines| - 1]) == order) || LineOf(lines[..|lines| - 1], metric, order)
  {
    var front, s := lines[..|lines| - 1], lines[|lines| - 1];
    assert lines == front + [s] && s in lines;
    if LineOf(front, metric, order) {
      var t :| t in front && t.name == metric && OrderOf(t) == order;
      assert t in lines;
    }
  }

  /** A launch, promotion or settlement is known after a resume exactly if the file shows it. */
  lemma {:induction false} OnceKnown(lines: seq<Sample>, metric: string, order: string)
    requires OncePerOrder(metric)
    ensures LastUnder(lines, OnceKey(metric, order)).Some? <==> LineOf(lines, metric, order)
  {
    if lines != [] {
      OnceKnown(lines[..|lines| - 1], metric, order);
      LineOfSnoc(lines, metric, order);
      OnceKnownStep(lines, lines[|lines| - 1], metric, order);
    }
  }

  lemma OnceKnownStep(lines: seq<Sample>, s: Sample, metric: string, order: string)
    requires lines != [] && s == lines[|lines| - 1] && OncePerOrder(metric)
    ensures SourceMetric(s.name) && LastKey(lines) == OnceKey(metric, order) <==> s.name == metric && OrderOf(s) == order
  {
    MetricsDiffer();
    if OncePerOrder(s.name) {
      if LastKey(lines) == OnceKey(metric, order) { OnceKeyInjective(s.name, OrderOf(s), metric, order); }
    } else if SourceMetric(s.name) {
      LastKeyLetter(lines);
      KeyFamilies(order, "", 0, "", "");
    }
  }

  // ----- what is rebuilt ----------------------------------------------------

  lemma KeyedStep(r: Rehydration, s: Sample)
    requires Keyed(r.plane) && FileLine(s)
    ensures Keyed(Absorb(r, s).plane)
  {
    if Source(s) {
      AbsorbSource(r, s);
      RestoredKeyFits(r, s);
      AssignKeyed(r.plane, RestoredKey(r, s), s);
    } else {
      PresenceLineLabels(s);
      AbsorbOther(r, s);
    }
  }

  lemma {:induction false} RehydratedKeyed(lines: seq<Sample>)
    requires forall s :: s in lines ==> FileLine(s)
    ensures Keyed(Rehydrated(FRESH, lines).plane)
  {
    if lines != [] {
      RehydratedKeyed(lines[..|lines| - 1]);
      assert lines[|lines| - 1] in lines;
      KeyedStep(Rehydrated(FRESH, lines[..|lines| - 1]), lines[|lines| - 1]);
    }
  }

  lemma {:induction false} LastUnderIs(lines: seq<Sample>, key: string) returns (n: nat)
    requires LastUnder(lines, key).Some?
    ensures 0 < n <= |lines| && lines[n - 1] == LastUnder(lines, key).value
    ensures SourceMetric(lines[n - 1].name) && LastKey(lines[..n]) == key
  {
    if SourceMetric(lines[|lines| - 1].name) && LastKey(lines) == key {
      n := |lines|;
      assert lines[..n] == lines;
    } else {
      var front := lines[..|lines| - 1];
      n := LastUnderIs(front, key);
      assert front[..n] == lines[..n] && front[n - 1] == lines[n - 1];
    }
  }

  lemma EntryIsLast(lines: seq<Sample>, e: (string, Sample))
    requires Keyed(Rehydrated(FRESH, lines).plane) && e in Rehydrated(FRESH, lines).plane.samples
    ensures LastUnder(lines, e.0) == Some(e.1)
  {
    RebuiltHolds(lines, e.0);
    EntryIsGet(Rehydrated(FRESH, lines).plane.samples, e.0, e.1, Sample("", [], 0));
  }

  lemma LastSpendKey(lines: seq<Sample>)
    requires lines != [] && lines[|lines| - 1].name == COST_METRIC
    ensures LastKey(lines) == RestoredCostKey(lines[|lines| - 1])
  {
    MetricsDiffer();
    RestoredCostKeyIs(lines[|lines| - 1]);
  }

  /** An entry of the rebuilt plane is a line of the file; spend is filed under its restored key. */
  lemma EntryIsLine(lines: seq<Sample>, e: (string, Sample))
    requires Keyed(Rehydrated(FRESH, lines).plane) && e in Rehydrated(FRESH, lines).plane.samples
    ensures e.1 in lines && (e.1.name == COST_METRIC ==> e.0 == RestoredCostKey(e.1))
  {
    EntryIsLast(lines, e);
    LastUnderIsLine(lines, e.0, e.1);
  }

  lemma LastUnderIsLine(lines: seq<Sample>, key: string, s: Sample)
    requires LastUnder(lines, key) == Some(s)
    ensures s in lines && (s.name == COST_METRIC ==> key == RestoredCostKey(s))
  {
    var n := LastUnderIs(lines, key);
    assert lines[n - 1] in lines && lines[..n][n - 1] == s;
    if s.name == COST_METRIC { LastSpendKey(lines[..n]); }
  }

  /** Some entry has the metric and the order of this line. */
  ghost predicate Shown(samples: Dict<string, Sample>, s: Sample)
  {
    exists e :: e in samples && e.1.name == s.name && OrderOf(e.1) == OrderOf(s)
  }

  lemma {:induction false} ReviewIsCounted(lines: seq<Sample>, s: Sample)
    requires s in lines && s.name == REVIEW_METRIC
    ensures ReviewsOf(lines, OrderOf(s), PhaseOf(s)) >= 1
  {
    if s != lines[|lines| - 1] { ReviewIsCounted(lines[..|lines| - 1], s); }
  }

  lemma RehydrationShows(lines: seq<Sample>, s: Sample)
    requires (forall t :: t in lines ==> FileLine(t)) && s in lines && Source(s) && s.name != COST_METRIC
    ensures Shown(Rehydrated(FRESH, lines).plane.samples, s)
  {
    var q := Rehydrated(FRESH, lines).plane;
    var key := if s.name == REVIEW_METRIC then ReviewKey(OrderOf(s), PhaseOf(s), 1) else OnceKey(s.name, OrderOf(s));
    MetricsDiffer();
    if s.name == REVIEW_METRIC {
      ReviewIsCounted(lines, s);
      ReviewsKnown(lines, OrderOf(s), PhaseOf(s), 1);
    } else {
      OnceKnown(lines, s.name, OrderOf(s));
    }
    RebuiltHolds(lines, key);
    RehydratedKeyed(lines);
    GetIsEntry(q.samples, key, Sample("", [], 0));
    SameKey(key, s, Get(q.samples, key, Sample("", [], 0)));
  }

  // ----- the lifecycle tables -----------------------------------------------

  ghost predicate Witness(lines: seq<Sample>, order: string, lifecycle: string)
  {
    exists s :: s in lines && Source(s) && s.name == MetricOf(lifecycle) && OrderOf(s) == order
  }

  ghost predicate FactRight(facts: map<string, set<string>>, lines: seq<Sample>, o: string, l: string)
  {
    l in Of(facts, o) <==> o != "" && l in LIFECYCLES && Witness(lines, o, l)
  }

  predicate AbsentRight(absent: map<string, set<string>>, lines: seq<Sample>, o: string, l: string)
  {
    l in Of(absent, o) <==> o != "" && l in LIFECYCLES && PresenceSample(o, l, 0) in lines
  }

  ghost predicate TablesRebuilt(p: Plane, lines: seq<Sample>)
  {
    && (forall o, l :: FactRight(p.facts, lines, o, l))
    && (forall o, l :: AbsentRight(p.absent, lines, o, l))
    && TablesFit(p)
  }

  lemma WitnessSnoc(lines: seq<Sample>, s: Sample, o: string, l: string)
    ensures Witness(lines + [s], o, l)
      <==> Witness(lines, o, l) || (Source(s) && s.name == MetricOf(l) && OrderOf(s) == o)
  {
    var more := lines + [s];
    assert more[|lines|] == s;
    if Witness(lines, o, l) {
      var t :| t in lines && Source(t) && t.name == MetricOf(l) && OrderOf(t) == o;
      assert t in more;
    }
  }

  lemma SourceFactsStep(facts: map<string, set<string>>, lines: seq<Sample>, s: Sample, o: string, l: string)
    requires FactRight(facts, lines, o, l) && Source(s)
    ensures FactRight(RestoredFacts(facts, s), lines + [s], o, l)
  {
    WitnessSnoc(lines, s, o, l);
    LifecycleMetric(l);
    if s.name != COST_METRIC {
      MetricLifecycle(s.name);
      AddedOf(facts, OrderOf(s), LifecycleOf(s.name), o, l);
    }
  }

  lemma AddedOf(facts: map<string, set<string>>, order: string, lifecycle: string, o: string, l: string)
    ensures l in Of(Add(facts, order, lifecycle), o) <==> l in Of(facts, o) || (o == order && l == lifecycle)
  {
  }

  lemma NotInTail(lines: seq<Sample>, s: Sample, t: Sample)
    requires s != t
    ensures t in lines + [s] <==> t in lines
  {
  }

  lemma SourceTablesStep(r: Rehydration, lines: seq<Sample>, s: Sample)
    requires TablesRebuilt(r.plane, lines) && Source(s)
    ensures TablesRebuilt(Absorb(r, s).plane, lines + [s])
  {
    AbsorbSource(r, s);
    var p, q := r.plane, Absorb(r, s).plane;
    forall o, l ensures FactRight(q.facts, lines + [s], o, l) {
      assert FactRight(p.facts, lines, o, l);
      SourceFactsStep(p.facts, lines, s, o, l);
    }
    forall o, l ensures AbsentRight(q.absent, lines + [s], o, l) {
      MetricsDiffer();
      NotInTail(lines, s, PresenceSample(o, l, 0));
      assert AbsentRight(p.absent, lines, o, l);
    }
  }

  lemma PresenceAbsentStep(p: Plane, lines: seq<Sample>, s: Sample, o: string, l: string)
    requires PresenceLine(s) && AbsentRight(p.absent, lines, o, l)
    ensures var absent := if OrderOf(s) != "" && s.value == 0 then Add(p.absent, OrderOf(s), s.labels[0].1) else p.absent;
      AbsentRight(absent, lines + [s], o, l)
  {
    PresenceLineLabels(s);
    var more := lines + [s];
    assert more[|lines|] == s;
    if PresenceSample(o, l, 0) == s {
      PresenceSampleInjective(o, l, 0, OrderOf(s), s.labels[0].1, s.value);
    } else {
      NotInTail(lines, s, PresenceSample(o, l, 0));
    }
  }

  lemma PresenceFactsStep(facts: map<string, set<string>>, lines: seq<Sample>, s: Sample, o: string, l: string)
    requires FactRight(facts, lines, o, l) && PresenceLine(s)
    ensures FactRight(facts, lines + [s], o, l)
  {
    PresenceLineLabels(s);
    WitnessSnoc(lines, s, o, l);
  }

  lemma PresenceTablesStep(r: Rehydration, lines: seq<Sample>, s: Sample)
    requires TablesRebuilt(r.plane, lines) && PresenceLine(s)
    ensures TablesRebuilt(Absorb(r, s).plane, lines + [s])
  {
    AbsorbPresence(r, s);
    var p, q := r.plane, Absorb(r, s).plane;
    forall o, l ensures FactRight(q.facts, lines + [s], o, l) {
      assert FactRight(p.facts, lines, o, l);
      PresenceFactsStep(p.facts, lines, s, o, l);
    }
    forall o, l ensures AbsentRight(q.absent, lines + [s], o, l) {
      assert AbsentRight(p.absent, lines, o, l);
      PresenceAbsentStep(p, lines, s, o, l);
    }
  }

  lemma {:induction false} TablesAreRebuilt(lines: seq<Sample>)
    requires forall s :: s in lines ==> FileLine(s)
    ensures TablesRebuilt(Rehydrated(FRESH, lines).plane, lines)
  {
    if lines != [] {
      var front, last := lines[..|lines| - 1], lines[|lines| - 1];
      assert lines == front + [last] && last in lines;
      TablesAreRebuilt(front);
      if Source(last) {
        SourceTablesStep(Rehydrated(FRESH, front), front, last);
      } else {
        PresenceTablesStep(Rehydrated(FRESH, front), front, last);
      }
    }
  }

  // ----- nothing is overwritten, if spend is told apart ---------------------

  /** The facts of a file, presence left out. */
  function Sources(lines: seq<Sample>): seq<Sample>
  {
    if lines == [] then []
    else Sources(lines[..|lines| - 1])
         + if lines[|lines| - 1].name == PRESENCE_METRIC then [] else [lines[|lines| - 1]]
  }

  /** A line that comes back under the key of an earlier one. */
  predicate Replaces(s: Sample, t: Sample)
  {
    && s.name == t.name && OrderOf(s) == OrderOf(t)
    && (OncePerOrder(s.name) || (s.name == COST_METRIC && AttributionOf(s) == AttributionOf(t)))
  }

  /** No two launches, promotions or settlements of one order, and no two spend series of one
      order and attribution. */
  predicate Single(lines: seq<Sample>) { forall i, j :: 0 <= i < j < |lines| ==> !Replaces(lines[j], lines[i]) }

  ghost predicate Repeats(front: seq<Sample>, s: Sample) { exists t :: t in front && Replaces(s, t) }

  lemma SingleSnoc(front: seq<Sample>, s: Sample)
    ensures Single(front + [s]) <==> Single(front) && !Repeats(front, s)
  {
    var lines := front + [s];
    assert forall i :: 0 <= i < |front| ==> lines[i] == front[i] && front[i] in front;
    assert lines[|front|] == s;
  }

  /** A key is taken exactly if the line repeats an earlier one. */
  lemma TakenKey(front: seq<Sample>, s: Sample)
    requires (forall t :: t in front ==> FileLine(t)) && Source(s)
    ensures LastUnder(front, LastKey(front + [s])).Some? <==> Repeats(front, s)
  {
    var lines := front + [s];
    assert lines[..|lines| - 1] == front;
    MetricsDiffer();
    if s.name == REVIEW_METRIC {
      ReviewsKnown(front, OrderOf(s), PhaseOf(s), ReviewsOf(lines, OrderOf(s), PhaseOf(s)));
    } else if s.name == COST_METRIC {
      SpendTakesKey(front, s);
    } else {
      OnceKnown(front, s.name, OrderOf(s));
      if LineOf(front, s.name, OrderOf(s)) {
        var t :| t in front && t.name == s.name && OrderOf(t) == OrderOf(s);
        assert Replaces(s, t);
      }
    }
  }

  lemma SpendTakesKey(front: seq<Sample>, s: Sample)
    requires (forall t :: t in front ==> FileLine(t)) && Source(s) && s.name == COST_METRIC
    ensures LastUnder(front, CostKey(SpendEvent(s), AttributionOf(s))).Some? <==> Repeats(front, s)
  {
    SpendKnown(front, SpendEvent(s), AttributionOf(s));
    if SpendIn(front, SpendEvent(s), AttributionOf(s)) {
      var t :| t in front && ComesBackAs(t, SpendEvent(s), AttributionOf(s));
      SpendEventInjective(s, t);
      assert Replaces(s, t);
    }
    if Repeats(front, s) {
      var t :| t in front && Replaces(s, t);
      assert ComesBackAs(t, SpendEvent(s), AttributionOf(s));
    }
  }

  /** What a rebuilt dictionary holds: all facts of the file, or strictly fewer. */
  predicate Recovered(d: Dict<string, Sample>, lines: seq<Sample>)
  {
    if Single(lines) then Values(d) == Sources(lines) else |d| < |Sources(lines)|
  }

  lemma {:induction false} RebuiltSamples(lines: seq<Sample>)
    requires forall s :: s in lines ==> FileLine(s)
    ensures Recovered(Rehydrated(FRESH, lines).plane.samples, lines)
  {
    if lines != [] {
      var front, last := lines[..|lines| - 1], lines[|lines| - 1];
      assert lines == front + [last] && last in lines;
      RebuiltSamples(front);
      SingleSnoc(front, last);
      if Source(last) {
        SourceRebuilt(Rehydrated(FRESH, front), front, last);
      } else {
        PresenceLineLabels(last);
        AbsorbOther(Rehydrated(FRESH, front), last);
        MetricsDiffer();
      }
    }
  }

  lemma SourceRebuilt(r: Rehydration, front: seq<Sample>, last: Sample)
    requires (forall t :: t in front ==> FileLine(t)) && Source(last) && r == Rehydrated(FRESH, front)
    requires Recovered(r.plane.samples, front)
    ensures Recovered(Absorb(r, last).plane.samples, front + [last])
  {
    var lines := front + [last];
    var d, key := r.plane.samples, LastKey(lines);
    assert lines[..|lines| - 1] == front;
    AbsorbSource(r, last);
    LastKeyIs(lines);
    SourcesSnoc(front, last);
    SingleSnoc(front, last);
    TakenKey(front, last);
    RebuiltHolds(front, key);
    AssignKeys(d, key, last);
    if !Has(d, key) {
      AssignNew(d, key, last);
      ValuesAppend(d, (key, last));
    }
  }

  lemma SourcesSnoc(front: seq<Sample>, last: Sample)
    requires Source(last)
    ensures Sources(front + [last]) == Sources(front) + [last]
  {
    MetricsDiffer();
    assert (front + [last])[..|front|] == front;
  }
}
