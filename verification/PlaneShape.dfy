/** The invariant of a plane that was fed by its own emitters: what its facts look like, that
    their identity keys tell them apart, and that the lifecycle table agrees with the facts. */
module PlaneShape {
  import opened Text
  import opened Sorting
  import opened Dict
  import opened Exposition
  import opened RoundTrip
  import opened DataPlane
  import opened PlaneRuns

  // ----- identity keys ------------------------------------------------------

  lemma LastColon(a: string, x: string, b: string, y: string)
    requires ':' !in x && ':' !in y && a + ":" + x == b + ":" + y
    ensures a == b && x == y
  {
    RFindAt(a, ':', x);
    RFindAt(b, ':', y);
    var s := a + ":" + x;
    assert s[..|a|] == a && s[|a| + 1..] == x;
    assert s[..|b|] == b && s[|b| + 1..] == y;
  }

  lemma NoColon(n: int, phase: string, attribution: string)
    ensures ':' !in IntText(n)
    ensures Phase(phase) ==> ':' !in phase
    ensures Attribution(attribution) ==> ':' !in attribution
  {
  }

  lemma ReviewKeyInjective(o: string, ph: string, a: int, o': string, ph': string, a': int)
    requires Phase(ph) && Phase(ph') && ReviewKey(o, ph, a) == ReviewKey(o', ph', a')
    ensures o == o' && ph == ph' && a == a'
  {
    NoColon(a, ph, "");
    NoColon(a', ph', "");
    LastColon("review:" + o + ":" + ph, IntText(a), "review:" + o' + ":" + ph', IntText(a'));
    IntTextInjective(a, a');
    LastColon("review:" + o, ph, "review:" + o', ph');
    PrefixCancels("review:", o, o');
  }

  lemma CostKeyInjective(e: string, a: string, e': string, a': string)
    requires Attribution(a) && Attribution(a') && CostKey(e, a) == CostKey(e', a')
    ensures e == e' && a == a'
  {
    NoColon(0, "", a);
    NoColon(0, "", a');
    LastColon("cost:" + e, a, "cost:" + e', a');
    PrefixCancels("cost:", e, e');
  }

  /** The key families are told apart by their first letter. */
  lemma KeyFamilies(o: string, ph: string, n: int, e: string, a: string)
    ensures LaunchKey(o)[..1] == "l" && PromotionKey(o)[..1] == "p" && SettlementKey(o)[..1] == "s"
    ensures ReviewKey(o, ph, n)[..1] == "r" && CostKey(e, a)[..1] == "c"
  {
  }

  // ----- the facts ----------------------------------------------------------

  function PhaseOf(s: Sample): string { LabelOr(s.labels, "phase", "continuous") }

  function AttributionOf(s: Sample): string { LabelOr(s.labels, "attribution", "") }

  predicate SourceMetric(name: string)
  {
    name == LAUNCH_METRIC || name == REVIEW_METRIC || name == PROMOTION_METRIC
    || name == SETTLEMENT_METRIC || name == COST_METRIC
  }

  function MetricOf(lifecycle: string): string
  {
    if lifecycle == LAUNCH then LAUNCH_METRIC
    else if lifecycle == REVIEW then REVIEW_METRIC
    else if lifecycle == PROMOTION then PROMOTION_METRIC
    else SETTLEMENT_METRIC
  }

  function LifecycleOf(metric: string): string
  {
    if metric == LAUNCH_METRIC then LAUNCH
    else if metric == REVIEW_METRIC then REVIEW
    else if metric == PROMOTION_METRIC then PROMOTION
    else SETTLEMENT
  }

  lemma LifecycleMetric(lifecycle: string)
    ensures lifecycle in LIFECYCLES ==> LifecycleOf(MetricOf(lifecycle)) == lifecycle
    ensures MetricOf(lifecycle) != COST_METRIC && MetricOf(lifecycle) != PRESENCE_METRIC
    ensures SourceMetric(MetricOf(lifecycle))
  {
    MetricsDiffer();
  }

  lemma MetricLifecycle(metric: string)
    requires SourceMetric(metric) && metric != COST_METRIC
    ensures LifecycleOf(metric) in LIFECYCLES && MetricOf(LifecycleOf(metric)) == metric
  {
    MetricsDiffer();
    assert LIFECYCLES[0] == LAUNCH && LIFECYCLES[1] == REVIEW && LIFECYCLES[2] == PROMOTION && LIFECYCLES[3] == SETTLEMENT;
  }

  /** A fact as the emitters make it. */
  predicate Source(s: Sample)
  {
    && WellFormed(s) && Functional(s.labels) && SourceMetric(s.name)
    && LabelGet(s.labels, "order_id").Some?
    && (s.name == REVIEW_METRIC ==> LabelGet(s.labels, "phase").Some? && Phase(PhaseOf(s)))
    && (s.name == COST_METRIC ==> LabelGet(s.labels, "attribution").Some? && Attribution(AttributionOf(s)))
  }

  ghost predicate KeyFits(key: string, s: Sample)
  {
    && Filed(key, s)
    && (s.name == REVIEW_METRIC ==> exists a :: key == ReviewKey(OrderOf(s), PhaseOf(s), a))
    && (s.name == COST_METRIC ==> exists e :: key == CostKey(e, AttributionOf(s)))
  }

  lemma KeyLetter(key: string, s: Sample)
    requires SourceMetric(s.name) && KeyFits(key, s)
    ensures key != "" && key[..1] == (if s.name == LAUNCH_METRIC then "l" else if s.name == REVIEW_METRIC then "r"
      else if s.name == PROMOTION_METRIC then "p" else if s.name == SETTLEMENT_METRIC then "s" else "c")
  {
    MetricsDiffer();
    var a :| s.name == REVIEW_METRIC ==> key == ReviewKey(OrderOf(s), PhaseOf(s), a);
    var e :| s.name == COST_METRIC ==> key == CostKey(e, AttributionOf(s));
    KeyFamilies(OrderOf(s), PhaseOf(s), a, e, AttributionOf(s));
  }

  /** One key stands for facts of one metric, and but for spend of one order. */
  lemma SameKey(key: string, s: Sample, t: Sample)
    requires Source(s) && Source(t) && KeyFits(key, s) && KeyFits(key, t)
    ensures s.name == t.name
    ensures s.name != COST_METRIC ==> OrderOf(s) == OrderOf(t)
  {
    MetricsDiffer();
    KeyLetter(key, s);
    KeyLetter(key, t);
    var o, o' := OrderOf(s), OrderOf(t);
    if s.name == LAUNCH_METRIC { PrefixCancels("launch:", o, o'); }
    else if s.name == PROMOTION_METRIC { PrefixCancels("promotion:", o, o'); }
    else if s.name == SETTLEMENT_METRIC { PrefixCancels("settlement:", o, o'); }
    else if s.name == REVIEW_METRIC {
      var a :| key == ReviewKey(o, PhaseOf(s), a);
      var a' :| key == ReviewKey(o', PhaseOf(t), a');
      ReviewKeyInjective(o, PhaseOf(s), a, o', PhaseOf(t), a');
    }
  }

  // ----- the invariant ------------------------------------------------------

  ghost predicate Evidence(samples: Dict<string, Sample>, order: string, lifecycle: string)
  {
    exists e :: e in samples && e.1.name == MetricOf(lifecycle) && OrderOf(e.1) == order
  }

  /** The lifecycle table lists nothing without a fact, ... */
  ghost predicate Backed(samples: Dict<string, Sample>, facts: map<string, set<string>>)
  {
    forall o, l :: l in Of(facts, o) ==> l in LIFECYCLES && Evidence(samples, o, l)
  }

  /** ... and every fact of a named order. */
  predicate Listed(samples: Dict<string, Sample>, facts: map<string, set<string>>)
  {
    forall e :: e in samples && e.1.name != COST_METRIC && OrderOf(e.1) != ""
                ==> LifecycleOf(e.1.name) in Of(facts, OrderOf(e.1))
  }

  predicate TablesFit(p: Plane)
  {
    && (forall o :: o in p.facts ==> p.facts[o] != {})
    && (forall o :: o in p.absent ==> p.absent[o] != {} && forall l :: l in p.absent[o] ==> l in LIFECYCLES)
  }

  ghost predicate Keyed(p: Plane)
  {
    && Distinct(Keys(p.samples))
    && (forall k :: k in p.seen <==> Has(p.samples, k))
    && (forall e :: e in p.samples ==> Source(e.1) && KeyFits(e.0, e.1))
  }

  ghost predicate PlaneInv(p: Plane)
  {
    Keyed(p) && Backed(p.samples, p.facts) && Listed(p.samples, p.facts) && TablesFit(p)
  }

  lemma AssignKeyed(p: Plane, key: string, s: Sample)
    requires Keyed(p) && Source(s) && KeyFits(key, s)
    ensures Keyed(p.(samples := Assign(p.samples, key, s), seen := p.seen + {key}))
  {
    var q := p.(samples := Assign(p.samples, key, s), seen := p.seen + {key});
    AssignDistinct(p.samples, key, s);
    AssignFits(p.samples, key, s);
    forall k ensures k in q.seen <==> Has(q.samples, k) {
      AssignGet(p.samples, key, s, k, s);
    }
  }

  lemma AssignFits(d: Dict<string, Sample>, key: string, s: Sample)
    requires Distinct(Keys(d)) && Source(s) && KeyFits(key, s)
    requires forall e :: e in d ==> Source(e.1) && KeyFits(e.0, e.1)
    ensures forall e :: e in Assign(d, key, s) ==> Source(e.1) && KeyFits(e.0, e.1)
  {
    AssignEntries(d, key, s);
  }

  lemma NewEntry(d: Dict<string, Sample>, key: string, s: Sample)
    requires !Has(d, key)
    ensures forall e :: e in Assign(d, key, s) <==> e == (key, s) || e in d
  {
    AssignNew(d, key, s);
  }

  /** facts grown by a lifecycle that the samples bear out */
  lemma FactAdded(samples: Dict<string, Sample>, facts: map<string, set<string>>, order: string, lifecycle: string)
    requires Backed(samples, facts) && Listed(samples, facts) && lifecycle in LIFECYCLES && Evidence(samples, order, lifecycle)
    ensures Backed(samples, Add(facts, order, lifecycle)) && Listed(samples, Add(facts, order, lifecycle))
  {
    var grown := Add(facts, order, lifecycle);
    forall o, l | l in Of(grown, o) ensures l in LIFECYCLES && Evidence(samples, o, l) {
      if !(o == order && l == lifecycle) { assert l in Of(facts, o); }
    }
  }

  /** samples grown by a fact under a new key */
  lemma SampleAdded(samples: Dict<string, Sample>, facts: map<string, set<string>>, key: string, s: Sample)
    requires Backed(samples, facts) && Listed(samples, facts) && !Has(samples, key)
    requires s.name != COST_METRIC && OrderOf(s) != "" ==> LifecycleOf(s.name) in Of(facts, OrderOf(s))
    ensures Backed(Assign(samples, key, s), facts) && Listed(Assign(samples, key, s), facts)
  {
    NewEntry(samples, key, s);
    forall o, l | l in Of(facts, o) ensures l in LIFECYCLES && Evidence(Assign(samples, key, s), o, l) {
      assert Evidence(samples, o, l);
      var e :| e in samples && e.1.name == MetricOf(l) && OrderOf(e.1) == o;
      assert e in Assign(samples, key, s);
    }
  }

  /** A new fact together with its lifecycle. */
  lemma FactAndSampleAdded(samples: Dict<string, Sample>, facts: map<string, set<string>>, key: string, s: Sample)
    requires Backed(samples, facts) && Listed(samples, facts) && !Has(samples, key)
    requires SourceMetric(s.name) && s.name != COST_METRIC
    ensures var grown := Add(facts, OrderOf(s), LifecycleOf(s.name));
      Backed(Assign(samples, key, s), grown) && Listed(Assign(samples, key, s), grown)
  {
    var lifecycle := LifecycleOf(s.name);
    var more, grown := Assign(samples, key, s), Add(facts, OrderOf(s), lifecycle);
    MetricLifecycle(s.name);
    NewEntry(samples, key, s);
    assert (key, s) in more;
    assert Evidence(more, OrderOf(s), lifecycle);
    forall o, l | l in Of(grown, o) ensures l in LIFECYCLES && Evidence(more, o, l) {
      if !(o == OrderOf(s) && l == lifecycle) {
        assert l in Of(facts, o);
        assert Evidence(samples, o, l);
      var e :| e in samples && e.1.name == MetricOf(l) && OrderOf(e.1) == o;
        assert e in more;
      }
    }
  }

  /** The plane after _emit of an already sorted sample. */
  function Kept(p: Plane, key: string, s: Sample): Plane
  {
    if key in p.seen then p else p.(seen := p.seen + {key}, samples := Assign(p.samples, key, s))
  }

  /** Emitting a lifecycle fact, first time or replayed. */
  lemma RecordKeeps(p: Plane, s: Sample, key: string, lifecycle: string)
    requires PlaneInv(p) && lifecycle in LIFECYCLES && Source(s) && KeyFits(key, s) && s.name == MetricOf(lifecycle)
    ensures PlaneInv(Kept(p, key, s).(facts := Add(p.facts, OrderOf(s), lifecycle)))
  {
    LifecycleMetric(lifecycle);
    if key in p.seen {
      GetIsEntry(p.samples, key, s);
      SameKey(key, Get(p.samples, key, s), s);
      assert Evidence(p.samples, OrderOf(s), lifecycle);
      FactAdded(p.samples, p.facts, OrderOf(s), lifecycle);
    } else {
      AssignKeyed(p, key, s);
      FactAndSampleAdded(p.samples, p.facts, key, s);
    }
  }

  /** Emitting spend. */
  lemma SpendKeeps(p: Plane, s: Sample, key: string)
    requires PlaneInv(p) && Source(s) && KeyFits(key, s) && s.name == COST_METRIC
    ensures PlaneInv(Kept(p, key, s))
  {
    if key !in p.seen {
      AssignKeyed(p, key, s);
      SampleAdded(p.samples, p.facts, key, s);
    }
  }

  // ----- the emitters make such facts ---------------------------------------

  predicate Ident(k: string)
  {
    k != "" && forall i :: 0 <= i < |k| ==> 'a' <= k[i] <= 'z' || k[i] == '_'
  }

  lemma IdentIsGood(k: string)
    requires Ident(k)
    ensures WellKeyed(k) && WellNamed(k)
  {
    StripFixed(k);
  }

  lemma LaunchIsIdent()
    ensures Ident(LAUNCH_METRIC)
  {
  }

  lemma ReviewIsIdent()
    ensures Ident(REVIEW_METRIC)
  {
  }

  lemma PromotionIsIdent()
    ensures Ident(PROMOTION_METRIC)
  {
  }

  lemma SettlementIsIdent()
    ensures Ident(SETTLEMENT_METRIC)
  {
  }

  lemma CostIsIdent()
    ensures Ident(COST_METRIC)
  {
  }

  lemma PresenceIsIdent()
    ensures Ident(PRESENCE_METRIC)
  {
  }

  lemma SourceMetricIsIdent(name: string)
    requires SourceMetric(name)
    ensures Ident(name)
  {
    LaunchIsIdent();
    ReviewIsIdent();
    PromotionIsIdent();
    SettlementIsIdent();
    CostIsIdent();
  }

  lemma LabelNamesAreIdents()
    ensures Ident("order_id") && Ident("development_id") && Ident("generation") && Ident("seat") && Ident("model")
    ensures Ident("phase") && Ident("verdict") && Ident("target_ref") && Ident("via") && Ident("status")
    ensures Ident("attribution") && Ident("failure_code") && Ident("root_cause") && Ident("lifecycle")
  {
  }

  predicate IdentLabels(labels: seq<Label>) { forall l :: l in labels ==> Ident(l.0) }

  lemma EmittedWellFormed(name: string, labels: seq<Label>, value: int)
    requires SourceMetric(name) && IdentLabels(labels)
    ensures WellFormed(Sample(name, SortBy(LabelLe, labels), value))
  {
    SourceMetricIsIdent(name);
    IdentIsGood(name);
    SortByElements(LabelLe, labels);
    SortedLabelsSorted(labels);
    forall l | l in SortBy(LabelLe, labels) ensures WellKeyed(l.0) { IdentIsGood(l.0); }
  }

  lemma EmittedPhase(name: string, labels: seq<Label>, value: int, phase: string)
    requires Functional(labels) && ("phase", phase) in labels
    ensures var s := Sample(name, SortBy(LabelLe, labels), value); LabelGet(s.labels, "phase").Some? && PhaseOf(s) == phase
  {
    SortedLabels(labels, "phase", phase);
  }

  lemma EmittedAttribution(name: string, labels: seq<Label>, value: int, attribution: string)
    requires Functional(labels) && ("attribution", attribution) in labels
    ensures var s := Sample(name, SortBy(LabelLe, labels), value);
      LabelGet(s.labels, "attribution").Some? && AttributionOf(s) == attribution
  {
    SortedLabels(labels, "attribution", attribution);
  }

  lemma EmittedSource(name: string, labels: seq<Label>, value: int, order: string)
    requires SourceMetric(name) && NamesOrder(labels, order) && IdentLabels(labels)
    requires name == REVIEW_METRIC ==> exists ph :: Phase(ph) && ("phase", ph) in labels
    requires name == COST_METRIC ==> exists a :: Attribution(a) && ("attribution", a) in labels
    ensures var s := Sample(name, SortBy(LabelLe, labels), value); Source(s) && OrderOf(s) == order
  {
    EmittedWellFormed(name, labels, value);
    SortedLabels(labels, "order_id", order);
    if name == REVIEW_METRIC {
      var ph :| Phase(ph) && ("phase", ph) in labels;
      EmittedPhase(name, labels, value, ph);
    }
    if name == COST_METRIC {
      var a :| Attribution(a) && ("attribution", a) in labels;
      EmittedAttribution(name, labels, value, a);
    }
  }
}
