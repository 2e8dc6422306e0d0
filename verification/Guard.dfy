/** The decision-publish scan of scripts/check_supervisor_conformance.py. */
module Guard {
  import opened Syntax
  import Text

  /** What the scan looks for, and the (module, function) pairs it lets publish. */
  datatype Rules = Rules(literals: set<string>, names: set<string>, publishPoints: set<(string, string)>)

  const GUARD_B := Rules(
    {"work.decision.v1", "work.decision.v2"},
    {"DECISION_KIND", "DECISION_KIND_V2"},
    {("fleet_graph/dd/control_plane.py", "publish_gate_decision")})

  const DECISION_PUBLISHER_RELPATH := "fleet_graph/supervise/decision_publisher.py"

  // ----- the scan, by paths -------------------------------------------------

  predicate IsDecisionReference(rules: Rules, n: Node)
  {
    match n
    case Constant(text) => text in rules.literals
    case Name(id) => id in rules.names
    case Attribute(_, attr) => attr in rules.names
    case _ => false
  }

  predicate Exempt(rules: Rules, relpath: string, functions: seq<string>)
  {
    exists name :: name in functions && (relpath, name) in rules.publishPoints
  }

  function References(rules: Rules, arguments: seq<Node>): nat
  {
    if arguments == [] then 0
    else References(rules, arguments[..|arguments| - 1]) + if IsDecisionReference(rules, arguments[|arguments| - 1]) then 1 else 0
  }

  /** A call in a tree: where it stands, and the functions around it, outermost first. */
  datatype Site = Site(path: seq<nat>, call: Node, within: seq<string>)

  function OwnName(n: Node): seq<string> { if n.FunctionDef? then [n.name] else [] }

  /** The names of the functions a path leads through; the node it ends at is not one of them. */
  function Enclosing(root: Node, path: seq<nat>): seq<string>
    requires IsPath(root, path)
    decreases |path|
  {
    if path == [] then [] else OwnName(root) + Enclosing(Children(root)[path[0]], path[1..])
  }

  /** A call in child i, seen from n. */
  function Up(n: Node, i: nat, s: Site): Site { Site([i] + s.path, s.call, OwnName(n) + s.within) }

  function Lifted(n: Node, i: nat, sites: seq<Site>): seq<Site>
  {
    if sites == [] then []
    else
      var s := sites[|sites| - 1];
      Lifted(n, i, sites[..|sites| - 1]) + [Up(n, i, s)]
  }

  /** All calls of a tree, each before the calls inside it. */
  function Sites(n: Node): seq<Site>
    decreases n, 1
  {
    OwnSite(n) + Flat(Slots(n))
  }

  function OwnSite(n: Node): seq<Site> { if n.Call? then [Site([], n, [])] else [] }

  /** The calls in each child. */
  function Slots(n: Node): (r: seq<seq<Site>>)
    ensures |r| == |Children(n)|
    decreases n, 0
  {
    seq(|Children(n)|, i requires 0 <= i < |Children(n)| => Lifted(n, i, Sites(Children(n)[i])))
  }

  function Flat(slots: seq<seq<Site>>): seq<Site>
  {
    if slots == [] then [] else Flat(slots[..|slots| - 1]) + slots[|slots| - 1]
  }

  /** The lines reported for sites under given functions: one for each decision reference that is
      a direct argument, unless a function around the call is exempt. */
  function Reports(rules: Rules, relpath: string, functions: seq<string>, sites: seq<Site>): seq<nat>
  {
    if sites == [] then []
    else
      var s := sites[|sites| - 1];
      Reports(rules, relpath, functions, sites[..|sites| - 1])
      + if s.call.Call? && !Exempt(rules, relpath, functions + s.within)
        then Times(s.call.line, References(rules, s.call.args + s.call.keywords))
        else []
  }

  function Times(line: nat, n: nat): seq<nat> { if n == 0 then [] else Times(line, n - 1) + [line] }

  // ----- the scan, by a stack -----------------------------------------------

  lemma {:induction false} ReportsParts(rules: Rules, relpath: string, functions: seq<string>, a: seq<Site>, b: seq<Site>)
    ensures Reports(rules, relpath, functions, a + b) == Reports(rules, relpath, functions, a) + Reports(rules, relpath, functions, b)
  {
    if b == [] {
      assert a + b == a;
    } else {
      assert (a + b)[..|a + b| - 1] == a + b[..|b| - 1];
      ReportsParts(rules, relpath, functions, a, b[..|b| - 1]);
    }
  }

  lemma {:induction false} ReportsLifted(rules: Rules, relpath: string, functions: seq<string>, n: Node, i: nat, sites: seq<Site>)
    ensures Reports(rules, relpath, functions, Lifted(n, i, sites)) == Reports(rules, relpath, functions + OwnName(n), sites)
  {
    if sites != [] {
      var front, s := sites[..|sites| - 1], sites[|sites| - 1];
      var lifted := Lifted(n, i, sites);
      ReportsLifted(rules, relpath, functions, n, i, front);
      assert lifted[..|lifted| - 1] == Lifted(n, i, front);
      assert functions + (OwnName(n) + s.within) == functions + OwnName(n) + s.within;
    }
  }

  lemma ReportsSum(rules: Rules, relpath: string, functions: seq<string>, own: seq<Site>, below: seq<Site>, before: seq<nat>)
    ensures before + Reports(rules, relpath, functions, own + below)
      == before + Reports(rules, relpath, functions, own) + Reports(rules, relpath, functions, below)
  {
    ReportsParts(rules, relpath, functions, own, below);
    Text.Regrouped(before, Reports(rules, relpath, functions, own), Reports(rules, relpath, functions, below));
  }

  lemma FlatNext(slots: seq<seq<Site>>, k: nat)
    requires k < |slots|
    ensures Flat(slots[..k + 1]) == Flat(slots[..k]) + slots[k]
  {
    assert slots[..k + 1][..k] == slots[..k];
  }

  class DecisionPublishScan {
    const rules: Rules
    const relpath: string
    var functionStack: seq<string>
    var errors: seq<nat>

    constructor (rules: Rules, relpath: string)
      ensures this.rules == rules && this.relpath == relpath && functionStack == [] && errors == []
    {
      this.rules, this.relpath := rules, relpath;
      functionStack, errors := [], [];
    }

    method Visit(n: Node)
      modifies this
      ensures functionStack == old(functionStack)
      ensures errors == old(errors) + Reports(rules, relpath, functionStack, Sites(n))
      decreases n, 2
    {
      if n.FunctionDef? {
        VisitFunctionDef(n);
      } else if n.Call? {
        VisitCall(n);
      } else {
        VisitOther(n);
      }
    }

    method VisitOther(n: Node)
      requires !n.FunctionDef? && !n.Call?
      modifies this
      ensures functionStack == old(functionStack)
      ensures errors == old(errors) + Reports(rules, relpath, functionStack, Sites(n))
      decreases n, 1
    {
      assert Slots(n)[..|Children(n)|] == Slots(n) && Sites(n) == Flat(Slots(n));
      GenericVisit(n, |Children(n)|, functionStack);
    }

    method VisitFunctionDef(n: Node)
      requires n.FunctionDef?
      modifies this
      ensures functionStack == old(functionStack)
      ensures errors == old(errors) + Reports(rules, relpath, functionStack, Sites(n))
      decreases n, 1
    {
      ghost var base := functionStack;
      functionStack := functionStack + [n.name];
      GenericVisit(n, |Children(n)|, base);
      assert Slots(n)[..|Children(n)|] == Slots(n);
      functionStack := functionStack[..|functionStack| - 1];
      assert Sites(n) == Flat(Slots(n));
    }

    method VisitCall(n: Node)
      requires n.Call?
      modifies this
      ensures functionStack == old(functionStack)
      ensures errors == old(errors) + Reports(rules, relpath, functionStack, Sites(n))
      decreases n, 1
    {
      ReportsSum(rules, relpath, functionStack, OwnSite(n), Flat(Slots(n)), errors);
      Report(n);
      GenericVisit(n, |Children(n)|, functionStack);
      assert Slots(n)[..|Children(n)|] == Slots(n);
    }

    method Report(n: Node)
      requires n.Call?
      modifies this`errors
      ensures errors == old(errors) + Reports(rules, relpath, functionStack, OwnSite(n))
    {
      assert OwnSite(n)[..0] == [] && functionStack + [] == functionStack;
      if (exists name :: name in functionStack && (relpath, name) in rules.publishPoints) { return; }
      var arguments := n.args + n.keywords;
      for i := 0 to |arguments|
        invariant errors == old(errors) + Times(n.line, References(rules, arguments[..i]))
      {
        assert arguments[..i + 1][..i] == arguments[..i];
        if IsDecisionReference(rules, arguments[i]) { errors := errors + [n.line]; }
      }
      assert arguments[..|arguments|] == arguments;
    }

    /** ast.NodeVisitor.generic_visit, for the first k children. */
    method GenericVisit(n: Node, k: nat, ghost base: seq<string>)
      requires k <= |Children(n)| && functionStack == base + OwnName(n)
      modifies this
      ensures functionStack == old(functionStack)
      ensures errors == old(errors) + Reports(rules, relpath, base, Flat(Slots(n)[..k]))
      decreases n, 0, k + 1
    {
      if k > 0 {
        GenericVisit(n, k - 1, base);
        VisitChild(n, k - 1, base, old(errors));
      }
    }

    method VisitChild(n: Node, i: nat, ghost base: seq<string>, ghost before: seq<nat>)
      requires i < |Children(n)| && functionStack == base + OwnName(n)
      requires errors == before + Reports(rules, relpath, base, Flat(Slots(n)[..i]))
      modifies this
      ensures functionStack == old(functionStack)
      ensures errors == before + Reports(rules, relpath, base, Flat(Slots(n)[..i + 1]))
      decreases n, 0, 0
    {
      Visit(Children(n)[i]);
      ReportsLifted(rules, relpath, base, n, i, Sites(Children(n)[i]));
      ReportsSum(rules, relpath, base, Flat(Slots(n)[..i]), Slots(n)[i], before);
      FlatNext(Slots(n), i);
    }
  }

  method CheckNoDecisionPublish(rules: Rules, relpath: string, tree: Node) returns (errors: seq<nat>)
    ensures errors == Reports(rules, relpath, [], Sites(tree))
  {
    var scan := new DecisionPublishScan(rules, relpath);
    scan.Visit(tree);
    errors := scan.errors;
  }

  /** Guard B over one module: the sanctioned publisher is not scanned at all. */
  method CheckModule(relpath: string, tree: Node) returns (errors: seq<nat>)
    ensures errors == if relpath == DECISION_PUBLISHER_RELPATH then [] else Reports(GUARD_B, relpath, [], Sites(tree))
  {
    errors := [];
    if relpath != DECISION_PUBLISHER_RELPATH {
      errors := CheckNoDecisionPublish(GUARD_B, relpath, tree);
    }
  }

  // ----- the sites are the paths to calls -----------------------------------

  lemma {:induction false} LiftedAt(n: Node, i: nat, sites: seq<Site>)
    ensures |Lifted(n, i, sites)| == |sites|
    ensures forall k :: 0 <= k < |sites| ==>
      Lifted(n, i, sites)[k] == Up(n, i, sites[k])
  {
    if sites != [] { LiftedAt(n, i, sites[..|sites| - 1]); }
  }

  /** s describes a call of root. */
  predicate IsSite(root: Node, s: Site)
  {
    IsPath(root, s.path) && s.call == At(root, s.path) && s.call.Call? && s.within == Enclosing(root, s.path)
  }

  lemma LiftedSite(n: Node, i: nat, s: Site)
    requires i < |Children(n)| && IsSite(Children(n)[i], s)
    ensures IsSite(n, Up(n, i, s))
  {
    assert ([i] + s.path)[1..] == s.path;
  }

  lemma {:induction false} FlatHas(slots: seq<seq<Site>>, i: nat, s: Site)
    requires i < |slots| && s in slots[i]
    ensures s in Flat(slots)
  {
    if i < |slots| - 1 { FlatHas(slots[..|slots| - 1], i, s); }
  }

  lemma {:induction false} SlotOf(slots: seq<seq<Site>>, s: Site) returns (i: nat)
    requires s in Flat(slots)
    ensures i < |slots| && s in slots[i]
  {
    if s in slots[|slots| - 1] { i := |slots| - 1; } else { i := SlotOf(slots[..|slots| - 1], s); }
  }

  lemma {:induction false} SitesAreCalls(n: Node, s: Site)
    requires s in Sites(n)
    ensures IsSite(n, s)
    decreases n
  {
    if s in Flat(Slots(n)) {
      var i := SlotOf(Slots(n), s);
      var sites := Sites(Children(n)[i]);
      LiftedAt(n, i, sites);
      var j :| 0 <= j < |sites| && Slots(n)[i][j] == s;
      SitesAreCalls(Children(n)[i], sites[j]);
      LiftedSite(n, i, sites[j]);
    }
  }

  lemma ChildSite(n: Node, i: nat, t: Site)
    requires i < |Children(n)| && t in Sites(Children(n)[i])
    ensures Up(n, i, t) in Sites(n)
  {
    var sites := Sites(Children(n)[i]);
    LiftedAt(n, i, sites);
    var j :| 0 <= j < |sites| && sites[j] == t;
    FlatHas(Slots(n), i, Slots(n)[i][j]);
  }

  function SiteAt(n: Node, path: seq<nat>): Site
    requires IsPath(n, path)
  {
    Site(path, At(n, path), Enclosing(n, path))
  }

  lemma SiteAtUp(n: Node, path: seq<nat>)
    requires path != [] && IsPath(n, path)
    ensures SiteAt(n, path) == Up(n, path[0], SiteAt(Children(n)[path[0]], path[1..]))
  {
    assert [path[0]] + path[1..] == path;
  }

  lemma {:induction false} CallsAreSites(n: Node, path: seq<nat>)
    requires IsPath(n, path) && At(n, path).Call?
    ensures SiteAt(n, path) in Sites(n)
    decreases |path|
  {
    if path != [] {
      var child := Children(n)[path[0]];
      CallsAreSites(child, path[1..]);
      SiteAtUp(n, path);
      ChildSite(n, path[0], SiteAt(child, path[1..]));
    }
  }

  /** One path is before another: it leads to a node around it, or to the left of it. */
  predicate Earlier(a: seq<nat>, b: seq<nat>) { exists k :: 0 <= k <= |a| && k < |b| && PartsAt(a, b, k) }

  predicate PartsAt(a: seq<nat>, b: seq<nat>, k: nat)
    requires k <= |a| && k < |b|
  {
    a[..k] == b[..k] && (k == |a| || a[k] < b[k])
  }

  predicate InOrder(sites: seq<Site>) { forall i, j :: 0 <= i < j < |sites| ==> Earlier(sites[i].path, sites[j].path) }

  /** The paths of the sites start with i. */
  predicate AllUnder(sites: seq<Site>, i: nat)
  {
    forall j :: 0 <= j < |sites| ==> sites[j].path != [] && sites[j].path[0] == i
  }

  lemma LeftIsEarlier(a: seq<nat>, b: seq<nat>)
    requires b != [] && (a == [] || a[0] < b[0])
    ensures Earlier(a, b)
  {
    assert PartsAt(a, b, 0);
  }

  lemma EarlierUnder(i: nat, a: seq<nat>, b: seq<nat>)
    requires Earlier(a, b)
    ensures Earlier([i] + a, [i] + b)
  {
    var k :| 0 <= k <= |a| && k < |b| && PartsAt(a, b, k);
    assert ([i] + a)[..k + 1] == [i] + a[..k] && ([i] + b)[..k + 1] == [i] + b[..k];
    assert PartsAt([i] + a, [i] + b, k + 1);
  }

  predicate Below(sites: seq<Site>, n: nat)
  {
    forall j :: 0 <= j < |sites| ==> sites[j].path != [] && sites[j].path[0] < n
  }

  lemma {:induction false} FlatInOrder(slots: seq<seq<Site>>)
    requires forall i :: 0 <= i < |slots| ==> InOrder(slots[i]) && AllUnder(slots[i], i)
    ensures InOrder(Flat(slots)) && Below(Flat(slots), |slots|)
  {
    if slots != [] {
      FlatInOrder(slots[..|slots| - 1]);
      AppendInOrder(Flat(slots[..|slots| - 1]), slots[|slots| - 1], |slots| - 1);
    }
  }

  lemma AppendInOrder(front: seq<Site>, last: seq<Site>, n: nat)
    requires InOrder(front) && Below(front, n) && InOrder(last) && AllUnder(last, n)
    ensures InOrder(front + last) && Below(front + last, n + 1)
  {
    forall i, j | 0 <= i < j < |front + last| ensures Earlier((front + last)[i].path, (front + last)[j].path) {
      if i < |front| && j >= |front| { LeftIsEarlier(front[i].path, last[j - |front|].path); }
    }
  }

  lemma LiftedInOrder(n: Node, i: nat, sites: seq<Site>)
    requires InOrder(sites)
    ensures InOrder(Lifted(n, i, sites)) && AllUnder(Lifted(n, i, sites), i)
  {
    LiftedAt(n, i, sites);
    var lifted := Lifted(n, i, sites);
    forall j, k | 0 <= j < k < |lifted| ensures Earlier(lifted[j].path, lifted[k].path) {
      EarlierUnder(i, sites[j].path, sites[k].path);
    }
  }

  lemma {:induction false} SitesInOrder(n: Node)
    ensures InOrder(Sites(n))
    decreases n
  {
    forall i | 0 <= i < |Children(n)| ensures InOrder(Slots(n)[i]) && AllUnder(Slots(n)[i], i) {
      SitesInOrder(Children(n)[i]);
      LiftedInOrder(n, i, Sites(Children(n)[i]));
    }
    FlatInOrder(Slots(n));
    OwnFirst(n);
  }

  lemma OwnFirst(n: Node)
    requires InOrder(Flat(Slots(n))) && Below(Flat(Slots(n)), |Slots(n)|)
    ensures InOrder(Sites(n))
  {
    var rest := Flat(Slots(n));
    if n.Call? {
      forall j | 0 <= j < |rest| ensures Earlier([], rest[j].path) { LeftIsEarlier([], rest[j].path); }
    }
  }

  /** The scan looks at every call of the tree once, with exactly the functions around it, and goes
      from the outside in and from left to right. */
  lemma SitesAreExactlyTheCalls(root: Node, s: Site)
    ensures s in Sites(root) <==> IsSite(root, s)
    ensures InOrder(Sites(root)) && forall i, j :: 0 <= i < j < |Sites(root)| ==> Sites(root)[i].path != Sites(root)[j].path
  {
    SitesInOrder(root);
    if s in Sites(root) { SitesAreCalls(root, s); }
    if IsSite(root, s) { CallsAreSites(root, s.path); }
  }

  /** The names of the functions around a node, outermost first. */
  lemma {:induction false} EnclosingIs(root: Node, path: seq<nat>, i: nat)
    requires IsPath(root, path + [i])
    ensures IsPath(root, path)
    ensures var n := At(root, path);
      Enclosing(root, path + [i]) == Enclosing(root, path) + if n.FunctionDef? then [n.name] else []
    decreases |path|
  {
    if path == [] {
      assert [] + [i] == [i] && [i][1..] == [];
    } else {
      assert (path + [i])[1..] == path[1..] + [i];
      EnclosingIs(Children(root)[path[0]], path[1..], i);
    }
  }

  // ----- guard B in its own literals ----------------------------------------

  /** What guard B takes for a decision: the two kinds as texts, and the two names of their constants
      wherever they come from. */
  lemma GuardReferences(n: Node)
    ensures IsDecisionReference(GUARD_B, n) <==>
      || n == Constant("work.decision.v1") || n == Constant("work.decision.v2")
      || n == Name("DECISION_KIND") || n == Name("DECISION_KIND_V2")
      || (n.Attribute? && (n.attr == "DECISION_KIND" || n.attr == "DECISION_KIND_V2"))
  {
  }

  /** The one place where guard B lets a decision be published. */
  lemma GuardExempts(relpath: string, functions: seq<string>)
    ensures Exempt(GUARD_B, relpath, functions)
      <==> relpath == "fleet_graph/dd/control_plane.py" && "publish_gate_decision" in functions
  {
    if relpath == "fleet_graph/dd/control_plane.py" && "publish_gate_decision" in functions {
      assert (relpath, "publish_gate_decision") in GUARD_B.publishPoints;
    }
  }

  lemma {:induction false} ReferencesParts(rules: Rules, a: seq<Node>, b: seq<Node>)
    ensures References(rules, a + b) == References(rules, a) + References(rules, b)
  {
    if b == [] {
      assert a + b == a;
    } else {
      assert (a + b)[..|a + b| - 1] == a + b[..|b| - 1];
      ReferencesParts(rules, a, b[..|b| - 1]);
    }
  }

  /** A call is reported on its own line, once for each of its arguments and keywords that refers to
      a decision; ReportsParts and ReferencesParts say that nothing else adds a report. */
  lemma ReportsOfOne(rules: Rules, relpath: string, call: Node, functions: seq<string>, n: Node)
    requires call.Call?
    ensures var reports := Reports(rules, relpath, [], [Site([], call, functions)]);
      && (forall line :: line in reports ==> line == call.line)
      && |reports| == if Exempt(rules, relpath, functions) then 0 else References(rules, call.args) + References(rules, call.keywords)
    ensures References(rules, [n]) == if IsDecisionReference(rules, n) then 1 else 0
  {
    var s := Site([], call, functions);
    assert [s][..0] == [] && [n][..0] == [] && [] + functions == functions;
    ReferencesParts(rules, call.args, call.keywords);
    TimesOf(call.line, References(rules, call.args + call.keywords));
  }

  /** A call that publishes a decision where it must not. */
  predicate Offends(rules: Rules, relpath: string, root: Node, path: seq<nat>)
    requires IsPath(root, path)
  {
    var call := At(root, path);
    && call.Call? && !Exempt(rules, relpath, Enclosing(root, path))
    && exists a :: a in call.args + call.keywords && IsDecisionReference(rules, a)
  }

  lemma {:induction false} ReferencesSome(rules: Rules, arguments: seq<Node>)
    ensures References(rules, arguments) > 0 <==> exists a :: a in arguments && IsDecisionReference(rules, a)
  {
    if arguments != [] { ReferencesSome(rules, arguments[..|arguments| - 1]); }
  }

  lemma {:induction false} TimesOf(line: nat, n: nat)
    ensures |Times(line, n)| == n && forall x :: x in Times(line, n) ==> x == line
  {
    if n > 0 { TimesOf(line, n - 1); }
  }

  predicate Reported(rules: Rules, relpath: string, s: Site)
  {
    s.call.Call? && !Exempt(rules, relpath, s.within) && References(rules, s.call.args + s.call.keywords) > 0
  }

  lemma {:induction false} ReportedLines(rules: Rules, relpath: string, sites: seq<Site>, line: nat)
    ensures line in Reports(rules, relpath, [], sites) <==> exists s :: s in sites && Reported(rules, relpath, s) && s.call.line == line
  {
    if sites != [] {
      var s := sites[|sites| - 1];
      ReportedLines(rules, relpath, sites[..|sites| - 1], line);
      assert [] + s.within == s.within;
      if s.call.Call? {
        var n := References(rules, s.call.args + s.call.keywords);
        TimesOf(s.call.line, n);
        if n > 0 { assert Times(s.call.line, n)[0] in Times(s.call.line, n); }
      }
    }
  }

  /** A line is reported exactly when an offending call stands on it. */
  lemma ScanReportsOffences(rules: Rules, relpath: string, root: Node, line: nat)
    ensures line in Reports(rules, relpath, [], Sites(root))
      <==> exists path :: IsPath(root, path) && Offends(rules, relpath, root, path) && At(root, path).line == line
  {
    ReportedLines(rules, relpath, Sites(root), line);
    if s :| s in Sites(root) && Reported(rules, relpath, s) && s.call.line == line {
      SitesAreCalls(root, s);
      ReferencesSome(rules, s.call.args + s.call.keywords);
      assert IsPath(root, s.path) && Offends(rules, relpath, root, s.path);
    }
    if path :| IsPath(root, path) && Offends(rules, relpath, root, path) && At(root, path).line == line {
      var call := At(root, path);
      CallsAreSites(root, path);
      ReferencesSome(rules, call.args + call.keywords);
      assert Reported(rules, relpath, SiteAt(root, path));
    }
  }
}
