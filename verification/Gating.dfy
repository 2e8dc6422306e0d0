/** Write gating of scripts/check_supervisor_conformance.py: a function that calls a write primitive
    must call the gate. */
module Gating {
  import Guard
  import opened Syntax

  datatype Spec = Spec(primitives: set<string>, gates: set<string>)

  const HARVEST_RELPATH := "fleet_graph/supervise/harvest.py"
  const E6_STOP_RELPATH := "fleet_graph/supervise/e6_stop.py"

  const HARVEST := Spec(
    {"git", "git_argv", "run_git", "cherry_pick", "merge", "push", "pull", "squash_merge", "worktree", "commit",
     "subprocess", "Popen", "check_call", "check_output", "run_process", "os.system", "shutil", "deploy", "exec",
     "fetch_dd_ref", "worktree_cherry_pick", "remove_worktree", "run_verify", "pr_squash_merge", "ff_only_pull", "verify_real"},
    {"authorize_harvest_write", "authorize"})

  const E6_STOP := Spec(
    {"stop_unit", "systemctl", "systemd", "subprocess", "Popen", "check_call", "check_output", "os.system", "exec"},
    {"authorize_e6_stop", "authorize"})

  datatype Diagnostic =
    | UngatedFunction(line: nat, name: string, writes: set<string>)
    | UngatedModule(writes: set<string>)

  // ----- called names -------------------------------------------------------

  /** What one call is known by: its name, or its attribute and a plain name before the dot. */
  function NamesOf(n: Node): set<string>
  {
    if !n.Call? then {}
    else
      match n.func
      case Name(id) => {id}
      case Attribute(value, attr) => {attr} + if value.Name? then {value.id} else {}
      case _ => {}
  }

  function NamesIn(nodes: seq<Node>): set<string>
  {
    if nodes == [] then {} else NamesIn(nodes[..|nodes| - 1]) + NamesOf(nodes[|nodes| - 1])
  }

  lemma NamesNext(nodes: seq<Node>, i: nat)
    requires i < |nodes|
    ensures NamesIn(nodes[..i + 1]) == NamesIn(nodes[..i]) + NamesOf(nodes[i])
  {
    assert nodes[..i + 1][..i] == nodes[..i];
  }

  method CalledNames(tree: Node) returns (names: set<string>)
    ensures names == NamesIn(Walk(tree))
  {
    var nodes := WalkNodes(tree);
    names := {};
    for i := 0 to |nodes|
      invariant names == NamesIn(nodes[..i])
    {
      NamesNext(nodes, i);
      var n := nodes[i];
      if !n.Call? { continue; }
      if n.func.Name? {
        names := names + {n.func.id};
      } else if n.func.Attribute? {
        names := names + {n.func.attr};
        if n.func.value.Name? { names := names + {n.func.value.id}; }
      }
    }
    assert nodes[..|nodes|] == nodes;
  }

  // ----- the check ----------------------------------------------------------

  function Verdict(spec: Spec, n: Node): seq<Diagnostic>
  {
    var called := NamesIn(Walk(n));
    if n.FunctionDef? && called * spec.primitives != {} && called * spec.gates == {}
    then [UngatedFunction(n.line, n.name, called * spec.primitives)]
    else []
  }

  function Verdicts(spec: Spec, nodes: seq<Node>): seq<Diagnostic>
  {
    if nodes == [] then [] else Verdicts(spec, nodes[..|nodes| - 1]) + Verdict(spec, nodes[|nodes| - 1])
  }

  function Diagnosed(spec: Spec, tree: Node): seq<Diagnostic>
  {
    var called := NamesIn(Walk(tree));
    Verdicts(spec, Walk(tree))
    + if called * spec.primitives != {} && called * spec.gates == {} then [UngatedModule(called * spec.primitives)] else []
  }

  /** The exemption in the source never applies: its two names do not start with '_'. */
  predicate NamedExempt(name: string)
  {
    name != "" && name[0] == '_' && name in {"authorize_harvest_write", "authorize_e6_stop"}
  }

  lemma NoneIsExempt(name: string)
    ensures !NamedExempt(name)
  {
  }

  method CheckFunction(spec: Spec, n: Node) returns (found: seq<Diagnostic>)
    ensures found == Verdict(spec, n)
  {
    if !n.FunctionDef? { return []; }
    NoneIsExempt(n.name);
    if NamedExempt(n.name) { return []; }
    var called := CalledNames(n);
    var writes := called * spec.primitives;
    if writes == {} { return []; }
    if called * spec.gates == {} { return [UngatedFunction(n.line, n.name, writes)]; }
    found := [];
  }

  method CheckFunctions(spec: Spec, nodes: seq<Node>) returns (errors: seq<Diagnostic>)
    ensures errors == Verdicts(spec, nodes)
  {
    errors := [];
    for i := 0 to |nodes|
      invariant errors == Verdicts(spec, nodes[..i])
    {
      assert nodes[..i + 1][..i] == nodes[..i];
      var found := CheckFunction(spec, nodes[i]);
      errors := errors + found;
    }
    assert nodes[..|nodes|] == nodes;
  }

  method CheckWriteGating(spec: Spec, tree: Node) returns (errors: seq<Diagnostic>)
    ensures errors == Diagnosed(spec, tree)
  {
    var nodes := WalkNodes(tree);
    errors := CheckFunctions(spec, nodes);
    var called := CalledNames(tree);
    if called * spec.primitives != {} && called * spec.gates == {} {
      errors := errors + [UngatedModule(called * spec.primitives)];
    }
  }

  /** Guards D and E look at one module each. */
  method CheckModule(relpath: string, tree: Node) returns (errors: seq<Diagnostic>)
    ensures errors == if relpath == HARVEST_RELPATH then Diagnosed(HARVEST, tree)
                      else if relpath == E6_STOP_RELPATH then Diagnosed(E6_STOP, tree)
                      else []
  {
    errors := [];
    if relpath == HARVEST_RELPATH {
      errors := CheckWriteGating(HARVEST, tree);
    } else if relpath == E6_STOP_RELPATH {
      errors := CheckWriteGating(E6_STOP, tree);
    }
  }

  // ----- what a clean check means -------------------------------------------

  /** Somewhere inside n one of the names is called. */
  ghost predicate CallsAny(n: Node, names: set<string>)
  {
    exists c :: Within(n, c) && NamesOf(c) * names != {}
  }

  ghost predicate Gated(spec: Spec, n: Node) { CallsAny(n, spec.primitives) ==> CallsAny(n, spec.gates) }

  lemma {:induction false} NamesInSome(nodes: seq<Node>, names: set<string>)
    ensures NamesIn(nodes) * names != {} <==> exists c :: c in nodes && NamesOf(c) * names != {}
  {
    if nodes != [] {
      var front, last := nodes[..|nodes| - 1], nodes[|nodes| - 1];
      NamesInSome(front, names);
      assert NamesIn(nodes) * names == NamesIn(front) * names + NamesOf(last) * names;
      if NamesOf(last) * names != {} { assert last in nodes; }
    }
  }

  lemma CallsAnyIsCalled(n: Node, names: set<string>)
    ensures CallsAny(n, names) <==> NamesIn(Walk(n)) * names != {}
  {
    NamesInSome(Walk(n), names);
    forall c ensures c in Walk(n) <==> Within(n, c) { WalkIsWithin(n, c); }
  }

  lemma VerdictIsGated(spec: Spec, n: Node)
    ensures Verdict(spec, n) == [] <==> (n.FunctionDef? ==> Gated(spec, n))
  {
    CallsAnyIsCalled(n, spec.primitives);
    CallsAnyIsCalled(n, spec.gates);
  }

  lemma {:induction false} VerdictsClean(spec: Spec, nodes: seq<Node>)
    ensures Verdicts(spec, nodes) == [] <==> forall n :: n in nodes && n.FunctionDef? ==> Gated(spec, n)
  {
    if nodes != [] {
      VerdictsClean(spec, nodes[..|nodes| - 1]);
      VerdictIsGated(spec, nodes[|nodes| - 1]);
      assert forall n :: n in nodes <==> n in nodes[..|nodes| - 1] || n == nodes[|nodes| - 1];
    }
  }

  /** A module passes exactly when every function that calls a write primitive anywhere inside it
      also calls the gate inside it, and the module as a whole does too. */
  lemma CleanMeansGated(spec: Spec, tree: Node)
    ensures Diagnosed(spec, tree) == []
      <==> (forall f :: Within(tree, f) && f.FunctionDef? ==> Gated(spec, f)) && Gated(spec, tree)
  {
    VerdictsClean(spec, Walk(tree));
    forall n ensures n in Walk(tree) <==> Within(tree, n) { WalkIsWithin(tree, n); }
    CallsAnyIsCalled(tree, spec.primitives);
    CallsAnyIsCalled(tree, spec.gates);
  }

  lemma {:induction false} VerdictsParts(spec: Spec, a: seq<Node>, b: seq<Node>)
    ensures Verdicts(spec, a + b) == Verdicts(spec, a) + Verdicts(spec, b)
  {
    if b == [] {
      assert a + b == a;
    } else {
      assert (a + b)[..|a + b| - 1] == a + b[..|b| - 1];
      VerdictsParts(spec, a, b[..|b| - 1]);
    }
  }

  lemma {:induction false} VerdictsSay(spec: Spec, nodes: seq<Node>, d: Diagnostic)
    ensures d in Verdicts(spec, nodes) <==> exists n :: n in nodes && d in Verdict(spec, n)
  {
    if nodes != [] {
      VerdictsSay(spec, nodes[..|nodes| - 1], d);
      assert forall n :: n in nodes <==> n in nodes[..|nodes| - 1] || n == nodes[|nodes| - 1];
    }
  }

  /** The primitives that are called somewhere inside n. */
  ghost predicate WritesOf(spec: Spec, n: Node, writes: set<string>)
  {
    forall w :: w in writes <==> w in spec.primitives && CallsAny(n, {w})
  }

  lemma WritesAre(spec: Spec, n: Node, writes: set<string>)
    ensures writes == NamesIn(Walk(n)) * spec.primitives <==> WritesOf(spec, n, writes)
  {
    forall w ensures w in NamesIn(Walk(n)) <==> CallsAny(n, {w}) {
      CallsAnyIsCalled(n, {w});
      assert w in NamesIn(Walk(n)) <==> NamesIn(Walk(n)) * {w} != {} by {
        if NamesIn(Walk(n)) * {w} != {} { var x :| x in NamesIn(Walk(n)) * {w}; }
        if w in NamesIn(Walk(n)) { assert w in NamesIn(Walk(n)) * {w}; }
      }
    }
  }

  /** What a call is known by: its plain name, or its attribute and the plain name before the dot. */
  lemma NamesOfIs(n: Node, name: string)
    ensures name in NamesOf(n) <==>
      n.Call? && (n.func == Name(name) || (n.func.Attribute? && (n.func.attr == name || n.func.value == Name(name))))
  {
  }

  ghost predicate WritesUngated(spec: Spec, f: Node, line: nat, name: string, writes: set<string>)
  {
    && f.FunctionDef? && f.line == line && f.name == name
    && CallsAny(f, spec.primitives) && !CallsAny(f, spec.gates) && WritesOf(spec, f, writes)
  }

  /** Each function is judged by itself: its diagnostic appears exactly when it writes ungated. */
  lemma DiagnosticsNameTheFunctions(spec: Spec, tree: Node, line: nat, name: string, writes: set<string>)
    ensures UngatedFunction(line, name, writes) in Diagnosed(spec, tree)
      <==> exists f :: Within(tree, f) && WritesUngated(spec, f, line, name, writes)
  {
    var d := UngatedFunction(line, name, writes);
    VerdictsSay(spec, Walk(tree), d);
    forall n ensures n in Walk(tree) <==> Within(tree, n) { WalkIsWithin(tree, n); }
    forall n ensures d in Verdict(spec, n) <==> WritesUngated(spec, n, line, name, writes) {
      CallsAnyIsCalled(n, spec.primitives);
      CallsAnyIsCalled(n, spec.gates);
      WritesAre(spec, n, writes);
    }
  }

  /** The module diagnostic looks at the tree as a whole: it appears, with all writes of the tree,
      exactly when a primitive is called somewhere in it and no gate is called anywhere in it. */
  lemma ModuleDiagnostic(spec: Spec, tree: Node, writes: set<string>)
    ensures UngatedModule(writes) in Diagnosed(spec, tree)
      <==> WritesOf(spec, tree, writes) && CallsAny(tree, spec.primitives) && !CallsAny(tree, spec.gates)
  {
    WritesAre(spec, tree, writes);
    VerdictsSay(spec, Walk(tree), UngatedModule(writes));
    CallsAnyIsCalled(tree, spec.primitives);
    CallsAnyIsCalled(tree, spec.gates);
  }

  /** A write primitive is called where no function is around. */
  ghost predicate ModuleScopeWrite(spec: Spec, tree: Node)
  {
    exists path :: IsPath(tree, path) && Guard.Enclosing(tree, path) == [] && NamesOf(At(tree, path)) * spec.primitives != {}
  }

  /** A write at module scope draws the module diagnostic exactly when no gate is called anywhere in
      the tree, at whatever place and in whatever function. */
  lemma ModuleScopeWriteIsReported(spec: Spec, tree: Node)
    requires ModuleScopeWrite(spec, tree)
    ensures (exists w :: UngatedModule(w) in Diagnosed(spec, tree)) <==> !CallsAny(tree, spec.gates)
  {
    var path :| IsPath(tree, path) && Guard.Enclosing(tree, path) == [] && NamesOf(At(tree, path)) * spec.primitives != {};
    assert Within(tree, At(tree, path));
    WritesAre(spec, tree, NamesIn(Walk(tree)) * spec.primitives);
    ModuleDiagnostic(spec, tree, NamesIn(Walk(tree)) * spec.primitives);
    if w :| UngatedModule(w) in Diagnosed(spec, tree) { ModuleDiagnostic(spec, tree, w); }
  }

  /** Such a write, and a function that calls the gate and that nothing need ever call: no
      diagnostic at all. */
  lemma ModuleScopeWriteCanPass(spec: Spec, write: string, gate: string)
    requires write in spec.primitives && gate in spec.gates && write !in spec.gates && gate !in spec.primitives
    ensures var tree := Other([Call(1, Name(write), [], []), FunctionDef("f", 2, [Call(3, Name(gate), [], [])])]);
      ModuleScopeWrite(spec, tree) && Diagnosed(spec, tree) == []
  {
    var bad, good := Call(1, Name(write), [], []), Call(3, Name(gate), [], []);
    var f := FunctionDef("f", 2, [good]);
    var tree := Other([bad, f]);
    WithinSelf(good);
    assert Children(f)[0] == good && Children(tree)[1] == f;
    WithinChild(f, 0, good);
    WithinChild(tree, 1, good);
    assert NamesOf(good) == {gate};
    assert gate in NamesOf(good) * spec.gates;
    assert CallsAny(f, spec.gates) && CallsAny(tree, spec.gates);
    forall g | Within(tree, g) && g.FunctionDef? ensures Gated(spec, g) {
      OnlyFunction(bad, f, g);
    }
    CleanMeansGated(spec, tree);
    assert Children(tree)[0] == bad && [0][1..] == [];
    assert IsPath(tree, [0]) && At(tree, [0]) == bad && Guard.Enclosing(tree, [0]) == [];
    assert write in NamesOf(bad) * spec.primitives;
  }

  lemma OnlyFunction(bad: Node, f: Node, g: Node)
    requires bad.Call? && bad.func.Name? && bad.args == bad.keywords == []
    requires f.FunctionDef? && |f.parts| == 1 && f.parts[0].Call? && f.parts[0].func.Name? && f.parts[0].args == f.parts[0].keywords == []
    requires Within(Other([bad, f]), g) && g.FunctionDef?
    ensures g == f
  {
    WithinCases(Other([bad, f]), g);
    if Within(bad, g) {
      WithinCases(bad, g);
      WithinCases(bad.func, g);
    } else if g != f {
      WithinCases(f, g);
      WithinCases(f.parts[0], g);
      WithinCases(f.parts[0].func, g);
    }
  }

  /** A primitive written with a dot is never seen: calls are known by single identifiers. */
  lemma DottedPrimitiveIsNeverSeen(tree: Node, dotted: string)
    requires '.' in dotted
    requires forall n :: Within(tree, n) ==> (n.Name? ==> '.' !in n.id) && (n.Attribute? ==> '.' !in n.attr)
    ensures !CallsAny(tree, {dotted})
  {
    if CallsAny(tree, {dotted}) {
      var c :| Within(tree, c) && NamesOf(c) * {dotted} != {};
      assert dotted in NamesOf(c);
      FuncWithin(tree, c);
    }
  }

  lemma FuncWithin(tree: Node, c: Node)
    requires Within(tree, c) && c.Call?
    ensures Within(tree, c.func) && (c.func.Attribute? ==> Within(tree, c.func.value))
  {
    assert Children(c)[0] == c.func;
    WithinDeeper(tree, c, 0);
    if c.func.Attribute? {
      assert Children(c.func)[0] == c.func.value;
      WithinDeeper(tree, c.func, 0);
    }
  }

  lemma WithinDeeper(tree: Node, n: Node, i: nat)
    requires Within(tree, n) && i < |Children(n)|
    ensures Within(tree, Children(n)[i])
  {
    var path :| IsPath(tree, path) && At(tree, path) == n;
    PathDeeper(tree, path, i);
  }

  lemma {:induction false} PathDeeper(tree: Node, path: seq<nat>, i: nat)
    requires IsPath(tree, path) && i < |Children(At(tree, path))|
    ensures IsPath(tree, path + [i]) && At(tree, path + [i]) == Children(At(tree, path))[i]
    decreases |path|
  {
    if path == [] {
      assert path + [i] == [i] && [i][1..] == [];
    } else {
      PathDeeper(Children(tree)[path[0]], path[1..], i);
      assert (path + [i])[1..] == path[1..] + [i];
    }
  }

  /** The functions come in the order of the walk, one diagnostic each at most, and the module last. */
  lemma ModuleIsLast(spec: Spec, tree: Node, i: nat)
    requires i < |Diagnosed(spec, tree)|
    ensures Diagnosed(spec, tree)[i].UngatedModule? ==> i == |Diagnosed(spec, tree)| - 1
  {
    OnlyFunctions(spec, Walk(tree), i);
  }

  lemma {:induction false} OnlyFunctions(spec: Spec, nodes: seq<Node>, i: nat)
    ensures i < |Verdicts(spec, nodes)| ==> Verdicts(spec, nodes)[i].UngatedFunction?
    ensures |Verdicts(spec, nodes)| <= |nodes|
  {
    if nodes != [] { OnlyFunctions(spec, nodes[..|nodes| - 1], i); }
  }
}
