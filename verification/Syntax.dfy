/** Python syntax trees as far as scripts/check_supervisor_conformance.py looks at them, and the
    walk over all nodes of one (ast.walk). */
module Syntax {
  import Text

  /** FunctionDef stands for plain and async ones; its parts are decorators, arguments and body in
      field order. keywords holds the values of the keyword arguments. */
  datatype Node =
    | FunctionDef(name: string, line: nat, parts: seq<Node>)
    | Call(line: nat, func: Node, args: seq<Node>, keywords: seq<Node>)
    | Name(id: string)
    | Attribute(value: Node, attr: string)
    | Constant(text: string)
    | Other(parts: seq<Node>)

  function Children(n: Node): (r: seq<Node>)
    ensures forall i :: 0 <= i < |r| ==> r[i] < n
  {
    match n
    case FunctionDef(_, _, parts) => parts
    case Call(_, func, args, keywords) => [func] + args + keywords
    case Attribute(value, _) => [value]
    case Other(parts) => parts
    case _ => []
  }

  function Size(n: Node): nat
    decreases n, 1, 0
  {
    1 + TotalSize(n, Children(n))
  }

  /** of bounds the sizes: every node of ns is one of its children. */
  function TotalSize(of: Node, ns: seq<Node>): nat
    requires forall i :: 0 <= i < |ns| ==> ns[i] < of
    decreases of, 0, |ns|
  {
    if ns == [] then 0 else Size(ns[0]) + TotalSize(of, ns[1..])
  }

  function Sizes(ns: seq<Node>): nat { if ns == [] then 0 else Size(ns[0]) + Sizes(ns[1..]) }

  lemma {:induction false} TotalIsSizes(of: Node, ns: seq<Node>)
    requires forall i :: 0 <= i < |ns| ==> ns[i] < of
    ensures TotalSize(of, ns) == Sizes(ns)
    decreases |ns|
  {
    if ns != [] { TotalIsSizes(of, ns[1..]); }
  }

  lemma {:induction false} SizesOf(a: seq<Node>, b: seq<Node>)
    ensures Sizes(a + b) == Sizes(a) + Sizes(b)
  {
    if a == [] {
      assert a + b == b;
    } else {
      assert (a + b)[1..] == a[1..] + b;
      SizesOf(a[1..], b);
    }
  }

  lemma SizesShrink(todo: seq<Node>)
    requires todo != []
    ensures Sizes(todo[1..] + Children(todo[0])) == Sizes(todo) - 1
  {
    SizesOf(todo[1..], Children(todo[0]));
    TotalIsSizes(todo[0], Children(todo[0]));
  }

  /** What is still to come when todo waits: breadth first. */
  function Queued(todo: seq<Node>): seq<Node>
    decreases Sizes(todo)
  {
    if todo == [] then []
    else
      SizesShrink(todo);
      [todo[0]] + Queued(todo[1..] + Children(todo[0]))
  }

  function Walk(root: Node): seq<Node> { Queued([root]) }

  method WalkNodes(root: Node) returns (nodes: seq<Node>)
    ensures nodes == Walk(root)
  {
    var todo := [root];
    nodes := [];
    while todo != []
      invariant nodes + Queued(todo) == Walk(root)
      decreases Sizes(todo)
    {
      var n := todo[0];
      SizesShrink(todo);
      ghost var rest := Queued(todo[1..] + Children(n));
      assert nodes + ([n] + rest) == nodes + [n] + rest;
      todo := todo[1..] + Children(n);
      nodes := nodes + [n];
    }
  }

  // ----- paths --------------------------------------------------------------

  /** A path names a node by child indices from the root. */
  predicate IsPath(root: Node, path: seq<nat>)
    decreases |path|
  {
    path == [] || (path[0] < |Children(root)| && IsPath(Children(root)[path[0]], path[1..]))
  }

  function At(root: Node, path: seq<nat>): Node
    requires IsPath(root, path)
    decreases |path|
  {
    if path == [] then root else At(Children(root)[path[0]], path[1..])
  }

  ghost predicate Within(root: Node, n: Node) { exists path :: IsPath(root, path) && At(root, path) == n }

  lemma WithinSelf(root: Node)
    ensures Within(root, root)
  {
    assert IsPath(root, []) && At(root, []) == root;
  }

  lemma WithinChild(root: Node, i: nat, n: Node)
    requires i < |Children(root)| && Within(Children(root)[i], n)
    ensures Within(root, n)
  {
    var path :| IsPath(Children(root)[i], path) && At(Children(root)[i], path) == n;
    assert ([i] + path)[1..] == path;
    assert IsPath(root, [i] + path) && At(root, [i] + path) == n;
  }

  lemma WithinCases(root: Node, n: Node)
    requires Within(root, n)
    ensures n == root || exists c :: c in Children(root) && Within(c, n)
  {
    var path :| IsPath(root, path) && At(root, path) == n;
    if path != [] {
      var c := Children(root)[path[0]];
      assert IsPath(c, path[1..]) && At(c, path[1..]) == n;
      assert c in Children(root) && Within(c, n);
    }
  }

  lemma {:induction false} QueuedIsWithin(todo: seq<Node>, n: Node)
    ensures n in Queued(todo) <==> exists t :: t in todo && Within(t, n)
    decreases Sizes(todo)
  {
    if todo != [] {
      var first, next := todo[0], todo[1..] + Children(todo[0]);
      SizesShrink(todo);
      QueuedIsWithin(next, n);
      if n in Queued(todo) {
        if n == first {
          WithinSelf(first);
        } else {
          var t :| t in next && Within(t, n);
          if t !in todo[1..] {
            var i :| 0 <= i < |Children(first)| && Children(first)[i] == t;
            WithinChild(first, i, n);
          }
        }
      }
      if t :| t in todo && Within(t, n) {
        if t in todo[1..] {
          assert t in next;
        } else {
          WithinCases(first, n);
        }
      }
    }
  }

  /** The walk meets exactly the nodes of the tree. */
  lemma WalkIsWithin(root: Node, n: Node)
    ensures n in Walk(root) <==> Within(root, n)
  {
    QueuedIsWithin([root], n);
  }

  /** The children of a node are the nodes right inside it, whatever field they stand in. */
  lemma ChildrenAre(n: Node, c: Node)
    ensures c in Children(n) <==>
      || ((n.FunctionDef? || n.Other?) && c in n.parts)
      || (n.Call? && (c == n.func || c in n.args || c in n.keywords))
      || (n.Attribute? && c == n.value)
  {
  }

  /** A call is looked into from its callee over its arguments to its keywords. */
  lemma CallChildren(n: Node, i: nat)
    requires n.Call?
    ensures |Children(n)| == 1 + |n.args| + |n.keywords| && Children(n)[0] == n.func
    ensures i < |n.args| ==> Children(n)[1 + i] == n.args[i]
    ensures i < |n.keywords| ==> Children(n)[1 + |n.args| + i] == n.keywords[i]
  {
  }

  /** The children of these nodes, node by node. */
  function NextLevel(nodes: seq<Node>): seq<Node>
  {
    if nodes == [] then [] else Children(nodes[0]) + NextLevel(nodes[1..])
  }

  lemma QueuedOnce(first: Node, rest: seq<Node>, b: seq<Node>)
    ensures Queued([first] + (rest + b)) == [first] + Queued(rest + (b + Children(first)))
  {
    assert ([first] + (rest + b))[1..] == rest + b;
    Text.Regrouped(rest, b, Children(first));
  }

  lemma {:induction false} QueuedSkips(a: seq<Node>, b: seq<Node>)
    ensures Queued(a + b) == a + Queued(b + NextLevel(a))
    decreases |a|
  {
    if a == [] {
      assert a + b == b && b + NextLevel(a) == b;
    } else {
      QueuedSkips(a[1..], b + Children(a[0]));
      QueuedOnce(a[0], a[1..], b);
      Text.Regrouped(b, Children(a[0]), NextLevel(a[1..]));
      Text.HeadSplit(a, Queued(b + NextLevel(a)));
      Text.HeadSplit(a, b);
    }
  }

  /** The walk goes level by level: whatever waits comes first, then the children of all of it. */
  lemma WalkIsByLevels(level: seq<Node>)
    ensures Queued(level) == level + Queued(NextLevel(level))
  {
    QueuedSkips(level, []);
    assert level + [] == level && [] + NextLevel(level) == NextLevel(level);
  }

  /** No node of the tree is left out or met twice: the walk is as long as the tree is big. */
  lemma {:induction false} QueuedCounts(todo: seq<Node>)
    ensures |Queued(todo)| == Sizes(todo)
    decreases Sizes(todo)
  {
    if todo != [] {
      SizesShrink(todo);
      QueuedCounts(todo[1..] + Children(todo[0]));
    }
  }
}
