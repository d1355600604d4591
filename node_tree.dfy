/**
 * The n-ary tree of the incomplete-types example. A Node owns its value and
 * a vector of child Nodes held by value, so a tree is modelled as a datatype;
 * `add` and mutation through `operator[]` give the updated tree.
 */
module NodeTree {
  import opened Wrappers

  datatype Node = Node(value: string, children: seq<Node>)

  /** What std::vector::at throws for an index past the end. */
  datatype Error = OutOfRange

  /** The number of nodes in a tree. */
  function Size(n: Node): nat
    decreases n, 1
  {
    1 + SizeOfAll(n.children)
  }

  function SizeOfAll(cs: seq<Node>): nat
    decreases cs, 0
  {
    if cs == [] then 0 else Size(cs[0]) + SizeOfAll(cs[1..])
  }

  /** add(child): child becomes the last child; the value and the earlier children stay. */
  function Add(n: Node, child: Node): (r: Node)
    ensures r.value == n.value
    ensures |r.children| == |n.children| + 1
    ensures r.children[..|n.children|] == n.children && r.children[|n.children|] == child
  {
    Node(n.value, n.children + [child])
  }

  /** operator[](idx): the idx-th child, or out_of_range from `at`. */
  function At(n: Node, idx: nat): (r: Result<Node, Error>)
    ensures idx < |n.children| <==> r.Success?
    ensures r.Success? ==> r.value == n.children[idx]
  {
    if idx < |n.children| then Success(n.children[idx]) else Failure(OutOfRange)
  }

  /** n[idx].add(child): only the subtree of child idx changes, and it changes as `add` says. */
  function AddToChild(n: Node, idx: nat, child: Node): (r: Result<Node, Error>)
    ensures idx < |n.children| <==> r.Success?
    ensures r.Success? ==>
      && r.value.value == n.value
      && |r.value.children| == |n.children|
      && r.value.children[idx] == Add(n.children[idx], child)
      && forall j :: 0 <= j < |n.children| && j != idx ==> r.value.children[j] == n.children[j]
  {
    match At(n, idx)
    case Failure(e) => Failure(e)
    case Success(c) => Success(Node(n.value, n.children[idx := Add(c, child)]))
  }

  function Spaces(k: nat): (s: string)
    ensures |s| == k && forall i :: 0 <= i < k ==> s[i] == ' '
  {
    if k == 0 then "" else Spaces(k - 1) + " "
  }

  /** The lines print(indent) writes: this node at indent, then each child at indent + 2, in order. */
  function Lines(n: Node, indent: nat): seq<string>
    decreases n, 1
  {
    [Spaces(indent) + n.value] + LinesOfAll(n.children, indent + 2)
  }

  function LinesOfAll(cs: seq<Node>, indent: nat): seq<string>
    decreases cs, 0
  {
    if cs == [] then [] else Lines(cs[0], indent) + LinesOfAll(cs[1..], indent)
  }

  lemma {:induction false} LinesOfAllAppend(cs: seq<Node>, c: Node, indent: nat)
    ensures LinesOfAll(cs + [c], indent) == LinesOfAll(cs, indent) + Lines(c, indent)
    decreases cs
  {
    if cs == [] {
      assert [c][1..] == [];
      assert [] + [c] == [c];
    } else {
      assert (cs + [c])[1..] == cs[1..] + [c];
      LinesOfAllAppend(cs[1..], c, indent);
    }
  }

  lemma {:induction false} SizeOfAllAppend(cs: seq<Node>, c: Node)
    ensures SizeOfAll(cs + [c]) == SizeOfAll(cs) + Size(c)
    decreases cs
  {
    if cs == [] {
      assert [] + [c] == [c];
    } else {
      assert (cs + [c])[1..] == cs[1..] + [c];
      SizeOfAllAppend(cs[1..], c);
    }
  }

  /** print writes exactly one line per node of the subtree. */
  lemma {:induction false} LinesCount(n: Node, indent: nat)
    ensures |Lines(n, indent)| == Size(n)
    decreases n, 1
  {
    LinesOfAllCount(n.children, indent + 2);
  }

  lemma {:induction false} LinesOfAllCount(cs: seq<Node>, indent: nat)
    ensures |LinesOfAll(cs, indent)| == SizeOfAll(cs)
    decreases cs, 0
  {
    if cs != [] {
      LinesCount(cs[0], indent);
      LinesOfAllCount(cs[1..], indent);
    }
  }

  /** Adding a child appends that child's own printout, two columns further in, and its nodes. */
  lemma AddPrintsChildLast(n: Node, child: Node, indent: nat)
    ensures Lines(Add(n, child), indent) == Lines(n, indent) + Lines(child, indent + 2)
    ensures Size(Add(n, child)) == Size(n) + Size(child)
  {
    LinesOfAllAppend(n.children, child, indent + 2);
    SizeOfAllAppend(n.children, child);
  }

  /**
   * print(indent): the counting loop writes indent spaces, then the value;
   * then each child prints itself at indent + 2. The loop `i != indent`
   * stops only for indent >= 0.
   */
  method Print(n: Node, indent: int) returns (lines: seq<string>)
    requires indent >= 0
    ensures lines == Lines(n, indent)
    decreases n
  {
    var line := "";
    var i := 0;
    while i != indent
      invariant 0 <= i <= indent
      invariant line == Spaces(i)
    {
      line := line + " ";
      i := i + 1;
    }
    var head := line + n.value;
    lines := [head];
    var k := 0;
    while k < |n.children|
      invariant 0 <= k <= |n.children|
      invariant lines == [head] + LinesOfAll(n.children[..k], indent + 2)
    {
      var c := n.children[k];
      var sub := Print(c, indent + 2);
      assert n.children[..k + 1] == n.children[..k] + [c];
      LinesOfAllAppend(n.children[..k], c, indent + 2);
      lines := lines + sub;
      k := k + 1;
    }
    assert n.children[..k] == n.children;
  }

  /** The printout of a node whose one child is a leaf. */
  lemma OneChildLines(n: Node, indent: nat)
    requires |n.children| == 1 && n.children[0].children == []
    ensures Lines(n, indent) == [Spaces(indent) + n.value, Spaces(indent + 2) + n.children[0].value]
  {
    var c := n.children[0];
    assert LinesOfAll(c.children, indent + 4) == [];
    assert Lines(c, indent + 2) == [Spaces(indent + 2) + c.value];
    assert n.children[1..] == [];
    assert LinesOfAll(n.children, indent + 2) == Lines(c, indent + 2) + LinesOfAll([], indent + 2);
  }

  /** The tree of the example, built by add and by add through root[0] and root[1]. */
  function MainTree(): Result<Node, Error> {
    var root := Add(Add(Node("top", []), Node("elem 1", [])), Node("elem2", []));
    match AddToChild(root, 0, Node("elem 1.1", []))
    case Failure(e) => Failure(e)
    case Success(root') => AddToChild(root', 1, Node("elem 2.1", []))
  }

  lemma MainTreeShape()
    ensures MainTree() == Success(Node("top", [Node("elem 1", [Node("elem 1.1", [])]), Node("elem2", [Node("elem 2.1", [])])]))
  {
    var leaf1, leaf2 := Node("elem 1", []), Node("elem2", []);
    var root := Add(Add(Node("top", []), leaf1), leaf2);
    assert root == Node("top", [leaf1, leaf2]);
    var e11, e21 := Node("elem 1.1", []), Node("elem 2.1", []);
    var step1 := AddToChild(root, 0, e11);
    assert step1.Success? && step1.value.children[0] == Node("elem 1", [e11]);
    var root' := Node("top", [Node("elem 1", [e11]), leaf2]);
    assert step1.value.children == root'.children;
    var step2 := AddToChild(root', 1, e21);
    assert step2.Success? && step2.value.children[1] == Node("elem2", [e21]);
    var final := Node("top", [Node("elem 1", [e11]), Node("elem2", [e21])]);
    assert step2.value.children == final.children;
  }

  /** The example builds without out_of_range and prints its five nodes in preorder. */
  method PrintMainTree() returns (built: bool, lines: seq<string>)
    ensures built
    ensures lines == ["top", "  elem 1", "    elem 1.1", "  elem2", "    elem 2.1"]
  {
    var root := MainTree();
    MainTreeShape();
    built := root.Success?;
    var expected := Node("top", [Node("elem 1", [Node("elem 1.1", [])]), Node("elem2", [Node("elem 2.1", [])])]);
    assert root.value == expected;
    lines := Print(root.value, 0);
    var e11, e21 := Node("elem 1.1", []), Node("elem 2.1", []);
    var e1, e2 := expected.children[0], expected.children[1];
    assert Spaces(0) == "" && Spaces(2) == "  " && Spaces(4) == "    ";
    OneChildLines(e1, 2);
    OneChildLines(e2, 2);
    assert "  " + "elem 1" == "  elem 1" && "    " + "elem 1.1" == "    elem 1.1";
    assert "  " + "elem2" == "  elem2" && "    " + "elem 2.1" == "    elem 2.1";
    assert Lines(e1, 2) == ["  elem 1", "    elem 1.1"];
    assert Lines(e2, 2) == ["  elem2", "    elem 2.1"];
    assert LinesOfAll([e1, e2], 2) == Lines(e1, 2) + Lines(e2, 2) by {
      assert [e1, e2][1..] == [e2];
      assert LinesOfAll([e2], 2) == Lines(e2, 2) + LinesOfAll([], 2);
    }
    assert Spaces(0) + "top" == "top";
    assert expected.children == [e1, e2];
    assert Lines(expected, 0) == ["top"] + LinesOfAll([e1, e2], 2);
  }
}
