/** The size check on desktop UI trees: an explicit stack and two budgets. */
module DesktopUiTree {
  import opened Wrappers

  const MAX_TREE_NODES := 2048
  const MAX_TREE_TEXT_CHARS := 32768

  datatype Node = Node(
    role: string,
    name: string,
    value: Option<string>,
    states: seq<string>,
    actions: seq<string>,
    children: seq<Node>)

  datatype Issue = TooManyNodes | TooMuchText

  // ---------- The totals, by recursion over the tree ----------

  function Lengths(texts: seq<string>): nat {
    if texts == [] then 0 else Lengths(texts[..|texts| - 1]) + |texts[|texts| - 1]|
  }

  /** The text of one node. */
  function OwnText(n: Node): nat {
    |n.role| + |n.name| + (if n.value.Some? then |n.value.value| else 0) + Lengths(n.states) + Lengths(n.actions)
  }

  function NodeTotal(n: Node): nat
    decreases n
  {
    1 + ForestNodes(n.children)
  }

  function ForestNodes(forest: seq<Node>): nat
    decreases forest
  {
    if forest == [] then 0 else ForestNodes(forest[..|forest| - 1]) + NodeTotal(forest[|forest| - 1])
  }

  function TextTotal(n: Node): nat
    decreases n
  {
    OwnText(n) + ForestText(n.children)
  }

  function ForestText(forest: seq<Node>): nat
    decreases forest
  {
    if forest == [] then 0 else ForestText(forest[..|forest| - 1]) + TextTotal(forest[|forest| - 1])
  }

  // ---------- The totals, over the nodes of the tree one after the other ----------

  /** All nodes of a forest, each before its children. */
  function Preorder(forest: seq<Node>): seq<Node>
    decreases forest
  {
    if forest == [] then []
    else
      var last := forest[|forest| - 1];
      Preorder(forest[..|forest| - 1]) + ([last] + Preorder(last.children))
  }

  /** The texts of one node. */
  function Texts(n: Node): seq<string> {
    [n.role, n.name] + (if n.value.Some? then [n.value.value] else []) + n.states + n.actions
  }

  function AllTexts(nodes: seq<Node>): seq<string> {
    if nodes == [] then [] else AllTexts(nodes[..|nodes| - 1]) + Texts(nodes[|nodes| - 1])
  }

  lemma {:induction false} LengthsOfConcat(a: seq<string>, b: seq<string>)
    ensures Lengths(a + b) == Lengths(a) + Lengths(b)
  {
    if b == [] {
      assert a + b == a;
    } else {
      assert (a + b)[..|a + b| - 1] == a + b[..|b| - 1];
      LengthsOfConcat(a, b[..|b| - 1]);
    }
  }

  lemma {:induction false} AllTextsOfConcat(a: seq<Node>, b: seq<Node>)
    ensures AllTexts(a + b) == AllTexts(a) + AllTexts(b)
  {
    if b == [] {
      assert a + b == a;
    } else {
      assert (a + b)[..|a + b| - 1] == a + b[..|b| - 1];
      AllTextsOfConcat(a, b[..|b| - 1]);
    }
  }

  lemma OwnTextIsLengths(n: Node)
    ensures OwnText(n) == Lengths(Texts(n))
  {
    var named, valued := [n.role, n.name], if n.value.Some? then [n.value.value] else [];
    assert named[..1] == [n.role] && Lengths([n.role]) == |n.role|;
    assert Lengths(named) == |n.role| + |n.name|;
    LengthsOfConcat(named, valued);
    LengthsOfConcat(named + valued, n.states);
    LengthsOfConcat(named + valued + n.states, n.actions);
  }

  /** The recursive totals are the number of nodes of the forest and the length of all their texts. */
  lemma {:induction false} TotalsMeaning(forest: seq<Node>)
    ensures ForestNodes(forest) == |Preorder(forest)|
    ensures ForestText(forest) == Lengths(AllTexts(Preorder(forest)))
    decreases forest
  {
    hide OwnText, Texts;
    if forest != [] {
      var front, last := forest[..|forest| - 1], forest[|forest| - 1];
      TotalsMeaning(front);
      TotalsMeaning(last.children);
      OwnTextIsLengths(last);
      assert AllTexts([last]) == [] + Texts(last) == Texts(last);
      AllTextsOfConcat([last], Preorder(last.children));
      AllTextsOfConcat(Preorder(front), [last] + Preorder(last.children));
      LengthsOfConcat(Texts(last), AllTexts(Preorder(last.children)));
      LengthsOfConcat(AllTexts(Preorder(front)), AllTexts([last] + Preorder(last.children)));
    }
  }

  // ---------- The check ----------

  method SumLengths(start: nat, texts: seq<string>) returns (total: nat)
    ensures total == start + Lengths(texts)
  {
    total := start;
    for i := 0 to |texts|
      invariant total == start + Lengths(texts[..i])
    {
      assert texts[..i + 1][..i] == texts[..i];
      total := total + |texts[i]|;
    }
    assert texts[..|texts|] == texts;
  }

  /** Accepts a tree of any shape exactly when it has at most 2048 nodes and their texts at most 32768 characters; the
      early exits never change the verdict, and an issue names a budget that is exceeded. */
  method CheckTree(root: Node) returns (issue: Option<Issue>)
    ensures issue.None? <==> |Preorder([root])| <= 2048 && Lengths(AllTexts(Preorder([root]))) <= 32768
    ensures issue == Some(TooManyNodes) ==> |Preorder([root])| > 2048
    ensures issue == Some(TooMuchText) ==> Lengths(AllTexts(Preorder([root]))) > 32768
  {
    hide Preorder, AllTexts;
    TotalsMeaning([root]);
    var stack := [root];
    var nodeCount: nat, textChars: nat := 0, 0;
    assert stack[..0] == [];
    while |stack| > 0
      invariant nodeCount + ForestNodes(stack) == NodeTotal(root) && nodeCount <= MAX_TREE_NODES
      invariant textChars + ForestText(stack) == TextTotal(root) && textChars <= MAX_TREE_TEXT_CHARS
      decreases ForestNodes(stack)
    {
      var node := stack[|stack| - 1];
      var below := stack[..|stack| - 1];
      stack := below;
      nodeCount := nodeCount + 1;
      if nodeCount > MAX_TREE_NODES {
        return Some(TooManyNodes);
      }
      textChars := textChars + |node.role|;
      textChars := textChars + |node.name|;
      if node.value.Some? && node.value.value != "" {
        textChars := textChars + |node.value.value|;
      }
      textChars := SumLengths(textChars, node.states);
      textChars := SumLengths(textChars, node.actions);
      if textChars > MAX_TREE_TEXT_CHARS {
        return Some(TooMuchText);
      }
      for i := 0 to |node.children|
        invariant ForestNodes(stack) == ForestNodes(below) + ForestNodes(node.children[..i])
        invariant ForestText(stack) == ForestText(below) + ForestText(node.children[..i])
      {
        assert node.children[..i + 1][..i] == node.children[..i];
        var child := node.children[i];
        assert (stack + [child])[..|stack|] == stack;
        stack := stack + [child];
      }
      assert node.children[..|node.children|] == node.children;
    }
    issue := None;
  }
}
