/** Natural numbers as von Neumann set trees, after anat-rs/src/lib.rs.
    0 is the empty set {} and n + 1 is n ∪ {n}, so the tree of n holds,
    in order, the trees of 0, 1, ..., n - 1. The Rust helpers that take a
    `&mut Vec` or a `&mut String` are methods that receive the current
    value and return the updated one. */
module Anat {

  /** Rust's `u32`. */
  type U32 = n: nat | n < 0x1_0000_0000

  /** The cast `as u32` applied to a length: keeps the low 32 bits. */
  function AsU32(n: nat): (r: U32)
    ensures n < 0x1_0000_0000 ==> r == n
  {
    n % 0x1_0000_0000
  }

  /** A set tree: `Zero` is the empty set, `Mult(children)` the set of its
      children, which keep their insertion order. */
  datatype NatNum = Zero | Mult(children: seq<NatNum>)

  /** The number of immediate elements of a tree (no truncation). */
  function Count(t: NatNum): nat
  {
    match t
    case Zero => 0
    case Mult(c) => |c|
  }

  // ---------------------------------------------------------------------
  // The canonical (von Neumann) shape

  /** The canonical tree of n: `Zero` for 0, otherwise the collection of
      the canonical trees of 0, ..., n - 1. */
  function Canon(n: nat): NatNum
    decreases n, 1
  {
    if n == 0 then Zero else Mult(CanonChildren(n))
  }

  /** The children of the canonical tree of n: child i is Canon(i). */
  function CanonChildren(n: nat): seq<NatNum>
    decreases n, 0
  {
    seq(n, i requires 0 <= i < n => Canon(i))
  }

  /** A tree has the canonical shape of the number it claims to hold. */
  predicate Canonical(t: NatNum)
  {
    t == Canon(Count(t))
  }

  /** The children of n + 1 are those of n followed by the tree of n. */
  lemma CanonChildrenSnoc(n: nat)
    ensures CanonChildren(n + 1) == CanonChildren(n) + [Canon(n)]
  {
    var l, r := CanonChildren(n + 1), CanonChildren(n) + [Canon(n)];
    assert |l| == |r|;
    forall i | 0 <= i < |l| ensures l[i] == r[i] {
    }
  }

  /** Every canonical tree is canonical, holds its number, and its first
      child (if any) is `Zero`, never an empty `Mult`. */
  lemma CanonShape(n: nat)
    ensures Count(Canon(n)) == n && Canonical(Canon(n))
    ensures n > 0 ==> Canon(n).Mult? && Canon(n).children[0] == Zero
  {
    if n > 0 {
      assert CanonChildren(n)[0] == Canon(0);
    }
  }

  // ---------------------------------------------------------------------
  // Extractor: to_number, simple_nat_to_num

  /** `simple_nat_to_num`: the number of elements, as `u32`; the elements
      themselves are not looked at. */
  function SimpleNatToNum(num: seq<NatNum>): (r: U32)
    ensures |num| < 0x1_0000_0000 ==> r == |num|
  {
    AsU32(|num|)
  }

  /** `NatNum::to_number`. */
  function ToNumber(t: NatNum): (r: U32)
    ensures t.Zero? ==> r == 0
    ensures t.Mult? ==> r == SimpleNatToNum(t.children)
  {
    match t
    case Zero => 0
    case Mult(c) => SimpleNatToNum(c)
  }

  /** Building a tree and reading it back gives the number built. */
  lemma {:induction false} ToNumberRoundTrip(n: U32)
    ensures ToNumber(Canon(n)) == n
  {
    CanonShape(n);
  }

  /** The extractor depends only on the number of children: malformed trees
      with as many children as a canonical one read as the same number. */
  lemma ToNumberCountsOnly(v: seq<NatNum>, w: seq<NatNum>)
    requires |v| == |w|
    ensures ToNumber(Mult(v)) == ToNumber(Mult(w))
    ensures |v| < 0x1_0000_0000 ==> ToNumber(Mult(v)) == |v|
  {
  }

  // ---------------------------------------------------------------------
  // Builder: From<u32>, populate_nat_tree

  /** `populate_nat_tree(tree, curr)`: inserts the canonical children of
      `curr` at the front of `tree`; what `tree` held stays behind them,
      unchanged and in order. */
  method PopulateNatTree(tree: seq<NatNum>, curr: U32) returns (tree': seq<NatNum>)
    ensures |tree'| == curr + |tree|
    ensures forall i :: 0 <= i < curr ==> tree'[i] == Canon(i)
    ensures tree'[curr..] == tree
    decreases curr
  {
    tree' := tree;
    if curr == 0 {
      return;
    } else if curr == 1 {
      tree' := [Zero] + tree';
      tree' := PopulateNatTree(tree', curr - 1);
    } else {
      var subTreeData := PopulateNatTree([], curr - 1);
      assert subTreeData == CanonChildren(curr - 1);
      var subTree := Mult(subTreeData);
      tree' := [subTree] + tree';
      tree' := PopulateNatTree(tree', curr - 1);
    }
  }

  /** `NatNum::from(num)`: the canonical tree of `num`. */
  method From(num: U32) returns (r: NatNum)
    ensures r == Canon(num)
    ensures num == 0 ==> r == Zero
    ensures num > 0 ==> r.Mult? && |r.children| == num && r.children[0] == Zero
    ensures ToNumber(r) == num
  {
    if num == 0 {
      return Zero;
    }
    var natNumData := PopulateNatTree([], num);
    assert natNumData == CanonChildren(num);
    r := Mult(natNumData);
    CanonShape(num);
  }

  /** The trees the tests spell out for 0 to 4. */
  lemma CanonExamples()
    ensures Canon(0) == Zero
    ensures Canon(1) == Mult([Zero])
    ensures Canon(2) == Mult([Zero, Mult([Zero])])
    ensures Canon(3) == Mult([Zero, Mult([Zero]), Mult([Zero, Mult([Zero])])])
    ensures Canon(4) == Mult([Zero, Mult([Zero]), Mult([Zero, Mult([Zero])]),
                              Mult([Zero, Mult([Zero]), Mult([Zero, Mult([Zero])])])])
  {
    CanonChildrenSnoc(0);
    CanonChildrenSnoc(1);
    CanonChildrenSnoc(2);
    CanonChildrenSnoc(3);
  }

  // ---------------------------------------------------------------------
  // Adder: add_rec, recursive_nat_tree_increment

  /** The list after `rem` rounds of "push a node whose children are a copy
      of the whole list": the old list stays as a prefix, and each new
      element is the collection of everything before it. */
  function Grown(tree: seq<NatNum>, rem: nat): (r: seq<NatNum>)
    ensures |r| == |tree| + rem
    ensures r[..|tree|] == tree
    ensures forall i :: |tree| <= i < |r| ==> r[i] == Mult(r[..i])
    decreases rem
  {
    if rem == 0 then tree
    else
      var next := tree + [Mult(tree)];
      var r := Grown(next, rem - 1);
      assert r[..|tree|] == r[..|next|][..|tree|];
      r
  }

  /** `recursive_nat_tree_increment(tree, rem)`. */
  method RecursiveNatTreeIncrement(tree: seq<NatNum>, rem: U32) returns (tree': seq<NatNum>)
    ensures tree' == Grown(tree, rem)
    decreases rem
  {
    if rem == 0 {
      return tree;
    }
    var newSubtree := tree;
    var endNum := Mult(newSubtree);
    tree' := tree + [endNum];
    tree' := RecursiveNatTreeIncrement(tree', rem - 1);
  }

  /** Growing the (non-empty) children of n by k steps gives the children of
      n + k: each pushed node is the canonical tree of the next number. */
  lemma {:induction false} GrownCanon(n: nat, k: nat)
    requires n >= 1
    ensures Grown(CanonChildren(n), k) == CanonChildren(n + k)
    decreases k
  {
    if k > 0 {
      CanonChildrenSnoc(n);
      GrownCanon(n + 1, k - 1);
    }
  }

  /** Growing from an empty list pushes `Mult([])`, not `Zero`: this is why
      the adder handles a `Zero` operand before it grows anything. */
  lemma GrownFromEmptyNotCanonical()
    ensures Grown([], 1) == [Mult([])]
    ensures Grown([], 1) != CanonChildren(1)
  {
    assert CanonChildren(1)[0] == Zero;
  }

  /** What `add_rec` computes: a `Zero` operand yields the other one;
      otherwise the operand with at least as many children (ties: the
      first) is grown by the other's child count, cast to `u32`. */
  function Sum(a: NatNum, b: NatNum): NatNum
  {
    match a
    case Zero => b
    case Mult(tree1) =>
      match b
      case Zero => a
      case Mult(tree2) =>
        if |tree1| >= |tree2| then Mult(Grown(tree1, AsU32(|tree2|)))
        else Mult(Grown(tree2, AsU32(|tree1|)))
  }

  /** Adding canonical trees gives the canonical tree of the sum. */
  lemma {:induction false} SumCanon(m: U32, n: U32)
    ensures Sum(Canon(m), Canon(n)) == Canon(m + n)
  {
    if m > 0 && n > 0 {
      if m >= n {
        GrownCanon(m, n);
      } else {
        GrownCanon(n, m);
      }
    }
  }

  /** On canonical trees the adder is commutative, structurally, and the
      extracted value is the (u32-cast) sum. */
  lemma {:induction false} SumCanonCommutes(m: U32, n: U32)
    ensures Sum(Canon(m), Canon(n)) == Sum(Canon(n), Canon(m))
    ensures ToNumber(Sum(Canon(m), Canon(n))) == AsU32(m + n)
  {
    SumCanon(m, n);
    SumCanon(n, m);
    CanonShape(m + n);
  }

  /** Off the canonical shape the adder is not commutative: with equal
      child counts the first operand is the base. */
  lemma SumTieTakesFirst()
    ensures Sum(Mult([Zero]), Mult([Mult([])])) == Mult([Zero, Mult([Zero])])
    ensures Sum(Mult([Mult([])]), Mult([Zero])) == Mult([Mult([]), Mult([Mult([])])])
  {
    assert Grown([Zero], 1) == [Zero, Mult([Zero])];
    assert Grown([Mult([])], 1) == [Mult([]), Mult([Mult([])])];
  }

  /** `NatNum::add_rec`. */
  method AddRec(t: NatNum, other: NatNum) returns (r: NatNum)
    ensures r == Sum(t, other)
    ensures t == Zero ==> r == other
    ensures other == Zero ==> r == t
    ensures Canonical(t) && Canonical(other) && Count(t) < 0x1_0000_0000 && Count(other) < 0x1_0000_0000
            ==> r == Canon(Count(t) + Count(other)) && ToNumber(r) == AsU32(Count(t) + Count(other))
  {
    match t {
      case Zero =>
        r := other;
      case Mult(tree1) =>
        match other {
          case Zero =>
            r := t;
          case Mult(tree2) =>
            if |tree1| >= |tree2| {
              var treeData := tree1;
              treeData := RecursiveNatTreeIncrement(treeData, AsU32(|tree2|));
              r := Mult(treeData);
            } else {
              var treeData := tree2;
              treeData := RecursiveNatTreeIncrement(treeData, AsU32(|tree1|));
              r := Mult(treeData);
            }
        }
    }
    if Canonical(t) && Canonical(other) && Count(t) < 0x1_0000_0000 && Count(other) < 0x1_0000_0000 {
      SumCanonCommutes(Count(t), Count(other));
      SumCanon(Count(t), Count(other));
    }
  }

  // ---------------------------------------------------------------------
  // Renderer: to_string, recursive_nat_tree_to_string_simple,
  // simple_graph_intonation

  /** The indentation for a nesting level: "  |" once per level. */
  function Indent(level: nat): (s: string)
    ensures |s| == 3 * level
  {
    if level == 0 then "" else Indent(level - 1) + "  |"
  }

  /** The indentation is made of blanks, with a bar at every third place. */
  lemma {:induction false} IndentChars(level: nat)
    ensures forall k :: 0 <= k < |Indent(level)| ==> Indent(level)[k] == (if k % 3 == 2 then '|' else ' ')
  {
    if level > 0 {
      IndentChars(level - 1);
    }
  }

  /** The prefix of a line at a nesting level: "|", the indentation, "->". */
  function Intonation(level: nat): (s: string)
  {
    "|" + Indent(level) + "->"
  }

  /** A prefix is part of a single line: it holds no line break. */
  lemma IntonationSingleLine(level: nat)
    ensures '\n' !in Intonation(level)
  {
    var ind, s := Indent(level), Intonation(level);
    IndentChars(level);
    forall k | 0 <= k < |s| ensures s[k] != '\n' {
      if 1 <= k < 1 + |ind| {
        assert s[k] == ind[k - 1];
      }
    }
  }

  /** `simple_graph_intonation(level)`. */
  method SimpleGraphIntonation(level: nat) returns (intonation: string)
    ensures intonation == Intonation(level)
    ensures |intonation| == 3 + 3 * level
  {
    intonation := "";
    intonation := intonation + "|";
    for i := 0 to level
      invariant intonation == "|" + Indent(i)
    {
      intonation := intonation + "  |";
    }
    intonation := intonation + "->";
  }

  /** The lines of a list of trees at a nesting level, in pre-order: each
      element's own line, then the lines of its children one level deeper,
      then the following siblings. `Zero` and `Mult([])` give the same line. */
  function Lines(tree: seq<NatNum>, level: nat): string
    decreases tree
  {
    if tree == [] then ""
    else
      Intonation(level) + "{}\n"
      + (match tree[0] case Zero => "" case Mult(sub) => Lines(sub, level + 1))
      + Lines(tree[1..], level)
  }

  /** The lines of a concatenation are the concatenation of the lines. */
  lemma {:induction false} LinesAppend(a: seq<NatNum>, b: seq<NatNum>, level: nat)
    ensures Lines(a + b, level) == Lines(a, level) + Lines(b, level)
    decreases a
  {
    if a == [] {
      assert a + b == b;
    } else {
      assert (a + b)[0] == a[0];
      assert (a + b)[1..] == a[1..] + b;
      LinesAppend(a[1..], b, level);
    }
  }

  lemma AppendAssoc(a: string, b: string, c: string)
    ensures (a + b) + c == a + (b + c)
  {
  }

  /** The children of a tree; `Zero` has none. */
  function Elements(t: NatNum): seq<NatNum>
  {
    match t
    case Zero => []
    case Mult(c) => c
  }

  /** The lines of a single tree: its own line, then its elements' lines. */
  lemma LinesSingle(x: NatNum, level: nat)
    ensures Lines([x], level) == Intonation(level) + "{}\n" + Lines(Elements(x), level + 1)
  {
    assert [x][0] == x && [x][1..] == [];
  }

  lemma LinesPrefixStep(tree: seq<NatNum>, i: nat, level: nat)
    requires i < |tree|
    ensures Lines(tree[..i + 1], level) == Lines(tree[..i], level) + Lines([tree[i]], level)
  {
    assert tree[..i + 1] == tree[..i] + [tree[i]];
    LinesAppend(tree[..i], [tree[i]], level);
  }

  /** `recursive_nat_tree_to_string_simple(tree, graph, level)`: appends the
      lines of `tree` to `graph` and keeps what `graph` held. */
  method RecursiveNatTreeToStringSimple(tree: seq<NatNum>, graph: string, level: nat)
    returns (graph': string)
    ensures graph' == graph + Lines(tree, level)
    decreases tree
  {
    graph' := graph;
    for i := 0 to |tree|
      invariant graph' == graph + Lines(tree[..i], level)
    {
      var x := tree[i];
      ghost var before := graph';
      LinesSingle(x, level);
      match x {
        case Zero =>
          var intonation := SimpleGraphIntonation(level);
          graph' := graph' + (intonation + "{}\n");
          assert intonation + "{}\n" + Lines([], level + 1) == intonation + "{}\n";
        case Mult(subtree) =>
          var intonation := SimpleGraphIntonation(level);
          graph' := graph' + (intonation + "{}\n");
          graph' := RecursiveNatTreeToStringSimple(subtree, graph', level + 1);
          AppendAssoc(before, intonation + "{}\n", Lines(subtree, level + 1));
      }
      assert graph' == before + Lines([x], level);
      LinesPrefixStep(tree, i, level);
      AppendAssoc(graph, Lines(tree[..i], level), Lines([x], level));
    }
    assert tree[..|tree|] == tree;
  }

  /** The diagram of a tree: "{}" alone for `Zero`; otherwise a "{}" line
      followed by the lines of its children at level 0. */
  function Render(t: NatNum): string
  {
    match t
    case Zero => "{}"
    case Mult(c) => "{}\n" + Lines(c, 0)
  }

  /** `NatNum::to_string`. */
  method ToString(t: NatNum) returns (graph: string)
    ensures graph == Render(t)
    ensures t == Zero ==> graph == "{}"
    ensures t.Mult? ==> graph[..3] == "{}\n" && Newlines(graph) == 1 + Nodes(t.children)
  {
    match t
    case Zero =>
      graph := "{}";
    case Mult(tree) =>
      graph := "{}\n";
      graph := RecursiveNatTreeToStringSimple(tree, graph, 0);
      LinesNewlines(tree, 0);
      NewlinesAppend("{}\n", Lines(tree, 0));
  }

  // Line counts

  /** The number of nodes of a list of trees, descendants included. */
  function Nodes(tree: seq<NatNum>): nat
    decreases tree
  {
    if tree == [] then 0
    else 1 + (match tree[0] case Zero => 0 case Mult(sub) => Nodes(sub)) + Nodes(tree[1..])
  }

  /** The number of line breaks in a string. */
  function Newlines(s: string): nat
  {
    if s == [] then 0 else (if s[0] == '\n' then 1 else 0) + Newlines(s[1..])
  }

  lemma {:induction false} NewlinesAppend(a: string, b: string)
    ensures Newlines(a + b) == Newlines(a) + Newlines(b)
  {
    if a == [] {
      assert a + b == b;
    } else {
      assert (a + b)[1..] == a[1..] + b;
      NewlinesAppend(a[1..], b);
    }
  }

  lemma {:induction false} NewlinesNone(s: string)
    requires '\n' !in s
    ensures Newlines(s) == 0
  {
    if s != [] {
      assert s[0] in s;
      assert forall c :: c in s[1..] ==> c in s;
      NewlinesNone(s[1..]);
    }
  }

  lemma {:induction false} NodesAppend(a: seq<NatNum>, b: seq<NatNum>)
    ensures Nodes(a + b) == Nodes(a) + Nodes(b)
    decreases a
  {
    if a == [] {
      assert a + b == b;
    } else {
      assert (a + b)[0] == a[0];
      assert (a + b)[1..] == a[1..] + b;
      NodesAppend(a[1..], b);
    }
  }

  /** The diagram has exactly one line per node. */
  lemma {:induction false} LinesNewlines(tree: seq<NatNum>, level: nat)
    ensures Newlines(Lines(tree, level)) == Nodes(tree)
    decreases tree
  {
    if tree != [] {
      var head := Intonation(level) + "{}\n";
      var below := match tree[0] case Zero => "" case Mult(sub) => Lines(sub, level + 1);
      IntonationSingleLine(level);
      NewlinesNone(Intonation(level));
      NewlinesAppend(Intonation(level), "{}\n");
      NewlinesAppend(head, below);
      NewlinesAppend(head + below, Lines(tree[1..], level));
      match tree[0] {
        case Zero =>
        case Mult(sub) =>
          LinesNewlines(sub, level + 1);
      }
      LinesNewlines(tree[1..], level);
    }
  }

  function Pow2(n: nat): nat
  {
    if n == 0 then 1 else 2 * Pow2(n - 1)
  }

  /** The canonical tree of n has 2^n - 1 nodes below its root: the cost of
      the representation grows exponentially with n. */
  lemma {:induction false} CanonNodes(n: nat)
    ensures Nodes(CanonChildren(n)) == Pow2(n) - 1
  {
    if n > 0 {
      CanonChildrenSnoc(n - 1);
      NodesAppend(CanonChildren(n - 1), [Canon(n - 1)]);
      CanonNodes(n - 1);
    }
  }

  /** The diagram of the canonical tree of n > 0 has 2^n lines. */
  lemma {:induction false} RenderCanonLines(n: nat)
    requires n > 0
    ensures Newlines(Render(Canon(n))) == Pow2(n)
  {
    LinesNewlines(CanonChildren(n), 0);
    NewlinesAppend("{}\n", Lines(CanonChildren(n), 0));
    CanonNodes(n);
  }

  /** One line of the diagram at a nesting level. */
  function Line(level: nat): string
  {
    Intonation(level) + "{}\n"
  }

  /** How the lines of canonical children grow from n to n + 1: the line of
      the tree of n, followed by its own children one level deeper. */
  lemma {:induction false} LinesCanonSnoc(n: nat, level: nat)
    ensures Lines(CanonChildren(n + 1), level)
         == Lines(CanonChildren(n), level) + Line(level)
            + (if n == 0 then "" else Lines(CanonChildren(n), level + 1))
  {
    CanonChildrenSnoc(n);
    LinesAppend(CanonChildren(n), [Canon(n)], level);
    LinesSingle(Canon(n), level);
  }

  /** The lines of the children of 1 at any level: a single line. */
  lemma {:induction false} LinesCanonOne(level: nat)
    ensures Lines(CanonChildren(1), level) == Line(level)
  {
    LinesCanonSnoc(0, level);
    assert CanonChildren(0) == [];
    assert Lines(CanonChildren(0), level) == "";
  }

  /** The lines of the children of 2 at any level. */
  lemma {:induction false} LinesCanonTwo(level: nat)
    ensures Lines(CanonChildren(2), level) == Line(level) + Line(level) + Line(level + 1)
  {
    LinesCanonSnoc(1, level);
    LinesCanonOne(level);
    LinesCanonOne(level + 1);
  }

  /** The regrouping of seven lines that `LinesCanonThree` needs. */
  lemma Regroup(whole: string, here: string, below: string, l0: string, l1: string, l2: string)
    requires whole == here + l0 + below
    requires here == l0 + l0 + l1 && below == l1 + l1 + l2
    ensures whole == l0 + l0 + l1 + l0 + l1 + l1 + l2
  {
  }

  /** The lines of the children of 3 at any level: seven lines, nested as
      the trees of 0, 1 and 2 are. */
  lemma {:induction false} LinesCanonThree(level: nat)
    ensures Lines(CanonChildren(3), level)
         == Line(level) + Line(level) + Line(level + 1)
            + Line(level) + Line(level + 1) + Line(level + 1) + Line(level + 2)
  {
    var l0, l1, l2 := Line(level), Line(level + 1), Line(level + 2);
    LinesCanonSnoc(2, level);
    LinesCanonTwo(level);
    LinesCanonTwo(level + 1);
    assert level + 1 + 1 == level + 2;
    Regroup(Lines(CanonChildren(3), level), Lines(CanonChildren(2), level),
            Lines(CanonChildren(2), level + 1), l0, l1, l2);
  }

  /** The indentation of the first three nesting levels, spelled out. */
  lemma IndentExamples()
    ensures Indent(1) == "  |"
    ensures Indent(2) == "  |  |"
    ensures Indent(3) == "  |  |  |"
  {
    assert Indent(1) == "" + "  |";
    assert Indent(2) == "  |" + "  |";
    assert Indent(3) == "  |  |" + "  |";
  }

  /** The line at nesting level 0, spelled out. */
  lemma LineZero()
    ensures Line(0) == "|->{}\n"
  {
    assert Intonation(0) == "|" + "" + "->";
  }

  /** The line at nesting level 1, spelled out. */
  lemma LineOne()
    ensures Line(1) == "|  |->{}\n"
  {
    IndentExamples();
    assert Intonation(1) == "|" + "  |" + "->";
  }

  /** The line at nesting level 2, spelled out. */
  lemma LineTwo()
    ensures Line(2) == "|  |  |->{}\n"
  {
    IndentExamples();
    assert Intonation(2) == "|" + "  |  |" + "->";
  }

  /** The line at nesting level 3, spelled out. */
  lemma LineThree()
    ensures Line(3) == "|  |  |  |->{}\n"
  {
    IndentExamples();
    assert Intonation(3) == "|" + "  |  |  |" + "->";
  }

  /** The diagrams the tests spell out for 0 and 1. */
  lemma RenderSmallExamples()
    ensures Render(Canon(0)) == "{}"
    ensures Render(Canon(1)) == "{}\n|->{}\n"
  {
    LinesCanonSnoc(0, 0);
    LineZero();
  }

  /** The regrouping of sixteen lines that `RenderFourLines` needs. */
  lemma RegroupFour(whole: string, top: string, c0: string, c1: string,
                    l0: string, l1: string, l2: string, l3: string)
    requires whole == top + (c0 + l0 + c1)
    requires c0 == l0 + l0 + l1 + l0 + l1 + l1 + l2
    requires c1 == l1 + l1 + l2 + l1 + l2 + l2 + l3
    ensures whole == top + l0 + l0 + l1 + l0 + l1 + l1 + l2
                   + l0 + l1 + l1 + l2 + l1 + l2 + l2 + l3
  {
    AppendSeven(top, l0, l0, l1, l0, l1, l1, l2);
    AppendSeven(top + c0 + l0, l1, l1, l2, l1, l2, l2, l3);
  }

  /** Appending a seven-piece text is appending its pieces one by one. */
  lemma AppendSeven(x: string, a: string, b: string, c: string, d: string, e: string, f: string, g: string)
    ensures x + (a + b + c + d + e + f + g) == x + a + b + c + d + e + f + g
  {
  }

  /** The diagram of n + 1 > 1: the root line, the lines of the children of
      n, the line of n, and the lines of the children of n one level deeper. */
  lemma RenderCanonSnoc(n: nat)
    requires n > 0
    ensures Render(Canon(n + 1))
         == "{}\n" + (Lines(CanonChildren(n), 0) + Line(0) + Lines(CanonChildren(n), 1))
  {
    assert Canon(n + 1) == Mult(CanonChildren(n + 1));
    LinesCanonSnoc(n, 0);
  }

  /** The diagram of 4, line by line: the root, then seven lines for the
      children of 3, the line of 3, and its seven lines one level deeper. */
  lemma {:induction false} RenderFourLines()
    ensures Render(Canon(4))
         == "{}\n" + Line(0) + Line(0) + Line(1) + Line(0) + Line(1) + Line(1) + Line(2)
            + Line(0) + Line(1) + Line(1) + Line(2) + Line(1) + Line(2) + Line(2) + Line(3)
  {
    RenderCanonSnoc(3);
    LinesCanonThree(0);
    LinesCanonThree(1);
    RegroupFour(Render(Canon(4)), "{}\n", Lines(CanonChildren(3), 0), Lines(CanonChildren(3), 1),
                Line(0), Line(1), Line(2), Line(3));
  }

  /** The diagram the tests spell out for 4: sixteen lines. */
  lemma RenderFourExample()
    ensures Render(Canon(4))
         == "{}\n" + "|->{}\n" + "|->{}\n" + "|  |->{}\n" + "|->{}\n" + "|  |->{}\n" + "|  |->{}\n"
            + "|  |  |->{}\n" + "|->{}\n" + "|  |->{}\n" + "|  |->{}\n" + "|  |  |->{}\n" + "|  |->{}\n"
            + "|  |  |->{}\n" + "|  |  |->{}\n" + "|  |  |  |->{}\n"
  {
    RenderFourLines();
    LineZero();
    LineOne();
    LineTwo();
    LineThree();
  }
}
