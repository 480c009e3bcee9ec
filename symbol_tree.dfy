/**
 * The symbolic-expression reader of the perceptor messages
 * (SymbolTreeParser) and the printer of its trees (SymbolNode.toString).
 *
 * A message such as "(time (now 12.3))(HJ (n hj1) (ax -1.5))" is turned into
 * a tree whose inner nodes stand for parenthesised groups and whose leaves
 * are the space-separated words between them.
 */
module SymbolTree {
  import opened Common

  /**
   * A child of a SymbolNode: either a String leaf or a nested SymbolNode.
   * The children array of a node built with the empty constructor is null;
   * it behaves like an empty array wherever it is read, and is modelled so.
   */
  datatype Sym = Leaf(text: string) | Node(children: seq<Sym>)

  /** The parser's outcome: a tree, or an IllegalSymbolInputException. */
  datatype Result<T> = Success(value: T) | Failure(error: string)

  // ---------------------------------------------------------------------
  // Printing (SymbolNode.toString)
  // ---------------------------------------------------------------------

  /** toString of a tree: a node prints its children, a leaf its text. */
  function Print(t: Sym): string
    decreases t, 1
  {
    match t
    case Leaf(x) => x
    case Node(cs) => PrintList(cs)
  }

  /** How a node prints one child: a sub-node inside parentheses. */
  function PrintChild(c: Sym): string
    decreases c, 2
  {
    match c
    case Leaf(x) => x
    case Node(_) => "(" + Print(c) + ")"
  }

  /** The children, in order, separated by single spaces. */
  function PrintList(cs: seq<Sym>): string
    decreases cs
  {
    if cs == [] then ""
    else if |cs| == 1 then PrintChild(cs[0])
    else PrintChild(cs[0]) + " " + PrintList(cs[1..])
  }

  // ---------------------------------------------------------------------
  // Nesting depth
  // ---------------------------------------------------------------------

  function Delta(c: char): int
  {
    if c == '(' then 1 else if c == ')' then -1 else 0
  }

  /** Number of '(' minus number of ')' in `t`. */
  function Depth(t: string): int
  {
    if t == [] then 0 else Delta(t[0]) + Depth(t[1..])
  }

  /** No prefix closes more groups than it opens, and the whole closes all. */
  ghost predicate Balanced(t: string)
  {
    Depth(t) == 0 && forall k :: 0 <= k <= |t| ==> Depth(t[..k]) >= 0
  }

  /** A character that ends a leaf at depth zero. */
  predicate Special(c: char)
  {
    c == ' ' || c == '(' || c == ')'
  }

  predicate NoSpecial(x: string)
  {
    forall k :: 0 <= k < |x| ==> !Special(x[k])
  }

  /** Every leaf of the tree is non-empty and free of ' ', '(' and ')'. */
  predicate Clean(t: Sym)
    decreases t, 1
  {
    match t
    case Leaf(x) => x != [] && NoSpecial(x)
    case Node(cs) => AllClean(cs)
  }

  predicate AllClean(cs: seq<Sym>)
    decreases cs
  {
    cs == [] || (Clean(cs[0]) && AllClean(cs[1..]))
  }

  // ---------------------------------------------------------------------
  // Parsing (SymbolTreeParser.parseReal and parse)
  // ---------------------------------------------------------------------

  /**
   * The state of parseReal's scan after the characters before index `i`:
   * the nesting `level`, the index `start` where the pending leaf or group
   * begins, and the children collected so far. The value is what the scan
   * returns from there on.
   */
  function Scan(s: string, i: nat, level: int, start: nat, acc: seq<Sym>): Result<Sym>
    requires start <= i <= |s|
    decreases |s|, 0, |s| - i
  {
    if i < |s| && level >= 0 then
      if s[i] == '(' then
        Scan(s, i + 1, level + 1, if level == 0 then i + 1 else start, acc)
      else if s[i] == ')' then
        if level - 1 == 0 then
          var inner := ParseSpec(s[start..i]);
          if inner.Failure? then inner
          else Scan(s, i + 1, 0, i + 1, acc + [inner.value])
        else
          Scan(s, i + 1, level - 1, start, acc)
      else if s[i] == ' ' && level == 0 then
        Scan(s, i + 1, 0, i + 1, if i > start then acc + [Leaf(s[start..i])] else acc)
      else
        Scan(s, i + 1, level, start, acc)
    else if level != 0 then
      Failure("Missing brackets in input: " + s)
    else
      Success(Node(if i > start then acc + [Leaf(s[start..i])] else acc))
  }

  /** What parseReal(s) returns: the root node, or the exception. */
  function ParseSpec(s: string): Result<Sym>
    decreases |s|, 1, 0
  {
    Scan(s, 0, 0, 0, [])
  }

  /** What parse(input) returns; None stands for a null input. */
  function ParseInput(input: Option<string>): (r: Result<Sym>)
    ensures r.Success? ==> r.value.Node?
  {
    if input.None? || input.value == "" then Failure("Empty string")
    else if input.value[0] != '(' || input.value[|input.value| - 1] != ')' then
      Failure("Input not embedded in braces: " + input.value)
    else
      ScanGivesNode(input.value, 0, 0, 0, []);
      ParseSpec(input.value)
  }

  /** A successful scan always delivers a node: the root of the message. */
  lemma {:induction false} ScanGivesNode(s: string, i: nat, level: int, start: nat, acc: seq<Sym>)
    requires start <= i <= |s|
    ensures Scan(s, i, level, start, acc).Success? ==> Scan(s, i, level, start, acc).value.Node?
    decreases |s| - i
  {
    if i < |s| && level >= 0 {
      if s[i] == '(' {
        ScanGivesNode(s, i + 1, level + 1, if level == 0 then i + 1 else start, acc);
      } else if s[i] == ')' {
        if level - 1 == 0 {
          var inner := ParseSpec(s[start..i]);
          if inner.Success? {
            ScanGivesNode(s, i + 1, 0, i + 1, acc + [inner.value]);
          }
        } else {
          ScanGivesNode(s, i + 1, level - 1, start, acc);
        }
      } else if s[i] == ' ' && level == 0 {
        ScanGivesNode(s, i + 1, 0, i + 1, if i > start then acc + [Leaf(s[start..i])] else acc);
      } else {
        ScanGivesNode(s, i + 1, level, start, acc);
      }
    }
  }

  /**
   * parseReal: one pass over the characters that tracks the nesting level,
   * collecting depth-zero words as leaves and handing each complete
   * depth-zero group to a recursive call.
   */
  method ParseReal(s: string) returns (r: Result<Sym>)
    ensures r == ParseSpec(s)
    decreases |s|
  {
    var children: seq<Sym> := [];
    var index, level, start := 0, 0, 0;
    while index < |s| && level >= 0
      invariant 0 <= start <= index <= |s|
      invariant Scan(s, index, level, start, children) == ParseSpec(s)
      decreases |s| - index
    {
      if s[index] == '(' {
        if level == 0 {
          start := index + 1;
        }
        level := level + 1;
      } else if s[index] == ')' {
        level := level - 1;
        if level == 0 {
          var sub := ParseReal(s[start..index]);
          if sub.Failure? {
            return sub;
          }
          children := children + [sub.value];
          start := index + 1;
        }
      } else if s[index] == ' ' {
        if level == 0 {
          if index > start {
            children := children + [Leaf(s[start..index])];
          }
          start := index + 1;
        }
      }
      index := index + 1;
    }
    if index > start {
      children := children + [Leaf(s[start..index])];
    }
    if level != 0 {
      return Failure("Missing brackets in input: " + s);
    }
    return Success(Node(children));
  }

  /** parse: rejects a null, empty or unbraced input, then runs parseReal. */
  method Parse(input: Option<string>) returns (r: Result<Sym>)
    ensures r == ParseInput(input)
    ensures input.None? || input.value == "" ==> r == Failure("Empty string")
    ensures (input.Some? && input.value != "" &&
             (input.value[0] != '(' || input.value[|input.value| - 1] != ')')) ==> r.Failure?
  {
    if input.None? || input.value == "" {
      return Failure("Empty string");
    }
    var s := input.value;
    if s[0] != '(' || s[|s| - 1] != ')' {
      return Failure("Input not embedded in braces: " + s);
    }
    r := ParseReal(s);
  }

  // ---------------------------------------------------------------------
  // Depth arithmetic
  // ---------------------------------------------------------------------

  lemma {:induction false} DepthAppend(a: string, b: string)
    ensures Depth(a + b) == Depth(a) + Depth(b)
  {
    if a == [] {
      assert a + b == b;
    } else {
      assert (a + b)[1..] == a[1..] + b;
      DepthAppend(a[1..], b);
    }
  }

  /** Depth of a slice is the difference of the depths of two prefixes. */
  lemma DepthSlice(s: string, i: nat, j: nat)
    requires i <= j <= |s|
    ensures Depth(s[i..j]) == Depth(s[..j]) - Depth(s[..i])
  {
    assert s[..j] == s[..i] + s[i..j];
    DepthAppend(s[..i], s[i..j]);
  }

  lemma DepthStep(s: string, i: nat)
    requires i < |s|
    ensures Depth(s[..i + 1]) == Depth(s[..i]) + Delta(s[i])
  {
    assert s[..i + 1] == s[..i] + [s[i]];
    DepthAppend(s[..i], [s[i]]);
  }

  // ---------------------------------------------------------------------
  // The scan succeeds exactly on balanced inputs
  // ---------------------------------------------------------------------

  /**
   * The scan invariant behind the success criterion: the level is the depth
   * of the prefix read so far, no prefix went below zero, and while inside a
   * group the group began at `start` and has not been closed.
   */
  lemma {:induction false} ScanSucceedsIffBalanced(s: string, i: nat, level: int, start: nat, acc: seq<Sym>)
    requires start <= i <= |s|
    requires level == Depth(s[..i]) && level >= 0
    requires forall k :: 0 <= k <= i ==> Depth(s[..k]) >= 0
    requires level >= 1 ==>
               (1 <= start && Depth(s[..start]) == 1 &&
                forall k :: start <= k <= i ==> Depth(s[..k]) >= 1)
    ensures Scan(s, i, level, start, acc).Success? <==> Balanced(s)
    decreases |s|, 0, |s| - i, 1
  {
    if i == |s| {
      assert s[..i] == s;
      ScanEnd(s, level, start, acc);
      return;
    }
    DepthStep(s, i);
    if s[i] == '(' {
      ScanSucceedsIffBalanced(s, i + 1, level + 1, if level == 0 then i + 1 else start, acc);
    } else if s[i] == ')' {
      ScanClosing(s, i, level, start, acc);
    } else if s[i] == ' ' && level == 0 {
      ScanSucceedsIffBalanced(s, i + 1, 0, i + 1, if i > start then acc + [Leaf(s[start..i])] else acc);
    } else {
      ScanSucceedsIffBalanced(s, i + 1, level, start, acc);
    }
  }

  /** The end of the scan invariant: the input is read, the level decides. */
  lemma ScanEnd(s: string, level: int, start: nat, acc: seq<Sym>)
    requires start <= |s|
    requires level == Depth(s) && level >= 0
    requires forall k :: 0 <= k <= |s| ==> Depth(s[..k]) >= 0
    ensures Scan(s, |s|, level, start, acc).Success? <==> Balanced(s)
  {
  }

  /** The closing-parenthesis step of the scan invariant. */
  lemma {:induction false} ScanClosing(s: string, i: nat, level: int, start: nat, acc: seq<Sym>)
    requires start <= i < |s| && s[i] == ')'
    requires level == Depth(s[..i]) && level >= 0
    requires forall k :: 0 <= k <= i ==> Depth(s[..k]) >= 0
    requires level >= 1 ==>
               (1 <= start && Depth(s[..start]) == 1 &&
                forall k :: start <= k <= i ==> Depth(s[..k]) >= 1)
    ensures Scan(s, i, level, start, acc).Success? <==> Balanced(s)
    decreases |s|, 0, |s| - i, 0
  {
    DepthStep(s, i);
    if level == 0 {
      assert Scan(s, i + 1, -1, start, acc).Failure?;
      assert Depth(s[..i + 1]) < 0;
    } else if level - 1 == 0 {
      var sub := s[start..i];
      GroupBalanced(s, start, i);
      ParseSucceedsIffBalanced(sub);
      var inner := ParseSpec(sub);
      ScanSucceedsIffBalanced(s, i + 1, 0, i + 1, acc + [inner.value]);
    } else {
      ScanSucceedsIffBalanced(s, i + 1, level - 1, start, acc);
    }
  }

  /** A group that opened at depth one and closes at `i` is balanced inside. */
  lemma GroupBalanced(s: string, start: nat, i: nat)
    requires 1 <= start <= i <= |s|
    requires Depth(s[..start]) == 1 && Depth(s[..i]) == 1
    requires forall k :: start <= k <= i ==> Depth(s[..k]) >= 1
    ensures Balanced(s[start..i])
  {
    var sub := s[start..i];
    forall k | 0 <= k <= |sub| ensures Depth(sub[..k]) >= 0 {
      assert sub[..k] == s[start..start + k];
      DepthSlice(s, start, start + k);
    }
    DepthSlice(s, start, i);
  }

  /** parseReal(s) throws exactly when the parentheses of `s` are unbalanced. */
  lemma {:induction false} ParseSucceedsIffBalanced(s: string)
    ensures ParseSpec(s).Success? <==> Balanced(s)
    decreases |s|, 1, 0, 0
  {
    assert s[..0] == [];
    ScanSucceedsIffBalanced(s, 0, 0, 0, []);
  }

  /**
   * parse accepts exactly the non-empty balanced inputs that begin with '('
   * and end with ')'.
   */
  lemma ParseAcceptsExactly(input: Option<string>)
    ensures ParseInput(input).Success? <==>
      input.Some? && |input.value| > 0 && input.value[0] == '(' &&
      input.value[|input.value| - 1] == ')' && Balanced(input.value)
  {
    if input.Some? && |input.value| > 0 {
      ParseSucceedsIffBalanced(input.value);
    }
  }

  // ---------------------------------------------------------------------
  // Shape of a successful parse
  // ---------------------------------------------------------------------

  lemma {:induction false} AllCleanSnoc(cs: seq<Sym>, d: Sym)
    requires AllClean(cs) && Clean(d)
    ensures AllClean(cs + [d])
  {
    if cs == [] {
      assert cs + [d] == [d] && [d][1..] == [];
    } else {
      assert (cs + [d])[0] == cs[0];
      assert (cs + [d])[1..] == cs[1..] + [d];
      AllCleanSnoc(cs[1..], d);
    }
  }

  lemma {:induction false} ScanClean(s: string, i: nat, level: int, start: nat, acc: seq<Sym>)
    requires start <= i <= |s|
    requires AllClean(acc)
    requires level == 0 ==> NoSpecial(s[start..i])
    ensures Scan(s, i, level, start, acc).Success? ==> Clean(Scan(s, i, level, start, acc).value)
    decreases |s|, 0, |s| - i
  {
    if i < |s| && level >= 0 {
      if s[i] == '(' {
        ScanClean(s, i + 1, level + 1, if level == 0 then i + 1 else start, acc);
      } else if s[i] == ')' {
        if level - 1 == 0 {
          ParseClean(s[start..i]);
          var inner := ParseSpec(s[start..i]);
          if inner.Success? {
            AllCleanSnoc(acc, inner.value);
            ScanClean(s, i + 1, 0, i + 1, acc + [inner.value]);
          }
        } else {
          ScanClean(s, i + 1, level - 1, start, acc);
        }
      } else if s[i] == ' ' && level == 0 {
        if i > start {
          AllCleanSnoc(acc, Leaf(s[start..i]));
        }
        ScanClean(s, i + 1, 0, i + 1, if i > start then acc + [Leaf(s[start..i])] else acc);
      } else {
        if level == 0 {
          assert s[start..i + 1] == s[start..i] + [s[i]];
        }
        ScanClean(s, i + 1, level, start, acc);
      }
    } else if level == 0 && i > start {
      AllCleanSnoc(acc, Leaf(s[start..i]));
    }
  }

  /**
   * Every leaf parseReal produces is non-empty and holds no ' ', '(' or ')';
   * tabs and newlines are ordinary leaf characters.
   */
  lemma {:induction false} ParseClean(s: string)
    ensures ParseSpec(s).Success? ==> Clean(ParseSpec(s).value)
    decreases |s|, 1, 0
  {
    ScanClean(s, 0, 0, 0, []);
  }

  // ---------------------------------------------------------------------
  // Printing then parsing gives the tree back
  // ---------------------------------------------------------------------

  lemma {:induction false} LeafDepth(x: string)
    requires NoSpecial(x)
    ensures Depth(x) == 0
  {
    if x != [] {
      LeafDepth(x[1..]);
    }
  }

  /** Printed parentheses are balanced when no leaf holds a parenthesis. */
  lemma {:induction false} PrintListBalanced(cs: seq<Sym>)
    requires AllClean(cs)
    ensures Balanced(PrintList(cs))
    decreases cs
  {
    if cs == [] {
      return;
    }
    var head := PrintChild(cs[0]);
    PrintChildBalanced(cs[0]);
    if |cs| == 1 {
      return;
    }
    PrintListBalanced(cs[1..]);
    var tail := PrintList(cs[1..]);
    var all := head + " " + tail;
    assert all == head + (" " + tail);
    DepthAppend(head, " " + tail);
    assert (" " + tail)[1..] == tail;
    forall k | 0 <= k <= |all| ensures Depth(all[..k]) >= 0 {
      if k <= |head| {
        assert all[..k] == head[..k];
      } else {
        assert all[..k] == head + all[|head|..k];
        DepthAppend(head, all[|head|..k]);
        assert all[|head|..k][1..] == tail[..k - |head| - 1];
      }
    }
  }

  lemma {:induction false} PrintChildBalanced(c: Sym)
    requires Clean(c)
    ensures Balanced(PrintChild(c))
    decreases c
  {
    match c
    case Leaf(x) =>
      forall k | 0 <= k <= |x| ensures Depth(x[..k]) >= 0 {
        LeafDepth(x[..k]);
      }
      LeafDepth(x);
    case Node(cs) =>
      PrintListBalanced(cs);
      var inner := PrintList(cs);
      var p := "(" + inner + ")";
      assert p == "(" + (inner + ")");
      DepthAppend(inner, ")");
      assert p[1..] == inner + ")";
      forall k | 0 <= k <= |p| ensures Depth(p[..k]) >= 0 {
        if k > 0 {
          if k <= |inner| + 1 {
            assert p[..k][1..] == inner[..k - 1];
          } else {
            assert p[..k] == p;
          }
        }
      }
  }

  /**
   * Scanning a balanced stretch at a positive level leaves the pending
   * start and the collected children alone and restores the level.
   */
  lemma {:induction false} ScanThroughGroup(s: string, i: nat, j: nat, level: int, start: nat, acc: seq<Sym>)
    requires start <= i <= j <= |s|
    requires level >= 1
    requires forall k :: i <= k <= j ==> level + Depth(s[i..k]) >= 1
    ensures Scan(s, i, level, start, acc) == Scan(s, j, level + Depth(s[i..j]), start, acc)
    decreases j - i
  {
    if i < j {
      assert level + Depth(s[i..i + 1]) >= 1;
      assert Depth(s[i..i + 1]) == Delta(s[i]);
      assert Depth(s[i..j]) == Delta(s[i]) + Depth(s[i + 1..j]) by {
        assert s[i..j][1..] == s[i + 1..j];
      }
      var next := i + 1;
      forall k | next <= k <= j ensures level + Delta(s[i]) + Depth(s[next..k]) >= 1 {
        assert s[i..k][1..] == s[next..k];
      }
      ScanThroughGroup(s, i + 1, j, level + Delta(s[i]), start, acc);
    }
  }

  /** The remainder of `s` from `i` on is exactly the printing of `cs`. */
  lemma {:induction false} ScanPrinted(s: string, i: nat, acc: seq<Sym>, cs: seq<Sym>)
    requires i <= |s| && s[i..] == PrintList(cs)
    requires AllClean(cs)
    ensures Scan(s, i, 0, i, acc) == Success(Node(acc + cs))
    decreases cs, 2
  {
    if cs == [] {
      assert acc + cs == acc;
      return;
    }
    var c := cs[0];
    var head := PrintChild(c);
    var j := i + |head|;
    if |cs| == 1 {
      assert s[i..j] == head && j == |s|;
      ScanChild(s, i, j, acc, c);
      assert acc + cs == acc + [c];
    } else {
      assert PrintList(cs) == head + (" " + PrintList(cs[1..]));
      assert s[i..j] == head;
      assert s[j] == ' ';
      assert s[j + 1..] == PrintList(cs[1..]);
      ScanChild(s, i, j, acc, c);
      ScanPrinted(s, j + 1, acc + [c], cs[1..]);
      assert acc + [c] + cs[1..] == acc + cs;
    }
  }

  /**
   * Reading one printed child at level 0 collects it once the scan reaches
   * the separating ' ' or the end of the input.
   */
  lemma {:induction false} ScanChild(s: string, i: nat, j: nat, acc: seq<Sym>, c: Sym)
    requires i <= j <= |s| && s[i..j] == PrintChild(c) && Clean(c)
    requires j < |s| ==> s[j] == ' '
    ensures j == |s| ==> Scan(s, i, 0, i, acc) == Success(Node(acc + [c]))
    ensures j < |s| ==> Scan(s, i, 0, i, acc) == Scan(s, j + 1, 0, j + 1, acc + [c])
    decreases c, 1
  {
    match c {
      case Leaf(x) =>
        ScanLeaf(s, i, j, acc);
      case Node(ch) =>
        var inner := PrintList(ch);
        assert PrintChild(c) == "(" + inner + ")";
        assert s[i] == s[i..j][0] == '(';
        assert s[j - 1] == s[i..j][j - 1 - i] == ')';
        PrintListBalanced(ch);
        var lo, hi := i + 1, j - 1;
        assert s[lo..hi] == inner by {
          var p := s[i..j];
          assert p == "(" + inner + ")" && |p| == |inner| + 2;
          forall m | 0 <= m < |inner| ensures s[lo + m] == inner[m] {
            assert s[lo + m] == p[m + 1];
          }
        }
        forall k | lo <= k <= hi ensures 1 + Depth(s[lo..k]) >= 1 {
          assert s[lo..k] == inner[..k - lo];
        }
        ScanThroughGroup(s, lo, hi, 1, lo, acc);
        RoundTrip(c);
        assert Scan(s, i, 0, i, acc) == Scan(s, j, 0, j, acc + [c]);
    }
  }

  /** Reading a leaf's text at level 0 collects it at the next ' ' or the end. */
  lemma {:induction false} ScanLeaf(s: string, i: nat, j: nat, acc: seq<Sym>)
    requires i < j <= |s| && NoSpecial(s[i..j])
    requires j < |s| ==> s[j] == ' '
    ensures j == |s| ==> Scan(s, i, 0, i, acc) == Success(Node(acc + [Leaf(s[i..j])]))
    ensures j < |s| ==> Scan(s, i, 0, i, acc) == Scan(s, j + 1, 0, j + 1, acc + [Leaf(s[i..j])])
  {
    var k := i;
    while k < j
      invariant i <= k <= j
      invariant Scan(s, i, 0, i, acc) == Scan(s, k, 0, i, acc)
    {
      assert s[k] == s[i..j][k - i];
      k := k + 1;
    }
  }

  /** For every tree with clean leaves, parseReal(t.toString()) rebuilds t. */
  lemma {:induction false} RoundTrip(t: Sym)
    requires t.Node? && Clean(t)
    ensures ParseSpec(Print(t)) == Success(t)
    decreases t, 0
  {
    var s := Print(t);
    assert s[0..] == s;
    ScanPrinted(s, 0, [], t.children);
    assert [] + t.children == t.children;
  }

  // ---------------------------------------------------------------------
  // Printer facts and worked examples
  // ---------------------------------------------------------------------

  /** A node with no children prints as the empty string. */
  lemma PrintEmpty()
    ensures Print(Node([])) == ""
  {
  }

  /** A node printed inside its parent: "(" + toString + ")". */
  lemma PrintChildNode(cs: seq<Sym>)
    ensures PrintChild(Node(cs)) == "(" + PrintList(cs) + ")"
  {
  }

  /**
   * Each depth-zero group of the input becomes one child of the root, and
   * printing puts one space between them: "(A)(B)" prints as "(A) (B)".
   */
  lemma TwoGroups()
    ensures ParseSpec("(A)(B)") == Success(Node([Node([Leaf("A")]), Node([Leaf("B")])]))
    ensures Print(Node([Node([Leaf("A")]), Node([Leaf("B")])])) == "(A) (B)"
  {
    var s := "(A)(B)";
    assert ParseSpec("A") == Success(Node([Leaf("A")])) by {
      assert Scan("A", 0, 0, 0, []) == Scan("A", 1, 0, 0, []);
      assert "A"[0..1] == "A" && [] + [Leaf("A")] == [Leaf("A")];
      assert Scan("A", 1, 0, 0, []) == Success(Node([] + [Leaf("A"[0..1])]));
    }
    assert ParseSpec("B") == Success(Node([Leaf("B")])) by {
      assert Scan("B", 0, 0, 0, []) == Scan("B", 1, 0, 0, []);
      assert "B"[0..1] == "B" && [] + [Leaf("B")] == [Leaf("B")];
      assert Scan("B", 1, 0, 0, []) == Success(Node([] + [Leaf("B"[0..1])]));
    }
    assert s[0] == '(' && s[1] == 'A' && s[2] == ')' && s[3] == '(' && s[4] == 'B' && s[5] == ')';
    assert s[1..2] == "A" && s[4..5] == "B";
    var a, b := Node([Leaf("A")]), Node([Leaf("B")]);
    assert Scan(s, 0, 0, 0, []) == Scan(s, 1, 1, 1, []);
    assert Scan(s, 1, 1, 1, []) == Scan(s, 2, 1, 1, []);
    assert [] + [a] == [a];
    assert Scan(s, 2, 1, 1, []) == Scan(s, 3, 0, 3, [a]);
    assert Scan(s, 3, 0, 3, [a]) == Scan(s, 4, 1, 4, [a]);
    assert Scan(s, 4, 1, 4, [a]) == Scan(s, 5, 1, 4, [a]);
    assert Scan(s, 5, 1, 4, [a]) == Scan(s, 6, 0, 6, [a] + [b]);
    assert [a] + [b] == [a, b];
    assert Print(a) == "A" && Print(b) == "B";
    assert PrintList([a, b]) == PrintChild(a) + " " + PrintList([b]);
  }

  /** Text directly before a depth-zero '(' is dropped: "a(b)" loses "a". */
  lemma DroppedPrefix()
    ensures ParseSpec("a(b)") == Success(Node([Node([Leaf("b")])]))
  {
    var s := "a(b)";
    assert ParseSpec("b") == Success(Node([Leaf("b")])) by {
      assert Scan("b", 0, 0, 0, []) == Scan("b", 1, 0, 0, []);
      assert "b"[0..1] == "b" && [] + [Leaf("b")] == [Leaf("b")];
      assert Scan("b", 1, 0, 0, []) == Success(Node([] + [Leaf("b"[0..1])]));
    }
    assert s[2..3] == "b";
    assert Scan(s, 0, 0, 0, []) == Scan(s, 1, 0, 0, []);
    assert Scan(s, 1, 0, 0, []) == Scan(s, 2, 1, 2, []);
    assert Scan(s, 2, 1, 2, []) == Scan(s, 3, 1, 2, []);
    assert [] + [Node([Leaf("b")])] == [Node([Leaf("b")])];
    assert Scan(s, 3, 1, 2, []) == Scan(s, 4, 0, 4, [Node([Leaf("b")])]);
  }

  /** Runs of spaces produce no empty leaves. */
  lemma RepeatedSpaces()
    ensures ParseSpec("a  b") == Success(Node([Leaf("a"), Leaf("b")]))
  {
    var s := "a  b";
    assert s[0..1] == "a" && s[3..4] == "b";
    assert Scan(s, 0, 0, 0, []) == Scan(s, 1, 0, 0, []);
    assert [] + [Leaf("a")] == [Leaf("a")];
    assert Scan(s, 1, 0, 0, []) == Scan(s, 2, 0, 2, [Leaf("a")]);
    assert Scan(s, 2, 0, 2, [Leaf("a")]) == Scan(s, 3, 0, 3, [Leaf("a")]);
    assert Scan(s, 3, 0, 3, [Leaf("a")]) == Scan(s, 4, 0, 3, [Leaf("a")]);
    assert [Leaf("a")] + [Leaf("b")] == [Leaf("a"), Leaf("b")];
  }
}
