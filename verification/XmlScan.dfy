/**
  ScanXmlStream: turns the flat list of nodes an XML reader delivers into callbacks
  that carry the path of the node, keeping the open elements on a stack.
*/
module XmlScan {
  import opened Basics

  datatype Attribute = Attribute(prefix: string, local: string, value: string, isDefault: bool)

  // One node of the reader; `Other` are comments, CDATA, white space, processing instructions.  Of the
  // moves from one attribute of an element to the next, `moves` succeed before one fails.
  datatype Node =
    | Declaration
    | Element(prefix: string, local: string, attributes: seq<Attribute>, moves: nat, empty: bool)
    | EndElement
    | Text(value: string)
    | Other

  datatype Call =
    | Start(path: string, attributes: seq<(string, string)>)
    | Content(path: string, value: string)
    | End(path: string)

  function Name(prefix: string, local: string): string {
    if |prefix| > 0 then prefix + ":" + local else local
  }

  /** The attributes written in the document, without those a DTD would supply. */
  function Written(attributes: seq<Attribute>): seq<(string, string)> {
    if attributes == [] then []
    else
      var init, a := attributes[..|attributes|-1], attributes[|attributes|-1];
      if a.isDefault then Written(init) else Written(init) + [(Name(a.prefix, a.local), a.value)]
  }

  /** The attributes the reader gets to: all of them, unless a move to the next one fails. */
  function Reached(attributes: seq<Attribute>, moves: nat): seq<Attribute> {
    if moves + 1 < |attributes| then attributes[..moves+1] else attributes
  }

  function Steps(stack: seq<string>): string {
    if stack == [] then "" else Steps(stack[..|stack|-1]) + "/" + stack[|stack|-1]
  }

  function PathOf(stack: seq<string>): string {
    "/" + Steps(stack)
  }

  // ------------------------------------------------- documents as trees

  datatype Tree =
    | Tag(prefix: string, local: string, attributes: seq<Attribute>, children: Forest, shortForm: bool)
    | Words(value: string)
    | Ignored(declaration: bool)

  datatype Forest = Nil | Cons(head: Tree, tail: Forest)

  /** The nodes a reader delivers for a document; an element in short form gets no end node. */
  function Delivered(f: Forest): seq<Node> {
    match f
    case Nil => []
    case Cons(t, rest) => DeliveredTree(t) + Delivered(rest)
  }

  function DeliveredTree(t: Tree): seq<Node> {
    match t
    case Tag(p, l, a, children, shortForm) =>
      if shortForm && children.Nil? then [Element(p, l, a, |a|, true)]
      else [Element(p, l, a, |a|, false)] + Delivered(children) + [EndElement]
    case Words(v) => [Text(v)]
    case Ignored(declaration) => [if declaration then Declaration else Other]
  }

  /** Depth-first: start, everything inside, end, each with the names from the root down to the element. */
  function Traversal(above: seq<string>, f: Forest): seq<Call>
    decreases f
  {
    match f
    case Nil => []
    case Cons(t, rest) => TraversalTree(above, t) + Traversal(above, rest)
  }

  function TraversalTree(above: seq<string>, t: Tree): seq<Call>
    decreases t
  {
    match t
    case Tag(p, l, a, children, _) =>
      var here := above + [Name(p, l)];
      [Start(PathOf(here), Written(a))] + Traversal(here, children) + [End(PathOf(here))]
    case Words(v) => [Content(PathOf(above), v)]
    case Ignored(_) => []
  }

  function Tags(f: Forest): nat {
    match f
    case Nil => 0
    case Cons(t, rest) => (match t case Tag(_, _, _, children, _) => 1 + Tags(children) case Words(_) => 0 case Ignored(_) => 0) + Tags(rest)
  }

  function Texts(f: Forest): nat {
    match f
    case Nil => 0
    case Cons(t, rest) => (match t case Tag(_, _, _, children, _) => Texts(children) case Words(_) => 1 case Ignored(_) => 0) + Texts(rest)
  }

  datatype Counts = Counts(starts: nat, contents: nat, ends: nat)

  function Count(calls: seq<Call>): Counts {
    if calls == [] then Counts(0, 0, 0)
    else
      var n := Count(calls[..|calls|-1]);
      match calls[|calls|-1]
      case Start(_, _) => n.(starts := n.starts + 1)
      case Content(_, _) => n.(contents := n.contents + 1)
      case End(_) => n.(ends := n.ends + 1)
  }

  lemma {:induction false} CountConcat(a: seq<Call>, b: seq<Call>)
    ensures var m, n := Count(a), Count(b);
            Count(a + b) == Counts(m.starts + n.starts, m.contents + n.contents, m.ends + n.ends)
    decreases |b|
  {
    if b == [] {
      assert a + b == a;
    } else {
      CountConcat(a, b[..|b|-1]);
      assert (a + b)[..|a + b|-1] == a + b[..|b|-1];
    }
  }

  lemma CountOne(call: Call)
    ensures Count([call]) == Counts(if call.Start? then 1 else 0, if call.Content? then 1 else 0, if call.End? then 1 else 0)
  {
    assert [call][..0] == [];
  }

  /** Every element makes one start and one end callback, every text one content callback. */
  lemma {:induction false} CallsPerNode(above: seq<string>, f: Forest)
    ensures Count(Traversal(above, f)) == Counts(Tags(f), Texts(f), Tags(f))
    decreases f
  {
    if f.Cons? {
      CallsPerNode(above, f.tail);
      CountConcat(TraversalTree(above, f.head), Traversal(above, f.tail));
      match f.head
      case Tag(p, l, a, children, _) =>
        var here := above + [Name(p, l)];
        var first, last := Start(PathOf(here), Written(a)), End(PathOf(here));
        CallsPerNode(here, children);
        CountOne(first);
        CountOne(last);
        CountConcat([first] + Traversal(here, children), [last]);
        CountConcat([first], Traversal(here, children));
      case Words(v) => CountOne(Content(PathOf(above), v));
      case Ignored(_) =>
    }
  }

  // --------------------------------------------------- the scan as a function

  /** No end node without an open element, as every XML reader sees to. */
  predicate Nested(depth: nat, nodes: seq<Node>)
    decreases |nodes|
  {
    if nodes == [] then true
    else if nodes[0].Element? then Nested(if nodes[0].empty then depth else depth + 1, nodes[1..])
    else if nodes[0].EndElement? then depth > 0 && Nested(depth - 1, nodes[1..])
    else Nested(depth, nodes[1..])
  }

  function Push(stack: seq<string>, n: Node): seq<string>
    requires n.EndElement? ==> stack != []
  {
    if n.Element? && !n.empty then stack + [Name(n.prefix, n.local)]
    else if n.EndElement? then stack[..|stack|-1]
    else stack
  }

  function Callbacks(stack: seq<string>, n: Node): seq<Call> {
    match n
    case Element(p, l, a, moves, empty) =>
      var here := stack + [Name(p, l)];
      [Start(PathOf(here), Written(Reached(a, moves)))] + if empty then [End(PathOf(here))] else []
    case EndElement => [End(PathOf(stack))]
    case Text(v) => [Content(PathOf(stack), v)]
    case Declaration => []
    case Other => []
  }

  /** Every callback of a scan that none of them stops. */
  function Scan(stack: seq<string>, nodes: seq<Node>): seq<Call>
    requires Nested(|stack|, nodes)
    decreases |nodes|
  {
    if nodes == [] then [] else Callbacks(stack, nodes[0]) + Scan(Push(stack, nodes[0]), nodes[1..])
  }

  function StackAfter(stack: seq<string>, nodes: seq<Node>): seq<string>
    requires Nested(|stack|, nodes)
    decreases |nodes|
  {
    if nodes == [] then stack else StackAfter(Push(stack, nodes[0]), nodes[1..])
  }

  lemma {:induction false} ScanTwoParts(stack: seq<string>, a: seq<Node>, b: seq<Node>)
    requires Nested(|stack|, a) && Nested(|StackAfter(stack, a)|, b)
    ensures Nested(|stack|, a + b)
    ensures Scan(stack, a + b) == Scan(stack, a) + Scan(StackAfter(stack, a), b)
    ensures StackAfter(stack, a + b) == StackAfter(StackAfter(stack, a), b)
    decreases |a|
  {
    if a == [] {
      assert a + b == b;
    } else {
      assert (a + b)[0] == a[0] && (a + b)[1..] == a[1..] + b;
      var next := Push(stack, a[0]);
      ScanTwoParts(next, a[1..], b);
      Regroup(Callbacks(stack, a[0]), Scan(next, a[1..]), Scan(StackAfter(next, a[1..]), b));
    }
  }

  lemma {:induction false} PartsAreNested(stack: seq<string>, a: seq<Node>, b: seq<Node>)
    requires Nested(|stack|, a + b)
    ensures Nested(|stack|, a) && Nested(|StackAfter(stack, a)|, b)
    decreases |a|
  {
    if a == [] {
      assert a + b == b;
    } else {
      assert (a + b)[0] == a[0] && (a + b)[1..] == a[1..] + b;
      PartsAreNested(Push(stack, a[0]), a[1..], b);
    }
  }

  // ------------------------------------------------------------- theorems

  lemma ScanOne(stack: seq<string>, n: Node)
    requires n.EndElement? ==> stack != []
    ensures Nested(|stack|, [n]) && Scan(stack, [n]) == Callbacks(stack, n) && StackAfter(stack, [n]) == Push(stack, n)
  {
  }

  /** An element around nodes that leave the stack as they find it. */
  lemma ScanElement(above: seq<string>, open: Node, inside: seq<Node>)
    requires open.Element? && !open.empty
    requires var here := Push(above, open); Nested(|here|, inside) && StackAfter(here, inside) == here
    ensures Nested(|above|, [open] + inside + [EndElement])
    ensures Scan(above, [open] + inside + [EndElement])
         == Callbacks(above, open) + Scan(Push(above, open), inside) + Callbacks(Push(above, open), EndElement)
    ensures StackAfter(above, [open] + inside + [EndElement]) == above
  {
    var here := Push(above, open);
    ScanOne(above, open);
    ScanTwoParts(above, [open], inside);
    ScanOne(here, EndElement);
    ScanTwoParts(above, [open] + inside, [EndElement]);
  }

  lemma ScanOpenTag(above: seq<string>, p: string, l: string, a: seq<Attribute>, inside: seq<Node>, calls: seq<Call>)
    requires var here := above + [Name(p, l)];
             Nested(|here|, inside) && Scan(here, inside) == calls && StackAfter(here, inside) == here
    ensures var here, nodes := above + [Name(p, l)], [Element(p, l, a, |a|, false)] + inside + [EndElement];
            && Nested(|above|, nodes)
            && Scan(above, nodes) == [Start(PathOf(here), Written(a))] + calls + [End(PathOf(here))]
            && StackAfter(above, nodes) == above
  {
    var here := above + [Name(p, l)];
    ScanElement(above, Element(p, l, a, |a|, false), inside);
    assert [Start(PathOf(here), Written(a))] + [] == [Start(PathOf(here), Written(a))];
  }

  /** The callbacks are the depth-first traversal of the document, and every opened element is closed. */
  lemma {:induction false} ScanIsTraversal(above: seq<string>, f: Forest)
    ensures Nested(|above|, Delivered(f))
    ensures Scan(above, Delivered(f)) == Traversal(above, f)
    ensures StackAfter(above, Delivered(f)) == above
    decreases f
  {
    match f
    case Nil =>
    case Cons(t, rest) =>
      ScanTreeIsTraversal(above, t);
      ScanIsTraversal(above, rest);
      ScanTwoParts(above, DeliveredTree(t), Delivered(rest));
  }

  lemma {:induction false} ScanTreeIsTraversal(above: seq<string>, t: Tree)
    ensures Nested(|above|, DeliveredTree(t))
    ensures Scan(above, DeliveredTree(t)) == TraversalTree(above, t)
    ensures StackAfter(above, DeliveredTree(t)) == above
    decreases t
  {
    match t
    case Tag(p, l, a, children, shortForm) =>
      if shortForm && children.Nil? {
        ScanOne(above, Element(p, l, a, |a|, true));
      } else {
        var here := above + [Name(p, l)];
        ScanIsTraversal(here, children);
        ScanOpenTag(above, p, l, a, Delivered(children), Traversal(here, children));
      }
    case Words(v) => ScanOne(above, Text(v));
    case Ignored(declaration) => ScanOne(above, if declaration then Declaration else Other);
  }

  lemma IsPrefix<T>(a: seq<T>, b: seq<T>)
    ensures a <= a + b
  {
  }

  lemma FirstPartIsPrefix(stack: seq<string>, a: seq<Node>, b: seq<Node>)
    requires Nested(|stack|, a) && Nested(|StackAfter(stack, a)|, b)
    ensures Nested(|stack|, a + b) && Scan(stack, a) <= Scan(stack, a + b)
  {
    ScanTwoParts(stack, a, b);
    IsPrefix(Scan(stack, a), Scan(StackAfter(stack, a), b));
  }

  /** A document cut short at any node yields the beginning of its traversal. */
  lemma CutDocumentIsPrefix(f: Forest, read: seq<Node>, lost: seq<Node>)
    requires Delivered(f) == read + lost
    ensures Nested(0, read) && Scan([], read) <= Traversal([], f)
  {
    ScanIsTraversal([], f);
    PartsAreNested([], read, lost);
    FirstPartIsPrefix([], read, lost);
  }

  /** A node that causes no callback. */
  predicate Silent(n: Node) {
    n.Declaration? || n.Other?
  }

  /** Where a call to the reader fails: nowhere, or inside a node, before its callback or right after its start callback. */
  datatype Fault = Sound | Inside(node: nat, afterStart: bool)

  predicate CanFail(nodes: seq<Node>, fault: Fault) {
    fault.Inside? ==>
      && fault.node < |nodes|
      && (nodes[fault.node].Element? || (nodes[fault.node].Text? && !fault.afterStart))
  }

  /** The callbacks up to the fault, if none of them stops the scan. */
  function CallsBefore(nodes: seq<Node>, fault: Fault): seq<Call>
    requires Nested(0, nodes) && CanFail(nodes, fault)
  {
    if fault.Sound? then Scan([], nodes)
    else
      var before := nodes[..fault.node];
      assert before + nodes[fault.node..] == nodes;
      PartsAreNested([], before, nodes[fault.node..]);
      Scan([], before) + if fault.afterStart then Callbacks(StackAfter([], before), nodes[fault.node])[..1] else []
  }

  /**
    The callbacks made and whether success is returned.  The callback with number
    `failAt`, counted from zero, is the first that fails; what made the reader stop
    delivering nodes, the end of the document or an error in it, plays no part.
  */
  function Outcome(nodes: seq<Node>, fault: Fault, failAt: nat): (seq<Call>, bool)
    requires Nested(0, nodes) && CanFail(nodes, fault)
  {
    var calls := CallsBefore(nodes, fault);
    if failAt < |calls| then (calls[..failAt+1], false) else (calls, fault.Sound?)
  }

  lemma SilentIffQuiet(stack: seq<string>, n: Node)
    ensures Silent(n) <==> Callbacks(stack, n) == []
  {
  }

  lemma {:induction false} QuietIffSilent(stack: seq<string>, nodes: seq<Node>)
    requires Nested(|stack|, nodes)
    ensures Scan(stack, nodes) == [] <==> forall n :: n in nodes ==> Silent(n)
    decreases |nodes|
  {
    if nodes != [] {
      QuietIffSilent(Push(stack, nodes[0]), nodes[1..]);
      SilentIffQuiet(stack, nodes[0]);
      hide Callbacks, Silent;
      forall n ensures n in nodes <==> n == nodes[0] || n in nodes[1..] {
        assert nodes == [nodes[0]] + nodes[1..];
      }
    }
  }

  /**
    Cutting a document short is not noticed: success is returned.  The callbacks are
    those of the whole document exactly when only silent nodes were lost.
  */
  lemma CutDocumentIsCompleteIff(f: Forest, read: seq<Node>, lost: seq<Node>, failAt: nat)
    requires Delivered(f) == read + lost && failAt >= |Traversal([], f)|
    ensures Nested(0, read) && Outcome(read, Sound, failAt).1
    ensures Outcome(read, Sound, failAt).0 == Traversal([], f) <==> forall n :: n in lost ==> Silent(n)
  {
    ScanIsTraversal([], f);
    PartsAreNested([], read, lost);
    ScanTwoParts([], read, lost);
    var rest := Scan(StackAfter([], read), lost);
    QuietIffSilent(StackAfter([], read), lost);
    assert |Traversal([], f)| == |Scan([], read)| + |rest|;
    if rest == [] {
      assert Scan([], read) + rest == Scan([], read);
    }
  }

  /** A document of one element, cut before its end: success, and the end callback is missing. */
  lemma CutDocumentLosesCallbacks(name: string)
    ensures var root := Cons(Tag("", name, [], Nil, false), Nil);
            var read := [Element("", name, [], 0, false)];
            && read < Delivered(root) && Nested(0, read) && |Traversal([], root)| == 2
            && Outcome(read, Sound, 2) == (Traversal([], root)[..1], true)
  {
    var root := Cons(Tag("", name, [], Nil, false), Nil);
    var read := [Element("", name, [], 0, false)];
    assert Delivered(Nil) == [] && Traversal([Name("", name)], Nil) == [] && Traversal([], Nil) == [];
    assert Delivered(root) == [read[0]] + [] + [EndElement] + [];
    assert Delivered(root) == read + [EndElement];
    ScanOne([], read[0]);
    assert [] + [Name("", name)] == [Name("", name)];
    assert Traversal([], root) == Scan([], read) + [End(PathOf([Name("", name)]))];
  }

  lemma LastStep(prefix: string, a: string, prefix': string, b: string)
    requires '/' !in a && '/' !in b && prefix + "/" + a == prefix' + "/" + b
    ensures prefix == prefix' && a == b
  {
    var s := prefix + "/" + a;
    assert s[|prefix|] == '/' && s[|prefix'|] == '/';
    assert forall i :: |prefix| < i < |s| ==> s[i] == a[i - |prefix| - 1];
    assert forall i :: |prefix'| < i < |s| ==> s[i] == b[i - |prefix'| - 1];
    assert |prefix| == |prefix'|;
    assert prefix == s[..|prefix|] == prefix' && a == s[|prefix|+1..] == b;
  }

  /** Names contain no slash, so a path names one place in the document. */
  lemma {:induction false} PathNamesTheStack(a: seq<string>, b: seq<string>)
    requires (forall s :: s in a ==> '/' !in s) && (forall s :: s in b ==> '/' !in s)
    requires PathOf(a) == PathOf(b)
    ensures a == b
    decreases |a|
  {
    assert Steps(a) == PathOf(a)[1..] == PathOf(b)[1..] == Steps(b);
    if a != [] && b != [] {
      LastStep(Steps(a[..|a|-1]), a[|a|-1], Steps(b[..|b|-1]), b[|b|-1]);
      assert PathOf(a[..|a|-1]) == PathOf(b[..|b|-1]);
      PathNamesTheStack(a[..|a|-1], b[..|b|-1]);
      assert a == a[..|a|-1] + [a[|a|-1]] && b == b[..|b|-1] + [b[|b|-1]];
    }
  }

  /** The pieces of a text between the places where a character stands. */
  function Split(s: string, mark: char): (pieces: seq<string>)
    ensures |pieces| >= 1
  {
    if s == "" then [""]
    else
      var pieces := Split(s[..|s|-1], mark);
      var n := |pieces| - 1;
      if s[|s|-1] == mark then pieces + [""] else pieces[n := pieces[n] + [s[|s|-1]]]
  }

  lemma {:induction false} SplitNothing(s: string, mark: char)
    requires mark !in s
    ensures Split(s, mark) == [s]
  {
    if s != "" {
      SplitNothing(s[..|s|-1], mark);
      assert s == s[..|s|-1] + [s[|s|-1]];
    }
  }

  /** One more piece after a mark. */
  lemma {:induction false} SplitAfter(s: string, mark: char, piece: string)
    requires mark !in piece
    ensures Split(s + [mark] + piece, mark) == Split(s, mark) + [piece]
    decreases |piece|
  {
    var t := s + [mark] + piece;
    if piece == "" {
      assert t[..|t|-1] == s;
    } else {
      var init := piece[..|piece|-1];
      SplitAfter(s, mark, init);
      assert t[..|t|-1] == s + [mark] + init;
      assert piece == init + [piece[|piece|-1]];
      assert (Split(s, mark) + [init])[|Split(s, mark)| := piece] == Split(s, mark) + [piece];
    }
  }

  lemma {:induction false} StepsText(stack: seq<string>)
    requires forall s :: s in stack ==> '/' !in s
    ensures Split("/" + Steps(stack), '/') == ["", ""] + stack
  {
    if stack == [] {
      SplitAfter("", '/', "");
      SplitNothing("", '/');
      assert "" + ['/'] + "" == "/" + Steps(stack);
    } else {
      var init, last := stack[..|stack|-1], stack[|stack|-1];
      StepsText(init);
      SplitAfter("/" + Steps(init), '/', last);
      assert "/" + Steps(stack) == "/" + Steps(init) + ['/'] + last;
      assert ["", ""] + stack == ["", ""] + init + [last];
    }
  }

  /** Split at its slashes, a path is two empty pieces and then the names from the root down. */
  lemma PathText(stack: seq<string>)
    requires forall s :: s in stack ==> '/' !in s
    ensures Split(PathOf(stack), '/') == ["", ""] + stack
    ensures PathOf([]) == "/"
    ensures stack != [] ==> PathOf(stack) == PathOf(stack[..|stack|-1]) + "/" + stack[|stack|-1]
  {
    StepsText(stack);
  }

  /** A qualified name is its prefix and its local name around a colon, or the local name alone. */
  lemma NameText(prefix: string, local: string)
    requires ':' !in prefix && ':' !in local
    ensures Split(Name(prefix, local), ':') == if prefix == "" then [local] else [prefix, local]
  {
    SplitNothing(local, ':');
    if prefix != "" {
      SplitNothing(prefix, ':');
      SplitAfter(prefix, ':', local);
      assert prefix + [':'] + local == Name(prefix, local);
    }
  }

  /** Of one attribute its qualified name and value are kept unless a DTD supplied it; lists are kept piece by piece. */
  lemma WrittenMeaning(a: seq<Attribute>, x: Attribute, b: seq<Attribute>)
    ensures Written(a + [x] + b) == Written(a) + (if x.isDefault then [] else [(Name(x.prefix, x.local), x.value)]) + Written(b)
  {
    WrittenSplits(a + [x], b);
    WrittenSplits(a, [x]);
    assert [x][..0] == [];
  }

  // ------------------------------------------------------ the scan as a loop

  method BuildPath(stack: seq<string>) returns (path: string)
    ensures path == PathOf(stack)
  {
    path := "/";
    for i := 0 to |stack|
      invariant path == PathOf(stack[..i])
    {
      assert stack[..i+1][..i] == stack[..i];
      path := path + ("/" + stack[i]);
    }
    assert stack[..|stack|] == stack;
  }

  /** From attribute to attribute, until there is no next one or a move to it fails; a failing move is taken for the end. */
  method CollectAttributes(attributes: seq<Attribute>, moves: nat) returns (kept: seq<(string, string)>)
    ensures kept == Written(Reached(attributes, moves))
  {
    kept := [];
    var all := Reached(attributes, moves);
    var i: nat := 0;
    var atAttribute := attributes != [];
    while atAttribute
      invariant i <= |all| && kept == Written(all[..i]) && (atAttribute <==> i < |all|)
      decreases |all| - i
    {
      assert all[..i+1][..i] == all[..i];
      var a := attributes[i];
      if !a.isDefault {
        kept := kept + [(Name(a.prefix, a.local), a.value)];
      }
      atAttribute := i < moves && i + 1 < |attributes|;
      i := i + 1;
    }
    assert all[..|all|] == all;
  }

  lemma {:induction false} WrittenSplits(a: seq<Attribute>, b: seq<Attribute>)
    ensures Written(a + b) == Written(a) + Written(b)
    decreases |b|
  {
    if b == [] {
      assert a + b == a;
    } else {
      WrittenSplits(a, b[..|b|-1]);
      assert (a + b)[..|a + b|-1] == a + b[..|b|-1];
    }
  }

  lemma {:induction false} NothingWrittenIff(a: seq<Attribute>)
    ensures Written(a) == [] <==> forall x :: x in a ==> x.isDefault
  {
    if a != [] {
      NothingWrittenIff(a[..|a|-1]);
      assert a == a[..|a|-1] + [a[|a|-1]];
    }
  }

  /** A failing move between attributes is not noticed; the list is complete exactly when only defaulted attributes lay beyond it. */
  lemma AttributesCompleteIff(attributes: seq<Attribute>, moves: nat)
    ensures Written(Reached(attributes, moves)) == Written(attributes)
            <==> forall i :: moves < i < |attributes| ==> attributes[i].isDefault
  {
    hide Written;
    if moves + 1 < |attributes| {
      var lost := attributes[moves+1..];
      assert attributes[..moves+1] + lost == attributes;
      WrittenSplits(attributes[..moves+1], lost);
      NothingWrittenIff(lost);
      forall i | moves < i < |attributes| ensures attributes[i] in lost {
        assert lost[i - moves - 1] == attributes[i];
      }
    }
  }

  /** How one node is read: soundly, or a reader call fails before its callback or after its start callback. */
  datatype Break = Unbroken | BeforeCall | AfterStart

  predicate CanBreak(n: Node, b: Break) {
    (b.BeforeCall? ==> n.Element? || n.Text?) && (b.AfterStart? ==> n.Element?)
  }

  function CallsOf(stack: seq<string>, n: Node, b: Break): seq<Call>
    requires CanBreak(n, b)
  {
    match b
    case Unbroken => Callbacks(stack, n)
    case BeforeCall => []
    case AfterStart => Callbacks(stack, n)[..1]
  }

  /** One node: the stack and the callbacks it causes, until one of them or a reader call fails. */
  method ScanNode(n: Node, b: Break, stack0: seq<string>, before: seq<Call>, failAt: nat)
    returns (calls: seq<Call>, ok: bool, stack: seq<string>)
    requires (n.EndElement? ==> stack0 != []) && |before| <= failAt && CanBreak(n, b)
    ensures ok <==> b.Unbroken? && |before| + |Callbacks(stack0, n)| <= failAt
    ensures var all := before + CallsOf(stack0, n, b);
            calls == if |all| <= failAt then all else all[..failAt+1]
    ensures ok ==> stack == Push(stack0, n)
  {
    calls, ok, stack := before, true, stack0;
    if n.Element? {
      if b.BeforeCall? {
        ok := false;
        return;
      }
      stack := stack + [Name(n.prefix, n.local)];
      var attributes := CollectAttributes(n.attributes, n.moves);
      var path := BuildPath(stack);
      calls := calls + [Start(path, attributes)];
      if |calls| > failAt || b.AfterStart? {
        ok := false;
        return;
      }
      if n.empty {
        calls := calls + [End(path)];
        ok := |calls| <= failAt;
        stack := stack0;
      }
    } else if n.EndElement? {
      var path := BuildPath(stack);
      calls := calls + [End(path)];
      ok := |calls| <= failAt;
      stack := stack[..|stack|-1];
    } else if n.Text? {
      if b.BeforeCall? {
        ok := false;
        return;
      }
      var path := BuildPath(stack);
      calls := calls + [Content(path, n.value)];
      ok := |calls| <= failAt;
    }
  }

  lemma CutEarly<T>(a: seq<T>, b: seq<T>, k: nat)
    requires k <= |a|
    ensures (a + b)[..k] == a[..k]
  {
  }

  lemma ScanAhead(stack: seq<string>, nodes: seq<Node>, i: nat)
    requires i < |nodes| && Nested(|stack|, nodes[i..])
    ensures nodes[i].EndElement? ==> stack != []
    ensures Nested(|Push(stack, nodes[i])|, nodes[i+1..])
    ensures Scan(stack, nodes[i..]) == Callbacks(stack, nodes[i]) + Scan(Push(stack, nodes[i]), nodes[i+1..])
    ensures StackAfter(stack, nodes[i..]) == StackAfter(Push(stack, nodes[i]), nodes[i+1..])
  {
    hide Callbacks;
    assert nodes[i..][0] == nodes[i] && nodes[i..][1..] == nodes[i+1..];
  }

  /** Scans sound nodes, one after another, until a callback fails. */
  method ScanNodes(nodes: seq<Node>, failAt: nat) returns (calls: seq<Call>, ok: bool, stack: seq<string>)
    requires Nested(0, nodes)
    ensures ok <==> failAt >= |Scan([], nodes)|
    ensures calls == if ok then Scan([], nodes) else Scan([], nodes)[..failAt+1]
    ensures ok ==> stack == StackAfter([], nodes)
  {
    calls, ok, stack := [], true, [];
    assert nodes[0..] == nodes;
    for i := 0 to |nodes|
      invariant ok && |calls| <= failAt
      invariant Nested(|stack|, nodes[i..])
      invariant calls + Scan(stack, nodes[i..]) == Scan([], nodes)
      invariant StackAfter(stack, nodes[i..]) == StackAfter([], nodes)
    {
      ScanAhead(stack, nodes, i);
      hide Nested, Callbacks, Push;
      ghost var more, rest := Callbacks(stack, nodes[i]), Scan(Push(stack, nodes[i]), nodes[i+1..]);
      Regroup(calls, more, rest);
      ghost var before := calls;
      calls, ok, stack := ScanNode(nodes[i], Unbroken, stack, calls, failAt);
      if !ok {
        CutEarly(before + more, rest, failAt + 1);
        return;
      }
      assert calls == before + more;
    }
  }

  /** Reads until the reader stops, for whatever reason, or a callback or a reader call inside a node, other than a move between attributes, fails. */
  method ScanXmlStream(nodes: seq<Node>, fault: Fault, failAt: nat) returns (calls: seq<Call>, ok: bool)
    requires Nested(0, nodes) && CanFail(nodes, fault)
    ensures (calls, ok) == Outcome(nodes, fault, failAt)
  {
    var stack: seq<string>;
    if fault.Sound? {
      calls, ok, stack := ScanNodes(nodes, failAt);
      return;
    }
    ghost var before := nodes[..fault.node];
    assert before + nodes[fault.node..] == nodes;
    PartsAreNested([], before, nodes[fault.node..]);
    calls, ok, stack := ScanNodes(nodes[..fault.node], failAt);
    assert Scan([], before) + [] == Scan([], before);
    if ok {
      assert nodes[fault.node..][0] == nodes[fault.node];
      calls, ok, stack := ScanNode(nodes[fault.node], if fault.afterStart then AfterStart else BeforeCall, stack, calls, failAt);
    } else if fault.afterStart {
      CutEarly(Scan([], before), Callbacks(StackAfter([], before), nodes[fault.node])[..1], failAt + 1);
    }
  }
}
