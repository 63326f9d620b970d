/** The expression tree of pybamm as values: a node is its class, its name and
    its ordered children. The structural identity `Id`, the pre-order
    traversal `PreOrder`, the string form `Str`, the four arithmetic builders
    and the base `Evaluate` are functions on these values. */
module ExpressionTree {
  import opened Results

  /** The Python class of a node. `OtherClass` stands for a subclass of
      `Symbol` (a scalar, a variable, ...) that this model does not define,
      identified by its name: two distinct Python classes that share a name
      are distinct class objects in the hashed tuple, but one `Kind` here. */
  datatype Kind =
    | SymbolClass
    | AdditionClass
    | SubtractionClass
    | MultiplicationClass
    | DivisionClass
    | OtherClass(className: string)

  /** A node of the expression tree; attaching copies a node, and a copy of a
      value is the value itself. */
  datatype Node = Node(kind: Kind, name: string, children: seq<Node>)

  /** The tuple `(class, name, child id, child id, ...)` that `id` hashes. */
  datatype HashInput = HashInput(cls: Kind, name: string, childIds: seq<int>)

  /** Python's `hash` on such tuples: a function the model takes as a parameter. */
  type Hash = HashInput -> int

  /** The hash primitive maps distinct tuples to distinct integers. Python's
      `hash` does not promise this; lemmas that need it say so. */
  ghost predicate Injective(h: Hash)
  {
    forall x, y :: h(x) == h(y) ==> x == y
  }

  /** The structural identity: the hash of the node's class, its name and its
      children's identities in order, recomputed on every call. */
  function Id(h: Hash, n: Node): (id: int)
    ensures id == h(HashInput(n.kind, n.name,
                              seq(|n.children|, i requires 0 <= i < |n.children| => Id(h, n.children[i]))))
  {
    var ids := ChildIds(h, n.children);
    assert ids == seq(|n.children|, i requires 0 <= i < |n.children| => Id(h, n.children[i]));
    h(HashInput(n.kind, n.name, ids))
  }

  /** The identities of a list of nodes, one per node, in order. */
  function ChildIds(h: Hash, cs: seq<Node>): (ids: seq<int>)
    ensures |ids| == |cs|
    ensures forall i :: 0 <= i < |cs| ==> ids[i] == Id(h, cs[i])
  {
    if cs == [] then [] else [Id(h, cs[0])] + ChildIds(h, cs[1..])
  }

  /** The string form of a node is its name. */
  function Str(n: Node): string
  {
    n.name
  }

  /** The number of nodes of a tree. */
  function Size(n: Node): nat
  {
    1 + SizeAll(n.children)
  }

  function SizeAll(cs: seq<Node>): nat
  {
    if cs == [] then 0 else Size(cs[0]) + SizeAll(cs[1..])
  }

  /** `x` is `n` or a node of one of `n`'s subtrees. */
  predicate IsSubtree(x: Node, n: Node)
  {
    x == n || exists i :: 0 <= i < |n.children| && IsSubtree(x, n.children[i])
  }

  /** The nodes of a tree in pre-order: the root, then each child's pre-order
      sequence from left to right. */
  function PreOrder(n: Node): (r: seq<Node>)
    ensures |r| == Size(n)
    ensures r[0] == n
  {
    [n] + PreOrderAll(n.children)
  }

  function PreOrderAll(cs: seq<Node>): (r: seq<Node>)
    ensures |r| == SizeAll(cs)
  {
    if cs == [] then [] else PreOrder(cs[0]) + PreOrderAll(cs[1..])
  }

  function Names(ns: seq<Node>): (r: seq<string>)
    ensures |r| == |ns|
    ensures forall i :: 0 <= i < |ns| ==> r[i] == ns[i].name
  {
    if ns == [] then [] else [ns[0].name] + Names(ns[1..])
  }

  /** The right operand of an arithmetic operator: a `Symbol`, or any other
      Python object (a number, say). */
  datatype Operand = Sym(node: Node) | NotASymbol

  /** The two `NotImplementedError`s the node raises. */
  datatype Error =
    | UnsupportedOperand
    | EvaluateNotImplemented(symbol: string, kind: Kind)

  datatype ArithOp = Plus | Minus | Times | Over

  function OperatorClass(op: ArithOp): Kind
  {
    match op
    case Plus => AdditionClass
    case Minus => SubtractionClass
    case Times => MultiplicationClass
    case Over => DivisionClass
  }

  /** The name an operator node is given. */
  function OperatorName(op: ArithOp): string
  {
    match op
    case Plus => "+"
    case Minus => "-"
    case Times => "*"
    case Over => "/"
  }

  /** The builder behind `+ - * /`: a new node of the operator's class whose
      two children are copies of `self` and `other`, or an error when `other`
      is not a `Symbol`. */
  function Build(op: ArithOp, self: Node, other: Operand): (r: Result<Node, Error>)
    ensures r.Ok? <==> other.Sym?
    ensures r.Err? ==> r.error == UnsupportedOperand
    ensures r.Ok? ==> r.value.kind == OperatorClass(op) && r.value.name == OperatorName(op)
    ensures r.Ok? ==> r.value.children == [self, other.node]
  {
    match other
    case Sym(o) => Ok(Node(OperatorClass(op), OperatorName(op), [self, o]))
    case NotASymbol => Err(UnsupportedOperand)
  }

  /** `self + other` */
  function Add(self: Node, other: Operand): (r: Result<Node, Error>)
    ensures other.NotASymbol? ==> r == Err(UnsupportedOperand)
    ensures other.Sym? ==> r.Ok? && r.value.kind == AdditionClass && r.value.children == [self, other.node]
  {
    Build(Plus, self, other)
  }

  /** `self - other` */
  function Sub(self: Node, other: Operand): (r: Result<Node, Error>)
    ensures other.NotASymbol? ==> r == Err(UnsupportedOperand)
    ensures other.Sym? ==> r.Ok? && r.value.kind == SubtractionClass && r.value.children == [self, other.node]
  {
    Build(Minus, self, other)
  }

  /** `self * other`; the node is named `*`. */
  function Mul(self: Node, other: Operand): (r: Result<Node, Error>)
    ensures other.NotASymbol? ==> r == Err(UnsupportedOperand)
    ensures other.Sym? ==> r.Ok? && r.value.kind == MultiplicationClass && Str(r.value) == "*"
    ensures other.Sym? ==> r.Ok? && r.value.children == [self, other.node]
  {
    Build(Times, self, other)
  }

  /** `self / other` */
  function TrueDiv(self: Node, other: Operand): (r: Result<Node, Error>)
    ensures other.NotASymbol? ==> r == Err(UnsupportedOperand)
    ensures other.Sym? ==> r.Ok? && r.value.kind == DivisionClass && r.value.children == [self, other.node]
  {
    Build(Over, self, other)
  }

  /** What a concrete subclass's `evaluate` returns: a number or an array. */
  datatype Value = Scalar(x: real) | Vector(xs: seq<real>)

  /** The base `evaluate(t, y)`: it fails for every time and state vector,
      naming the node by its string form and its class. */
  function Evaluate(n: Node, t: Option<real> := None, y: Option<seq<real>> := None): (r: Result<Value, Error>)
    ensures r.Err? && r.error.EvaluateNotImplemented?
    ensures r.error.symbol == n.name && r.error.kind == n.kind
  {
    Err(EvaluateNotImplemented(Str(n), n.kind))
  }

  // ---------------------------------------------------------------------
  // Identity

  /** `id` depends on the class, the name and the children's ids in order,
      and on nothing else. */
  lemma {:induction false} IdDependsOnlyOnParts(h: Hash, a: Node, b: Node)
    requires a.kind == b.kind && a.name == b.name
    requires |a.children| == |b.children|
    requires forall i :: 0 <= i < |a.children| ==> Id(h, a.children[i]) == Id(h, b.children[i])
    ensures Id(h, a) == Id(h, b)
  {
    forall i | 0 <= i < |a.children|
      ensures ChildIds(h, a.children)[i] == ChildIds(h, b.children)[i]
    {
    }
    assert ChildIds(h, a.children) == ChildIds(h, b.children);
  }

  /** With a collision-free hash primitive, equal ids mean equal trees. */
  lemma {:induction false} IdInjective(h: Hash, a: Node, b: Node)
    requires Injective(h)
    ensures Id(h, a) == Id(h, b) <==> a == b
  {
    if Id(h, a) == Id(h, b) {
      assert ChildIds(h, a.children) == ChildIds(h, b.children);
      forall i | 0 <= i < |a.children|
        ensures a.children[i] == b.children[i]
      {
        IdInjective(h, a.children[i], b.children[i]);
      }
    }
  }

  /** `id` is sensitive to the order of the operands: with a collision-free
      hash primitive, `a op b` and `b op a` differ in id when `a` and `b` do. */
  lemma {:induction false} IdOrderSensitive(h: Hash, op: ArithOp, a: Node, b: Node)
    requires Injective(h)
    requires Id(h, a) != Id(h, b)
    ensures Build(op, a, Sym(b)).Ok? && Build(op, b, Sym(a)).Ok?
    ensures Id(h, Build(op, a, Sym(b)).value) != Id(h, Build(op, b, Sym(a)).value)
  {
    var ab := Build(op, a, Sym(b)).value;
    var ba := Build(op, b, Sym(a)).value;
    IdInjective(h, a, b);
    assert ab.children[0] != ba.children[0];
    IdInjective(h, ab, ba);
  }

  /** The id of a built node combines the operator's class and name with the
      ids of `self` and `other`, in that order. */
  lemma {:induction false} BuildId(h: Hash, op: ArithOp, self: Node, other: Node)
    ensures Build(op, self, Sym(other)).Ok?
    ensures Id(h, Build(op, self, Sym(other)).value)
         == h(HashInput(OperatorClass(op), OperatorName(op), [Id(h, self), Id(h, other)]))
  {
    var cs := [self, other];
    var r := Node(OperatorClass(op), OperatorName(op), cs);
    assert r == Build(op, self, Sym(other)).value;
    assert cs[1..] == [other];
    assert [other][1..] == [];
    assert ChildIds(h, cs) == [Id(h, self)] + ChildIds(h, [other]);
    assert ChildIds(h, [other]) == [Id(h, other)];
    assert [Id(h, self)] + [Id(h, other)] == [Id(h, self), Id(h, other)];
  }

  // ---------------------------------------------------------------------
  // Pre-order traversal

  /** The pre-order sequence of a list of trees splits at any index. */
  lemma {:induction false} PreOrderAllSplit(cs: seq<Node>, i: nat)
    requires i <= |cs|
    ensures PreOrderAll(cs) == PreOrderAll(cs[..i]) + PreOrderAll(cs[i..])
  {
    if i > 0 {
      PreOrderAllSplit(cs[1..], i - 1);
      assert cs[..i][1..] == cs[1..][..i - 1];
      assert cs[1..][i - 1..] == cs[i..];
    } else {
      assert cs[..0] == [];
      assert cs[0..] == cs;
    }
  }

  /** Child `i`'s pre-order sequence is the block of the parent's pre-order
      sequence that starts after the root and the blocks of the children
      before `i`. */
  lemma {:induction false} PreOrderChildBlock(n: Node, i: nat)
    requires i < |n.children|
    ensures var start := 1 + SizeAll(n.children[..i]);
            start + Size(n.children[i]) <= Size(n) &&
            PreOrder(n)[start..start + Size(n.children[i])] == PreOrder(n.children[i])
  {
    var cs := n.children;
    PreOrderAround(cs, i);
    var before, block, after := [n] + PreOrderAll(cs[..i]), PreOrder(cs[i]), PreOrderAll(cs[i + 1..]);
    MiddleSlice(before, block, after);
  }

  /** The pre-order sequence of a list of trees around its `i`th tree. */
  lemma {:induction false} PreOrderAround(cs: seq<Node>, i: nat)
    requires i < |cs|
    ensures PreOrderAll(cs) == PreOrderAll(cs[..i]) + (PreOrder(cs[i]) + PreOrderAll(cs[i + 1..]))
  {
    PreOrderAllSplit(cs, i);
    assert cs[i..][1..] == cs[i + 1..];
  }

  lemma {:induction false} MiddleSlice<T>(p: seq<T>, q: seq<T>, r: seq<T>)
    ensures (p + (q + r))[|p|..|p| + |q|] == q
  {
  }

  /** The pre-order sequence holds exactly the nodes of the tree. */
  lemma {:induction false} PreOrderMembers(x: Node, n: Node)
    ensures x in PreOrder(n) <==> IsSubtree(x, n)
  {
    PreOrderAllMembers(x, n.children);
  }

  lemma {:induction false} PreOrderAllMembers(x: Node, cs: seq<Node>)
    ensures x in PreOrderAll(cs) <==> exists i :: 0 <= i < |cs| && IsSubtree(x, cs[i])
  {
    if cs != [] {
      PreOrderMembers(x, cs[0]);
      PreOrderAllMembers(x, cs[1..]);
      if exists i :: 0 <= i < |cs| && IsSubtree(x, cs[i]) {
        var i :| 0 <= i < |cs| && IsSubtree(x, cs[i]);
        if i > 0 {
          assert cs[1..][i - 1] == cs[i];
        }
      }
      if exists j :: 0 <= j < |cs[1..]| && IsSubtree(x, cs[1..][j]) {
        var j :| 0 <= j < |cs[1..]| && IsSubtree(x, cs[1..][j]);
        assert cs[j + 1] == cs[1..][j];
      }
    }
  }

  /** A built node's pre-order sequence is the node, then `self`'s pre-order
      sequence, then `other`'s. */
  lemma {:induction false} PreOrderOfBuild(op: ArithOp, self: Node, other: Node)
    ensures Build(op, self, Sym(other)).Ok?
    ensures var r := Build(op, self, Sym(other)).value;
            PreOrder(r) == [r] + PreOrder(self) + PreOrder(other) &&
            |PreOrder(r)| == 1 + Size(self) + Size(other)
  {
    var r := Node(OperatorClass(op), OperatorName(op), [self, other]);
    var p1, p2 := PreOrder(self), PreOrder(other);
    assert [other][1..] == [];
    assert PreOrderAll([other]) == p2 + PreOrderAll([]);
    assert PreOrderAll([self, other]) == p1 + PreOrderAll([other]);
    assert PreOrder(r) == [r] + p1 + p2;
    assert |PreOrder(r)| == 1 + Size(self) + Size(other);
    assert r == Build(op, self, Sym(other)).value;
  }

  /** The docstring's example: `(a*b).pre_order()` yields the names `*`, `a`, `b`. */
  lemma {:induction false} PreOrderOfProduct()
    ensures var a, b := Node(SymbolClass, "a", []), Node(SymbolClass, "b", []);
            Mul(a, Sym(b)).Ok? && Names(PreOrder(Mul(a, Sym(b)).value)) == ["*", "a", "b"]
  {
    var a, b := Node(SymbolClass, "a", []), Node(SymbolClass, "b", []);
    PreOrderOfBuild(Times, a, b);
  }

  // ---------------------------------------------------------------------
  // Evaluation

  /** The base `evaluate` gives the same failure whatever `t` and `y` are. */
  lemma EvaluateIgnoresArguments(n: Node, t1: Option<real>, y1: Option<seq<real>>,
                                 t2: Option<real>, y2: Option<seq<real>>)
    ensures Evaluate(n, t1, y1) == Evaluate(n, t2, y2)
  {
  }
}
