/** The `Symbol` object as the source builds it: the node holds its children
    as objects with a back-reference to their parent, and construction copies
    each supplied child and attaches the copy, never the original. */
module SymbolObjects {
  import opened ExpressionTree

  class Symbol {
    const kind: Kind
    const name: string
    var children: seq<Symbol>
    var parent: Symbol?
    /** The tree this object stands for. */
    ghost var value: Node
    /** The objects this node's tree is made of. */
    ghost var Repr: set<Symbol>

    /** The object invariant: `value` is the class, the name and the values of
        the children objects, each child below this node in `Repr`. */
    ghost predicate Valid()
      reads this, Repr
      decreases Repr
    {
      && this in Repr
      && value.kind == kind && value.name == name
      && |value.children| == |children|
      && forall i :: 0 <= i < |children| ==>
           && children[i] in Repr && children[i].Repr <= Repr && this !in children[i].Repr
           && children[i].Valid() && children[i].value == value.children[i]
    }

    /** `copy.copy(original)`: a new object with the original's class, name,
        parent and children list; the children objects are shared with the
        original, not copied. */
    constructor Copy(original: Symbol)
      requires original.Valid()
      ensures Valid()
      ensures kind == original.kind && name == original.name
      ensures children == original.children && parent == original.parent
      ensures value == original.value
      ensures Repr == original.Repr - {original} + {this}
    {
      kind := original.kind;
      name := original.name;
      children := original.children;
      parent := original.parent;
      value := original.value;
      new;
      Repr := original.Repr - {original} + {this};
    }

    /** `Symbol(name, children)`: for each supplied child in turn, a copy is
        made, this node becomes the copy's parent and the copy is appended
        to this node's children. The originals are left as they were. */
    constructor (kind: Kind, name: string, children: seq<Symbol> := [])
      requires forall i :: 0 <= i < |children| ==> children[i].Valid()
      ensures Valid()
      ensures this.kind == kind && this.name == name && ExpressionTree.Str(value) == name
      ensures parent == null
      ensures value == Node(kind, name, Values(children))
      ensures |this.children| == |children| && fresh(this.children)
      ensures AttachedCopies(this, this.children, children)
      ensures Distinct(this.children)
      ensures forall i :: 0 <= i < |children| ==> children[i].parent == old(children[i].parent)
    {
      this.kind := kind;
      this.name := name;
      this.children := [];
      parent := null;
      value := Node(kind, name, []);
      new;
      Repr := {this};
      var i := 0;
      while i < |children|
        invariant i == |this.children| <= |children|
        invariant Valid() && parent == null
        invariant fresh(this.children) && this !in this.children
        invariant AttachedCopies(this, this.children, children)
        invariant Distinct(this.children)
      {
        var c := AttachCopy(children);
        i := i + 1;
      }
      ValueOfAttached(this, children);
    }

    /** The `name` property: the name given at construction, which is the
        name of the tree this object stands for. */
    function Name(): (s: string)
      reads this, Repr
      requires Valid()
      ensures s == value.name
    {
      name
    }

    /** `str(symbol)`: the object's name, the string form of its tree. */
    function Str(): (s: string)
      reads this, Repr
      requires Valid()
      ensures s == ExpressionTree.Str(value)
    {
      Name()
    }

    /** The `id` property: the hash of the class, the name and the ids of the
        children objects, walked afresh on every call. */
    function Id(h: Hash): (id: int)
      reads this, Repr
      requires Valid()
      decreases Repr, 1
      ensures id == ExpressionTree.Id(h, value)
    {
      h(HashInput(kind, name, ChildIdsFrom(h, 0)))
    }

    /** The ids of the children objects from index `k` on. */
    function ChildIdsFrom(h: Hash, k: nat): (ids: seq<int>)
      reads this, Repr
      requires Valid() && k <= |children|
      decreases Repr, 0, |children| - k
      ensures ids == ExpressionTree.ChildIds(h, value.children[k..])
    {
      if k == |children| then []
      else
        assert value.children[k..][1..] == value.children[k + 1..];
        [children[k].Id(h)] + ChildIdsFrom(h, k + 1)
    }

    /** `pre_order()`: this object, then the objects of each child's pre-order
        sequence from left to right. */
    function PreOrder(): (r: seq<Symbol>)
      reads this, Repr
      requires Valid()
      decreases Repr, 1
      ensures forall o :: o in r ==> o in Repr && o.name == o.value.name
      ensures Values(r) == ExpressionTree.PreOrder(value)
    {
      ValuesAppend([this], PreOrderFrom(0));
      [this] + PreOrderFrom(0)
    }

    /** The pre-order sequences of the children objects from index `k` on. */
    function PreOrderFrom(k: nat): (r: seq<Symbol>)
      reads this, Repr
      requires Valid() && k <= |children|
      decreases Repr, 0, |children| - k
      ensures forall o :: o in r ==> o in Repr && o.name == o.value.name
      ensures Values(r) == PreOrderAll(value.children[k..])
    {
      if k == |children| then []
      else
        assert value.children[k..][1..] == value.children[k + 1..];
        ValuesAppend(children[k].PreOrder(), PreOrderFrom(k + 1));
        children[k].PreOrder() + PreOrderFrom(k + 1)
    }

    /** One step of `__init__`'s loop, `copy.copy(child).parent = self`,
        where `child` is `originals[|children|]`. */
    method AttachCopy(originals: seq<Symbol>) returns (c: Symbol)
      requires Valid() && AttachedCopies(this, children, originals) && |children| < |originals|
      requires originals[|children|].Valid() && this !in originals[|children|].Repr
      requires this !in children && Distinct(children)
      modifies this
      ensures Valid() && fresh(c)
      ensures children == old(children) + [c] && parent == old(parent)
      ensures this !in children && AttachedCopies(this, children, originals)
      ensures Distinct(children)
    {
      c := new Symbol.Copy(originals[|children|]);
      Adopt(c);
      AttachedCopiesExtend(this, old(children), originals, c);
    }

    /** `c.parent = this` through anytree's parent setter: the back-reference
        of `c` is set and `c` is appended to this node's children. The
        setter's detaching of `c` from a parent it already had is not
        modelled: that parent is left as it was. */
    method Adopt(c: Symbol)
      requires Valid() && c.Valid()
      requires this !in c.Repr && c !in Repr
      modifies this, c
      ensures Valid()
      ensures children == old(children) + [c] && c.parent == this
      ensures value == Node(kind, name, old(value.children) + [c.value])
      ensures Repr == old(Repr) + c.Repr && parent == old(parent)
      ensures c.value == old(c.value) && c.children == old(c.children) && c.Repr == old(c.Repr)
    {
      c.parent := this;
      children := children + [c];
      value := Node(kind, name, value.children + [c.value]);
      Repr := Repr + c.Repr;
    }
  }

  /** No object occurs twice in `cs`. */
  predicate Distinct(cs: seq<Symbol>)
  {
    forall i, j :: 0 <= i < j < |cs| ==> cs[i] != cs[j]
  }

  /** Each of `copies` has `p` as its parent and the value and children list
      of the original at the same index. */
  ghost predicate AttachedCopies(p: Symbol, copies: seq<Symbol>, originals: seq<Symbol>)
    reads copies, originals
  {
    && |copies| <= |originals|
    && forall j :: 0 <= j < |copies| ==>
         && copies[j].parent == p
         && copies[j].value == originals[j].value
         && copies[j].children == originals[j].children
  }

  lemma AttachedCopiesExtend(p: Symbol, copies: seq<Symbol>, originals: seq<Symbol>, c: Symbol)
    requires AttachedCopies(p, copies, originals) && |copies| < |originals|
    requires c.parent == p && c.value == originals[|copies|].value
    requires c.children == originals[|copies|].children
    ensures AttachedCopies(p, copies + [c], originals)
  {
  }

  /** An attached copy has the same `id` as the original it was made from. */
  lemma AttachedCopyKeepsId(h: Hash, p: Symbol, copies: seq<Symbol>, originals: seq<Symbol>, i: nat)
    requires AttachedCopies(p, copies, originals) && i < |copies|
    requires copies[i].Valid() && originals[i].Valid()
    ensures copies[i].Id(h) == originals[i].Id(h)
  {
  }

  /** The docstring's example, on objects: the product of `a` and `b`
      visits `*`, `a`, `b`; its children are new objects with the ids of
      `a` and `b`, and neither `a` nor `b` gains a parent. The product is
      built by the base constructor with `MultiplicationClass` and `"*"`,
      standing for `Multiplication(a, b)`, which this model assumes makes
      a two-child node of its own class; no object-level `__mul__` is
      modelled. */
  method ProductExample(h: Hash) returns (a: Symbol, b: Symbol, product: Symbol, names: seq<string>)
    ensures a.parent == null && b.parent == null && product.parent == null
    ensures |product.children| == 2 && product.children[0] != product.children[1]
    ensures product.children[0] !in {a, b} && product.children[1] !in {a, b}
    ensures fresh(product.children[0]) && fresh(product.children[1])
    ensures a.Valid() && product.Valid() && product.children[0].Valid()
    ensures product.children[0].Id(h) == a.Id(h)
    ensures b.Valid() && product.children[1].Valid() && product.children[1].Id(h) == b.Id(h)
    ensures names == Names(Values(product.PreOrder())) && names == ["*", "a", "b"]
  {
    a := new Symbol(SymbolClass, "a");
    b := new Symbol(SymbolClass, "b");
    product := new Symbol(MultiplicationClass, "*", [a, b]);
    var visited := product.PreOrder();
    names := seq(|visited|, i requires 0 <= i < |visited| => visited[i].name);
    ProductValue(a.value, b.value, product.value);
    NamesOfVisited(visited, names);
  }

  /** The names of visited objects are the names of the trees they stand for. */
  lemma NamesOfVisited(visited: seq<Symbol>, names: seq<string>)
    requires forall o :: o in visited ==> o.name == o.value.name
    requires names == seq(|visited|, i requires 0 <= i < |visited| => visited[i].name)
    ensures names == Names(Values(visited))
  {
    ValuesAt(visited);
  }

  lemma ProductValue(a: Node, b: Node, p: Node)
    requires a == Node(SymbolClass, "a", []) && b == Node(SymbolClass, "b", [])
    requires p == Node(MultiplicationClass, "*", [a, b])
    ensures Names(ExpressionTree.PreOrder(p)) == ["*", "a", "b"]
  {
    PreOrderOfProduct();
    assert Mul(a, Sym(b)).value == p;
  }

  /** A valid node whose children are attached copies of `originals` stands
      for the tree with the originals' trees as its children. */
  lemma ValueOfAttached(s: Symbol, originals: seq<Symbol>)
    requires s.Valid() && AttachedCopies(s, s.children, originals)
    requires |s.children| == |originals|
    ensures s.value == Node(s.kind, s.name, Values(originals))
  {
    ValuesAt(originals);
  }

  lemma {:induction false} ValuesAt(cs: seq<Symbol>)
    ensures forall i :: 0 <= i < |cs| ==> Values(cs)[i] == cs[i].value
  {
    if cs != [] {
      ValuesAt(cs[1..]);
    }
  }

  /** The trees that a list of objects stands for. */
  ghost function Values(cs: seq<Symbol>): (vs: seq<Node>)
    reads cs
    ensures |vs| == |cs|
  {
    if cs == [] then [] else [cs[0].value] + Values(cs[1..])
  }

  lemma {:induction false} ValuesAppend(a: seq<Symbol>, b: seq<Symbol>)
    ensures Values(a + b) == Values(a) + Values(b)
  {
    if a != [] {
      ValuesAppend(a[1..], b);
      assert (a + b)[1..] == a[1..] + b;
    } else {
      assert a + b == b;
    }
  }
}
