# pybamm expression-tree node, modelled in Dafny

This project models `Symbol`, the base node of pybamm's expression tree
(`pybamm/expression_tree/symbol.py`). A `Symbol` has an immutable name, an
ordered list of children, and a structural `id` recomputed from its class, its
name and its children's ids. It also has a pre-order traversal, four
arithmetic builders (`+ - * /`) and a base `evaluate` that always raises.

There are three files:

- `results.dfy`, module `Results`: `Option` for Python's optional arguments,
  and `Result` for a value or a raised exception.
- `expression_tree.dfy`, module `ExpressionTree`: the tree as values. A node
  is `Node(kind, name, children)`, where `kind` is the node's Python class.
  It also holds the structural identity `Id`, the traversal `PreOrder`, the
  string form `Str`, the builders `Add`/`Sub`/`Mul`/`TrueDiv` and their
  shared body `Build`, the base `Evaluate`, and the lemmas about them.
- `symbol.dfy`, module `SymbolObjects`: `Symbol` as a heap object, with
  mutable `children` and `parent` fields.
  - Its constructor runs the `__init__` loop. For each child, in order, it
    makes a shallow copy (`copy.copy`, the `Copy` constructor), makes the
    new node the copy's parent, and appends the copy (`Adopt`). `Adopt`
    covers the part of anytree's parent setter that attaches a node to its
    new parent. The setter's detaching from an old parent is not modelled
    (see "Left out").
  - The ghost field `value` is the `Node` the object stands for, and
    `Valid()` ties it to the fields.
  - `Symbol.Id` (the `id` property) and `Symbol.PreOrder` (the `pre_order`
    method) walk the child objects, as the Python code does. Each is proved
    equal to its value-level counterpart. `Symbol.Name` and `Symbol.Str`
    return the object's name, which is proved to be the name of its tree.
  - The constructor's `children` and `evaluate`'s `t` and `y` have the same
    defaults as in Python: `[]` and `None`.

Python's `hash` is a foreign primitive whose results are randomised per run.
The model takes it as a parameter `h: HashInput -> int`, applied to the tuple
`(class, name, child ids...)`. Nothing here claims that `id` never collides.
Where a lemma needs "equal ids mean equal trees", it requires `h` to be
injective (`Injective(h)`).

In `Kind`, `OtherClass` stands for a subclass of `Symbol` (a scalar, a
variable, ...) that is not shown in the source. The source does not show the
`Addition`, `Subtraction`, `Multiplication` and `Division` classes either.
The model assumes each builds a two-child node of its own class, with
`self` and `other` as children. Only the name `*` of a product is evidenced
(the docstring at `symbol.py` lines 69-73). The names `+`, `-` and `/` of
the other three are assumed.

Both Python raises are `NotImplementedError`. The model tells them apart as
`UnsupportedOperand` (from the builders) and `EvaluateNotImplemented` (from
`evaluate`). The latter carries the node's string form and class, as the
message at lines 131-136 does.

## Model

| member | source | states |
|---|---|---|
| `SymbolObjects.Symbol.constructor` | pybamm/expression_tree/symbol.py:25-32 | The new node has the given class and name, and its string form is that name. It has no parent. It has one child per supplied child. Each child is a fresh copy whose parent is the new node and whose value and child list equal the original's. The copies are pairwise distinct objects, even when the same original is supplied twice. No original is among the new node's children. No original's parent changes. The node's value has the originals' values as its children, in order. |
| `SymbolObjects.Symbol.Copy` | pybamm/expression_tree/symbol.py:30-32 | `copy.copy(child)` is a new, valid object with the original's class, name, parent, value and child list. The original's children are shared with it, not copied. |
| `SymbolObjects.Symbol.Adopt` | pybamm/expression_tree/symbol.py:31-32 | Setting `c.parent = self` makes `self` the parent of `c` and appends `c` to `self`'s children. The node stays valid, and its value gains `c`'s value as its last child. |
| `SymbolObjects.Symbol.AttachCopy` | pybamm/expression_tree/symbol.py:29-32 | One loop step copies the next original and adopts the copy. Afterwards the children list is the old one plus the fresh copy. The attached children are copies of the originals at the same indices, and no object is attached twice. |
| `SymbolObjects.AttachedCopyKeepsId` | pybamm/expression_tree/symbol.py:29-32 | An attached copy has the same `id` as the original it came from. |
| `SymbolObjects.ValueOfAttached` | pybamm/expression_tree/symbol.py:29-32 | A valid node whose children are attached copies of the originals stands for the tree with the originals' trees as its children, in order. |
| `SymbolObjects.Symbol.Name` | pybamm/expression_tree/symbol.py:34-37 | The `name` property of a valid object is the name of the tree the object stands for. |
| `SymbolObjects.Symbol.Str` | pybamm/expression_tree/symbol.py:78-80 | `str(symbol)` of a valid object is the string form of its tree, which is the tree's name. |
| `SymbolObjects.ProductExample` | pybamm/expression_tree/symbol.py:66-73 | On objects, the names visited by `product.pre_order()`, for the product of leaves `a` and `b`, are `*`, `a`, `b`. The product is built by the base constructor with the multiplication class and the name `*`, which stands for `Multiplication(a, b)`. Its two children are distinct, freshly allocated objects, and neither is `a` or `b`. The first child has `a`'s id and the second has `b`'s. Neither `a`, `b` nor the product gains a parent. |
| `ExpressionTree.Id` | pybamm/expression_tree/symbol.py:39-50 | A tree's `id` is the hash of its class, its name and the `id` of each child, in order. |
| `SymbolObjects.Symbol.Id` | pybamm/expression_tree/symbol.py:39-50 | `id` on objects, recomputed over the child objects on each call, equals `ExpressionTree.Id` of the node's value. |
| `SymbolObjects.Symbol.PreOrder` | pybamm/expression_tree/symbol.py:59-76 | `pre_order()` on objects visits only objects of the tree, and the values it visits are `ExpressionTree.PreOrder` of the node's value. |
| `ExpressionTree.IdDependsOnlyOnParts` | pybamm/expression_tree/symbol.py:48-50 | Two nodes with the same class, the same name and pairwise equal child ids, in order, have equal `id`, whatever else differs. |
| `ExpressionTree.IdInjective` | pybamm/expression_tree/symbol.py:48-50 | If the hash primitive has no collisions, two trees have equal `id` exactly when they are equal. Trees built separately with the same shape, classes and names therefore share an `id`, and no two different trees do. |
| `ExpressionTree.IdOrderSensitive` | pybamm/expression_tree/symbol.py:48-50 | If the hash primitive has no collisions and `a` and `b` differ in `id`, then `a op b` and `b op a` differ in `id`. |
| `ExpressionTree.BuildId` | pybamm/expression_tree/symbol.py:48-50 | A built node's `id` is the hash of the operator's class and name followed by the ids of `self` and `other`, in that order. |
| `ExpressionTree.PreOrder` | pybamm/expression_tree/symbol.py:59-76 | The pre-order sequence is as long as the tree has nodes, and the root comes first. |
| `ExpressionTree.PreOrderMembers` | pybamm/expression_tree/symbol.py:59-76 | A node is in the pre-order sequence exactly when it is the root or lies in one of the root's subtrees. |
| `ExpressionTree.PreOrderChildBlock` | pybamm/expression_tree/symbol.py:59-76 | Child `i`'s pre-order sequence appears whole in its parent's sequence. It starts right after the root and the nodes of the children before `i`. |
| `ExpressionTree.PreOrderOfBuild` | pybamm/expression_tree/symbol.py:59-76 | A built node's pre-order sequence is the node, then `self`'s sequence, then `other`'s. Its length is 1 plus the two operands' sizes. |
| `ExpressionTree.PreOrderOfProduct` | pybamm/expression_tree/symbol.py:66-73 | For leaves `a` and `b`, `(a*b).pre_order()` gives the names `*`, `a`, `b`, in that order. |
| `ExpressionTree.Build` | pybamm/expression_tree/symbol.py:86-112 | The result is a node exactly when `other` is a `Symbol`. Otherwise it is the unsupported-operand error. The node has the operator's class and name, and its children are `self` and `other`, in that order. |
| `ExpressionTree.Add` | pybamm/expression_tree/symbol.py:86-91 | `self + other` with a `Symbol` gives an addition node with children `self`, `other`. With anything else it raises and builds no node. |
| `ExpressionTree.Sub` | pybamm/expression_tree/symbol.py:93-98 | `self - other` with a `Symbol` gives a subtraction node with children `self`, `other`. With anything else it raises and builds no node. |
| `ExpressionTree.Mul` | pybamm/expression_tree/symbol.py:100-105 | `self * other` with a `Symbol` gives a multiplication node named `*` with children `self`, `other`. With anything else it raises and builds no node. |
| `ExpressionTree.TrueDiv` | pybamm/expression_tree/symbol.py:107-112 | `self / other` with a `Symbol` gives a division node with children `self`, `other`. With anything else it raises and builds no node. |
| `ExpressionTree.Evaluate` | pybamm/expression_tree/symbol.py:114-136 | The base `evaluate(t, y)` always fails. The error names the node by its string form and its class. |
| `ExpressionTree.EvaluateIgnoresArguments` | pybamm/expression_tree/symbol.py:114-136 | The failure is the same for every `t` and every `y`. |

## Left out

- `render` (lines 52-57): it prints to standard output through anytree's
  `RenderTree`, which is not shown.
- `__repr__` (lines 82-84): its text depends on the parent's string form
  through anytree's parent pointer. It is diagnostic only.
- The values of Python's `hash`: the model takes the hash as a parameter.
  `IdInjective` and `IdOrderSensitive` assume it has no collisions, which
  Python does not promise.
- Symbol.constructor, Symbol.Adopt: a shallow copy keeps its original's
  parent (`Symbol.Copy` says so). So when a supplied child already has a
  parent `x`, for example a child of an earlier node or `self` in `x.children[0] + b`, the copy
  starts out parented to `x`. anytree's parent setter, which is not shown,
  would then first detach the copy from `x`, whose child list does not
  contain the copy. The model does not capture this detach or its outcome.
  `Adopt` just overwrites the copy's `parent` and leaves `x` unchanged.
- The rest of anytree's `NodeMixin` bookkeeping: loop checks and the
  children list object that a shallow copy shares with its original. The
  model keeps `parent` and `children` as plain fields.
- `pre_order` returns a lazy iterator. The model returns the whole
  sequence. It is a function of the tree, so two calls give equal sequences.
- The `Addition`, `Subtraction`, `Multiplication` and `Division` classes
  are not shown, nor are their constructors and `evaluate`. `Build` assumes
  they create a two-child node of their own class. Their names `+`, `-`
  and `/` are assumptions.
- The `evaluate` of concrete subclasses is not shown. `Value` only names
  the kind of result such a subclass returns.
- Floating-point `t` and `y` are modelled as `real`. The base `evaluate`
  never looks at them.
- `pybamm/meshes/two_dimensional_meshes/chebyshev_scikit_fem_submesh.py` and
  `tests/unit/test_meshes/test_chebyshev_submesh.py`: floating-point mesh
  generation over a scikit-fem base class that is not shown. They are not
  part of this model.
