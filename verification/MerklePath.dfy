/**
 The sparse Merkle path builder.  Layers are maps of the occupied indices; an
 absent node stands for the zero of its level.  The sibling index is computed with
 JavaScript's `^`, which wraps to 32 bits.
 */
module MerklePath {
  import opened Wrappers

  type Hash = (int, int) -> int
  type Layer = map<int, int>

  datatype Leaf = Leaf(index: int, value: int)

  datatype Path = Path(root: int, elements: seq<int>, indices: seq<int>)

  datatype MerkleError = BadLevels | ZeroTable | NegativeIndex | AboveCapacity | BadLeafIndex | DuplicateLeaf | MissingLeaf

  function Pow2(n: nat): nat {
    if n == 0 then 1 else 2 * Pow2(n - 1)
  }

  // --------------------------------------------------- JavaScript's operators

  /** The signed 32-bit value a number is converted to by the bitwise operators. */
  function ToInt32(x: int): int {
    var low := x % 0x1_0000_0000;
    if low < 0x8000_0000 then low else low - 0x1_0000_0000
  }

  /** `x ^ 1`: the lowest bit of the converted value is flipped. */
  function Xor1(x: int): int {
    var y := ToInt32(x);
    if y % 2 == 0 then y + 1 else y - 1
  }

  /** `x & 1`. */
  function And1(x: int): int {
    ToInt32(x) % 2
  }

  /** The other child of the same parent. */
  function Sibling(x: int): int {
    if x % 2 == 0 then x + 1 else x - 1
  }

  /** `x ^ 1` is the sibling exactly while x fits in 31 bits. */
  lemma XorIsSibling(x: nat)
    ensures Xor1(x) == Sibling(x) <==> x < 0x8000_0000
    ensures And1(x) == x % 2
  {
  }

  // ------------------------------------------------------------------- layers

  function At(layer: Layer, i: int, zero: int): int {
    if i in layer then layer[i] else zero
  }

  function Half(i: int): int {
    i / 2
  }

  function Parents(layer: Layer): set<int> {
    set i | i in layer :: Half(i)
  }

  function Next(hash: Hash, layer: Layer, zero: int): Layer {
    map p | p in Parents(layer) :: hash(At(layer, p * 2, zero), At(layer, p * 2 + 1, zero))
  }

  function LayerAt(hash: Hash, leaves: Layer, zeros: seq<int>, k: nat): Layer
    requires k <= |zeros|
  {
    if k == 0 then leaves else Next(hash, LayerAt(hash, leaves, zeros, k - 1), zeros[k - 1])
  }

  function IndexAt(leafIndex: nat, k: nat): nat {
    if k == 0 then leafIndex else IndexAt(leafIndex, k - 1) / 2
  }

  /** The path element of level k, as the builder looks it up. */
  function Element(hash: Hash, leaves: Layer, zeros: seq<int>, leafIndex: nat, k: nat): int
    requires k < |zeros|
  {
    At(LayerAt(hash, leaves, zeros, k), Xor1(IndexAt(leafIndex, k)), zeros[k])
  }

  function Elements(hash: Hash, leaves: Layer, zeros: seq<int>, leafIndex: nat, levels: nat): (r: seq<int>)
    requires levels <= |zeros|
    ensures |r| == levels && forall k :: 0 <= k < levels ==> r[k] == Element(hash, leaves, zeros, leafIndex, k)
  {
    if levels == 0 then []
    else Elements(hash, leaves, zeros, leafIndex, levels - 1) + [Element(hash, leaves, zeros, leafIndex, levels - 1)]
  }

  function Indices(leafIndex: nat, levels: nat): (r: seq<int>)
    ensures |r| == levels && forall k :: 0 <= k < levels ==> r[k] == And1(IndexAt(leafIndex, k))
  {
    if levels == 0 then [] else Indices(leafIndex, levels - 1) + [And1(IndexAt(leafIndex, levels - 1))]
  }

  /** How a verifier recomputes the node of level k from the leaf and the path. */
  function Fold(hash: Hash, leaf: int, elements: seq<int>, indices: seq<int>, k: nat): int
    requires k <= |elements| && k <= |indices|
  {
    if k == 0 then leaf
    else
      var node := Fold(hash, leaf, elements, indices, k - 1);
      if indices[k - 1] == 0 then hash(node, elements[k - 1]) else hash(elements[k - 1], node)
  }

  /** The full tree: every position of level k, empty leaves being `zero`. */
  function Dense(hash: Hash, leaves: Layer, zero: int, k: nat, i: int): int {
    if k == 0 then At(leaves, i, zero)
    else hash(Dense(hash, leaves, zero, k - 1, i * 2), Dense(hash, leaves, zero, k - 1, i * 2 + 1))
  }

  // --------------------------------------------------------------- the builder

  /** The leaf map, or the first bad leaf's error. */
  function Collect(leaves: seq<Leaf>, capacity: int): Result<Layer, MerkleError> {
    if leaves == [] then Success(map[])
    else
      var layer :- Collect(leaves[..|leaves| - 1], capacity);
      var leaf := leaves[|leaves| - 1];
      if leaf.index < 0 || leaf.index >= capacity then Failure(BadLeafIndex)
      else if leaf.index in layer then Failure(DuplicateLeaf)
      else Success(layer[leaf.index := leaf.value])
  }

  /** What the builder demands of its arguments, in the order it does, and the leaf map of good ones. */
  function Checked(levels: int, leaves: seq<Leaf>, leafIndex: int, zeros: seq<int>): Result<Layer, MerkleError> {
    if levels < 1 || levels > 52 then Failure(BadLevels)
    else if |zeros| < levels then Failure(ZeroTable)
    else if leafIndex < 0 then Failure(NegativeIndex)
    else if leafIndex >= Pow2(levels) then Failure(AboveCapacity)
    else
      var layer :- Collect(leaves, Pow2(levels));
      if leafIndex !in layer then Failure(MissingLeaf) else Success(layer)
  }

  /** Accepted leaves: distinct indices of the tree, each with its value. */
  lemma {:induction false} CollectIsTheLeafSet(leaves: seq<Leaf>, capacity: int)
    ensures Collect(leaves, capacity).Success? <==>
              && (forall i :: 0 <= i < |leaves| ==> 0 <= leaves[i].index < capacity)
              && (forall i, j :: 0 <= i < j < |leaves| ==> leaves[i].index != leaves[j].index)
    ensures Collect(leaves, capacity).Success? ==>
              var layer := Collect(leaves, capacity).value;
              && (forall i :: 0 <= i < |leaves| ==> leaves[i].index in layer && layer[leaves[i].index] == leaves[i].value)
              && (forall x :: x in layer ==> exists i :: 0 <= i < |leaves| && leaves[i].index == x)
  {
    if leaves != [] {
      var init := leaves[..|leaves| - 1];
      CollectIsTheLeafSet(init, capacity);
      assert forall i :: 0 <= i < |init| ==> init[i] == leaves[i];
      assert leaves[|leaves| - 1] == leaves[..][|leaves| - 1];
    }
  }

  /** All leaves are in the tree, none twice. */
  ghost predicate GoodLeaves(leaves: seq<Leaf>, capacity: int) {
    && (forall i :: 0 <= i < |leaves| ==> 0 <= leaves[i].index < capacity)
    && (forall i, j :: 0 <= i < j < |leaves| ==> leaves[i].index != leaves[j].index)
  }

  /** The arguments of a path: a tree of 1 to 52 levels, a zero for each, good leaves, and the leaf asked for among them. */
  lemma AcceptsExactly(levels: int, leaves: seq<Leaf>, leafIndex: int, zeros: seq<int>)
    ensures Checked(levels, leaves, leafIndex, zeros).Success? <==>
              && 1 <= levels <= 52 && levels <= |zeros| && 0 <= leafIndex < Pow2(levels) && GoodLeaves(leaves, Pow2(levels))
              && exists i :: 0 <= i < |leaves| && leaves[i].index == leafIndex
    ensures Checked(levels, leaves, leafIndex, zeros).Success? ==>
              var tree := Checked(levels, leaves, leafIndex, zeros).value;
              && (forall i :: 0 <= i < |leaves| ==> leaves[i].index in tree && tree[leaves[i].index] == leaves[i].value)
              && (forall x :: x in tree ==> exists i :: 0 <= i < |leaves| && leaves[i].index == x)
  {
    if 1 <= levels <= 52 {
      CollectIsTheLeafSet(leaves, Pow2(levels));
    }
  }

  /** Which complaint is made: about the arguments first, then about the leaves, then about the leaf that is missing. */
  lemma ComplainsExactly(levels: int, leaves: seq<Leaf>, leafIndex: int, zeros: seq<int>)
    ensures var r := Checked(levels, leaves, leafIndex, zeros);
            && (r == Failure(BadLevels) <==> !(1 <= levels <= 52))
            && (r == Failure(ZeroTable) <==> 1 <= levels <= 52 && |zeros| < levels)
            && (r == Failure(NegativeIndex) <==> 1 <= levels <= 52 && levels <= |zeros| && leafIndex < 0)
            && (r == Failure(AboveCapacity) <==> 1 <= levels <= 52 && levels <= |zeros| && leafIndex >= Pow2(levels))
            && (r == Failure(MissingLeaf) <==>
                  && 1 <= levels <= 52 && levels <= |zeros| && 0 <= leafIndex < Pow2(levels) && GoodLeaves(leaves, Pow2(levels))
                  && forall i :: 0 <= i < |leaves| ==> leaves[i].index != leafIndex)
  {
    if 1 <= levels <= 52 {
      CollectIsTheLeafSet(leaves, Pow2(levels));
      if Collect(leaves, Pow2(levels)).Failure? {
        var n := CollectComplains(leaves, Pow2(levels));
      }
    }
  }

  /** The n-th leaf is the first bad one: it is out of the tree, or it repeats an index. */
  ghost predicate FirstBad(leaves: seq<Leaf>, n: nat, capacity: int, error: MerkleError)
    requires n < |leaves|
  {
    && GoodLeaves(leaves[..n], capacity)
    && if 0 <= leaves[n].index < capacity
       then error == DuplicateLeaf && exists i :: 0 <= i < n && leaves[i].index == leaves[n].index
       else error == BadLeafIndex
  }

  /** The first bad leaf decides the complaint. */
  lemma {:induction false} CollectComplains(leaves: seq<Leaf>, capacity: int) returns (n: nat)
    requires Collect(leaves, capacity).Failure?
    ensures n < |leaves| && FirstBad(leaves, n, capacity, Collect(leaves, capacity).error)
  {
    var last := |leaves| - 1;
    var init := leaves[..last];
    if Collect(init, capacity).Failure? {
      n := CollectComplains(init, capacity);
      assert init[..n] == leaves[..n];
    } else {
      n := last;
      CollectIsTheLeafSet(init, capacity);
      FirstBadIsLast(init, leaves[last], capacity);
      assert leaves == init + [leaves[last]];
    }
  }

  lemma FirstBadIsLast(init: seq<Leaf>, leaf: Leaf, capacity: int)
    requires Collect(init, capacity).Success? && Collect(init + [leaf], capacity).Failure?
    ensures FirstBad(init + [leaf], |init|, capacity, Collect(init + [leaf], capacity).error)
  {
    CollectIsTheLeafSet(init, capacity);
    assert (init + [leaf])[..|init|] == init;
    if leaf.index in Collect(init, capacity).value {
      var i :| 0 <= i < |init| && init[i].index == leaf.index;
      assert (init + [leaf])[i].index == leaf.index;
    }
  }

  lemma CollectStops(leaves: seq<Leaf>, n: nat, capacity: int)
    requires n <= |leaves| && Collect(leaves[..n], capacity).Failure?
    ensures Collect(leaves, capacity) == Collect(leaves[..n], capacity)
    decreases |leaves| - n
  {
    if n < |leaves| {
      assert leaves[..n + 1][..n] == leaves[..n];
      CollectStops(leaves, n + 1, capacity);
    } else {
      assert leaves[..n] == leaves;
    }
  }

  /** 2 ** levels. */
  method Capacity(levels: nat) returns (c: nat)
    ensures c == Pow2(levels)
  {
    c := 1;
    for i := 0 to levels
      invariant c == Pow2(i)
    {
      c := 2 * c;
    }
  }

  method CollectLeaves(leaves: seq<Leaf>, capacity: int) returns (r: Result<Layer, MerkleError>)
    ensures r == Collect(leaves, capacity)
  {
    var layer: Layer := map[];
    for i := 0 to |leaves|
      invariant Collect(leaves[..i], capacity) == Success(layer)
    {
      var leaf := leaves[i];
      assert leaves[..i + 1][..i] == leaves[..i];
      if leaf.index < 0 || leaf.index >= capacity {
        CollectStops(leaves, i + 1, capacity);
        return Failure(BadLeafIndex);
      }
      if leaf.index in layer {
        CollectStops(leaves, i + 1, capacity);
        return Failure(DuplicateLeaf);
      }
      layer := layer[leaf.index := leaf.value];
    }
    assert leaves[..|leaves|] == leaves;
    return Success(layer);
  }

  method ParentIndexes(layer: Layer) returns (parents: set<int>)
    ensures parents == Parents(layer)
  {
    parents := {};
    var todo := layer.Keys;
    while exists i :: i in todo
      invariant todo <= layer.Keys
      invariant forall i :: i in layer && i !in todo ==> Half(i) in parents
      invariant forall p :: p in parents ==> exists i :: i in layer && Half(i) == p
      decreases |todo|
    {
      var i: int :| i in todo;
      todo := todo - {i};
      parents := parents + {Half(i)};
    }
    assert forall p :: p in parents <==> p in Parents(layer);
  }

  /** One level up, parent by parent. */
  method ParentLayer(hash: Hash, layer: Layer, zero: int) returns (next: Layer)
    ensures next == Next(hash, layer, zero)
  {
    var parents := ParentIndexes(layer);
    next := map[];
    var todo := parents;
    while todo != {}
      invariant todo <= parents && next.Keys == parents - todo
      invariant forall p :: p in next ==> next[p] == hash(At(layer, p * 2, zero), At(layer, p * 2 + 1, zero))
      decreases |todo|
    {
      var p :| p in todo;
      todo := todo - {p};
      next := next[p := hash(At(layer, p * 2, zero), At(layer, p * 2 + 1, zero))];
    }
  }

  /** Level by level: note what lies beside the path, then move up. */
  method Climb(levels: nat, leaves: Layer, leafIndex: nat, zeros: seq<int>, hash: Hash)
    returns (elements: seq<int>, indices: seq<int>, layer: Layer)
    requires levels <= |zeros|
    ensures elements == Elements(hash, leaves, zeros, leafIndex, levels) && indices == Indices(leafIndex, levels)
    ensures layer == LayerAt(hash, leaves, zeros, levels)
  {
    elements, indices, layer := [], [], leaves;
    var current := leafIndex;
    for level := 0 to levels
      invariant layer == LayerAt(hash, leaves, zeros, level) && current == IndexAt(leafIndex, level)
      invariant elements == Elements(hash, leaves, zeros, leafIndex, level) && indices == Indices(leafIndex, level)
    {
      elements := elements + [At(layer, Xor1(current), zeros[level])];
      indices := indices + [And1(current)];
      layer := ParentLayer(hash, layer, zeros[level]);
      current := current / 2;
    }
  }

  method BuildIndexedMerklePath(levels: int, leaves: seq<Leaf>, leafIndex: int, zeros: seq<int>, hash: Hash)
    returns (r: Result<Path, MerkleError>)
    ensures r.Success? == Checked(levels, leaves, leafIndex, zeros).Success?
    ensures r.Failure? ==> r.error == Checked(levels, leaves, leafIndex, zeros).error
    ensures r.Success? ==>
              var tree := Checked(levels, leaves, leafIndex, zeros).value;
              && r.value.elements == Elements(hash, tree, zeros, leafIndex, levels)
              && r.value.indices == Indices(leafIndex, levels)
              && 0 in LayerAt(hash, tree, zeros, levels) && r.value.root == LayerAt(hash, tree, zeros, levels)[0]
  {
    if levels < 1 || levels > 52 { return Failure(BadLevels); }
    if |zeros| < levels { return Failure(ZeroTable); }
    if leafIndex < 0 { return Failure(NegativeIndex); }
    var capacity := Capacity(levels);
    if leafIndex >= capacity { return Failure(AboveCapacity); }
    var layer :- CollectLeaves(leaves, capacity);
    if leafIndex !in layer { return Failure(MissingLeaf); }

    ghost var tree := layer;
    var elements, indices;
    elements, indices, layer := Climb(levels, layer, leafIndex, zeros, hash);
    // the root is always there: the leaf's ancestors are
    AncestorsAreOccupied(hash, tree, zeros, leafIndex, levels);
    TopIndex(leafIndex, levels);
    return Success(Path(layer[0], elements, indices));
  }

  // ------------------------------------------------------------ what it means

  lemma {:induction false} AncestorsAreOccupied(hash: Hash, leaves: Layer, zeros: seq<int>, leafIndex: nat, k: nat)
    requires k <= |zeros| && leafIndex in leaves
    ensures IndexAt(leafIndex, k) in LayerAt(hash, leaves, zeros, k)
  {
    if k > 0 {
      AncestorsAreOccupied(hash, leaves, zeros, leafIndex, k - 1);
    }
  }

  lemma {:induction false} TopIndex(leafIndex: nat, k: nat)
    requires leafIndex < Pow2(k)
    ensures IndexAt(leafIndex, k) == 0
  {
    IndexBelow(leafIndex, k, k);
  }

  lemma {:induction false} IndexBelow(leafIndex: nat, levels: nat, k: nat)
    requires leafIndex < Pow2(levels) && k <= levels
    ensures IndexAt(leafIndex, k) < Pow2(levels - k)
  {
    if k > 0 {
      IndexBelow(leafIndex, levels, k - 1);
    }
  }

  lemma {:induction false} IndexShrinks(leafIndex: nat, k: nat)
    ensures IndexAt(leafIndex, k) <= leafIndex
  {
    if k > 0 {
      IndexShrinks(leafIndex, k - 1);
    }
  }

  /** The node next to the path at level k. */
  function Beside(hash: Hash, leaves: Layer, zeros: seq<int>, leafIndex: nat, k: nat): int
    requires k < |zeros|
  {
    At(LayerAt(hash, leaves, zeros, k), Sibling(IndexAt(leafIndex, k)), zeros[k])
  }

  /** A node of the path is the hash of the path node below and the node beside it. */
  lemma ParentOnPath(hash: Hash, leaves: Layer, zeros: seq<int>, leafIndex: nat, k: nat)
    requires k < |zeros| && leafIndex in leaves
    ensures var i := IndexAt(leafIndex, k);
            && i in LayerAt(hash, leaves, zeros, k) && IndexAt(leafIndex, k + 1) in LayerAt(hash, leaves, zeros, k + 1)
            && var node := LayerAt(hash, leaves, zeros, k)[i];
            LayerAt(hash, leaves, zeros, k + 1)[IndexAt(leafIndex, k + 1)]
              == if i % 2 == 0 then hash(node, Beside(hash, leaves, zeros, leafIndex, k))
                 else hash(Beside(hash, leaves, zeros, leafIndex, k), node)
  {
    AncestorsAreOccupied(hash, leaves, zeros, leafIndex, k);
    AncestorsAreOccupied(hash, leaves, zeros, leafIndex, k + 1);
    NextOnPath(hash, LayerAt(hash, leaves, zeros, k), zeros[k], IndexAt(leafIndex, k));
  }

  lemma NextOnPath(hash: Hash, layer: Layer, zero: int, i: nat)
    requires i in layer
    ensures Half(i) in Next(hash, layer, zero)
    ensures Next(hash, layer, zero)[Half(i)] ==
              if i % 2 == 0 then hash(layer[i], At(layer, Sibling(i), zero)) else hash(At(layer, Sibling(i), zero), layer[i])
  {
  }

  /** What the path folds to at level k. */
  function Folded(hash: Hash, leaves: Layer, zeros: seq<int>, leafIndex: nat, levels: nat, k: nat): int
    requires levels <= |zeros| && k <= levels && leafIndex in leaves
  {
    Fold(hash, leaves[leafIndex], Elements(hash, leaves, zeros, leafIndex, levels), Indices(leafIndex, levels), k)
  }

  ghost predicate FoldsToRoot(hash: Hash, leaves: Layer, zeros: seq<int>, leafIndex: nat, levels: nat)
    requires levels <= |zeros| && leafIndex in leaves && leafIndex < Pow2(levels)
  {
    && 0 in LayerAt(hash, leaves, zeros, levels)
    && Folded(hash, leaves, zeros, leafIndex, levels, levels) == LayerAt(hash, leaves, zeros, levels)[0]
  }

  lemma FoldStep(hash: Hash, leaves: Layer, zeros: seq<int>, leafIndex: nat, levels: nat, k: nat)
    requires k < levels <= |zeros| && leafIndex in leaves
    ensures Folded(hash, leaves, zeros, leafIndex, levels, k + 1)
            == var node, element := Folded(hash, leaves, zeros, leafIndex, levels, k), Element(hash, leaves, zeros, leafIndex, k);
               if IndexAt(leafIndex, k) % 2 == 0 then hash(node, element) else hash(element, node)
  {
    XorIsSibling(IndexAt(leafIndex, k));
  }

  ghost predicate OnPath(hash: Hash, leaves: Layer, zeros: seq<int>, leafIndex: nat, levels: nat, k: nat)
    requires k <= levels <= |zeros| && leafIndex in leaves
  {
    && IndexAt(leafIndex, k) in LayerAt(hash, leaves, zeros, k)
    && Folded(hash, leaves, zeros, leafIndex, levels, k) == LayerAt(hash, leaves, zeros, k)[IndexAt(leafIndex, k)]
  }

  lemma FollowLevel(hash: Hash, leaves: Layer, zeros: seq<int>, leafIndex: nat, levels: nat, k: nat)
    requires k < levels <= |zeros| && leafIndex in leaves && OnPath(hash, leaves, zeros, leafIndex, levels, k)
    requires Element(hash, leaves, zeros, leafIndex, k) == Beside(hash, leaves, zeros, leafIndex, k)
    ensures OnPath(hash, leaves, zeros, leafIndex, levels, k + 1)
  {
    ParentOnPath(hash, leaves, zeros, leafIndex, k);
    FoldStep(hash, leaves, zeros, leafIndex, levels, k);
  }

  lemma {:induction false} FoldFollowsThePath(hash: Hash, leaves: Layer, zeros: seq<int>, leafIndex: nat, levels: nat, k: nat)
    requires k <= levels <= |zeros| && leafIndex in leaves
    requires forall j :: 0 <= j < k ==> Element(hash, leaves, zeros, leafIndex, j) == Beside(hash, leaves, zeros, leafIndex, j)
    ensures OnPath(hash, leaves, zeros, leafIndex, levels, k)
  {
    if k > 0 {
      FoldFollowsThePath(hash, leaves, zeros, leafIndex, levels, k - 1);
      FollowLevel(hash, leaves, zeros, leafIndex, levels, k - 1);
    }
  }

  /** Whatever the zero table holds, a path of a leaf below 2^31 folds to the returned root. */
  lemma PathFoldsToRoot(hash: Hash, leaves: Layer, zeros: seq<int>, leafIndex: nat, levels: nat)
    requires levels <= |zeros| && leafIndex in leaves && leafIndex < Pow2(levels)
    requires leafIndex < 0x8000_0000
    ensures FoldsToRoot(hash, leaves, zeros, leafIndex, levels)
  {
    forall k | 0 <= k < levels
      ensures Element(hash, leaves, zeros, leafIndex, k) == Beside(hash, leaves, zeros, leafIndex, k)
    {
      IndexShrinks(leafIndex, k);
      XorIsSibling(IndexAt(leafIndex, k));
    }
    FoldFollowsThePath(hash, leaves, zeros, leafIndex, levels, levels);
    TopIndex(leafIndex, levels);
  }

  ghost predicate Injective(hash: Hash) {
    forall a, b, c, d :: hash(a, b) == hash(c, d) ==> a == c && b == d
  }

  /** With a collision-free hash, a path that folds to the root has the true neighbour at every level. */
  lemma {:induction false} FoldPinsThePath(hash: Hash, leaves: Layer, zeros: seq<int>, leafIndex: nat, levels: nat, k: nat)
    requires Injective(hash) && k < levels <= |zeros| && leafIndex in leaves && leafIndex < Pow2(levels)
    requires FoldsToRoot(hash, leaves, zeros, leafIndex, levels)
    ensures IndexAt(leafIndex, k) in LayerAt(hash, leaves, zeros, k)
    ensures Folded(hash, leaves, zeros, leafIndex, levels, k) == LayerAt(hash, leaves, zeros, k)[IndexAt(leafIndex, k)]
    ensures Element(hash, leaves, zeros, leafIndex, k) == Beside(hash, leaves, zeros, leafIndex, k)
    decreases levels - k
  {
    if k + 1 < levels {
      FoldPinsThePath(hash, leaves, zeros, leafIndex, levels, k + 1);
    } else {
      TopIndex(leafIndex, levels);
    }
    PinLevel(hash, leaves, zeros, leafIndex, levels, k);
  }

  lemma PinLevel(hash: Hash, leaves: Layer, zeros: seq<int>, leafIndex: nat, levels: nat, k: nat)
    requires Injective(hash) && k < levels <= |zeros| && leafIndex in leaves
    requires IndexAt(leafIndex, k + 1) in LayerAt(hash, leaves, zeros, k + 1)
    requires Folded(hash, leaves, zeros, leafIndex, levels, k + 1) == LayerAt(hash, leaves, zeros, k + 1)[IndexAt(leafIndex, k + 1)]
    ensures IndexAt(leafIndex, k) in LayerAt(hash, leaves, zeros, k)
    ensures Folded(hash, leaves, zeros, leafIndex, levels, k) == LayerAt(hash, leaves, zeros, k)[IndexAt(leafIndex, k)]
    ensures Element(hash, leaves, zeros, leafIndex, k) == Beside(hash, leaves, zeros, leafIndex, k)
  {
    var i, folded, element := IndexAt(leafIndex, k), Folded(hash, leaves, zeros, leafIndex, levels, k), Element(hash, leaves, zeros, leafIndex, k);
    ParentOnPath(hash, leaves, zeros, leafIndex, k);
    FoldStep(hash, leaves, zeros, leafIndex, levels, k);
    var node, beside := LayerAt(hash, leaves, zeros, k)[i], Beside(hash, leaves, zeros, leafIndex, k);
    if i % 2 == 0 {
      Cancel(hash, folded, element, node, beside);
    } else {
      Cancel(hash, element, folded, beside, node);
    }
  }

  lemma Cancel(hash: Hash, a: int, b: int, c: int, d: int)
    requires Injective(hash) && hash(a, b) == hash(c, d)
    ensures a == c && b == d
  {
  }

  /** A leaf of a tree with 2^31 leaves or more whose path goes wrong: it only takes its own neighbour. */
  lemma WidePathFails(hash: Hash, zeros: seq<int>, leafIndex: nat, levels: nat) returns (leaves: Layer)
    requires Injective(hash) && levels <= |zeros| && 0x8000_0000 <= leafIndex < Pow2(levels)
    ensures leaves.Keys == {leafIndex, Sibling(leafIndex)} && 0 <= Sibling(leafIndex) < Pow2(levels)
    ensures !FoldsToRoot(hash, leaves, zeros, leafIndex, levels)
  {
    assert levels > 0;
    leaves := map[leafIndex := 0, Sibling(leafIndex) := zeros[0] + 1];
    XorIsSibling(leafIndex);
    assert Element(hash, leaves, zeros, leafIndex, 0) == zeros[0];
    assert Beside(hash, leaves, zeros, leafIndex, 0) == zeros[0] + 1;
    if FoldsToRoot(hash, leaves, zeros, leafIndex, levels) {
      FoldPinsThePath(hash, leaves, zeros, leafIndex, levels, 0);
    }
  }

  predicate InTree(leaves: Layer, levels: nat) {
    forall i :: i in leaves ==> 0 <= i < Pow2(levels)
  }

  /** The paths of a leaf are right for every leaf set exactly when its index is below 2^31. */
  lemma PathsAreRightExactlyBelow31Bits(hash: Hash, zeros: seq<int>, leafIndex: nat, levels: nat)
    requires Injective(hash) && levels <= |zeros| && leafIndex < Pow2(levels)
    ensures (forall leaves: Layer :: InTree(leaves, levels) && leafIndex in leaves ==> FoldsToRoot(hash, leaves, zeros, leafIndex, levels))
            <==> leafIndex < 0x8000_0000
  {
    if leafIndex < 0x8000_0000 {
      forall leaves: Layer | InTree(leaves, levels) && leafIndex in leaves
        ensures FoldsToRoot(hash, leaves, zeros, leafIndex, levels)
      {
        PathFoldsToRoot(hash, leaves, zeros, leafIndex, levels);
      }
    } else {
      var leaves := WidePathFails(hash, zeros, leafIndex, levels);
      assert InTree(leaves, levels) && leafIndex in leaves;
    }
  }

  // ------------------------------------------------------------ sparse is dense

  /** The zero table of a tree: each zero is the hash of two zeros below. */
  predicate ZeroChain(hash: Hash, zeros: seq<int>, levels: nat)
    requires levels <= |zeros|
  {
    forall k :: 0 <= k && k + 1 < levels ==> zeros[k + 1] == hash(zeros[k], zeros[k])
  }

  /** The occupied nodes are those of the full tree; the others are full of zeros. */
  lemma {:induction false} SparseIsDense(hash: Hash, leaves: Layer, zeros: seq<int>, levels: nat, k: nat, i: int)
    requires 0 < levels <= |zeros| && ZeroChain(hash, zeros, levels) && k <= levels
    ensures i in LayerAt(hash, leaves, zeros, k) ==>
              LayerAt(hash, leaves, zeros, k)[i] == Dense(hash, leaves, zeros[0], k, i)
    ensures i !in LayerAt(hash, leaves, zeros, k) && k < levels ==> Dense(hash, leaves, zeros[0], k, i) == zeros[k]
    decreases k
  {
    if k > 0 {
      SparseIsDense(hash, leaves, zeros, levels, k - 1, i * 2);
      SparseIsDense(hash, leaves, zeros, levels, k - 1, i * 2 + 1);
      NextIsDense(hash, LayerAt(hash, leaves, zeros, k - 1), zeros[k - 1], i,
                  Dense(hash, leaves, zeros[0], k - 1, i * 2), Dense(hash, leaves, zeros[0], k - 1, i * 2 + 1));
    }
  }

  lemma NextIsDense(hash: Hash, layer: Layer, zero: int, i: int, left: int, right: int)
    requires At(layer, i * 2, zero) == left && At(layer, i * 2 + 1, zero) == right
    ensures i in Next(hash, layer, zero) ==> Next(hash, layer, zero)[i] == hash(left, right)
    ensures i !in Next(hash, layer, zero) ==> left == zero && right == zero
  {
  }

  /** The returned root is the root of the full tree padded with zeros. */
  lemma RootIsDense(hash: Hash, leaves: Layer, zeros: seq<int>, leafIndex: nat, levels: nat)
    requires 0 < levels <= |zeros| && ZeroChain(hash, zeros, levels) && leafIndex in leaves && leafIndex < Pow2(levels)
    ensures 0 in LayerAt(hash, leaves, zeros, levels)
    ensures LayerAt(hash, leaves, zeros, levels)[0] == Dense(hash, leaves, zeros[0], levels, 0)
  {
    AncestorsAreOccupied(hash, leaves, zeros, leafIndex, levels);
    TopIndex(leafIndex, levels);
    SparseIsDense(hash, leaves, zeros, levels, levels, 0);
  }

  // ---------------------------------------- the registry's builder of 32 levels

  /** A registry record: its leaf, and whether it was revoked. */
  datatype Record = Record(leaf: int, revoked: bool)

  function Value(r: Record): int {
    if r.revoked then 0 else r.leaf
  }

  function TreeOf(records: seq<Record>): Layer {
    map i | 0 <= i < |records| :: Value(records[i])
  }

  function Enumerated(records: seq<Record>): (r: seq<Leaf>)
    ensures |r| == |records| && forall i :: 0 <= i < |r| ==> r[i] == Leaf(i, Value(records[i]))
  {
    if records == [] then []
    else Enumerated(records[..|records| - 1]) + [Leaf(|records| - 1, Value(records[|records| - 1]))]
  }

  /** The zero of level k over the empty leaf 0. */
  function ZeroAt(hash: Hash, k: nat): int {
    if k == 0 then 0 else hash(ZeroAt(hash, k - 1), ZeroAt(hash, k - 1))
  }

  function ZeroTableOf(hash: Hash, n: nat): (r: seq<int>)
    ensures |r| == n && forall k :: 0 <= k < n ==> r[k] == ZeroAt(hash, k)
  {
    if n == 0 then [] else ZeroTableOf(hash, n - 1) + [ZeroAt(hash, n - 1)]
  }

  /** The builder inside the membership refresh: the zero node is hashed up along with the layers. */
  method RegistryPath(hash: Hash, records: seq<Record>, index: nat) returns (siblings: seq<int>, indices: seq<int>, root: int)
    ensures var zeros := ZeroTableOf(hash, 32);
            && siblings == Elements(hash, TreeOf(records), zeros, index, 32) && indices == Indices(index, 32)
            && root == At(LayerAt(hash, TreeOf(records), zeros, 32), 0, ZeroAt(hash, 32))
  {
    ghost var zeros := ZeroTableOf(hash, 32);
    var nodes: Layer, zeroNode, cursor := map[], 0, index;
    for i := 0 to |records|
      invariant nodes == map k | 0 <= k < i :: Value(records[k])
    {
      nodes := nodes[i := Value(records[i])];
    }
    siblings, indices := [], [];
    for level := 0 to 32
      invariant nodes == LayerAt(hash, TreeOf(records), zeros, level) && cursor == IndexAt(index, level)
      invariant zeroNode == ZeroAt(hash, level)
      invariant siblings == Elements(hash, TreeOf(records), zeros, index, level) && indices == Indices(index, level)
    {
      siblings := siblings + [At(nodes, Xor1(cursor), zeroNode)];
      indices := indices + [And1(cursor)];
      nodes := ParentLayer(hash, nodes, zeroNode);
      cursor := cursor / 2;
      zeroNode := hash(zeroNode, zeroNode);
    }
    root := At(nodes, 0, zeroNode);
  }

  lemma Pow2Of32()
    ensures Pow2(32) == 0x1_0000_0000
  {
    assert Pow2(8) == 256;
    assert Pow2(16) == 65536;
    assert Pow2(24) == 16777216;
  }

  lemma {:induction false} CollectEnumerated(records: seq<Record>, capacity: int)
    requires |records| <= capacity
    ensures Collect(Enumerated(records), capacity) == Success(TreeOf(records))
  {
    if records != [] {
      var n, init := |records| - 1, records[..|records| - 1];
      CollectEnumerated(init, capacity);
      assert Enumerated(records)[..n] == Enumerated(init);
      assert TreeOf(records) == TreeOf(init)[n := Value(records[n])];
    }
  }

  /**
   On the records of a registry the general builder accepts the same tree, and its
   path and root are those of the registry's builder: the path folds to the root,
   and the root is that of the full tree.
   */
  lemma RegistryPathIsGeneral(hash: Hash, records: seq<Record>, index: nat)
    requires index < |records| <= 10000
    ensures Checked(32, Enumerated(records), index, ZeroTableOf(hash, 32)) == Success(TreeOf(records))
    ensures var zeros := ZeroTableOf(hash, 32);
            && 0 in LayerAt(hash, TreeOf(records), zeros, 32) && index < Pow2(32)
            && FoldsToRoot(hash, TreeOf(records), zeros, index, 32)
            && LayerAt(hash, TreeOf(records), zeros, 32)[0] == Dense(hash, TreeOf(records), 0, 32, 0)
  {
    Pow2Of32();
    CheckedRegistry(records, index, 32, ZeroTableOf(hash, 32));
    RegistryRoot(hash, TreeOf(records), index);
  }

  /** A revoked record leaves its place empty, whatever its leaf was; any other record's leaf is its own. */
  lemma RevokedIsEmpty(records: seq<Record>, i: nat)
    requires i < |records|
    ensures i in TreeOf(records)
    ensures records[i].revoked ==>
              TreeOf(records)[i] == 0 && forall leaf :: TreeOf(records[i := Record(leaf, true)]) == TreeOf(records)
    ensures !records[i].revoked ==> TreeOf(records)[i] == records[i].leaf
  {
  }

  /** The refreshed path proves the leaf of a record that is not revoked. */
  lemma RegistryPathProvesTheLeaf(hash: Hash, records: seq<Record>, index: nat)
    requires index < |records| <= 10000 && !records[index].revoked
    ensures var zeros := ZeroTableOf(hash, 32);
            && 0 in LayerAt(hash, TreeOf(records), zeros, 32)
            && Fold(hash, records[index].leaf, Elements(hash, TreeOf(records), zeros, index, 32), Indices(index, 32), 32)
               == LayerAt(hash, TreeOf(records), zeros, 32)[0]
  {
    RegistryPathIsGeneral(hash, records, index);
    RevokedIsEmpty(records, index);
  }

  lemma CheckedRegistry(records: seq<Record>, index: nat, levels: nat, zeros: seq<int>)
    requires index < |records| <= 10000 && 1 <= levels <= 52 && |zeros| == levels && 10000 <= Pow2(levels)
    ensures Checked(levels, Enumerated(records), index, zeros) == Success(TreeOf(records))
  {
    CollectEnumerated(records, Pow2(levels));
  }

  lemma RegistryRoot(hash: Hash, tree: Layer, index: nat)
    requires index in tree && index < Pow2(32) == 0x1_0000_0000 && index < 0x8000_0000
    ensures var zeros := ZeroTableOf(hash, 32);
            && 0 in LayerAt(hash, tree, zeros, 32)
            && FoldsToRoot(hash, tree, zeros, index, 32)
            && LayerAt(hash, tree, zeros, 32)[0] == Dense(hash, tree, 0, 32, 0)
  {
    var zeros := ZeroTableOf(hash, 32);
    assert ZeroChain(hash, zeros, 32) && zeros[0] == 0;
    PathFoldsToRoot(hash, tree, zeros, index, 32);
    RootIsDense(hash, tree, zeros, index, 32);
  }
}
