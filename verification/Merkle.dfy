/** Building a merkle tree over a list of transactions, layer by layer, and storing it. */
module Merkle {
  import opened Core
  import opened Forest
  import opened Rules
  import opened N = Node

  // ---- The tree as layers ----

  /** The nodes above a layer: neighbours in pairs, an odd one out with itself. */
  function PairUp(layer: seq<HashT>): seq<MerkleNode> {
    if layer == [] then []
    else if |layer| == 1 then [MerkleNode(layer[0], layer[0])]
    else [MerkleNode(layer[0], layer[1])] + PairUp(layer[2..])
  }

  function IdsOf(h: Hashes, nodes: seq<MerkleNode>): seq<HashT> {
    seq<HashT>(|nodes|, i requires 0 <= i < |nodes| => h.merkle(nodes[i]))
  }

  function NextLayer(h: Hashes, layer: seq<HashT>): seq<HashT> { IdsOf(h, PairUp(layer)) }

  lemma IdsOfConcat(h: Hashes, a: seq<MerkleNode>, b: seq<MerkleNode>)
    ensures IdsOf(h, a + b) == IdsOf(h, a) + IdsOf(h, b)
  {
  }

  lemma PairUpSize(layer: seq<HashT>)
    ensures |PairUp(layer)| == (|layer| + 1) / 2
  {
  }

  /** All nodes above a layer, lowest first, until one is left. */
  function NodesAbove(h: Hashes, layer: seq<HashT>): seq<MerkleNode>
    decreases |layer|
  {
    PairUpSize(layer);
    if |layer| <= 1 then [] else PairUp(layer) + NodesAbove(h, NextLayer(h, layer))
  }

  /** A single transaction still gets a node above it. */
  function TreeNodes(h: Hashes, txIds: seq<HashT>): seq<MerkleNode> {
    if |txIds| == 1 then PairUp(txIds) else NodesAbove(h, txIds)
  }

  lemma {:induction false} PairUpAt(layer: seq<HashT>, i: nat)
    requires i < |PairUp(layer)|
    ensures 2 * i < |layer|
    ensures PairUp(layer)[i]
         == MerkleNode(layer[2 * i], if 2 * i + 1 < |layer| then layer[2 * i + 1] else layer[2 * i])
  {
    if |layer| > 1 && i > 0 {
      PairUpAt(layer[2..], i - 1);
    }
  }

  // ---- How many layers ----

  function Pow2(k: nat): nat { if k == 0 then 1 else 2 * Pow2(k - 1) }

  /** The least k with 2^k >= n. */
  function CeilLog2(n: nat): (k: nat)
    requires n >= 1
    ensures Pow2(k) >= n && (k > 0 ==> Pow2(k - 1) < n)
  {
    if n == 1 then 0 else CeilLog2((n + 1) / 2) + 1
  }

  /** The size of the layer `k` above one of size n. */
  function LayerSize(n: nat, k: nat): nat { if k == 0 then n else (LayerSize(n, k - 1) + 1) / 2 }

  lemma {:induction false} LayerSizeShift(n: nat, k: nat)
    ensures LayerSize(n, k + 1) == LayerSize((n + 1) / 2, k)
  {
    if k > 0 {
      LayerSizeShift(n, k - 1);
    }
  }

  /** That many halvings reach a single node, and no fewer do. */
  lemma {:induction false} HalvingsReachOne(n: nat)
    requires n >= 1
    ensures LayerSize(n, CeilLog2(n)) == 1
    ensures forall k :: 0 <= k < CeilLog2(n) ==> LayerSize(n, k) > 1
  {
    if n > 1 {
      var half := (n + 1) / 2;
      HalvingsReachOne(half);
      LayerSizeShift(n, CeilLog2(half));
      forall k | 0 <= k < CeilLog2(n) ensures LayerSize(n, k) > 1 {
        if k > 0 {
          LayerSizeShift(n, k - 1);
        }
      }
    }
  }

  // ---- Size of the whole tree ----

  /** Nodes and leaves of the layers from one of size n up to the root. */
  function LayersTotal(n: nat): nat
  {
    if n <= 1 then n else n + LayersTotal((n + 1) / 2)
  }

  lemma {:induction false} NodesAboveSize(h: Hashes, layer: seq<HashT>)
    requires layer != []
    ensures |layer| + |NodesAbove(h, layer)| == LayersTotal(|layer|)
    decreases |layer|
  {
    PairUpSize(layer);
    if |layer| > 1 {
      NodesAboveSize(h, NextLayer(h, layer));
    }
  }

  lemma {:induction false} LayersTotalBound(n: nat)
    requires n >= 1
    ensures 9 * LayersTotal(n) <= 20 * n
  {
    if n >= 10 {
      LayersTotalBound((n + 1) / 2);
    } else {
      SmallTotals();
    }
  }

  lemma SmallTotals()
    ensures forall n :: 1 <= n < 10 ==> 9 * LayersTotal(n) <= 20 * n
    ensures LayersTotal(9) == 20
  {
    assert LayersTotal(1) == 1 && LayersTotal(2) == 3 && LayersTotal(3) == 6 && LayersTotal(4) == 7;
    assert LayersTotal(5) == 11 && LayersTotal(6) == 12 && LayersTotal(7) == 14 && LayersTotal(8) == 15;
  }

  /** The whole tree, leaves included, has at most 20n/9 entities; nine leaves attain it. */
  lemma TreeSizeBound(h: Hashes, txIds: seq<HashT>)
    requires txIds != []
    ensures |txIds| + |TreeNodes(h, txIds)| <= 20 * |txIds| / 9
    ensures |txIds| == 9 ==> |txIds| + |TreeNodes(h, txIds)| == 20 * |txIds| / 9
  {
    if |txIds| > 1 {
      NodesAboveSize(h, txIds);
      LayersTotalBound(|txIds|);
      SmallTotals();
    }
  }

  function MerkleTreeMaxSize(params: Params): nat { BlockMaxTxs(params) * 20 / 9 }

  /** No block's tree outgrows the size that is allowed for one. */
  lemma BlockTreeFits(params: Params, h: Hashes, txIds: seq<HashT>)
    requires txIds != [] && |txIds| <= BlockMaxTxs(params)
    ensures |txIds| + |TreeNodes(h, txIds)| <= MerkleTreeMaxSize(params)
  {
    hide BlockMaxTxs;
    TreeSizeBound(h, txIds);
  }

  // ---- Building ----

  lemma SetOfBoth(a: seq<MerkleNode>, b: seq<MerkleNode>)
    ensures ToSet(a) <= ToSet(a + b) && ToSet(b) <= ToSet(a + b)
  {
  }

  method BuildLayer(h: Hashes, lastLayer: seq<HashT>, oldMap: map<HashT, MerkleNode>)
    returns (layer: seq<HashT>, outMap: map<HashT, MerkleNode>)
    ensures layer == NextLayer(h, lastLayer)
    ensures outMap.Keys == oldMap.Keys + ToSet(layer)
    ensures forall id :: id in outMap ==>
      (id in oldMap && outMap[id] == oldMap[id]) || (h.merkle(outMap[id]) == id && outMap[id] in PairUp(lastLayer))
  {
    layer, outMap := [], oldMap;
    ghost var nodes := PairUp(lastLayer);
    PairUpSize(lastLayer);
    for i := 0 to |lastLayer| / 2
      invariant layer == IdsOf(h, nodes[..i])
      invariant outMap.Keys == oldMap.Keys + ToSet(layer)
      invariant forall id :: id in outMap ==>
        (id in oldMap && outMap[id] == oldMap[id]) || (h.merkle(outMap[id]) == id && outMap[id] in nodes)
    {
      var node := MerkleNode(lastLayer[2 * i], lastLayer[2 * i + 1]);
      PairUpAt(lastLayer, i);
      var nodeId := h.merkle(node);
      outMap := outMap[nodeId := node];
      layer := layer + [nodeId];
    }
    if |lastLayer| % 2 == 1 {
      var last := lastLayer[|lastLayer| - 1];
      var node := MerkleNode(last, last);
      PairUpAt(lastLayer, |nodes| - 1);
      var nodeId := h.merkle(node);
      outMap := outMap[nodeId := node];
      layer := layer + [nodeId];
    }
    assert nodes[..|nodes|] == nodes;
  }

  lemma OneLayerUp(h: Hashes, layer: seq<HashT>)
    requires |layer| > 1
    ensures |NextLayer(h, layer)| == (|layer| + 1) / 2
    ensures IdsOf(h, NodesAbove(h, layer)) == NextLayer(h, layer) + IdsOf(h, NodesAbove(h, NextLayer(h, layer)))
    ensures ToSet(NodesAbove(h, NextLayer(h, layer))) <= ToSet(NodesAbove(h, layer))
    ensures forall n :: n in PairUp(layer) ==> n in ToSet(NodesAbove(h, layer))
  {
    var nodes, above := PairUp(layer), NodesAbove(h, NextLayer(h, layer));
    PairUpSize(layer);
    SetOfBoth(nodes, above);
    assert forall n :: n in nodes ==> n in ToSet(nodes);
    IdsOfConcat(h, nodes, above);
  }

  lemma SetOfIds(a: seq<HashT>, b: seq<HashT>)
    ensures ToSet(a + b) == ToSet(a) + ToSet(b)
  {
  }

  lemma NothingAbove(h: Hashes, layer: seq<HashT>)
    requires |layer| == 1
    ensures IdsOf(h, NodesAbove(h, layer)) == []
  {
  }

  lemma LayerSizeNext(n: nat, k: nat)
    requires k > 0
    ensures LayerSize(n, k) == (LayerSize(n, k - 1) + 1) / 2
  {
  }

  lemma OnlyNode(h: Hashes, id: HashT)
    ensures var node := MerkleNode(id, id);
      && TreeNodes(h, [id]) == [node]
      && IdsOf(h, [node]) == [h.merkle(node)] && ToSet([h.merkle(node)]) == {h.merkle(node)}
  {
  }

  lemma NoLayers(h: Hashes, txIds: seq<HashT>)
    requires |txIds| > 1
    ensures ToSet<HashT>([]) == {} && LayerSize(|txIds|, 0) == |txIds|
    ensures TreeNodes(h, txIds) == NodesAbove(h, txIds) && IdsOf(h, NodesAbove(h, txIds)) != []
    ensures forall n :: n in ToSet(NodesAbove(h, txIds)) ==> n in NodesAbove(h, txIds)
  {
    PairUpSize(txIds);
  }

  /** The nodes of the tree by id, and their ids in the order they are to be stored. */
  method MerkleFromTxIds(h: Hashes, txIds: seq<HashT>) returns (outMap: map<HashT, MerkleNode>, outIds: seq<HashT>)
    requires txIds != []
    ensures outIds == IdsOf(h, TreeNodes(h, txIds)) && outIds != []
    ensures outMap.Keys == ToSet(outIds)
    ensures forall id :: id in outMap ==> h.merkle(outMap[id]) == id && outMap[id] in TreeNodes(h, txIds)
  {
    hide *;
    if |txIds| == 1 {
      var node := MerkleNode(txIds[0], txIds[0]);
      OnlyNode(h, txIds[0]);
      assert txIds == [txIds[0]];
      return map[h.merkle(node) := node], [h.merkle(node)];
    }
    var numLayers := CeilLog2(|txIds|) + 1;
    HalvingsReachOne(|txIds|);
    NoLayers(h, txIds);
    outMap, outIds := map[], [];
    var lastLayer := txIds;
    ghost var all := ToSet(NodesAbove(h, txIds));
    for l := 1 to numLayers
      invariant lastLayer != [] && |lastLayer| == LayerSize(|txIds|, l - 1)
      invariant IdsOf(h, NodesAbove(h, txIds)) == outIds + IdsOf(h, NodesAbove(h, lastLayer))
      invariant outMap.Keys == ToSet(outIds)
      invariant ToSet(NodesAbove(h, lastLayer)) <= all
      invariant forall id :: id in outMap ==> h.merkle(outMap[id]) == id && outMap[id] in all
    {
      OneLayerUp(h, lastLayer);
      LayerSizeNext(|txIds|, l);
      SetOfIds(outIds, NextLayer(h, lastLayer));
      lastLayer, outMap := BuildLayer(h, lastLayer, outMap);
      outIds := outIds + lastLayer;
    }
    NothingAbove(h, lastLayer);
    assert outIds + [] == outIds;
  }

  // ---- Storing ----

  /** The layer is stored, and its trees side by side hold these transactions in this order. */
  ghost predicate LayerOk(st: Store, layer: seq<HashT>, txIds: seq<HashT>) {
    && layer != []
    && (forall i :: 0 <= i < |layer| ==> HasEntity(st, layer[i]))
    && AllGrounded(st, layer, MaxDepth(st))
    && LevelOrder(st, layer, MaxDepth(st)) == txIds
  }

  predicate Stored(st: Store, node: MerkleNode) {
    var id := st.env.hashes.merkle(node);
    id in st.merkles && st.merkles[id].merkle == node
  }

  /** What a tree over these transactions takes to be storable. */
  ghost predicate CanHold(st: Store, txIds: seq<HashT>) {
    && NoDup(txIds)
    && (forall i :: 0 <= i < |txIds| ==> txIds[i] in st.txs)
    && TotalVSize(st, txIds) <= st.env.params.maxBlockVSize
  }

  lemma {:induction false} LeavesOk(st: Store, txIds: seq<HashT>)
    requires txIds != [] && forall i :: 0 <= i < |txIds| ==> txIds[i] in st.txs
    ensures LayerOk(st, txIds, txIds)
  {
    LeavesRead(st, txIds);
    LevelOrderEmpty(st, MaxDepth(st) - 1);
  }

  lemma {:induction false} LeavesRead(st: Store, txIds: seq<HashT>)
    requires forall i :: 0 <= i < |txIds| ==> txIds[i] in st.txs
    ensures TxsIn(st, txIds) == txIds && Expand(st, txIds) == []
  {
    if txIds != [] {
      LeavesRead(st, txIds[1..]);
    }
  }

  lemma LayerStable(st: Store, st': Store, layer: seq<HashT>, txIds: seq<HashT>)
    requires LayerOk(st, layer, txIds) && WellFormed(st') && Extends(st, st')
    ensures LayerOk(st', layer, txIds)
  {
    hide WellFormed;
    WellFormedSeparate(st');
    MoreMerkles(st, st');
    LevelOrderStable(st, st', layer, MaxDepth(st), MaxDepth(st'));
    forall i | 0 <= i < |layer| ensures Grounded(st', layer[i], MaxDepth(st')) {
      GroundedMonotone(st, st', layer[i], MaxDepth(st), MaxDepth(st'));
    }
  }

  /** One tree of a layer, or two neighbours, within the layer's transactions. */
  lemma PartOfLayer(st: Store, pre: seq<HashT>, part: seq<HashT>, post: seq<HashT>, txIds: seq<HashT>, d: nat)
    requires LevelOrder(st, pre + part + post, d) == txIds
    ensures multiset(LevelOrder(st, part, d)) <= multiset(txIds)
    ensures TotalVSize(st, LevelOrder(st, part, d)) <= TotalVSize(st, txIds)
  {
    LevelOrderConcat(st, pre, part, d);
    LevelOrderConcat(st, pre + part, post, d);
    LevelOrderVSizeConcat(st, pre, part, d);
    LevelOrderVSizeConcat(st, pre + part, post, d);
  }

  lemma NeighboursDisjoint(st: Store, x: HashT, y: HashT, txIds: seq<HashT>, d: nat)
    requires NoDup(txIds) && multiset(LevelOrder(st, [x, y], d)) <= multiset(txIds)
    ensures ToSet(LevelOrder(st, [x], d)) !! ToSet(LevelOrder(st, [y], d))
    ensures TotalVSize(st, LevelOrder(st, [x, y], d))
         == TotalVSize(st, LevelOrder(st, [x], d)) + TotalVSize(st, LevelOrder(st, [y], d))
  {
    hide LevelOrder, NoDup, TotalVSize;
    assert [x, y] == [x] + [y];
    LevelOrderConcat(st, [x], [y], d);
    LevelOrderVSizeConcat(st, [x], [y], d);
    MultisetNoDup(txIds);
    var a, b := LevelOrder(st, [x], d), LevelOrder(st, [y], d);
    forall t | t in ToSet(a) ensures t !in ToSet(b) {
      assert multiset(txIds)[t] <= 1;
      assert t in multiset(a);
      assert t !in multiset(b);
    }
  }

  lemma NodeStorable(st: Store, layer: seq<HashT>, txIds: seq<HashT>, i: nat)
    requires WellFormed(st) && LayerOk(st, layer, txIds) && CanHold(st, txIds)
    requires i < |PairUp(layer)|
    ensures MerkleOk(st, PairUp(layer)[i])
  {
    hide WellFormed, LevelOrder, NoDup, Grounded, PairUp, TotalVSize;
    PairUpAt(layer, i);
    var d, k := MaxDepth(st), 2 * i;
    EntityRead(st, layer[k]);
    if k + 1 < |layer| {
      EntityRead(st, layer[k + 1]);
      assert layer == layer[..k] + [layer[k], layer[k + 1]] + layer[k + 2..];
      PartOfLayer(st, layer[..k], [layer[k], layer[k + 1]], layer[k + 2..], txIds, d);
      NeighboursDisjoint(st, layer[k], layer[k + 1], txIds, d);
    } else {
      assert layer == layer[..k] + [layer[k]] + [];
      PartOfLayer(st, layer[..k], [layer[k]], [], txIds, d);
    }
  }

  lemma CanHoldStable(st: Store, st': Store, txIds: seq<HashT>)
    requires CanHold(st, txIds) && Extends(st, st')
    ensures CanHold(st', txIds)
  {
    VSizeStable(st, st', txIds);
  }

  /** No id of these nodes stands for something else, here or among themselves. */
  ghost predicate NodesClear(st: Store, nodes: set<MerkleNode>) {
    var h := st.env.hashes;
    && (forall id, n :: id in st.merkles && n in nodes && h.merkle(n) == id ==> st.merkles[id].merkle == n)
    && (forall n, n' :: n in nodes && n' in nodes && h.merkle(n) == h.merkle(n') ==> n == n')
  }

  lemma ClearKept(st: Store, nodes: set<MerkleNode>, node: MerkleNode)
    requires NodesClear(st, nodes) && node in nodes
    ensures NodesClear(PutMerkle(st, node), nodes)
  {
  }

  /** The nodes above a stored layer can be stored one after the other. */
  lemma {:induction false} StoreNodes(
    st: Store, all: set<MerkleNode>, layer: seq<HashT>, txIds: seq<HashT>, k: nat)
    requires WellFormed(st) && NodesClear(st, all) && ToSet(PairUp(layer)) <= all
    requires LayerOk(st, layer, txIds) && CanHold(st, txIds) && k <= |PairUp(layer)|
    requires forall i :: 0 <= i < k ==> Stored(st, PairUp(layer)[i])
    ensures var (st', r) := AddMerkles(st, PairUp(layer)[k..]);
      && r == Ok && WellFormed(st') && Extends(st, st') && st'.txs == st.txs && st'.blocks == st.blocks
      && NodesClear(st', all) && LayerOk(st', layer, txIds)
      && forall i :: 0 <= i < |PairUp(layer)| ==> Stored(st', PairUp(layer)[i])
    decreases |PairUp(layer)| - k
  {
    hide WellFormed, LayerOk, CanHold, PairUp, MerkleOk, NodesClear;
    var nodes := PairUp(layer);
    if k == |nodes| {
      ExtendsReflexive(st);
    } else {
      assert nodes[k..][0] == nodes[k] && nodes[k..][1..] == nodes[k + 1..];
      assert nodes[k] in ToSet(nodes);
      if st.env.hashes.merkle(nodes[k]) in st.merkles {
        AlreadyStored(st, all, nodes[k]);
        StoreNodes(st, all, layer, txIds, k + 1);
      } else {
        NodeStorable(st, layer, txIds, k);
        PutMerkleWellFormed(st, nodes[k]);
        var st1 := PutMerkle(st, nodes[k]);
        LayerStable(st, st1, layer, txIds);
        CanHoldStable(st, st1, txIds);
        ClearKept(st, all, nodes[k]);
        StoreNodes(st1, all, layer, txIds, k + 1);
        ExtendsTransitive(st, st1, AddMerkles(st1, nodes[k + 1..]).0);
      }
    }
  }

  lemma AlreadyStored(st: Store, all: set<MerkleNode>, node: MerkleNode)
    requires NodesClear(st, all) && node in all && st.env.hashes.merkle(node) in st.merkles
    ensures Stored(st, node)
  {
  }

  function PastPair(layer: seq<HashT>): seq<HashT> { if |layer| <= 1 then [] else layer[2..] }

  lemma FirstPair(st: Store, layer: seq<HashT>)
    requires Separate(st) && layer != [] && Stored(st, PairUp(layer)[0])
    requires |layer| > 1 ==> layer[0] != layer[1]
    ensures var next := NextLayer(st.env.hashes, layer);
      && next != [] && next[1..] == NextLayer(st.env.hashes, PastPair(layer))
      && Expand(st, next) == layer[..|layer| - |PastPair(layer)|] + Expand(st, next[1..])
      && TxsIn(st, next) == TxsIn(st, next[1..])
  {
    var nodes, next := PairUp(layer), NextLayer(st.env.hashes, layer);
    assert next[0] == st.env.hashes.merkle(nodes[0]) && next[0] !in st.txs;
    assert nodes[1..] == PairUp(PastPair(layer));
    assert Children(nodes[0]) == layer[..|layer| - |PastPair(layer)|];
  }

  /** Going down one layer from the nodes above it gives the layer back. */
  lemma {:induction false} ExpandNext(st: Store, layer: seq<HashT>)
    requires Separate(st) && forall i :: 0 <= i < |PairUp(layer)| ==> Stored(st, PairUp(layer)[i])
    requires NoDup(layer)
    ensures Expand(st, NextLayer(st.env.hashes, layer)) == layer
    ensures TxsIn(st, NextLayer(st.env.hashes, layer)) == []
    decreases |layer|
  {
    if layer != [] {
      var rest := PastPair(layer);
      FirstPair(st, layer);
      assert PairUp(rest) == PairUp(layer)[1..];
      hide Stored, PairUp, Expand, TxsIn;
      forall i | 0 <= i < |PairUp(rest)| ensures Stored(st, PairUp(rest)[i]) {
        assert PairUp(rest)[i] == PairUp(layer)[i + 1];
      }
      ExpandNext(st, rest);
    }
  }

  /** Distinct trees have distinct roots. */
  lemma LayerDistinct(st: Store, layer: seq<HashT>, txIds: seq<HashT>)
    requires WellFormed(st) && LayerOk(st, layer, txIds) && NoDup(txIds)
    ensures NoDup(layer)
  {
    hide WellFormed, LevelOrder, TotalVSize;
    var d := MaxDepth(st);
    forall i, j | 0 <= i < j < |layer| ensures layer[i] != layer[j] {
      var mid := layer[i + 1..j];
      assert layer == layer[..i] + ([layer[i]] + mid + [layer[j]]) + layer[j + 1..];
      PartOfLayer(st, layer[..i], [layer[i]] + mid + [layer[j]], layer[j + 1..], txIds, d);
      LevelOrderConcat(st, [layer[i]], mid, d);
      LevelOrderConcat(st, [layer[i]] + mid, [layer[j]], d);
      assert Grounded(st, layer[i], d);
      LevelOrderNonEmpty(st, [layer[i]], d);
      MultisetNoDup(txIds);
      var t := LevelOrder(st, [layer[i]], d)[0];
      assert t in multiset(LevelOrder(st, [layer[i]], d));
      assert multiset(txIds)[t] <= 1;
    }
  }

  lemma NextLayerOk(st: Store, layer: seq<HashT>, txIds: seq<HashT>)
    requires WellFormed(st) && LayerOk(st, layer, txIds) && NoDup(txIds)
    requires forall i :: 0 <= i < |PairUp(layer)| ==> Stored(st, PairUp(layer)[i])
    ensures LayerOk(st, NextLayer(st.env.hashes, layer), txIds)
  {
    hide NoDup, PairUp, Grounded;
    var next, d := NextLayer(st.env.hashes, layer), MaxDepth(st);
    PairUpSize(layer);
    forall i | 0 <= i < |next| ensures next[i] in st.merkles && Grounded(st, next[i], d) {
      assert Stored(st, PairUp(layer)[i]);
      assert MerkleRecordOk(st, next[i]);
    }
    WellFormedSeparate(st);
    LayerDistinct(st, layer, txIds);
    ExpandNext(st, layer);
    ExpandGrounded(st, next, d);
    ExtendsReflexive(st);
    LevelOrderStable(st, st, layer, d - 1, d);
  }

  lemma {:induction false} AddMerklesConcat(st: Store, a: seq<MerkleNode>, b: seq<MerkleNode>)
    requires AddMerkles(st, a).1 == Ok
    ensures AddMerkles(st, a + b) == AddMerkles(AddMerkles(st, a).0, b)
    decreases |a|
  {
    hide CanStoreMerkle;
    if a == [] {
      assert a + b == b;
    } else {
      assert (a + b)[0] == a[0] && (a + b)[1..] == a[1..] + b;
      if st.env.hashes.merkle(a[0]) in st.merkles {
        AddMerklesConcat(st, a[1..], b);
      } else {
        AddMerklesConcat(PutMerkle(st, a[0]), a[1..], b);
      }
    }
  }

  function Root(h: Hashes, nodes: seq<MerkleNode>): HashT
    requires nodes != []
  {
    h.merkle(nodes[|nodes| - 1])
  }

  /** What storing these nodes from this store on comes to. */
  ghost predicate StoresAll(st: Store, nodes: seq<MerkleNode>, txIds: seq<HashT>) {
    nodes != [] &&
    var (st', r) := AddMerkles(st, nodes);
    && r == Ok && WellFormed(st') && Extends(st, st') && st'.txs == st.txs && st'.blocks == st.blocks
    && Root(st.env.hashes, nodes) in st'.merkles
    && TxIdsUnder(st', Root(st.env.hashes, nodes)) == txIds
  }

  lemma OneLayer(st: Store, all: set<MerkleNode>, layer: seq<HashT>, txIds: seq<HashT>)
    requires WellFormed(st) && NodesClear(st, all) && ToSet(PairUp(layer)) <= all
    requires LayerOk(st, layer, txIds) && CanHold(st, txIds)
    ensures var (st', r) := AddMerkles(st, PairUp(layer));
      && r == Ok && NodesClear(st', all)
      && WellFormed(st') && Extends(st, st') && st'.txs == st.txs && st'.blocks == st.blocks
      && LayerOk(st', NextLayer(st.env.hashes, layer), txIds) && CanHold(st', txIds)
      && (PairUp(layer) != [] ==> Root(st.env.hashes, PairUp(layer)) in st'.merkles)
  {
    hide WellFormed, LayerOk, CanHold, PairUp, NodesClear;
    StoreNodes(st, all, layer, txIds, 0);
    assert PairUp(layer)[0..] == PairUp(layer);
    var st' := AddMerkles(st, PairUp(layer)).0;
    CanHoldStable(st, st', txIds);
    CanHoldNoDup(st', txIds);
    NextLayerOk(st', layer, txIds);
    if PairUp(layer) != [] {
      assert Stored(st', PairUp(layer)[|PairUp(layer)| - 1]);
    }
  }

  lemma CanHoldNoDup(st: Store, txIds: seq<HashT>)
    requires CanHold(st, txIds)
    ensures NoDup(txIds)
  {
  }

  lemma RootOk(st: Store, layer: seq<HashT>, txIds: seq<HashT>)
    requires LayerOk(st, layer, txIds) && |layer| == 1
    ensures TxIdsUnder(st, layer[0]) == txIds
  {
    assert layer == [layer[0]];
  }

  lemma {:induction false} StoreLayers(st: Store, all: set<MerkleNode>, layer: seq<HashT>, txIds: seq<HashT>)
    requires WellFormed(st) && NodesClear(st, all) && ToSet(NodesAbove(st.env.hashes, layer)) <= all
    requires LayerOk(st, layer, txIds) && CanHold(st, txIds) && |layer| > 1
    ensures StoresAll(st, NodesAbove(st.env.hashes, layer), txIds)
    decreases |layer|
  {
    hide WellFormed, LayerOk, CanHold, PairUp, AddMerkles, NodesClear;
    var h := st.env.hashes;
    var next, nodes := NextLayer(h, layer), PairUp(layer);
    PairUpSize(layer);
    SetOfBoth(nodes, NodesAbove(h, next));
    OneLayer(st, all, layer, txIds);
    var st' := AddMerkles(st, nodes).0;
    AddMerklesConcat(st, nodes, NodesAbove(h, next));
    if |next| == 1 {
      RootOk(st', next, txIds);
      assert nodes + [] == nodes;
    } else {
      StoreLayers(st', all, next, txIds);
      ExtendsTransitive(st, st', AddMerkles(st', NodesAbove(h, next)).0);
    }
  }

  /** Storing a tree's nodes in the order they are returned never misses a child, and reading the
      last one breadth first gives back the list the tree was built from. */
  lemma StoreTree(st: Store, txIds: seq<HashT>)
    requires WellFormed(st) && NodesClear(st, ToSet(TreeNodes(st.env.hashes, txIds)))
    requires txIds != [] && CanHold(st, txIds)
    ensures StoresAll(st, TreeNodes(st.env.hashes, txIds), txIds)
  {
    hide WellFormed, LayerOk, AddMerkles, TotalVSize, NodesClear;
    var all := ToSet(TreeNodes(st.env.hashes, txIds));
    LeavesOk(st, txIds);
    if |txIds| == 1 {
      PairUpSize(txIds);
      OneLayer(st, all, txIds, txIds);
      RootOk(AddMerkles(st, PairUp(txIds)).0, NextLayer(st.env.hashes, txIds), txIds);
    } else {
      StoreLayers(st, all, txIds, txIds);
    }
  }
}
