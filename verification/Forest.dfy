/** The stored entities and the merkle forest among them.  `LevelOrder` is the reference
    reading of a merkle tree: the transactions of its levels, top level first, each level from
    left to right. */
module Forest {
  import opened Core

  datatype BlockRecord = BlockRecord(block: Block, height: nat, totalWork: HashT)

  datatype MerkleRecord = MerkleRecord(merkle: MerkleNode, vSize: nat)

  datatype TxRecord = TxRecord(tx: Tx, vSize: nat)

  /** The contents of an inventory. */
  datatype Store = Store(
    env: Env,
    blocks: map<HashT, BlockRecord>,
    merkles: map<HashT, MerkleRecord>,
    txs: map<HashT, TxRecord>)

  // ---- Lookups, total so that specifications can use them freely ----

  const NO_TX: Tx := Tx(false, 0, [], [])

  function TxOf(st: Store, id: HashT): Tx {
    if id in st.txs then st.txs[id].tx else NO_TX
  }

  predicate HasEntity(st: Store, id: HashT) { id in st.merkles || id in st.txs }

  function EntityVSize(st: Store, id: HashT): nat {
    if id in st.merkles then st.merkles[id].vSize
    else if id in st.txs then st.txs[id].vSize
    else 0
  }

  predicate HasTxOut(st: Store, id: HashT, ind: nat) {
    id in st.txs && ind < |st.txs[id].tx.outputs|
  }

  function TxOutAt(st: Store, id: HashT, ind: nat): TxOut {
    if HasTxOut(st, id, ind) then st.txs[id].tx.outputs[ind] else TxOut(0, 0)
  }

  // ---- Levels of a merkle tree ----

  /** The nodes pushed for a merkle node: a repeated child is pushed once. */
  function Children(m: MerkleNode): seq<HashT> {
    if m.lChild == m.rChild then [m.lChild] else [m.lChild, m.rChild]
  }

  /** An id that is both is read as a transaction. */
  function ChildrenOf(st: Store, id: HashT): seq<HashT> {
    if id in st.txs || id !in st.merkles then [] else Children(st.merkles[id].merkle)
  }

  function Expand(st: Store, ids: seq<HashT>): seq<HashT> {
    if ids == [] then [] else ChildrenOf(st, ids[0]) + Expand(st, ids[1..])
  }

  function TxsIn(st: Store, ids: seq<HashT>): seq<HashT> {
    if ids == [] then []
    else (if ids[0] in st.txs then [ids[0]] else []) + TxsIn(st, ids[1..])
  }

  function LevelOrder(st: Store, ids: seq<HashT>, depth: nat): seq<HashT>
    decreases depth
  {
    if depth == 0 then [] else TxsIn(st, ids) + LevelOrder(st, Expand(st, ids), depth - 1)
  }

  /** Every path down from the id ends in a stored transaction within `depth` nodes. */
  predicate Grounded(st: Store, id: HashT, depth: nat)
    decreases depth
  {
    && depth > 0
    && (id in st.txs
        || (&& id in st.merkles
            && Grounded(st, st.merkles[id].merkle.lChild, depth - 1)
            && Grounded(st, st.merkles[id].merkle.rChild, depth - 1)))
  }

  predicate AllGrounded(st: Store, ids: seq<HashT>, depth: nat) {
    forall i :: 0 <= i < |ids| ==> Grounded(st, ids[i], depth)
  }

  /** No path can be longer than the number of merkle nodes, plus one for the transaction. */
  function MaxDepth(st: Store): nat { |st.merkles| + 1 }

  function TxIdsUnder(st: Store, root: HashT): seq<HashT> {
    LevelOrder(st, [root], MaxDepth(st))
  }

  function TotalVSize(st: Store, ids: seq<HashT>): nat {
    if ids == [] then 0 else VSize(TxOf(st, ids[0])) + TotalVSize(st, ids[1..])
  }

  /** `st'` holds everything `st` does. */
  ghost predicate Extends(st: Store, st': Store) {
    && st'.env == st.env
    && (forall id :: id in st.blocks ==> id in st'.blocks && st'.blocks[id] == st.blocks[id])
    && (forall id :: id in st.merkles ==> id in st'.merkles && st'.merkles[id] == st.merkles[id])
    && (forall id :: id in st.txs ==> id in st'.txs && st'.txs[id] == st.txs[id])
  }

  predicate Separate(st: Store) { st.txs.Keys !! st.merkles.Keys }

  // ---- Level order and concatenation ----

  lemma {:induction false} ExpandConcat(st: Store, a: seq<HashT>, b: seq<HashT>)
    ensures Expand(st, a + b) == Expand(st, a) + Expand(st, b)
    ensures TxsIn(st, a + b) == TxsIn(st, a) + TxsIn(st, b)
  {
    hide ChildrenOf;
    if a == [] {
      assert a + b == b;
    } else {
      assert (a + b)[1..] == a[1..] + b;
      ExpandConcat(st, a[1..], b);
      Associative(ChildrenOf(st, a[0]), Expand(st, a[1..]), Expand(st, b));
      Associative(if a[0] in st.txs then [a[0]] else [], TxsIn(st, a[1..]), TxsIn(st, b));
    }
  }

  lemma TotalVSizeConcat(st: Store, a: seq<HashT>, b: seq<HashT>)
    ensures TotalVSize(st, a + b) == TotalVSize(st, a) + TotalVSize(st, b)
  {
    if a == [] {
      assert a + b == b;
    } else {
      assert (a + b)[1..] == a[1..] + b;
      TotalVSizeConcat(st, a[1..], b);
    }
  }

  /** Two forests side by side hold the transactions of both, with their multiplicities. */
  lemma {:induction false} LevelOrderConcat(st: Store, a: seq<HashT>, b: seq<HashT>, depth: nat)
    ensures multiset(LevelOrder(st, a + b, depth))
         == multiset(LevelOrder(st, a, depth)) + multiset(LevelOrder(st, b, depth))
    decreases depth
  {
    hide LevelOrder, Expand, TxsIn;
    if depth == 0 {
      NoLevel(st, a);
      NoLevel(st, b);
      NoLevel(st, a + b);
    } else {
      LevelOrderConcat(st, Expand(st, a), Expand(st, b), depth - 1);
      TwoLevels(st, a, b, depth);
    }
  }

  lemma NoLevel(st: Store, ids: seq<HashT>)
    ensures LevelOrder(st, ids, 0) == []
  {
  }

  lemma TwoLevels(st: Store, a: seq<HashT>, b: seq<HashT>, depth: nat)
    requires depth > 0
    requires multiset(LevelOrder(st, Expand(st, a) + Expand(st, b), depth - 1))
          == multiset(LevelOrder(st, Expand(st, a), depth - 1)) + multiset(LevelOrder(st, Expand(st, b), depth - 1))
    ensures multiset(LevelOrder(st, a + b, depth))
         == multiset(LevelOrder(st, a, depth)) + multiset(LevelOrder(st, b, depth))
  {
    hide *;
    TwoForests(st, a, b, depth);
    OneLevel(st, a, depth);
    OneLevel(st, b, depth);
    Interchange(multiset(TxsIn(st, a)), multiset(TxsIn(st, b)),
      multiset(LevelOrder(st, Expand(st, a), depth - 1)), multiset(LevelOrder(st, Expand(st, b), depth - 1)));
  }

  lemma OneLevel(st: Store, ids: seq<HashT>, depth: nat)
    requires depth > 0
    ensures multiset(LevelOrder(st, ids, depth))
         == multiset(TxsIn(st, ids)) + multiset(LevelOrder(st, Expand(st, ids), depth - 1))
  {
  }

  lemma TwoForests(st: Store, a: seq<HashT>, b: seq<HashT>, depth: nat)
    requires depth > 0
    ensures multiset(LevelOrder(st, a + b, depth))
         == multiset(TxsIn(st, a)) + multiset(TxsIn(st, b))
            + multiset(LevelOrder(st, Expand(st, a) + Expand(st, b), depth - 1))
  {
    OneLevel(st, a + b, depth);
    ExpandConcat(st, a, b);
    hide *;
  }

  lemma Interchange(p: multiset<HashT>, q: multiset<HashT>, r: multiset<HashT>, s: multiset<HashT>)
    ensures p + q + (r + s) == p + r + (q + s)
  {
  }

  lemma {:induction false} LevelOrderVSizeConcat(st: Store, a: seq<HashT>, b: seq<HashT>, depth: nat)
    ensures TotalVSize(st, LevelOrder(st, a + b, depth))
         == TotalVSize(st, LevelOrder(st, a, depth)) + TotalVSize(st, LevelOrder(st, b, depth))
    decreases depth
  {
    if depth > 0 {
      var a', b' := Expand(st, a), Expand(st, b);
      LevelOrderVSizeConcat(st, a', b', depth - 1);
      OneLevelVSize(st, a, depth);
      OneLevelVSize(st, b, depth);
      OneLevelVSize(st, a + b, depth);
      ExpandConcat(st, a, b);
      TotalVSizeConcat(st, TxsIn(st, a), TxsIn(st, b));
    }
  }

  lemma OneLevelVSize(st: Store, ids: seq<HashT>, depth: nat)
    requires depth > 0
    ensures TotalVSize(st, LevelOrder(st, ids, depth))
         == TotalVSize(st, TxsIn(st, ids)) + TotalVSize(st, LevelOrder(st, Expand(st, ids), depth - 1))
  {
    TotalVSizeConcat(st, TxsIn(st, ids), LevelOrder(st, Expand(st, ids), depth - 1));
  }

  lemma {:induction false} LevelOrderMembers(st: Store, ids: seq<HashT>, depth: nat)
    ensures forall x :: x in LevelOrder(st, ids, depth) ==> x in st.txs
    decreases depth
  {
    if depth > 0 {
      TxsInMembers(st, ids);
      LevelOrderMembers(st, Expand(st, ids), depth - 1);
    }
  }

  lemma TxsInMembers(st: Store, ids: seq<HashT>)
    ensures forall x :: x in TxsIn(st, ids) <==> x in ids && x in st.txs
  {
    if ids != [] {
      TxsInMembers(st, ids[1..]);
      assert ids == [ids[0]] + ids[1..];
    }
  }

  lemma ExpandMembers(st: Store, ids: seq<HashT>)
    ensures forall x :: x in Expand(st, ids) <==> exists i :: 0 <= i < |ids| && x in ChildrenOf(st, ids[i])
  {
    if ids != [] {
      ExpandMembers(st, ids[1..]);
      forall x ensures x in Expand(st, ids) <==> exists i :: 0 <= i < |ids| && x in ChildrenOf(st, ids[i]) {
        if x in Expand(st, ids[1..]) {
          var i :| 0 <= i < |ids[1..]| && x in ChildrenOf(st, ids[1..][i]);
          assert x in ChildrenOf(st, ids[i + 1]);
        }
        if i :| 0 <= i < |ids| && x in ChildrenOf(st, ids[i]) {
          assert i > 0 ==> ids[1..][i - 1] == ids[i];
        }
      }
    }
  }

  // ---- Groundedness ----

  lemma GroundedMonotone(st: Store, st': Store, id: HashT, depth: nat, depth': nat)
    requires Extends(st, st') && depth <= depth'
    requires Grounded(st, id, depth)
    ensures Grounded(st', id, depth')
    decreases depth
  {
    if id !in st.txs {
      GroundedMonotone(st, st', st.merkles[id].merkle.lChild, depth - 1, depth' - 1);
      GroundedMonotone(st, st', st.merkles[id].merkle.rChild, depth - 1, depth' - 1);
    }
  }

  lemma ExpandGrounded(st: Store, ids: seq<HashT>, depth: nat)
    requires AllGrounded(st, ids, depth) && depth > 0
    ensures AllGrounded(st, Expand(st, ids), depth - 1)
  {
    ExpandMembers(st, ids);
    var next := Expand(st, ids);
    forall k | 0 <= k < |next| ensures Grounded(st, next[k], depth - 1) {
      assert next[k] in next;
      var i :| 0 <= i < |ids| && next[k] in ChildrenOf(st, ids[i]);
      assert Grounded(st, ids[i], depth);
    }
  }

  lemma LevelOrderEmpty(st: Store, depth: nat)
    ensures LevelOrder(st, [], depth) == []
  {
  }

  /** A grounded forest reads the same at any sufficient depth and in any larger store. */
  lemma {:induction false} LevelOrderStable(st: Store, st': Store, ids: seq<HashT>, depth: nat, depth': nat)
    requires Extends(st, st') && Separate(st') && depth <= depth'
    requires AllGrounded(st, ids, depth)
    ensures LevelOrder(st', ids, depth') == LevelOrder(st, ids, depth)
    decreases depth
  {
    if ids == [] {
      LevelOrderEmpty(st, depth);
      LevelOrderEmpty(st', depth');
    } else {
      assert Grounded(st, ids[0], depth);
      SameLevel(st, st', ids, depth);
      ExpandGrounded(st, ids, depth);
      LevelOrderStable(st, st', Expand(st, ids), depth - 1, depth' - 1);
    }
  }

  lemma SameLevel(st: Store, st': Store, ids: seq<HashT>, depth: nat)
    requires Extends(st, st') && Separate(st')
    requires AllGrounded(st, ids, depth)
    ensures TxsIn(st', ids) == TxsIn(st, ids) && Expand(st', ids) == Expand(st, ids)
  {
    if ids != [] {
      assert Grounded(st, ids[0], depth);
      forall i | 0 <= i < |ids[1..]| ensures Grounded(st, ids[1..][i], depth) {
        assert ids[1..][i] == ids[i + 1];
      }
      SameLevel(st, st', ids[1..], depth);
    }
  }

  lemma {:induction false} LevelOrderNonEmpty(st: Store, ids: seq<HashT>, depth: nat)
    requires ids != [] && AllGrounded(st, ids, depth)
    ensures LevelOrder(st, ids, depth) != []
    decreases depth
  {
    assert Grounded(st, ids[0], depth);
    if ids[0] in st.txs {
      TxsInMembers(st, ids);
    } else {
      ExpandMembers(st, ids);
      ExpandGrounded(st, ids, depth);
      assert st.merkles[ids[0]].merkle.lChild in ChildrenOf(st, ids[0]);
      LevelOrderNonEmpty(st, Expand(st, ids), depth - 1);
    }
  }

  /** The transactions under a stored transaction's id are that transaction. */
  lemma LevelOrderTx(st: Store, id: HashT, depth: nat)
    requires id in st.txs && depth > 0
    ensures LevelOrder(st, [id], depth) == [id]
  {
    assert Expand(st, [id]) == ChildrenOf(st, id) + Expand(st, [id][1..]);
    assert TxsIn(st, [id]) == [id] + TxsIn(st, [id][1..]);
    LevelOrderEmpty(st, depth - 1);
  }

  /** The transactions under a merkle node are those under its children. */
  lemma LevelOrderNode(st: Store, id: HashT, depth: nat)
    requires id in st.merkles && id !in st.txs && depth > 0
    ensures LevelOrder(st, [id], depth) == LevelOrder(st, Children(st.merkles[id].merkle), depth - 1)
  {
    assert [id][1..] == [];
    assert Expand(st, [id]) == ChildrenOf(st, id) + Expand(st, []) == Children(st.merkles[id].merkle);
    assert TxsIn(st, [id]) == [] + TxsIn(st, []) == [];
  }

  /** Two trees without a common transaction, read as one forest. */
  lemma PairLeaves(st: Store, l: HashT, r: HashT, depth: nat)
    requires var a, b := LevelOrder(st, [l], depth), LevelOrder(st, [r], depth);
      NoDup(a) && NoDup(b) && ToSet(a) !! ToSet(b)
    ensures NoDup(LevelOrder(st, [l, r], depth))
    ensures TotalVSize(st, LevelOrder(st, [l, r], depth))
         == TotalVSize(st, LevelOrder(st, [l], depth)) + TotalVSize(st, LevelOrder(st, [r], depth))
  {
    assert [l, r] == [l] + [r];
    var a, b := LevelOrder(st, [l], depth), LevelOrder(st, [r], depth);
    LevelOrderConcat(st, [l], [r], depth);
    LevelOrderVSizeConcat(st, [l], [r], depth);
    NoDupAppend(a, b);
    MultisetNoDup(a + b);
    var s := LevelOrder(st, [l, r], depth);
    assert multiset(s) == multiset(a + b);
    forall x ensures multiset(s)[x] <= 1 {
      assert multiset(a + b)[x] <= 1;
    }
    MultisetNoDup(s);
  }
}
