/** Two nodes that know the same block agree on the chain below it: without hash collisions the
    id of a head fixes its transactions, its work and its ledger. */
module Agreement {
  import opened Core
  import opened Forest
  import opened Target
  import opened Rules
  import opened Ledger

  /** What two inventories both hold, they hold alike. */
  ghost predicate Agree(st: Store, st': Store) {
    && st.env == st'.env
    && (forall id :: id in st.blocks && id in st'.blocks ==> SameBlock(st, st', id))
    && (forall id :: id in st.merkles && id in st'.merkles ==> st.merkles[id].merkle == st'.merkles[id].merkle)
    && (forall id :: id in st.txs && id in st'.txs ==> st.txs[id].tx == st'.txs[id].tx)
    && st.txs.Keys !! st'.merkles.Keys
    && st.merkles.Keys !! st'.txs.Keys
  }

  /** The same block up to its mined time. */
  ghost predicate SameBlock(st: Store, st': Store, id: HashT)
    requires id in st.blocks && id in st'.blocks
  {
    var a, b := st.blocks[id].block, st'.blocks[id].block;
    a.prevBlockId == b.prevBlockId && a.merkleRoot == b.merkleRoot && a.target == b.target
  }

  function StoredTxs(st: Store): set<Tx> { set id | id in st.txs :: st.txs[id].tx }

  function StoredNodes(st: Store): set<MerkleNode> { set id | id in st.merkles :: st.merkles[id].merkle }

  function StoredBlocks(st: Store): set<Block> { set id | id in st.blocks && id != 0 :: st.blocks[id].block }

  /** No two different things that the two inventories hold share an id; blocks count as the same
      when they differ only in what an id does not cover. */
  ghost predicate NoCollision(st: Store, st': Store) {
    var h := st.env.hashes;
    && (forall t, t' :: t in StoredTxs(st) && t' in StoredTxs(st') && h.tx(t) == h.tx(t') ==> t == t')
    && (forall m, m' :: m in StoredNodes(st) && m' in StoredNodes(st') && h.merkle(m) == h.merkle(m') ==> m == m')
    && (forall b, b' :: b in StoredBlocks(st) && b' in StoredBlocks(st') && h.BlockId(b) == h.BlockId(b') ==>
          b.(minedTime := b'.minedTime) == b')
  }

  lemma NoCollisionAgree(st: Store, st': Store)
    requires WellFormed(st) && WellFormed(st') && st.env == st'.env && NoCollision(st, st')
    ensures Agree(st, st')
  {
    forall id | id in st.blocks && id in st'.blocks ensures SameBlock(st, st', id) {
      assert BlockRecordOk(st, id) && BlockRecordOk(st', id);
      assert id != 0 ==> st.blocks[id].block in StoredBlocks(st) && st'.blocks[id].block in StoredBlocks(st');
    }
    forall id | id in st.merkles && id in st'.merkles ensures st.merkles[id].merkle == st'.merkles[id].merkle {
      assert MerkleRecordOk(st, id) && MerkleRecordOk(st', id);
      assert st.merkles[id].merkle in StoredNodes(st) && st'.merkles[id].merkle in StoredNodes(st');
    }
    forall id | id in st.txs && id in st'.txs ensures st.txs[id].tx == st'.txs[id].tx {
      assert TxRecordOk(st, id) && TxRecordOk(st', id);
      assert st.txs[id].tx in StoredTxs(st) && st'.txs[id].tx in StoredTxs(st');
    }
    Disjointness(st, st');
    Disjointness(st', st);
  }

  lemma Disjointness(st: Store, st': Store)
    requires WellFormed(st) && WellFormed(st') && st.env == st'.env
    ensures st.txs.Keys !! st'.merkles.Keys
  {
    forall t, m | t in st.txs && m in st'.merkles ensures t != m {
      assert TxRecordOk(st, t) && MerkleRecordOk(st', m);
    }
  }

  lemma {:induction false} SameLevels(st: Store, st': Store, ids: seq<HashT>, depth: nat, depth': nat)
    requires Agree(st, st') && AllGrounded(st, ids, depth) && AllGrounded(st', ids, depth')
    ensures TxsIn(st, ids) == TxsIn(st', ids) && Expand(st, ids) == Expand(st', ids)
    decreases |ids|
  {
    if ids != [] {
      assert Grounded(st, ids[0], depth) && Grounded(st', ids[0], depth');
      forall i | 0 <= i < |ids[1..]| ensures Grounded(st, ids[1..][i], depth) && Grounded(st', ids[1..][i], depth') {
        assert ids[1..][i] == ids[i + 1];
      }
      SameLevels(st, st', ids[1..], depth, depth');
    }
  }

  /** A tree that both can read, they read the same. */
  lemma {:induction false} SameTrees(st: Store, st': Store, ids: seq<HashT>, depth: nat, depth': nat)
    requires Agree(st, st') && AllGrounded(st, ids, depth) && AllGrounded(st', ids, depth')
    ensures LevelOrder(st, ids, depth) == LevelOrder(st', ids, depth')
    decreases depth
  {
    hide Agree;
    if ids == [] {
      LevelOrderEmpty(st, depth);
      LevelOrderEmpty(st', depth');
    } else {
      assert Grounded(st, ids[0], depth) && Grounded(st', ids[0], depth');
      SameLevels(st, st', ids, depth, depth');
      ExpandGrounded(st, ids, depth);
      ExpandGrounded(st', ids, depth');
      SameTrees(st, st', Expand(st, ids), depth - 1, depth' - 1);
    }
  }

  lemma SameBlockTxs(st: Store, st': Store, b: HashT)
    requires WellFormed(st) && WellFormed(st') && Agree(st, st')
    requires b in st.blocks && b in st'.blocks && b != 0
    ensures BlockTxs(st, b) == BlockTxs(st', b)
    ensures forall t :: t in BlockTxs(st, b) ==> t in st.txs && t in st'.txs && TxOf(st, t) == TxOf(st', t)
  {
    hide WellFormed, LevelOrder, Grounded;
    BlockTxsGrounded(st, b);
    BlockTxsGrounded(st', b);
    assert SameBlock(st, st', b);
    SameTrees(st, st', [BlockOf(st, b).merkleRoot], MaxDepth(st), MaxDepth(st'));
  }

  /** The same head has the same chain, at the same height and with the same work. */
  lemma {:induction false} SameChainTxs(st: Store, st': Store, b: HashT)
    requires WellFormed(st) && WellFormed(st') && Agree(st, st')
    requires b in st.blocks && b in st'.blocks
    ensures ChainTxs(st, b) == ChainTxs(st', b)
    ensures Included(st, b) == Included(st', b)
    ensures HeightOf(st, b) == HeightOf(st', b) && WorkOf(st, b) == WorkOf(st', b)
    ensures forall t :: t in ChainTxs(st, b) ==> t in st.txs && t in st'.txs && TxOf(st, t) == TxOf(st', t)
    decreases HeightOf(st, b)
  {
    hide WellFormed, BlockTxs, LastingOk;
    if b != 0 {
      BlockRecord(st, b);
      BlockRecord(st', b);
      assert SameBlock(st, st', b);
      SameBlockTxs(st, st', b);
      SameChainTxs(st, st', Parent(st, b));
    } else {
      ZeroRecord(st);
      ZeroRecord(st');
    }
  }

  lemma BlockRecord(st: Store, b: HashT)
    requires WellFormed(st) && b in st.blocks && b != 0
    ensures Linked(st, b) && BlockOf(st, b).target > 0
    ensures WorkOf(st, b) == WorkOf(st, Parent(st, b)) + TargetToWork(BlockOf(st, b).target)
  {
    assert BlockRecordOk(st, b);
  }

  lemma ZeroRecord(st: Store)
    requires WellFormed(st)
    ensures !Linked(st, 0) && HeightOf(st, 0) == 0 && WorkOf(st, 0) == 0
  {
    assert BlockRecordOk(st, 0);
  }

  lemma SameUtxos(st: Store, st': Store, ids: seq<HashT>)
    requires forall t :: t in ids ==> t in st.txs && t in st'.txs && TxOf(st, t) == TxOf(st', t)
    ensures Unspent(st, ids) == Unspent(st', ids)
    ensures PkhPairs(st, Unspent(st, ids)) == PkhPairs(st', Unspent(st, ids))
  {
    assert forall t :: t in ids ==> Outs(st, t) == Outs(st', t) && Ins(st, t) == Ins(st', t);
    UnspentStored(st, ids);
    assert forall u :: u in Unspent(st, ids) ==> OriginPkh(st, u) == OriginPkh(st', u);
  }

  /** Nodes of one network that stand at the same head have the same unspent outputs, the same
      balances and the same inclusions, however their inventories otherwise differ. */
  lemma SameHeadSameLedger(st: Store, st': Store, head: HashT)
    requires WellFormed(st) && WellFormed(st') && st.env == st'.env && NoCollision(st, st')
    requires head in st.blocks && head in st'.blocks
    ensures Canon(st, head, {}) == Canon(st', head, {})
    ensures WorkOf(st, head) == WorkOf(st', head)
  {
    hide WellFormed, Agree, ChainTxs, Included, Unspent, PkhPairs, NoCollision;
    NoCollisionAgree(st, st');
    SameChainTxs(st, st', head);
    SameUtxos(st, st', ChainTxs(st, head));
    NoMempool(st);
    NoMempool(st');
  }

  lemma NoMempool(st: Store)
    ensures Rates(st, {}) == map[] && SpendPairs(st, {}) == {}
  {
  }
}
