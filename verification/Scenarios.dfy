/** Runs of a small network, event by event: inputs at which the program does what it should not. */
module Scenarios {
  import opened Core
  import opened Forest
  import opened Target
  import opened Rules
  import opened Ancestry
  import opened Ledger
  import opened ChainState
  import opened N = Node
  import opened Merkle
  import opened Difficulty
  import opened Mining
  import opened Supply

  // ---- A network with readable ids ----

  const EASIEST: HashT := 0x1_0000_0000

  /** Transactions are told apart by the key their first output pays and have odd ids, merkle nodes
      even ones; a block's id is its nonce, and every signature is good. */
  function SmallEnv(): Env {
    Env(
      Params(50, 4, 1, 100_000, 10_000, EASIEST, EASIEST),
      Hashes(
        (tx: Tx) => 2 * ((if tx.outputs == [] then 0 else tx.outputs[0].publicKeyHash) % 1000) + 1,
        (m: MerkleNode) => 2 * ((1000 * m.lChild + m.rChild) % 1_000_000_000),
        (prev: HashT, root: HashT, target: HashT, noise: HashT, nonce: Uint64) => nonce,
        (key: seq<Byte>) => if key == [] then 0 else key[0],
        (minBlock: Uint64, outputs: seq<TxOut>) => 0,
        (key: seq<Byte>, hash: HashT, signature: seq<Byte>) => true))
  }

  lemma SmallEnvOk()
    ensures SmallEnv().Ok() && SmallEnv().params.Verified()
    ensures forall b: Block :: SmallEnv().hashes.BlockId(b) == b.nonce
  {
  }

  /** An event with one block over these transactions. */
  function OneBlockEvent(h: Hashes, txs: seq<Tx>, ids: seq<HashT>, b: Block): HeadEvent {
    HeadEvent(h.BlockId(b), [b], TreeNodes(h, ids), txs, false)
  }

  function BlockOver(h: Hashes, prev: HashT, ids: seq<HashT>, nonce: Uint64, minedTime: Uint64): Block {
    Block(prev, if TreeNodes(h, ids) == [] then 0 else Root(h, TreeNodes(h, ids)), EASIEST, 0, nonce, minedTime)
  }

  /** The block is good, given that its transactions are stored. */
  ghost predicate GoodBlock(n1: Node, ids: seq<HashT>, b: Block, now: Uint64)
    requires n1.st.env.params.Verified()
  {
    var h := n1.st.env.hashes;
    && ids != [] && CanHold(n1.st, ids) && NodesClear(n1.st, ToSet(TreeNodes(h, ids)))
    && TreeNodes(h, ids) != [] && b.merkleRoot == Root(h, TreeNodes(h, ids))
    && b.prevBlockId in n1.st.blocks && h.BlockId(b) !in n1.st.blocks
    && BodyOk(n1.st, ids, HeightOf(n1.st, b.prevBlockId) + 1)
    && TargetOk(n1.st, b.prevBlockId, b.target)
    && AfterMedian(n1.st, b) && NotFromFuture(b, now)
    && 0 < h.BlockId(b) < b.target
    && WorkOf(n1.st, b.prevBlockId) + TargetToWork(b.target) < TWO_256
  }

  /** The node with the tree and the block stored as well. */
  ghost predicate Took(n1: Node, ids: seq<HashT>, b: Block, n3: Node) {
    var h := n1.st.env.hashes;
    var work := WorkOf(n1.st, b.prevBlockId) + if b.target == 0 then 0 else TargetToWork(b.target);
    && n3.st.env == n1.st.env && n3.head == n1.head && n3.mempool == n1.mempool && n3.st.txs == n1.st.txs
    && n3.st.merkles.Keys == n1.st.merkles.Keys + ToSet(IdsOf(h, TreeNodes(h, ids)))
    && (forall node :: node in TreeNodes(h, ids) ==> Stored(n3.st, node))
    && work < TWO_256
    && n3.st.blocks == n1.st.blocks[h.BlockId(b) := BlockRecord(b, HeightOf(n1.st, b.prevBlockId) + 1, work)]
    && BlockTxs(n3.st, h.BlockId(b)) == ids
  }

  lemma {:induction false} MerkleKeys(st: Store, nodes: seq<MerkleNode>)
    requires AddMerkles(st, nodes).1 == Ok
    ensures AddMerkles(st, nodes).0.merkles.Keys == st.merkles.Keys + ToSet(IdsOf(st.env.hashes, nodes))
    decreases nodes
  {
    hide CanStoreMerkle;
    if nodes != [] {
      var id := st.env.hashes.merkle(nodes[0]);
      var st1 := if id in st.merkles then st else PutMerkle(st, nodes[0]);
      MerkleKeys(st1, nodes[1..]);
      assert IdsOf(st.env.hashes, nodes) == [id] + IdsOf(st.env.hashes, nodes[1..]);
    }
  }

  lemma {:induction false} NodesKept(st: Store, nodes: seq<MerkleNode>, all: set<MerkleNode>)
    requires NodesClear(st, all) && ToSet(nodes) <= all && AddMerkles(st, nodes).1 == Ok
    ensures var st' := AddMerkles(st, nodes).0;
      && (forall node :: node in nodes ==> Stored(st', node))
      && (forall node :: Stored(st, node) ==> Stored(st', node))
    decreases nodes
  {
    hide CanStoreMerkle, NodesClear;
    if nodes != [] {
      var node := nodes[0];
      var st1 := if st.env.hashes.merkle(node) in st.merkles then st else PutMerkle(st, node);
      assert node in ToSet(nodes) && forall m :: m in nodes[1..] ==> m in nodes;
      ClearNode(st, all, node);
      NodesKept(st1, nodes[1..], all);
    }
  }

  lemma ClearNode(st: Store, all: set<MerkleNode>, node: MerkleNode)
    requires NodesClear(st, all) && node in all
    ensures st.env.hashes.merkle(node) in st.merkles ==> Stored(st, node)
    ensures NodesClear(PutMerkle(st, node), all)
  {
    ClearKept(st, all, node);
  }

  lemma Delivered(n: Node, txs: seq<Tx>, ids: seq<HashT>, b: Block, now: Uint64)
    requires NodeOk(n) && n.st.env.params.Verified() && AddTxs(n, txs).1 == Ok
    requires var n1 := AddTxs(n, txs).0; n1.st.env == n.st.env && GoodBlock(n1, ids, b, now)
    ensures var (n3, r) := AddEntities(n, OneBlockEvent(n.st.env.hashes, txs, ids, b), now);
      r == Ok && NodeOk(n3) && Took(AddTxs(n, txs).0, ids, b, n3)
  {
    hide WellFormed, ChainOk, CanHold, NodesClear, TreeNodes, BodyOk, TargetOk, AfterMedian, AddMerkles, AddBlocks,
      TxIdsUnder, Grounded, StoreBlockOutcome, AddTxs;
    var h, nodes := n.st.env.hashes, TreeNodes(n.st.env.hashes, ids);
    var n1 := AddTxs(n, txs).0;
    AddTxsOk(n, txs);
    ChainWellFormed(n1);
    StoreTree(n1.st, ids);
    MerkleKeys(n1.st, nodes);
    NodesKept(n1.st, nodes, ToSet(nodes));
    var st2 := AddMerkles(n1.st, nodes).0;
    SameChain(n1, st2);
    BlockFits(n1, st2, ids, b, now);
    OneBlock(st2, b, now);
    NewBlockIn(st2, b, now);
    AddEntitiesOk(n, OneBlockEvent(h, txs, ids, b), now);
  }

  lemma ChainWellFormed(n: Node)
    requires NodeOk(n)
    ensures WellFormed(n.st) && n.head in n.st.blocks && ValidChain(n.st, n.head)
    ensures n.mempool !! ToSet(ChainTxs(n.st, n.head))
  {
  }

  lemma BlockFits(n1: Node, st2: Store, ids: seq<HashT>, b: Block, now: Uint64)
    requires NodeOk(n1) && NodeOk(n1.(st := st2)) && n1.st.env.params.Verified() && GoodBlock(n1, ids, b, now)
    requires st2.env == n1.st.env && st2.blocks == n1.st.blocks && st2.txs == n1.st.txs
    requires b.merkleRoot in st2.merkles && TxIdsUnder(st2, b.merkleRoot) == ids
    ensures StoreBlockOutcome(st2, b, now) == Ok
    ensures NewBlockRecord(st2, b) == Some(BlockRecord(
      b, HeightOf(n1.st, b.prevBlockId) + 1, WorkOf(n1.st, b.prevBlockId) + TargetToWork(b.target)))
  {
    hide WellFormed, ChainOk, CanHold, NodesClear, TreeNodes, AfterMedian, TxIdsUnder, Grounded, LastInPeriodOk;
    RootSize(n1.(st := st2), b.merkleRoot);
    SameBody(n1.st, st2, ids, HeightOf(n1.st, b.prevBlockId) + 1);
    LastingParts(st2, b, ids);
    SameTimes(n1.st, st2, b);
    GuardNeverFires(st2, b);
  }

  lemma {:induction false} SameTotalsIn(st: Store, st': Store, ids: seq<HashT>)
    requires st'.txs == st.txs
    ensures TotalIn(st', ids) == TotalIn(st, ids) && TotalOut(st', ids) == TotalOut(st, ids)
  {
    if ids != [] {
      SameTotalsIn(st, st', ids[..|ids| - 1]);
    }
  }

  lemma SameBody(st: Store, st': Store, ids: seq<HashT>, height: nat)
    requires st'.env == st.env && st'.txs == st.txs
    ensures BodyOk(st', ids, height) == BodyOk(st, ids, height)
  {
    SameTotalsIn(st, st', ids);
  }

  // ---- A block that spends its own output ----

  function Reward(key: Uint64, value: Uint64, height: Uint64): Tx { Tx(true, height, [], [TxOut(value, key)]) }

  /** Spends one output, controlled by the key `from`. */
  function Spend(o: Utxo, from: Byte, outs: seq<TxOut>): Tx { Tx(false, 0, [TxIn(o, [from], [])], outs) }

  function Payment(o: Utxo, from: Byte, value: Uint64, to: Uint64): Tx { Spend(o, from, [TxOut(value, to)]) }

  lemma RewardStorable(st: Store, key: Uint64, value: Uint64, height: Uint64)
    requires st.env == SmallEnv() && 50 <= value
    requires st.env.hashes.tx(Reward(key, value, height)) !in st.txs
    ensures CanStoreTx(st, Reward(key, value, height)) && VSize(Reward(key, value, height)) == COINBASE_VSIZE
    ensures SumIn(Reward(key, value, height).inputs) == 0 && SumOut(Reward(key, value, height).outputs) == value
  {
    CoinbaseSums(Reward(key, value, height), value);
  }

  /** What such a transaction pays out may wrap. */
  lemma SpendStorable(st: Store, o: Utxo, from: Byte, outs: seq<TxOut>)
    requires st.env == SmallEnv() && 0 < |outs| <= 200 && SumOut(outs) % TWO_64 < o.value
    requires HasTxOut(st, o.txId, o.ind) && TxOutAt(st, o.txId, o.ind) == TxOut(o.value, from)
    requires st.env.hashes.tx(Spend(o, from, outs)) !in st.txs
    ensures CanStoreTx(st, Spend(o, from, outs)) && VSize(Spend(o, from, outs)) == 121 + 40 * |outs|
    ensures SumIn(Spend(o, from, outs).inputs) == o.value && ConsumedUtxos(Spend(o, from, outs)) == [o]
  {
    SpendSums(o, from, outs);
    hide SumIn, SumInVSize, SumOut, HasSurplus;
  }

  lemma SpendSums(o: Utxo, from: Byte, outs: seq<TxOut>)
    ensures SumIn(Spend(o, from, outs).inputs) == o.value && SumInVSize(Spend(o, from, outs).inputs) == 49
    ensures HasSurplus(Spend(o, from, outs)) <==> SumOut(outs) % TWO_64 < o.value
  {
    var inputs := Spend(o, from, outs).inputs;
    assert inputs[..0] == [];
    assert SumIn(inputs) == SumIn(inputs[..0]) + o.value && SumInVSize(inputs) == SumInVSize(inputs[..0]) + 49;
  }

  lemma PaymentStorable(st: Store, o: Utxo, from: Byte, value: Uint64, to: Uint64)
    requires st.env == SmallEnv() && value < o.value && HasTxOut(st, o.txId, o.ind)
    requires TxOutAt(st, o.txId, o.ind) == TxOut(o.value, from)
    requires st.env.hashes.tx(Payment(o, from, value, to)) !in st.txs
    ensures CanStoreTx(st, Payment(o, from, value, to)) && VSize(Payment(o, from, value, to)) == 161
    ensures SumIn(Payment(o, from, value, to).inputs) == o.value && SumOut(Payment(o, from, value, to).outputs) == value
    ensures ConsumedUtxos(Payment(o, from, value, to)) == [o]
  {
    var outs := [TxOut(value, to)];
    assert outs[..0] == [] && SumOut(outs) == SumOut(outs[..0]) + value;
    SpendStorable(st, o, from, outs);
  }

  const FIRST_REWARD := Reward(1, 60, 1)
  const FIRST_OUTPUT := Utxo(3, 0, 60)

  /** What a transaction may pay out of the first reward: 50, modulo 2^64. */
  predicate PaysFifty(outs: seq<TxOut>) {
    0 < |outs| <= 200 && outs[0].publicKeyHash == 2 && SumOut(outs) % TWO_64 == 50
  }

  /** The coinbase and a payment from it in one block. */
  function SelfSpending(outs: seq<TxOut>): HeadEvent {
    var h := SmallEnv().hashes;
    OneBlockEvent(h, [FIRST_REWARD, Spend(FIRST_OUTPUT, 1, outs)], [3, 5], BlockOver(h, 0, [3, 5], 1, 1))
  }

  lemma SmallIds(key: Uint64)
    requires key < 1000
    ensures forall v, m :: SmallEnv().hashes.tx(Reward(key, v, m)) == 2 * key + 1
    ensures forall o, f, v :: SmallEnv().hashes.tx(Payment(o, f, v, key)) == 2 * key + 1
    ensures forall o, f, outs: seq<TxOut> :: outs != [] && outs[0].publicKeyHash == key ==>
      SmallEnv().hashes.tx(Spend(o, f, outs)) == 2 * key + 1
  {
  }

  /** The first two transactions and what they do. */
  ghost predicate HasSelfSpend(st: Store, outs: seq<TxOut>) {
    3 in st.txs && 5 in st.txs && TxOf(st, 3) == FIRST_REWARD && TxOf(st, 5) == Spend(FIRST_OUTPUT, 1, outs)
  }

  lemma SelfSpendStored(outs: seq<TxOut>)
    requires PaysFifty(outs)
    ensures var n := NewNode(SmallEnv());
            var (n1, r) := AddTxs(n, [FIRST_REWARD, Spend(FIRST_OUTPUT, 1, outs)]);
      && r == Ok && n1.head == 0 && n1.mempool == {3, 5} && n1.st.env == SmallEnv() && HasSelfSpend(n1.st, outs)
      && n1.st.blocks == n.st.blocks && n1.st.merkles == map[] && n1.st.txs.Keys == {3, 5}
      && CanHold(n1.st, [3, 5]) && BodyOk(n1.st, [3, 5], 1)
  {
    hide CanStoreTx;
    var n := NewNode(SmallEnv());
    SmallIds(1);
    SmallIds(2);
    RewardStorable(n.st, 1, 60, 1);
    var n1 := WithTx(n, FIRST_REWARD);
    SpendStorable(n1.st, FIRST_OUTPUT, 1, outs);
    var n2 := WithTx(n1, Spend(FIRST_OUTPUT, 1, outs));
    assert [FIRST_REWARD, Spend(FIRST_OUTPUT, 1, outs)][1..] == [Spend(FIRST_OUTPUT, 1, outs)];
    OneTx(n1, Spend(FIRST_OUTPUT, 1, outs));
    assert AddTxs(n, [FIRST_REWARD, Spend(FIRST_OUTPUT, 1, outs)]) == (n2, Ok);
    TwoSizes(n2.st, 3, 5);
    TwoTotals(n2.st, 3, 5);
  }

  lemma TwoSizes(st: Store, a: HashT, b: HashT)
    ensures TotalVSize(st, [a, b]) == TotalVSize(st, [a]) + TotalVSize(st, [b])
    ensures TotalVSize(st, [a]) == VSize(TxOf(st, a))
  {
    assert [a, b][1..] == [b] && [a][1..] == [];
  }

  lemma TwoTotals(st: Store, a: HashT, b: HashT)
    ensures TotalIn(st, [a, b]) == SumIn(TxOf(st, a).inputs) + SumIn(TxOf(st, b).inputs)
    ensures TotalOut(st, [a, b]) == SumOut(TxOf(st, a).outputs) + SumOut(TxOf(st, b).outputs)
  {
    assert [a, b][..1] == [a] && [a][..0] == [];
    assert TotalIn(st, [a]) == SumIn(TxOf(st, a).inputs) && TotalOut(st, [a]) == SumOut(TxOf(st, a).outputs);
  }

  lemma TreeOfTwo(h: Hashes, a: HashT, b: HashT)
    ensures TreeNodes(h, [a, b]) == [MerkleNode(a, b)]
  {
    assert PairUp([a, b]) == [MerkleNode(a, b)] + PairUp([a, b][2..]);
    NothingAbove(h, NextLayer(h, [a, b]));
  }

  /** The second transaction spends the first one's output: as inputs go, they can follow one another. */
  lemma SelfSpendFits(st: Store, outs: seq<TxOut>)
    requires HasSelfSpend(st, outs)
    ensures FitsAll(st, [], [3, 5]) && InBlockSpend(st, [3, 5])
    ensures TxOf(st, 3).minBlock <= 1 && TxOf(st, 5).minBlock <= 1
  {
    var o := Utxo(3, 0, 60);
    OutsMembers(st, 3, o);
    assert ConsumedUtxos(TxOf(st, 5)) == [o] && ConsumedUtxos(TxOf(st, 3)) == [];
    assert Ins(st, 5) == {o} && Ins(st, 3) == {};
    assert [3, 5][..1] == [3] && [3][..0] == [];
    var none: seq<HashT> := [];
    assert none + [3] == [3] && none + none == none;
    assert 3 in [3] && o in Created(st, [3]);
    assert Fits(st, [], 3) && Fits(st, [3], 5);
    assert FitsAll(st, [], [3]);
    assert SpendsFrom(st, [3, 5], 0, 1);
  }

  /** What is stored once the block has been delivered. */
  ghost predicate SelfSpent(st: Store, outs: seq<TxOut>) {
    && st.env == SmallEnv() && HasSelfSpend(st, outs)
    && st.txs.Keys == {3, 5} && st.merkles.Keys == {6010} && st.blocks.Keys == {0, 1}
    && Linked(st, 1) && Parent(st, 1) == 0 && HeightOf(st, 1) == 1
    && BlockTxs(st, 1) == [3, 5] && WorkOf(st, 1) == TargetToWork(EASIEST)
  }

  lemma SelfSpendGood(outs: seq<TxOut>)
    requires PaysFifty(outs)
    ensures var n1 := AddTxs(NewNode(SmallEnv()), [FIRST_REWARD, Spend(FIRST_OUTPUT, 1, outs)]).0;
      n1.st.env == SmallEnv() && SmallEnv().params.Verified() && GoodBlock(n1, [3, 5], SelfSpending(outs).blocks[0], 0)
  {
    hide CanHold, BodyOk, AddTxs, TreeNodes;
    SmallEnvOk();
    SelfSpendStored(outs);
    TreeOfTwo(SmallEnv().hashes, 3, 5);
  }

  lemma SelfSpendDelivered(outs: seq<TxOut>)
    requires PaysFifty(outs)
    ensures SmallEnv().params.Verified()
    ensures var (n, r) := AddEntities(NewNode(SmallEnv()), SelfSpending(outs), 0);
      r == Ok && NodeOk(n) && n.head == 0 && n.mempool == {3, 5} && SelfSpent(n.st, outs) && WorkOf(n.st, 0) == 0
  {
    hide CanHold, BodyOk, AddTxs, TreeNodes, GoodBlock, AddEntities, ChainOk, BlockTxs;
    SmallEnvOk();
    NewNodeOk(SmallEnv());
    SelfSpendStored(outs);
    SelfSpendGood(outs);
    TreeOfTwo(SmallEnv().hashes, 3, 5);
    Delivered(
      NewNode(SmallEnv()), [FIRST_REWARD, Spend(FIRST_OUTPUT, 1, outs)], [3, 5], SelfSpending(outs).blocks[0], 0);
    SelfSpentThen(AddTxs(NewNode(SmallEnv()), [FIRST_REWARD, Spend(FIRST_OUTPUT, 1, outs)]).0,
                  AddEntities(NewNode(SmallEnv()), SelfSpending(outs), 0).0, outs);
  }

  lemma SelfSpentThen(n1: Node, n3: Node, outs: seq<TxOut>)
    requires n1.st.env == SmallEnv() && HasSelfSpend(n1.st, outs) && n1.st.txs.Keys == {3, 5}
    requires n1.st.merkles == map[] && n1.st.blocks == NewNode(SmallEnv()).st.blocks
    requires Took(n1, [3, 5], SelfSpending(outs).blocks[0], n3)
    ensures SelfSpent(n3.st, outs) && WorkOf(n3.st, 0) == 0
  {
    hide TreeNodes, BlockTxs;
    TreeOfTwo(SmallEnv().hashes, 3, 5);
    assert IdsOf(SmallEnv().hashes, [MerkleNode(3, 5)]) == [6010];
    assert ToSet<HashT>([6010]) == {6010};
  }

  /** Such a block becomes the head, and cannot be rewound. */
  lemma SelfSpendTaken(outs: seq<TxOut>)
    requires PaysFifty(outs)
    ensures SmallEnv().params.Verified()
    ensures var (n, r) := HandleHead(NewNode(SmallEnv()), SelfSpending(outs), 0);
      r == Ok && NodeOk(n) && n.head == 1 && SelfSpent(n.st, outs) && !CanRewind(n.st, n.head)
  {
    hide AddEntities, ChainOk, BlockTxs, Verdict, SelfSpending, FitsAll, InBlockSpend;
    NewNodeOk(SmallEnv());
    SelfSpendDelivered(outs);
    var n := AddEntities(NewNode(SmallEnv()), SelfSpending(outs), 0).0;
    SelfSpendFits(n.st, outs);
    SelfSpendVerdict(n, outs);
    SelfSpendHead(outs);
    HandleHeadOk(NewNode(SmallEnv()), SelfSpending(outs), 0);
  }

  lemma SelfSpendHead(outs: seq<TxOut>)
    ensures SelfSpending(outs).head == 1 && !SelfSpending(outs).autoAdd
  {
  }

  lemma SelfSpendVerdict(n: Node, outs: seq<TxOut>)
    requires NodeOk(n) && n.head == 0 && HasSelfSpend(n.st, outs) && n.mempool == {3, 5}
    requires 1 in n.st.blocks && Linked(n.st, 1) && Parent(n.st, 1) == 0 && BlockTxs(n.st, 1) == [3, 5]
    requires HeightOf(n.st, 1) == 1 && WorkOf(n.st, 0) < WorkOf(n.st, 1)
    ensures Verdict(n, 1, false) == Ok
  {
    hide WellFormed, FitsAll, BlockTxs, InBlockSpend;
    SelfSpendFits(n.st, outs);
    assert !Linked(n.st, 0);
    var none: seq<HashT> := [];
    assert none + [3, 5] == [3, 5];
    assert ChainTxs(n.st, 0) == [] && ChainTxs(n.st, 1) == [3, 5];
    NotStuck(n.st, 0, 1);
  }

  // ---- Blocks with nothing but a reward ----

  function RewardId(key: Uint64): HashT { 2 * (key % 1000) + 1 }

  function RewardNode(key: Uint64): MerkleNode { MerkleNode(RewardId(key), RewardId(key)) }

  function RewardBlock(prev: HashT, key: Uint64, nonce: Uint64, minedTime: Uint64): Block {
    BlockOver(SmallEnv().hashes, prev, [RewardId(key)], nonce, minedTime)
  }

  function RewardEvent(prev: HashT, key: Uint64, height: Uint64, nonce: Uint64, minedTime: Uint64): HeadEvent {
    OneBlockEvent(
      SmallEnv().hashes, [Reward(key, 50, height)], [RewardId(key)], RewardBlock(prev, key, nonce, minedTime))
  }

  /** The key, the node and the nonce are new, the height is right, and the block rules hold. */
  ghost predicate RewardFits(
    st: Store, prev: HashT, key: Uint64, height: Uint64, nonce: Uint64, minedTime: Uint64, now: Uint64)
  {
    && st.env == SmallEnv() && st.env.params.Verified()
    && key < 1000 && RewardId(key) !in st.txs && SmallEnv().hashes.merkle(RewardNode(key)) !in st.merkles
    && prev in st.blocks && HeightOf(st, prev) + 1 == height && nonce !in st.blocks && 0 < nonce < EASIEST
    && TargetOk(st, prev, EASIEST) && WorkOf(st, prev) + TargetToWork(EASIEST) < TWO_256
    && minedTime <= (now + 3600) % TWO_64 && AfterMedian(st, RewardBlock(prev, key, nonce, minedTime))
  }

  /** What such a block adds. */
  ghost predicate RewardTaken(
    n: Node, prev: HashT, key: Uint64, height: Uint64, nonce: Uint64, minedTime: Uint64, n': Node)
  {
    && n'.st.env == n.st.env && n'.head == n.head && n'.mempool == n.mempool + {RewardId(key)}
    && n'.st.txs == n.st.txs[RewardId(key) := TxRecord(Reward(key, 50, height), COINBASE_VSIZE)]
    && n'.st.merkles.Keys == n.st.merkles.Keys + {SmallEnv().hashes.merkle(RewardNode(key))}
    && Stored(n'.st, RewardNode(key))
    && WorkOf(n.st, prev) + TargetToWork(EASIEST) < TWO_256
    && n'.st.blocks == n.st.blocks[nonce := BlockRecord(
         RewardBlock(prev, key, nonce, minedTime), height, WorkOf(n.st, prev) + TargetToWork(EASIEST))]
    && BlockTxs(n'.st, nonce) == [RewardId(key)]
  }

  lemma RewardStored(n: Node, key: Uint64, height: Uint64)
    requires n.st.env == SmallEnv() && key < 1000 && RewardId(key) !in n.st.txs
    ensures AddTxs(n, [Reward(key, 50, height)]) == (WithTx(n, Reward(key, 50, height)), Ok)
    ensures WithTx(n, Reward(key, 50, height)).st.txs
         == n.st.txs[RewardId(key) := TxRecord(Reward(key, 50, height), COINBASE_VSIZE)]
  {
    hide CanStoreTx;
    SmallIds(key);
    RewardStorable(n.st, key, 50, height);
    OneTx(n, Reward(key, 50, height));
  }

  lemma OneTotal(st: Store, a: HashT)
    ensures TotalVSize(st, [a]) == VSize(TxOf(st, a))
    ensures TotalIn(st, [a]) == SumIn(TxOf(st, a).inputs)
    ensures TotalOut(st, [a]) == SumOut(TxOf(st, a).outputs)
  {
    assert [a][1..] == [] && [a][..0] == [];
  }

  lemma RewardGood(st: Store, key: Uint64, height: Uint64)
    requires st.env == SmallEnv() && RewardId(key) in st.txs && TxOf(st, RewardId(key)) == Reward(key, 50, height)
    ensures CanHold(st, [RewardId(key)]) && BodyOk(st, [RewardId(key)], height)
  {
    OneTotal(st, RewardId(key));
    CoinbaseSums(Reward(key, 50, height), 50);
  }

  lemma RewardGoodBlock(
    n: Node, n1: Node, prev: HashT, key: Uint64, height: Uint64, nonce: Uint64, minedTime: Uint64, now: Uint64)
    requires n.st.env == SmallEnv() && RewardFits(n.st, prev, key, height, nonce, minedTime, now)
    requires n1 == WithTx(n, Reward(key, 50, height))
    requires n1.st.txs == n.st.txs[RewardId(key) := TxRecord(Reward(key, 50, height), COINBASE_VSIZE)]
    ensures GoodBlock(n1, [RewardId(key)], RewardBlock(prev, key, nonce, minedTime), now)
  {
    hide CanHold, BodyOk, TreeNodes, Median;
    RewardGood(n1.st, key, height);
    OnlyNode(SmallEnv().hashes, RewardId(key));
    SameTimes(n.st, n1.st, RewardBlock(prev, key, nonce, minedTime));
  }

  lemma RewardDelivered(
    n: Node, prev: HashT, key: Uint64, height: Uint64, nonce: Uint64, minedTime: Uint64, now: Uint64)
    requires NodeOk(n) && RewardFits(n.st, prev, key, height, nonce, minedTime, now)
    ensures var (n', r) := AddEntities(n, RewardEvent(prev, key, height, nonce, minedTime), now);
      r == Ok && NodeOk(n') && RewardTaken(n, prev, key, height, nonce, minedTime, n')
  {
    hide CanHold, BodyOk, TreeNodes, Median, ChainOk, AddTxs, AddEntities, BlockTxs, GoodBlock;
    var txs, ids := [Reward(key, 50, height)], [RewardId(key)];
    RewardStored(n, key, height);
    var n1 := AddTxs(n, txs).0;
    RewardGoodBlock(n, n1, prev, key, height, nonce, minedTime, now);
    OnlyNode(SmallEnv().hashes, RewardId(key));
    Delivered(n, txs, ids, RewardBlock(prev, key, nonce, minedTime), now);
  }

  // ---- A heavier fork around the block that cannot be rewound ----

  lemma WellFormedZero(st: Store)
    requires WellFormed(st)
    ensures 0 in st.blocks && HeightOf(st, 0) == 0 && WorkOf(st, 0) == 0 && BlockOf(st, 0) == ZERO_BLOCK
  {
    assert BlockRecordOk(st, 0);
  }

  const FIFTY: seq<TxOut> := [TxOut(50, 2)]

  lemma PaidFifty()
    ensures PaysFifty(FIFTY)
  {
    assert FIFTY[..0] == [] && SumOut(FIFTY) == SumOut(FIFTY[..0]) + 50;
  }

  lemma ForkStarts(n: Node)
    requires NodeOk(n) && SelfSpent(n.st, FIFTY)
    ensures RewardFits(n.st, 0, 3, 1, 2, 1, 0)
  {
    hide ChainOk, WellFormed, BlockTxs;
    SmallEnvOk();
    ChainWellFormed(n);
    WellFormedZero(n.st);
  }

  /** The other branch, as heavy as the head: stored and refused. */
  ghost predicate Forked(n: Node) {
    && n.st.env == SmallEnv() && n.head == 1 && HasSelfSpend(n.st, FIFTY) && BlockTxs(n.st, 1) == [3, 5]
    && n.st.txs.Keys == {3, 5, 7} && n.st.merkles.Keys == {6010, 14014} && n.st.blocks.Keys == {0, 1, 2}
    && Linked(n.st, 1) && Parent(n.st, 1) == 0 && Linked(n.st, 2) && Parent(n.st, 2) == 0 && HeightOf(n.st, 2) == 1
    && BlockOf(n.st, 2).minedTime == 1 && BlockOf(n.st, 2).target == EASIEST
    && WorkOf(n.st, 1) == TargetToWork(EASIEST) && WorkOf(n.st, 2) == TargetToWork(EASIEST)
  }

  lemma ForkStored(n: Node, n1: Node)
    requires NodeOk(n) && n.head == 1 && SelfSpent(n.st, FIFTY)
    requires NodeOk(n1) && RewardTaken(n, 0, 3, 1, 2, 1, n1) && BlockTxs(n1.st, 1) == BlockTxs(n.st, 1)
    ensures Forked(n1)
  {
    hide ChainOk, WellFormed, BlockTxs;
    ChainWellFormed(n);
    WellFormedZero(n.st);
    assert SmallEnv().hashes.merkle(RewardNode(3)) == 14014;
  }

  lemma ForkRefused(n: Node)
    requires NodeOk(n) && n.head == 1 && SelfSpent(n.st, FIFTY)
    ensures SmallEnv().params.Verified()
    ensures var (n1, r) := HandleHead(n, RewardEvent(0, 3, 1, 2, 1), 0);
      r == Err && NodeOk(n1) && Forked(n1)
  {
    hide ChainOk, WellFormed, BlockTxs, AddEntities, RewardFits, Stuck, ValidChain;
    SmallEnvOk();
    ForkStarts(n);
    RewardDelivered(n, 0, 3, 1, 2, 1, 0);
    var n1 := AddEntities(n, RewardEvent(0, 3, 1, 2, 1), 0).0;
    AddEntitiesOk(n, RewardEvent(0, 3, 1, 2, 1), 0);
    SameBlocksBelow(n, n1);
    ForkStored(n, n1);
  }

  lemma SameBlocksBelow(n: Node, n1: Node)
    requires NodeOk(n) && NodeOk(n1) && Grown(n, n1) && 1 in n.st.blocks
    ensures BlockTxs(n1.st, 1) == BlockTxs(n.st, 1)
  {
    hide ValidChain, ChainTxs, WellFormed;
    WellFormedSeparate(n1.st);
    BlockTxsStable(n.st, n1.st, 1);
  }

  lemma ForkGoesOn(n: Node)
    requires NodeOk(n) && Forked(n)
    ensures RewardFits(n.st, 2, 4, 2, 3, 2, 0)
  {
    hide ChainOk, WellFormed, BlockTxs, SortTimes;
    SmallEnvOk();
    assert AncestorList(n.st, 2, 4) == [0];
    assert RecentBlocks(n.st, 2) == [2];
    assert TimesOf(n.st, [2]) == [1];
    SortTimesSorts([1]);
    assert SortTimes([1])[0] in multiset(SortTimes([1]));
  }

  /** The heavier branch then crashes the node. */
  lemma ForkPanics(n: Node)
    requires NodeOk(n) && Forked(n)
    ensures SmallEnv().params.Verified()
    ensures HandleHead(n, RewardEvent(2, 4, 2, 3, 2), 0).1 == Panic
  {
    hide ChainOk, WellFormed, BlockTxs, AddEntities, RewardFits, InBlockSpend, ValidChain, FitsAll;
    SmallEnvOk();
    ForkGoesOn(n);
    RewardDelivered(n, 2, 4, 2, 3, 2, 0);
    var n1 := AddEntities(n, RewardEvent(2, 4, 2, 3, 2), 0).0;
    AddEntitiesOk(n, RewardEvent(2, 4, 2, 3, 2), 0);
    SameBlocksBelow(n, n1);
    SelfSpendFits(n1.st, FIFTY);
    assert !Ancestor(n1.st, 1, 0);
    assert Linked(n1.st, 3) && Linked(n1.st, 2);
    assert !Ancestor(n1.st, 1, 3);
    assert Ancestor(n1.st, 1, 1);
  }

  /** From a new node: a block that spends its own output is taken up, cannot be rewound, and a
      heavier branch then crashes the node. */
  lemma InBlockSpendPanics()
    ensures SmallEnv().params.Verified()
    ensures var (n1, r1) := HandleHead(NewNode(SmallEnv()), SelfSpending(FIFTY), 0);
      && n1.st.env == SmallEnv() && r1 == Ok && n1.head == 1 && !CanRewind(n1.st, 1)
      && var (n2, r2) := HandleHead(n1, RewardEvent(0, 3, 1, 2, 1), 0);
         n2.st.env == SmallEnv() && r2 == Err && HandleHead(n2, RewardEvent(2, 4, 2, 3, 2), 0).1 == Panic
  {
    hide HandleHead, RewardEvent, SelfSpending, ChainOk, BlockTxs, CanRewind;
    PaidFifty();
    SelfSpendTaken(FIFTY);
    var n1 := HandleHead(NewNode(SmallEnv()), SelfSpending(FIFTY), 0).0;
    ForkRefused(n1);
    ForkPanics(HandleHead(n1, RewardEvent(0, 3, 1, 2, 1), 0).0);
  }

  // ---- A block that mints money ----

  /** From a new node: a block whose payment pays out 50 and any multiple of 2^64 is taken up, and all of
      that can be spent; the reward is 50. */
  lemma MintingTaken(outs: seq<TxOut>)
    requires PaysFifty(outs)
    ensures SmallEnv().params.Verified() && SmallEnv().params.blockReward == 50
    ensures var (n, r) := HandleHead(NewNode(SmallEnv()), SelfSpending(outs), 0);
      && n.st.env == SmallEnv() && NodeOk(n) && r == Ok && n.head == 1 && HeightOf(n.st, n.head) == 1
      && Total(Unspent(n.st, ChainTxs(n.st, n.head))) == SumOut(outs)
  {
    hide HandleHead, SelfSpending, ChainOk, SumOut, SumIn, FitsAll, InBlockSpend, BlockTxs, Unspent, Total;
    SelfSpendTaken(outs);
    var st := HandleHead(NewNode(SmallEnv()), SelfSpending(outs), 0).0.st;
    SelfSpendFits(st, outs);
    ChainTxsGrow(st, 1);
    assert !Linked(st, 0);
    var none: seq<HashT> := [];
    assert ChainTxs(st, 0) == none && none + [3, 5] == [3, 5];
    SelfSpendTotals(st, outs);
  }

  lemma SelfSpendTotals(st: Store, outs: seq<TxOut>)
    requires HasSelfSpend(st, outs) && FitsAll(st, [], [3, 5])
    ensures Total(Unspent(st, [3, 5])) == SumOut(outs)
  {
    var none: seq<HashT> := [];
    assert FitsAll(st, [], none) && none + [3, 5] == [3, 5];
    assert Unspent(st, none) == {};
    TotalOfAll(st, none, [3, 5]);
    TwoTotals(st, 3, 5);
    TotalNone(Unspent(st, none));
    CoinbaseSums(FIRST_REWARD, 60);
    var inputs := TxOf(st, 5).inputs;
    assert inputs[..0] == [] && SumIn(inputs) == SumIn(inputs[..0]) + 60;
  }

  const TWO_HALVES: seq<TxOut> := [TxOut(TWO_64 / 2, 2), TxOut(TWO_64 / 2 + 50, 2)]

  /** After one block there are 2^64 too many. */
  lemma MoneyMinted()
    ensures SmallEnv().params.Verified() && SmallEnv().params.blockReward == 50
    ensures var (n, r) := HandleHead(NewNode(SmallEnv()), SelfSpending(TWO_HALVES), 0);
      && n.st.env == SmallEnv() && NodeOk(n) && r == Ok && HeightOf(n.st, n.head) == 1
      && Total(Unspent(n.st, ChainTxs(n.st, n.head))) == 50 + TWO_64
  {
    assert TWO_HALVES[..1] == [TxOut(TWO_64 / 2, 2)] && TWO_HALVES[..1][..0] == [];
    assert SumOut(TWO_HALVES[..1]) == TWO_64 / 2;
    assert SumOut(TWO_HALVES) == 50 + TWO_64;
    hide HandleHead, SelfSpending, ChainOk, SumOut, Unspent, Total, ChainTxs;
    MintingTaken(TWO_HALVES);
  }

  // ---- A chain of rewards mined at given times ----

  /** Block `h` of the chain has height and id `h` and was mined at `times[h - 1]`. */
  ghost predicate Line(n: Node, times: seq<Uint64>) {
    && NodeOk(n) && n.st.env == SmallEnv() && n.head == |times| && |times| < 100
    && (forall b: HashT :: b in n.st.blocks <==> b <= |times|)
    && (forall h :: 1 <= h <= |times| ==> InLine(n.st, times, h))
    && WorkOf(n.st, |times|) == |times| * TargetToWork(EASIEST)
    && (forall t :: t in n.st.txs ==> t <= 2 * |times| + 1)
    && (forall m :: m in n.st.merkles ==> m <= 2002 * (2 * |times| + 1))
  }

  predicate InLine(st: Store, times: seq<Uint64>, h: nat)
    requires 1 <= h <= |times| < 100
  {
    && h in st.blocks && HeightOf(st, h) == h && Parent(st, h) == h - 1
    && BlockOf(st, h).minedTime == times[h - 1] && BlockOf(st, h).target == EASIEST
  }

  function LineEvent(times: seq<Uint64>, t: Uint64): HeadEvent
    requires |times| < 100
  {
    RewardEvent(|times|, |times| + 1, |times| + 1, |times| + 1, t)
  }

  /** When a block of this time arrives: as early as the verifier allows. */
  function Clock(t: Uint64): Uint64 { if t < 3600 then 0 else t - 3600 }

  /** The last five times, latest first. */
  function LastFive(times: seq<Uint64>): seq<Uint64> {
    var n := if |times| < 5 then |times| else 5;
    seq(n, i requires 0 <= i < n => times[|times| - 1 - i])
  }

  lemma {:induction false} LineAncestors(st: Store, times: seq<Uint64>, h: nat, maxLen: nat)
    requires h <= |times| < 100 && forall k :: 1 <= k <= |times| ==> InLine(st, times, k)
    ensures var l := AncestorList(st, h, maxLen);
      |l| == (if h < maxLen then h else maxLen) && forall i :: 0 <= i < |l| ==> l[i] == h - 1 - i
    decreases maxLen
  {
    if maxLen > 0 && h > 0 {
      assert InLine(st, times, h);
      LineAncestors(st, times, h - 1, maxLen - 1);
    }
  }

  lemma LineTimes(st: Store, times: seq<Uint64>)
    requires 1 <= |times| < 100 && forall h :: 1 <= h <= |times| ==> InLine(st, times, h)
    ensures TimesOf(st, RecentBlocks(st, |times|)) == LastFive(times)
  {
    LineAncestors(st, times, |times|, 4);
    var ids := RecentBlocks(st, |times|);
    assert |ids| == |LastFive(times)|;
    forall i | 0 <= i < |ids| ensures ids[i] == |times| - i && BlockOf(st, ids[i]).minedTime == LastFive(times)[i] {
      assert InLine(st, times, |times| - i);
    }
  }

  lemma LineGoesOn(n: Node, times: seq<Uint64>, t: Uint64)
    requires Line(n, times) && |times| < 99 && (times != [] ==> Median(LastFive(times)) < t)
    ensures RewardFits(n.st, |times|, |times| + 1, |times| + 1, |times| + 1, t, Clock(t))
  {
    SmallEnvOk();
    SmallTargets();
    hide WellFormed, ValidChain, ChainTxs, Median, RecentBlocks, AncestorList, LastFive, TargetToWork, SmallEnv,
      RewardId, RewardNode, BlockTxs, TreeNodes, Line;
    LineTop(n, times);
    LineWork(|times|);
    LineIds(|times| + 1);
    if times != [] {
      LineTimes(n.st, times);
      assert InLine(n.st, times, |times|);
    }
  }

  lemma LineTop(n: Node, times: seq<Uint64>)
    requires Line(n, times)
    ensures NodeOk(n) && n.st.env == SmallEnv() && |times| < 100
    ensures |times| in n.st.blocks && |times| + 1 !in n.st.blocks
    ensures WorkOf(n.st, |times|) == |times| * TargetToWork(EASIEST) && HeightOf(n.st, |times|) == |times|
    ensures 2 * |times| + 3 !in n.st.txs && 2002 * (2 * |times| + 3) !in n.st.merkles
    ensures times == [] ==> BlockOf(n.st, 0) == ZERO_BLOCK
    ensures forall h :: 1 <= h <= |times| ==> InLine(n.st, times, h)
  {
    hide WellFormed, ValidChain, ChainTxs, TargetToWork, SmallEnv;
    ChainWellFormed(n);
    WellFormedZero(n.st);
    assert times != [] ==> InLine(n.st, times, |times|);
  }

  lemma LineIds(k: nat)
    requires k < 101
    ensures RewardId(k) == 2 * k + 1 && SmallEnv().hashes.merkle(RewardNode(k)) == 2002 * (2 * k + 1)
  {
  }

  lemma LineWork(k: nat)
    requires k < 100
    ensures k * TargetToWork(EASIEST) + TargetToWork(EASIEST) == (k + 1) * TargetToWork(EASIEST) < TWO_256
  {
  }

  lemma NextInLine(n: Node, times: seq<Uint64>, t: Uint64)
    requires Line(n, times) && |times| < 99 && (times != [] ==> Median(LastFive(times)) < t)
    ensures SmallEnv().params.Verified()
    ensures var (n', r) := HandleHead(n, LineEvent(times, t), Clock(t)); r == Ok && Line(n', times + [t])
  {
    hide WellFormed, ValidChain, ChainTxs, Median, LastFive, AddEntities, RewardFits, Line, Stuck, BlockTxs,
      RewardTaken, ChainOk;
    SmallEnvOk();
    LineGoesOn(n, times, t);
    LineHead(n, times, t);
    var k := |times|;
    RewardDelivered(n, k, k + 1, k + 1, k + 1, t, Clock(t));
    var n1 := AddEntities(n, LineEvent(times, t), Clock(t)).0;
    AddEntitiesOk(n, LineEvent(times, t), Clock(t));
    LineVerdict(n, times, n1, t);
    HandleHeadOk(n, LineEvent(times, t), Clock(t));
    LineLonger(n, times, t, n1, HandleHead(n, LineEvent(times, t), Clock(t)).0);
  }

  lemma SmallTargets()
    ensures var p := SmallEnv().params;
      p.Verified() && p.originalTarget == EASIEST && MinNextTarget(EASIEST) <= EASIEST <= MaxNextTarget(p, EASIEST)
  {
  }

  lemma LineHead(n: Node, times: seq<Uint64>, t: Uint64)
    requires Line(n, times)
    ensures n.head == |times| && n.st.env == SmallEnv() && |times| < 100 && NodeOk(n)
    ensures LineEvent(times, t).head == |times| + 1 && !LineEvent(times, t).autoAdd
  {
  }

  lemma LineVerdict(n: Node, times: seq<Uint64>, n1: Node, t: Uint64)
    requires Line(n, times) && NodeOk(n1) && Grown(n, n1) && |times| < 99
    requires RewardFits(n.st, |times|, |times| + 1, |times| + 1, |times| + 1, t, Clock(t))
    requires RewardTaken(n, |times|, |times| + 1, |times| + 1, |times| + 1, t, n1)
    ensures Verdict(n1, |times| + 1, false) == Ok
  {
    hide WellFormed, ChainTxs, Median, BlockTxs, AfterMedian;
    var st, k := n1.st, |times|;
    var c := RewardId(k + 1);
    ChainWellFormed(n1);
    assert Linked(st, k + 1) && Parent(st, k + 1) == k;
    NotStuck(st, k, k + 1);
    WellFormedSeparate(st);
    ChainTxsStored(n.st, k);
    ChainTxsStable(n.st, st, k);
    RewardCanFollow(st, ChainTxs(st, k), c, k + 1);
    ChainTxsGrow(st, k + 1);
  }

  lemma ChainTxsGrow(st: Store, b: HashT)
    requires Linked(st, b)
    ensures ChainTxs(st, b) == ChainTxs(st, Parent(st, b)) + BlockTxs(st, b)
  {
  }

  lemma RewardCanFollow(st: Store, before: seq<HashT>, c: HashT, height: nat)
    requires c !in before && TxOf(st, c).inputs == []
    ensures FitsAll(st, before, [c])
  {
    assert [c][..0] == [] && before + [] == before;
    assert ConsumedUtxos(TxOf(st, c)) == [];
    assert FitsAll(st, before, []) && Fits(st, before, c);
  }

  lemma LineLonger(n: Node, times: seq<Uint64>, t: Uint64, n1: Node, n': Node)
    requires Line(n, times) && |times| < 99
    requires RewardTaken(n, |times|, |times| + 1, |times| + 1, |times| + 1, t, n1)
    requires NodeOk(n') && n'.st == n1.st && n'.head == |times| + 1
    ensures Line(n', times + [t])
  {
    hide WellFormed, ChainOk, BlockTxs, TargetToWork, SmallEnv, RewardId, RewardNode, TreeNodes;
    LineWork(|times|);
    LineIds(|times| + 1);
    var more := times + [t];
    forall h | 1 <= h <= |more| ensures InLine(n'.st, more, h) {
      if h <= |times| {
        assert InLine(n.st, times, h);
      }
    }
  }

  /** Each time is above the median of up to five before it. */
  predicate MedianRule(times: seq<Uint64>) {
    times == [] ||
    var front := times[..|times| - 1];
    MedianRule(front) && (front == [] || Median(LastFive(front)) < times[|times| - 1])
  }

  function LineEvents(times: seq<Uint64>): seq<Event>
    requires |times| < 100
  {
    if times == [] then []
    else
      var front := times[..|times| - 1];
      LineEvents(front) + [CandidateHead(LineEvent(front, times[|times| - 1]), Clock(times[|times| - 1]))]
  }

  lemma {:induction false} RunThenStep(n: Node, events: seq<Event>, e: Event)
    requires n.st.env.params.Verified()
    ensures Run(n, events).st.env == n.st.env
    ensures Run(n, events + [e]) == Step(Run(n, events), e)
    decreases |events|
  {
    hide Step;
    if events == [] {
      assert [] + [e] == [e] && [e][1..] == [];
      StepEnv(n, e);
      assert Run(n, [e]) == Run(Step(n, e), []);
    } else {
      StepEnv(n, events[0]);
      assert (events + [e])[1..] == events[1..] + [e];
      RunThenStep(Step(n, events[0]), events[1..], e);
    }
  }

  /** Every list of times that keeps the median rule can be mined. */
  lemma {:induction false} LineMined(times: seq<Uint64>)
    requires |times| < 100 && MedianRule(times)
    ensures SmallEnv().params.Verified() && Line(Run(NewNode(SmallEnv()), LineEvents(times)), times)
  {
    hide Line, LineEvent, LastFive, Median, HandleHead, SmallEnv;
    SmallEnvOk();
    if times == [] {
      LineStarts();
    } else {
      var front, t := times[..|times| - 1], times[|times| - 1];
      assert times == front + [t];
      LineMined(front);
      RunThenStep(NewNode(SmallEnv()), LineEvents(front), CandidateHead(LineEvent(front, t), Clock(t)));
      NextInLine(Run(NewNode(SmallEnv()), LineEvents(front)), front, t);
    }
  }

  lemma LineStarts()
    ensures Line(NewNode(SmallEnv()), [])
  {
    SmallEnvOk();
    NewNodeOk(SmallEnv());
  }

  const SLOW_PERIOD: seq<Uint64> := [1, 2, 3, 1000, 3, 4, 4]

  lemma Sorted2(a: Uint64, b: Uint64)
    ensures SortTimes([a]) == [a] && SortTimes([a, b]) == if a <= b then [a, b] else [b, a]
  {
    assert [a, b][1..] == [b] && [b][1..] == [] && [a][1..] == [];
  }

  /** One more time to sort. */
  lemma SortMore(t: Uint64, times: seq<Uint64>, sorted: seq<Uint64>, k: nat)
    requires SortTimes(times) == sorted && k <= |sorted|
    requires (forall i :: 0 <= i < k ==> sorted[i] < t) && (k < |sorted| ==> t <= sorted[k])
    ensures SortTimes([t] + times) == sorted[..k] + [t] + sorted[k..]
  {
    assert ([t] + times)[1..] == times;
    Inserted(t, sorted, k);
  }

  lemma {:induction false} Inserted(t: Uint64, s: seq<Uint64>, k: nat)
    requires k <= |s| && (forall i :: 0 <= i < k ==> s[i] < t) && (k < |s| ==> t <= s[k])
    ensures InsertTime(t, s) == s[..k] + [t] + s[k..]
  {
    if k > 0 {
      Inserted(t, s[1..], k - 1);
      assert s[..k] == [s[0]] + s[1..][..k - 1];
    }
  }

  lemma SlowPeriodSorted()
    ensures SortTimes([1]) == [1] && SortTimes([2, 1]) == [1, 2] && SortTimes([3, 2, 1]) == [1, 2, 3]
    ensures SortTimes([1000, 3, 2, 1]) == [1, 2, 3, 1000] && SortTimes([3, 1000, 3, 2, 1]) == [1, 2, 3, 3, 1000]
    ensures SortTimes([4, 3, 1000, 3, 2]) == [2, 3, 3, 4, 1000]
  {
    hide SortTimes;
    Sorted2(1, 1);
    Sorted2(2, 1);
    SortMore(3, [2, 1], [1, 2], 2);
    assert [3] + [2, 1] == [3, 2, 1] && [1, 2][..2] + [3] + [1, 2][2..] == [1, 2, 3];
    SortMore(1000, [3, 2, 1], [1, 2, 3], 3);
    assert [1000] + [3, 2, 1] == [1000, 3, 2, 1] && [1, 2, 3][..3] + [1000] + [1, 2, 3][3..] == [1, 2, 3, 1000];
    SortMore(3, [1000, 3, 2, 1], [1, 2, 3, 1000], 2);
    assert [3] + [1000, 3, 2, 1] == [3, 1000, 3, 2, 1];
    Sorted2(3, 2);
    SortMore(1000, [3, 2], [2, 3], 2);
    assert [1000] + [3, 2] == [1000, 3, 2] && [2, 3][..2] + [1000] + [2, 3][2..] == [2, 3, 1000];
    SortMore(3, [1000, 3, 2], [2, 3, 1000], 1);
    assert [3] + [1000, 3, 2] == [3, 1000, 3, 2] && [2, 3, 1000][..1] + [3] + [2, 3, 1000][1..] == [2, 3, 3, 1000];
    SortMore(4, [3, 1000, 3, 2], [2, 3, 3, 1000], 3);
    assert [4] + [3, 1000, 3, 2] == [4, 3, 1000, 3, 2];
  }

  lemma SlowPeriodMedians()
    ensures Median([1]) == 1 && Median([2, 1]) == 1 && Median([3, 2, 1]) == 2
    ensures Median([1000, 3, 2, 1]) == 2 && Median([3, 1000, 3, 2, 1]) == 3 && Median([4, 3, 1000, 3, 2]) == 3
  {
    SlowPeriodSorted();
    hide SortTimes;
  }

  lemma RuleStep(times: seq<Uint64>, recent: seq<Uint64>, t: Uint64)
    requires MedianRule(times) && times != [] && LastFive(times) == recent && Median(recent) < t
    ensures MedianRule(times + [t])
  {
    hide Median, LastFive;
    assert (times + [t])[..|times|] == times;
  }

  lemma SlowPeriodRule()
    ensures MedianRule(SLOW_PERIOD)
  {
    SlowPeriodMedians();
    hide Median, MedianRule;
    FirstTime(1);
    RuleStep([1], [1], 2);
    assert [1] + [2] == [1, 2];
    RuleStep([1, 2], [2, 1], 3);
    assert [1, 2] + [3] == [1, 2, 3];
    RuleStep([1, 2, 3], [3, 2, 1], 1000);
    assert [1, 2, 3] + [1000] == [1, 2, 3, 1000];
    RuleStep([1, 2, 3, 1000], [1000, 3, 2, 1], 3);
    assert [1, 2, 3, 1000] + [3] == [1, 2, 3, 1000, 3];
    RuleStep([1, 2, 3, 1000, 3], [3, 1000, 3, 2, 1], 4);
    assert [1, 2, 3, 1000, 3] + [4] == [1, 2, 3, 1000, 3, 4];
    RuleStep([1, 2, 3, 1000, 3, 4], [4, 3, 1000, 3, 2], 4);
    assert [1, 2, 3, 1000, 3, 4] + [4] == SLOW_PERIOD;
  }

  lemma FirstTime(t: Uint64)
    ensures MedianRule([t])
  {
    assert [t][..0] == [] && MedianRule([]);
  }

  /** A run of accepted blocks after which the node panics when it is to say what to mine next: the
      second period ends before it began. */
  lemma TargetPanics()
    ensures SmallEnv().params.Verified()
    ensures var n := Run(NewNode(SmallEnv()), LineEvents(SLOW_PERIOD));
      n.st.env == SmallEnv() && NodeOk(n) && n.head == 7 && HeightOf(n.st, 7) == 7 && NextTarget(n.st, n.head) == None
  {
    SmallEnvOk();
    SlowPeriodRule();
    LineMined(SLOW_PERIOD);
    hide MedianRule, LineEvents, SmallEnv, NextTarget, Tree;
    var n := Run(NewNode(SmallEnv()), LineEvents(SLOW_PERIOD));
    LinePanics(n);
  }

  lemma LinePanics(n: Node)
    requires Line(n, SLOW_PERIOD)
    ensures n.st.env == SmallEnv() && n.st.env.params.Verified() && NodeOk(n) && n.head == 7
    ensures HeightOf(n.st, 7) == 7 && NextTarget(n.st, 7) == None
  {
    hide ChainOk, TargetToWork;
    SmallEnvOk();
    assert InLine(n.st, SLOW_PERIOD, 7) && InLine(n.st, SLOW_PERIOD, 6);
    assert InLine(n.st, SLOW_PERIOD, 5) && InLine(n.st, SLOW_PERIOD, 4);
    assert AncestorAt(n.st, 7, 3) == AncestorAt(n.st, 6, 2) == AncestorAt(n.st, 5, 1) == AncestorAt(n.st, 4, 0) == 4;
  }

  /** Times for which the median of two wraps to zero. */
  const LATE_PERIOD: seq<Uint64> := [TWO_64 / 2, TWO_64 / 2 + 1, 1]

  lemma LatePeriodRule()
    ensures MedianRule(LATE_PERIOD)
  {
    var late: Uint64, later: Uint64 := TWO_64 / 2, TWO_64 / 2 + 1;
    Sorted2(later, late);
    assert Median([late]) == late && Median([later, late]) == 0;
    hide Median, MedianRule;
    FirstTime(late);
    RuleStep([late], [late], later);
    assert [late] + [later] == [late, later];
    RuleStep([late, later], [later, late], 1);
    assert [late, later] + [1] == LATE_PERIOD;
  }

  /** Beyond 2^63 the panic reaches the first period too. */
  lemma LateTargetPanics()
    ensures SmallEnv().params.Verified()
    ensures var n := Run(NewNode(SmallEnv()), LineEvents(LATE_PERIOD));
      n.st.env == SmallEnv() && NodeOk(n) && n.head == 3 && HeightOf(n.st, 3) == 3 && NextTarget(n.st, n.head) == None
  {
    SmallEnvOk();
    LatePeriodRule();
    LineMined(LATE_PERIOD);
    hide MedianRule, LineEvents, SmallEnv, NextTarget, Tree;
    LatePanics(Run(NewNode(SmallEnv()), LineEvents(LATE_PERIOD)));
  }

  lemma LatePanics(n: Node)
    requires Line(n, LATE_PERIOD)
    ensures n.st.env == SmallEnv() && n.st.env.params.Verified() && NodeOk(n) && n.head == 3
    ensures HeightOf(n.st, 3) == 3 && NextTarget(n.st, 3) == None
  {
    hide ChainOk, TargetToWork;
    SmallEnvOk();
    assert InLine(n.st, LATE_PERIOD, 3) && InLine(n.st, LATE_PERIOD, 2) && InLine(n.st, LATE_PERIOD, 1);
    assert AncestorAt(n.st, 3, 2) == AncestorAt(n.st, 2, 1) == AncestorAt(n.st, 1, 0) == 1;
  }
}
