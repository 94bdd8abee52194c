/** An honest sync whose transactions arrive out of order: a payment two levels down in the newest
    block spends a coinbase one level down in the block before it. */
module SyncScenario {
  import opened Core
  import opened Forest
  import opened Target
  import opened Rules
  import opened Ledger
  import opened Agreement
  import opened N = Node
  import Network
  import opened Merkle
  import opened Mining
  import opened Sync
  import opened Ordering
  import opened Delivery
  import opened Arrival
  import opened Scenarios

  const THIRD_REWARD := Reward(3, 70, 3)
  const PAYMENT := Payment(Utxo(3, 0, 50), 1, 40, 5)
  const OTHER_PAYMENT := Payment(Utxo(5, 0, 50), 2, 40, 6)

  function ThirdEvent(): HeadEvent {
    OneBlockEvent(SmallEnv().hashes, [THIRD_REWARD, PAYMENT, OTHER_PAYMENT], [7, 11, 13],
      BlockOver(SmallEnv().hashes, 2, [7, 11, 13], 3, 3))
  }

  // ---- Two blocks with a reward each ----

  /** What is stored after so many of the first two blocks. */
  ghost predicate RewardsStored(st: Store, k: nat)
    requires k <= 2
  {
    && st.env == SmallEnv() && 0 in st.blocks && WorkOf(st, 0) == 0 && HeightOf(st, 0) == 0
    && (forall b: HashT :: b in st.blocks <==> b <= k)
    && (forall t :: t in st.txs <==> (k >= 1 && t == 3) || (k == 2 && t == 5))
    && (forall m :: m in st.merkles <==> (k >= 1 && m == 6006) || (k == 2 && m == 10010))
    && (k >= 1 ==> RewardAt(st, 1))
    && (k == 2 ==> RewardAt(st, 2))
  }

  ghost predicate RewardAt(st: Store, h: nat)
    requires 1 <= h <= 2
  {
    && h in st.blocks && Linked(st, h) && Parent(st, h) == h - 1 && HeightOf(st, h) == h
    && BlockOf(st, h).target == EASIEST && BlockOf(st, h).minedTime == h
    && BlockOf(st, h).merkleRoot == 2002 * (2 * h + 1)
    && WorkOf(st, h) == h * TargetToWork(EASIEST)
    && 2 * h + 1 in st.txs && TxOf(st, 2 * h + 1) == Reward(h, 50, h)
    && Stored(st, MerkleNode(2 * h + 1, 2 * h + 1))
  }

  lemma RewardAtStays(st: Store, st': Store, h: nat)
    requires 1 <= h <= 2 && Extends(st, st') && RewardAt(st, h)
    ensures RewardAt(st', h)
  {
  }

  lemma NextRewardFits(st: Store, k: nat)
    requires k <= 1 && WellFormed(st) && RewardsStored(st, k)
    ensures RewardFits(st, k, k + 1, k + 1, k + 1, k + 1, 0)
  {
    SmallEnvOk();
    SmallTargets();
    LineIds(k + 1);
    LineWork(k);
    hide WellFormed, TargetToWork, SmallEnv, RewardId, RewardNode, TreeNodes, Median, Stored;
    if k == 1 {
      FirstTimes(st);
    }
  }

  lemma FirstTimes(st: Store)
    requires 0 in st.blocks && RewardAt(st, 1)
    ensures Median(TimesOf(st, RecentBlocks(st, 1))) == 1
  {
    assert AncestorList(st, 1, 4) == [0];
    assert RecentBlocks(st, 1) == [1];
    assert TimesOf(st, [1]) == [1];
    SlowPeriodMedians();
  }

  lemma NextRewardStored(n: Node, n': Node, k: nat)
    requires k <= 1 && RewardsStored(n.st, k) && Extends(n.st, n'.st)
    requires RewardTaken(n, k, k + 1, k + 1, k + 1, k + 1, n')
    ensures RewardsStored(n'.st, k + 1)
  {
    LineIds(k + 1);
    LineWork(k);
    OnlyNode(SmallEnv().hashes, 2 * k + 3);
    hide TargetToWork, SmallEnv, RewardId, RewardNode, TreeNodes;
    if k == 1 {
      RewardAtStays(n.st, n'.st, 1);
    }
  }

  const REWARDS: seq<HashT> := [3, 5]

  /** A node that has taken up so many of the first two blocks. */
  ghost predicate AtReward(n: Node, k: nat)
    requires k <= 2
  {
    && NodeOk(n) && n.head == k && n.mempool == {} && RewardsStored(n.st, k) && ChainTxs(n.st, k) == REWARDS[..k]
  }

  function RewardNext(k: nat): HeadEvent
    requires k <= 1
  {
    RewardEvent(k, k + 1, k + 1, k + 1, k + 1)
  }

  lemma NextRewardTaken(n: Node, k: nat)
    requires k <= 1 && AtReward(n, k)
    ensures SmallEnv().params.Verified()
    ensures var (n', r) := HandleHead(n, RewardNext(k), 0); r == Ok && AtReward(n', k + 1)
  {
    hide WellFormed, ValidChain, ChainTxs, AddEntities, RewardFits, RewardTaken, BlockTxs, ChainOk, Stuck,
      RewardsStored;
    SmallEnvOk();
    ChainWellFormed(n);
    assert n.st.env == SmallEnv() by { StoredEnv(n.st, k); }
    NextRewardFits(n.st, k);
    RewardDelivered(n, k, k + 1, k + 1, k + 1, k + 1, 0);
    var n1 := AddEntities(n, RewardNext(k), 0).0;
    AddEntitiesOk(n, RewardNext(k), 0);
    NextRewardStored(n, n1, k);
    RewardHead(k);
    NextRewardVerdict(n, n1, k);
    HandleHeadOk(n, RewardNext(k), 0);
  }

  lemma RewardHead(k: nat)
    requires k <= 1
    ensures RewardNext(k).head == k + 1 && !RewardNext(k).autoAdd
  {
  }

  lemma StoredEnv(st: Store, k: nat)
    requires k <= 2 && RewardsStored(st, k)
    ensures st.env == SmallEnv()
  {
  }

  /** What a block adds to the chain, when all it has is a fresh coinbase. */
  lemma RewardOnTop(st: Store, st': Store, k: nat, before: seq<HashT>, c: HashT)
    requires k <= 1 && WellFormed(st) && WellFormed(st') && Extends(st, st')
    requires k in st.blocks && ChainTxs(st, k) == before
    requires ValidChain(st, k) && RewardBlockAt(st', k, c) && c !in st.txs && TxOf(st', c).inputs == []
    ensures ChainTxs(st', k + 1) == before + [c] && ValidChain(st', k + 1)
  {
    hide WellFormed, ChainTxs, BlockTxs;
    WellFormedSeparate(st');
    ChainTxsStable(st, st', k);
    ValidChainStable(st, st', k);
    ChainTxsStored(st, k);
    ChainTxsGrow(st', k + 1);
    RewardCanFollow(st', before, c, k + 1);
  }

  ghost predicate RewardBlockAt(st: Store, k: nat, c: HashT)
    requires k <= 1
  {
    && Linked(st, k + 1) && Parent(st, k + 1) == k && HeightOf(st, k + 1) == k + 1
    && BlockTxs(st, k + 1) == [c] && TxOf(st, c).minBlock <= k + 1
  }

  lemma VerdictOnTop(n: Node, b: HashT, before: seq<HashT>, more: seq<HashT>)
    requires Linked(n.st, b) && Parent(n.st, b) == n.head && WorkOf(n.st, n.head) < WorkOf(n.st, b)
    requires ValidChain(n.st, b) && n.mempool == ToSet(more)
    requires ChainTxs(n.st, n.head) == before && ChainTxs(n.st, b) == before + more
    ensures Verdict(n, b, false) == Ok && MoveTo(n, b).mempool == {}
  {
    hide ValidChain, ChainTxs;
    NotStuck(n.st, n.head, b);
    assert ToSet(before + more) == ToSet(before) + ToSet(more);
  }

  lemma WorkGrows(st: Store, k: nat)
    requires k <= 1 && RewardsStored(st, k + 1)
    ensures WorkOf(st, k) < WorkOf(st, k + 1) && Linked(st, k + 1) && Parent(st, k + 1) == k
    ensures HeightOf(st, k + 1) == k + 1 && 2 * k + 3 in st.txs && TxOf(st, 2 * k + 3) == Reward(k + 1, 50, k + 1)
  {
    LineWork(k);
    assert TargetToWork(EASIEST) > 0;
    hide TargetToWork, Stored;
    assert RewardAt(st, k + 1);
    assert k == 1 ==> RewardAt(st, k);
  }

  lemma BeforeReward(n: Node, k: nat)
    requires k <= 1 && AtReward(n, k)
    ensures NodeOk(n) && n.head == k && n.mempool == {} && k in n.st.blocks
    ensures ChainTxs(n.st, k) == REWARDS[..k] && 2 * k + 3 !in n.st.txs
  {
    hide ChainOk, ChainTxs, Stored, TargetToWork;
  }

  lemma AfterReward(n: Node, n1: Node, k: nat)
    requires k <= 1 && n.head == k && n.mempool == {}
    requires RewardTaken(n, k, k + 1, k + 1, k + 1, k + 1, n1)
    ensures var c: HashT := 2 * k + 3; n1.head == k && BlockTxs(n1.st, k + 1) == [c] && n1.mempool == ToSet([c])
  {
    LineIds(k + 1);
    hide BlockTxs, Stored, TargetToWork, SmallEnv, RewardId, RewardNode, TreeNodes;
    var c: HashT := 2 * k + 3;
    assert ToSet([c]) == {c};
  }

  lemma AboutReward(st: Store, k: nat, c: HashT)
    requires k <= 1 && Linked(st, k + 1) && Parent(st, k + 1) == k && HeightOf(st, k + 1) == k + 1
    requires BlockTxs(st, k + 1) == [c] && TxOf(st, c) == Reward(k + 1, 50, k + 1)
    ensures RewardBlockAt(st, k, c) && TxOf(st, c).inputs == []
  {
  }

  lemma GrownExtends(n: Node, n': Node)
    requires Grown(n, n')
    ensures Extends(n.st, n'.st)
  {
  }

  lemma NextRewardVerdict(n: Node, n1: Node, k: nat)
    requires k <= 1 && AtReward(n, k) && NodeOk(n1) && Grown(n, n1)
    requires RewardTaken(n, k, k + 1, k + 1, k + 1, k + 1, n1) && RewardsStored(n1.st, k + 1)
    ensures Verdict(n1, k + 1, false) == Ok
    ensures ChainTxs(n1.st, k + 1) == REWARDS[..k + 1] && MoveTo(n1, k + 1).mempool == {}
  {
    hide *;
    WorkGrows(n1.st, k);
    BeforeReward(n, k);
    AfterReward(n, n1, k);
    GrownExtends(n, n1);
    RewardLists(k);
    var st, c: HashT := n1.st, 2 * k + 3;
    ChainWellFormed(n);
    ChainWellFormed(n1);
    assert RewardBlockAt(st, k, c) && TxOf(st, c).inputs == [] by {
      AboutReward(st, k, c);
    }
    RewardOnTop(n.st, st, k, REWARDS[..k], c);
    WellFormedSeparate(st);
    ChainTxsStable(n.st, st, k);
    VerdictOnTop(n1, k + 1, REWARDS[..k], [c]);
  }

  lemma RewardLists(k: nat)
    requires k <= 1
    ensures |REWARDS| == 2 && REWARDS[..k + 1] == REWARDS[..k] + [2 * k + 3]
    ensures ToSet(REWARDS[..k + 1]) == ToSet(REWARDS[..k]) + {2 * k + 3}
  {
    assert REWARDS[..k + 1] == REWARDS[..k] + [2 * k + 3];
  }

  lemma NothingYet()
    ensures SmallEnv().params.Verified() && AtReward(NewNode(SmallEnv()), 0)
  {
    SmallEnvOk();
    NewNodeOk(SmallEnv());
    assert !Linked(NewNode(SmallEnv()).st, 0);
  }

  // ---- The block with the payments ----

  ghost predicate PaymentsStored(st: Store) {
    && st.env == SmallEnv() && 7 in st.txs && 11 in st.txs && 13 in st.txs
    && 3 in st.txs && 5 in st.txs && TxOf(st, 3) == Reward(1, 50, 1) && TxOf(st, 5) == Reward(2, 50, 2)
    && TxOf(st, 7) == THIRD_REWARD && TxOf(st, 11) == PAYMENT && TxOf(st, 13) == OTHER_PAYMENT
  }

  lemma PaymentsAdded(n: Node)
    requires AtReward(n, 2)
    ensures var (n1, r) := AddTxs(n, [THIRD_REWARD, PAYMENT, OTHER_PAYMENT]);
      && r == Ok && PaymentsStored(n1.st) && n1.head == 2 && n1.mempool == {7, 11, 13}
      && n1.st.blocks == n.st.blocks && n1.st.merkles == n.st.merkles
      && n1.st.txs.Keys == {3, 5, 7, 11, 13}
  {
    hide CanStoreTx, ChainOk, ChainTxs, Stored;
    SmallIds(3);
    SmallIds(5);
    SmallIds(6);
    assert RewardAt(n.st, 1) && RewardAt(n.st, 2);
    RewardStorable(n.st, 3, 70, 3);
    var n1 := WithTx(n, THIRD_REWARD);
    PaymentStorable(n1.st, Utxo(3, 0, 50), 1, 40, 5);
    var n2 := WithTx(n1, PAYMENT);
    PaymentStorable(n2.st, Utxo(5, 0, 50), 2, 40, 6);
    var n3 := WithTx(n2, OTHER_PAYMENT);
    assert [THIRD_REWARD, PAYMENT, OTHER_PAYMENT][1..] == [PAYMENT, OTHER_PAYMENT];
    assert [PAYMENT, OTHER_PAYMENT][1..] == [OTHER_PAYMENT];
    OneTx(n2, OTHER_PAYMENT);
    assert AddTxs(n1, [PAYMENT, OTHER_PAYMENT]) == (n3, Ok);
    assert AddTxs(n, [THIRD_REWARD, PAYMENT, OTHER_PAYMENT]) == (n3, Ok);
  }

  const PAID_NODES: seq<MerkleNode> := [MerkleNode(7, 11), MerkleNode(13, 13), MerkleNode(14022, 26026)]

  lemma PaidTree()
    ensures TreeNodes(SmallEnv().hashes, [7, 11, 13]) == PAID_NODES
    ensures IdsOf(SmallEnv().hashes, PAID_NODES) == [14022, 26026, 28096052]
  {
    var h := SmallEnv().hashes;
    var leaves: seq<HashT>, inner: seq<HashT>, top: seq<HashT> := [7, 11, 13], [14022, 26026], [28096052];
    assert leaves[2..] == [13] && inner[2..] == [];
    assert PairUp(leaves) == [MerkleNode(7, 11)] + PairUp([13]) == [MerkleNode(7, 11), MerkleNode(13, 13)];
    assert PairUp(inner) == [MerkleNode(14022, 26026)] + PairUp([]) == [MerkleNode(14022, 26026)];
    assert NextLayer(h, leaves) == inner && NextLayer(h, inner) == top;
    NothingAbove(h, top);
    assert NodesAbove(h, top) == [];
    assert NodesAbove(h, inner) == PairUp(inner) + [];
  }

  lemma PaidClear(st: Store)
    requires st.env == SmallEnv() && st.merkles.Keys == {6006, 10010}
    ensures NodesClear(st, ToSet(PAID_NODES))
  {
    hide TreeNodes;
    var h := SmallEnv().hashes;
    assert h.merkle(MerkleNode(7, 11)) == 14022 && h.merkle(MerkleNode(13, 13)) == 26026;
    assert h.merkle(MerkleNode(14022, 26026)) == 28096052;
  }

  lemma ThreeTotals(st: Store, a: HashT, b: HashT, c: HashT)
    ensures TotalVSize(st, [a, b, c]) == VSize(TxOf(st, a)) + VSize(TxOf(st, b)) + VSize(TxOf(st, c))
    ensures TotalIn(st, [a, b, c])
         == SumIn(TxOf(st, a).inputs) + SumIn(TxOf(st, b).inputs) + SumIn(TxOf(st, c).inputs)
    ensures TotalOut(st, [a, b, c])
         == SumOut(TxOf(st, a).outputs) + SumOut(TxOf(st, b).outputs) + SumOut(TxOf(st, c).outputs)
  {
    assert [a, b, c][..2] == [a, b] && [a, b, c][1..] == [b, c];
    TwoTotals(st, a, b);
    TwoSizes(st, b, c);
    assert [b, c][1..] == [c] && [c][1..] == [];
  }

  lemma PaymentSums(o: Utxo, from: Byte, value: Uint64, to: Uint64)
    ensures var tx := Payment(o, from, value, to);
      SumIn(tx.inputs) == o.value && SumOut(tx.outputs) == value && VSize(tx) == 161
  {
    var tx := Payment(o, from, value, to);
    assert tx.inputs[..0] == [] && tx.outputs[..0] == [];
    assert SumIn(tx.inputs) == SumIn(tx.inputs[..0]) + o.value;
    assert SumOut(tx.outputs) == SumOut(tx.outputs[..0]) + value;
    assert SumInVSize(tx.inputs) == SumInVSize(tx.inputs[..0]) + 49;
  }

  lemma PaidBody(st: Store)
    requires PaymentsStored(st)
    ensures CanHold(st, [7, 11, 13]) && BodyOk(st, [7, 11, 13], 3)
  {
    ThreeTotals(st, 7, 11, 13);
    CoinbaseSums(THIRD_REWARD, 70);
    PaymentSums(Utxo(3, 0, 50), 1, 40, 5);
    PaymentSums(Utxo(5, 0, 50), 2, 40, 6);
    hide SumIn, SumOut, VSize, TotalIn, TotalOut, TotalVSize;
  }

  lemma SecondTimes(st: Store)
    requires 0 in st.blocks && RewardAt(st, 1) && RewardAt(st, 2)
    ensures Median(TimesOf(st, RecentBlocks(st, 2))) == 1
  {
    hide Stored, TargetToWork;
    assert AncestorList(st, 1, 3) == [0];
    assert AncestorList(st, 2, 4) == [1, 0];
    assert RecentBlocks(st, 2) == [2, 1];
    assert TimesOf(st, [2, 1]) == [2, 1];
    SlowPeriodMedians();
  }

  /** All that the third block builds on. */
  ghost predicate PaidReady(st: Store) {
    && PaymentsStored(st) && 0 in st.blocks && (forall b: HashT :: b in st.blocks <==> b <= 2)
    && st.merkles.Keys == {6006, 10010} && RewardAt(st, 1) && RewardAt(st, 2)
  }

  lemma ReadyAfter(n: Node, n1: Node)
    requires AtReward(n, 2) && PaymentsStored(n1.st) && n1.st.blocks == n.st.blocks && n1.st.merkles == n.st.merkles
    ensures PaidReady(n1.st)
  {
    hide ChainOk, ChainTxs, TargetToWork, SmallEnv;
    assert RewardAt(n.st, 1) && RewardAt(n.st, 2);
    assert n1.st.merkles.Keys == {6006, 10010};
  }

  lemma PaidFits(st: Store, b: Block)
    requires PaidReady(st) && b.prevBlockId == 2 && b.target == EASIEST && b.minedTime == 3 && b.nonce == 3
    ensures st.env.params.Verified() && 3 !in st.blocks && HeightOf(st, 2) == 2
    ensures TargetOk(st, 2, EASIEST) && AfterMedian(st, b) && NotFromFuture(b, 0)
    ensures WorkOf(st, 2) + TargetToWork(EASIEST) < TWO_256
  {
    SmallEnvOk();
    SmallTargets();
    LineWork(2);
    hide Median, RecentBlocks, TargetToWork, Stored;
    SecondTimes(st);
  }

  lemma PaidGood(n1: Node)
    requires PaidReady(n1.st)
    ensures n1.st.env.params.Verified() && GoodBlock(n1, [7, 11, 13], ThirdEvent().blocks[0], 0)
  {
    PaidTree();
    PaidBody(n1.st);
    PaidClear(n1.st);
    PaidFits(n1.st, ThirdEvent().blocks[0]);
    assert SmallEnv().hashes.BlockId(ThirdEvent().blocks[0]) == 3;
    hide BodyOk, CanHold, TreeNodes, NodesClear, AfterMedian, TargetToWork, Stored, TargetOk, SmallEnv;
  }

  // ---- The sender ----

  /** What the sender's inventory has. */
  ghost predicate SenderHas(st: Store) {
    && PaymentsStored(st) && (forall b: HashT :: b in st.blocks <==> b <= 3)
    && RewardAt(st, 1) && RewardAt(st, 2)
    && Linked(st, 3) && Parent(st, 3) == 2 && BlockOf(st, 3).merkleRoot == 28096052 && BlockTxs(st, 3) == [7, 11, 13]
    && WorkOf(st, 0) < WorkOf(st, 3)
    && !HasEntity(st, 0) && (forall node :: node in PAID_NODES ==> Stored(st, node))
    && st.txs.Keys == {3, 5, 7, 11, 13}
  }

  const THIRD_BLOCK := Block(2, 28096052, EASIEST, 0, 3, 3)

  lemma ThirdEventIs()
    ensures ThirdEvent().blocks == [THIRD_BLOCK] && ThirdEvent().head == 3 && !ThirdEvent().autoAdd
    ensures SmallEnv().hashes.BlockId(THIRD_BLOCK) == 3 && TargetToWork(EASIEST) > 0
  {
    PaidTree();
  }

  lemma PaidBlockStored(n1: Node, n3: Node)
    requires PaidReady(n1.st) && WorkOf(n1.st, 0) == 0 && Took(n1, [7, 11, 13], THIRD_BLOCK, n3)
    ensures (forall b: HashT :: b in n3.st.blocks <==> b <= 3)
    ensures Linked(n3.st, 3) && Parent(n3.st, 3) == 2 && BlockOf(n3.st, 3).merkleRoot == 28096052
    ensures BlockTxs(n3.st, 3) == [7, 11, 13] && WorkOf(n3.st, 0) == 0 && 0 < WorkOf(n3.st, 3)
    ensures WorkOf(n3.st, 2) < WorkOf(n3.st, 3) && HeightOf(n3.st, 3) == 3
  {
    ThirdEventIs();
    hide TreeNodes, BlockTxs, Stored, TargetToWork, SmallEnv, IdsOf;
  }

  lemma PaidNodesStored(n1: Node, n3: Node)
    requires PaidReady(n1.st) && n1.st.txs.Keys == {3, 5, 7, 11, 13} && Took(n1, [7, 11, 13], THIRD_BLOCK, n3)
    ensures !HasEntity(n3.st, 0) && forall node :: node in PAID_NODES ==> Stored(n3.st, node)
  {
    PaidTree();
    hide TreeNodes, BlockTxs, Stored, TargetToWork, SmallEnv, RewardAt, IdsOf;
    assert ToSet<HashT>([14022, 26026, 28096052]) == {14022, 26026, 28096052};
  }

  lemma PaidTook(n1: Node, n3: Node)
    requires PaidReady(n1.st) && n1.st.txs.Keys == {3, 5, 7, 11, 13} && WorkOf(n1.st, 0) == 0
    requires Took(n1, [7, 11, 13], THIRD_BLOCK, n3) && Extends(n1.st, n3.st)
    ensures SenderHas(n3.st) && WorkOf(n3.st, 2) < WorkOf(n3.st, 3) && HeightOf(n3.st, 3) == 3
  {
    hide TreeNodes, BlockTxs, Stored, TargetToWork, SmallEnv, RewardAt;
    PaidBlockStored(n1, n3);
    PaidNodesStored(n1, n3);
    RewardAtStays(n1.st, n3.st, 1);
    RewardAtStays(n1.st, n3.st, 2);
  }

  lemma SmallerEnv(n: Node)
    requires AtReward(n, 2)
    ensures n.st.env == SmallEnv() && SmallEnv().params.Verified() && NodeOk(n) && WorkOf(n.st, 0) == 0
    ensures n.head == 2 && n.mempool == {}
  {
    SmallEnvOk();
  }

  lemma PaidDelivered(n: Node)
    requires AtReward(n, 2)
    ensures SmallEnv().params.Verified() && n.st.env == SmallEnv() && NodeOk(n)
    ensures var n1 := AddTxs(n, [THIRD_REWARD, PAYMENT, OTHER_PAYMENT]).0;
            var (n3, r) := AddEntities(n, ThirdEvent(), 0);
      && r == Ok && NodeOk(n3) && Grown(n, n3)
      && PaidReady(n1.st) && n1.st.txs.Keys == {3, 5, 7, 11, 13} && WorkOf(n1.st, 0) == 0
      && n1.head == 2 && n1.mempool == {7, 11, 13} && Took(n1, [7, 11, 13], THIRD_BLOCK, n3)
  {
    hide GoodBlock, AddTxs, AddEntities, ChainOk, TreeNodes, BlockTxs, AtReward, PaidReady, Stored, RewardAt,
      PaymentsStored, SmallEnv, Took, Extends;
    SmallerEnv(n);
    ThirdEventIs();
    var txs := [THIRD_REWARD, PAYMENT, OTHER_PAYMENT];
    PaymentsAdded(n);
    var n1 := AddTxs(n, txs).0;
    ReadyAfter(n, n1);
    PaidGood(n1);
    ReadyEnv(n1.st);
    Delivered(n, txs, [7, 11, 13], THIRD_BLOCK, 0);
    AddEntitiesOk(n, ThirdEvent(), 0);
  }

  lemma ReadyEnv(st: Store)
    requires PaidReady(st)
    ensures st.env == SmallEnv()
  {
  }

  /** Taken up in full, the third block's transactions follow the chain. */
  lemma PaidVerdict(n: Node)
    requires NodeOk(n) && n.head == 2 && n.mempool == {7, 11, 13} && SenderHas(n.st) && ChainTxs(n.st, 2) == [3, 5]
    requires WorkOf(n.st, 2) < WorkOf(n.st, 3) && HeightOf(n.st, 3) == 3
    ensures Verdict(n, 3, false) == Ok
  {
    hide WellFormed, BlockTxs, Stored, RewardAt, FitsAll;
    PaidFollow(n.st);
    ChainTxsGrow(n.st, 3);
    NotStuck(n.st, 2, 3);
    assert ToSet<HashT>([7, 11, 13]) == {7, 11, 13};
    assert ToSet<HashT>([3, 5] + [7, 11, 13]) == {3, 5, 7, 11, 13};
  }

  lemma PaidFollow(st: Store)
    requires PaymentsStored(st)
    ensures FitsAll(st, [3, 5], [7, 11, 13])
  {
    var before: seq<HashT> := [3, 5];
    var o, o' := Utxo(3, 0, 50), Utxo(5, 0, 50);
    OutsMembers(st, 3, o);
    OutsMembers(st, 5, o');
    assert ConsumedUtxos(TxOf(st, 11)) == [o] && ConsumedUtxos(TxOf(st, 13)) == [o'];
    assert ConsumedUtxos(TxOf(st, 3)) == [] && ConsumedUtxos(TxOf(st, 5)) == [] && ConsumedUtxos(TxOf(st, 7)) == [];
    assert Ins(st, 11) == {o} && Ins(st, 13) == {o'} && Ins(st, 7) == {} && Ins(st, 3) == {} && Ins(st, 5) == {};
    hide Outs, ConsumedUtxos, Ins;
    RewardCanFollow(st, before, 7, 3);
    assert 3 in before && 5 in before;
    assert before + [7] == [3, 5, 7] && before + [7, 11] == [3, 5, 7, 11];
    assert o in Created(st, [3, 5, 7]) && o !in Spent(st, [3, 5, 7]);
    assert o' in Created(st, [3, 5, 7, 11]) && o' !in Spent(st, [3, 5, 7, 11]);
    assert [7, 11][..1] == [7] && [7, 11, 13][..2] == [7, 11];
    assert NoDup([o]) && NoDup([o']);
    assert Fits(st, [3, 5, 7], 11) && Fits(st, [3, 5, 7, 11], 13);
    assert FitsAll(st, before, [7, 11]);
  }

  lemma ExtendsFrom(a: Store, b: Store, c: Store)
    requires Extends(a, c) && b.env == a.env && b.blocks == a.blocks && b.merkles == a.merkles && c.txs == b.txs
    ensures Extends(b, c)
  {
  }

  lemma SecondChain(n: Node)
    requires AtReward(n, 2)
    ensures ChainTxs(n.st, 2) == [3, 5] && 2 in n.st.blocks && WellFormed(n.st)
  {
    hide Stored, TargetToWork, WellFormed, ChainTxs, RewardsStored, SmallEnv, RewardAt;
    ChainWellFormed(n);
    assert REWARDS[..2] == [3, 5];
  }

  lemma SenderAfter(n: Node)
    requires AtReward(n, 2)
    ensures SmallEnv().params.Verified() && n.st.env == SmallEnv()
    ensures var (n3, r) := AddEntities(n, ThirdEvent(), 0);
      && r == Ok && NodeOk(n3) && n3.head == 2 && n3.mempool == {7, 11, 13} && SenderHas(n3.st)
      && ChainTxs(n3.st, 2) == [3, 5] && WorkOf(n3.st, 2) < WorkOf(n3.st, 3) && HeightOf(n3.st, 3) == 3
  {
    hide *;
    PaidDelivered(n);
    PaymentsAdded(n);
    SecondChain(n);
    var n1 := AddTxs(n, [THIRD_REWARD, PAYMENT, OTHER_PAYMENT]).0;
    var n3 := AddEntities(n, ThirdEvent(), 0).0;
    GrownExtends(n, n3);
    TookParts(n1, n3);
    ReadyEnv(n1.st);
    ExtendsFrom(n.st, n1.st, n3.st);
    PaidTook(n1, n3);
    ChainWellFormed(n3);
    WellFormedSeparate(n3.st);
    ChainTxsStable(n.st, n3.st, 2);
  }

  lemma TookParts(n1: Node, n3: Node)
    requires Took(n1, [7, 11, 13], THIRD_BLOCK, n3)
    ensures n3.st.env == n1.st.env && n3.head == n1.head && n3.mempool == n1.mempool && n3.st.txs == n1.st.txs
  {
  }

  /** The third block is taken up like the first two. */
  lemma PaidTaken(n: Node)
    requires AtReward(n, 2)
    ensures SmallEnv().params.Verified() && n.st.env == SmallEnv() && NodeOk(n)
    ensures var (n', r) := HandleHead(n, ThirdEvent(), 0); r == Ok && NodeOk(n') && n'.head == 3 && SenderHas(n'.st)
  {
    hide AddEntities, ChainOk, SenderHas, Verdict, AtReward, ThirdEvent, SmallEnv, ChainTxs;
    SmallerEnv(n);
    ThirdEventIs();
    SenderAfter(n);
    PaidVerdict(AddEntities(n, ThirdEvent(), 0).0);
    HandleHeadOk(n, ThirdEvent(), 0);
  }

  function SenderEvents(): seq<Event> {
    [CandidateHead(RewardNext(0), 0), CandidateHead(RewardNext(1), 0), CandidateHead(ThirdEvent(), 0)]
  }

  /** A node after the three blocks. */
  lemma SenderMade()
    ensures SmallEnv().params.Verified()
    ensures var n := Run(NewNode(SmallEnv()), SenderEvents()); NodeOk(n) && n.head == 3 && SenderHas(n.st)
  {
    hide HandleHead, AtReward, SenderHas, ChainOk, SmallEnv, RewardNext, ThirdEvent;
    NothingYet();
    var n0 := NewNode(SmallEnv());
    NextRewardTaken(n0, 0);
    var n1 := HandleHead(n0, RewardNext(0), 0).0;
    SmallerOne(n1, 1);
    NextRewardTaken(n1, 1);
    var n2 := HandleHead(n1, RewardNext(1), 0).0;
    PaidTaken(n2);
    ThreeSteps(n0, CandidateHead(RewardNext(0), 0), CandidateHead(RewardNext(1), 0), CandidateHead(ThirdEvent(), 0));
  }

  lemma SmallerOne(n: Node, k: nat)
    requires k <= 2 && AtReward(n, k)
    ensures n.st.env == SmallEnv()
  {
  }

  lemma ThreeSteps(n: Node, a: Event, b: Event, c: Event)
    requires n.st.env.params.Verified()
    ensures Step(n, a).st.env == n.st.env && Step(Step(n, a), b).st.env == n.st.env
    ensures Run(n, [a, b, c]) == Step(Step(Step(n, a), b), c)
  {
    hide Step;
    StepEnv(n, a);
    StepEnv(Step(n, a), b);
    StepEnv(Step(Step(n, a), b), c);
    assert [a, b, c][1..] == [b, c] && [b, c][1..] == [c] && [c][1..] == [];
    assert Run(n, [a, b, c]) == Run(Step(n, a), [b, c]);
    assert Run(Step(n, a), [b, c]) == Run(Step(Step(n, a), b), [c]);
    assert Run(Step(Step(n, a), b), [c]) == Run(Step(Step(Step(n, a), b), c), []);
  }

  // ---- The sync ----

  lemma SyncMissing(st: Store)
    requires SenderHas(st)
    ensures Missing(st, EmptyStore(SmallEnv()), 3) == [3, 2, 1] && FirstKnown(st, EmptyStore(SmallEnv()), 3) == 0
  {
    hide Stored, TargetToWork, BlockTxs;
    var r := EmptyStore(SmallEnv());
    assert Missing(st, r, 0) == [] && FirstKnown(st, r, 0) == 0;
    assert Missing(st, r, 1) == [1] + Missing(st, r, 0);
    assert Missing(st, r, 2) == [2] + Missing(st, r, 1);
    assert Missing(st, r, 3) == [3] + Missing(st, r, 2);
    assert FirstKnown(st, r, 3) == FirstKnown(st, r, 2) == FirstKnown(st, r, 1) == FirstKnown(st, r, 0);
  }

  /** The payment is two levels down in the newest block, what it spends one level down in the oldest. */
  lemma SyncLevels(st: Store)
    requires SenderHas(st) && Separate(st)
    ensures 11 in Level(st, [28096052], 2)
    ensures Level(st, [6006], 2) == [] && Level(st, [6006], 0) == [6006] && Level(st, [6006], 1) == [3]
  {
    hide TargetToWork, BlockTxs, SmallEnv;
    NodesByHash(st);
    OneExpands(st, 6006, MerkleNode(3, 3));
    OneExpands(st, 28096052, MerkleNode(14022, 26026));
    OneExpands(st, 14022, MerkleNode(7, 11));
    LevelTwo(st);
  }

  lemma NodesByHash(st: Store)
    requires SenderHas(st)
    ensures 6006 in st.merkles && st.merkles[6006].merkle == MerkleNode(3, 3)
    ensures 28096052 in st.merkles && st.merkles[28096052].merkle == MerkleNode(14022, 26026)
    ensures 14022 in st.merkles && st.merkles[14022].merkle == MerkleNode(7, 11)
  {
    PaidTree();
    hide TargetToWork, BlockTxs;
    assert RewardAt(st, 1);
    assert Stored(st, MerkleNode(3, 3)) && SmallEnv().hashes.merkle(MerkleNode(3, 3)) == 6006;
    assert PAID_NODES[0] in PAID_NODES && PAID_NODES[2] in PAID_NODES;
  }

  lemma OneExpands(st: Store, id: HashT, node: MerkleNode)
    requires Separate(st) && id in st.merkles && st.merkles[id].merkle == node
    ensures Expand(st, [id]) == Children(node)
  {
    assert [id][1..] == [];
  }

  lemma LevelTwo(st: Store)
    requires 3 in st.txs && Expand(st, [6006]) == Children(MerkleNode(3, 3))
    requires Expand(st, [28096052]) == Children(MerkleNode(14022, 26026))
    requires Expand(st, [14022]) == Children(MerkleNode(7, 11))
    ensures 11 in Level(st, [28096052], 2)
    ensures Level(st, [6006], 2) == [] && Level(st, [6006], 0) == [6006] && Level(st, [6006], 1) == [3]
  {
    assert [3][1..] == [];
    assert Expand(st, [3]) == [];
    assert [14022, 26026] == [14022] + [26026];
    ExpandConcat(st, [14022], [26026]);
    assert Level(st, [28096052], 1) == Level(st, [14022, 26026], 0) == [14022, 26026];
    NextLevel(st, [28096052], 1);
    NextLevel(st, [6006], 0);
    NextLevel(st, [6006], 1);
  }

  /** The sender after the three blocks, the receiver new. */
  ghost predicate SyncPair(s: Me, r: Me) {
    && s.head == 3 && SenderHas(s.st) && r == Me(EmptyStore(SmallEnv()), 0)
    && WellFormed(s.st) && ValidChain(s.st, 3)
  }

  lemma PairFacts(s: Me, r: Me)
    requires SyncPair(s, r)
    ensures s.st.env == r.st.env == SmallEnv() && s.head in s.st.blocks && r.head in r.st.blocks
    ensures !HasEntity(s.st, 0) && !HasEntity(r.st, 0)
    ensures WorkOf(r.st, r.head) < WorkOf(s.st, s.head) && s.head !in r.st.blocks
    ensures r.st.txs == map[] && r.st.merkles == map[] && r.st.blocks.Keys == {0}
  {
    hide TargetToWork, BlockTxs, SmallEnv, Stored, WellFormed, ValidChain, RewardAt;
  }

  lemma PairHonest(s: Me, r: Me)
    requires SyncPair(s, r)
    ensures Honest(s, r) && Needed(s, r) && NeededIds(s, r) == [3, 2, 1]
    ensures NodeOk(NewNode(SmallEnv())) && Complete(NewNode(SmallEnv())) && SmallEnv().params.Verified()
    ensures NeededRoot(s, r, 0) == 28096052 && NeededRoot(s, r, 2) == 6006
  {
    SmallEnvOk();
    NewNodeOk(SmallEnv());
    PairFacts(s, r);
    hide SmallEnv, WellFormed, ValidChain, Missing, FirstKnown, HasEntity, WorkOf, NoCollision, ChainOk, Complete;
    ChainWellFormed(NewNode(SmallEnv()));
    EmptyAgrees(s.st, r.st);
    PairRoots(s.st);
  }

  lemma PairRoots(st: Store)
    requires SenderHas(st)
    ensures Missing(st, EmptyStore(SmallEnv()), 3) == [3, 2, 1]
    ensures BlockOf(st, 3).merkleRoot == 28096052 && BlockOf(st, 1).merkleRoot == 6006
  {
    hide TargetToWork, BlockTxs, SmallEnv, Stored, Missing, FirstKnown;
    SyncMissing(st);
    assert RewardAt(st, 1);
  }

  lemma EmptyAgrees(st: Store, r: Store)
    requires r.txs == map[] && r.merkles == map[] && r.blocks.Keys == {0}
    ensures NoCollision(st, r)
  {
    assert StoredTxs(r) == {} && StoredNodes(r) == {} && StoredBlocks(r) == {};
  }

  lemma NotInOrder(s: Me, r: Me)
    requires SyncPair(s, r)
    ensures !OrderFine(s, r)
  {
    hide TargetToWork, BlockTxs, SmallEnv, Stored, WellFormed, ValidChain, Level, Missing, Honest, Needed, RewardAt,
      NeededRoot;
    PairHonest(s, r);
    WellFormedSeparate(s.st);
    SyncLevels(s.st);
    NothingReceived(r.st);
    assert 11 in NewAt(s, r, 0, 2);
    assert TxOf(s.st, 11).inputs[0].utxo.txId == 3;
    if OrderFine(s, r) {
      assert OriginsFine(s, r, 0, 2, 11);
      assert ComesAfter(s, r, 0, 2, 3);
      var k', d' :| 0 < k' < |NeededIds(s, r)| && 2 <= d' && 3 in NewAt(s, r, k', d');
      LateOrigin(s, r, k', d');
    }
  }

  lemma NothingReceived(r: Store)
    requires r == EmptyStore(SmallEnv())
    ensures r.txs == map[]
  {
  }

  /** The coinbase that the payment spends is in the oldest block, and there at the first level only. */
  lemma LateOrigin(s: Me, r: Me, k: nat, d: nat)
    requires SyncPair(s, r) && k < |NeededIds(s, r)| && d >= 2
    ensures 3 !in NewAt(s, r, k, d)
  {
    hide TargetToWork, BlockTxs, SmallEnv, Stored, WellFormed, ValidChain, Missing, Honest, Needed, RewardAt, Level,
      NeededRoot, Sits;
    PairHonest(s, r);
    if 3 in NewAt(s, r, k, d) {
      var p := PlaceOfNew(s, r, k, d, 3);
      var q := FirstPlace(s, r);
      OnePlace(s, r, 3, p, q);
    }
  }

  lemma FirstPlace(s: Me, r: Me) returns (p: Place)
    requires SyncPair(s, r)
    ensures 3 in s.st.txs && p.level == 1 && Sits(s.st, BlocksOf(s.st, NeededIds(s, r)), 3, p)
  {
    hide TargetToWork, BlockTxs, SmallEnv, Stored, WellFormed, ValidChain, Missing, Honest, Needed, RewardAt, Level;
    PairHonest(s, r);
    WellFormedSeparate(s.st);
    SyncLevels(s.st);
    p := Place(1, 2, 0);
  }

  /** The sync ends well for both peers in every interleaving, and the receiver's chain refuses what
      came of it. */
  lemma SyncRefused()
    ensures SmallEnv().params.Verified()
    ensures var n := Run(NewNode(SmallEnv()), SenderEvents());
            var s, r := Me(n.st, n.head), Me(EmptyStore(SmallEnv()), 0);
      && Honest(s, r) && Needed(s, r) && ValidChain(s.st, s.head)
      && Network.EndsAt(Peers(s, r), START, Done(Sent(NeededIds(s, r)), Received(SyncEvent(s, r))))
      && var (n', o) := HandleHead(NewNode(SmallEnv()), SyncEvent(s, r), 0); o != Ok && n'.head == 0
  {
    hide HandleHead, SenderHas, SmallEnv, OrderFine, SenderEvents, ChainOk, Run, SyncEvent;
    SenderMade();
    var n := Run(NewNode(SmallEnv()), SenderEvents());
    ChainWellFormed(n);
    var s, r := Me(n.st, n.head), Me(EmptyStore(SmallEnv()), 0);
    PairHonest(s, r);
    NotInOrder(s, r);
    SyncArrives(s, r, NewNode(SmallEnv()), 0);
  }
}
