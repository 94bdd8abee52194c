/** A transaction that names an output twice: stored, offered to the miner, and never mined, so that no
    block over an offer with it is ever taken up. */
module Starving {
  import opened Core
  import opened Forest
  import opened Target
  import opened Rules
  import opened Ledger
  import opened ChainState
  import opened N = Node
  import opened Merkle
  import opened Mining
  import opened Solving
  import opened Scenarios
  import opened SyncScenario

  predicate NamesTwice(tx: Tx) { !NoDup(ConsumedUtxos(tx)) }

  function Doubled(tx: Tx): Tx { tx.(inputs := tx.inputs + tx.inputs) }

  /** Whoever may spend an unspent output can send a transaction that names it twice: it is stored and
      pending, and may be offered to the miner at once. */
  lemma DoubledIsOffered(n: N.Node, tx: Tx)
    requires NodeOk(n) && TxOk(n.st, tx) && |tx.inputs| == 1 && tx.minBlock <= HeightOf(n.st, n.head) + 1
    requires tx.inputs[0].utxo in Unspent(n.st, ChainTxs(n.st, n.head))
    requires VSize(Doubled(tx)) <= n.st.env.params.maxTxVSize && HasSurplus(Doubled(tx))
    requires n.st.env.hashes.tx(Doubled(tx)) !in n.st.txs
    ensures NamesTwice(Doubled(tx))
    ensures var (n', r) := HandleTx(n, Doubled(tx));
      && r == Ok && NodeOk(n') && Grown(n, n') && TxOf(n'.st, n.st.env.hashes.tx(Doubled(tx))) == Doubled(tx)
      && n'.mempool == n.mempool + {n.st.env.hashes.tx(Doubled(tx))}
      && Offerable(n', n.st.env.hashes.tx(Doubled(tx)))
  {
    hide HasSurplus, VSize, TxOk, WellFormed, ChainOk, Unspent, ChainTxs, Extends;
    var id, n' := n.st.env.hashes.tx(Doubled(tx)), WithTx(n, Doubled(tx));
    DoubledStored(n, tx);
    assert Ins(n'.st, id) == {tx.inputs[0].utxo} by {
      var us := ConsumedUtxos(Doubled(tx));
      assert us[0] == tx.inputs[0].utxo && us[1] == tx.inputs[0].utxo && |us| == 2;
    }
    SameUnspent(n, n');
  }

  lemma DoubledStored(n: N.Node, tx: Tx)
    requires NodeOk(n) && TxOk(n.st, tx) && |tx.inputs| == 1
    requires VSize(Doubled(tx)) <= n.st.env.params.maxTxVSize && HasSurplus(Doubled(tx))
    requires n.st.env.hashes.tx(Doubled(tx)) !in n.st.txs
    ensures NamesTwice(Doubled(tx))
    ensures HandleTx(n, Doubled(tx)) == (WithTx(n, Doubled(tx)), Ok)
    ensures NodeOk(WithTx(n, Doubled(tx))) && Grown(n, WithTx(n, Doubled(tx)))
  {
    hide HasSurplus, VSize, ChainOk, Extends;
    RepeatedInputPasses(n.st, tx);
    hide TxOk;
    OneTx(n, Doubled(tx));
    AddTxOk(n, Doubled(tx));
  }

  lemma SameUnspent(n: N.Node, n': N.Node)
    requires NodeOk(n) && NodeOk(n') && Grown(n, n')
    ensures Unspent(n'.st, ChainTxs(n'.st, n'.head)) == Unspent(n.st, ChainTxs(n.st, n.head))
    ensures HeightOf(n'.st, n'.head) == HeightOf(n.st, n.head)
  {
    hide WellFormed, ValidChain, Unspent, ChainTxs;
    WellFormedSeparate(n'.st);
    ChainTxsStable(n.st, n'.st, n.head);
    ChainTxsStored(n.st, n.head);
    UtxosStable(n.st, n'.st, ChainTxs(n.st, n.head));
  }

  /** Whatever happens, it stays pending, and may be offered whenever its outputs are unspent. */
  lemma PendsForever(n: N.Node, events: seq<Event>, t: HashT)
    requires NodeOk(n) && Complete(n) && t in n.st.txs && NamesTwice(TxOf(n.st, t)) && n.st.env.params.Verified()
    ensures var n' := Run(n, events);
      && t in n'.mempool && t !in ChainTxs(n'.st, n'.head)
      && (Offerable(n', t) <==>
            && HasSurplus(TxOf(n.st, t)) && TxOf(n.st, t).minBlock <= HeightOf(n'.st, n'.head) + 1
            && Ins(n.st, t) <= Unspent(n'.st, ChainTxs(n'.st, n'.head)))
  {
    hide ChainOk, WellFormed, ChainTxs, Run, HasSurplus, Unspent, InputsOwned;
    RunOk(n, events);
    var n' := Run(n, events);
    var ids := ChainTxs(n'.st, n'.head);
    assert TxOf(n'.st, t) == TxOf(n.st, t);
    if t in ids {
      NamesOnce(n'.st, ids, t);
    }
    assert t in n'.mempool + ToSet(ids);
  }

  lemma NamesOnce(st: Store, ids: seq<HashT>, t: HashT)
    requires NoDoubleSpend(st, ids) && t in ids
    ensures !NamesTwice(TxOf(st, t))
  {
    var k :| 0 <= k < |ids| && ids[k] == t;
    assert NoDup(ConsumedUtxos(TxOf(st, ids[k])));
  }

  /** Over an offer with such a pick no solution is taken up, however lucky, and whatever arrived
      since. */
  lemma SolutionRefused(
    n: N.Node, before: N.Node, ids: seq<HashT>, t: HashT, payout: HashT, b: Block, merkles: seq<MerkleNode>,
    now: Uint64)
    requires NodeOk(n) && NodeOk(before) && Grown(n, before) && Offered(n, ids) && n.st.env.params.Verified()
    requires n.st.env.params.originalTarget <= n.st.env.params.maxTarget && before.st.env == n.st.env
    requires IsTemplate(n, ids, payout, b, merkles)
    requires Buildable(before, ids, payout) && Lucky(before.st, b, now)
    requires t in ids && NamesTwice(TxOf(n.st, t))
    ensures HandleHead(before, Solution(n.st.env.hashes, b, merkles, Coinbase(n.st, n.head, ids, payout)), now).1 != Ok
  {
    hide *;
    TemplateTakenUp(n, before, ids, payout, b, merkles, now);
    OfferStays(n, before, ids);
    NotMineable(n.st, before.st, ids, t);
  }

  lemma NotMineable(st: Store, st': Store, ids: seq<HashT>, t: HashT)
    requires t in ids && NamesTwice(TxOf(st, t))
    requires forall i :: 0 <= i < |ids| ==> TxOf(st', ids[i]) == TxOf(st, ids[i])
    ensures !Mineable(st', ids)
  {
    hide CoinbaseFine, CountFits;
    var i :| 0 <= i < |ids| && ids[i] == t;
    assert !NoDup(ConsumedUtxos(TxOf(st', ids[i])));
  }

  // ---- Such a node ----

  const ONCE := Payment(Utxo(3, 0, 50), 1, 40, 2)

  /** The block over the one transaction on offer, its reward going to the key 3. */
  const STARVED := Block(1, 14010, EASIEST, 0, 2, 2)

  /** A node with one block, and a transaction pending that spends its reward twice. */
  ghost predicate Pending(n: N.Node) {
    && NodeOk(n) && n.head == 1 && n.mempool == {5} && RewardAt(n.st, 1) && n.st.env == SmallEnv()
    && n.st.txs.Keys == {3, 5} && n.st.merkles.Keys == {6006} && n.st.blocks.Keys == {0, 1}
    && TxOf(n.st, 5) == Doubled(ONCE) && Offerable(n, 5)
  }

  lemma OnceOk(n: N.Node)
    requires AtReward(n, 1)
    ensures NodeOk(n) && n.head == 1 && n.mempool == {} && RewardAt(n.st, 1) && n.st.env == SmallEnv()
    ensures n.st.txs.Keys == {3} && n.st.merkles.Keys == {6006} && n.st.blocks.Keys == {0, 1}
    ensures TxOk(n.st, ONCE) && SmallEnv().hashes.tx(Doubled(ONCE)) == 5
    ensures ONCE.inputs[0].utxo in Unspent(n.st, ChainTxs(n.st, n.head))
    ensures VSize(Doubled(ONCE)) == 210 && HasSurplus(Doubled(ONCE))
  {
    hide ChainOk, ChainTxs, TargetToWork, Stored;
    assert RewardAt(n.st, 1);
    PaymentStorable(n.st, Utxo(3, 0, 50), 1, 40, 2);
    DoubledSums();
    FirstUnspent(n.st);
    assert REWARDS[..1] == [3];
  }

  lemma DoubledSums()
    ensures SumIn(Doubled(ONCE).inputs) == 100 && SumInVSize(Doubled(ONCE).inputs) == 98
    ensures SumOut(Doubled(ONCE).outputs) == 40
  {
    var txi, outs := ONCE.inputs[0], ONCE.outputs;
    assert Doubled(ONCE).inputs == [txi, txi] && [txi, txi][..1] == [txi] && [txi][..0] == [] && outs[..0] == [];
    assert SumIn([txi]) == 50 && SumInVSize([txi]) == 49;
  }

  lemma FirstUnspent(st: Store)
    requires TxOf(st, 3) == Reward(1, 50, 1)
    ensures Utxo(3, 0, 50) in Unspent(st, [3])
  {
    OutsMembers(st, 3, Utxo(3, 0, 50));
    assert ConsumedUtxos(TxOf(st, 3)) == [] && Ins(st, 3) == {};
    assert 3 in [3];
    assert forall t :: t in [3] ==> t == 3;
  }

  lemma DoubledPends(n: N.Node)
    requires AtReward(n, 1)
    ensures HandleTx(n, Doubled(ONCE)).1 == Ok && Pending(HandleTx(n, Doubled(ONCE)).0)
  {
    OnceOk(n);
    hide AtReward, ChainOk, TxOk, VSize, HasSurplus, Unspent, ChainTxs, RewardAt, Offerable, SmallEnv, HandleTx,
      Extends;
    DoubledIsOffered(n, ONCE);
    DoubledStored(n, ONCE);
    RewardAtStays(n.st, WithTx(n, Doubled(ONCE)).st, 1);
  }

  /** There is but one offer. */
  lemma OfferPicksIt(n: N.Node, candidates: seq<HashT>)
    requires Pending(n) && SmallEnv().params.Verified()
    requires BestFirst(n.st, n.head, n.mempool, Unspent(n.st, ChainTxs(n.st, n.head)), candidates)
    ensures OfferAt(n.st, n.head, candidates) == Some(MiningTarget(1, EASIEST, [5]))
  {
    hide ChainOk, Unspent, ChainTxs, Stored, TargetToWork;
    DoubledSums();
    assert 5 in Candidates(n.st, n.head, n.mempool, Unspent(n.st, ChainTxs(n.st, n.head)));
    assert ToSet(candidates) == {5};
    OnlyOne(candidates, 5);
    assert Pack(n.st, [5], 0).ids + [5] == [5];
  }

  lemma OnlyOne(ids: seq<HashT>, t: HashT)
    requires NoDup(ids) && ToSet(ids) == {t}
    ensures ids == [t]
  {
    assert t in ToSet(ids);
    assert |ids| >= 2 ==> ids[0] != ids[1];
    assert forall i :: 0 <= i < |ids| ==> ids[i] in ToSet(ids);
  }

  lemma StarvedIsLucky(n: N.Node)
    requires Pending(n)
    ensures n.st.env.params.Verified()
    ensures Buildable(n, [5], 3) && Lucky(n.st, STARVED, 0)
    ensures TreeNodes(n.st.env.hashes, AllIds(n, [5], 3)) == [MerkleNode(7, 5)]
    ensures IsTemplate(n, [5], 3, STARVED, [MerkleNode(7, 5)])
  {
    SmallEnvOk();
    hide ChainOk, ChainTxs, Unspent, TargetToWork, Offerable, Median, TreeNodes, Coinbase, Lucky;
    StarvedCoinbase(n);
    TreeOfTwo(SmallEnv().hashes, 7, 5);
    assert AllIds(n, [5], 3) == [7, 5];
    StarvedLuck(n);
  }

  lemma StarvedLuck(n: N.Node)
    requires Pending(n)
    ensures Lucky(n.st, STARVED, 0)
  {
    hide ChainOk, ChainTxs, Unspent, TargetToWork, Offerable, Median, Stored;
    FirstTimes(n.st);
    LineWork(1);
  }

  lemma StarvedCoinbase(n: N.Node)
    requires Pending(n)
    ensures Coinbase(n.st, n.head, [5], 3) == Reward(3, 110, 2)
    ensures SmallEnv().hashes.tx(Coinbase(n.st, n.head, [5], 3)) == 7
  {
    hide ChainOk, ChainTxs, Unspent, TargetToWork, Offerable, Stored;
    DoubledSums();
    assert [5][..0] == [];
    assert Fees(n.st, [5][..0]) == 0;
    assert TxOf(n.st, [5][0]) == Doubled(ONCE);
  }

  /** From a new node, one block and one transaction later: every offer is that transaction alone, and a
      lucky solution over it is refused. */
  lemma MinerStarves()
    ensures SmallEnv().params.Verified()
    ensures var n := HandleTx(HandleHead(NewNode(SmallEnv()), RewardNext(0), 0).0, Doubled(ONCE)).0;
      && n.st.env == SmallEnv() && NodeOk(n) && n.head == 1
      && (forall candidates :: BestFirst(n.st, n.head, n.mempool, Unspent(n.st, ChainTxs(n.st, n.head)), candidates) ==>
            OfferAt(n.st, n.head, candidates) == Some(MiningTarget(1, EASIEST, [5])))
      && Buildable(n, [5], 3) && IsTemplate(n, [5], 3, STARVED, [MerkleNode(7, 5)]) && Lucky(n.st, STARVED, 0)
      && HandleHead(n, Solution(n.st.env.hashes, STARVED, [MerkleNode(7, 5)], Coinbase(n.st, 1, [5], 3)), 0).1 != Ok
  {
    hide HandleHead, HandleTx, AtReward, ChainOk, BestFirst, OfferAt, Coinbase, Buildable, Lucky, IsTemplate,
      Offered, RewardNext;
    NothingYet();
    NextRewardTaken(NewNode(SmallEnv()), 0);
    var n1 := HandleHead(NewNode(SmallEnv()), RewardNext(0), 0).0;
    DoubledPends(n1);
    var n := HandleTx(n1, Doubled(ONCE)).0;
    PendingRefuses(n);
  }

  lemma PendingRefuses(n: N.Node)
    requires Pending(n)
    ensures n.st.env == SmallEnv() && NodeOk(n) && n.head == 1 && n.st.env.params.Verified()
    ensures forall candidates ::
      BestFirst(n.st, n.head, n.mempool, Unspent(n.st, ChainTxs(n.st, n.head)), candidates) ==>
      OfferAt(n.st, n.head, candidates) == Some(MiningTarget(1, EASIEST, [5]))
    ensures Buildable(n, [5], 3) && IsTemplate(n, [5], 3, STARVED, [MerkleNode(7, 5)]) && Lucky(n.st, STARVED, 0)
    ensures HandleHead(n, Solution(n.st.env.hashes, STARVED, [MerkleNode(7, 5)], Coinbase(n.st, 1, [5], 3)), 0).1 != Ok
  {
    SmallEnvOk();
    hide HandleHead, ChainOk, BestFirst, OfferAt, Coinbase, Buildable, Lucky, IsTemplate, Unspent, ChainTxs,
      Stored, TargetToWork;
    forall candidates | BestFirst(n.st, n.head, n.mempool, Unspent(n.st, ChainTxs(n.st, n.head)), candidates)
      ensures OfferAt(n.st, n.head, candidates) == Some(MiningTarget(1, EASIEST, [5]))
    {
      OfferPicksIt(n, candidates);
    }
    StarvedIsLucky(n);
    StarvedOffered(n);
    SolutionRefused(n, n, [5], 5, 3, STARVED, [MerkleNode(7, 5)], 0);
  }

  lemma StarvedOffered(n: N.Node)
    requires Pending(n)
    ensures Offered(n, [5]) && Grown(n, n) && NamesTwice(TxOf(n.st, 5))
    ensures n.st.env.params.originalTarget <= n.st.env.params.maxTarget
  {
    hide ChainOk, ChainTxs, Unspent, TargetToWork, Stored, Offerable;
    DoubledSums();
    OneTotal(n.st, 5);
    ExtendsReflexive(n.st);
    var us := ConsumedUtxos(Doubled(ONCE));
    assert us[0] == us[1];
  }
}
