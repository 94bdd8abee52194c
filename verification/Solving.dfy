/** A block from the offer to the head: the chain offers, the miner builds and publishes, the chain
    takes up what was mined from its own offer. */
module Solving {
  import opened Core
  import opened Forest
  import opened Target
  import opened Rules
  import opened Ledger
  import opened ChainState
  import opened N = Node
  import opened Merkle
  import opened Difficulty
  import opened Mining
  import opened Chain

  /** The block beats its target, at a time the verifier accepts, with work to spare and an id that
      stands for nothing else. */
  ghost predicate Lucky(st: Store, b: Block, now: Uint64) {
    && 0 < st.env.hashes.BlockId(b) < b.target
    && AfterMedian(st, b) && NotFromFuture(b, now)
    && WorkOf(st, b.prevBlockId) + TargetToWork(b.target) < TWO_256
    && BlockClear(st, b)
  }

  /** A template over picks offered at `n`. */
  ghost predicate IsTemplate(n: N.Node, ids: seq<HashT>, payout: HashT, b: Block, merkles: seq<MerkleNode>)
    requires n.st.env.params.Verified()
  {
    var h := n.st.env.hashes;
    && merkles != [] && IdsOf(h, merkles) == IdsOf(h, TreeNodes(h, AllIds(n, ids, payout)))
    && ToSet(merkles) <= ToSet(TreeNodes(h, AllIds(n, ids, payout)))
    && b.prevBlockId == n.head && b.merkleRoot == Root(h, merkles) && NextTarget(n.st, n.head) == Some(b.target)
  }

  /** The head is this block, with these transactions. */
  ghost predicate IsHead(n: N.Node, b: Block, ids: seq<HashT>) {
    n.head == n.st.env.hashes.BlockId(b) && BlockTxs(n.st, n.head) == ids
  }

  lemma TemplateTakenUp(
    n: N.Node, before: N.Node, ids: seq<HashT>, payout: HashT, b: Block, merkles: seq<MerkleNode>, now: Uint64)
    requires NodeOk(n) && NodeOk(before) && Grown(n, before) && Offered(n, ids) && n.st.env.params.Verified()
    requires n.st.env.params.originalTarget <= n.st.env.params.maxTarget && before.st.env == n.st.env
    requires IsTemplate(n, ids, payout, b, merkles)
    requires Buildable(before, ids, payout) && Lucky(before.st, b, now)
    ensures var ev := Solution(n.st.env.hashes, b, merkles, Coinbase(n.st, n.head, ids, payout));
            var (n', r) := HandleHead(before, ev, now);
      && (r == Ok <==> Mineable(before.st, ids))
      && (r == Ok ==> n'.st.env == n.st.env && IsHead(n', b, AllIds(before, ids, payout)))
  {
    hide ChainOk, Offered, Mineable, HandleHead, AfterMedian, NextTarget, TreeNodes, Coinbase, Fees;
    TemplateLasts(n, before, ids, payout);
    var h := n.st.env.hashes;
    SameNodes(h, merkles, TreeNodes(h, AllIds(before, ids, payout)));
    MinedBlockAccepted(before, ids, payout, b, now);
    HandleHeadOk(before, Solution(h, b, merkles, Coinbase(n.st, n.head, ids, payout)), now);
  }

  lemma OfferIsOffered(n: N.Node, candidates: seq<HashT>)
    requires NodeOk(n) && COINBASE_VSIZE <= n.st.env.params.maxBlockVSize && n.st.env.params.Verified()
    requires BestFirst(n.st, n.head, n.mempool, Unspent(n.st, ChainTxs(n.st, n.head)), candidates)
    ensures var offer := OfferAt(n.st, n.head, candidates);
      && (offer.None? <==> NextTarget(n.st, n.head).None?)
      && (offer.Some? ==>
            && offer.value.head == n.head && Some(offer.value.target) == NextTarget(n.st, n.head)
            && Offered(n, offer.value.txIds)
            && forall i :: 0 <= i < |offer.value.txIds| ==> HasSurplus(TxOf(n.st, offer.value.txIds[i])))
  {
    hide ChainOk, Unspent, ChainTxs, BestFirst, NextTarget, Pack;
    PackedIsOffered(n, candidates);
    var ids := Pack(n.st, candidates, |candidates|).ids;
    forall i | 0 <= i < |ids| ensures HasSurplus(TxOf(n.st, ids[i])) {
      assert Offerable(n, ids[i]);
    }
  }

  /** A round of mining.  `before` is the node when the solution arrives, which may have learned
      transactions since the offer.  The block becomes the head if and only if the picks are mineable. */
  method MineAndDeliver(
    c: Chain, m: Miner, arrivals: seq<Tx>, noise: HashT, nonce: Uint64, minedAt: Uint64, now: Uint64)
    returns (offer: Option<MiningTarget>, b: Block, r: Outcome, ghost before: N.Node)
    requires c.Valid() && m.inv == c.inv
    requires c.inv.env.params.originalTarget <= c.inv.env.params.maxTarget
    requires COINBASE_VSIZE <= c.inv.env.params.maxBlockVSize
    modifies c, c.inv, c.state, m
    ensures c.Valid() && c.inv.env.params.Verified() && c.inv.env == before.st.env
    ensures offer.None? <==> NextTarget(old(c.inv.View()), old(c.state.head)).None?
    ensures offer.Some? ==> NodeOk(before) && Grown(old(c.Node()), before) && Offered(before, offer.value.txIds)
    ensures offer.Some? && Buildable(before, offer.value.txIds, m.payoutPkh) && Lucky(before.st, b, now) ==>
      && (r == Ok <==> Mineable(before.st, offer.value.txIds))
      && (r == Ok ==> IsHead(c.Node(), b, AllIds(before, offer.value.txIds, m.payoutPkh)))
  {
    hide ChainOk, Offered, Extends, Mineable, HandleHead, AfterMedian, NextTarget, TreeNodes, Fees, HeightOf, BestFirst,
      Unspent, ChainTxs, OfferAt, Canon, WellFormed, ValidChain, Buildable, Lucky, State.Valid;
    ghost var n := c.Node();
    b, r, before := ZERO_BLOCK, Ok, n;
    c.state.ValidParts();
    WellFormedEnv(n.st);
    offer := CreateMiningTarget(c.state);
    ghost var candidates :|
      && BestFirst(n.st, n.head, n.mempool, c.state.utxos, candidates)
      && offer == OfferAt(n.st, n.head, candidates);
    OfferIsOffered(n, candidates);
    if offer.None? {
      return;
    }
    var ok := m.UpdateTemplate(offer.value.head, offer.value.target, offer.value.txIds, noise, minedAt);
    m.Retry(noise, nonce);
    b := m.template.value;
    HearTxs(c, arrivals);
    before := c.Node();
    GrownEnv(n, before);
    TemplateLasts(n, before, offer.value.txIds, m.payoutPkh);
    var ev := m.PublishSolution();
    if Buildable(before, offer.value.txIds, m.payoutPkh) && Lucky(before.st, b, now) {
      TemplateTakenUp(n, before, offer.value.txIds, m.payoutPkh, b, m.outMerkles, now);
    }
    r := c.HandleCandidateHead(ev, now);
  }

  /** Transactions that arrive meanwhile. */
  method HearTxs(c: Chain, txs: seq<Tx>)
    requires c.Valid()
    modifies c.inv`txs, c.state
    ensures c.Valid() && NodeOk(c.Node()) && Grown(old(c.Node()), c.Node())
  {
    hide ChainOk, Extends, Canon, WellFormed, ValidChain, State.Valid, Grown;
    c.state.ValidParts();
    StillGrown(c.Node());
    for i := 0 to |txs|
      invariant c.Valid() && NodeOk(c.Node()) && Grown(old(c.Node()), c.Node())
    {
      ghost var n := c.Node();
      HearTx(c, txs[i]);
      GrownMore(old(c.Node()), n, c.Node());
    }
  }

  method HearTx(c: Chain, tx: Tx)
    requires c.Valid() && NodeOk(c.Node())
    modifies c.inv`txs, c.state
    ensures c.Valid() && NodeOk(c.Node()) && Grown(old(c.Node()), c.Node())
  {
    hide ChainOk, Extends, Canon, WellFormed, ValidChain, State.Valid, AddTxs;
    AddTxsOk(c.Node(), [tx]);
    var r := c.HandleCandidateTx(tx);
  }

  lemma GrownEnv(n: N.Node, n': N.Node)
    requires Grown(n, n')
    ensures n'.st.env == n.st.env && n'.head == n.head
  {
  }

  lemma StillGrown(n: N.Node)
    ensures Grown(n, n)
  {
    ExtendsReflexive(n.st);
  }

  lemma GrownMore(a: N.Node, b: N.Node, c: N.Node)
    requires Grown(a, b) && Grown(b, c)
    ensures Grown(a, c)
  {
    ExtendsTransitive(a.st, b.st, c.st);
  }
}
