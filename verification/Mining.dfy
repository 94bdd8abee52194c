/** From a mempool to a published block: picking transactions, building a template over them, and
    why the chain takes up what comes out. */
module Mining {
  import opened Core
  import opened Forest
  import opened Target
  import opened Rules
  import opened Ancestry
  import opened Ledger
  import opened Inventory
  import opened ChainState
  import opened N = Node
  import opened Merkle
  import opened Difficulty

  // ---- Packing a block ----

  datatype Packing = Packing(ids: seq<HashT>, size: nat, used: set<Utxo>, full: bool)

  /** First come, first served: what the first `n` candidates make of a block that has room for
      its coinbase already taken out. */
  function Pack(st: Store, candidates: seq<HashT>, n: nat): Packing
    requires n <= |candidates|
  {
    if n == 0 then Packing([], COINBASE_VSIZE, {}, false)
    else
      var p, t := Pack(st, candidates, n - 1), candidates[n - 1];
      var size := p.size + VSize(TxOf(st, t));
      if p.full || size > st.env.params.maxBlockVSize || !(p.used !! Ins(st, t)) then p
      else
        var full := size > Sub64(st.env.params.maxBlockVSize, MIN_NON_COINBASE_VSIZE);
        Packing(p.ids + [t], size, p.used + Ins(st, t), full)
  }

  datatype MiningTarget = MiningTarget(head: HashT, target: HashT, txIds: seq<HashT>)

  /** The packing loop. */
  method PackTxs(inv: Inv, candidateTxIds: seq<HashT>) returns (txIds: seq<HashT>)
    ensures txIds == Pack(inv.View(), candidateTxIds, |candidateTxIds|).ids
  {
    hide VSize, ConsumedUtxos;
    var limit := inv.env.params.maxBlockVSize;
    var totalSize: nat, consumedUtxos: set<Utxo> := COINBASE_VSIZE, {};
    txIds := [];
    for i := 0 to |candidateTxIds|
      invariant Pack(inv.View(), candidateTxIds, i) == Packing(txIds, totalSize, consumedUtxos, false)
    {
      var txId := candidateTxIds[i];
      var tx := TxOf(inv.View(), txId);
      var vSize := ComputeVSize(tx);
      if totalSize + vSize > limit {
        continue;
      }
      var txUtxos := ToSet(ConsumedUtxos(tx));
      if !(consumedUtxos !! txUtxos) {
        continue;
      }
      txIds := txIds + [txId];
      totalSize := totalSize + vSize;
      consumedUtxos := consumedUtxos + txUtxos;
      if totalSize > Sub64(limit, MIN_NON_COINBASE_VSIZE) {
        StaysFull(inv.View(), candidateTxIds, i + 1, |candidateTxIds|);
        break;
      }
    }
  }

  /** The offer over these candidates; none when computing the target panics. */
  function OfferAt(st: Store, head: HashT, candidates: seq<HashT>): Option<MiningTarget>
    requires st.env.params.Verified()
  {
    match NextTarget(st, head)
    case None => None
    case Some(target) => Some(MiningTarget(head, target, Pack(st, candidates, |candidates|).ids))
  }

  /** The candidates: all of the mempool that could go into the next block, best rate first. */
  ghost predicate BestFirst(st: Store, head: HashT, mempool: set<HashT>, utxos: set<Utxo>, candidates: seq<HashT>) {
    && NoDup(candidates) && ToSet(candidates) == Candidates(st, head, mempool, utxos)
    && RatesDescend(st, candidates)
  }

  method CreateMiningTarget(s: State) returns (r: Option<MiningTarget>)
    requires s.Valid()
    modifies s`mempool, s`mempoolRates, s`mempoolUtxoSpends
    ensures unchanged(s) && s.inv.env.Ok()
    ensures exists candidates ::
      && BestFirst(s.inv.View(), s.head, s.mempool, s.utxos, candidates)
      && r == OfferAt(s.inv.View(), s.head, candidates)
  {
    hide WellFormed, ValidChain, Canon, Includable, Pack, NoDup, SumIn, SumOut, VSize;
    s.ValidParts();
    WellFormedParts(s.inv.View());
    var candidateTxIds := s.GetSortedIncludableMempool();
    assert BestFirst(s.inv.View(), s.head, s.mempool, s.utxos, candidateTxIds);
    var txIds := PackTxs(s.inv, candidateTxIds);
    var target := ComputeNextTarget(s.inv, s.head);
    r := match target case None => None case Some(t) => Some(MiningTarget(s.head, t, txIds));
  }

  predicate RatesDescend(st: Store, ids: seq<HashT>) {
    forall i, j :: 0 <= i < j < |ids| ==> PaysNoLess(TxOf(st, ids[i]), TxOf(st, ids[j]))
  }

  lemma {:induction false} StaysFull(st: Store, candidates: seq<HashT>, n: nat, m: nat)
    requires n <= m <= |candidates| && Pack(st, candidates, n).full
    ensures Pack(st, candidates, m) == Pack(st, candidates, n)
    decreases m
  {
    if n < m {
      StaysFull(st, candidates, n, m - 1);
    }
  }

  // ---- What a packing is good for ----

  predicate PairwiseDisjoint(st: Store, ids: seq<HashT>) {
    forall i, j :: 0 <= i < j < |ids| ==> Ins(st, ids[i]) !! Ins(st, ids[j])
  }

  lemma OnePick(st: Store, ids: seq<HashT>, seen: seq<HashT>, t: HashT)
    requires ToSet(ids) <= ToSet(seen) && NoDup(seen + [t]) && RatesDescend(st, seen + [t])
    requires NoDup(ids) && PairwiseDisjoint(st, ids) && RatesDescend(st, ids) && Spent(st, ids) !! Ins(st, t)
    ensures NoDup(ids + [t]) && PairwiseDisjoint(st, ids + [t]) && RatesDescend(st, ids + [t])
    ensures ToSet(ids + [t]) <= ToSet(seen + [t])
  {
    hide Ins, PaysNoLess, TxOf;
    NoDupAppend(seen, [t]);
    ToSetMore(ids, t);
    ToSetMore(seen, t);
    NoDupAppend(ids, [t]);
    forall i | 0 <= i < |ids|
      ensures Ins(st, ids[i]) !! Ins(st, t) && PaysNoLess(TxOf(st, ids[i]), TxOf(st, t))
    {
      assert ids[i] in ToSet(ids) && ids[i] in ToSet(seen);
      var k :| 0 <= k < |seen| && seen[k] == ids[i];
      assert (seen + [t])[k] == ids[i] && (seen + [t])[|seen|] == t;
    }
  }

  lemma ToSetMore(ids: seq<HashT>, t: HashT)
    ensures ToSet(ids + [t]) == ToSet(ids) + {t} && ToSet([t]) == {t}
  {
  }

  lemma PickTotals(st: Store, ids: seq<HashT>, t: HashT)
    ensures TotalVSize(st, ids + [t]) == TotalVSize(st, ids) + VSize(TxOf(st, t))
    ensures Spent(st, ids + [t]) == Spent(st, ids) + Ins(st, t)
  {
    TotalVSizeConcat(st, ids, [t]);
    assert [t][1..] == [];
    CreatedConcat(st, ids, [t]);
    CreatedOne(st, t);
  }

  lemma DescendPrefix(st: Store, ids: seq<HashT>, n: nat)
    requires n <= |ids| && NoDup(ids) && RatesDescend(st, ids)
    ensures NoDup(ids[..n]) && RatesDescend(st, ids[..n])
  {
  }

  /** The picks fit beside a coinbase, share no output, and are candidates in the order given. */
  lemma {:induction false} PackFeasible(st: Store, candidates: seq<HashT>, n: nat)
    requires n <= |candidates| && NoDup(candidates) && RatesDescend(st, candidates)
    ensures var p := Pack(st, candidates, n);
      && p.size == COINBASE_VSIZE + TotalVSize(st, p.ids)
      && (p.ids != [] ==> p.size <= st.env.params.maxBlockVSize)
      && p.used == Spent(st, p.ids)
      && PairwiseDisjoint(st, p.ids)
      && NoDup(p.ids) && ToSet(p.ids) <= ToSet(candidates[..n]) && RatesDescend(st, p.ids)
  {
    hide NoDup, PairwiseDisjoint, RatesDescend, TotalVSize, Spent, Ins, VSize;
    if n > 0 {
      PackFeasible(st, candidates, n - 1);
      var p, t := Pack(st, candidates, n - 1), candidates[n - 1];
      assert candidates[..n] == candidates[..n - 1] + [t];
      DescendPrefix(st, candidates, n);
      if Pack(st, candidates, n) != p {
        OnePick(st, p.ids, candidates[..n - 1], t);
        PickTotals(st, p.ids, t);
      }
    } else {
      NothingPicked(st);
    }
  }

  lemma NothingPicked(st: Store)
    ensures TotalVSize(st, []) == 0 && Spent(st, []) == {} && PairwiseDisjoint(st, []) && RatesDescend(st, [])
    ensures NoDup<HashT>([])
  {
  }

  /** Whatever was left out clashes with, or no longer fits beside, picks made before it, all of at
      least its own fee rate. */
  ghost predicate RightlyLeft(st: Store, picked: seq<HashT>, t: HashT) {
    exists k :: 0 <= k <= |picked| && CrowdedOut(st, picked[..k], t)
  }

  ghost predicate CrowdedOut(st: Store, picked: seq<HashT>, t: HashT) {
    && (forall i :: 0 <= i < |picked| ==> PaysNoLess(TxOf(st, picked[i]), TxOf(st, t)))
    && (!(Spent(st, picked) !! Ins(st, t))
        || COINBASE_VSIZE + TotalVSize(st, picked) + VSize(TxOf(st, t)) > st.env.params.maxBlockVSize)
  }

  lemma {:induction false} PackPrefix(st: Store, candidates: seq<HashT>, n: nat, m: nat)
    requires n <= m <= |candidates|
    ensures Pack(st, candidates, n).ids <= Pack(st, candidates, m).ids
    decreases m
  {
    if n < m {
      PackPrefix(st, candidates, n, m - 1);
    }
  }

  lemma {:induction false} FullMeansFull(st: Store, candidates: seq<HashT>, n: nat)
    requires n <= |candidates| && Pack(st, candidates, n).full
    ensures Pack(st, candidates, n).size + MIN_NON_COINBASE_VSIZE > st.env.params.maxBlockVSize
  {
    if n > 0 && Pack(st, candidates, n - 1).full {
      FullMeansFull(st, candidates, n - 1);
    }
  }

  /** The packing is maximal, as far as transactions of the usual minimum size go. */
  lemma PackMaximal(st: Store, candidates: seq<HashT>, i: nat)
    requires i < |candidates| && NoDup(candidates) && RatesDescend(st, candidates)
    requires VSize(TxOf(st, candidates[i])) >= MIN_NON_COINBASE_VSIZE
    ensures var picked := Pack(st, candidates, |candidates|).ids;
      candidates[i] in picked || RightlyLeft(st, picked, candidates[i])
  {
    var t, p, q := candidates[i], Pack(st, candidates, i), Pack(st, candidates, i + 1);
    var picked := Pack(st, candidates, |candidates|).ids;
    PackFeasible(st, candidates, i);
    PackPrefix(st, candidates, i, |candidates|);
    PackPrefix(st, candidates, i + 1, |candidates|);
    if q != p {
      assert t == q.ids[|q.ids| - 1] == picked[|q.ids| - 1];
    } else {
      forall k | 0 <= k < |p.ids| ensures PaysNoLess(TxOf(st, p.ids[k]), TxOf(st, t)) {
        assert p.ids[k] in ToSet(candidates[..i]);
      }
      if p.full {
        FullMeansFull(st, candidates, i);
      }
      assert picked[..|p.ids|] == p.ids;
      assert CrowdedOut(st, picked[..|p.ids|], t);
    }
  }

  /** A size limit is a count limit. */
  lemma {:induction false} SizesAddUp(st: Store, ids: seq<HashT>)
    requires forall i :: 0 <= i < |ids| ==> VSize(TxOf(st, ids[i])) >= MIN_NON_COINBASE_VSIZE
    ensures TotalVSize(st, ids) >= MIN_NON_COINBASE_VSIZE * |ids|
  {
    if ids != [] {
      SizesAddUp(st, ids[1..]);
    }
  }

  lemma CountFollowsSize(st: Store, ids: seq<HashT>)
    requires forall i :: 0 <= i < |ids| ==> VSize(TxOf(st, ids[i])) >= MIN_NON_COINBASE_VSIZE
    requires COINBASE_VSIZE + TotalVSize(st, ids) <= st.env.params.maxBlockVSize
    ensures |ids| + 1 <= BlockMaxTxs(st.env.params)
  {
    SizesAddUp(st, ids);
    Quotient(st.env.params.maxBlockVSize - COINBASE_VSIZE, |ids|);
  }

  lemma Quotient(room: nat, n: nat)
    requires MIN_NON_COINBASE_VSIZE * n <= room
    ensures n <= room / MIN_NON_COINBASE_VSIZE
  {
  }

  // ---- The template ----

  /** Surpluses of the picks, in 64-bit arithmetic. */
  function Fees(st: Store, ids: seq<HashT>): Uint64 {
    if ids == [] then 0
    else
      var tx := TxOf(st, ids[|ids| - 1]);
      (Fees(st, ids[..|ids| - 1]) + Sub64(InputsValue(tx), OutputsValue(tx))) % TWO_64
  }

  function Coinbase(st: Store, head: HashT, ids: seq<HashT>, payout: HashT): Tx {
    Tx(true, (HeightOf(st, head) + 1) % TWO_64, [],
       [TxOut((Fees(st, ids) + st.env.params.blockReward) % TWO_64, payout)])
  }

  method TotalFees(inv: Inv, txIds: seq<HashT>) returns (totalFees: Uint64, ok: bool)
    ensures ok <==> forall i :: 0 <= i < |txIds| ==> HasSurplus(TxOf(inv.View(), txIds[i]))
    ensures ok ==> totalFees == Fees(inv.View(), txIds)
  {
    hide InputsValue, OutputsValue, Sub64, HasSurplus;
    totalFees := 0;
    for i := 0 to |txIds|
      invariant totalFees == Fees(inv.View(), txIds[..i])
      invariant forall k :: 0 <= k < i ==> HasSurplus(TxOf(inv.View(), txIds[k]))
    {
      var tx := TxOf(inv.View(), txIds[i]);
      if !HasSurplus(tx) {
        return 0, false;
      }
      assert txIds[..i + 1][..i] == txIds[..i];
      totalFees := (totalFees + Sub64(InputsValue(tx), OutputsValue(tx))) % TWO_64;
    }
    assert txIds[..|txIds|] == txIds;
    ok := true;
  }

  class Miner {
    const inv: Inv
    const payoutPkh: HashT
    var template: Option<Block>
    var outCoinbase: Option<Tx>
    var outMerkles: seq<MerkleNode>

    constructor (inv: Inv, payoutPkh: HashT)
      ensures this.inv == inv && this.payoutPkh == payoutPkh && template == None
    {
      this.inv, this.payoutPkh := inv, payoutPkh;
      template, outCoinbase, outMerkles := None, None, [];
    }

    /** Noise is random and `now` read off the clock.  Not `ok` stands for the panic at a pick
        without surplus. */
    method UpdateTemplate(head: HashT, target: HashT, txIds: seq<HashT>, noise: HashT, now: Uint64)
      returns (ok: bool)
      modifies this`template, this`outCoinbase, this`outMerkles
      ensures ok <==> forall i :: 0 <= i < |txIds| ==> HasSurplus(TxOf(inv.View(), txIds[i]))
      ensures !ok ==> unchanged(this)
      ensures ok ==>
        && outCoinbase == Some(Coinbase(inv.View(), head, txIds, payoutPkh))
        && IdsOf(inv.env.hashes, outMerkles)
             == IdsOf(inv.env.hashes, TreeNodes(inv.env.hashes, [inv.env.hashes.tx(outCoinbase.value)] + txIds))
        && outMerkles != []
        && ToSet(outMerkles) <= ToSet(TreeNodes(inv.env.hashes, [inv.env.hashes.tx(outCoinbase.value)] + txIds))
        && template == Some(Block(head, Root(inv.env.hashes, outMerkles), target, noise, 0, now))
    {
      hide HasSurplus, Fees, TreeNodes, HeightOf;
      var totalFees;
      totalFees, ok := TotalFees(inv, txIds);
      if !ok {
        return;
      }
      var value := (totalFees + inv.env.params.blockReward) % TWO_64;
      var coinbaseTx := Tx(true, (HeightOf(inv.View(), head) + 1) % TWO_64, [], [TxOut(value, payoutPkh)]);
      var merkleMap, merkleIds := MerkleFromTxIds(inv.env.hashes, [inv.env.hashes.tx(coinbaseTx)] + txIds);
      assert forall i :: 0 <= i < |merkleIds| ==> merkleIds[i] in ToSet(merkleIds);
      outMerkles := seq(|merkleIds|, i requires 0 <= i < |merkleIds| => merkleMap[merkleIds[i]]);
      assert forall i :: 0 <= i < |outMerkles| ==> outMerkles[i] == merkleMap[merkleIds[i]];
      assert IdsOf(inv.env.hashes, outMerkles) == merkleIds;
      template := Some(Block(head, merkleIds[|merkleIds| - 1], target, noise, 0, now));
      outCoinbase := Some(coinbaseTx);
    }

    /** The next noise and nonce to try. */
    method Retry(noise: HashT, nonce: Uint64)
      requires template.Some?
      modifies this`template
      ensures template == Some(old(template).value.(noise := noise, nonce := nonce))
    {
      template := Some(template.value.(noise := noise, nonce := nonce));
    }

    method PublishSolution() returns (ev: HeadEvent)
      requires template.Some? && outCoinbase.Some?
      ensures ev == Solution(inv.env.hashes, template.value, outMerkles, outCoinbase.value)
    {
      ev := HeadEvent(inv.env.hashes.BlockId(template.value), [template.value], outMerkles, [outCoinbase.value], false);
    }
  }

  function Solution(h: Hashes, b: Block, merkles: seq<MerkleNode>, coinbase: Tx): HeadEvent {
    HeadEvent(h.BlockId(b), [b], merkles, [coinbase], false)
  }

  /** Where no two nodes of the tree share an id, what is carried are its nodes. */
  lemma {:induction false} SameNodes(h: Hashes, carried: seq<MerkleNode>, tree: seq<MerkleNode>)
    requires IdsOf(h, carried) == IdsOf(h, tree) && ToSet(carried) <= ToSet(tree)
    requires forall n, n' :: n in ToSet(tree) && n' in ToSet(tree) && h.merkle(n) == h.merkle(n') ==> n == n'
    ensures carried == tree
  {
    assert |carried| == |IdsOf(h, carried)| == |tree|;
    forall i | 0 <= i < |tree| ensures carried[i] == tree[i] {
      assert IdsOf(h, carried)[i] == IdsOf(h, tree)[i];
      assert carried[i] in ToSet(carried) && tree[i] in ToSet(tree);
    }
  }

  // ---- Why the chain takes the block up ----

  /** Picks that could follow the head in any order, in a block with room for them. */
  ghost predicate Offered(n: Node, ids: seq<HashT>) {
    && NoDup(ids) && PairwiseDisjoint(n.st, ids)
    && (forall i :: 0 <= i < |ids| ==> Offerable(n, ids[i]))
    && COINBASE_VSIZE + TotalVSize(n.st, ids) <= n.st.env.params.maxBlockVSize
  }

  ghost predicate Offerable(n: Node, t: HashT) {
    && t in n.mempool
    && t in n.st.txs
    && HasSurplus(TxOf(n.st, t))
    && TxOf(n.st, t).minBlock <= HeightOf(n.st, n.head) + 1
    && Ins(n.st, t) <= Unspent(n.st, ChainTxs(n.st, n.head))
  }

  /** What is packed is offered. */
  lemma PackedIsOffered(n: Node, candidates: seq<HashT>)
    requires NodeOk(n) && BestFirst(n.st, n.head, n.mempool, Unspent(n.st, ChainTxs(n.st, n.head)), candidates)
    requires COINBASE_VSIZE <= n.st.env.params.maxBlockVSize
    ensures Offered(n, Pack(n.st, candidates, |candidates|).ids)
  {
    hide WellFormed, ValidChain, Unspent, ChainTxs, RatesDescend;
    PackFeasible(n.st, candidates, |candidates|);
    assert candidates[..|candidates|] == candidates;
    var ids := Pack(n.st, candidates, |candidates|).ids;
    forall i | 0 <= i < |ids| ensures Offerable(n, ids[i]) {
      assert ids[i] in ToSet(ids);
    }
  }

  /** An offer stays good while the node only learns more. */
  lemma OfferStays(n: Node, n': Node, ids: seq<HashT>)
    requires NodeOk(n) && NodeOk(n') && Grown(n, n') && Offered(n, ids)
    ensures Offered(n', ids)
    ensures forall i :: 0 <= i < |ids| ==> TxOf(n'.st, ids[i]) == TxOf(n.st, ids[i])
  {
    hide WellFormed, ValidChain, Unspent, ChainTxs, NoDup;
    WellFormedSeparate(n'.st);
    ChainTxsStable(n.st, n'.st, n.head);
    ChainTxsStored(n.st, n.head);
    UtxosStable(n.st, n'.st, ChainTxs(n.st, n.head));
    forall i | 0 <= i < |ids| ensures Offerable(n', ids[i]) && Ins(n'.st, ids[i]) == Ins(n.st, ids[i]) {
      assert Offerable(n, ids[i]);
    }
    VSizeStable(n.st, n'.st, ids);
  }

  /** Where a template starts from: heights have not run out, the coinbase is new or still pending,
      and no id of the coinbase or the tree stands for something else. */
  ghost predicate Buildable(n: Node, ids: seq<HashT>, payout: HashT) {
    var id := n.st.env.hashes.tx(Coinbase(n.st, n.head, ids, payout));
    && HeightOf(n.st, n.head) + 1 < TWO_64
    && (id in n.st.txs ==> id in n.mempool && TxOf(n.st, id) == Coinbase(n.st, n.head, ids, payout))
    && NodesClear(n.st, ToSet(TreeNodes(n.st.env.hashes, [id] + ids)))
  }

  /** What the miner does not check of its picks, and the chain does. */
  predicate Mineable(st: Store, ids: seq<HashT>) {
    CoinbaseFine(st, ids) && CountFits(st, ids) && SpendsOnce(st, ids)
  }

  /** The fees and the reward do not wrap, and transactions may be as large as a coinbase. */
  predicate CoinbaseFine(st: Store, ids: seq<HashT>) {
    Fees(st, ids) + st.env.params.blockReward < TWO_64 && COINBASE_VSIZE <= st.env.params.maxTxVSize
  }

  predicate CountFits(st: Store, ids: seq<HashT>) { |ids| + 1 <= BlockMaxTxs(st.env.params) }

  /** No transaction names an output twice. */
  predicate SpendsOnce(st: Store, ids: seq<HashT>) {
    forall i :: 0 <= i < |ids| ==> NoDup(ConsumedUtxos(TxOf(st, ids[i])))
  }

  /** A transaction may: whoever passes the checks with an input passes them with it named twice. */
  lemma RepeatedInputPasses(st: Store, tx: Tx)
    requires TxOk(st, tx) && |tx.inputs| == 1
    ensures var twice := tx.(inputs := tx.inputs + tx.inputs);
      && !NoDup(ConsumedUtxos(twice))
      && (VSize(twice) <= st.env.params.maxTxVSize && HasSurplus(twice) ==> TxOk(st, twice))
  {
    var twice := tx.(inputs := tx.inputs + tx.inputs);
    assert ConsumedUtxos(twice)[0] == ConsumedUtxos(twice)[1];
    forall i | 0 <= i < 2 ensures SignatureOk(st.env, twice, i) && OriginOk(st, twice.inputs[i]) {
      assert SignatureOk(st.env, tx, 0) && OriginOk(st, tx.inputs[0]);
    }
  }

  function AllIds(n: Node, ids: seq<HashT>, payout: HashT): seq<HashT> {
    [n.st.env.hashes.tx(Coinbase(n.st, n.head, ids, payout))] + ids
  }

  lemma CoinbaseSums(cb: Tx, value: Uint64)
    requires cb.inputs == [] && |cb.outputs| == 1 && cb.outputs[0].value == value
    ensures VSize(cb) == COINBASE_VSIZE
    ensures SumIn(cb.inputs) == 0 && SumOut(cb.outputs) == value
    ensures InputsValue(cb) == 0 && OutputsValue(cb) == value && !HasSurplus(cb)
  {
    assert cb.outputs[..0] == [];
    assert SumOut(cb.outputs) == SumOut(cb.outputs[..0]) + value;
  }

  /** The node after its coinbase has been stored. */
  ghost predicate WithCoinbase(n: Node, n1: Node, id: HashT, cb: Tx) {
    && NodeOk(n1) && Grown(n, n1) && n1.st.blocks == n.st.blocks
    && id in n1.st.txs && TxOf(n1.st, id) == cb && id in n1.mempool
  }

  lemma CoinbaseNew(n: Node, ids: seq<HashT>, payout: HashT)
    ensures TxOk(n.st, Coinbase(n.st, n.head, ids, payout)) <==> CoinbaseFine(n.st, ids)
  {
    hide Fees, ChainTxs;
    var cb := Coinbase(n.st, n.head, ids, payout);
    CoinbaseSums(cb, cb.outputs[0].value);
  }

  lemma CoinbaseStored(n: Node, ids: seq<HashT>, payout: HashT)
    requires NodeOk(n) && Buildable(n, ids, payout)
    ensures var cb := Coinbase(n.st, n.head, ids, payout);
            var (n1, r) := AddTxs(n, [cb]);
      && (r == Ok <==> CoinbaseFine(n.st, ids))
      && (r == Ok ==> WithCoinbase(n, n1, n.st.env.hashes.tx(cb), cb) && n1.st.merkles == n.st.merkles)
  {
    var cb := Coinbase(n.st, n.head, ids, payout);
    CoinbaseNew(n, ids, payout);
    OneTx(n, cb);
    if n.st.env.hashes.tx(cb) in n.st.txs {
      assert TxRecordOk(n.st, n.st.env.hashes.tx(cb));
      ExtendsReflexive(n.st);
    } else if CanStoreTx(n.st, cb) {
      hide WellFormed, ValidChain, ChainTxs, Extends, Coinbase, TxOk, AddTxs, NodesClear, TreeNodes, CoinbaseFine;
      AddTxOk(n, cb);
    }
  }

  /** The coinbase and the picks make a block body that balances. */
  lemma {:induction false} FeesBalance(st: Store, ids: seq<HashT>)
    ensures (Fees(st, ids) + TotalOut(st, ids)) % TWO_64 == TotalIn(st, ids) % TWO_64
  {
    if ids != [] {
      var front, tx := ids[..|ids| - 1], TxOf(st, ids[|ids| - 1]);
      FeesBalance(st, front);
      OneFee(Fees(st, front), TotalOut(st, front), TotalIn(st, front), SumIn(tx.inputs), SumOut(tx.outputs));
    }
  }

  lemma OneFee(f: Uint64, o: nat, i: nat, inputs: nat, outputs: nat)
    requires (f + o) % TWO_64 == i % TWO_64
    ensures ((f + Sub64(inputs % TWO_64, outputs % TWO_64)) % TWO_64 + (o + outputs)) % TWO_64 == (i + inputs) % TWO_64
  {
    var fee := Sub64(inputs % TWO_64, outputs % TWO_64);
    var k := Wraps(inputs) - Wraps(outputs) - 1 + Wraps(inputs % TWO_64 - outputs % TWO_64 + TWO_64);
    assert inputs - outputs - fee == k * TWO_64;
    Congruent((f + fee) % TWO_64 + (o + outputs), i + inputs, Wraps(f + o) - Wraps(i) - Wraps(f + fee) - k);
  }

  function Wraps(a: nat): (k: nat)
    ensures a == k * TWO_64 + a % TWO_64
  {
    a / TWO_64
  }

  lemma Congruent(a: nat, b: nat, k: int)
    requires a - b == k * TWO_64
    ensures a % TWO_64 == b % TWO_64
  {
  }

  lemma {:induction false} TotalsFrom(st: Store, c: HashT, ids: seq<HashT>)
    ensures TotalIn(st, [c] + ids) == SumIn(TxOf(st, c).inputs) + TotalIn(st, ids)
    ensures TotalOut(st, [c] + ids) == SumOut(TxOf(st, c).outputs) + TotalOut(st, ids)
    decreases |ids|
  {
    if ids == [] {
      assert [c] + ids == [c] && [c][..0] == [];
    } else {
      var front := ids[..|ids| - 1];
      assert ([c] + ids)[..|ids|] == [c] + front;
      TotalsFrom(st, c, front);
    }
  }

  lemma BodyBalances(st: Store, c: HashT, ids: seq<HashT>)
    requires TxOf(st, c).inputs == [] && |TxOf(st, c).outputs| == 1
    requires TxOf(st, c).outputs[0].value == (Fees(st, ids) + st.env.params.blockReward) % TWO_64
    ensures (st.env.params.blockReward + TotalIn(st, [c] + ids)) % TWO_64 == TotalOut(st, [c] + ids) % TWO_64
  {
    TotalsFrom(st, c, ids);
    CoinbaseSums(TxOf(st, c), TxOf(st, c).outputs[0].value);
    FeesBalance(st, ids);
    ShareOut(Fees(st, ids), st.env.params.blockReward, TotalIn(st, ids), TotalOut(st, ids));
  }

  lemma ShareOut(f: nat, r: nat, i: nat, o: nat)
    requires (f + o) % TWO_64 == i % TWO_64
    ensures (r + i) % TWO_64 == ((f + r) % TWO_64 + o) % TWO_64
  {
  }

  function RootOver(n: Node, ids: seq<HashT>, payout: HashT): HashT {
    var nodes := TreeNodes(n.st.env.hashes, AllIds(n, ids, payout));
    if nodes == [] then 0 else Root(n.st.env.hashes, nodes)
  }

  /** The node after the coinbase and the tree have been stored. */
  ghost predicate Prepared(n: Node, n2: Node, ids: seq<HashT>, payout: HashT) {
    && WithCoinbase(n, n2, AllIds(n, ids, payout)[0], Coinbase(n.st, n.head, ids, payout))
    && RootOver(n, ids, payout) in n2.st.merkles
    && TxIdsUnder(n2.st, RootOver(n, ids, payout)) == AllIds(n, ids, payout)
  }

  lemma CoinbaseApart(n: Node, n1: Node, ids: seq<HashT>, payout: HashT)
    requires Offered(n1, ids) && AllIds(n, ids, payout)[0] in n1.st.txs
    requires TxOf(n1.st, AllIds(n, ids, payout)[0]) == Coinbase(n.st, n.head, ids, payout)
    requires n1.st.env == n.st.env
    ensures CanHold(n1.st, AllIds(n, ids, payout))
  {
    hide ChainTxs, Unspent, Fees;
    var cb, all := Coinbase(n.st, n.head, ids, payout), AllIds(n, ids, payout);
    CoinbaseSums(cb, cb.outputs[0].value);
    forall i | 0 <= i < |ids| ensures ids[i] != all[0] && ids[i] in n1.st.txs {
      assert Offerable(n1, ids[i]);
    }
    NoDupAppend([all[0]], ids);
    assert all[1..] == ids;
  }

  lemma TreeStored(n: Node, n1: Node, ids: seq<HashT>, payout: HashT)
    requires NodeOk(n) && Offered(n, ids)
    requires NodesClear(n.st, ToSet(TreeNodes(n.st.env.hashes, AllIds(n, ids, payout))))
    requires n1.st.merkles == n.st.merkles
    requires WithCoinbase(n, n1, AllIds(n, ids, payout)[0], Coinbase(n.st, n.head, ids, payout))
    ensures var (st2, r) := AddMerkles(n1.st, TreeNodes(n.st.env.hashes, AllIds(n, ids, payout)));
      r == Ok && Prepared(n, n1.(st := st2), ids, payout)
  {
    hide WellFormed, ValidChain, ChainTxs, CanHold, TxIdsUnder, TreeNodes, Offered, AddMerkles, Coinbase;
    OfferStays(n, n1, ids);
    CoinbaseApart(n, n1, ids, payout);
    StoreTree(n1.st, AllIds(n, ids, payout));
    var st2 := AddMerkles(n1.st, TreeNodes(n.st.env.hashes, AllIds(n, ids, payout))).0;
    SameChain(n1, st2);
    ExtendsTransitive(n.st, n1.st, st2);
  }

  lemma BodyReady(n: Node, n2: Node, ids: seq<HashT>, payout: HashT)
    requires NodeOk(n) && Offered(n, ids) && Buildable(n, ids, payout) && Prepared(n, n2, ids, payout)
    requires CountFits(n.st, ids)
    ensures BodyOk(n2.st, AllIds(n, ids, payout), HeightOf(n.st, n.head) + 1)
  {
    hide WellFormed, ValidChain, ChainTxs, TxIdsUnder, Unspent, NoDup, RootOver, PairwiseDisjoint, NodesClear,
      TreeNodes, BlockMaxTxs, TotalIn, TotalOut, TotalVSize, VSize, HasSurplus, Fees, ConsumedUtxos;
    var all, cb := AllIds(n, ids, payout), Coinbase(n.st, n.head, ids, payout);
    OfferStays(n, n2, ids);
    FeesSame(n.st, n2.st, ids);
    BodyBalances(n2.st, all[0], ids);
    forall i | 0 <= i < |all| ensures TxOf(n2.st, all[i]).isCoinbase <==> i == 0 {
      if i > 0 {
        assert all[i] == ids[i - 1] && Offerable(n2, ids[i - 1]);
        NotCoinbase(n2.st, ids[i - 1]);
      }
    }
  }

  lemma {:induction false} FeesSame(st: Store, st': Store, ids: seq<HashT>)
    requires forall i :: 0 <= i < |ids| ==> TxOf(st', ids[i]) == TxOf(st, ids[i])
    ensures Fees(st', ids) == Fees(st, ids)
  {
    if ids != [] {
      FeesSame(st, st', ids[..|ids| - 1]);
    }
  }

  lemma NotCoinbase(st: Store, t: HashT)
    requires WellFormed(st) && t in st.txs && HasSurplus(TxOf(st, t))
    ensures !TxOf(st, t).isCoinbase
  {
    assert TxRecordOk(st, t);
    if TxOf(st, t).isCoinbase {
      CoinbaseSums(TxOf(st, t), TxOf(st, t).outputs[0].value);
    }
  }

  /** A solved block over the picks, at a time the verifier will accept, with work to spare. */
  ghost predicate Solved(n: Node, ids: seq<HashT>, payout: HashT, b: Block, now: Uint64)
    requires n.st.env.params.Verified()
  {
    && b.prevBlockId == n.head && b.merkleRoot == RootOver(n, ids, payout)
    && NextTarget(n.st, n.head) == Some(b.target)
    && 0 < n.st.env.hashes.BlockId(b) < b.target
    && AfterMedian(n.st, b) && NotFromFuture(b, now)
    && WorkOf(n.st, n.head) + TargetToWork(b.target) < TWO_256
  }

  lemma {:induction false} SameAncestors(st: Store, st': Store, id: HashT, maxLen: nat)
    requires st.blocks == st'.blocks
    ensures AncestorList(st', id, maxLen) == AncestorList(st, id, maxLen)
    decreases maxLen
  {
    if maxLen > 0 && id != 0 {
      SameAncestors(st, st', Parent(st, id), maxLen - 1);
    }
  }

  lemma SameTimes(st: Store, st': Store, b: Block)
    requires st.blocks == st'.blocks
    ensures AfterMedian(st', b) == AfterMedian(st, b)
  {
    if b.prevBlockId != 0 {
      SameAncestors(st, st', b.prevBlockId, 4);
      assert TimesOf(st', RecentBlocks(st, b.prevBlockId)) == TimesOf(st, RecentBlocks(st, b.prevBlockId));
    }
  }

  /** The new block as it is then stored. */
  ghost predicate BlockIn(st: Store, head: HashT, id: HashT, txIds: seq<HashT>) {
    && id != 0 && id in st.blocks && Parent(st, id) == head && Linked(st, id)
    && WorkOf(st, head) < WorkOf(st, id)
    && BlockTxs(st, id) == txIds
  }

  lemma SolvedStorable(n: Node, n2: Node, ids: seq<HashT>, payout: HashT, b: Block, now: Uint64)
    requires NodeOk(n) && Offered(n, ids) && Buildable(n, ids, payout) && Prepared(n, n2, ids, payout)
    requires n.st.env.params.originalTarget <= n.st.env.params.maxTarget && CountFits(n.st, ids)
    requires n.st.env.params.Verified() && Solved(n, ids, payout, b, now)
    ensures n2.st.env == n.st.env && BlockOk(n2.st, b, now) && NewBlockRecord(n2.st, b).Some?
  {
    BodyReady(n, n2, ids, payout);
    hide ChainOk, Offered, Buildable, BodyOk, Grown, AfterMedian, NextTarget, TargetOk, TxIdsUnder, AllIds, RootOver,
      Coinbase, LastInPeriodOk, NotFromFuture;
    SameEnv(n, n2);
    TargetReady(n, n2.st);
    RootSize(n2, b.merkleRoot);
    HeadKnown(n);
    LastingParts(n2.st, b, AllIds(n, ids, payout));
    SameTimes(n.st, n2.st, b);
    GuardNeverFires(n2.st, b);
  }

  lemma HeadKnown(n: Node)
    requires NodeOk(n)
    ensures n.head in n.st.blocks
  {
  }

  lemma TargetReady(n: Node, st: Store)
    requires NodeOk(n) && st.env == n.st.env && st.blocks == n.st.blocks
    requires n.st.env.params.originalTarget <= n.st.env.params.maxTarget
    requires n.st.env.params.Verified() && NextTarget(n.st, n.head).Some?
    ensures TargetOk(st, n.head, NextTarget(n.st, n.head).value)
  {
    hide WellFormed, ValidChain, ChainTxs, NextTarget;
    NextTargetOk(n.st, n.head);
  }

  lemma LastingParts(st: Store, b: Block, ids: seq<HashT>)
    requires st.env.params.Verified()
    requires st.env.hashes.BlockId(b) < b.target
    requires b.merkleRoot in st.merkles && st.merkles[b.merkleRoot].vSize <= st.env.params.maxBlockVSize
    requires b.prevBlockId in st.blocks && TargetOk(st, b.prevBlockId, b.target)
    requires TxIdsUnder(st, b.merkleRoot) == ids && BodyOk(st, ids, HeightOf(st, b.prevBlockId) + 1)
    ensures LastingOk(st, b)
  {
    hide BodyOk, TargetOk, TxIdsUnder;
  }

  lemma SameEnv(n: Node, n': Node)
    requires Grown(n, n')
    ensures n'.st.env == n.st.env && n'.head == n.head
  {
  }

  lemma RootSize(n: Node, root: HashT)
    requires NodeOk(n) && root in n.st.merkles
    ensures n.st.merkles[root].vSize <= n.st.env.params.maxBlockVSize
    ensures Grounded(n.st, root, MaxDepth(n.st))
  {
    assert MerkleRecordOk(n.st, root);
  }

  /** A block with this id may be known already: then it is the same one up to its mined time. */
  ghost predicate BlockClear(st: Store, b: Block) {
    var id := st.env.hashes.BlockId(b);
    id in st.blocks ==> st.blocks[id].block.(minedTime := b.minedTime) == b
  }

  lemma KnownBlockIn(st: Store, b: Block)
    requires WellFormed(st) && BlockClear(st, b)
    requires st.env.hashes.BlockId(b) in st.blocks && st.env.hashes.BlockId(b) != 0
    ensures BlockIn(st, b.prevBlockId, st.env.hashes.BlockId(b), TxIdsUnder(st, b.merkleRoot))
  {
    var id := st.env.hashes.BlockId(b);
    WellFormedTree(st);
    assert BlockRecordOk(st, id);
    var known := st.blocks[id].block;
    assert st.env.hashes.BlockId(known) == id;
  }

  lemma NewBlockIn(st: Store, b: Block, now: Uint64)
    requires WellFormed(st) && StoreBlockOutcome(st, b, now) == Ok && st.env.hashes.BlockId(b) != 0
    ensures BlockIn(PutBlock(st, b), b.prevBlockId, st.env.hashes.BlockId(b), TxIdsUnder(st, b.merkleRoot))
    ensures WellFormed(PutBlock(st, b)) && Extends(st, PutBlock(st, b))
  {
    hide WellFormed, StoreBlockOutcome, TxIdsUnder, Grounded, LastingOk;
    WellFormedEnv(st);
    StorableParts(st, b, now);
    PutBlockWellFormed(st, b, now);
    var st', id := PutBlock(st, b), st.env.hashes.BlockId(b);
    WellFormedTree(st');
    WellFormedSeparate(st');
    WellFormedParts(st);
    TxIdsUnderStable(st, st', b.merkleRoot);
    assert st'.blocks[id].block == b;
  }

  lemma BlockStored(n: Node, n2: Node, ids: seq<HashT>, payout: HashT, b: Block, now: Uint64)
    requires NodeOk(n) && Offered(n, ids) && Buildable(n, ids, payout) && Prepared(n, n2, ids, payout)
    requires n.st.env.params.originalTarget <= n.st.env.params.maxTarget && BlockClear(n.st, b)
    requires n.st.env.params.Verified() && Solved(n, ids, payout, b, now)
    ensures n2.st.env == n.st.env
    ensures var (st3, r) := AddBlocks(n2.st, [b], now);
      && (r == Ok <==> CountFits(n.st, ids))
      && (r == Ok ==>
            && WellFormed(st3) && Extends(n2.st, st3) && st3.txs == n2.st.txs
            && BlockIn(st3, n.head, n.st.env.hashes.BlockId(b), AllIds(n, ids, payout)))
  {
    if CountFits(n.st, ids) {
      SolvedStorable(n, n2, ids, payout, b, now);
    }
    hide *;
    PreparedEnv(n, n2, ids, payout);
    SolvedParts(n, ids, payout, b, now);
    PreparedParts(n, n2, ids, payout);
    StillClear(n, n2, b);
    OneBlock(n2.st, b, now);
    var id, c := n.st.env.hashes.BlockId(b), n.st.env.hashes.tx(Coinbase(n.st, n.head, ids, payout));
    if id in n2.st.blocks {
      KnownBlockIn(n2.st, b);
      ExtendsReflexive(n2.st);
      StoredCount(n2.st, n.head, id, ids, c);
    } else {
      if CountFits(n.st, ids) {
        StorableOutcome(n2.st, b, now);
      }
      if StoreBlockOutcome(n2.st, b, now) == Ok {
        NewBlockIn(n2.st, b, now);
        StoredCount(PutBlock(n2.st, b), n.head, id, ids, c);
      }
    }
  }

  /** A stored block has no more transactions than it may. */
  lemma StoredCount(st: Store, head: HashT, id: HashT, ids: seq<HashT>, c: HashT)
    requires WellFormed(st) && BlockIn(st, head, id, [c] + ids)
    ensures CountFits(st, ids)
  {
    hide LevelOrder, Grounded, BlockMaxTxs;
    assert BlockRecordOk(st, id);
  }

  lemma PreparedEnv(n: Node, n2: Node, ids: seq<HashT>, payout: HashT)
    requires Prepared(n, n2, ids, payout)
    ensures n2.st.env == n.st.env && CountFits(n2.st, ids) == CountFits(n.st, ids)
    ensures AllIds(n, ids, payout) == [n.st.env.hashes.tx(Coinbase(n.st, n.head, ids, payout))] + ids
    ensures forall b :: PutBlock(n2.st, b).env == n.st.env
    ensures forall b :: CountFits(PutBlock(n2.st, b), ids) == CountFits(n.st, ids)
  {
    hide WellFormed, ChainOk, TxIdsUnder, RootOver, BlockMaxTxs, Coinbase, WorkOf, HeightOf;
  }

  lemma SolvedParts(n: Node, ids: seq<HashT>, payout: HashT, b: Block, now: Uint64)
    requires n.st.env.params.Verified() && Solved(n, ids, payout, b, now)
    ensures b.prevBlockId == n.head && b.merkleRoot == RootOver(n, ids, payout)
    ensures n.st.env.hashes.BlockId(b) != 0
  {
  }

  lemma StillClear(n: Node, n2: Node, b: Block)
    requires BlockClear(n.st, b) && n2.st.env == n.st.env && n2.st.blocks == n.st.blocks
    ensures BlockClear(n2.st, b)
  {
  }

  lemma PreparedParts(n: Node, n2: Node, ids: seq<HashT>, payout: HashT)
    requires Prepared(n, n2, ids, payout)
    ensures n2.st.blocks == n.st.blocks
    ensures WellFormed(n2.st) && TxIdsUnder(n2.st, RootOver(n, ids, payout)) == AllIds(n, ids, payout)
  {
  }

  lemma OneBlock(st: Store, b: Block, now: Uint64)
    requires st.env.params.Verified()
    ensures st.env.hashes.BlockId(b) in st.blocks ==> AddBlocks(st, [b], now) == (st, Ok)
    ensures st.env.hashes.BlockId(b) !in st.blocks ==>
      AddBlocks(st, [b], now) == (var r := StoreBlockOutcome(st, b, now); (if r == Ok then PutBlock(st, b) else st, r))
    ensures PutBlock(st, b).txs == st.txs
  {
    hide StoreBlockOutcome;
    assert [b][1..] == [];
  }

  lemma StorableOutcome(st: Store, b: Block, now: Uint64)
    requires st.env.params.Verified() && BlockOk(st, b, now) && NewBlockRecord(st, b).Some?
    ensures st.env.hashes.BlockId(b) !in st.blocks ==> StoreBlockOutcome(st, b, now) == Ok
  {
  }

  // ---- Advancing to it ----

  lemma {:induction false} PicksFit(n: Node, c: HashT, ids: seq<HashT>)
    requires NodeOk(n) && NoDup([c] + ids) && c in n.mempool && TxOf(n.st, c).inputs == []
    requires PairwiseDisjoint(n.st, ids)
    requires forall i :: 0 <= i < |ids| ==> Offerable(n, ids[i]) && NoDup(ConsumedUtxos(TxOf(n.st, ids[i])))
    ensures FitsAll(n.st, ChainTxs(n.st, n.head), [c] + ids)
    decreases |ids|
  {
    hide WellFormed, ValidChain, ChainTxs;
    var before := ChainTxs(n.st, n.head);
    if ids == [] {
      assert [c] + ids == [c] && [c][..0] == [] && before + [] == before;
      assert ConsumedUtxos(TxOf(n.st, c)) == [];
    } else {
      var front, t := ids[..|ids| - 1], ids[|ids| - 1];
      assert ([c] + ids)[..|ids|] == [c] + front;
      NoDupAppend([c] + front, [t]);
      assert [c] + ids == [c] + front + [t];
      PicksFit(n, c, front);
      NextPickFits(n, c, front, t);
    }
  }

  lemma NextPickFits(n: Node, c: HashT, front: seq<HashT>, t: HashT)
    requires NodeOk(n) && NoDup([c] + front + [t]) && TxOf(n.st, c).inputs == []
    requires Offerable(n, t) && NoDup(ConsumedUtxos(TxOf(n.st, t)))
    requires PairwiseDisjoint(n.st, front + [t])
    ensures Fits(n.st, ChainTxs(n.st, n.head) + ([c] + front), t)
  {
    hide WellFormed, ValidChain, ChainTxs, PairwiseDisjoint;
    var before := ChainTxs(n.st, n.head);
    NoDupAppend([c] + front, [t]);
    assert t in ToSet([t]) && t !in ToSet([c] + front);
    CreatedConcat(n.st, before, [c] + front);
    CreatedConcat(n.st, [c], front);
    CreatedOne(n.st, c);
    assert ConsumedUtxos(TxOf(n.st, c)) == [];
    SpentApart(n.st, front, t);
  }

  lemma SpentApart(st: Store, front: seq<HashT>, t: HashT)
    requires PairwiseDisjoint(st, front + [t])
    ensures Spent(st, front) !! Ins(st, t)
  {
    forall i | 0 <= i < |front| ensures Ins(st, front[i]) !! Ins(st, t) {
      assert (front + [t])[i] == front[i] && (front + [t])[|front|] == t;
    }
  }

  lemma {:induction false} FitsSpendOnce(st: Store, before: seq<HashT>, ids: seq<HashT>)
    requires FitsAll(st, before, ids)
    ensures SpendsOnce(st, ids)
    decreases |ids|
  {
    hide NoDup, Unspent;
    if ids != [] {
      var front := ids[..|ids| - 1];
      FitsSpendOnce(st, before, front);
      assert forall i :: 0 <= i < |front| ==> front[i] == ids[i];
    }
  }

  /** A block whose picks name an output twice cannot follow its parent. */
  lemma RepeatRefused(n: Node, ids: seq<HashT>, c: HashT, id: HashT)
    requires BlockIn(n.st, n.head, id, [c] + ids) && Verdict(n, id, false) == Ok
    ensures SpendsOnce(n.st, ids)
  {
    hide FitsAll, NoDup, Unspent, BlockTxs, ChainTxs;
    FitsSpendOnce(n.st, ChainTxs(n.st, n.head), [c] + ids);
    assert forall i :: 0 <= i < |ids| ==> ids[i] == ([c] + ids)[i + 1];
  }

  /** The new chain is valid, and all of it is at hand. */
  lemma NewChainValid(n: Node, ids: seq<HashT>, c: HashT, id: HashT)
    requires NodeOk(n) && Offered(n, ids) && NoDup([c] + ids) && SpendsOnce(n.st, ids)
    requires c in n.mempool && TxOf(n.st, c).inputs == [] && TxOf(n.st, c).minBlock <= HeightOf(n.st, n.head) + 1
    requires BlockIn(n.st, n.head, id, [c] + ids)
    ensures Verdict(n, id, false) == Ok
  {
    hide WellFormed, FitsAll, NoDup, Unspent;
    PicksFit(n, c, ids);
    forall i | 0 <= i < |[c] + ids|
      ensures TxOf(n.st, ([c] + ids)[i]).minBlock <= HeightOf(n.st, id) && ([c] + ids)[i] in n.mempool
    {
      if i > 0 {
        assert ([c] + ids)[i] == ids[i - 1] && Offerable(n, ids[i - 1]);
      }
    }
    assert ValidChain(n.st, id);
    assert ChainTxs(n.st, id) == ChainTxs(n.st, n.head) + ([c] + ids);
    NotStuck(n.st, n.head, id);
  }

  lemma NotStuck(st: Store, head: HashT, id: HashT)
    requires Linked(st, id) && Parent(st, id) == head
    ensures !Stuck(st, head, id)
  {
    hide InBlockSpend;
    assert Ancestor(st, head, id);
  }

  /** A published solution over offered picks is taken up if and only if they are mineable. */
  lemma MinedBlockAccepted(n: Node, ids: seq<HashT>, payout: HashT, b: Block, now: Uint64)
    requires NodeOk(n) && n.st.env.params.Verified() && BlockClear(n.st, b)
    requires n.st.env.params.originalTarget <= n.st.env.params.maxTarget
    requires Offered(n, ids) && Buildable(n, ids, payout) && Solved(n, ids, payout, b, now)
    ensures var h, cb := n.st.env.hashes, Coinbase(n.st, n.head, ids, payout);
            var ev := Solution(h, b, TreeNodes(h, AllIds(n, ids, payout)), cb);
            var (n', r) := HandleHead(n, ev, now);
      && (r == Ok <==> Mineable(n.st, ids))
      && (r == Ok ==> n'.head == h.BlockId(b) && BlockTxs(n'.st, n'.head) == AllIds(n, ids, payout))
  {
    hide WellFormed, ChainOk, Offered, Solved, BlockClear, Coinbase, TreeNodes, AddTxs, AddMerkles, AddBlocks,
      NodesClear, RootOver, Grown, BlockTxs, CoinbaseFine, CountFits, SpendsOnce;
    var h, cb, all := n.st.env.hashes, Coinbase(n.st, n.head, ids, payout), AllIds(n, ids, payout);
    var id := h.BlockId(b);
    CoinbaseStored(n, ids, payout);
    if CoinbaseFine(n.st, ids) {
      var n1 := AddTxs(n, [cb]).0;
      TreeStored(n, n1, ids, payout);
      var st2 := AddMerkles(n1.st, TreeNodes(h, all)).0;
      var n2 := n1.(st := st2);
      BlockStored(n, n2, ids, payout, b, now);
      if CountFits(n.st, ids) {
        LastStep(n, n2, AddBlocks(st2, [b], now).0, ids, payout, id);
      }
    }
  }

  lemma LastStep(n: Node, n2: Node, st3: Store, ids: seq<HashT>, payout: HashT, id: HashT)
    requires NodeOk(n) && Offered(n, ids) && Buildable(n, ids, payout) && Prepared(n, n2, ids, payout)
    requires WellFormed(st3) && Extends(n2.st, st3) && st3.txs == n2.st.txs
    requires BlockIn(st3, n.head, id, AllIds(n, ids, payout))
    ensures Verdict(n2.(st := st3), id, false) == Ok <==> SpendsOnce(n.st, ids)
  {
    hide WellFormed, ValidChain, ChainTxs, Unspent, RootOver, BlockIn, Verdict, Offerable, NoDup;
    var n3, all, cb := n2.(st := st3), AllIds(n, ids, payout), Coinbase(n.st, n.head, ids, payout);
    SameChain(n2, st3);
    ExtendsTransitive(n.st, n2.st, st3);
    OfferStays(n, n3, ids);
    CoinbaseApart(n, n3, ids, payout);
    assert HeightOf(st3, n.head) == HeightOf(n.st, n.head);
    assert SpendsOnce(st3, ids) <==> SpendsOnce(n.st, ids);
    if SpendsOnce(st3, ids) {
      NewChainValid(n3, ids, all[0], id);
    } else if Verdict(n3, id, false) == Ok {
      RepeatRefused(n3, ids, all[0], id);
    }
  }

  // ---- A template outlives what the node learns meanwhile ----

  lemma {:induction false} AncestorAtStable(st: Store, st': Store, id: HashT, depth: nat)
    requires Tree(st) && Extends(st, st') && id in st.blocks
    ensures AncestorAt(st', id, depth) == AncestorAt(st, id, depth) && AncestorAt(st, id, depth) in st.blocks
    decreases depth
  {
    if depth > 0 && id != 0 {
      assert Linked(st, id);
      AncestorAtStable(st, st', Parent(st, id), depth - 1);
    }
  }

  lemma NextTargetStable(st: Store, st': Store, head: HashT)
    requires Tree(st) && Extends(st, st') && head in st.blocks && st.env.params.Verified()
    ensures NextTarget(st', head) == NextTarget(st, head)
  {
    hide Tree, Ideal, DesiredTime, EndsPeriod, Measured, Clamp;
    AncestorAtStable(st, st', head, Measured(st.env.params.difficultyPeriod, HeightOf(st, head)));
  }

  /** While the head stays, whatever else arrives, the same coinbase, tree and target are right. */
  lemma TemplateLasts(n: Node, n': Node, ids: seq<HashT>, payout: HashT)
    requires NodeOk(n) && NodeOk(n') && Grown(n, n') && Offered(n, ids)
    requires n.st.env.params.Verified()
    ensures Offered(n', ids)
    ensures Coinbase(n'.st, n'.head, ids, payout) == Coinbase(n.st, n.head, ids, payout)
    ensures RootOver(n', ids, payout) == RootOver(n, ids, payout)
    ensures NextTarget(n'.st, n'.head) == NextTarget(n.st, n.head)
  {
    hide *;
    HeadStays(n, n');
    OfferStays(n, n', ids);
    FeesSame(n.st, n'.st, ids);
    SameTemplate(n, n', ids, payout);
    NextTargetStable(n.st, n'.st, n.head);
  }

  lemma HeadStays(n: Node, n': Node)
    requires NodeOk(n) && Grown(n, n')
    ensures n'.head == n.head && n'.st.env == n.st.env && n.head in n.st.blocks
    ensures HeightOf(n'.st, n.head) == HeightOf(n.st, n.head)
    ensures Tree(n.st) && Extends(n.st, n'.st)
  {
    WellFormedTree(n.st);
  }

  lemma SameTemplate(n: Node, n': Node, ids: seq<HashT>, payout: HashT)
    requires n'.head == n.head && n'.st.env == n.st.env && HeightOf(n'.st, n.head) == HeightOf(n.st, n.head)
    requires Fees(n'.st, ids) == Fees(n.st, ids)
    ensures Coinbase(n'.st, n'.head, ids, payout) == Coinbase(n.st, n.head, ids, payout)
    ensures RootOver(n', ids, payout) == RootOver(n, ids, payout)
  {
    hide Fees, TreeNodes, HeightOf;
  }
}
