/** The consensus rules that guard the inventory, and the well-formedness they keep. */
module Rules {
  import opened Core
  import opened Forest
  import opened Target

  const ZERO_BLOCK: Block := Block(0, 0, 0, 0, 0, 0)

  // ---- The block tree ----

  function BlockOf(st: Store, id: HashT): Block {
    if id in st.blocks then st.blocks[id].block else ZERO_BLOCK
  }

  function HeightOf(st: Store, id: HashT): nat {
    if id in st.blocks then st.blocks[id].height else 0
  }

  function WorkOf(st: Store, id: HashT): HashT {
    if id in st.blocks then st.blocks[id].totalWork else 0
  }

  function Parent(st: Store, id: HashT): HashT { BlockOf(st, id).prevBlockId }

  /** A block other than the zero block, stored one above its stored parent. */
  predicate Linked(st: Store, id: HashT) {
    && id != 0 && id in st.blocks && Parent(st, id) in st.blocks
    && HeightOf(st, id) == HeightOf(st, Parent(st, id)) + 1
  }

  /** Up to `maxLen` ancestors, nearest first, ending with the zero block if it is reached. */
  function AncestorList(st: Store, id: HashT, maxLen: nat): seq<HashT>
    decreases maxLen
  {
    if maxLen == 0 || id == 0 then []
    else [Parent(st, id)] + AncestorList(st, Parent(st, id), maxLen - 1)
  }

  /** The block `depth` hops up, or the zero block if the chain starts first. */
  function AncestorAt(st: Store, id: HashT, depth: nat): HashT
    decreases depth
  {
    if depth == 0 || id == 0 then id else AncestorAt(st, Parent(st, id), depth - 1)
  }

  // ---- Transactions ----

  predicate TxIsolatedOk(env: Env, tx: Tx) {
    && (forall i :: 0 <= i < |tx.inputs| ==> SignatureOk(env, tx, i))
    && VSize(tx) <= env.params.maxTxVSize
    && if tx.isCoinbase then
         tx.inputs == [] && |tx.outputs| == 1 && env.params.blockReward <= OutputsValue(tx)
       else
         HasSurplus(tx)
  }

  predicate SignatureOk(env: Env, tx: Tx, i: nat)
    requires i < |tx.inputs|
  {
    env.hashes.validSig(tx.inputs[i].publicKey, env.hashes.preSig(tx.minBlock, tx.outputs), tx.inputs[i].signature)
  }

  /** The input names a stored output, states its value and shows the key it pays. */
  predicate OriginOk(st: Store, txi: TxIn) {
    && HasTxOut(st, txi.utxo.txId, txi.utxo.ind)
    && var origin := TxOutAt(st, txi.utxo.txId, txi.utxo.ind);
       st.env.hashes.bytes(txi.publicKey) == origin.publicKeyHash && txi.utxo.value == origin.value
  }

  predicate TxOk(st: Store, tx: Tx) {
    && TxIsolatedOk(st.env, tx)
    && forall i :: 0 <= i < |tx.inputs| ==> OriginOk(st, tx.inputs[i])
  }

  // ---- Merkle nodes ----

  predicate MerkleOk(st: Store, node: MerkleNode) {
    && HasEntity(st, node.lChild)
    && HasEntity(st, node.rChild)
    && (node.lChild != node.rChild ==>
          ToSet(TxIdsUnder(st, node.lChild)) !! ToSet(TxIdsUnder(st, node.rChild)))
    && MerkleTotal(st, node) <= st.env.params.maxBlockVSize
  }

  function MerkleTotal(st: Store, node: MerkleNode): nat {
    EntityVSize(st, node.lChild) + if node.lChild == node.rChild then 0 else EntityVSize(st, node.rChild)
  }

  // ---- Blocks ----

  function TotalIn(st: Store, ids: seq<HashT>): nat {
    if ids == [] then 0 else TotalIn(st, ids[..|ids| - 1]) + SumIn(TxOf(st, ids[|ids| - 1]).inputs)
  }

  function TotalOut(st: Store, ids: seq<HashT>): nat {
    if ids == [] then 0 else TotalOut(st, ids[..|ids| - 1]) + SumOut(TxOf(st, ids[|ids| - 1]).outputs)
  }

  /** What a block of this height may hold: its coinbase first and nowhere else, and inputs plus
      the reward matching outputs in 64-bit arithmetic. */
  predicate BodyOk(st: Store, ids: seq<HashT>, height: nat) {
    && 0 < |ids| <= BlockMaxTxs(st.env.params)
    && TxOf(st, ids[0]).minBlock == height
    && (forall i :: 0 <= i < |ids| ==> (TxOf(st, ids[i]).isCoinbase <==> i == 0))
    && (st.env.params.blockReward + TotalIn(st, ids)) % TWO_64 == TotalOut(st, ids) % TWO_64
  }

  predicate TargetOk(st: Store, prev: HashT, target: HashT)
    requires st.env.params.Verified()
  {
    var p := st.env.params;
    if prev == 0 then target == p.originalTarget
    else
      var prevTarget := BlockOf(st, prev).target;
      if (HeightOf(st, prev) + 1) % p.difficultyPeriod == 0 then
        MinNextTarget(prevTarget) <= target <= MaxNextTarget(p, prevTarget)
      else target == prevTarget
  }

  // ---- Mined times ----

  function InsertTime(t: Uint64, s: seq<Uint64>): seq<Uint64> {
    if s == [] || t <= s[0] then [t] + s else [s[0]] + InsertTime(t, s[1..])
  }

  function SortTimes(s: seq<Uint64>): seq<Uint64> {
    if s == [] then [] else InsertTime(s[0], SortTimes(s[1..]))
  }

  predicate Ascending(s: seq<Uint64>) { forall i, j :: 0 <= i < j < |s| ==> s[i] <= s[j] }

  lemma {:induction false} InsertTimeKeeps(t: Uint64, s: seq<Uint64>)
    ensures multiset(InsertTime(t, s)) == multiset(s) + multiset{t}
  {
    if s == [] || t <= s[0] {
    } else {
      InsertTimeKeeps(t, s[1..]);
      assert s == [s[0]] + s[1..];
    }
  }

  lemma {:induction false} InsertTimeSorted(t: Uint64, s: seq<Uint64>)
    requires Ascending(s)
    ensures Ascending(InsertTime(t, s))
  {
    if s == [] || t <= s[0] {
    } else {
      var rest := InsertTime(t, s[1..]);
      InsertTimeSorted(t, s[1..]);
      InsertTimeKeeps(t, s[1..]);
      forall k | 0 <= k < |rest| ensures s[0] <= rest[k] {
        assert rest[k] in multiset(rest);
        assert rest[k] == t || rest[k] in s[1..];
      }
    }
  }

  lemma {:induction false} SortTimesSorts(s: seq<Uint64>)
    ensures multiset(SortTimes(s)) == multiset(s) && |SortTimes(s)| == |s|
    ensures Ascending(SortTimes(s))
  {
    if s != [] {
      SortTimesSorts(s[1..]);
      InsertTimeKeeps(s[0], SortTimes(s[1..]));
      InsertTimeSorted(s[0], SortTimes(s[1..]));
      assert s == [s[0]] + s[1..];
      assert |multiset(SortTimes(s))| == |SortTimes(s)|;
    }
  }

  /** The middle time; the average of the two middle times wraps like any 64-bit sum. */
  function Median(times: seq<Uint64>): Uint64
    requires times != []
  {
    SortTimesSorts(times);
    var s, n := SortTimes(times), |times|;
    if n % 2 == 0 then ((s[n / 2 - 1] + s[n / 2]) % TWO_64) / 2 else s[(n - 1) / 2]
  }

  /** There is one way to put numbers in order. */
  lemma {:induction false} OneOrder(s: seq<Uint64>, s': seq<Uint64>)
    requires multiset(s) == multiset(s') && Ascending(s) && Ascending(s')
    ensures s == s'
    decreases |s|
  {
    hide Ascending;
    SameSize(s, s');
    if s != [] {
      SameFirst(s, s');
      OneOrder(s[1..], s'[1..]);
      assert s == [s[0]] + s[1..] && s' == [s'[0]] + s'[1..];
    }
  }

  lemma SameSize(s: seq<Uint64>, s': seq<Uint64>)
    requires multiset(s) == multiset(s')
    ensures |s| == |s'|
  {
    assert |multiset(s)| == |s| && |multiset(s')| == |s'|;
  }

  lemma SameFirst(s: seq<Uint64>, s': seq<Uint64>)
    requires s != [] && s' != [] && multiset(s) == multiset(s') && Ascending(s) && Ascending(s')
    ensures s[0] == s'[0] && Ascending(s[1..]) && Ascending(s'[1..]) && multiset(s[1..]) == multiset(s'[1..])
  {
    hide Ascending;
    FirstLeast(s, s'[0]);
    FirstLeast(s', s[0]);
  }

  lemma FirstLeast(s: seq<Uint64>, t: Uint64)
    requires s != [] && Ascending(s)
    ensures Ascending(s[1..]) && (t in multiset(s) ==> s[0] <= t)
    ensures s[0] in multiset(s) && multiset(s[1..]) == multiset(s) - multiset{s[0]}
  {
    assert s == [s[0]] + s[1..];
    if t in multiset(s) {
      var i :| 0 <= i < |s| && s[i] == t;
    }
  }

  /** However the times are put in order: the one in the middle, or half the sum of the two. */
  lemma MedianExact(times: seq<Uint64>, s: seq<Uint64>)
    requires times != [] && multiset(s) == multiset(times) && Ascending(s)
    ensures |s| == |times|
    ensures |s| % 2 == 1 ==> Median(times) == s[|s| / 2]
    ensures |s| % 2 == 0 ==>
      var sum: int := s[|s| / 2 - 1] as int + s[|s| / 2];
      var sum': int := if sum < TWO_64 then sum else sum - TWO_64;
      2 * Median(times) <= sum' <= 2 * Median(times) + 1
  {
    SortTimesSorts(times);
    OneOrder(s, SortTimes(times));
  }

  /** The parent and up to four blocks before it, without the zero block. */
  function RecentBlocks(st: Store, prev: HashT): (r: seq<HashT>)
    requires prev != 0
    ensures r != []
  {
    var ids := [prev] + AncestorList(st, prev, 4);
    if ids[|ids| - 1] == 0 then
      assert ids[0] != 0;
      ids[..|ids| - 1]
    else ids
  }

  function TimesOf(st: Store, ids: seq<HashT>): seq<Uint64> {
    seq(|ids|, i requires 0 <= i < |ids| => BlockOf(st, ids[i]).minedTime)
  }

  predicate AfterMedian(st: Store, b: Block) {
    b.prevBlockId != 0 ==> Median(TimesOf(st, RecentBlocks(st, b.prevBlockId))) < b.minedTime
  }

  /** The rule meant for the last block of a period.  Its guard reads `height + 1 % period`,
      which Go parses as `height + (1 % period)`: that is never zero. */
  predicate LastInPeriodOk(st: Store, b: Block)
    requires st.env.params.Verified()
  {
    var period := st.env.params.difficultyPeriod;
    var height := HeightOf(st, b.prevBlockId) + 1;
    var hops := if height + 1 == period then period - 3 else period - 2;
    var first := BlockOf(st, AncestorAt(st, b.prevBlockId, hops));
    height + (1 % period) == 0 ==> first.minedTime < b.minedTime
  }

  predicate NotFromFuture(b: Block, now: Uint64) { b.minedTime <= (now + 3600) % TWO_64 }

  predicate TimesOk(st: Store, b: Block, now: Uint64)
    requires st.env.params.Verified()
  {
    AfterMedian(st, b) && LastInPeriodOk(st, b) && NotFromFuture(b, now)
  }

  /** In full: above the median, and at most an hour ahead of a clock that wraps. */
  lemma TimesOkExact(st: Store, b: Block, now: Uint64)
    requires st.env.params.Verified()
    ensures TimesOk(st, b, now) <==>
      && (b.prevBlockId != 0 ==> Median(TimesOf(st, RecentBlocks(st, b.prevBlockId))) < b.minedTime)
      && b.minedTime <= if now + 3600 < TWO_64 then now + 3600 else now + 3600 - TWO_64
  {
    hide Median, TimesOf, RecentBlocks;
  }

  /** The rules on a block that do not mention time, and so never lapse. */
  predicate LastingOk(st: Store, b: Block)
    requires st.env.params.Verified()
  {
    LastingOkWith(st, b, TxIdsUnder(st, b.merkleRoot))
  }

  predicate LastingOkWith(st: Store, b: Block, ids: seq<HashT>)
    requires st.env.params.Verified()
  {
    && st.env.hashes.BlockId(b) < b.target
    && b.merkleRoot in st.merkles
    && b.prevBlockId in st.blocks
    && BodyOk(st, ids, HeightOf(st, b.prevBlockId) + 1)
    && st.merkles[b.merkleRoot].vSize <= st.env.params.maxBlockVSize
    && TargetOk(st, b.prevBlockId, b.target)
  }

  predicate BlockOk(st: Store, b: Block, now: Uint64)
    requires st.env.params.Verified()
  {
    LastingOk(st, b) && TimesOk(st, b, now)
  }

  // ---- What every inventory keeps ----

  predicate TxRecordOk(st: Store, id: HashT) {
    && id in st.txs
    && var r := st.txs[id];
       st.env.hashes.tx(r.tx) == id && r.vSize == VSize(r.tx) && TxOk(st, r.tx)
  }

  predicate MerkleRecordOk(st: Store, id: HashT) {
    && id in st.merkles
    && var r := st.merkles[id];
       && st.env.hashes.merkle(r.merkle) == id
       && Grounded(st, id, MaxDepth(st))
       && NoDup(TxIdsUnder(st, id))
       && r.vSize == TotalVSize(st, TxIdsUnder(st, id)) <= st.env.params.maxBlockVSize
  }

  predicate BlockRecordOk(st: Store, id: HashT)
    requires st.env.params.Verified()
  {
    && id in st.blocks
    && var r := st.blocks[id];
       if id == 0 then r == BlockRecord(ZERO_BLOCK, 0, 0)
       else
         && Linked(st, id)
         && st.env.hashes.BlockId(r.block) == id
         && LastingOk(st, r.block) && AfterMedian(st, r.block)
         && r.totalWork == WorkOf(st, Parent(st, id)) + TargetToWork(r.block.target)
  }

  ghost predicate WellFormed(st: Store) {
    && st.env.Ok()
    && 0 in st.blocks
    && (forall id :: id in st.txs ==> TxRecordOk(st, id))
    && (forall id :: id in st.merkles ==> MerkleRecordOk(st, id))
    && (forall id :: id in st.blocks ==> BlockRecordOk(st, id))
  }

  function EmptyStore(env: Env): Store {
    Store(env, map[0 := BlockRecord(ZERO_BLOCK, 0, 0)], map[], map[])
  }

  // ---- Storing ----

  predicate CanStoreTx(st: Store, tx: Tx) {
    st.env.hashes.tx(tx) !in st.txs && TxOk(st, tx)
  }

  function PutTx(st: Store, tx: Tx): Store {
    st.(txs := st.txs[st.env.hashes.tx(tx) := TxRecord(tx, VSize(tx))])
  }

  predicate CanStoreMerkle(st: Store, node: MerkleNode) {
    st.env.hashes.merkle(node) !in st.merkles && MerkleOk(st, node)
  }

  function PutMerkle(st: Store, node: MerkleNode): Store {
    st.(merkles := st.merkles[st.env.hashes.merkle(node) := MerkleRecord(node, MerkleTotal(st, node))])
  }

  /** The record of a new block; none when its total work leaves 256 bits, where the program panics. */
  function NewBlockRecord(st: Store, b: Block): Option<BlockRecord> {
    if b.target == 0 then None
    else
      var work := WorkOf(st, b.prevBlockId) + TargetToWork(b.target);
      if work < TWO_256 then Some(BlockRecord(b, HeightOf(st, b.prevBlockId) + 1, work)) else None
  }

  function StoreBlockOutcome(st: Store, b: Block, now: Uint64): Outcome
    requires st.env.params.Verified()
  {
    if st.env.hashes.BlockId(b) in st.blocks || !BlockOk(st, b, now) then Err
    else if NewBlockRecord(st, b).None? then Panic
    else Ok
  }

  function PutBlock(st: Store, b: Block): Store {
    match NewBlockRecord(st, b)
    case Some(r) => st.(blocks := st.blocks[st.env.hashes.BlockId(b) := r])
    case None => st
  }

  // ---- Growth keeps every rule ----

  lemma WellFormedSeparate(st: Store)
    requires WellFormed(st)
    ensures Separate(st)
  {
    forall id, id' | id in st.txs && id' in st.merkles ensures id != id' {
      assert TxRecordOk(st, id) && MerkleRecordOk(st, id');
    }
  }

  lemma {:induction false} TotalsStable(st: Store, st': Store, ids: seq<HashT>)
    requires Extends(st, st')
    requires forall i :: 0 <= i < |ids| ==> ids[i] in st.txs
    ensures TotalIn(st', ids) == TotalIn(st, ids)
    ensures TotalOut(st', ids) == TotalOut(st, ids)
    ensures TotalVSize(st', ids) == TotalVSize(st, ids)
    decreases |ids|
  {
    if ids != [] {
      var front, rest := ids[..|ids| - 1], ids[1..];
      TotalsStable(st, st', front);
      VSizeStable(st, st', ids);
    }
  }

  lemma {:induction false} VSizeStable(st: Store, st': Store, ids: seq<HashT>)
    requires Extends(st, st')
    requires forall i :: 0 <= i < |ids| ==> ids[i] in st.txs
    ensures TotalVSize(st', ids) == TotalVSize(st, ids)
    decreases |ids|
  {
    if ids != [] {
      VSizeStable(st, st', ids[1..]);
    }
  }

  /** The list of transactions under a stored node never changes. */
  lemma TxIdsUnderStable(st: Store, st': Store, root: HashT)
    requires Extends(st, st') && Separate(st') && |st.merkles| <= |st'.merkles|
    requires Grounded(st, root, MaxDepth(st))
    ensures TxIdsUnder(st', root) == TxIdsUnder(st, root)
    ensures Grounded(st', root, MaxDepth(st'))
    ensures forall i :: 0 <= i < |TxIdsUnder(st, root)| ==> TxIdsUnder(st, root)[i] in st.txs
  {
    GroundedMonotone(st, st', root, MaxDepth(st), MaxDepth(st'));
    LevelOrderStable(st, st', [root], MaxDepth(st), MaxDepth(st'));
    LevelOrderMembers(st, [root], MaxDepth(st));
  }

  lemma TxRecordStable(st: Store, st': Store, id: HashT)
    requires TxRecordOk(st, id) && Extends(st, st')
    ensures TxRecordOk(st', id)
  {
    var tx := st.txs[id].tx;
    forall i | 0 <= i < |tx.inputs| ensures OriginOk(st', tx.inputs[i]) {
      assert OriginOk(st, tx.inputs[i]);
    }
  }

  lemma MerkleRecordStable(st: Store, st': Store, id: HashT)
    requires Extends(st, st') && Separate(st') && |st.merkles| <= |st'.merkles|
    requires MerkleRecordOk(st, id)
    ensures MerkleRecordOk(st', id)
  {
    TxIdsUnderStable(st, st', id);
    VSizeStable(st, st', TxIdsUnder(st, id));
  }

  lemma BodyStable(st: Store, st': Store, ids: seq<HashT>, height: nat)
    requires Extends(st, st')
    requires forall i :: 0 <= i < |ids| ==> ids[i] in st.txs
    ensures BodyOk(st', ids, height) <==> BodyOk(st, ids, height)
  {
    TotalsStable(st, st', ids);
  }

  lemma LastingWithStable(st: Store, st': Store, b: Block, ids: seq<HashT>)
    requires Extends(st, st') && st.env.params.Verified()
    requires forall i :: 0 <= i < |ids| ==> ids[i] in st.txs
    requires LastingOkWith(st, b, ids)
    ensures LastingOkWith(st', b, ids)
  {
    BodyStable(st, st', ids, HeightOf(st, b.prevBlockId) + 1);
  }

  lemma LastingStable(st: Store, st': Store, b: Block)
    requires Extends(st, st') && Separate(st') && |st.merkles| <= |st'.merkles| && st.env.params.Verified()
    requires Grounded(st, b.merkleRoot, MaxDepth(st)) && LastingOk(st, b)
    ensures LastingOk(st', b)
  {
    TxIdsUnderStable(st, st', b.merkleRoot);
    LastingWithStable(st, st', b, TxIdsUnder(st, b.merkleRoot));
  }

  predicate ParentsStored(st: Store) { forall id :: id in st.blocks && id != 0 ==> Parent(st, id) in st.blocks }

  /** The second has the first one's blocks, whatever their height and work may be. */
  predicate SameBlocks(st: Store, st': Store) { forall id :: id in st.blocks ==> BlockOf(st', id) == BlockOf(st, id) }

  lemma {:induction false} AncestorListStable(st: Store, st': Store, id: HashT, maxLen: nat)
    requires SameBlocks(st, st') && ParentsStored(st) && id in st.blocks
    ensures AncestorList(st', id, maxLen) == AncestorList(st, id, maxLen)
    ensures forall a :: a in AncestorList(st, id, maxLen) ==> a in st.blocks
    decreases maxLen
  {
    if maxLen > 0 && id != 0 {
      AncestorListStable(st, st', Parent(st, id), maxLen - 1);
    }
  }

  /** The times before a block are settled once its parent is stored. */
  lemma AfterMedianStable(st: Store, st': Store, b: Block)
    requires SameBlocks(st, st') && ParentsStored(st) && b.prevBlockId in st.blocks
    ensures AfterMedian(st', b) <==> AfterMedian(st, b)
  {
    hide Median;
    if b.prevBlockId != 0 {
      AncestorListStable(st, st', b.prevBlockId, 4);
      var ids := RecentBlocks(st, b.prevBlockId);
      assert forall i :: 0 <= i < |ids| ==> ids[i] in [b.prevBlockId] + AncestorList(st, b.prevBlockId, 4);
      assert TimesOf(st', ids) == TimesOf(st, ids);
    }
  }

  lemma BlockRecordStable(st: Store, st': Store, id: HashT)
    requires Extends(st, st') && Separate(st') && |st.merkles| <= |st'.merkles| && st.env.params.Verified()
    requires BlockRecordOk(st, id) && ParentsStored(st)
    requires id != 0 ==> Grounded(st, BlockOf(st, id).merkleRoot, MaxDepth(st))
    ensures BlockRecordOk(st', id)
  {
    hide AfterMedian, LastingOk;
    if id != 0 {
      LastingStable(st, st', st.blocks[id].block);
      AfterMedianStable(st, st', st.blocks[id].block);
    }
  }

  lemma WellFormedParents(st: Store)
    requires WellFormed(st)
    ensures ParentsStored(st)
  {
    hide AfterMedian;
    forall id | id in st.blocks && id != 0 ensures Parent(st, id) in st.blocks {
      assert BlockRecordOk(st, id);
    }
  }

  /** Growing an inventory keeps every record that was already there. */
  lemma OldRecordsStable(st: Store, st': Store)
    requires WellFormed(st) && Extends(st, st') && Separate(st') && |st.merkles| <= |st'.merkles|
    ensures forall id :: id in st.txs ==> TxRecordOk(st', id)
    ensures forall id :: id in st.merkles ==> MerkleRecordOk(st', id)
    ensures forall id :: id in st.blocks ==> BlockRecordOk(st', id)
  {
    hide AfterMedian;
    WellFormedParents(st);
    forall id | id in st.txs ensures TxRecordOk(st', id) {
      assert TxRecordOk(st, id);
      TxRecordStable(st, st', id);
    }
    forall id | id in st.merkles ensures MerkleRecordOk(st', id) {
      assert MerkleRecordOk(st, id);
      MerkleRecordStable(st, st', id);
    }
    forall id | id in st.blocks ensures BlockRecordOk(st', id) {
      assert BlockRecordOk(st, id);
      if id != 0 {
        assert MerkleRecordOk(st, BlockOf(st, id).merkleRoot);
      }
      BlockRecordStable(st, st', id);
    }
  }

  lemma NewTxSeparate(st: Store, tx: Tx)
    requires WellFormed(st)
    ensures Separate(PutTx(st, tx))
  {
    hide BlockRecordOk, TxRecordOk;
    WellFormedSeparate(st);
    forall m | m in st.merkles ensures m != st.env.hashes.tx(tx) {
      assert MerkleRecordOk(st, m);
    }
  }

  lemma NewTxOk(st: Store, tx: Tx)
    requires CanStoreTx(st, tx)
    ensures TxRecordOk(PutTx(st, tx), st.env.hashes.tx(tx)) && Extends(st, PutTx(st, tx))
  {
    forall i | 0 <= i < |tx.inputs| ensures OriginOk(PutTx(st, tx), tx.inputs[i]) {
      assert OriginOk(st, tx.inputs[i]);
    }
  }

  lemma PutTxWellFormed(st: Store, tx: Tx)
    requires WellFormed(st) && CanStoreTx(st, tx)
    ensures WellFormed(PutTx(st, tx)) && Extends(st, PutTx(st, tx))
  {
    hide BlockRecordOk, MerkleRecordOk, TxRecordOk, CanStoreTx;
    NewTxSeparate(st, tx);
    NewTxOk(st, tx);
    OldRecordsStable(st, PutTx(st, tx));
  }

  lemma NewNodeSeparate(st: Store, node: MerkleNode)
    requires WellFormed(st) && CanStoreMerkle(st, node)
    ensures var st', id := PutMerkle(st, node), st.env.hashes.merkle(node);
      Extends(st, st') && Separate(st') && id !in st'.txs && MaxDepth(st') == MaxDepth(st) + 1
  {
    var st', id := PutMerkle(st, node), st.env.hashes.merkle(node);
    WellFormedSeparate(st);
    forall t | t in st'.txs ensures t != id {
      assert TxRecordOk(st, t);
    }
    assert st'.merkles.Keys == st.merkles.Keys + {id};
  }

  /** A new node's level order has the transactions of its children, each once, and their size. */
  lemma NewNodeLeaves(st: Store, st': Store, node: MerkleNode)
    requires ChildOk(st, st', node.lChild) && ChildOk(st, st', node.rChild) && MerkleOk(st, node)
    ensures var ids := LevelOrder(st', Children(node), MaxDepth(st));
      && NoDup(ids)
      && TotalVSize(st', ids) == MerkleTotal(st, node)
  {
    if node.lChild != node.rChild {
      PairLeaves(st', node.lChild, node.rChild, MaxDepth(st));
    }
  }

  /** What an entity brings along as a child of a new node. */
  predicate ChildOk(st: Store, st': Store, c: HashT) {
    var ids := TxIdsUnder(st, c);
    && Grounded(st', c, MaxDepth(st))
    && LevelOrder(st', [c], MaxDepth(st)) == ids
    && NoDup(ids)
    && EntityVSize(st, c) == TotalVSize(st', ids)
  }

  lemma EntityRead(st: Store, c: HashT)
    requires WellFormed(st) && HasEntity(st, c)
    ensures Grounded(st, c, MaxDepth(st)) && NoDup(TxIdsUnder(st, c))
    ensures EntityVSize(st, c) == TotalVSize(st, TxIdsUnder(st, c))
  {
    WellFormedSeparate(st);
    if c in st.merkles {
      assert MerkleRecordOk(st, c);
    } else {
      assert TxRecordOk(st, c);
      LevelOrderTx(st, c, MaxDepth(st));
      assert TotalVSize(st, [c]) == VSize(TxOf(st, c)) + TotalVSize(st, [c][1..]);
    }
  }

  lemma EntityChildOk(st: Store, st': Store, c: HashT)
    requires WellFormed(st) && Extends(st, st') && Separate(st')
    requires HasEntity(st, c)
    ensures ChildOk(st, st', c)
  {
    hide WellFormed;
    var d := MaxDepth(st);
    EntityRead(st, c);
    GroundedMonotone(st, st', c, d, d);
    LevelOrderStable(st, st', [c], d, d);
    LevelOrderMembers(st, [c], d);
    VSizeStable(st, st', TxIdsUnder(st, c));
  }

  lemma NewMerkleOk(st: Store, node: MerkleNode)
    requires WellFormed(st) && CanStoreMerkle(st, node)
    ensures MerkleRecordOk(PutMerkle(st, node), st.env.hashes.merkle(node))
  {
    var st', id := PutMerkle(st, node), st.env.hashes.merkle(node);
    NewNodeSeparate(st, node);
    EntityChildOk(st, st', node.lChild);
    EntityChildOk(st, st', node.rChild);
    NewNodeLeaves(st, st', node);
    LevelOrderNode(st', id, MaxDepth(st'));
  }

  lemma PutMerkleWellFormed(st: Store, node: MerkleNode)
    requires WellFormed(st) && CanStoreMerkle(st, node)
    ensures WellFormed(PutMerkle(st, node)) && Extends(st, PutMerkle(st, node))
  {
    NewNodeSeparate(st, node);
    NewMerkleOk(st, node);
    OldRecordsStable(st, PutMerkle(st, node));
  }

  lemma BlockOkParts(st: Store, b: Block, now: Uint64)
    requires st.env.params.Verified() && BlockOk(st, b, now)
    ensures b.target > 0 && b.merkleRoot in st.merkles && b.prevBlockId in st.blocks
  {
  }

  lemma StorableParts(st: Store, b: Block, now: Uint64)
    requires st.env.params.Verified() && StoreBlockOutcome(st, b, now) == Ok
    ensures b.target > 0 && NewBlockRecord(st, b).Some?
    ensures LastingOk(st, b) && b.merkleRoot in st.merkles && b.prevBlockId in st.blocks
    ensures AfterMedian(st, b) && st.env.hashes.BlockId(b) !in st.blocks
  {
  }

  lemma PutBlockExtends(st: Store, b: Block, now: Uint64)
    requires WellFormed(st) && StoreBlockOutcome(st, b, now) == Ok
    ensures Extends(st, PutBlock(st, b)) && Separate(PutBlock(st, b))
  {
    StorableParts(st, b, now);
    WellFormedSeparate(st);
    hide *;
    PutFreshBlock(st, b);
  }

  lemma PutFreshBlock(st: Store, b: Block)
    requires b.target > 0 && NewBlockRecord(st, b).Some? && st.env.hashes.BlockId(b) !in st.blocks
    requires Separate(st)
    ensures Extends(st, PutBlock(st, b)) && Separate(PutBlock(st, b))
  {
  }

  lemma NewBlockOk(st: Store, b: Block, now: Uint64)
    requires WellFormed(st) && StoreBlockOutcome(st, b, now) == Ok
    ensures BlockRecordOk(PutBlock(st, b), st.env.hashes.BlockId(b))
  {
    hide BlockOk, LastingOkWith, TxIdsUnder, AfterMedian;
    StorableParts(st, b, now);
    WellFormedParents(st);
    AfterMedianStable(st, PutBlock(st, b), b);
    PutBlockExtends(st, b, now);
    assert MerkleRecordOk(st, b.merkleRoot);
    LastingStable(st, PutBlock(st, b), b);
    assert 0 in st.blocks;
  }

  lemma PutBlockWellFormed(st: Store, b: Block, now: Uint64)
    requires WellFormed(st) && StoreBlockOutcome(st, b, now) == Ok
    ensures WellFormed(PutBlock(st, b)) && Extends(st, PutBlock(st, b))
  {
    hide BlockRecordOk, TxRecordOk, MerkleRecordOk, BlockOk;
    StorableParts(st, b, now);
    PutBlockExtends(st, b, now);
    OldRecordsStable(st, PutBlock(st, b));
    NewBlockOk(st, b, now);
  }

  lemma EmptyStoreWellFormed(env: Env)
    requires env.Ok()
    ensures WellFormed(EmptyStore(env))
  {
  }
}
