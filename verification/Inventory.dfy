/** The shared inventory: an insert-only store of verified transactions, merkle nodes and blocks. */
module Inventory {
  import opened Core
  import opened Forest
  import opened Target
  import opened Rules
  import opened Ancestry

  class Inv {
    const env: Env
    var blocks: map<HashT, BlockRecord>
    var merkles: map<HashT, MerkleRecord>
    var txs: map<HashT, TxRecord>

    function View(): Store
      reads this
    {
      Store(env, blocks, merkles, txs)
    }

    ghost predicate Valid()
      reads this
    {
      WellFormed(View())
    }

    constructor (env: Env)
      requires env.Ok()
      ensures Valid() && View() == EmptyStore(env)
    {
      this.env := env;
      blocks := map[0 := BlockRecord(ZERO_BLOCK, 0, 0)];
      merkles, txs := map[], map[];
      new;
      EmptyStoreWellFormed(env);
    }

    // ---- Walks up the block tree ----

    method GetBlockAncestors(blockId: HashT, maxLen: nat) returns (out: seq<HashT>)
      requires Tree(View()) && blockId in blocks && blockId != 0
      ensures out == AncestorList(View(), blockId, maxLen)
    {
      out := [];
      var next := blockId;
      var i := 0;
      ghost var st := View();
      while i < maxLen && next != 0
        invariant 0 <= i <= maxLen && next in blocks
        invariant AncestorList(st, blockId, maxLen) == out + AncestorList(st, next, maxLen - i)
      {
        assert Linked(st, next);
        next := blocks[next].block.prevBlockId;
        out := out + [next];
        i := i + 1;
      }
    }

    method GetBlockSpecificAncestor(blockId: HashT, depth: nat) returns (id: HashT)
      requires Tree(View()) && blockId in blocks
      ensures id == AncestorAt(View(), blockId, depth)
    {
      if depth == 0 || blockId == 0 {
        return blockId;
      }
      var ancestorIds := GetBlockAncestors(blockId, depth);
      LastAncestor(View(), blockId, depth);
      id := ancestorIds[|ancestorIds| - 1];
    }

    method GetBlockAncestorDepth(blockId: HashT, ancestorId: HashT) returns (depth: nat, ok: bool)
      requires Tree(View()) && blockId in blocks
      ensures ok <==> Ancestor(View(), ancestorId, blockId)
      ensures ok ==> depth == HeightOf(View(), blockId) - HeightOf(View(), ancestorId)
      ensures ok ==> depth == |Path(View(), blockId, ancestorId)|
    {
      ghost var st := View();
      depth := 0;
      var cur := blockId;
      while cur != ancestorId && cur != 0
        invariant cur in blocks && depth == HeightOf(st, blockId) - HeightOf(st, cur)
        invariant Ancestor(st, ancestorId, blockId) <==> Ancestor(st, ancestorId, cur)
        decreases HeightOf(st, cur)
      {
        assert Linked(st, cur);
        cur := blocks[cur].block.prevBlockId;
        depth := depth + 1;
      }
      ok := cur == ancestorId;
      if ok {
        PathExact(st, blockId, ancestorId);
      }
    }

    /** The blocks strictly between, from the top. */
    method GetBlockAncestorsUntil(blockId: HashT, untilId: HashT) returns (out: seq<HashT>)
      requires Tree(View()) && blockId in blocks
      requires Ancestor(View(), untilId, blockId)
      ensures blockId == untilId ==> out == []
      ensures blockId != untilId ==> [blockId] + out == Path(View(), blockId, untilId)
    {
      hide Tree, Ancestor, Path;
      ghost var st := View();
      var depth, ok := GetBlockAncestorDepth(blockId, untilId);
      PathStep(st, blockId, untilId);
      if depth == 0 {
        return [];
      }
      out := [];
      var cur := blockId;
      while |out| < depth - 1
        invariant cur in blocks && Ancestor(st, untilId, cur) && |out| <= depth - 1
        invariant |Path(st, cur, untilId)| == depth - |out| && cur != untilId
        invariant Path(st, blockId, untilId) == [blockId] + out + Path(st, Parent(st, cur), untilId)
      {
        PathStep(st, cur, untilId);
        cur := blocks[cur].block.prevBlockId;
        PathStep(st, cur, untilId);
        out := out + [cur];
      }
      PathStep(st, cur, untilId);
      PathStep(st, Parent(st, cur), untilId);
    }

    /** The most recent common ancestor. */
    method GetBlockLCA(blockId: HashT, otherBlockId: HashT) returns (lca: HashT)
      requires Tree(View()) && blockId in blocks && otherBlockId in blocks
      ensures IsLca(View(), lca, blockId, otherBlockId)
    {
      ghost var st := View();
      var a, b := blockId, otherBlockId;
      while blocks[a].height > blocks[b].height
        invariant a in blocks && b == otherBlockId
        invariant Ancestor(st, a, blockId)
        invariant SameCommon(st, a, b, blockId, otherBlockId)
        decreases HeightOf(st, a)
      {
        StepCommonAncestor(st, a, b);
        AncestorTransitive(st, Parent(st, a), a, blockId);
        a := blocks[a].block.prevBlockId;
      }
      while blocks[b].height > blocks[a].height
        invariant a in blocks && b in blocks && HeightOf(st, a) <= HeightOf(st, b)
        invariant Ancestor(st, a, blockId) && Ancestor(st, b, otherBlockId)
        invariant SameCommon(st, a, b, blockId, otherBlockId)
        decreases HeightOf(st, b)
      {
        StepCommonAncestor(st, b, a);
        AncestorTransitive(st, Parent(st, b), b, otherBlockId);
        b := blocks[b].block.prevBlockId;
      }
      while a != b
        invariant a in blocks && b in blocks && HeightOf(st, a) == HeightOf(st, b)
        invariant Ancestor(st, a, blockId) && Ancestor(st, b, otherBlockId)
        invariant SameCommon(st, a, b, blockId, otherBlockId)
        decreases HeightOf(st, a)
      {
        StepBothCommonAncestor(st, a, b);
        AncestorTransitive(st, Parent(st, a), a, blockId);
        AncestorTransitive(st, Parent(st, b), b, otherBlockId);
        a := blocks[a].block.prevBlockId;
        b := blocks[b].block.prevBlockId;
      }
      lca := a;
    }

    // ---- Reading a merkle tree ----

    /** Breadth-first search with a queue. */
    method GetMerkleTxIds(root: HashT) returns (outTxIds: seq<HashT>)
      requires Grounded(View(), root, MaxDepth(View()))
      ensures outTxIds == TxIdsUnder(View(), root)
    {
      hide Reading;
      ghost var st := View();
      outTxIds := [];
      var idQueue := [root];
      // The queue is the rest of one level followed by the start of the next.
      ghost var rest: seq<HashT>, next: seq<HashT>, depth: nat := [root], [], MaxDepth(st) - 1;
      StartLevels(st, root);
      while idQueue != []
        invariant idQueue == rest + next
        invariant Reading(st, root, outTxIds, rest, next, depth)
        decreases depth, |rest|
      {
        if rest == [] {
          NextLevel(st, root, outTxIds, next, depth);
          rest, next, depth := next, [], depth - 1;
        }
        var nextId := idQueue[0];
        idQueue := idQueue[1..];
        OneNode(st, root, outTxIds, rest, next, depth);
        if nextId in txs {
          outTxIds := outTxIds + [nextId];
        } else {
          var merkle := merkles[nextId].merkle;
          idQueue := idQueue + [merkle.lChild];
          if merkle.rChild != merkle.lChild {
            idQueue := idQueue + [merkle.rChild];
          }
        }
        rest, next := rest[1..], next + ChildrenOf(st, nextId);
      }
      NoLevels(st, root, outTxIds, depth);
    }

    // ---- Verification ----

    method VerifyTxIsolated(tx: Tx) returns (ok: bool)
      ensures ok <==> TxIsolatedOk(env, tx)
    {
      for i := 0 to |tx.inputs|
        invariant forall k :: 0 <= k < i ==> SignatureOk(env, tx, k)
      {
        var txi := tx.inputs[i];
        if !env.hashes.validSig(txi.publicKey, env.hashes.preSig(tx.minBlock, tx.outputs), txi.signature) {
          assert !SignatureOk(env, tx, i);
          return false;
        }
      }
      var vSize := ComputeVSize(tx);
      if vSize > env.params.maxTxVSize {
        return false;
      }
      var outputs := ComputeOutputsValue(tx);
      if tx.isCoinbase {
        return |tx.inputs| == 0 && |tx.outputs| == 1 && outputs >= env.params.blockReward;
      }
      var inputs := ComputeInputsValue(tx);
      ok := inputs > outputs;
    }

    method VerifyTx(tx: Tx) returns (ok: bool)
      ensures ok <==> TxOk(View(), tx)
      ensures ok <==>
        && (forall i :: 0 <= i < |tx.inputs| ==>
              var txi := tx.inputs[i];
              && txi.utxo.txId in txs && txi.utxo.ind < |txs[txi.utxo.txId].tx.outputs|
              && var origin := txs[txi.utxo.txId].tx.outputs[txi.utxo.ind];
              && env.hashes.bytes(txi.publicKey) == origin.publicKeyHash && txi.utxo.value == origin.value
              && env.hashes.validSig(txi.publicKey, env.hashes.preSig(tx.minBlock, tx.outputs), txi.signature))
        && 72 + SumInVSize(tx.inputs) + 40 * |tx.outputs| <= env.params.maxTxVSize
        && (if tx.isCoinbase then
              tx.inputs == [] && |tx.outputs| == 1 && env.params.blockReward <= SumOut(tx.outputs) % TWO_64
            else SumOut(tx.outputs) % TWO_64 < SumIn(tx.inputs) % TWO_64)
    {
      TxOkExact(View(), tx);
      ok := VerifyTxIsolated(tx);
      if !ok {
        return;
      }
      for i := 0 to |tx.inputs|
        invariant forall k :: 0 <= k < i ==> OriginOk(View(), tx.inputs[k])
      {
        var utxo := tx.inputs[i].utxo;
        if utxo.txId !in txs || utxo.ind >= |txs[utxo.txId].tx.outputs| {
          assert !OriginOk(View(), tx.inputs[i]);
          return false;
        }
        var origin := txs[utxo.txId].tx.outputs[utxo.ind];
        if env.hashes.bytes(tx.inputs[i].publicKey) != origin.publicKeyHash || utxo.value != origin.value {
          assert !OriginOk(View(), tx.inputs[i]);
          return false;
        }
      }
    }

    method VerifyMerkle(node: MerkleNode) returns (ok: bool)
      requires Forested(View())
      ensures ok <==> MerkleOk(View(), node)
    {
      if !HasEntity(View(), node.lChild) {
        return false;
      }
      var totalSize := EntityVSize(View(), node.lChild);
      if node.rChild != node.lChild {
        if !HasEntity(View(), node.rChild) {
          return false;
        }
        totalSize := totalSize + EntityVSize(View(), node.rChild);
        var lTxs := GetMerkleTxIds(node.lChild);
        var rTxs := GetMerkleTxIds(node.rChild);
        if !(ToSet(lTxs) !! ToSet(rTxs)) {
          return false;
        }
      }
      ok := totalSize <= env.params.maxBlockVSize;
    }

    /** The checks on a block's transactions, in the order the program makes them. */
    method VerifyBody(ids: seq<HashT>, height: nat) returns (ok: bool)
      requires env.Ok()
      ensures ok <==> BodyOk(View(), ids, height)
    {
      hide TotalIn, TotalOut, SumIn, SumOut, BlockMaxTxs;
      NoTotals(View());
      if |ids| == 0 || |ids| > BlockMaxTxs(env.params) {
        return false;
      }
      if TxOf(View(), ids[0]).minBlock != height {
        return false;
      }
      var totalInputs: Uint64, totalOutputs: Uint64 := env.params.blockReward, 0;
      for i := 0 to |ids|
        invariant forall k :: 0 <= k < i ==> (TxOf(View(), ids[k]).isCoinbase <==> k == 0)
        invariant totalInputs == (env.params.blockReward + TotalIn(View(), ids[..i])) % TWO_64
        invariant totalOutputs == TotalOut(View(), ids[..i]) % TWO_64
      {
        var tx := TxOf(View(), ids[i]);
        if tx.isCoinbase != (i == 0) {
          return false;
        }
        TotalsStep(View(), ids, i);
        AddWrap(env.params.blockReward + TotalIn(View(), ids[..i]), SumIn(tx.inputs));
        AddWrap(TotalOut(View(), ids[..i]), SumOut(tx.outputs));
        totalInputs := (totalInputs + InputsValue(tx)) % TWO_64;
        totalOutputs := (totalOutputs + OutputsValue(tx)) % TWO_64;
      }
      assert ids[..|ids|] == ids;
      ok := totalInputs == totalOutputs;
    }

    method RecentTimes(prev: HashT) returns (times: seq<Uint64>)
      requires Tree(View()) && prev in blocks && prev != 0
      ensures times == TimesOf(View(), RecentBlocks(View(), prev))
    {
      hide Tree;
      var older := GetBlockAncestors(prev, 4);
      var ancestorIds := [prev] + older;
      if ancestorIds[|ancestorIds| - 1] == 0 {
        ancestorIds := ancestorIds[..|ancestorIds| - 1];
      }
      times := [];
      for i := 0 to |ancestorIds|
        invariant times == TimesOf(View(), ancestorIds[..i])
      {
        times := times + [BlockOf(View(), ancestorIds[i]).minedTime];
      }
      assert ancestorIds[..|ancestorIds|] == ancestorIds;
    }

    method VerifyTimes(b: Block, now: Uint64) returns (ok: bool)
      requires env.Ok() && Tree(View()) && b.prevBlockId in blocks
      ensures ok <==> TimesOk(View(), b, now)
    {
      if b.prevBlockId != 0 {
        var times := RecentTimes(b.prevBlockId);
        if b.minedTime <= Median(times) {
          return false;
        }
      }
      var period, newBlockHeight := env.params.difficultyPeriod, blocks[b.prevBlockId].height + 1;
      var hops := if newBlockHeight + 1 == period then period - 3 else period - 2;
      var firstBlockId := GetBlockSpecificAncestor(b.prevBlockId, hops);
      var firstBlockTime := BlockOf(View(), firstBlockId).minedTime;
      if newBlockHeight + (1 % period) == 0 && b.minedTime <= firstBlockTime {
        return false;
      }
      ok := b.minedTime <= (now + 3600) % TWO_64;
    }

    method VerifyTarget(b: Block) returns (ok: bool)
      requires env.Ok() && b.prevBlockId in blocks
      ensures ok <==> TargetOk(View(), b.prevBlockId, b.target)
      ensures ok <==>
        if b.prevBlockId == 0 then b.target == env.params.originalTarget
        else
          var was := blocks[b.prevBlockId].block.target;
          if (blocks[b.prevBlockId].height + 1) % env.params.difficultyPeriod == 0 then
            was / 4 <= b.target <= 4 * was && b.target <= env.params.maxTarget
          else b.target == was
    {
      if b.prevBlockId == 0 {
        return b.target == env.params.originalTarget;
      }
      var prevTarget := blocks[b.prevBlockId].block.target;
      if (blocks[b.prevBlockId].height + 1) % env.params.difficultyPeriod == 0 {
        if b.target < MinNextTarget(prevTarget) || MaxNextTarget(env.params, prevTarget) < b.target {
          return false;
        }
      } else if b.target != prevTarget {
        return false;
      }
      ok := true;
    }

    method VerifyBlock(b: Block, now: Uint64) returns (ok: bool)
      requires env.Ok() && Tree(View()) && Forested(View())
      ensures ok <==> BlockOk(View(), b, now)
    {
      if env.hashes.BlockId(b) >= b.target || b.merkleRoot !in merkles || b.prevBlockId !in blocks {
        return false;
      }
      var ids := GetMerkleTxIds(b.merkleRoot);
      var bodyOk := VerifyBody(ids, blocks[b.prevBlockId].height + 1);
      if !bodyOk || merkles[b.merkleRoot].vSize > env.params.maxBlockVSize {
        return false;
      }
      var timesOk := VerifyTimes(b, now);
      if !timesOk {
        return false;
      }
      ok := VerifyTarget(b);
    }

    // ---- Storing ----

    method StoreTx(tx: Tx) returns (r: Outcome)
      requires Valid()
      modifies this`txs
      ensures Valid()
      ensures r == if CanStoreTx(old(View()), tx) then Ok else Err
      ensures View() == if r.Ok? then PutTx(old(View()), tx) else old(View())
    {
      hide WellFormed, TxOk;
      var txId := env.hashes.tx(tx);
      if txId in txs {
        return Err;
      }
      var ok := VerifyTx(tx);
      if !ok {
        return Err;
      }
      PutTxWellFormed(View(), tx);
      var vSize := ComputeVSize(tx);
      txs := txs[txId := TxRecord(tx, vSize)];
      r := Ok;
    }

    method StoreMerkle(node: MerkleNode) returns (r: Outcome)
      requires Valid()
      modifies this`merkles
      ensures Valid()
      ensures r == if CanStoreMerkle(old(View()), node) then Ok else Err
      ensures View() == if r.Ok? then PutMerkle(old(View()), node) else old(View())
    {
      hide WellFormed, Tree, Forested, TxIdsUnder;
      var nodeId := env.hashes.merkle(node);
      if nodeId in merkles {
        return Err;
      }
      WellFormedParts(View());
      var ok := VerifyMerkle(node);
      if !ok {
        return Err;
      }
      PutMerkleWellFormed(View(), node);
      var totalSize := EntityVSize(View(), node.lChild);
      if node.rChild != node.lChild {
        totalSize := totalSize + EntityVSize(View(), node.rChild);
      }
      merkles := merkles[nodeId := MerkleRecord(node, totalSize)];
      r := Ok;
    }

    method StoreBlock(b: Block, now: Uint64) returns (r: Outcome)
      requires Valid()
      modifies this`blocks
      ensures Valid()
      ensures r == StoreBlockOutcome(old(View()), b, now)
      ensures View() == if r.Ok? then PutBlock(old(View()), b) else old(View())
      ensures r == Ok ==>
        && env.hashes.BlockId(b) in blocks && b.prevBlockId in blocks
        && var work := blocks[env.hashes.BlockId(b)].totalWork - blocks[b.prevBlockId].totalWork;
        && work * b.target <= TWO_256 - 1 < (work + 1) * b.target
    {
      hide WellFormed, Tree, Forested, LastingOk, TimesOk;
      var blockId := env.hashes.BlockId(b);
      if blockId in blocks {
        return Err;
      }
      WellFormedParts(View());
      var ok := VerifyBlock(b, now);
      if !ok {
        return Err;
      }
      BlockOkParts(View(), b, now);
      var prev := blocks[b.prevBlockId];
      var work := prev.totalWork + TargetToWork(b.target);
      if work >= TWO_256 {
        return Panic;
      }
      assert NewBlockRecord(View(), b) == Some(BlockRecord(b, prev.height + 1, work));
      WorkExact(b.target);
      PutBlockWellFormed(View(), b, now);
      blocks := blocks[blockId := BlockRecord(b, prev.height + 1, work)];
      r := Ok;
    }
  }

  // ---- What a transaction has to satisfy, in full ----

  lemma TxOkExact(st: Store, tx: Tx)
    ensures TxOk(st, tx) <==>
      && (forall i :: 0 <= i < |tx.inputs| ==>
            var txi := tx.inputs[i];
            && txi.utxo.txId in st.txs && txi.utxo.ind < |st.txs[txi.utxo.txId].tx.outputs|
            && var origin := st.txs[txi.utxo.txId].tx.outputs[txi.utxo.ind];
            && st.env.hashes.bytes(txi.publicKey) == origin.publicKeyHash && txi.utxo.value == origin.value
            && st.env.hashes.validSig(txi.publicKey, st.env.hashes.preSig(tx.minBlock, tx.outputs), txi.signature))
      && 72 + SumInVSize(tx.inputs) + 40 * |tx.outputs| <= st.env.params.maxTxVSize
      && (if tx.isCoinbase then
            tx.inputs == [] && |tx.outputs| == 1 && st.env.params.blockReward <= SumOut(tx.outputs) % TWO_64
          else SumOut(tx.outputs) % TWO_64 < SumIn(tx.inputs) % TWO_64)
  {
    forall i | 0 <= i < |tx.inputs|
      ensures OriginOk(st, tx.inputs[i]) && SignatureOk(st.env, tx, i) <==>
        var txi := tx.inputs[i];
        && txi.utxo.txId in st.txs && txi.utxo.ind < |st.txs[txi.utxo.txId].tx.outputs|
        && var origin := st.txs[txi.utxo.txId].tx.outputs[txi.utxo.ind];
        && st.env.hashes.bytes(txi.publicKey) == origin.publicKeyHash && txi.utxo.value == origin.value
        && st.env.hashes.validSig(txi.publicKey, st.env.hashes.preSig(tx.minBlock, tx.outputs), txi.signature)
    {
    }
  }

  // ---- Lemmas for the loops ----

  ghost predicate SameCommon(st: Store, a: HashT, b: HashT, x: HashT, y: HashT) {
    forall c :: Ancestor(st, c, a) && Ancestor(st, c, b) <==> Ancestor(st, c, x) && Ancestor(st, c, y)
  }

  lemma {:induction false} LastAncestor(st: Store, id: HashT, depth: nat)
    requires depth > 0 && id != 0
    ensures AncestorList(st, id, depth) != []
    ensures AncestorList(st, id, depth)[|AncestorList(st, id, depth)| - 1] == AncestorAt(st, id, depth)
    decreases depth
  {
    var p := Parent(st, id);
    if depth > 1 && p != 0 {
      LastAncestor(st, p, depth - 1);
    } else {
      assert AncestorList(st, p, depth - 1) == [];
      assert AncestorAt(st, p, depth - 1) == p;
    }
  }

  /** Every stored merkle node can be read to the end. */
  ghost predicate Forested(st: Store) {
    forall id :: id in st.merkles ==> Grounded(st, id, MaxDepth(st))
  }

  lemma WellFormedParts(st: Store)
    requires WellFormed(st)
    ensures st.env.Ok() && Tree(st) && Forested(st)
  {
    WellFormedTree(st);
    forall id | id in st.merkles ensures Grounded(st, id, MaxDepth(st)) {
      assert MerkleRecordOk(st, id);
    }
  }

  /** Where a breadth-first reading stands: what it has found, then the transactions left in this
      level, then the levels below. */
  ghost predicate Reading(
    st: Store, root: HashT, found: seq<HashT>, rest: seq<HashT>, next: seq<HashT>, depth: nat)
  {
    && AllGrounded(st, rest, depth + 1) && AllGrounded(st, next, depth)
    && TxIdsUnder(st, root) == found + TxsIn(st, rest) + LevelOrder(st, next + Expand(st, rest), depth)
  }

  lemma StartLevels(st: Store, root: HashT)
    requires Grounded(st, root, MaxDepth(st))
    ensures [root] == [root] + []
    ensures Reading(st, root, [], [root], [], MaxDepth(st) - 1)
  {
    assert [] + Expand(st, [root]) == Expand(st, [root]);
  }

  lemma NoLevels(st: Store, root: HashT, found: seq<HashT>, depth: nat)
    requires Reading(st, root, found, [], [], depth)
    ensures TxIdsUnder(st, root) == found
  {
    assert [] + Expand(st, []) == [];
    LevelOrderEmpty(st, depth);
  }

  lemma NoTotals(st: Store)
    ensures TotalIn(st, []) == 0 && TotalOut(st, []) == 0
  {
  }

  lemma TotalsStep(st: Store, ids: seq<HashT>, i: nat)
    requires i < |ids|
    ensures TotalIn(st, ids[..i + 1]) == TotalIn(st, ids[..i]) + SumIn(TxOf(st, ids[i]).inputs)
    ensures TotalOut(st, ids[..i + 1]) == TotalOut(st, ids[..i]) + SumOut(TxOf(st, ids[i]).outputs)
  {
    assert ids[..i + 1][..i] == ids[..i];
  }

  /** When a level runs out the next one begins. */
  lemma NextLevel(st: Store, root: HashT, found: seq<HashT>, next: seq<HashT>, depth: nat)
    requires next != [] && Reading(st, root, found, [], next, depth)
    ensures depth > 0 && Reading(st, root, found, next, [], depth - 1)
  {
    assert Grounded(st, next[0], depth);
    assert next + Expand(st, []) == next;
    assert [] + Expand(st, next) == Expand(st, next);
    hide Expand;
    var below := LevelOrder(st, Expand(st, next), depth - 1);
    assert TxsIn(st, []) == [] && found + [] == found;
    Associative(found, TxsIn(st, next), below);
  }

  /** Taking the first node of a level off the queue and pushing its children. */
  lemma OneNode(st: Store, root: HashT, found: seq<HashT>, rest: seq<HashT>, next: seq<HashT>, depth: nat)
    requires rest != [] && Reading(st, root, found, rest, next, depth)
    ensures HasEntity(st, rest[0])
    ensures Reading(st, root, if rest[0] in st.txs then found + [rest[0]] else found,
              rest[1..], next + ChildrenOf(st, rest[0]), depth)
  {
    assert Grounded(st, rest[0], depth + 1);
    ShiftGrounded(st, rest, next, depth);
    var c := ChildrenOf(st, rest[0]);
    Associative(next, c, Expand(st, rest[1..]));
    hide Expand, LevelOrder, Grounded, AllGrounded, ChildrenOf;
    Associative(found, [rest[0]], TxsIn(st, rest[1..]));
    assert [] + TxsIn(st, rest[1..]) == TxsIn(st, rest[1..]);
  }

  lemma ShiftGrounded(st: Store, rest: seq<HashT>, next: seq<HashT>, depth: nat)
    requires rest != [] && AllGrounded(st, rest, depth + 1) && AllGrounded(st, next, depth)
    ensures AllGrounded(st, rest[1..], depth + 1)
    ensures AllGrounded(st, next + ChildrenOf(st, rest[0]), depth)
  {
    assert Grounded(st, rest[0], depth + 1);
    var c := ChildrenOf(st, rest[0]);
    forall i | 0 <= i < |next + c| ensures Grounded(st, (next + c)[i], depth) {
      if i >= |next| {
        assert (next + c)[i] == c[i - |next|];
      }
    }
  }
}
