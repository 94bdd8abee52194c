/** The event a sync publishes, taken up by the receiver's chain: once its transactions are stored,
    its merkle nodes can all be stored in the order given, and its blocks unless their times are
    refused. */
module Delivery {
  import opened Core
  import opened Forest
  import opened Target
  import opened Rules
  import opened Ancestry
  import opened Ledger
  import opened Agreement
  import opened N = Node
  import opened Merkle
  import opened Trees
  import opened Sync
  import opened Fetches

  // ---- Nodes ----

  lemma SameLeaves(s: Store, st: Store, c: HashT)
    requires WellFormed(s) && WellFormed(st) && Agree(s, st) && HasEntity(s, c) && HasEntity(st, c)
    ensures TxIdsUnder(s, c) == TxIdsUnder(st, c)
    ensures EntityVSize(st, c) == TotalVSize(s, TxIdsUnder(s, c))
  {
    hide *;
    EntityRead(s, c);
    EntityRead(st, c);
    LeavesInBoth(s, st, c);
    SameVSize(s, st, TxIdsUnder(s, c));
  }

  lemma LeavesInBoth(s: Store, st: Store, c: HashT)
    requires Agree(s, st) && Grounded(s, c, MaxDepth(s)) && Grounded(st, c, MaxDepth(st))
    ensures TxIdsUnder(s, c) == TxIdsUnder(st, c)
    ensures forall i :: 0 <= i < |TxIdsUnder(s, c)| ==> TxIdsUnder(s, c)[i] in s.txs && TxIdsUnder(s, c)[i] in st.txs
  {
    hide Agree, LevelOrder, Grounded;
    SameTrees(s, st, [c], MaxDepth(s), MaxDepth(st));
    LevelOrderMembers(s, [c], MaxDepth(s));
    LevelOrderMembers(st, [c], MaxDepth(st));
  }

  lemma {:induction false} SameVSize(s: Store, st: Store, ids: seq<HashT>)
    requires Agree(s, st) && forall i :: 0 <= i < |ids| ==> ids[i] in s.txs && ids[i] in st.txs
    ensures TotalVSize(st, ids) == TotalVSize(s, ids)
  {
    if ids != [] {
      assert ids[0] in s.txs && ids[0] in st.txs;
      SameVSize(s, st, ids[1..]);
    }
  }

  /** A node that one inventory holds passes the checks of another that holds its children. */
  lemma NodePasses(s: Store, st: Store, node: MerkleNode)
    requires WellFormed(s) && WellFormed(st) && Agree(s, st) && s.env == st.env
    requires Stored(s, node) && HasEntity(st, node.lChild) && HasEntity(st, node.rChild)
    ensures MerkleOk(st, node)
  {
    var id := s.env.hashes.merkle(node);
    NodeSize(s, id);
    NodeParts(s, id);
    NodeVSize(s, id);
    SameLeaves(s, st, node.lChild);
    SameLeaves(s, st, node.rChild);
    if node.lChild != node.rChild {
      ChildrenApart(s, id);
    }
  }

  lemma NodeSize(s: Store, id: HashT)
    requires WellFormed(s) && id in s.merkles
    ensures TotalVSize(s, TxIdsUnder(s, id)) <= s.env.params.maxBlockVSize
  {
    assert MerkleRecordOk(s, id);
  }

  lemma ChildrenApart(s: Store, id: HashT)
    requires WellFormed(s) && id in s.merkles && LeftOf(s, id) != RightOf(s, id)
    ensures ToSet(TxIdsUnder(s, LeftOf(s, id))) !! ToSet(TxIdsUnder(s, RightOf(s, id)))
  {
    hide WellFormed, TxIdsUnder;
    forall t | t in TxIdsUnder(s, LeftOf(s, id)) ensures t !in TxIdsUnder(s, RightOf(s, id)) {
      if t in TxIdsUnder(s, RightOf(s, id)) {
        SameChild(s, LeftOf(s, id), RightOf(s, id), id, t);
      }
    }
  }

  /** Taking over an entity of another inventory leaves the two in agreement. */
  lemma TxTakenOver(s: Store, st: Store, id: HashT)
    requires WellFormed(s) && Agree(s, st) && id in s.txs && s.env.hashes.tx(TxOf(s, id)) == id
    ensures Agree(s, PutTx(st, TxOf(s, id)))
  {
    WellFormedSeparate(s);
    hide WellFormed, SameBlock;
  }

  lemma NodeTakenOver(s: Store, st: Store, node: MerkleNode)
    requires WellFormed(s) && Agree(s, st) && Stored(s, node)
    ensures Agree(s, PutMerkle(st, node))
  {
    WellFormedSeparate(s);
    hide WellFormed, SameBlock;
  }

  lemma BlockTakenOver(s: Store, st: Store, id: HashT)
    requires Agree(s, st) && id in s.blocks && s.env.hashes.BlockId(BlockOf(s, id)) == id && id !in st.blocks
    ensures Agree(s, PutBlock(st, BlockOf(s, id)))
  {
    var st' := PutBlock(st, BlockOf(s, id));
    forall b | b in s.blocks && b in st'.blocks ensures SameBlock(s, st', b) {
      assert b in st.blocks ==> SameBlock(s, st, b);
    }
  }

  /** What storing the received nodes starts from. */
  ghost predicate Ready(s: Store, r: Store, f: Fetching, st: Store) {
    && WellFormed(s) && WellFormed(st) && Agree(s, st)
    && Extends(r, st)
    && Tidy(s, f) && Sound(s, r, f) && Closing(r, f) && ParentsFirst(s.env.hashes, f) && AllRooted(s, f)
    && f.queue == []
    && (forall i :: 0 <= i < |f.txs| ==> TxIds(s.env.hashes, f)[i] in st.txs)
  }

  /** With the nodes after `i` stored, everything node `i` refers to is stored. */
  lemma ChildStored(s: Store, r: Store, f: Fetching, st: Store, i: nat, c: HashT)
    requires Ready(s, r, f, st) && i < |f.merkles| && ChildOfNode(f, c, i)
    requires forall j :: i < j < |f.merkles| ==> NodeId(s.env.hashes, f, j) in st.merkles
    ensures HasEntity(st, c)
  {
    hide WellFormed, Tidy;
    var h := s.env.hashes;
    assert Noted(r, f, c);
    if !HasEntity(r, c) {
      assert c in ToSet(MerkleIds(h, f)) + ToSet(TxIds(h, f));
      if c in TxIds(h, f) {
        var k :| 0 <= k < |f.txs| && TxIds(h, f)[k] == c;
      } else {
        var j :| 0 <= j < |f.merkles| && MerkleIds(h, f)[j] == c;
        assert NodeId(h, f, j) == c;
        ParentBeforeChild(s, r, f, j, i);
      }
    }
  }

  lemma AgreeEnv(s: Store, st: Store)
    requires Agree(s, st)
    ensures s.env == st.env
  {
  }

  lemma {:induction false} StoreReversed(s: Store, r: Store, f: Fetching, st: Store, n: nat)
    requires Ready(s, r, f, st) && n <= |f.merkles|
    requires forall j :: n <= j < |f.merkles| ==> NodeId(s.env.hashes, f, j) in st.merkles
    ensures var (st', res) := AddMerkles(st, Reverse(f.merkles)[|f.merkles| - n..]);
      res == Ok && Agree(s, st')
    decreases n
  {
    hide WellFormed, Tidy, Sound, Closing, ParentsFirst, AllRooted, MerkleOk, Agree;
    assert s.env == st.env by { AgreeEnv(s, st); }
    if n > 0 {
      var rev, k, i := Reverse(f.merkles), |f.merkles| - n, n - 1;
      var node := f.merkles[i];
      assert rev[k..][0] == node && rev[k..][1..] == rev[k + 1..];
      if s.env.hashes.merkle(node) in st.merkles {
        StoreReversed(s, r, f, st, i);
      } else {
        ChildStored(s, r, f, st, i, node.lChild);
        ChildStored(s, r, f, st, i, node.rChild);
        NodeIsStored(s, r, f, i);
        NodePasses(s, st, node);
        PutMerkleWellFormed(st, node);
        NodeTakenOver(s, st, node);
        ExtendsTransitive(r, st, PutMerkle(st, node));
        StoreReversed(s, r, f, PutMerkle(st, node), i);
      }
    }
  }

  /** However trees and levels interleave, the reversed list never misses a child. */
  lemma MerklesDeliverable(s: Me, r: Me, st: Store)
    requires Honest(s, r) && Needed(s, r) && ValidChain(s.st, s.head)
    requires WellFormed(st) && Extends(r.st, st) && Agree(s.st, st)
    requires forall i :: 0 <= i < |Haul(s, r).txs| ==> TxIds(s.st.env.hashes, Haul(s, r))[i] in st.txs
    ensures var (st', res) := AddMerkles(st, Reverse(Haul(s, r).merkles)); res == Ok && Agree(s.st, st')
  {
    hide WellFormed, Needed, Tidy, Sound, Closing, ParentsFirst, AllRooted, Askable, ValidChain, Agree, NoCollision;
    HaulInvariant(s, r);
    HaulTidy(s, r);
    HonestChainPasses(s, r);
    var f := Haul(s, r);
    StoreReversed(s.st, r.st, f, st, |f.merkles|);
    assert Reverse(f.merkles)[0..] == Reverse(f.merkles);
  }

  // ---- Blocks ----

  lemma {:induction false} SameTotals(s: Store, st: Store, ids: seq<HashT>)
    requires forall i :: 0 <= i < |ids| ==> TxOf(st, ids[i]) == TxOf(s, ids[i])
    ensures TotalIn(st, ids) == TotalIn(s, ids) && TotalOut(st, ids) == TotalOut(s, ids)
  {
    if ids != [] {
      SameTotals(s, st, ids[..|ids| - 1]);
    }
  }

  /** A block that one inventory holds keeps every rule but those about time in another. */
  lemma BlockLasts(s: Store, st: Store, id: HashT)
    requires WellFormed(s) && WellFormed(st) && Agree(s, st) && id in s.blocks && id != 0
    requires BlockOf(s, id).prevBlockId in st.blocks && BlockOf(s, id).merkleRoot in st.merkles
    ensures LastingOk(st, BlockOf(s, id))
    ensures NewBlockRecord(st, BlockOf(s, id)).Some?
  {
    var b := BlockOf(s, id);
    BlockParts(s, id);
    hide WellFormed, Agree, BodyOk, LastingOk, TxIdsUnder, TargetOk;
    WellFormedEnv(st);
    SameLeaves(s, st, b.merkleRoot);
    LeavesAlike(s, st, b.merkleRoot);
    SameParent(s, st, b.prevBlockId);
    BodyAlike(s, st, TxIdsUnder(s, b.merkleRoot), HeightOf(s, b.prevBlockId) + 1);
    NodeSizeRecord(st, b.merkleRoot);
    LastingAlike(st, b, HeightOf(s, b.prevBlockId) + 1);
  }

  lemma BlockParts(s: Store, id: HashT)
    requires WellFormed(s) && id in s.blocks && id != 0
    ensures var b := BlockOf(s, id);
      && s.env.params.Verified()
      && s.env.hashes.BlockId(b) < b.target && b.merkleRoot in s.merkles && b.prevBlockId in s.blocks
      && BodyOk(s, TxIdsUnder(s, b.merkleRoot), HeightOf(s, b.prevBlockId) + 1)
      && TargetOk(s, b.prevBlockId, b.target)
      && WorkOf(s, b.prevBlockId) + TargetToWork(b.target) < TWO_256
  {
    assert BlockRecordOk(s, id);
  }

  lemma SameParent(s: Store, st: Store, p: HashT)
    requires WellFormed(s) && WellFormed(st) && Agree(s, st) && p in s.blocks && p in st.blocks
    requires s.env.params.Verified()
    ensures HeightOf(st, p) == HeightOf(s, p) && WorkOf(st, p) == WorkOf(s, p) && s.env == st.env
    ensures forall target :: TargetOk(st, p, target) == TargetOk(s, p, target)
  {
    hide WellFormed;
    SameChainTxs(s, st, p);
    assert SameBlock(s, st, p);
  }

  lemma LeavesAlike(s: Store, st: Store, c: HashT)
    requires WellFormed(s) && WellFormed(st) && Agree(s, st) && HasEntity(s, c) && HasEntity(st, c)
    ensures forall i :: 0 <= i < |TxIdsUnder(s, c)| ==> TxOf(st, TxIdsUnder(s, c)[i]) == TxOf(s, TxIdsUnder(s, c)[i])
  {
    EntityRead(s, c);
    EntityRead(st, c);
    LeavesInBoth(s, st, c);
  }

  lemma BodyAlike(s: Store, st: Store, ids: seq<HashT>, height: nat)
    requires s.env == st.env && forall i :: 0 <= i < |ids| ==> TxOf(st, ids[i]) == TxOf(s, ids[i])
    ensures BodyOk(st, ids, height) == BodyOk(s, ids, height)
  {
    SameTotals(s, st, ids);
  }

  lemma NodeSizeRecord(st: Store, id: HashT)
    requires WellFormed(st) && id in st.merkles
    ensures st.merkles[id].vSize <= st.env.params.maxBlockVSize
  {
    assert MerkleRecordOk(st, id);
  }

  lemma LastingAlike(st: Store, b: Block, height: nat)
    requires st.env.params.Verified() && st.env.hashes.BlockId(b) < b.target
    requires b.merkleRoot in st.merkles && st.merkles[b.merkleRoot].vSize <= st.env.params.maxBlockVSize
    requires b.prevBlockId in st.blocks && height == HeightOf(st, b.prevBlockId) + 1
    requires BodyOk(st, TxIdsUnder(st, b.merkleRoot), height) && TargetOk(st, b.prevBlockId, b.target)
    ensures LastingOk(st, b)
  {
    hide BodyOk, TargetOk, TxIdsUnder;
  }

  /** The times of the new blocks are accepted one after the other. */
  ghost predicate TimesFine(st: Store, blocks: seq<Block>, now: Uint64)
    requires st.env.params.Verified()
    decreases blocks
  {
    blocks == [] ||
    if st.env.hashes.BlockId(blocks[0]) in st.blocks then TimesFine(st, blocks[1..], now)
    else TimesOk(st, blocks[0], now) && TimesFine(PutBlock(st, blocks[0]), blocks[1..], now)
  }

  /** Blocks in order: each one's parent is stored or the one before it, each one's tree is stored. */
  ghost predicate InOrder(s: Store, st: Store, blocks: seq<Block>) {
    forall i :: 0 <= i < |blocks| ==> Follows(s, st, blocks, i)
  }

  ghost predicate Follows(s: Store, st: Store, blocks: seq<Block>, i: nat)
    requires i < |blocks|
  {
    var h, b := s.env.hashes, blocks[i];
    && h.BlockId(b) in s.blocks && h.BlockId(b) != 0 && BlockOf(s, h.BlockId(b)) == b
    && b.merkleRoot in st.merkles
    && if i == 0 then b.prevBlockId in st.blocks else b.prevBlockId == h.BlockId(blocks[i - 1])
  }

  /** Such blocks are stored if and only if their times are accepted. */
  lemma {:induction false} OnlyTimesRefuse(s: Store, st: Store, blocks: seq<Block>, now: Uint64)
    requires WellFormed(s) && WellFormed(st) && Agree(s, st)
    requires st.env.params.Verified() && InOrder(s, st, blocks)
    ensures var (st', res) := AddBlocks(st, blocks, now);
      && (res == Ok <==> TimesFine(st, blocks, now))
      && (res == Ok && blocks != [] ==> s.env.hashes.BlockId(blocks[|blocks| - 1]) in st'.blocks)
      && (res == Ok ==> Agree(s, st'))
    decreases blocks
  {
    hide WellFormed, TimesOk, LastingOk, Agree;
    AgreeEnv(s, st);
    if blocks != [] {
      var b, id, rest := blocks[0], s.env.hashes.BlockId(blocks[0]), blocks[1..];
      assert Follows(s, st, blocks, 0);
      if id in st.blocks {
        NextInOrder(s, st, st, blocks);
        OnlyTimesRefuse(s, st, rest, now);
        LastKnown(st, rest, id, now);
      } else {
        BlockLasts(s, st, id);
        if TimesOk(st, b, now) {
          PutBlockWellFormed(st, b, now);
          BlockTakenOver(s, st, id);
          NextInOrder(s, st, PutBlock(st, b), blocks);
          OnlyTimesRefuse(s, PutBlock(st, b), rest, now);
          LastKnown(PutBlock(st, b), rest, id, now);
        }
      }
    }
  }

  lemma NextInOrder(s: Store, st: Store, st': Store, blocks: seq<Block>)
    requires blocks != [] && InOrder(s, st, blocks) && Extends(st, st')
    requires s.env.hashes.BlockId(blocks[0]) in st'.blocks
    ensures InOrder(s, st', blocks[1..])
  {
    forall i | 0 <= i < |blocks[1..]| ensures Follows(s, st', blocks[1..], i) {
      assert Follows(s, st, blocks, i + 1);
    }
  }

  lemma LastKnown(st: Store, rest: seq<Block>, id: HashT, now: Uint64)
    requires WellFormed(st) && st.env.params.Verified() && id in st.blocks
    ensures rest == [] ==> id in AddBlocks(st, rest, now).0.blocks
  {
  }

  // ---- Transactions ----

  /** Each new transaction finds what it spends among those stored before it. */
  ghost predicate OriginsFirst(st: Store, txs: seq<Tx>)
    decreases txs
  {
    txs == [] ||
    if st.env.hashes.tx(txs[0]) in st.txs then OriginsFirst(st, txs[1..])
    else OriginsStored(st, txs[0]) && OriginsFirst(PutTx(st, txs[0]), txs[1..])
  }

  predicate OriginsStored(st: Store, tx: Tx) {
    forall i :: 0 <= i < |tx.inputs| ==> tx.inputs[i].utxo.txId in st.txs
  }

  lemma TxPasses(s: Store, st: Store, id: HashT)
    requires WellFormed(s) && WellFormed(st) && Agree(s, st) && id in s.txs
    ensures TxOk(st, TxOf(s, id)) <==> OriginsStored(st, TxOf(s, id))
  {
    assert TxRecordOk(s, id);
    var tx := TxOf(s, id);
    forall i | 0 <= i < |tx.inputs| ensures OriginOk(st, tx.inputs[i]) <==> tx.inputs[i].utxo.txId in st.txs {
      assert OriginOk(s, tx.inputs[i]);
    }
  }

  predicate HasTx(s: Store, tx: Tx) { s.env.hashes.tx(tx) in s.txs && TxOf(s, s.env.hashes.tx(tx)) == tx }

  /** They are all stored if and only if that is so: nothing else can be wrong with them. */
  lemma {:induction false} OnlyOrderRefuses(s: Store, n: Node, txs: seq<Tx>)
    requires WellFormed(s) && NodeOk(n) && Agree(s, n.st)
    requires forall i :: 0 <= i < |txs| ==> HasTx(s, txs[i])
    ensures AddTxs(n, txs).1 == Ok <==> OriginsFirst(n.st, txs)
    ensures AddTxs(n, txs).1 == Ok ==>
      && Agree(s, AddTxs(n, txs).0.st)
      && forall i :: 0 <= i < |txs| ==> s.env.hashes.tx(txs[i]) in AddTxs(n, txs).0.st.txs
    decreases txs
  {
    hide WellFormed, ValidChain, ChainTxs, TxOk, OriginsStored, Agree;
    AgreeEnv(s, n.st);
    if txs != [] {
      var id, rest := s.env.hashes.tx(txs[0]), txs[1..];
      TxPasses(s, n.st, id);
      forall i | 0 <= i < |rest| ensures HasTx(s, rest[i]) {
        assert rest[i] == txs[i + 1];
      }
      if id in n.st.txs {
        AddTxsOk(n, rest);
        OnlyOrderRefuses(s, n, rest);
      } else if TxOk(n.st, txs[0]) {
        AddTxOk(n, txs[0]);
        TxTakenOver(s, n.st, id);
        AddTxsOk(WithTx(n, txs[0]), rest);
        OnlyOrderRefuses(s, WithTx(n, txs[0]), rest);
      }
    }
  }

  // ---- The chain ----

  lemma {:induction false} SameFits(s: Store, st: Store, before: seq<HashT>, ids: seq<HashT>)
    requires forall t :: t in before + ids ==> TxOf(st, t) == TxOf(s, t)
    ensures FitsAll(st, before, ids) == FitsAll(s, before, ids)
    decreases |ids|
  {
    hide Unspent;
    if ids != [] {
      var front, t := ids[..|ids| - 1], ids[|ids| - 1];
      assert t in before + ids && forall t :: t in before + front ==> t in before + ids;
      SameFits(s, st, before, front);
      AlikeUnspent(s, st, before + front);
    }
  }

  lemma AlikeUnspent(s: Store, st: Store, ids: seq<HashT>)
    requires forall t :: t in ids ==> TxOf(st, t) == TxOf(s, t)
    ensures Unspent(st, ids) == Unspent(s, ids)
  {
    assert forall t :: t in ids ==> Outs(st, t) == Outs(s, t) && Ins(st, t) == Ins(s, t);
  }

  /** Validity of a chain is in its blocks, not in who holds them. */
  lemma {:induction false} SameValidChain(s: Store, st: Store, b: HashT)
    requires WellFormed(s) && WellFormed(st) && Agree(s, st) && b in s.blocks && b in st.blocks
    requires ValidChain(s, b)
    ensures ValidChain(st, b)
    decreases HeightOf(s, b)
  {
    hide WellFormed, Agree, FitsAll, ChainTxs, BlockTxs;
    WellFormedTree(s);
    WellFormedTree(st);
    if b != 0 {
      SameChainTxs(s, st, b);
      SameBlockTxs(s, st, b);
      ParentAlike(s, st, b);
      SameChainTxs(s, st, Parent(s, b));
      SameValidChain(s, st, Parent(s, b));
      SameFits(s, st, ChainTxs(s, Parent(s, b)), BlockTxs(s, b));
      MinBlocksAlike(s, st, b);
    }
  }

  lemma ParentAlike(s: Store, st: Store, b: HashT)
    requires Agree(s, st) && b in s.blocks && b in st.blocks
    ensures Parent(st, b) == Parent(s, b)
  {
    assert SameBlock(s, st, b);
  }

  lemma MinBlocksAlike(s: Store, st: Store, b: HashT)
    requires BlockTxs(st, b) == BlockTxs(s, b) && HeightOf(st, b) == HeightOf(s, b)
    requires forall t :: t in BlockTxs(s, b) ==> TxOf(st, t) == TxOf(s, t)
    ensures MinBlocksOk(st, b) == MinBlocksOk(s, b)
  {
    hide BlockTxs;
  }

  // ---- All together ----

  /** The event the receiver publishes. */
  function SyncEvent(s: Me, r: Me): HeadEvent {
    var f := Haul(s, r);
    HeadEvent(s.head, Reverse(f.blocks), Reverse(f.merkles), Reverse(f.txs), false)
  }

  lemma SyncEventIs(s: Me, r: Me)
    requires Honest(s, r) && Needed(s, r)
    ensures Haul(s, r).needed != [] && NewEvent(Haul(s, r)) == SyncEvent(s, r)
  {
    hide WellFormed, Invariant, Needed;
    HaulInvariant(s, r);
    HonestChainPasses(s, r);
  }

  lemma {:induction false} AllStored(st: Store, nodes: seq<MerkleNode>)
    requires WellFormed(st) && AddMerkles(st, nodes).1 == Ok
    ensures forall i :: 0 <= i < |nodes| ==> st.env.hashes.merkle(nodes[i]) in AddMerkles(st, nodes).0.merkles
    decreases nodes
  {
    hide WellFormed, CanStoreMerkle;
    if nodes != [] {
      var st1 := if st.env.hashes.merkle(nodes[0]) in st.merkles then st else PutMerkle(st, nodes[0]);
      if st.env.hashes.merkle(nodes[0]) !in st.merkles {
        PutMerkleWellFormed(st, nodes[0]);
      }
      AllStored(st1, nodes[1..]);
      AddMerklesOk(st1, nodes[1..]);
      forall i | 0 <= i < |nodes| ensures st.env.hashes.merkle(nodes[i]) in AddMerkles(st, nodes).0.merkles {
        if i > 0 {
          assert nodes[i] == nodes[1..][i - 1];
        }
      }
    }
  }

  /** With the received nodes stored, so are the new blocks' roots. */
  lemma RootsStored(s: Me, r: Me, st: Store, k: nat)
    requires Honest(s, r) && Needed(s, r) && k < |Haul(s, r).blocks| && Extends(r.st, st)
    requires forall i :: 0 <= i < |Haul(s, r).merkles| ==> s.st.env.hashes.merkle(Haul(s, r).merkles[i]) in st.merkles
    requires Haul(s, r).blocks[k].merkleRoot in s.st.merkles
    ensures Haul(s, r).blocks[k].merkleRoot in st.merkles
  {
    hide WellFormed, Needed, ParentsFirst, AllRooted, Askable, Fetched;
    HaulInvariant(s, r);
    NoCollisionAgree(s.st, r.st);
    WellFormedSeparate(s.st);
    var f, root := Haul(s, r), Haul(s, r).blocks[k].merkleRoot;
    assert Noted(r.st, f, root);
    ReceivedIds(s.st, r.st, f, root);
    if root in MerkleIds(s.st.env.hashes, f) {
      var i :| 0 <= i < |f.merkles| && MerkleIds(s.st.env.hashes, f)[i] == root;
    }
  }

  lemma BlockInOrder(s: Me, r: Me, st: Store, i: nat)
    requires Honest(s, r) && Needed(s, r) && i < |Haul(s, r).blocks| && Extends(r.st, st)
    requires forall i :: 0 <= i < |Haul(s, r).merkles| ==> s.st.env.hashes.merkle(Haul(s, r).merkles[i]) in st.merkles
    ensures Follows(s.st, st, Reverse(Haul(s, r).blocks), i)
  {
    hide WellFormed, Needed, Invariant, Haul, Missing, FirstKnown;
    HaulInvariant(s, r);
    HonestChainPasses(s, r);
    SameWorkAtLca(s, r);
    var ids, k := NeededIds(s, r), |Haul(s, r).blocks| - 1 - i;
    assert GoodLink(s.st, ids, Lca(s, r), k);
    assert k + 1 < |ids| ==> GoodLink(s.st, ids, Lca(s, r), k + 1);
    IdNotZero(s.st, ids[k]);
    RootsStored(s, r, st, k);
  }

  lemma IdNotZero(s: Store, id: HashT)
    requires WellFormed(s) && id in s.blocks && BlockOf(s, id).target > id && s.env.hashes.BlockId(BlockOf(s, id)) == id
    ensures id != 0 && BlockOf(s, id).merkleRoot in s.merkles
  {
    assert BlockRecordOk(s, id);
  }

  lemma VerdictAtEnd(s: Store, newHead: HashT, n: Node)
    requires WellFormed(s) && NodeOk(n) && Complete(n) && Agree(s, n.st)
    requires newHead in s.blocks && newHead in n.st.blocks && ValidChain(s, newHead)
    requires WorkOf(n.st, n.head) < WorkOf(s, newHead)
    ensures Verdict(n, newHead, false) == Ok <==> !Stuck(n.st, n.head, newHead)
  {
    hide WellFormed, Agree, ValidChain, ChainTxs, Stuck;
    SameValidChain(s, n.st, newHead);
    SameChainTxs(s, n.st, newHead);
    ChainTxsStored(n.st, newHead);
  }

  lemma TxsDeliverable(s: Me, r: Me, n: Node)
    requires Honest(s, r) && Needed(s, r) && NodeOk(n) && n.st == r.st
    ensures var f, (n1, r1) := Haul(s, r), AddTxs(n, Reverse(Haul(s, r).txs));
      && (r1 == Ok <==> OriginsFirst(n.st, Reverse(f.txs)))
      && (r1 == Ok ==> Agree(s.st, n1.st) && forall i :: 0 <= i < |f.txs| ==> TxIds(s.st.env.hashes, f)[i] in n1.st.txs)
  {
    hide *;
    HonestParts(s, r);
    HaulInvariant(s, r);
    SoundTxs(s.st, r.st, Haul(s, r));
    ReversedTxs(s.st, n, Haul(s, r));
  }

  lemma HonestParts(s: Me, r: Me)
    requires Honest(s, r)
    ensures WellFormed(s.st) && Agree(s.st, r.st) && s.st.env == r.st.env
  {
    hide WellFormed, Agree, NoCollision;
    NoCollisionAgree(s.st, r.st);
  }

  lemma SoundTxs(s: Store, r: Store, f: Fetching)
    requires Invariant(s, r, f)
    ensures forall i :: 0 <= i < |f.txs| ==> HasTx(s, f.txs[i])
  {
    hide Closing, ParentsFirst, AllRooted, Askable;
    forall i | 0 <= i < |f.txs| ensures HasTx(s, f.txs[i]) {
      assert TxIds(s.env.hashes, f)[i] in s.txs;
    }
  }

  lemma ReversedTxs(s: Store, n: Node, f: Fetching)
    requires WellFormed(s) && NodeOk(n) && Agree(s, n.st)
    requires forall i :: 0 <= i < |f.txs| ==> HasTx(s, f.txs[i])
    ensures var (n1, r1) := AddTxs(n, Reverse(f.txs));
      && (r1 == Ok <==> OriginsFirst(n.st, Reverse(f.txs)))
      && (r1 == Ok ==> Agree(s, n1.st) && forall i :: 0 <= i < |f.txs| ==> TxIds(s.env.hashes, f)[i] in n1.st.txs)
  {
    hide WellFormed, ChainOk, OriginsFirst, TxOf, AddTxs, Agree;
    var rev := Reverse(f.txs);
    OnlyOrderRefuses(s, n, rev);
    if AddTxs(n, rev).1 == Ok {
      forall i | 0 <= i < |f.txs| ensures TxIds(s.env.hashes, f)[i] in AddTxs(n, rev).0.st.txs {
        assert rev[|rev| - 1 - i] == f.txs[i];
      }
    }
  }

  lemma MerklesThenBlocks(s: Me, r: Me, st1: Store, now: Uint64)
    requires Honest(s, r) && Needed(s, r) && ValidChain(s.st, s.head)
    requires WellFormed(st1) && Extends(r.st, st1) && Agree(s.st, st1) && st1.env.params.Verified()
    requires forall i :: 0 <= i < |Haul(s, r).txs| ==> TxIds(s.st.env.hashes, Haul(s, r))[i] in st1.txs
    ensures var ev := SyncEvent(s, r);
      var (st2, r2) := AddMerkles(st1, ev.merkles);
      && r2 == Ok && WellFormed(st2) && Extends(st1, st2) && st2.txs == st1.txs && st2.env == st1.env
      && (AddBlocks(st2, ev.blocks, now).1 == Ok <==> TimesFine(st2, ev.blocks, now))
      && (AddBlocks(st2, ev.blocks, now).1 == Ok ==>
            Agree(s.st, AddBlocks(st2, ev.blocks, now).0) && s.head in AddBlocks(st2, ev.blocks, now).0.blocks)
  {
    hide WellFormed, Needed, Haul, Extends, TimesFine, ValidChain, NeededIds, Agree, NoCollision;
    var f, h, ev := Haul(s, r), s.st.env.hashes, SyncEvent(s, r);
    MerklesDeliverable(s, r, st1);
    AddMerklesOk(st1, ev.merkles);
    AllStored(st1, ev.merkles);
    var st2 := AddMerkles(st1, ev.merkles).0;
    ExtendsTransitive(r.st, st1, st2);
    ExtendsEnv(r.st, st1);
    ExtendsEnv(st1, st2);
    forall i | 0 <= i < |f.merkles| ensures h.merkle(f.merkles[i]) in st2.merkles {
      assert ev.merkles[|f.merkles| - 1 - i] == f.merkles[i];
    }
    BlocksThen(s, r, st2, now);
  }

  lemma ExtendsEnv(a: Store, b: Store)
    requires Extends(a, b)
    ensures b.env == a.env
  {
  }

  lemma BlocksThen(s: Me, r: Me, st2: Store, now: Uint64)
    requires Honest(s, r) && Needed(s, r) && WellFormed(st2) && Extends(r.st, st2) && Agree(s.st, st2)
    requires st2.env.params.Verified()
    requires forall i :: 0 <= i < |Haul(s, r).merkles| ==> s.st.env.hashes.merkle(Haul(s, r).merkles[i]) in st2.merkles
    ensures var blocks := SyncEvent(s, r).blocks;
      && (AddBlocks(st2, blocks, now).1 == Ok <==> TimesFine(st2, blocks, now))
      && (AddBlocks(st2, blocks, now).1 == Ok ==>
            Agree(s.st, AddBlocks(st2, blocks, now).0) && s.head in AddBlocks(st2, blocks, now).0.blocks)
  {
    hide WellFormed, Needed, Haul, TimesFine, NeededIds, Invariant, GoodLink, AddBlocks, Follows, Agree, NoCollision;
    ExtendsEnv(r.st, st2);
    var f, blocks := Haul(s, r), SyncEvent(s, r).blocks;
    HaulInvariant(s, r);
    HonestChainPasses(s, r);
    FirstIsHead(s, r);
    forall i | 0 <= i < |blocks| ensures Follows(s.st, st2, blocks, i) {
      BlockInOrder(s, r, st2, i);
    }
    OnlyTimesRefuse(s.st, st2, blocks, now);
  }

  lemma FirstIsHead(s: Me, r: Me)
    requires Honest(s, r) && Needed(s, r)
    ensures var blocks := SyncEvent(s, r).blocks;
      blocks != [] && s.st.env.hashes.BlockId(blocks[|blocks| - 1]) == s.head
  {
    hide WellFormed, Needed, Haul, NeededIds, Invariant;
    HaulInvariant(s, r);
    HonestChainPasses(s, r);
    assert GoodLink(s.st, NeededIds(s, r), Lca(s, r), 0);
  }

  /** An honest sync takes effect on the receiver's chain exactly when every transaction comes after
      those it spends from, the times of the blocks are accepted, and the old chain can be rewound. */
  lemma SyncTakesEffect(s: Me, r: Me, n: Node, now: Uint64)
    requires Honest(s, r) && Needed(s, r) && ValidChain(s.st, s.head)
    requires NodeOk(n) && Complete(n) && n.st == r.st && n.head == r.head && n.st.env.params.Verified()
    ensures var ev := SyncEvent(s, r);
            var n1 := AddTxs(n, ev.txs).0;
            var st2 := AddMerkles(n1.st, ev.merkles).0;
      && st2.env == n.st.env
      && var st3 := AddBlocks(st2, ev.blocks, now).0;
         (HandleHead(n, ev, now).1 == Ok <==>
            OriginsFirst(n.st, ev.txs) && TimesFine(st2, ev.blocks, now) && !Stuck(st3, n.head, s.head))
  {
    hide WellFormed, ValidChain, ChainTxs, Needed, Haul, Stuck, TimesFine, OriginsFirst, Extends, Verdict, Agree,
      NoCollision;
    var ev := SyncEvent(s, r);
    var (n1, r1) := AddTxs(n, ev.txs);
    TxsDeliverable(s, r, n);
    AddTxsOk(n, ev.txs);
    AddEnv(n, ev);
    if r1 == Ok {
      ExtendsEnv(n.st, n1.st);
      MerklesThenBlocks(s, r, n1.st, now);
      var st2 := AddMerkles(n1.st, ev.merkles).0;
      ExtendsTransitive(n.st, n1.st, st2);
      SameChain(n1, st2);
      var (st3, r3) := AddBlocks(st2, ev.blocks, now);
      if r3 == Ok {
        AddBlocksOk(st2, ev.blocks, now);
        ExtendsTransitive(n.st, st2, st3);
        SameChain(n1.(st := st2), st3);
        ExtendsEnv(n.st, st3);
        WorkKept(n.st, st3, n.head);
        WorkNeeded(s, r);
        VerdictAtEnd(s.st, s.head, n1.(st := st3));
      }
    }
  }

  lemma WorkKept(st: Store, st': Store, b: HashT)
    requires Extends(st, st') && b in st.blocks
    ensures WorkOf(st', b) == WorkOf(st, b)
  {
  }

  lemma WorkNeeded(s: Me, r: Me)
    requires Needed(s, r)
    ensures WorkOf(r.st, r.head) < WorkOf(s.st, s.head)
  {
  }
}
