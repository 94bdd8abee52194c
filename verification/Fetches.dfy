/** What the receiver of a sync brings home: everything the new blocks refer to, each thing once,
    in an order it can be stored in. */
module Fetches {
  import opened Core
  import opened Forest
  import opened Rules
  import opened Ancestry
  import opened Ledger
  import opened Agreement
  import opened Merkle
  import opened Sync
  import opened Trees

  function NodeId(h: Hashes, f: Fetching, i: nat): HashT
    requires i < |f.merkles|
  {
    h.merkle(f.merkles[i])
  }

  function MerkleIds(h: Hashes, f: Fetching): seq<HashT> { IdsOf(h, f.merkles) }

  function TxIds(h: Hashes, f: Fetching): seq<HashT> {
    seq<HashT>(|f.txs|, i requires 0 <= i < |f.txs| => h.tx(f.txs[i]))
  }

  // ---- What holds all along ----

  /** What was received is what the sender has and the receiver had not, each once. */
  ghost predicate Sound(s: Store, r: Store, f: Fetching) {
    var h := s.env.hashes;
    && ToSet(MerkleIds(h, f)) + ToSet(TxIds(h, f)) == f.received
    && NoDup(MerkleIds(h, f)) && NoDup(TxIds(h, f))
    && (forall i :: 0 <= i < |f.merkles| ==> Stored(s, f.merkles[i]) && !HasEntity(r, NodeId(h, f, i)))
    && (forall i :: 0 <= i < |f.txs| ==>
          TxIds(h, f)[i] in s.txs && TxOf(s, TxIds(h, f)[i]) == f.txs[i] && !HasEntity(r, TxIds(h, f)[i]))
  }

  predicate InHand(r: Store, f: Fetching, id: HashT) { HasEntity(r, id) || id in f.received }

  /** Whatever is referred to is in hand or still in the queue. */
  ghost predicate Closing(r: Store, f: Fetching) {
    && (forall i :: 0 <= i < |f.blocks| ==> Noted(r, f, f.blocks[i].merkleRoot))
    && (forall i :: 0 <= i < |f.merkles| ==> Noted(r, f, f.merkles[i].lChild) && Noted(r, f, f.merkles[i].rChild))
  }

  predicate Noted(r: Store, f: Fetching, id: HashT) { InHand(r, f, id) || id in f.queue }

  /** A block's root, or a child of one of the first `n` nodes received. */
  ghost predicate Referred(f: Fetching, id: HashT, n: nat)
    requires n <= |f.merkles|
  {
    || (exists k :: 0 <= k < |f.blocks| && f.blocks[k].merkleRoot == id)
    || (exists j :: 0 <= j < n && ChildOfNode(f, id, j))
  }

  predicate ChildOfNode(f: Fetching, id: HashT, j: nat)
    requires j < |f.merkles|
  {
    id == f.merkles[j].lChild || id == f.merkles[j].rChild
  }

  /** Nothing is fetched, or queued, before something refers to it. */
  ghost predicate ParentsFirst(h: Hashes, f: Fetching) {
    && (forall i :: 0 <= i < |f.merkles| ==> Referred(f, NodeId(h, f, i), i))
    && (forall i :: 0 <= i < |f.queue| ==> Referred(f, f.queue[i], |f.merkles|))
  }

  // ---- It does ----

  lemma SoundMerkle(s: Store, r: Store, f: Fetching, id: HashT, node: MerkleNode)
    requires Sound(s, r, f) && !InHand(r, f, id) && s.env.hashes.merkle(node) == id && Stored(s, node)
    ensures Sound(s, r, PlusMerkle(f, id, node))
  {
    var h, g := s.env.hashes, PlusMerkle(f, id, node);
    assert MerkleIds(h, g) == MerkleIds(h, f) + [id];
    assert TxIds(h, g) == TxIds(h, f);
    assert id !in MerkleIds(h, f) by { assert id !in ToSet(MerkleIds(h, f)); }
    NoDupAppend(MerkleIds(h, f), [id]);
    assert ToSet(MerkleIds(h, g)) == ToSet(MerkleIds(h, f)) + {id};
    forall i | 0 <= i < |g.merkles| ensures Stored(s, g.merkles[i]) && !HasEntity(r, NodeId(h, g, i)) {
      if i < |f.merkles| {
        assert !HasEntity(r, NodeId(h, f, i));
      }
    }
    forall i | 0 <= i < |g.txs|
      ensures TxIds(h, g)[i] in s.txs && TxOf(s, TxIds(h, g)[i]) == g.txs[i] && !HasEntity(r, TxIds(h, g)[i])
    {
      assert TxIds(h, g)[i] == TxIds(h, f)[i];
    }
  }

  lemma SoundTx(s: Store, r: Store, f: Fetching, id: HashT, tx: Tx)
    requires Sound(s, r, f) && !InHand(r, f, id) && s.env.hashes.tx(tx) == id && id in s.txs && TxOf(s, id) == tx
    ensures Sound(s, r, PlusTx(f, id, tx))
  {
    var h, g := s.env.hashes, PlusTx(f, id, tx);
    assert TxIds(h, g) == TxIds(h, f) + [id];
    assert MerkleIds(h, g) == MerkleIds(h, f);
    assert id !in TxIds(h, f) by { assert id !in ToSet(TxIds(h, f)); }
    NoDupAppend(TxIds(h, f), [id]);
    assert ToSet(TxIds(h, g)) == ToSet(TxIds(h, f)) + {id};
    forall i | 0 <= i < |g.merkles| ensures Stored(s, g.merkles[i]) && !HasEntity(r, NodeId(h, g, i)) {
      assert !HasEntity(r, NodeId(h, f, i));
    }
    forall i | 0 <= i < |g.txs|
      ensures TxIds(h, g)[i] in s.txs && TxOf(s, TxIds(h, g)[i]) == g.txs[i] && !HasEntity(r, TxIds(h, g)[i])
    {
      if i < |f.txs| {
        assert TxIds(h, g)[i] == TxIds(h, f)[i];
      }
    }
  }

  lemma SoundPopped(s: Store, r: Store, f: Fetching)
    requires f.queue != [] && Sound(s, r, f)
    ensures Sound(s, r, Popped(f))
  {
    var h, g := s.env.hashes, Popped(f);
    assert MerkleIds(h, g) == MerkleIds(h, f) && TxIds(h, g) == TxIds(h, f);
    forall i | 0 <= i < |g.merkles| ensures !HasEntity(r, NodeId(h, g, i)) {
      assert !HasEntity(r, NodeId(h, f, i));
    }
  }

  lemma SoundKept(s: Store, r: Store, f: Fetching)
    requires Answers(s) && f.queue != [] && HasEntity(s, f.queue[0]) && Sound(s, r, f)
    ensures Sound(s, r, Handled(s, r, f))
  {
    hide Sound, Answers, Stored;
    var id := f.queue[0];
    AnswersId(s, id);
    SoundPopped(s, r, f);
    if !InHand(r, f, id) {
      if id in s.merkles {
        SoundMerkle(s, r, Popped(f), id, s.merkles[id].merkle);
      } else {
        SoundTx(s, r, Popped(f), id, TxOf(s, id));
      }
    }
  }

  lemma ClosingKept(s: Store, r: Store, f: Fetching)
    requires f.queue != [] && Closing(r, f)
    ensures Closing(r, Handled(s, r, f))
  {
    var g, id := Handled(s, r, f), f.queue[0];
    forall x | Noted(r, f, x) ensures Noted(r, g, x) {
      assert f.queue == [id] + f.queue[1..];
      assert forall y :: y in f.queue ==> y == id || y in f.queue[1..];
      if !InHand(r, f, id) && id in s.merkles {
        assert forall y :: y in f.queue[1..] ==> y in g.queue;
      }
    }
    forall i | 0 <= i < |g.merkles| ensures Noted(r, g, g.merkles[i].lChild) && Noted(r, g, g.merkles[i].rChild) {
      if i < |f.merkles| {
        assert Noted(r, f, f.merkles[i].lChild) && Noted(r, f, f.merkles[i].rChild);
      } else {
        assert g.queue[|g.queue| - 2] == g.merkles[i].lChild && g.queue[|g.queue| - 1] == g.merkles[i].rChild;
      }
    }
  }

  lemma ReferredKept(f: Fetching, g: Fetching, id: HashT, n: nat)
    requires n <= |f.merkles| && g.blocks == f.blocks && f.merkles <= g.merkles && Referred(f, id, n)
    ensures Referred(g, id, n)
  {
    if j :| 0 <= j < n && ChildOfNode(f, id, j) {
      assert ChildOfNode(g, id, j);
    }
  }

  lemma ReferredMore(f: Fetching, id: HashT, n: nat, m: nat)
    requires n <= m <= |f.merkles| && Referred(f, id, n)
    ensures Referred(f, id, m)
  {
  }

  lemma ParentsFirstKept(s: Store, r: Store, f: Fetching)
    requires Answers(s) && f.queue != [] && HasEntity(s, f.queue[0]) && ParentsFirst(s.env.hashes, f)
    ensures ParentsFirst(s.env.hashes, Handled(s, r, f))
  {
    hide Referred, Answers;
    var h, g, id := s.env.hashes, Handled(s, r, f), f.queue[0];
    AnswersId(s, id);
    assert Referred(f, id, |f.merkles|);
    forall i | 0 <= i < |g.merkles| ensures Referred(g, NodeId(h, g, i), i) {
      if i < |f.merkles| {
        assert Referred(f, NodeId(h, f, i), i);
        ReferredKept(f, g, NodeId(h, f, i), i);
      } else {
        ReferredKept(f, g, id, i);
      }
    }
    forall i | 0 <= i < |g.queue| ensures Referred(g, g.queue[i], |g.merkles|) {
      if i < |f.queue| - 1 {
        assert g.queue[i] == f.queue[i + 1];
        ReferredKept(f, g, f.queue[i + 1], |f.merkles|);
        ReferredMore(g, f.queue[i + 1], |f.merkles|, |g.merkles|);
      } else {
        assert ChildOfNode(g, g.queue[i], |g.merkles| - 1);
        ReferredByNode(g, g.queue[i], |g.merkles| - 1);
      }
    }
  }

  lemma ReferredByNode(f: Fetching, id: HashT, j: nat)
    requires j < |f.merkles| && ChildOfNode(f, id, j)
    ensures Referred(f, id, |f.merkles|)
  {
  }

  lemma AnswersId(s: Store, id: HashT)
    requires Answers(s)
    ensures id in s.merkles ==> s.env.hashes.merkle(s.merkles[id].merkle) == id && Stored(s, s.merkles[id].merkle)
    ensures id in s.txs ==> s.env.hashes.tx(TxOf(s, id)) == id
  {
  }

  /** Every node and every queued id lies below one of the roots. */
  ghost predicate FromRoot(s: Store, blocks: seq<Block>, id: HashT, k: nat, d: nat)
    requires k < |blocks|
  {
    Below(s, blocks[k].merkleRoot, id, d)
  }

  ghost predicate Rooted(s: Store, blocks: seq<Block>, id: HashT) {
    exists k, d :: 0 <= k < |blocks| && 0 <= d && FromRoot(s, blocks, id, k, d)
  }

  ghost predicate AllRooted(s: Store, f: Fetching) {
    && (forall i :: 0 <= i < |f.merkles| ==> Rooted(s, f.blocks, NodeId(s.env.hashes, f, i)))
    && (forall i :: 0 <= i < |f.queue| ==> Rooted(s, f.blocks, f.queue[i]))
  }

  lemma {:induction false} BelowChild(s: Store, x: HashT, m: HashT, c: HashT, d: nat)
    requires Below(s, x, m, d) && IsChild(s, c, m)
    ensures Below(s, x, c, d + 1)
    decreases d
  {
    if m == x {
      assert Below(s, c, c, d);
    } else if Below(s, LeftOf(s, x), m, d - 1) {
      BelowChild(s, LeftOf(s, x), m, c, d - 1);
    } else {
      BelowChild(s, RightOf(s, x), m, c, d - 1);
    }
  }

  lemma RootedChild(s: Store, blocks: seq<Block>, m: HashT, c: HashT)
    requires Rooted(s, blocks, m) && IsChild(s, c, m)
    ensures Rooted(s, blocks, c)
  {
    var k, d :| 0 <= k < |blocks| && 0 <= d && FromRoot(s, blocks, m, k, d);
    BelowChild(s, blocks[k].merkleRoot, m, c, d);
    assert FromRoot(s, blocks, c, k, d + 1);
  }

  lemma AllRootedKept(s: Store, r: Store, f: Fetching)
    requires Answers(s) && f.queue != [] && HasEntity(s, f.queue[0]) && AllRooted(s, f)
    ensures AllRooted(s, Handled(s, r, f))
  {
    hide Rooted, Answers;
    var h, g, id := s.env.hashes, Handled(s, r, f), f.queue[0];
    AnswersId(s, id);
    forall i | 0 <= i < |g.merkles| ensures Rooted(s, g.blocks, NodeId(h, g, i)) {
      if i < |f.merkles| {
        assert Rooted(s, f.blocks, NodeId(h, f, i));
      }
    }
    forall i | 0 <= i < |g.queue| ensures Rooted(s, g.blocks, g.queue[i]) {
      if i < |f.queue| - 1 {
        assert g.queue[i] == f.queue[i + 1];
      } else {
        RootedChild(s, f.blocks, id, g.queue[i]);
      }
    }
  }

  ghost predicate Invariant(s: Store, r: Store, f: Fetching) {
    Askable(s, f) && Sound(s, r, f) && Closing(r, f) && ParentsFirst(s.env.hashes, f) && AllRooted(s, f)
  }

  lemma {:induction false} FetchedKeeps(s: Store, r: Store, f: Fetching)
    requires Answers(s) && Invariant(s, r, f)
    ensures Invariant(s, r, Fetched(s, r, f)) && Fetched(s, r, f).queue == []
    ensures Fetched(s, r, f).blocks == f.blocks && Fetched(s, r, f).needed == f.needed
    decreases Unfetched(s, f), |f.queue|
  {
    hide Answers, Askable, Sound, Closing, ParentsFirst, AllRooted;
    if f.queue != [] {
      HandledAskable(s, r, f);
      SoundKept(s, r, f);
      ClosingKept(s, r, f);
      ParentsFirstKept(s, r, f);
      AllRootedKept(s, r, f);
      FetchedKeeps(s, r, Handled(s, r, f));
    }
  }

  lemma InvariantAtStart(s: Me, r: Me)
    requires Askable(s.st, FirstFetch(s, r))
    ensures Invariant(s.st, r.st, FirstFetch(s, r))
  {
    hide Askable, Missing;
    var f := FirstFetch(s, r);
    assert MerkleIds(s.st.env.hashes, f) == [] && TxIds(s.st.env.hashes, f) == [];
    forall i | 0 <= i < |f.blocks|
      ensures Noted(r.st, f, f.blocks[i].merkleRoot) && Rooted(s.st, f.blocks, f.queue[i])
    {
      assert f.queue[i] == f.blocks[i].merkleRoot;
      assert FromRoot(s.st, f.blocks, f.queue[i], i, 0);
    }
  }

  /** What a finished sync has brought home. */
  lemma HaulInvariant(s: Me, r: Me)
    requires Honest(s, r) && Needed(s, r)
    ensures Invariant(s.st, r.st, Haul(s, r)) && Haul(s, r).queue == []
    ensures Haul(s, r).blocks == BlocksOf(s.st, NeededIds(s, r)) && Haul(s, r).needed == NeededIds(s, r)
  {
    hide Honest, Needed, GoodLink, Invariant, Answers, Askable;
    HonestChainPasses(s, r);
    RootsAskable(s, r);
    InvariantAtStart(s, r);
    FetchedKeeps(s.st, r.st, FirstFetch(s, r));
  }

  // ---- Completeness ----

  lemma ReceivedIds(s: Store, r: Store, f: Fetching, x: HashT)
    requires Separate(s) && Sound(s, r, f)
    ensures x in MerkleIds(s.env.hashes, f) ==> x in s.merkles && x !in s.txs
    ensures x in TxIds(s.env.hashes, f) ==> x in s.txs && x !in s.merkles
    ensures x in f.received <==> x in MerkleIds(s.env.hashes, f) || x in TxIds(s.env.hashes, f)
  {
    var h := s.env.hashes;
    assert forall i :: 0 <= i < |f.merkles| ==> Stored(s, f.merkles[i]);
    assert forall i :: 0 <= i < |f.merkles| ==> MerkleIds(h, f)[i] == h.merkle(f.merkles[i]);
    assert x in f.received <==> x in ToSet(MerkleIds(h, f)) || x in ToSet(TxIds(h, f));
  }

  lemma ReceivedChild(s: Store, r: Store, f: Fetching, x: HashT, c: HashT)
    requires Separate(s) && Sound(s, r, f) && Closing(r, f) && f.queue == []
    requires x in f.received && IsChild(s, c, x)
    ensures InHand(r, f, c)
  {
    ReceivedIds(s, r, f, x);
    var i :| 0 <= i < |f.merkles| && MerkleIds(s.env.hashes, f)[i] == x;
    assert Stored(s, f.merkles[i]);
    assert Noted(r, f, f.merkles[i].lChild) && Noted(r, f, f.merkles[i].rChild);
  }

  lemma KnownChild(s: Store, r: Store, x: HashT, c: HashT)
    requires WellFormed(r) && Agree(s, r) && HasEntity(r, x) && IsChild(s, c, x)
    ensures HasEntity(r, c)
  {
    assert x in r.merkles;
    NodeParts(r, x);
  }

  /** A closed inventory and a finished fetch: whatever lies below a thing in hand is in hand. */
  lemma {:induction false} AllInHand(s: Store, r: Store, f: Fetching, x: HashT, m: HashT, d: nat)
    requires WellFormed(s) && WellFormed(r) && Agree(s, r)
    requires Sound(s, r, f) && Closing(r, f) && f.queue == []
    requires InHand(r, f, x) && Below(s, x, m, d)
    ensures InHand(r, f, m)
    decreases d
  {
    hide WellFormed, Agree, Sound, Closing;
    if m != x {
      var c := if Below(s, LeftOf(s, x), m, d - 1) then LeftOf(s, x) else RightOf(s, x);
      WellFormedSeparate(s);
      if HasEntity(r, x) {
        KnownChild(s, r, x, c);
      } else {
        ReceivedChild(s, r, f, x, c);
      }
      AllInHand(s, r, f, c, m, d - 1);
    }
  }

  /** The receiver ends up holding everything that lies below the new blocks' roots. */
  lemma HaulComplete(s: Me, r: Me, k: nat, m: HashT, d: nat)
    requires Honest(s, r) && Needed(s, r)
    requires k < |NeededIds(s, r)| && Below(s.st, BlockOf(s.st, NeededIds(s, r)[k]).merkleRoot, m, d)
    ensures InHand(r.st, Haul(s, r), m)
  {
    hide WellFormed, Agree, Needed, Sound, Missing, Below;
    HaulInvariant(s, r);
    NoCollisionAgree(s.st, r.st);
    var f := Haul(s, r);
    assert Noted(r.st, f, f.blocks[k].merkleRoot);
    AllInHand(s.st, r.st, f, f.blocks[k].merkleRoot, m, d);
  }

  /** In particular the transactions of each new block, in the inventory or among those received. */
  lemma {:induction false} LeafBelow(st: Store, ids: seq<HashT>, depth: nat, t: HashT)
    requires t in LevelOrder(st, ids, depth)
    ensures exists i :: 0 <= i < |ids| && Below(st, ids[i], t, depth)
    decreases depth
  {
    if t in TxsIn(st, ids) {
      TxsInMembers(st, ids);
      var i :| 0 <= i < |ids| && ids[i] == t;
      assert Below(st, ids[i], t, depth);
    } else {
      var next := Expand(st, ids);
      assert t in LevelOrder(st, next, depth - 1);
      LeafBelow(st, next, depth - 1, t);
      var j :| 0 <= j < |next| && Below(st, next[j], t, depth - 1);
      ExpandMembers(st, ids);
      assert next[j] in next;
      var i :| 0 <= i < |ids| && next[j] in ChildrenOf(st, ids[i]);
      assert Below(st, ids[i], t, depth);
    }
  }

  lemma NewTxsInHand(s: Me, r: Me, k: nat, t: HashT)
    requires Honest(s, r) && Needed(s, r)
    requires k < |NeededIds(s, r)| && t in BlockTxs(s.st, NeededIds(s, r)[k])
    ensures t in r.st.txs || t in TxIds(s.st.env.hashes, Haul(s, r))
  {
    hide WellFormed, Needed, Missing, Below, Invariant;
    var root := BlockOf(s.st, NeededIds(s, r)[k]).merkleRoot;
    LeafBelow(s.st, [root], MaxDepth(s.st), t);
    assert Below(s.st, root, t, MaxDepth(s.st));
    HaulComplete(s, r, k, t, MaxDepth(s.st));
    HaulInvariant(s, r);
    TxInHand(s, r, t, root);
  }

  lemma TxInHand(s: Me, r: Me, t: HashT, root: HashT)
    requires Honest(s, r) && InHand(r.st, Haul(s, r), t) && Invariant(s.st, r.st, Haul(s, r))
    requires t in TxIdsUnder(s.st, root)
    ensures t in r.st.txs || t in TxIds(s.st.env.hashes, Haul(s, r))
  {
    hide WellFormed, Closing, ParentsFirst, AllRooted, Askable, Fetched, Sound, LevelOrder;
    NoCollisionAgree(s.st, r.st);
    WellFormedSeparate(s.st);
    LevelOrderMembers(s.st, [root], MaxDepth(s.st));
    ReceivedIds(s.st, r.st, Haul(s, r), t);
  }

  // ---- Order ----

  /** The trees of different blocks have no transaction in common. */
  ghost predicate Apart(s: Store, blocks: seq<Block>) {
    forall k, k' :: 0 <= k < k' < |blocks| ==> RootsApart(s, blocks[k].merkleRoot, blocks[k'].merkleRoot)
  }

  ghost predicate RootsApart(s: Store, x: HashT, y: HashT) {
    ToSet(TxIdsUnder(s, x)) !! ToSet(TxIdsUnder(s, y))
  }

  lemma {:induction false} MissingApart(s: Store, r: Store, id: HashT)
    requires WellFormed(s) && 0 in r.blocks && id in s.blocks && ValidChain(s, id)
    ensures var ids := Missing(s, r, id);
      && (forall k :: 0 <= k < |ids| ==> ToSet(BlockTxs(s, ids[k])) <= ToSet(ChainTxs(s, id)))
      && Apart(s, BlocksOf(s, ids))
    decreases HeightOf(s, id)
  {
    hide WellFormed, BlockTxs, ValidBlock;
    WellFormedTree(s);
    if id !in r.blocks {
      var p, ids, rest := Parent(s, id), Missing(s, r, id), Missing(s, r, Parent(s, id));
      MissingApart(s, r, p);
      ValidChainFits(s, id);
      NoDupAppend(ChainTxs(s, p), BlockTxs(s, id));
      assert ids == [id] + rest;
      forall k | 0 <= k < |ids| ensures ToSet(BlockTxs(s, ids[k])) <= ToSet(ChainTxs(s, id)) {
        assert k > 0 ==> ids[k] == rest[k - 1];
      }
      ApartFirst(s, id, rest, ToSet(ChainTxs(s, p)));
    }
  }

  lemma ApartFirst(s: Store, id: HashT, rest: seq<HashT>, older: set<HashT>)
    requires Apart(s, BlocksOf(s, rest)) && ToSet(BlockTxs(s, id)) !! older
    requires forall k :: 0 <= k < |rest| ==> ToSet(BlockTxs(s, rest[k])) <= older
    ensures Apart(s, BlocksOf(s, [id] + rest))
  {
    hide TxIdsUnder;
    var ids := [id] + rest;
    var blocks := BlocksOf(s, ids);
    forall k, k' | 0 <= k < k' < |blocks| ensures RootsApart(s, blocks[k].merkleRoot, blocks[k'].merkleRoot) {
      assert ids[k'] == rest[k' - 1];
      if k > 0 {
        assert ids[k] == rest[k - 1];
        assert RootsApart(s, BlocksOf(s, rest)[k - 1].merkleRoot, BlocksOf(s, rest)[k' - 1].merkleRoot);
      } else {
        assert ToSet(BlockTxs(s, rest[k' - 1])) <= older;
      }
    }
  }

  lemma {:induction false} BelowDeeper(s: Store, x: HashT, m: HashT, d: nat, e: nat)
    requires d <= e && Below(s, x, m, d)
    ensures Below(s, x, m, e)
    decreases e
  {
    if d < e {
      BelowDeeper(s, x, m, d, e - 1);
      DeeperIsFine(s, x, m, e - 1);
    }
  }

  /** What the proofs about order need of a finished fetch. */
  ghost predicate Tidy(s: Store, f: Fetching) {
    && WellFormed(s) && Apart(s, f.blocks)
    && forall k :: 0 <= k < |f.blocks| ==> HasEntity(s, f.blocks[k].merkleRoot)
  }

  lemma SharedLeaf(s: Store, f: Fetching, a: HashT, b: HashT, t: HashT, k: nat, k': nat, d: nat, d': nat)
    requires Tidy(s, f) && k < |f.blocks| && k' < |f.blocks|
    requires FromRoot(s, f.blocks, a, k, d) && FromRoot(s, f.blocks, b, k', d')
    requires t in TxIdsUnder(s, a) && t in TxIdsUnder(s, b)
    ensures k == k'
  {
    hide WellFormed, TxIdsUnder;
    BelowLeaves(s, f.blocks[k].merkleRoot, a, d);
    BelowLeaves(s, f.blocks[k'].merkleRoot, b, d');
    assert t in ToSet(TxIdsUnder(s, a)) && t in ToSet(TxIdsUnder(s, b));
    if k != k' {
      ApartAt(s, f.blocks, k, k', t);
    }
  }

  lemma ApartAt(s: Store, blocks: seq<Block>, k: nat, k': nat, t: HashT)
    requires Apart(s, blocks) && k < |blocks| && k' < |blocks| && k != k'
    ensures !(t in TxIdsUnder(s, blocks[k].merkleRoot) && t in TxIdsUnder(s, blocks[k'].merkleRoot))
  {
    hide TxIdsUnder;
    var a, b := TxIdsUnder(s, blocks[k].merkleRoot), TxIdsUnder(s, blocks[k'].merkleRoot);
    assert (t in a <==> t in ToSet(a)) && (t in b <==> t in ToSet(b));
    if k < k' {
      assert RootsApart(s, blocks[k].merkleRoot, blocks[k'].merkleRoot);
    } else {
      assert RootsApart(s, blocks[k'].merkleRoot, blocks[k].merkleRoot);
    }
  }

  /** Across all the trees, two nodes with a common child are one node. */
  lemma OneParentOverall(s: Store, f: Fetching, a: HashT, b: HashT, c: HashT)
    requires Tidy(s, f) && Rooted(s, f.blocks, a) && Rooted(s, f.blocks, b)
    requires IsChild(s, c, a) && IsChild(s, c, b)
    ensures a == b
  {
    hide WellFormed, TxIdsUnder, Apart, IsChild, Below;
    var k, d :| 0 <= k < |f.blocks| && 0 <= d && FromRoot(s, f.blocks, a, k, d);
    var k', d' :| 0 <= k' < |f.blocks| && 0 <= d' && FromRoot(s, f.blocks, b, k', d');
    ChildLeaves(s, c, a);
    ChildLeaves(s, c, b);
    EntityLeaves(s, c);
    var t := TxIdsUnder(s, c)[0];
    assert t in ToSet(TxIdsUnder(s, c)) && t in ToSet(TxIdsUnder(s, a)) && t in ToSet(TxIdsUnder(s, b));
    SharedLeaf(s, f, a, b, t, k, k', d, d');
    BelowDeeper(s, f.blocks[k].merkleRoot, a, d, d + d');
    BelowDeeper(s, f.blocks[k].merkleRoot, b, d', d + d');
    OneParent(s, f.blocks[k].merkleRoot, a, b, c, d + d');
  }

  /** A root is nobody's child. */
  lemma RootNoChild(s: Store, f: Fetching, k: nat, m: HashT)
    requires Tidy(s, f) && k < |f.blocks| && Rooted(s, f.blocks, m)
    ensures !IsChild(s, f.blocks[k].merkleRoot, m)
  {
    hide WellFormed, TxIdsUnder, Apart, Below;
    var x := f.blocks[k].merkleRoot;
    if IsChild(s, x, m) {
      var k', d :| 0 <= k' < |f.blocks| && 0 <= d && FromRoot(s, f.blocks, m, k', d);
      assert HasEntity(s, x);
      EntityLeaves(s, x);
      ChildLeaves(s, x, m);
      var t := TxIdsUnder(s, x)[0];
      assert t in ToSet(TxIdsUnder(s, x)) && t in ToSet(TxIdsUnder(s, m));
      RootItself(s, f, k);
      SharedLeaf(s, f, x, m, t, k, k', 0, d);
      NotAboveParent(s, x, m, d);
    }
  }

  lemma RootItself(s: Store, f: Fetching, k: nat)
    requires k < |f.blocks|
    ensures FromRoot(s, f.blocks, f.blocks[k].merkleRoot, k, 0)
  {
  }

  /** Of two fetched nodes, the parent came first. */
  lemma ParentBeforeChild(s: Store, r: Store, f: Fetching, i: nat, j: nat)
    requires Tidy(s, f) && Sound(s, r, f) && ParentsFirst(s.env.hashes, f) && AllRooted(s, f)
    requires i < |f.merkles| && j < |f.merkles| && ChildOfNode(f, NodeId(s.env.hashes, f, i), j)
    ensures j < i
  {
    hide Tidy, Rooted;
    var h := s.env.hashes;
    var c, m := NodeId(h, f, i), NodeId(h, f, j);
    NodeIsStored(s, r, f, j);
    assert IsChild(s, c, m);
    assert Referred(f, c, i);
    if j' :| 0 <= j' < i && ChildOfNode(f, c, j') {
      NodeIsStored(s, r, f, j');
      OneParentOverall(s, f, m, NodeId(h, f, j'), c);
      assert MerkleIds(h, f)[j] == MerkleIds(h, f)[j'];
    } else {
      var k :| 0 <= k < |f.blocks| && f.blocks[k].merkleRoot == c;
      RootNoChild(s, f, k, m);
    }
  }

  lemma NodeIsStored(s: Store, r: Store, f: Fetching, j: nat)
    requires Sound(s, r, f) && j < |f.merkles|
    ensures var m := NodeId(s.env.hashes, f, j);
      m in s.merkles && s.merkles[m].merkle == f.merkles[j]
  {
    assert Stored(s, f.merkles[j]);
  }

  lemma HaulTidy(s: Me, r: Me)
    requires Honest(s, r) && Needed(s, r) && ValidChain(s.st, s.head)
    ensures Tidy(s.st, Haul(s, r))
  {
    hide WellFormed, Needed, Invariant, GoodLink, TxIdsUnder;
    HaulInvariant(s, r);
    HonestChainPasses(s, r);
    RootsAskable(s, r);
    SameWorkAtLca(s, r);
    TreeHasZero(r.st);
    MissingApart(s.st, r.st, s.head);
    var f := FirstFetch(s, r);
    forall k | 0 <= k < |f.blocks| ensures HasEntity(s.st, f.blocks[k].merkleRoot) {
      assert f.queue[k] == f.blocks[k].merkleRoot;
    }
  }
}
