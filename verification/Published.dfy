/** What a peer publishes at the end of a sync, whoever is at the other end and whatever they say: a
    chain that hangs together and claims more work, and just what its blocks refer to. */
module Published {
  import opened Core
  import opened Forest
  import opened Rules
  import N = Node
  import opened Network
  import opened Sync
  import opened Fetches

  // ---- What may be published ----

  /** The blocks, oldest first, lead from a known block to the head, are new, beat their targets and
      come to more work than we have. */
  ghost predicate ChainSound(me: Me, ev: N.HeadEvent) {
    var h, st, n := me.st.env.hashes, me.st, |ev.blocks|;
    && n > 0 && h.BlockId(ev.blocks[n - 1]) == ev.head
    && ev.blocks[0].prevBlockId in st.blocks
    && (forall i :: 0 < i < n ==> ev.blocks[i].prevBlockId == h.BlockId(ev.blocks[i - 1]))
    && (forall i :: 0 <= i < n ==> h.BlockId(ev.blocks[i]) !in st.blocks)
    && (forall i :: 0 <= i < n ==> h.BlockId(ev.blocks[i]) < ev.blocks[i].target)
    && OutdoesUs(me, ev.blocks[0].prevBlockId, Reverse(ev.blocks))
  }

  ghost predicate OutdoesUs(me: Me, lca: HashT, blocks: seq<Block>) {
    exists totals :: AddsUp(WorkOf(me.st, lca), blocks, totals)
                     && WorkOf(me.st, me.head) < totals[|blocks|] < TWO_256
  }

  predicate IsRoot(ev: N.HeadEvent, id: HashT) { exists k :: 0 <= k < |ev.blocks| && ev.blocks[k].merkleRoot == id }

  predicate Parents(ev: N.HeadEvent, j: nat, id: HashT)
    requires j < |ev.merkles|
  {
    ev.merkles[j].lChild == id || ev.merkles[j].rChild == id
  }

  /** Known before, or in the event. */
  predicate AtHand(me: Me, ev: N.HeadEvent, id: HashT) {
    || HasEntity(me.st, id)
    || (exists i :: 0 <= i < |ev.merkles| && me.st.env.hashes.merkle(ev.merkles[i]) == id)
    || (exists i :: 0 <= i < |ev.txs| && me.st.env.hashes.tx(ev.txs[i]) == id)
  }

  /** No two entities have one id, and none was known. */
  ghost predicate AllNew(me: Me, ev: N.HeadEvent) {
    var h := me.st.env.hashes;
    && (forall i, j :: 0 <= i < j < |ev.merkles| ==> h.merkle(ev.merkles[i]) != h.merkle(ev.merkles[j]))
    && (forall i, j :: 0 <= i < j < |ev.txs| ==> h.tx(ev.txs[i]) != h.tx(ev.txs[j]))
    && (forall i, j :: 0 <= i < |ev.merkles| && 0 <= j < |ev.txs| ==> h.merkle(ev.merkles[i]) != h.tx(ev.txs[j]))
    && (forall i :: 0 <= i < |ev.merkles| ==> !HasEntity(me.st, h.merkle(ev.merkles[i])))
    && (forall i :: 0 <= i < |ev.txs| ==> !HasEntity(me.st, h.tx(ev.txs[i])))
  }

  /** Every entity is a block's root or a child of a node after it. */
  ghost predicate NothingElse(me: Me, ev: N.HeadEvent) {
    var h := me.st.env.hashes;
    && (forall i :: 0 <= i < |ev.merkles| ==>
          IsRoot(ev, h.merkle(ev.merkles[i]))
          || exists j :: i < j < |ev.merkles| && Parents(ev, j, h.merkle(ev.merkles[i])))
    && (forall i :: 0 <= i < |ev.txs| ==>
          IsRoot(ev, h.tx(ev.txs[i])) || exists j :: 0 <= j < |ev.merkles| && Parents(ev, j, h.tx(ev.txs[i])))
  }

  /** Every root and every child is at hand. */
  ghost predicate NothingMissing(me: Me, ev: N.HeadEvent) {
    && (forall k :: 0 <= k < |ev.blocks| ==> AtHand(me, ev, ev.blocks[k].merkleRoot))
    && (forall j :: 0 <= j < |ev.merkles| ==>
          AtHand(me, ev, ev.merkles[j].lChild) && AtHand(me, ev, ev.merkles[j].rChild))
  }

  ghost predicate Publishable(me: Me, ev: N.HeadEvent) {
    ChainSound(me, ev) && AllNew(me, ev) && NothingElse(me, ev) && NothingMissing(me, ev)
  }

  // ---- What holds on the way ----

  predicate Unknown(me: Me, ids: seq<HashT>) { forall i :: 0 <= i < |ids| ==> ids[i] !in me.st.blocks }

  predicate Named(me: Me, needed: seq<HashT>, blocks: seq<Block>) {
    |blocks| <= |needed| && forall i :: 0 <= i < |blocks| ==> me.st.env.hashes.BlockId(blocks[i]) == needed[i]
  }

  /** The blocks were asked for by these ids and passed the quick checks. */
  ghost predicate Checked(me: Me, f: Fetching) {
    && f.needed != [] && |f.needed| == |f.blocks| && Unknown(me, f.needed) && Named(me, f.needed, f.blocks)
    && exists lca :: lca in me.st.blocks && QuickVerdict(me, f.needed[0], lca, f.blocks) == Ok
  }

  /** What was received has the ids it was asked for by, each once and none known. */
  ghost predicate Distinct(me: Me, f: Fetching) {
    var h := me.st.env.hashes;
    && ToSet(MerkleIds(h, f) + TxIds(h, f)) == f.received
    && NoDup(MerkleIds(h, f) + TxIds(h, f))
    && forall id :: id in f.received ==> !HasEntity(me.st, id)
  }

  ghost predicate TxsReferred(me: Me, f: Fetching) {
    forall i :: 0 <= i < |f.txs| ==> Referred(f, me.st.env.hashes.tx(f.txs[i]), |f.merkles|)
  }

  ghost predicate Gathered(me: Me, f: Fetching) {
    && Checked(me, f) && Distinct(me, f) && Closing(me.st, f)
    && ParentsFirst(me.st.env.hashes, f) && TxsReferred(me, f)
  }

  /** As if the id asked for were still in the queue. */
  function Asked(f: Fetching, id: HashT): Fetching { f.(queue := [id] + f.queue) }

  ghost predicate Sane(me: Me, p: Phase) {
    match p
    case HearOffer(needed) => Unknown(me, needed)
    case SayUnknown(needed) => Unknown(me, needed)
    case SayKnown(needed, lca) => Unknown(me, needed) && lca in me.st.blocks
    case HearBlocks(needed, lca, blocks) =>
      needed != [] && Unknown(me, needed) && lca in me.st.blocks && Named(me, needed, blocks)
    case SayVerified(needed, lca, blocks) =>
      && needed != [] && Unknown(me, needed) && lca in me.st.blocks && Named(me, needed, blocks)
      && |blocks| == |needed|
    case Fetch(f) => Gathered(me, f)
    case HearKind(f, id) => Gathered(me, Asked(f, id)) && !InHand(me.st, f, id)
    case HearEntity(f, id, _) => Gathered(me, Asked(f, id)) && !InHand(me.st, f, id)
    case SayComplete(f) => Gathered(me, f) && f.queue == []
    case Finished(Received(ev)) => Publishable(me, ev)
    case _ => true
  }

  // ---- Every step keeps it ----

  lemma DistinctMore(me: Me, f: Fetching, g: Fetching, id: HashT)
    requires Distinct(me, f) && id !in f.received && !HasEntity(me.st, id) && g.received == f.received + {id}
    requires var h := me.st.env.hashes;
      || (MerkleIds(h, g) == MerkleIds(h, f) + [id] && TxIds(h, g) == TxIds(h, f))
      || (MerkleIds(h, g) == MerkleIds(h, f) && TxIds(h, g) == TxIds(h, f) + [id])
    ensures Distinct(me, g)
  {
    var h := me.st.env.hashes;
    var a, b, c, d := MerkleIds(h, f), TxIds(h, f), MerkleIds(h, g), TxIds(h, g);
    assert id !in a + b by { assert id !in ToSet(a + b); }
    assert id !in a && id !in b;
    assert ToSet(a + b) == ToSet(a) + ToSet(b) && ToSet(c + d) == ToSet(c) + ToSet(d);
    assert ToSet([id]) == {id};
    NoDupAppend(a, b);
    NoDupAppend(c, d);
    NoDupAppend(a, [id]);
    NoDupAppend(b, [id]);
    assert ToSet(a + [id]) == ToSet(a) + {id} && ToSet(b + [id]) == ToSet(b) + {id};
  }

  lemma NotedMore(r: Store, f: Fetching, g: Fetching, id: HashT, x: HashT)
    requires f.queue != [] && f.queue[0] == id && InHand(r, g, id) && f.queue[1..] <= g.queue
    requires f.received <= g.received && Noted(r, f, x)
    ensures Noted(r, g, x)
  {
    assert f.queue == [id] + f.queue[1..];
    assert forall y :: y in f.queue ==> y == id || y in f.queue[1..];
    assert forall y :: y in f.queue[1..] ==> y in g.queue;
  }

  lemma QueuedNoted(r: Store, f: Fetching, x: HashT)
    requires x in f.queue
    ensures Noted(r, f, x)
  {
  }

  lemma ClosingMore(r: Store, f: Fetching, g: Fetching, id: HashT)
    requires f.queue != [] && f.queue[0] == id && InHand(r, g, id) && f.queue[1..] <= g.queue
    requires f.received <= g.received && g.blocks == f.blocks && f.merkles <= g.merkles
    requires Closing(r, f)
    requires forall i :: |f.merkles| <= i < |g.merkles| ==>
      g.merkles[i].lChild in g.queue && g.merkles[i].rChild in g.queue
    ensures Closing(r, g)
  {
    hide Noted, InHand;
    forall k | 0 <= k < |g.blocks| ensures Noted(r, g, g.blocks[k].merkleRoot) {
      NotedMore(r, f, g, id, g.blocks[k].merkleRoot);
    }
    forall i | 0 <= i < |g.merkles| ensures Noted(r, g, g.merkles[i].lChild) && Noted(r, g, g.merkles[i].rChild) {
      if i < |f.merkles| {
        NotedMore(r, f, g, id, f.merkles[i].lChild);
        NotedMore(r, f, g, id, f.merkles[i].rChild);
      } else {
        QueuedNoted(r, g, g.merkles[i].lChild);
        QueuedNoted(r, g, g.merkles[i].rChild);
      }
    }
  }

  lemma ReferredStill(f: Fetching, g: Fetching, id: HashT)
    requires g.blocks == f.blocks && f.merkles <= g.merkles && Referred(f, id, |f.merkles|)
    ensures Referred(g, id, |g.merkles|)
  {
    hide Referred;
    ReferredKept(f, g, id, |f.merkles|);
    ReferredMore(g, id, |f.merkles|, |g.merkles|);
  }

  /** What is added is what was first in the queue, and what is queued are its children. */
  predicate Adds(h: Hashes, f: Fetching, g: Fetching, id: HashT) {
    && f.queue != [] && f.queue[0] == id && g.blocks == f.blocks && f.merkles <= g.merkles && f.txs <= g.txs
    && (forall i :: |f.merkles| <= i < |g.merkles| ==> i == |f.merkles| && h.merkle(g.merkles[i]) == id)
    && (forall i :: |f.txs| <= i < |g.txs| ==> h.tx(g.txs[i]) == id)
    && forall i :: 0 <= i < |g.queue| ==>
         || (i + 1 < |f.queue| && g.queue[i] == f.queue[i + 1])
         || (g.merkles != [] && ChildOfNode(g, g.queue[i], |g.merkles| - 1))
  }

  lemma ParentsStillFirst(h: Hashes, f: Fetching, g: Fetching, id: HashT)
    requires Adds(h, f, g, id) && ParentsFirst(h, f)
    ensures ParentsFirst(h, g) && Referred(g, id, |g.merkles|)
  {
    hide Referred;
    assert Referred(f, f.queue[0], |f.merkles|);
    ReferredStill(f, g, id);
    forall i | 0 <= i < |g.merkles| ensures Referred(g, NodeId(h, g, i), i) {
      if i < |f.merkles| {
        assert Referred(f, NodeId(h, f, i), i);
        ReferredKept(f, g, NodeId(h, f, i), i);
      } else {
        assert h.merkle(g.merkles[i]) == id && i == |f.merkles|;
        ReferredKept(f, g, id, i);
      }
    }
    forall i | 0 <= i < |g.queue| ensures Referred(g, g.queue[i], |g.merkles|) {
      if i + 1 < |f.queue| && g.queue[i] == f.queue[i + 1] {
        ReferredStill(f, g, f.queue[i + 1]);
      } else {
        ReferredByNode(g, g.queue[i], |g.merkles| - 1);
      }
    }
  }

  lemma TxsStillReferred(me: Me, f: Fetching, g: Fetching, id: HashT)
    requires Adds(me.st.env.hashes, f, g, id) && TxsReferred(me, f) && Referred(g, id, |g.merkles|)
    ensures TxsReferred(me, g)
  {
    hide Referred;
    forall i | 0 <= i < |g.txs| ensures Referred(g, me.st.env.hashes.tx(g.txs[i]), |g.merkles|) {
      if i < |f.txs| {
        ReferredStill(f, g, me.st.env.hashes.tx(f.txs[i]));
      }
    }
  }

  /** One id less in the queue. */
  lemma Passed(me: Me, f: Fetching)
    requires Gathered(me, f) && f.queue != [] && InHand(me.st, f, f.queue[0])
    ensures Gathered(me, Popped(f))
  {
    hide Referred, Closing, ParentsFirst, TxsReferred, QuickVerdict;
    var h, g := me.st.env.hashes, Popped(f);
    assert MerkleIds(h, g) == MerkleIds(h, f) && TxIds(h, g) == TxIds(h, f);
    ClosingMore(me.st, f, g, f.queue[0]);
    ParentsStillFirst(h, f, g, f.queue[0]);
    TxsStillReferred(me, f, g, f.queue[0]);
  }

  lemma GotMerkle(me: Me, f: Fetching, id: HashT, node: MerkleNode)
    requires Gathered(me, Asked(f, id)) && !InHand(me.st, f, id) && me.st.env.hashes.merkle(node) == id
    ensures Gathered(me, PlusMerkle(f, id, node))
  {
    hide Referred, Closing, ParentsFirst, TxsReferred, QuickVerdict, Distinct;
    var h, q, g := me.st.env.hashes, Asked(f, id), PlusMerkle(f, id, node);
    assert MerkleIds(h, g) == MerkleIds(h, q) + [id] && TxIds(h, g) == TxIds(h, q);
    DistinctMore(me, q, g, id);
    assert q.queue[1..] == f.queue;
    assert g.queue[|f.queue|] == node.lChild && g.queue[|f.queue| + 1] == node.rChild;
    ClosingMore(me.st, q, g, id);
    ParentsStillFirst(h, q, g, id);
    TxsStillReferred(me, q, g, id);
  }

  lemma GotTx(me: Me, f: Fetching, id: HashT, tx: Tx)
    requires Gathered(me, Asked(f, id)) && !InHand(me.st, f, id) && me.st.env.hashes.tx(tx) == id
    ensures Gathered(me, PlusTx(f, id, tx))
  {
    hide Referred, Closing, ParentsFirst, TxsReferred, QuickVerdict, Distinct;
    var h, q, g := me.st.env.hashes, Asked(f, id), PlusTx(f, id, tx);
    assert TxIds(h, g) == TxIds(h, q) + [id] && MerkleIds(h, g) == MerkleIds(h, q);
    DistinctMore(me, q, g, id);
    assert q.queue[1..] == f.queue;
    ClosingMore(me.st, q, g, id);
    ParentsStillFirst(h, q, g, id);
    TxsStillReferred(me, q, g, id);
  }

  lemma Begun(me: Me, f: Fetching)
    requires Checked(me, f) && f.queue == RootsOf(f.blocks) && f.received == {} && f.merkles == [] && f.txs == []
    ensures Gathered(me, f)
  {
    hide Checked;
    var h := me.st.env.hashes;
    assert MerkleIds(h, f) + TxIds(h, f) == [];
    forall i | 0 <= i < |f.blocks| ensures Noted(me.st, f, f.blocks[i].merkleRoot) {
      assert f.queue[i] == f.blocks[i].merkleRoot;
    }
  }

  // ---- What is gathered may be published ----

  lemma OldestFirst(me: Me, f: Fetching)
    requires f.needed != [] && f.blocks != []
    ensures var ev, n := NewEvent(f), |f.blocks|;
      Reverse(ev.blocks) == f.blocks && ev.blocks[0] == f.blocks[n - 1] && ev.blocks[n - 1] == f.blocks[0]
  {
    assert Reverse(NewEvent(f).blocks) == f.blocks;
  }

  lemma LinkedOldestFirst(h: Hashes, f: Fetching)
    requires f.needed != []
    requires forall i :: 0 <= i < |f.blocks| - 1 ==> f.blocks[i].prevBlockId == h.BlockId(f.blocks[i + 1])
    ensures var ev := NewEvent(f);
      forall i :: 0 < i < |f.blocks| ==> ev.blocks[i].prevBlockId == h.BlockId(ev.blocks[i - 1])
  {
    var ev, n := NewEvent(f), |f.blocks|;
    forall i | 0 < i < n ensures ev.blocks[i].prevBlockId == h.BlockId(ev.blocks[i - 1]) {
      assert ev.blocks[i] == f.blocks[n - 1 - i] && ev.blocks[i - 1] == f.blocks[n - 1 - i + 1];
    }
  }

  lemma NamedNew(me: Me, f: Fetching)
    requires Checked(me, f)
    ensures forall i :: 0 <= i < |f.blocks| ==> me.st.env.hashes.BlockId(f.blocks[i]) !in me.st.blocks
  {
    hide QuickVerdict;
  }

  lemma Outdone(me: Me, lca: HashT, f: Fetching)
    requires f.needed != [] && f.blocks != [] && QuickVerdict(me, f.needed[0], lca, f.blocks) == Ok
    ensures OutdoesUs(me, lca, f.blocks)
  {
    hide AddsUp, WorkOf, QuickVerdict;
    QuickVerdictExact(me, f.needed[0], lca, f.blocks);
  }

  lemma BlocksPass(me: Me, lca: HashT, f: Fetching)
    requires f.needed != [] && f.blocks != [] && QuickVerdict(me, f.needed[0], lca, f.blocks) == Ok
    ensures var h := me.st.env.hashes;
      && h.BlockId(f.blocks[0]) == f.needed[0] && f.blocks[|f.blocks| - 1].prevBlockId == lca
      && (forall i :: 0 <= i < |f.blocks| - 1 ==> f.blocks[i].prevBlockId == h.BlockId(f.blocks[i + 1]))
      && (forall i :: 0 <= i < |f.blocks| ==> h.BlockId(f.blocks[i]) < f.blocks[i].target)
  {
    hide AddsUp, WorkOf, QuickVerdict;
    QuickVerdictExact(me, f.needed[0], lca, f.blocks);
  }

  lemma ChainIsSound(me: Me, f: Fetching)
    requires Checked(me, f)
    ensures f.needed != [] && ChainSound(me, NewEvent(f))
  {
    hide OutdoesUs, Unknown, Named, QuickVerdict;
    var lca :| lca in me.st.blocks && QuickVerdict(me, f.needed[0], lca, f.blocks) == Ok;
    NamedNew(me, f);
    OldestFirst(me, f);
    Outdone(me, lca, f);
    BlocksPass(me, lca, f);
    LinkedOldestFirst(me.st.env.hashes, f);
    hide Checked;
  }

  lemma GatheredNew(me: Me, f: Fetching)
    requires Distinct(me, f) && f.needed != []
    ensures AllNew(me, NewEvent(f))
  {
    var h, ev := me.st.env.hashes, NewEvent(f);
    var a, b, n, k := MerkleIds(h, f), TxIds(h, f), |f.merkles|, |f.txs|;
    var ids := a + b;
    forall i | 0 <= i < n ensures h.merkle(ev.merkles[i]) == ids[n - 1 - i] && ids[n - 1 - i] in f.received {
      assert ids[n - 1 - i] in ToSet(ids);
    }
    forall i | 0 <= i < k ensures h.tx(ev.txs[i]) == ids[n + k - 1 - i] && ids[n + k - 1 - i] in f.received {
      assert ids[n + k - 1 - i] == b[k - 1 - i];
      assert ids[n + k - 1 - i] in ToSet(ids);
    }
  }

  lemma RootStays(f: Fetching, id: HashT)
    requires f.needed != []
    ensures IsRoot(NewEvent(f), id) <==> exists k :: 0 <= k < |f.blocks| && f.blocks[k].merkleRoot == id
  {
    var ev, n := NewEvent(f), |f.blocks|;
    if k :| 0 <= k < n && f.blocks[k].merkleRoot == id {
      assert ev.blocks[n - 1 - k].merkleRoot == id;
    }
  }

  lemma ReferredThen(f: Fetching, id: HashT, m: nat)
    requires f.needed != [] && m <= |f.merkles| && Referred(f, id, m)
    ensures var ev := NewEvent(f);
      IsRoot(ev, id) || exists j :: |f.merkles| - m <= j < |ev.merkles| && Parents(ev, j, id)
  {
    RootStays(f, id);
    if j :| 0 <= j < m && ChildOfNode(f, id, j) {
      assert Parents(NewEvent(f), |f.merkles| - 1 - j, id);
    }
  }

  lemma GatheredReferred(me: Me, f: Fetching)
    requires ParentsFirst(me.st.env.hashes, f) && TxsReferred(me, f) && f.needed != []
    ensures NothingElse(me, NewEvent(f))
  {
    hide Referred, Parents, IsRoot;
    var h, ev, n := me.st.env.hashes, NewEvent(f), |f.merkles|;
    forall i | 0 <= i < n
      ensures IsRoot(ev, h.merkle(ev.merkles[i])) || exists j :: i < j < n && Parents(ev, j, h.merkle(ev.merkles[i]))
    {
      assert NodeId(h, f, n - 1 - i) == h.merkle(ev.merkles[i]);
      ReferredThen(f, NodeId(h, f, n - 1 - i), n - 1 - i);
    }
    forall i | 0 <= i < |ev.txs|
      ensures IsRoot(ev, h.tx(ev.txs[i])) || exists j :: 0 <= j < n && Parents(ev, j, h.tx(ev.txs[i]))
    {
      assert ev.txs[i] == f.txs[|f.txs| - 1 - i];
      ReferredThen(f, h.tx(f.txs[|f.txs| - 1 - i]), n);
    }
  }

  lemma InHandThen(me: Me, f: Fetching, id: HashT)
    requires Distinct(me, f) && f.needed != [] && f.queue == [] && Noted(me.st, f, id)
    ensures AtHand(me, NewEvent(f), id)
  {
    var h, ev := me.st.env.hashes, NewEvent(f);
    if !HasEntity(me.st, id) {
      assert id in MerkleIds(h, f) + TxIds(h, f);
      if id in MerkleIds(h, f) {
        var i :| 0 <= i < |f.merkles| && MerkleIds(h, f)[i] == id;
        assert h.merkle(ev.merkles[|f.merkles| - 1 - i]) == id;
      } else {
        var i :| 0 <= i < |f.txs| && TxIds(h, f)[i] == id;
        assert h.tx(ev.txs[|f.txs| - 1 - i]) == id;
      }
    }
  }

  lemma GatheredAll(me: Me, f: Fetching)
    requires Distinct(me, f) && Closing(me.st, f) && f.needed != [] && f.queue == []
    ensures NothingMissing(me, NewEvent(f))
  {
    hide Distinct, AtHand, Noted;
    var ev := NewEvent(f);
    forall k | 0 <= k < |ev.blocks| ensures AtHand(me, ev, ev.blocks[k].merkleRoot) {
      assert ev.blocks[k] == f.blocks[|f.blocks| - 1 - k];
      InHandThen(me, f, ev.blocks[k].merkleRoot);
    }
    forall j | 0 <= j < |ev.merkles|
      ensures AtHand(me, ev, ev.merkles[j].lChild) && AtHand(me, ev, ev.merkles[j].rChild)
    {
      assert ev.merkles[j] == f.merkles[|f.merkles| - 1 - j];
      InHandThen(me, f, ev.merkles[j].lChild);
      InHandThen(me, f, ev.merkles[j].rChild);
    }
  }

  lemma GatheredPublishable(me: Me, f: Fetching)
    requires Gathered(me, f) && f.queue == []
    ensures f.needed != [] && Publishable(me, NewEvent(f))
  {
    hide ChainSound, AllNew, NothingElse, NothingMissing, Distinct, Closing, ParentsFirst, TxsReferred;
    ChainIsSound(me, f);
    GatheredNew(me, f);
    GatheredReferred(me, f);
    GatheredAll(me, f);
  }

  // ---- Runs ----

  lemma SaneVerdict(me: Me, p: Phase)
    requires Sane(me, p) && p.SayVerified?
    ensures Act(me, p).Emit? ==> Sane(me, Act(me, p).after)
    ensures Act(me, p).Skip? ==> Sane(me, Act(me, p).next)
  {
    hide Gathered, Checked, Publishable, QuickVerdict, Parent, BlockOf, TxOf, WorkOf, RootsOf;
    if QuickVerdict(me, p.needed[0], p.lca, p.blocks) == Ok {
      var f := Fetching(p.needed, p.blocks, RootsOf(p.blocks), {}, [], []);
      StartChecked(me, f, p.lca);
      Begun(me, f);
    }
  }

  lemma SaneFetch(me: Me, p: Phase)
    requires Sane(me, p) && p.Fetch?
    ensures Act(me, p).Emit? ==> Sane(me, Act(me, p).after)
    ensures Act(me, p).Skip? ==> Sane(me, Act(me, p).next)
  {
    hide Gathered, Publishable, Parent, BlockOf, TxOf, WorkOf;
    if p.f.queue != [] {
      if InHand(me.st, p.f, p.f.queue[0]) {
        Passed(me, p.f);
      } else {
        assert Asked(Popped(p.f), p.f.queue[0]) == p.f;
      }
    }
  }

  lemma SaneSpeaks(me: Me, p: Phase)
    requires Sane(me, p)
    ensures Act(me, p).Emit? ==> Sane(me, Act(me, p).after)
    ensures Act(me, p).Skip? ==> Sane(me, Act(me, p).next)
  {
    hide Gathered, Checked, Publishable, Unknown, Named, Parent, BlockOf, TxOf, WorkOf, NewEvent;
    if p.SayVerified? {
      SaneVerdict(me, p);
    } else if p.Fetch? {
      SaneFetch(me, p);
    } else if p.SayComplete? {
      GatheredPublishable(me, p.f);
    } else {
      NamedSize(me);
    }
  }

  lemma NamedSize(me: Me)
    ensures forall needed :: Named(me, needed, [])
    ensures forall needed, blocks :: Named(me, needed, blocks) ==> |blocks| <= |needed|
  {
  }

  lemma StartChecked(me: Me, f: Fetching, lca: HashT)
    requires f.needed != [] && |f.needed| == |f.blocks| && Unknown(me, f.needed) && Named(me, f.needed, f.blocks)
    requires lca in me.st.blocks && QuickVerdict(me, f.needed[0], lca, f.blocks) == Ok
    ensures Checked(me, f)
  {
  }

  lemma SaneHears(me: Me, p: Phase, m: Msg)
    requires Sane(me, p) && Act(me, p).Await?
    ensures Sane(me, Act(me, p).receive(m))
  {
    hide Gathered, Checked, Publishable, QuickVerdict, Parent, BlockOf, TxOf, WorkOf, PlusMerkle, PlusTx;
    match (p, m)
    case (HearEntity(f, id, isTx), MerkleMsg(node)) =>
      if !isTx && me.st.env.hashes.merkle(node) == id {
        GotMerkle(me, f, id, node);
      }
    case (HearEntity(f, id, isTx), TxMsg(tx)) =>
      if isTx && me.st.env.hashes.tx(tx) == id {
        GotTx(me, f, id, tx);
      }
    case _ =>
  }

  /** One side follows the protocol, the other any program at all. */
  datatype Side<S> = Ours(phase: Phase) | Theirs(state: S)

  function Whatever<S>(program: S -> Action<S, Msg>): Side<S> -> Action<Side<S>, Msg> {
    (s: Side<S>) =>
      match s
      case Ours(_) => Halt
      case Theirs(state) =>
        match program(state)
        case Halt => Halt
        case Skip(next) => Skip(Theirs(next))
        case Emit(msg, after) => Emit(msg, Theirs(after))
        case Await(receive) => Await((m: Msg) => Theirs(receive(m)))
  }

  function Protocol<S>(me: Me): Side<S> -> Action<Side<S>, Msg> {
    (s: Side<S>) =>
      match s
      case Theirs(_) => Halt
      case Ours(p) =>
        match Act(me, p)
        case Halt => Halt
        case Skip(next) => Skip(Ours(next))
        case Emit(msg, after) => Emit(msg, Ours(after))
        case Await(receive) => Await((m: Msg) => Ours(receive(m)))
  }

  function Facing<S>(program: S -> Action<S, Msg>, me: Me): System<Side<S>, Msg> {
    System(Whatever(program), Protocol(me))
  }

  lemma StepSane<S>(program: S -> Action<S, Msg>, me: Me, c: Config<Side<S>, Msg>, left: bool)
    requires c.right.Ours? && Sane(me, c.right.phase) && Step(Facing(program, me), c, left).Some?
    ensures var d := Step(Facing(program, me), c, left).value; d.right.Ours? && Sane(me, d.right.phase)
  {
    hide Sane, Act;
    if !left {
      var p := c.right.phase;
      if Act(me, p).Await? {
        SaneHears(me, p, c.toRight[0]);
      } else {
        SaneSpeaks(me, p);
      }
    }
  }

  lemma {:induction false} RunSane<S>(
    program: S -> Action<S, Msg>, me: Me, c: Config<Side<S>, Msg>, schedule: seq<bool>, d: Config<Side<S>, Msg>)
    requires c.right.Ours? && Sane(me, c.right.phase) && Run(Facing(program, me), c, schedule) == Some(d)
    ensures d.right.Ours? && Sane(me, d.right.phase)
    decreases |schedule|
  {
    hide Sane, Step;
    if schedule != [] {
      StepSane(program, me, c, schedule[0]);
      RunSane(program, me, Step(Facing(program, me), c, schedule[0]).value, schedule[1..], d);
    }
  }

  /** Whatever the other side does, and however the two interleave: what we publish is a chain from a
      known block to the head, of new blocks that beat their targets and come to more work than ours,
      and all that they refer to and was missing, each once, and nothing else. */
  lemma WhateverTheySay<S>(
    program: S -> Action<S, Msg>, start: S, me: Me, schedule: seq<bool>, d: Config<Side<S>, Msg>, ev: N.HeadEvent)
    requires Run(Facing(program, me), Config(Theirs(start), Ours(SayWork), [], []), schedule) == Some(d)
    requires d.right == Ours(Finished(Received(ev)))
    ensures ChainSound(me, ev) && AllNew(me, ev) && NothingElse(me, ev) && NothingMissing(me, ev)
  {
    hide Run, ChainSound, AllNew, NothingElse, NothingMissing;
    RunSane(program, me, Config(Theirs(start), Ours(SayWork), [], []), schedule, d);
  }
}
