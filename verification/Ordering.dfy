/** In what order a sync fetches: level by level across all the new blocks' trees, in each level the
    newest block first, in each block from left to right. */
module Ordering {
  import opened Core
  import opened Forest
  import opened Rules
  import opened Ledger
  import opened Sync
  import opened Fetches

  // ---- A repeated child makes no difference ----

  /** Fetching, but pushing a repeated child once. */
  function Slim(s: Store, r: Store, f: Fetching): Fetching
    decreases Unfetched(s, f), |f.queue|
  {
    if f.queue == [] then f
    else
      var id := f.queue[0];
      if HasEntity(r, id) || id in f.received then Slim(s, r, Popped(f))
      else if id in s.merkles then Slim(s, r, PlusChildren(Popped(f), id, s.merkles[id].merkle))
      else if id in s.txs then Slim(s, r, PlusTx(Popped(f), id, TxOf(s, id)))
      else f
  }

  function PlusChildren(f: Fetching, id: HashT, node: MerkleNode): Fetching {
    f.(merkles := f.merkles + [node], queue := f.queue + Children(node), received := f.received + {id})
  }

  /** Two queues, the second perhaps without ids that were seen before. */
  predicate Slimmer(seen: set<HashT>, q: seq<HashT>, q': seq<HashT>)
    decreases |q|
  {
    if q == [] then q' == []
    else
      || (q' != [] && q[0] == q'[0] && Slimmer(seen + {q[0]}, q[1..], q'[1..]))
      || (q[0] in seen && Slimmer(seen, q[1..], q'))
  }

  lemma {:induction false} SlimmerItself(seen: set<HashT>, q: seq<HashT>)
    ensures Slimmer(seen, q, q)
    decreases |q|
  {
    if q != [] {
      SlimmerItself(seen + {q[0]}, q[1..]);
    }
  }

  lemma {:induction false} SlimmerAppend(seen: set<HashT>, q: seq<HashT>, q': seq<HashT>, node: MerkleNode)
    requires Slimmer(seen, q, q')
    ensures Slimmer(seen, q + [node.lChild, node.rChild], q' + Children(node))
    decreases |q|
  {
    var more, more' := [node.lChild, node.rChild], Children(node);
    if q == [] {
      assert q + more == more && q' + more' == more';
      assert more[1..] == [node.rChild] && [node.rChild][1..] == [];
      assert more'[1..] == if node.lChild == node.rChild then [] else [node.rChild];
      assert Slimmer(seen + {node.lChild}, [node.rChild], more'[1..]);
    } else {
      assert (q + more)[1..] == q[1..] + more;
      if q' != [] && q[0] == q'[0] && Slimmer(seen + {q[0]}, q[1..], q'[1..]) {
        assert (q' + more')[1..] == q'[1..] + more';
        SlimmerAppend(seen + {q[0]}, q[1..], q'[1..], node);
      } else {
        SlimmerAppend(seen, q[1..], q', node);
      }
    }
  }

  function Seen(r: Store, f: Fetching): set<HashT> { f.received + r.merkles.Keys + r.txs.Keys }

  lemma {:induction false} SlimSame(s: Store, r: Store, f: Fetching, q: seq<HashT>)
    requires Slimmer(Seen(r, f), f.queue, q)
    ensures Fetched(s, r, f).txs == Slim(s, r, f.(queue := q)).txs
    decreases Unfetched(s, f), |f.queue|
  {
    if f.queue != [] {
      var id := f.queue[0];
      if id in Seen(r, f) {
        if Slimmer(Seen(r, f), f.queue[1..], q) {
          SlimSame(s, r, Popped(f), q);
        } else {
          assert Seen(r, f) + {id} == Seen(r, f);
          SlimSame(s, r, Popped(f), q[1..]);
        }
      } else if id in s.merkles {
        var node := s.merkles[id].merkle;
        assert Seen(r, f) + {id} == Seen(r, PlusMerkle(Popped(f), id, node));
        SlimmerAppend(Seen(r, f) + {id}, f.queue[1..], q[1..], node);
        SlimSame(s, r, PlusMerkle(Popped(f), id, node), q[1..] + Children(node));
      } else if id in s.txs {
        assert Seen(r, f) + {id} == Seen(r, PlusTx(Popped(f), id, TxOf(s, id)));
        SlimSame(s, r, PlusTx(Popped(f), id, TxOf(s, id)), q[1..]);
      }
    }
  }

  // ---- Levels ----

  /** The level `d` below these ids, from left to right. */
  function Level(s: Store, ids: seq<HashT>, d: nat): seq<HashT>
    decreases d
  {
    if d == 0 then ids else Level(s, Expand(s, ids), d - 1)
  }

  lemma {:induction false} NextLevel(s: Store, ids: seq<HashT>, d: nat)
    ensures Level(s, ids, d + 1) == Expand(s, Level(s, ids, d))
    decreases d
  {
    if d > 0 {
      NextLevel(s, Expand(s, ids), d - 1);
    }
  }

  /** Where an id is found: at which level of which block's tree, and which place in it. */
  datatype Place = Place(level: nat, block: nat, pos: nat)

  predicate Less(a: Place, b: Place) {
    a.level < b.level || (a.level == b.level && (a.block < b.block || (a.block == b.block && a.pos < b.pos)))
  }

  function LevelOf(s: Store, blocks: seq<Block>, k: nat, d: nat): seq<HashT>
    requires k < |blocks|
  {
    Level(s, [blocks[k].merkleRoot], d)
  }

  predicate Sits(s: Store, blocks: seq<Block>, id: HashT, p: Place) {
    && p.block < |blocks| && p.pos < |LevelOf(s, blocks, p.block, p.level)|
    && LevelOf(s, blocks, p.block, p.level)[p.pos] == id
  }

  /** Where the children of what is at this place start. */
  function FirstChild(s: Store, blocks: seq<Block>, p: Place): Place
    requires p.block < |blocks| && p.pos < |LevelOf(s, blocks, p.block, p.level)|
  {
    Place(p.level + 1, p.block, |Expand(s, LevelOf(s, blocks, p.block, p.level)[..p.pos])|)
  }

  lemma ChildrenSit(s: Store, blocks: seq<Block>, id: HashT, p: Place, i: nat)
    requires Sits(s, blocks, id, p) && i < |ChildrenOf(s, id)|
    ensures var c := FirstChild(s, blocks, p);
      Sits(s, blocks, ChildrenOf(s, id)[i], Place(c.level, c.block, c.pos + i))
  {
    hide ChildrenOf;
    var l := LevelOf(s, blocks, p.block, p.level);
    NextLevel(s, [blocks[p.block].merkleRoot], p.level);
    assert l == l[..p.pos] + ([id] + l[p.pos + 1..]);
    ExpandConcat(s, l[..p.pos], [id] + l[p.pos + 1..]);
    assert ([id] + l[p.pos + 1..])[1..] == l[p.pos + 1..];
  }

  /** A later place has its children later. */
  lemma ChildrenLater(s: Store, blocks: seq<Block>, id: HashT, p: Place, p': Place)
    requires Sits(s, blocks, id, p) && p'.block < |blocks| && p'.pos < |LevelOf(s, blocks, p'.block, p'.level)|
    requires p'.level == p.level && p'.block == p.block && p.pos < p'.pos
    ensures FirstChild(s, blocks, p).pos + |ChildrenOf(s, id)| <= FirstChild(s, blocks, p').pos
  {
    hide ChildrenOf;
    var l := LevelOf(s, blocks, p.block, p.level);
    assert l[..p'.pos] == l[..p.pos] + ([id] + l[p.pos + 1..p'.pos]);
    ExpandConcat(s, l[..p.pos], [id] + l[p.pos + 1..p'.pos]);
    assert ([id] + l[p.pos + 1..p'.pos])[1..] == l[p.pos + 1..p'.pos];
  }

  // ---- The places come in order ----

  predicate Rising(ps: seq<Place>) { forall i, j :: 0 <= i < j < |ps| ==> Less(ps[i], ps[j]) }

  /** The transactions so far, and the queue, with their places. */
  ghost predicate Placed(s: Store, f: Fetching, ts: seq<Place>, qs: seq<Place>) {
    && |ts| == |f.txs| && |qs| == |f.queue| && Rising(ts + qs)
    && (forall i :: 0 <= i < |ts| ==> Sits(s, f.blocks, TxIds(s.env.hashes, f)[i], ts[i]))
    && (forall i :: 0 <= i < |qs| ==> Sits(s, f.blocks, f.queue[i], qs[i]))
    && (forall i :: 0 <= i < |qs| ==> Near(s, f.blocks, qs[0], qs[i]))
  }

  /** No further on than the head's own children will be. */
  predicate Near(s: Store, blocks: seq<Block>, head: Place, p: Place) {
    && head.block < |blocks| && head.pos < |LevelOf(s, blocks, head.block, head.level)|
    && (p.level == head.level || Less(p, FirstChild(s, blocks, head)))
  }

  lemma NearNext(s: Store, blocks: seq<Block>, id: HashT, head: Place, next: Place, p: Place)
    requires Sits(s, blocks, id, head)
    requires next.block < |blocks| && next.pos < |LevelOf(s, blocks, next.block, next.level)|
    requires Less(head, next) && Near(s, blocks, head, next)
    requires p == next || Less(next, p)
    requires Near(s, blocks, head, p) || exists i :: 0 <= i < |ChildrenOf(s, id)| && p == ChildPlace(s, blocks, head, i)
    ensures Near(s, blocks, next, p)
  {
    hide LevelOf, ChildrenOf, Expand;
    if next.level == head.level && next.block == head.block {
      ChildrenLater(s, blocks, id, head, next);
    }
  }

  function ChildPlace(s: Store, blocks: seq<Block>, p: Place, i: nat): Place
    requires p.block < |blocks| && p.pos < |LevelOf(s, blocks, p.block, p.level)|
  {
    var c := FirstChild(s, blocks, p);
    Place(c.level, c.block, c.pos + i)
  }

  function ChildPlaces(s: Store, blocks: seq<Block>, id: HashT, p: Place): seq<Place>
    requires Sits(s, blocks, id, p)
  {
    seq(|ChildrenOf(s, id)|, i requires 0 <= i < |ChildrenOf(s, id)| => ChildPlace(s, blocks, p, i))
  }

  lemma PlacedPopped(s: Store, f: Fetching, ts: seq<Place>, qs: seq<Place>)
    requires Placed(s, f, ts, qs) && f.queue != []
    ensures Placed(s, Popped(f), ts, qs[1..])
  {
    hide LevelOf, Near;
    var all := ts + qs;
    assert TxIds(s.env.hashes, Popped(f)) == TxIds(s.env.hashes, f);
    assert all[|ts|] == qs[0];
    RisingWithout(ts, qs);
    forall i | 0 <= i < |qs[1..]| ensures Near(s, f.blocks, qs[1], qs[1..][i]) {
      assert all[|ts| + 1] == qs[1] && all[|ts| + 1 + i] == qs[1..][i];
      assert Sits(s, f.blocks, f.queue[1], qs[1]);
      NearNext(s, f.blocks, f.queue[0], qs[0], qs[1], qs[1..][i]);
    }
  }

  lemma RisingWithout(ts: seq<Place>, qs: seq<Place>)
    requires qs != [] && Rising(ts + qs)
    ensures Rising(ts + qs[1..])
  {
    var all, less := ts + qs, ts + qs[1..];
    assert forall i :: 0 <= i < |less| ==> less[i] == all[if i < |ts| then i else i + 1];
  }

  lemma PlacedTx(s: Store, f: Fetching, ts: seq<Place>, qs: seq<Place>, id: HashT, tx: Tx)
    requires Placed(s, f, ts, qs) && f.queue != [] && id == f.queue[0] && s.env.hashes.tx(tx) == id
    ensures Placed(s, PlusTx(Popped(f), id, tx), ts + [qs[0]], qs[1..])
  {
    hide LevelOf, Near;
    PlacedPopped(s, f, ts, qs);
    var g := PlusTx(Popped(f), id, tx);
    assert ts + [qs[0]] + qs[1..] == ts + qs;
    assert TxIds(s.env.hashes, g) == TxIds(s.env.hashes, f) + [id];
  }

  lemma PlacedNode(s: Store, f: Fetching, ts: seq<Place>, qs: seq<Place>, id: HashT, node: MerkleNode)
    requires Placed(s, f, ts, qs) && f.queue != [] && id == f.queue[0] && ChildrenOf(s, id) == Children(node)
    ensures Placed(s, PlusChildren(Popped(f), id, node), ts, qs[1..] + ChildPlaces(s, f.blocks, id, qs[0]))
  {
    hide LevelOf, Expand, ChildrenOf, Children;
    PlacedPopped(s, f, ts, qs);
    var g, more := PlusChildren(Popped(f), id, node), ChildPlaces(s, f.blocks, id, qs[0]);
    var qs' := qs[1..] + more;
    assert TxIds(s.env.hashes, g) == TxIds(s.env.hashes, f);
    ChildrenRise(s, f, ts, qs, more);
    forall i | 0 <= i < |qs'| ensures Sits(s, g.blocks, g.queue[i], qs'[i]) {
      if i >= |qs| - 1 {
        ChildrenSit(s, f.blocks, id, qs[0], i - (|qs| - 1));
      }
    }
    forall i | 0 <= i < |qs'| ensures Near(s, g.blocks, qs'[0], qs'[i]) {
      NearAgain(s, f, ts, qs, id, i);
    }
  }

  lemma NearAgain(s: Store, f: Fetching, ts: seq<Place>, qs: seq<Place>, id: HashT, i: nat)
    requires Placed(s, f, ts, qs) && f.queue != [] && id == f.queue[0]
    requires i < |qs[1..] + ChildPlaces(s, f.blocks, id, qs[0])|
    ensures var qs' := qs[1..] + ChildPlaces(s, f.blocks, id, qs[0]); Near(s, f.blocks, qs'[0], qs'[i])
  {
    hide LevelOf, Expand, ChildrenOf, Rising;
    var more := ChildPlaces(s, f.blocks, id, qs[0]);
    var qs' := qs[1..] + more;
    if |qs| == 1 {
      assert qs' == more;
      ChildrenSit(s, f.blocks, id, qs[0], 0);
    } else {
      ChildrenRise(s, f, ts, qs, more);
      var all := ts + qs';
      RisingAt(all, |ts|, |ts| + i);
      RisingAt(ts + qs, |ts|, |ts| + 1);
      assert Sits(s, f.blocks, f.queue[1], qs[1]);
      assert i >= |qs| - 1 ==> qs'[i] == ChildPlace(s, f.blocks, qs[0], i - (|qs| - 1));
      NearNext(s, f.blocks, id, qs[0], qs[1], qs'[i]);
    }
  }

  lemma RisingAt(ps: seq<Place>, i: nat, j: nat)
    requires Rising(ps) && i <= j < |ps|
    ensures if i == j then ps[i] == ps[j] else Less(ps[i], ps[j])
  {
  }

  lemma ChildrenRise(s: Store, f: Fetching, ts: seq<Place>, qs: seq<Place>, more: seq<Place>)
    requires Placed(s, f, ts, qs) && f.queue != [] && more == ChildPlaces(s, f.blocks, f.queue[0], qs[0])
    ensures Rising(ts + (qs[1..] + more))
  {
    hide LevelOf, Expand, ChildrenOf;
    var all, was := ts + (qs[1..] + more), ts + qs;
    RisingWithout(ts, qs);
    var c := FirstChild(s, f.blocks, qs[0]);
    forall i, j | 0 <= i < j < |all| ensures Less(all[i], all[j]) {
      if j < |was| - 1 {
        assert all[i] == (ts + qs[1..])[i] && all[j] == (ts + qs[1..])[j];
      } else if i < |ts| {
        assert was[i] == all[i] && was[|ts|] == qs[0];
      } else if i < |was| - 1 {
        assert all[i] == qs[i - |ts| + 1];
        assert Near(s, f.blocks, qs[0], qs[i - |ts| + 1]);
      }
    }
  }

  /** Whatever is fetched comes in the order of its places. */
  lemma {:induction false} SlimInOrder(s: Store, r: Store, f: Fetching, ts: seq<Place>, qs: seq<Place>)
    returns (ps: seq<Place>)
    requires Answers(s) && Separate(s) && Placed(s, f, ts, qs)
    ensures var g := Slim(s, r, f);
      && g.blocks == f.blocks && |ps| == |g.txs| && Rising(ps)
      && forall i :: 0 <= i < |ps| ==> Sits(s, f.blocks, TxIds(s.env.hashes, g)[i], ps[i])
    decreases Unfetched(s, f), |f.queue|
  {
    hide Answers, Placed, Sits, Separate;
    ps := PlacesOfTxs(s, f, ts, qs);
    if f.queue != [] {
      var id := f.queue[0];
      AnswersId(s, id);
      if HasEntity(r, id) || id in f.received {
        PlacedPopped(s, f, ts, qs);
        ps := SlimInOrder(s, r, Popped(f), ts, qs[1..]);
      } else if id in s.merkles {
        var node := s.merkles[id].merkle;
        NodeChildren(s, id);
        PlacedNode(s, f, ts, qs, id, node);
        PlacedHead(s, f, ts, qs);
        ps := SlimInOrder(s, r, PlusChildren(Popped(f), id, node), ts, qs[1..] + ChildPlaces(s, f.blocks, id, qs[0]));
      } else if id in s.txs {
        PlacedTx(s, f, ts, qs, id, TxOf(s, id));
        ps := SlimInOrder(s, r, PlusTx(Popped(f), id, TxOf(s, id)), ts + [qs[0]], qs[1..]);
      }
    }
  }

  lemma PlacedHead(s: Store, f: Fetching, ts: seq<Place>, qs: seq<Place>)
    requires Placed(s, f, ts, qs) && f.queue != []
    ensures |qs| == |f.queue| && Sits(s, f.blocks, f.queue[0], qs[0])
  {
  }

  lemma NodeChildren(s: Store, id: HashT)
    requires Separate(s) && id in s.merkles
    ensures ChildrenOf(s, id) == Children(s.merkles[id].merkle)
  {
  }

  lemma PlacesOfTxs(s: Store, f: Fetching, ts: seq<Place>, qs: seq<Place>) returns (ps: seq<Place>)
    requires Placed(s, f, ts, qs)
    ensures |qs| == |f.queue| && ps == ts && |ps| == |f.txs| && Rising(ps)
    ensures forall i :: 0 <= i < |ps| ==> Sits(s, f.blocks, TxIds(s.env.hashes, f)[i], ps[i])
  {
    ps := ts;
    assert forall i :: 0 <= i < |ts| ==> (ts + qs)[i] == ts[i];
  }

  // ---- A place is where the tree is read ----

  /** How many transactions the tree's reading has before this level, and in it before this place. */
  function Before(s: Store, ids: seq<HashT>, d: nat, pos: nat): nat
    requires pos <= |Level(s, ids, d)|
    decreases d
  {
    if d == 0 then |TxsIn(s, ids[..pos])| else |TxsIn(s, ids)| + Before(s, Expand(s, ids), d - 1, pos)
  }

  lemma TxsInSplit(s: Store, ids: seq<HashT>, pos: nat)
    requires pos < |ids| && ids[pos] in s.txs
    ensures |TxsIn(s, ids[..pos])| < |TxsIn(s, ids)| && TxsIn(s, ids)[|TxsIn(s, ids[..pos])|] == ids[pos]
  {
    assert ids == ids[..pos] + ([ids[pos]] + ids[pos + 1..]);
    ExpandConcat(s, ids[..pos], [ids[pos]] + ids[pos + 1..]);
    assert ([ids[pos]] + ids[pos + 1..])[1..] == ids[pos + 1..];
  }

  /** A transaction at level `d` is read there. */
  lemma {:induction false} ReadAt(s: Store, ids: seq<HashT>, d: nat, pos: nat, depth: nat)
    requires d < depth && pos < |Level(s, ids, d)| && Level(s, ids, d)[pos] in s.txs
    ensures Before(s, ids, d, pos) < |LevelOrder(s, ids, depth)|
    ensures LevelOrder(s, ids, depth)[Before(s, ids, d, pos)] == Level(s, ids, d)[pos]
    decreases d
  {
    if d == 0 {
      TxsInSplit(s, ids, pos);
    } else {
      ReadAt(s, Expand(s, ids), d - 1, pos, depth - 1);
    }
  }

  /** Higher levels are read first, and each from left to right. */
  lemma {:induction false} ReadInOrder(s: Store, ids: seq<HashT>, d: nat, pos: nat, d': nat, pos': nat)
    requires pos < |Level(s, ids, d)| && Level(s, ids, d)[pos] in s.txs && pos' <= |Level(s, ids, d')|
    requires d < d' || (d == d' && pos < pos')
    ensures Before(s, ids, d, pos) < Before(s, ids, d', pos')
    decreases d
  {
    if d > 0 {
      ReadInOrder(s, Expand(s, ids), d - 1, pos, d' - 1, pos');
    } else {
      TxsInSplit(s, ids, pos);
      if d' == 0 {
        TxsInSplit(s, ids[..pos'], pos);
        assert ids[..pos'][..pos] == ids[..pos];
      }
    }
  }

  /** No level is as deep as the tree is grounded. */
  lemma {:induction false} LevelsEnd(s: Store, ids: seq<HashT>, depth: nat, d: nat)
    requires AllGrounded(s, ids, depth) && depth <= d
    ensures Level(s, ids, d) == []
    decreases d
  {
    if ids == [] {
      NoLevels(s, d);
    } else {
      assert Grounded(s, ids[0], depth);
      ExpandGrounded(s, ids, depth);
      LevelsEnd(s, Expand(s, ids), depth - 1, d - 1);
    }
  }

  lemma {:induction false} NoLevels(s: Store, d: nat)
    ensures Level(s, [], d) == []
    decreases d
  {
    if d > 0 {
      NoLevels(s, d - 1);
    }
  }

  /** What is read is at some level. */
  lemma {:induction false} ReadFrom(s: Store, ids: seq<HashT>, depth: nat, t: HashT) returns (d: nat, pos: nat)
    requires t in LevelOrder(s, ids, depth)
    ensures d < depth && pos < |Level(s, ids, d)| && Level(s, ids, d)[pos] == t && t in s.txs
    decreases depth
  {
    if t in TxsIn(s, ids) {
      TxsInMembers(s, ids);
      d := 0;
      pos :| 0 <= pos < |ids| && ids[pos] == t;
    } else {
      var d', pos' := ReadFrom(s, Expand(s, ids), depth - 1, t);
      d, pos := d' + 1, pos';
    }
  }

  // ---- The order of a sync ----

  /** Where each fetched transaction is in the new blocks' trees; the places rise. */
  lemma HaulPlaces(s: Me, r: Me) returns (ps: seq<Place>)
    requires Honest(s, r) && Needed(s, r)
    ensures var f := Haul(s, r);
      && |ps| == |f.txs| && Rising(ps)
      && forall i :: 0 <= i < |ps| ==> Sits(s.st, BlocksOf(s.st, NeededIds(s, r)), TxIds(s.st.env.hashes, f)[i], ps[i])
  {
    hide WellFormed, Needed, Missing, FirstKnown, Placed, Sits, Fetched, Slim;
    HonestChainPasses(s, r);
    RootsAskable(s, r);
    WellFormedSeparate(s.st);
    var f := FirstFetch(s, r);
    var qs := StartPlaces(s.st, f);
    SlimmerItself(Seen(r.st, f), f.queue);
    SlimSame(s.st, r.st, f, f.queue);
    ps := SlimInOrder(s.st, r.st, f, [], qs);
    assert f.(queue := f.queue) == f;
    assert TxIds(s.st.env.hashes, Slim(s.st, r.st, f)) == TxIds(s.st.env.hashes, Haul(s, r));
  }

  lemma StartPlaces(s: Store, f: Fetching) returns (qs: seq<Place>)
    requires f.queue == RootsOf(f.blocks) && f.txs == []
    ensures Placed(s, f, [], qs)
  {
    hide Expand;
    qs := seq(|f.blocks|, k requires 0 <= k < |f.blocks| => Place(0, k, 0));
    assert [] + qs == qs;
    forall i | 0 <= i < |qs| ensures Sits(s, f.blocks, f.queue[i], qs[i]) && Near(s, f.blocks, qs[0], qs[i]) {
      assert LevelOf(s, f.blocks, i, 0) == [f.queue[i]] && LevelOf(s, f.blocks, 0, 0) == [f.queue[0]];
    }
  }

  function NeededRoot(s: Me, r: Me, k: nat): HashT
    requires k < |NeededIds(s, r)|
  {
    BlockOf(s.st, NeededIds(s, r)[k]).merkleRoot
  }

  /** The block's transactions are what its tree is read to, and its levels end in time. */
  lemma NeededGrounded(s: Me, r: Me, k: nat)
    requires Honest(s, r) && Needed(s, r) && k < |NeededIds(s, r)|
    ensures NeededIds(s, r)[k] in s.st.blocks && NeededIds(s, r)[k] != 0
    ensures NoDup(BlockTxs(s.st, NeededIds(s, r)[k]))
    ensures BlockTxs(s.st, NeededIds(s, r)[k]) == LevelOrder(s.st, [NeededRoot(s, r, k)], MaxDepth(s.st))
    ensures AllGrounded(s.st, [NeededRoot(s, r, k)], MaxDepth(s.st))
  {
    hide WellFormed, Needed, Missing, FirstKnown, LevelOrder, Grounded;
    HonestChainPasses(s, r);
    assert GoodLink(s.st, NeededIds(s, r), Lca(s, r), k);
    SameWorkAtLca(s, r);
    TreeHasZero(r.st);
    MissingExact(s.st, r.st, s.head);
    assert NeededIds(s, r)[k] in NeededIds(s, r);
    BlockTxsGrounded(s.st, NeededIds(s, r)[k]);
  }

  /** A transaction sits where its block's list has it. */
  lemma SitsInBlock(s: Me, r: Me, t: HashT, p: Place)
    requires Honest(s, r) && Needed(s, r) && t in s.st.txs && Sits(s.st, BlocksOf(s.st, NeededIds(s, r)), t, p)
    ensures p.block < |NeededIds(s, r)| && p.pos < |Level(s.st, [NeededRoot(s, r, p.block)], p.level)|
    ensures var ids := BlockTxs(s.st, NeededIds(s, r)[p.block]);
            var at := Before(s.st, [NeededRoot(s, r, p.block)], p.level, p.pos);
      at < |ids| && ids[at] == t
  {
    hide Honest, Needed, Missing, LevelOrder, Before, Level, TxIdsUnder;
    NeededGrounded(s, r, p.block);
    var root := [NeededRoot(s, r, p.block)];
    if MaxDepth(s.st) <= p.level {
      LevelsEnd(s.st, root, MaxDepth(s.st), p.level);
    }
    ReadAt(s.st, root, p.level, p.pos, MaxDepth(s.st));
  }

  /** And every transaction of a new block sits somewhere in its tree. */
  lemma BlockTxSits(s: Me, r: Me, k: nat, t: HashT) returns (p: Place)
    requires Honest(s, r) && Needed(s, r) && k < |NeededIds(s, r)| && t in BlockTxs(s.st, NeededIds(s, r)[k])
    ensures p.block == k && t in s.st.txs && Sits(s.st, BlocksOf(s.st, NeededIds(s, r)), t, p)
  {
    hide Honest, Needed, Missing, LevelOrder, Level, TxIdsUnder;
    NeededGrounded(s, r, k);
    var d, pos := ReadFrom(s.st, [NeededRoot(s, r, k)], MaxDepth(s.st), t);
    p := Place(d, k, pos);
  }

  /** Where two transactions of one block sit tells which is first in its list. */
  lemma SameBlockOrder(s: Me, r: Me, t: HashT, p: Place, t': HashT, p': Place)
    requires Honest(s, r) && Needed(s, r) && t in s.st.txs && t' in s.st.txs && p.block == p'.block
    requires Sits(s.st, BlocksOf(s.st, NeededIds(s, r)), t, p) && Sits(s.st, BlocksOf(s.st, NeededIds(s, r)), t', p')
    ensures var root := [NeededRoot(s, r, p.block)];
      Before(s.st, root, p.level, p.pos) < Before(s.st, root, p'.level, p'.pos) <==> Less(p, p')
  {
    hide Honest, Needed, Missing, Before, Level, TxIdsUnder;
    SitsInBlock(s, r, t, p);
    SitsInBlock(s, r, t', p');
    var root := [NeededRoot(s, r, p.block)];
    if Less(p, p') {
      ReadInOrder(s.st, root, p.level, p.pos, p'.level, p'.pos);
    } else if p != p' {
      ReadInOrder(s.st, root, p'.level, p'.pos, p.level, p.pos);
    }
  }

  /** A transaction has one place only. */
  lemma OnePlace(s: Me, r: Me, t: HashT, p: Place, p': Place)
    requires Honest(s, r) && Needed(s, r) && ValidChain(s.st, s.head) && t in s.st.txs
    requires Sits(s.st, BlocksOf(s.st, NeededIds(s, r)), t, p) && Sits(s.st, BlocksOf(s.st, NeededIds(s, r)), t, p')
    ensures p == p'
  {
    hide Honest, Needed, Missing, Before, Level, TxIdsUnder, ValidChain, Sits, LevelOrder;
    SitsInBlock(s, r, t, p);
    SitsInBlock(s, r, t, p');
    if p.block != p'.block {
      NeededApart(s, r, p.block, p'.block, t);
    } else {
      NeededGrounded(s, r, p.block);
      SameBlockOrder(s, r, t, p, t, p');
      SameBlockOrder(s, r, t, p', t, p);
    }
  }

  lemma NeededApart(s: Me, r: Me, k: nat, k': nat, t: HashT)
    requires Honest(s, r) && Needed(s, r) && ValidChain(s.st, s.head) && k != k'
    requires k < |NeededIds(s, r)| && k' < |NeededIds(s, r)|
    ensures !(t in BlockTxs(s.st, NeededIds(s, r)[k]) && t in BlockTxs(s.st, NeededIds(s, r)[k']))
  {
    hide WellFormed, Needed, Missing, TxIdsUnder, ValidChain;
    SameWorkAtLca(s, r);
    TreeHasZero(r.st);
    MissingApart(s.st, r.st, s.head);
    ApartAt(s.st, BlocksOf(s.st, NeededIds(s, r)), k, k', t);
  }

  /** Of two fetched transactions, the one with the lesser place came first. */
  lemma FetchedInOrder(s: Me, r: Me, i: nat, p: Place, j: nat, p': Place)
    requires Honest(s, r) && Needed(s, r) && ValidChain(s.st, s.head)
    requires i < |Haul(s, r).txs| && j < |Haul(s, r).txs|
    requires var ids := TxIds(s.st.env.hashes, Haul(s, r));
      && ids[i] in s.st.txs && Sits(s.st, BlocksOf(s.st, NeededIds(s, r)), ids[i], p)
      && ids[j] in s.st.txs && Sits(s.st, BlocksOf(s.st, NeededIds(s, r)), ids[j], p')
    ensures i < j <==> Less(p, p')
  {
    hide Honest, Needed, Missing, ValidChain, Sits, Haul;
    var ps := HaulPlaces(s, r);
    OnePlace(s, r, TxIds(s.st.env.hashes, Haul(s, r))[i], p, ps[i]);
    OnePlace(s, r, TxIds(s.st.env.hashes, Haul(s, r))[j], p', ps[j]);
  }
}
