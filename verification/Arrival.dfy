/** When a sync takes effect, told from the two inventories before it starts. */
module Arrival {
  import opened Core
  import opened Forest
  import opened Rules
  import opened Ancestry
  import opened Difficulty
  import opened Ledger
  import opened Agreement
  import opened N = Node
  import opened Network
  import opened Sync
  import opened Fetches
  import opened Ordering
  import opened Delivery

  // ---- Transactions ----

  /** What of a level of a new block's tree the receiver has not got. */
  function NewAt(s: Me, r: Me, k: nat, d: nat): set<HashT>
    requires k < |NeededIds(s, r)|
  {
    set t | t in Level(s.st, [NeededRoot(s, r, k)], d) && t in s.st.txs && t !in r.st.txs
  }

  /** The receiver has it, or it is in an older new block, in its tree at least as deep. */
  ghost predicate ComesAfter(s: Me, r: Me, k: nat, d: nat, origin: HashT) {
    origin in r.st.txs ||
    exists k', d' :: k < k' < |NeededIds(s, r)| && d <= d' && origin in NewAt(s, r, k', d')
  }

  /** Whatever a new transaction spends comes after it, so that it is stored before it. */
  ghost predicate OrderFine(s: Me, r: Me) {
    forall k, d, t :: 0 <= k < |NeededIds(s, r)| && 0 <= d && t in NewAt(s, r, k, d) ==> OriginsFine(s, r, k, d, t)
  }

  ghost predicate OriginsFine(s: Me, r: Me, k: nat, d: nat, t: HashT) {
    forall i :: 0 <= i < |TxOf(s.st, t).inputs| ==> ComesAfter(s, r, k, d, TxOf(s.st, t).inputs[i].utxo.txId)
  }

  /** Storing in order, told by positions. */
  lemma {:induction false} OriginsByIndex(st: Store, txs: seq<Tx>)
    requires forall i, j :: 0 <= i < j < |txs| ==> st.env.hashes.tx(txs[i]) != st.env.hashes.tx(txs[j])
    requires forall i :: 0 <= i < |txs| ==> st.env.hashes.tx(txs[i]) !in st.txs
    ensures OriginsFirst(st, txs) <==> forall i :: 0 <= i < |txs| ==> OriginsEarlier(st, txs, i)
    decreases txs
  {
    if txs != [] {
      var st', rest := PutTx(st, txs[0]), txs[1..];
      OriginsByIndex(st', rest);
      forall i | 0 <= i < |rest| ensures OriginsEarlier(st', rest, i) <==> OriginsEarlier(st, txs, i + 1) {
        OneEarlier(st, txs, i);
      }
      assert OriginsEarlier(st, txs, 0) <==> OriginsStored(st, txs[0]);
      if forall i :: 0 <= i < |rest| ==> OriginsEarlier(st', rest, i) {
        forall i | 0 < i < |txs| ensures OriginsEarlier(st, txs, i) {
          assert OriginsEarlier(st', rest, i - 1);
        }
      }
    }
  }

  ghost predicate OriginsEarlier(st: Store, txs: seq<Tx>, i: nat)
    requires i < |txs|
  {
    forall k :: 0 <= k < |txs[i].inputs| ==> Earlier(st, txs, i, txs[i].inputs[k].utxo.txId)
  }

  ghost predicate Earlier(st: Store, txs: seq<Tx>, i: nat, origin: HashT)
    requires i < |txs|
  {
    origin in st.txs || exists j :: 0 <= j < i && st.env.hashes.tx(txs[j]) == origin
  }

  lemma OneEarlier(st: Store, txs: seq<Tx>, i: nat)
    requires i + 1 < |txs|
    ensures OriginsEarlier(PutTx(st, txs[0]), txs[1..], i) <==> OriginsEarlier(st, txs, i + 1)
  {
    var st', rest := PutTx(st, txs[0]), txs[1..];
    forall o ensures Earlier(st', rest, i, o) <==> Earlier(st, txs, i + 1, o) {
      if Earlier(st', rest, i, o) && o !in st'.txs {
        var j :| 0 <= j < i && st.env.hashes.tx(rest[j]) == o;
        assert txs[j + 1] == rest[j];
      }
      if Earlier(st, txs, i + 1, o) && o !in st.txs {
        var j :| 0 <= j < i + 1 && st.env.hashes.tx(txs[j]) == o;
        if j > 0 {
          assert rest[j - 1] == txs[j];
        }
      }
    }
  }

  /** What a transaction of a new block spends is known, or comes earlier in new blocks. */
  lemma {:induction false} OlderTx(s: Store, r: Store, id: HashT, k: nat, x: HashT)
    requires Tree(s) && 0 in r.blocks && id in s.blocks && k < |Missing(s, r, id)|
    requires x in ChainTxs(s, Parent(s, Missing(s, r, id)[k]))
    ensures x in ChainTxs(s, FirstKnown(s, r, id))
      || exists k' :: k < k' < |Missing(s, r, id)| && x in BlockTxs(s, Missing(s, r, id)[k'])
    decreases HeightOf(s, id), k
  {
    hide Tree, BlockTxs;
    var ids := Missing(s, r, id);
    TreeParent(s, r, id);
    var p, rest := Parent(s, id), Missing(s, r, Parent(s, id));
    if k > 0 {
      OlderTx(s, r, p, k - 1, x);
      if k' :| k - 1 < k' < |rest| && x in BlockTxs(s, rest[k']) {
        assert ids[k' + 1] == rest[k'];
      }
    } else if rest != [] && x !in ChainTxs(s, FirstKnown(s, r, id)) {
      TreeParent(s, r, p);
      assert rest[0] == p;
      if x in BlockTxs(s, p) {
        assert ids[1] == p;
      } else {
        OlderTx(s, r, p, 0, x);
        var k' :| 0 < k' < |rest| && x in BlockTxs(s, rest[k']);
        assert ids[k' + 1] == rest[k'];
      }
    }
  }

  lemma TreeParent(s: Store, r: Store, id: HashT)
    requires Tree(s) && 0 in r.blocks && id in s.blocks && Missing(s, r, id) != []
    ensures Linked(s, id) && Missing(s, r, id) == [id] + Missing(s, r, Parent(s, id))
    ensures FirstKnown(s, r, id) == FirstKnown(s, r, Parent(s, id))
  {
  }

  lemma NeededFacts(s: Me, r: Me, k: nat)
    requires Honest(s, r) && Needed(s, r) && ValidChain(s.st, s.head) && k < |NeededIds(s, r)|
    ensures var b := NeededIds(s, r)[k];
      && Linked(s.st, b) && ValidChain(s.st, b) && Ancestor(s.st, b, s.head) && b !in r.st.blocks
      && ChainTxs(s.st, b) == ChainTxs(s.st, Parent(s.st, b)) + BlockTxs(s.st, b)
    ensures Tree(s.st) && 0 in r.st.blocks
  {
    hide WellFormed, Needed, Missing, FirstKnown, BlockTxs;
    SameWorkAtLca(s, r);
    TreeHasZero(r.st);
    MissingExact(s.st, r.st, s.head);
    var b := NeededIds(s, r)[k];
    assert b in NeededIds(s, r);
    PathExact(s.st, s.head, Lca(s, r));
    AncestorBelow(s.st, b, s.head);
    ChainTxsAncestor(s.st, b, s.head);
    NotZero(s.st, r.st, b);
  }

  lemma NotZero(s: Store, r: Store, b: HashT)
    requires Tree(s) && 0 in r.blocks && b in s.blocks && b !in r.blocks
    ensures Linked(s, b)
  {
  }

  /** What a transaction spends was made by an earlier one of its chain. */
  lemma OriginOnChain(s: Store, b: HashT, j: nat, u: Utxo)
    requires Linked(s, b) && ValidChain(s, b) && j < |BlockTxs(s, b)| && u in Ins(s, BlockTxs(s, b)[j])
    ensures u.txId in ChainTxs(s, Parent(s, b)) || u.txId in BlockTxs(s, b)[..j]
  {
    hide BlockTxs, FitsAll;
    var before, ids := ChainTxs(s, Parent(s, b)), BlockTxs(s, b);
    ValidChainFits(s, b);
    PrefixFits(s, before, ids, j);
    CreatedIds(s, before + ids[..j]);
  }

  lemma KnownToReceiver(s: Me, r: Me, x: HashT)
    requires Honest(s, r) && Needed(s, r) && x in ChainTxs(s.st, Lca(s, r))
    ensures x in r.st.txs
  {
    hide WellFormed, Agree, NoCollision, ChainTxs;
    SameWorkAtLca(s, r);
    NoCollisionAgree(s.st, r.st);
    SameChainTxs(s.st, r.st, Lca(s, r));
  }

  /** What a new transaction spends is known, or in an older new block, or before it in its own. */
  lemma OriginPlace(s: Me, r: Me, t: HashT, p: Place, i: nat) returns (p': Place)
    requires Honest(s, r) && Needed(s, r) && ValidChain(s.st, s.head)
    requires t in s.st.txs && Sits(s.st, BlocksOf(s.st, NeededIds(s, r)), t, p) && i < |TxOf(s.st, t).inputs|
    ensures var o := TxOf(s.st, t).inputs[i].utxo.txId;
      || o in r.st.txs
      || (&& o in s.st.txs && Sits(s.st, BlocksOf(s.st, NeededIds(s, r)), o, p')
          && (p.block < p'.block || (p.block == p'.block && Less(p', p))))
  {
    hide WellFormed, Needed, Missing, FirstKnown, ValidChain, TxIdsUnder, Before, Sits, Honest, Less;
    var u := TxOf(s.st, t).inputs[i].utxo;
    SitsInBlock(s, r, t, p);
    NeededFacts(s, r, p.block);
    var ids, k := NeededIds(s, r), p.block;
    var j := Before(s.st, [NeededRoot(s, r, k)], p.level, p.pos);
    assert ConsumedUtxos(TxOf(s.st, t))[i] == u;
    OriginOnChain(s.st, ids[k], j, u);
    p' := p;
    if u.txId in BlockTxs(s.st, ids[k])[..j] {
      p' := SameBlockPlace(s, r, t, p, u.txId);
    } else {
      HeadKnownHere(s, r);
      OlderTx(s.st, r.st, s.head, k, u.txId);
      if u.txId in ChainTxs(s.st, Lca(s, r)) {
        KnownToReceiver(s, r, u.txId);
      } else {
        var k' :| k < k' < |ids| && u.txId in BlockTxs(s.st, ids[k']);
        p' := BlockTxSits(s, r, k', u.txId);
      }
    }
  }

  lemma HeadKnownHere(s: Me, r: Me)
    requires Honest(s, r)
    ensures s.head in s.st.blocks
  {
  }

  lemma SameBlockPlace(s: Me, r: Me, t: HashT, p: Place, o: HashT) returns (p': Place)
    requires Honest(s, r) && Needed(s, r) && t in s.st.txs && Sits(s.st, BlocksOf(s.st, NeededIds(s, r)), t, p)
    requires p.block < |NeededIds(s, r)| && p.pos <= |Level(s.st, [NeededRoot(s, r, p.block)], p.level)|
    requires var j := Before(s.st, [NeededRoot(s, r, p.block)], p.level, p.pos);
      j <= |BlockTxs(s.st, NeededIds(s, r)[p.block])| && o in BlockTxs(s.st, NeededIds(s, r)[p.block])[..j]
    ensures o in s.st.txs && Sits(s.st, BlocksOf(s.st, NeededIds(s, r)), o, p') && p'.block == p.block && Less(p', p)
  {
    hide Honest, Needed, Missing, TxIdsUnder, Before, Sits, Level;
    var ids := BlockTxs(s.st, NeededIds(s, r)[p.block]);
    var j := Before(s.st, [NeededRoot(s, r, p.block)], p.level, p.pos);
    var i :| 0 <= i < j && ids[..j][i] == o;
    assert ids[i] == o;
    p' := BlockTxSits(s, r, p.block, o);
    SitsInBlock(s, r, o, p');
    SameBlockOrder(s, r, o, p', t, p);
    NeededGrounded(s, r, p.block);
    var at := Before(s.st, [NeededRoot(s, r, p.block)], p'.level, p'.pos);
    assert ids[at] == ids[i];
  }

  /** What the fetched transaction `i` spends is known or fetched after it. */
  ghost predicate FetchedFine(s: Me, r: Me, i: nat)
    requires i < |Haul(s, r).txs|
  {
    forall k :: 0 <= k < |Haul(s, r).txs[i].inputs| ==> FetchedLater(s, r, i, Haul(s, r).txs[i].inputs[k].utxo.txId)
  }

  ghost predicate FetchedLater(s: Me, r: Me, i: nat, o: HashT) {
    o in r.st.txs || exists j :: i < j < |Haul(s, r).txs| && TxIds(s.st.env.hashes, Haul(s, r))[j] == o
  }

  lemma HaulTxs(s: Me, r: Me)
    requires Honest(s, r) && Needed(s, r)
    ensures var ids := TxIds(s.st.env.hashes, Haul(s, r));
      && NoDup(ids)
      && forall i :: 0 <= i < |ids| ==>
           ids[i] in s.st.txs && TxOf(s.st, ids[i]) == Haul(s, r).txs[i] && ids[i] !in r.st.txs
  {
    hide Honest, Needed, Haul, Closing, ParentsFirst, AllRooted, Askable;
    HaulInvariant(s, r);
  }

  lemma FetchedIndex(s: Me, r: Me, t: HashT, p: Place) returns (i: nat)
    requires Honest(s, r) && Needed(s, r) && t in s.st.txs && t !in r.st.txs
    requires Sits(s.st, BlocksOf(s.st, NeededIds(s, r)), t, p)
    ensures i < |Haul(s, r).txs| && TxIds(s.st.env.hashes, Haul(s, r))[i] == t
  {
    hide Honest, Needed, Missing, Haul, Sits, TxIdsUnder;
    SitsInBlock(s, r, t, p);
    NewTxsInHand(s, r, p.block, t);
    i :| 0 <= i < |Haul(s, r).txs| && TxIds(s.st.env.hashes, Haul(s, r))[i] == t;
  }

  lemma PlaceOfNew(s: Me, r: Me, k: nat, d: nat, t: HashT) returns (p: Place)
    requires k < |NeededIds(s, r)| && t in NewAt(s, r, k, d)
    ensures p.block == k && p.level == d && Sits(s.st, BlocksOf(s.st, NeededIds(s, r)), t, p)
    ensures t in s.st.txs && t !in r.st.txs
  {
    hide Level, Missing;
    var pos :| 0 <= pos < |Level(s.st, [NeededRoot(s, r, k)], d)| && Level(s.st, [NeededRoot(s, r, k)], d)[pos] == t;
    p := Place(d, k, pos);
  }

  lemma NewAtPlace(s: Me, r: Me, t: HashT, p: Place)
    requires Sits(s.st, BlocksOf(s.st, NeededIds(s, r)), t, p) && t in s.st.txs && t !in r.st.txs
    ensures p.block < |NeededIds(s, r)| && t in NewAt(s, r, p.block, p.level)
  {
    hide Level, Missing;
  }

  lemma FineIsFetched(s: Me, r: Me, i: nat, k: nat)
    requires Honest(s, r) && Needed(s, r) && ValidChain(s.st, s.head) && OrderFine(s, r)
    requires i < |Haul(s, r).txs| && k < |Haul(s, r).txs[i].inputs|
    ensures FetchedLater(s, r, i, Haul(s, r).txs[i].inputs[k].utxo.txId)
  {
    hide Honest, Needed, Missing, Haul, Sits, NewAt, Level, ValidChain;
    var t, o := TxIds(s.st.env.hashes, Haul(s, r))[i], Haul(s, r).txs[i].inputs[k].utxo.txId;
    HaulTxs(s, r);
    var ps := HaulPlaces(s, r);
    NewAtPlace(s, r, t, ps[i]);
    assert OriginsFine(s, r, ps[i].block, ps[i].level, t);
    assert ComesAfter(s, r, ps[i].block, ps[i].level, o);
    if o !in r.st.txs {
      var k', d' :| ps[i].block < k' < |NeededIds(s, r)| && ps[i].level <= d' && o in NewAt(s, r, k', d');
      var p' := PlaceOfNew(s, r, k', d', o);
      var j := FetchedIndex(s, r, o, p');
      FetchedInOrder(s, r, i, ps[i], j, p');
    }
  }

  lemma FetchedIsFine(s: Me, r: Me, k: nat, d: nat, t: HashT, n: nat)
    requires Honest(s, r) && Needed(s, r) && ValidChain(s.st, s.head)
    requires forall i :: 0 <= i < |Haul(s, r).txs| ==> FetchedFine(s, r, i)
    requires k < |NeededIds(s, r)| && t in NewAt(s, r, k, d) && n < |TxOf(s.st, t).inputs|
    ensures ComesAfter(s, r, k, d, TxOf(s.st, t).inputs[n].utxo.txId)
  {
    hide Honest, Needed, Missing, Haul, Sits, NewAt, Level, ValidChain;
    var o := TxOf(s.st, t).inputs[n].utxo.txId;
    var p := PlaceOfNew(s, r, k, d, t);
    var i := FetchedIndex(s, r, t, p);
    HaulTxs(s, r);
    assert FetchedFine(s, r, i);
    assert FetchedLater(s, r, i, o);
    if o !in r.st.txs {
      var j :| i < j < |Haul(s, r).txs| && TxIds(s.st.env.hashes, Haul(s, r))[j] == o;
      var p' := OriginPlace(s, r, t, p, n);
      FetchedInOrder(s, r, i, p, j, p');
      NewAtPlace(s, r, o, p');
    }
  }

  lemma ReversedFine(s: Me, r: Me, i: nat)
    requires s.st.env == r.st.env && i < |Haul(s, r).txs|
    ensures var rev := Reverse(Haul(s, r).txs);
      OriginsEarlier(r.st, rev, |rev| - 1 - i) <==> FetchedFine(s, r, i)
  {
    hide Haul;
    var txs, rev, h := Haul(s, r).txs, Reverse(Haul(s, r).txs), s.st.env.hashes;
    var a := |rev| - 1 - i;
    assert rev[a] == txs[i];
    forall o ensures Earlier(r.st, rev, a, o) <==> FetchedLater(s, r, i, o) {
      if b :| 0 <= b < a && h.tx(rev[b]) == o {
        assert TxIds(h, Haul(s, r))[|rev| - 1 - b] == o;
      }
      if j :| i < j < |txs| && TxIds(h, Haul(s, r))[j] == o {
        assert h.tx(rev[|rev| - 1 - j]) == o;
      }
    }
  }

  /** The fetched transactions can be stored in the reversed order exactly when the order is fine. */
  lemma OrderIsKnownBefore(s: Me, r: Me)
    requires Honest(s, r) && Needed(s, r) && ValidChain(s.st, s.head)
    ensures OriginsFirst(r.st, SyncEvent(s, r).txs) <==> OrderFine(s, r)
  {
    hide WellFormed, Needed, Missing, Haul, NewAt, Level, ValidChain, OriginsFirst, FetchedFine, OriginsEarlier,
      ComesAfter, FetchedLater, NoCollision;
    var n, rev := |Haul(s, r).txs|, Reverse(Haul(s, r).txs);
    HaulTxs(s, r);
    ReversedIds(s, r);
    OriginsByIndex(r.st, rev);
    forall i | 0 <= i < n ensures OriginsEarlier(r.st, rev, n - 1 - i) <==> FetchedFine(s, r, i) {
      ReversedFine(s, r, i);
    }
    if OrderFine(s, r) {
      forall a | 0 <= a < n ensures OriginsEarlier(r.st, rev, a) {
        AllFetchedFine(s, r, n - 1 - a);
        assert a == n - 1 - (n - 1 - a);
      }
    }
    if forall a :: 0 <= a < n ==> OriginsEarlier(r.st, rev, a) {
      forall i | 0 <= i < n ensures FetchedFine(s, r, i) {
        assert OriginsEarlier(r.st, rev, n - 1 - i);
      }
      AllFine(s, r);
    }
  }

  lemma ReversedIds(s: Me, r: Me)
    requires s.st.env == r.st.env && NoDup(TxIds(s.st.env.hashes, Haul(s, r)))
    requires forall i :: 0 <= i < |Haul(s, r).txs| ==> TxIds(s.st.env.hashes, Haul(s, r))[i] !in r.st.txs
    ensures var rev, h := Reverse(Haul(s, r).txs), r.st.env.hashes;
      && (forall i, j :: 0 <= i < j < |rev| ==> h.tx(rev[i]) != h.tx(rev[j]))
      && (forall i :: 0 <= i < |rev| ==> h.tx(rev[i]) !in r.st.txs)
  {
    hide Haul;
    var rev, h, ids := Reverse(Haul(s, r).txs), r.st.env.hashes, TxIds(s.st.env.hashes, Haul(s, r));
    assert forall i :: 0 <= i < |rev| ==> h.tx(rev[i]) == ids[|rev| - 1 - i];
  }

  lemma AllFetchedFine(s: Me, r: Me, i: nat)
    requires Honest(s, r) && Needed(s, r) && ValidChain(s.st, s.head) && OrderFine(s, r) && i < |Haul(s, r).txs|
    ensures FetchedFine(s, r, i)
  {
    hide Honest, Needed, Missing, Haul, OrderFine, ValidChain, FetchedLater;
    forall k | 0 <= k < |Haul(s, r).txs[i].inputs|
      ensures FetchedLater(s, r, i, Haul(s, r).txs[i].inputs[k].utxo.txId)
    {
      FineIsFetched(s, r, i, k);
    }
  }

  lemma AllFine(s: Me, r: Me)
    requires Honest(s, r) && Needed(s, r) && ValidChain(s.st, s.head)
    requires forall i :: 0 <= i < |Haul(s, r).txs| ==> FetchedFine(s, r, i)
    ensures OrderFine(s, r)
  {
    hide Honest, Needed, Missing, Haul, ValidChain, FetchedFine, NewAt, ComesAfter;
    forall k, d, t | 0 <= k < |NeededIds(s, r)| && 0 <= d && t in NewAt(s, r, k, d) ensures OriginsFine(s, r, k, d, t) {
      forall n | 0 <= n < |TxOf(s.st, t).inputs| ensures ComesAfter(s, r, k, d, TxOf(s.st, t).inputs[n].utxo.txId) {
        FetchedIsFine(s, r, k, d, t, n);
      }
    }
  }

  /** A new transaction that spends from its own block is never in order. */
  lemma InBlockSpendLate(s: Me, r: Me, k: nat, t: HashT, i: nat)
    requires Honest(s, r) && Needed(s, r) && ValidChain(s.st, s.head) && k < |NeededIds(s, r)|
    requires t in BlockTxs(s.st, NeededIds(s, r)[k]) && t !in r.st.txs && i < |TxOf(s.st, t).inputs|
    requires var o := TxOf(s.st, t).inputs[i].utxo.txId; o in BlockTxs(s.st, NeededIds(s, r)[k]) && o !in r.st.txs
    ensures !OrderFine(s, r)
  {
    hide Honest, Needed, Missing, ValidChain, Sits, NewAt, Level, TxIdsUnder;
    var o := TxOf(s.st, t).inputs[i].utxo.txId;
    var p := BlockTxSits(s, r, k, t);
    NewAtPlace(s, r, t, p);
    if OrderFine(s, r) {
      assert OriginsFine(s, r, k, p.level, t);
      assert ComesAfter(s, r, k, p.level, o);
      var k', d' :| k < k' < |NeededIds(s, r)| && p.level <= d' && o in NewAt(s, r, k', d');
      var p' := PlaceOfNew(s, r, k', d', o);
      SitsInBlock(s, r, o, p');
      NeededApart(s, r, k, k', o);
    }
  }

  // ---- Times ----

  /** All blocks that either peer has; where both do, as the receiver has them. */
  function Joined(s: Me, r: Me): Store { r.st.(blocks := s.st.blocks + r.st.blocks) }

  predicate TimeAccepted(st: Store, b: Block, now: Uint64) { AfterMedian(st, b) && NotFromFuture(b, now) }

  /** The receiver accepts the new blocks' times. */
  predicate TimesAccepted(s: Me, r: Me, now: Uint64) {
    forall k :: 0 <= k < |NeededIds(s, r)| ==> TimeAccepted(Joined(s, r), BlockOf(s.st, NeededIds(s, r)[k]), now)
  }

  /** The blocks are new here, each once, and `all` has them as well as all that are here. */
  ghost predicate NewBlocks(st: Store, blocks: seq<Block>, all: Store) {
    && SameBlocks(st, all)
    && (forall i :: 0 <= i < |blocks| ==> NewBlock(st, blocks[i], all))
    && (forall i, j :: 0 <= i < j < |blocks| ==> st.env.hashes.BlockId(blocks[i]) != st.env.hashes.BlockId(blocks[j]))
  }

  predicate NewBlock(st: Store, b: Block, all: Store) {
    st.env.hashes.BlockId(b) !in st.blocks && BlockOf(all, st.env.hashes.BlockId(b)) == b
  }

  lemma NewBlocksRest(st: Store, blocks: seq<Block>, all: Store)
    requires NewBlocks(st, blocks, all) && blocks != []
    ensures NewBlocks(PutBlock(st, blocks[0]), blocks[1..], all)
  {
    var st', rest := PutBlock(st, blocks[0]), blocks[1..];
    assert NewBlock(st, blocks[0], all);
    forall i | 0 <= i < |rest| ensures NewBlock(st', rest[i], all) {
      assert NewBlock(st, blocks[i + 1], all);
    }
    assert forall i :: 0 <= i < |rest| ==> rest[i] == blocks[i + 1];
  }

  lemma TimesOneByOne(st: Store, b: Block, all: Store, now: Uint64)
    requires WellFormed(st) && st.env.params.Verified() && SameBlocks(st, all) && b.prevBlockId in st.blocks
    ensures TimesOk(st, b, now) <==> TimeAccepted(all, b, now)
  {
    hide WellFormed, AfterMedian, LastInPeriodOk, SameBlocks;
    WellFormedParents(st);
    AfterMedianStable(st, all, b);
    GuardNeverFires(st, b);
  }

  lemma {:induction false} TimesKnownBefore(s: Store, st: Store, blocks: seq<Block>, all: Store, now: Uint64)
    requires WellFormed(s) && WellFormed(st) && Agree(s, st)
    requires st.env.params.Verified() && InOrder(s, st, blocks) && NewBlocks(st, blocks, all)
    ensures TimesFine(st, blocks, now) <==> forall i :: 0 <= i < |blocks| ==> TimeAccepted(all, blocks[i], now)
    decreases blocks
  {
    hide WellFormed, TimesOk, LastingOk, Agree, NewBlocks, TimeAccepted;
    AgreeEnv(s, st);
    if blocks != [] {
      var b, id, rest := blocks[0], s.env.hashes.BlockId(blocks[0]), blocks[1..];
      assert Follows(s, st, blocks, 0);
      FirstIsNew(st, blocks, all);
      BlockLasts(s, st, id);
      TimesOneByOne(st, b, all, now);
      if TimesOk(st, b, now) {
        PutBlockWellFormed(st, b, now);
        BlockTakenOver(s, st, id);
        NextInOrder(s, st, PutBlock(st, b), blocks);
        NewBlocksRest(st, blocks, all);
        TimesKnownBefore(s, PutBlock(st, b), rest, all, now);
        assert forall i :: 0 < i < |blocks| ==> blocks[i] == rest[i - 1];
        assert forall i :: 0 <= i < |rest| ==> rest[i] == blocks[i + 1];
      }
    }
  }

  lemma FirstIsNew(st: Store, blocks: seq<Block>, all: Store)
    requires NewBlocks(st, blocks, all) && blocks != []
    ensures NewBlock(st, blocks[0], all) && SameBlocks(st, all)
  {
  }

  lemma {:induction false} MissingDistinct(s: Store, r: Store, id: HashT)
    requires Tree(s) && 0 in r.blocks && id in s.blocks
    ensures NoDup(Missing(s, r, id))
    decreases HeightOf(s, id)
  {
    hide Tree;
    if Missing(s, r, id) != [] {
      TreeParent(s, r, id);
      var p, rest := Parent(s, id), Missing(s, r, Parent(s, id));
      MissingDistinct(s, r, p);
      MissingExact(s, r, p);
      PathExact(s, p, FirstKnown(s, r, p));
      if id in rest {
        AncestorBelow(s, id, p);
      }
      assert forall i :: 0 <= i < |rest| ==> rest[i] in rest;
    }
  }

  /** The block in this position of the event. */
  lemma EventBlock(s: Me, r: Me, i: nat)
    requires Honest(s, r) && Needed(s, r) && ValidChain(s.st, s.head) && i < |SyncEvent(s, r).blocks|
    ensures |SyncEvent(s, r).blocks| == |NeededIds(s, r)|
    ensures var id, b := NeededIds(s, r)[|NeededIds(s, r)| - 1 - i], SyncEvent(s, r).blocks[i];
      && s.st.env.hashes.BlockId(b) == id && BlockOf(s.st, id) == b && id in s.st.blocks && id !in r.st.blocks
  {
    hide WellFormed, Needed, Missing, FirstKnown, Haul, Invariant, ValidChain, NoCollision, Agree, ChainTxs, BlockTxs,
      Ancestor, Tree, NeededIds;
    HaulInvariant(s, r);
    HonestChainPasses(s, r);
    var k := |NeededIds(s, r)| - 1 - i;
    NeededFacts(s, r, k);
    assert GoodLink(s.st, NeededIds(s, r), Lca(s, r), k);
  }

  lemma NeededDistinct(s: Me, r: Me)
    requires Honest(s, r)
    ensures NoDup(NeededIds(s, r))
  {
    hide WellFormed, Missing, Tree;
    SameWorkAtLca(s, r);
    TreeHasZero(r.st);
    MissingDistinct(s.st, r.st, s.head);
  }

  lemma NeededAreNew(s: Me, r: Me, st: Store)
    requires Honest(s, r) && Needed(s, r) && ValidChain(s.st, s.head) && st.blocks == r.st.blocks && st.env == s.st.env
    ensures NewBlocks(st, SyncEvent(s, r).blocks, Joined(s, r))
  {
    hide Honest, Needed, Missing, Haul, ValidChain, SyncEvent;
    NeededDistinct(s, r);
    var blocks, ids := SyncEvent(s, r).blocks, NeededIds(s, r);
    forall i | 0 <= i < |blocks| ensures NewBlock(st, blocks[i], Joined(s, r)) {
      EventBlock(s, r, i);
    }
    forall i, j | 0 <= i < j < |blocks| ensures st.env.hashes.BlockId(blocks[i]) != st.env.hashes.BlockId(blocks[j]) {
      EventBlock(s, r, i);
      EventBlock(s, r, j);
    }
  }

  lemma EventTimes(s: Me, r: Me, now: Uint64)
    requires Honest(s, r) && Needed(s, r) && ValidChain(s.st, s.head)
    ensures TimesAccepted(s, r, now) <==>
      forall i :: 0 <= i < |SyncEvent(s, r).blocks| ==> TimeAccepted(Joined(s, r), SyncEvent(s, r).blocks[i], now)
  {
    hide Honest, Needed, Missing, Haul, ValidChain, SyncEvent, TimeAccepted;
    var blocks, ids := SyncEvent(s, r).blocks, NeededIds(s, r);
    EventSize(s, r);
    forall i | 0 <= i < |blocks| ensures BlockOf(s.st, ids[|ids| - 1 - i]) == blocks[i] {
      EventBlock(s, r, i);
    }
    if forall i :: 0 <= i < |blocks| ==> TimeAccepted(Joined(s, r), blocks[i], now) {
      forall k | 0 <= k < |ids| ensures TimeAccepted(Joined(s, r), BlockOf(s.st, ids[k]), now) {
        assert BlockOf(s.st, ids[k]) == blocks[|ids| - 1 - k];
      }
    }
  }

  lemma EventSize(s: Me, r: Me)
    requires Honest(s, r) && Needed(s, r)
    ensures |SyncEvent(s, r).blocks| == |NeededIds(s, r)| && SyncEvent(s, r).head == s.head
  {
    hide WellFormed, Needed, Missing, FirstKnown, Haul, Invariant;
    HaulInvariant(s, r);
  }

  // ---- The way back ----

  lemma {:induction false} SameAncestry(a: Store, b: Store, c: HashT, x: HashT)
    requires WellFormed(a) && WellFormed(b) && Agree(a, b) && x in a.blocks && x in b.blocks
    ensures Ancestor(a, c, x) <==> Ancestor(b, c, x)
    decreases HeightOf(a, x)
  {
    hide WellFormed, LastingOk;
    if x != 0 {
      Agreement.BlockRecord(a, x);
      Agreement.BlockRecord(b, x);
      assert SameBlock(a, b, x);
      SameAncestry(a, b, c, Parent(a, x));
    } else {
      ZeroRecord(a);
      ZeroRecord(b);
    }
  }

  /** Whether the node can go back to the new chain shows on its own chain, above the last block of
      the other's that it has. */
  lemma StuckKnownBefore(s: Me, r: Me, st3: Store)
    requires Honest(s, r) && Needed(s, r)
    requires WellFormed(st3) && Extends(r.st, st3) && Agree(s.st, st3) && s.head in st3.blocks
    ensures Stuck(st3, r.head, s.head) <==> Stuck(r.st, r.head, Lca(s, r))
  {
    hide WellFormed, Needed, Missing, FirstKnown, StuckAt, Stuck, NoCollision, Agree, Tree, Extends;
    forall c ensures StuckAt(st3, c, r.head, s.head) <==> StuckAt(r.st, c, r.head, Lca(s, r)) {
      StuckAlike(s, r, st3, c);
    }
    StuckSomewhere(st3, r.head, s.head);
    StuckSomewhere(r.st, r.head, Lca(s, r));
  }

  ghost predicate StuckAt(st: Store, c: HashT, head: HashT, newHead: HashT) {
    Ancestor(st, c, head) && !Ancestor(st, c, newHead) && InBlockSpend(st, BlockTxs(st, c))
  }

  lemma StuckSomewhere(st: Store, head: HashT, newHead: HashT)
    ensures Stuck(st, head, newHead) <==> exists c :: StuckAt(st, c, head, newHead)
  {
    hide Ancestor, InBlockSpend, BlockTxs;
    if Stuck(st, head, newHead) {
      var c :| Ancestor(st, c, head) && !Ancestor(st, c, newHead) && InBlockSpend(st, BlockTxs(st, c));
      assert StuckAt(st, c, head, newHead);
    }
  }

  lemma StuckAlike(s: Me, r: Me, st3: Store, c: HashT)
    requires Honest(s, r) && Needed(s, r)
    requires WellFormed(st3) && Extends(r.st, st3) && Agree(s.st, st3) && s.head in st3.blocks
    ensures StuckAt(st3, c, r.head, s.head) <==> StuckAt(r.st, c, r.head, Lca(s, r))
  {
    hide WellFormed, Needed, Missing, FirstKnown, InBlockSpend, BlockTxs, Ancestor, NoCollision, Agree, Tree, Extends;
    SameWorkAtLca(s, r);
    AncestorStable(r.st, st3, c, r.head);
    if Ancestor(r.st, c, r.head) {
      AncestorBelow(r.st, c, r.head);
      SameAncestry(s.st, st3, c, s.head);
      NoCollisionAgree(s.st, r.st);
      SameAncestry(s.st, r.st, c, Lca(s, r));
      TreeHasZero(r.st);
      MissingExact(s.st, r.st, s.head);
      if Ancestor(s.st, c, Lca(s, r)) {
        AncestorTransitive(s.st, c, Lca(s, r), s.head);
      }
      if c == 0 {
        ZeroAncestor(r.st, Lca(s, r));
      } else {
        WellFormedSeparate(st3);
        BlockTxsStable(r.st, st3, c);
        BlockTxsGrounded(r.st, c);
        SameSpends(r.st, st3, BlockTxs(r.st, c));
      }
    }
  }

  lemma SameSpends(st: Store, st': Store, ids: seq<HashT>)
    requires Extends(st, st') && forall t :: t in ids ==> t in st.txs
    ensures InBlockSpend(st', ids) <==> InBlockSpend(st, ids)
  {
    forall i, j | 0 <= i < |ids| && 0 <= j < |ids| ensures SpendsFrom(st', ids, i, j) <==> SpendsFrom(st, ids, i, j) {
      assert ids[i] in ids && ids[j] in ids;
    }
  }

  // ---- The whole way ----

  /** With the order fine, the blocks are the only thing left to refuse, for their times. */
  lemma TimesThen(s: Me, r: Me, n: Node, now: Uint64)
    requires Honest(s, r) && Needed(s, r) && ValidChain(s.st, s.head) && OrderFine(s, r)
    requires NodeOk(n) && n.st == r.st && n.st.env.params.Verified()
    ensures var ev := SyncEvent(s, r);
            var st2 := AddMerkles(AddTxs(n, ev.txs).0.st, ev.merkles).0;
      && st2.env == n.st.env
      && (TimesFine(st2, ev.blocks, now) <==> TimesAccepted(s, r, now))
      && var (st3, r3) := AddBlocks(st2, ev.blocks, now);
         r3 == Ok ==> WellFormed(st3) && Extends(r.st, st3) && Agree(s.st, st3) && s.head in st3.blocks
  {
    hide WellFormed, Needed, Missing, Haul, ValidChain, OriginsFirst, Agree, NoCollision, TimesFine, OrderFine,
      ChainTxs, NewBlocks, Extends, AddTxs, AddMerkles, AddBlocks, Follows, TimeAccepted, TimesAccepted;
    var ev := SyncEvent(s, r);
    OrderIsKnownBefore(s, r);
    TxsDeliverable(s, r, n);
    AddTxsOk(n, ev.txs);
    var n1 := AddTxs(n, ev.txs).0;
    ExtendsEnv(n.st, n1.st);
    MerklesThenBlocks(s, r, n1.st, now);
    MerklesDeliverable(s, r, n1.st);
    AddMerklesOk(n1.st, ev.merkles);
    var st2 := AddMerkles(n1.st, ev.merkles).0;
    ExtendsTransitive(r.st, n1.st, st2);
    AllMerklesThere(s, r, n1.st);
    forall i | 0 <= i < |ev.blocks| ensures Follows(s.st, st2, ev.blocks, i) {
      EventSize(s, r);
      BlockInOrder(s, r, st2, i);
    }
    NeededAreNew(s, r, st2);
    TimesKnownBefore(s.st, st2, ev.blocks, Joined(s, r), now);
    EventTimes(s, r, now);
    AddBlocksOk(st2, ev.blocks, now);
    ExtendsTransitive(r.st, st2, AddBlocks(st2, ev.blocks, now).0);
  }

  lemma AllMerklesThere(s: Me, r: Me, st: Store)
    requires Honest(s, r) && Needed(s, r) && WellFormed(st) && st.env == s.st.env
    requires AddMerkles(st, SyncEvent(s, r).merkles).1 == Ok
    ensures forall i :: 0 <= i < |Haul(s, r).merkles| ==>
      s.st.env.hashes.merkle(Haul(s, r).merkles[i]) in AddMerkles(st, SyncEvent(s, r).merkles).0.merkles
  {
    hide WellFormed, Needed, Haul, AddMerkles, Honest;
    var nodes := SyncEvent(s, r).merkles;
    AllStored(st, nodes);
    forall i | 0 <= i < |Haul(s, r).merkles|
      ensures s.st.env.hashes.merkle(Haul(s, r).merkles[i]) in AddMerkles(st, nodes).0.merkles
    {
      assert nodes[|nodes| - 1 - i] == Haul(s, r).merkles[i];
    }
  }

  /** An honest sync between a peer with a valid, heavier, unknown head and a node: in every
      interleaving it ends with the event published, and the event makes the head the node's own if
      and only if the transactions come in order, the times are accepted, and the way back is free.
      All three show on the two inventories before the sync. */
  lemma SyncArrives(s: Me, r: Me, n: Node, now: Uint64)
    requires Honest(s, r) && Needed(s, r) && ValidChain(s.st, s.head)
    requires NodeOk(n) && Complete(n) && n.st == r.st && n.head == r.head && n.st.env.params.Verified()
    ensures EndsAt(Peers(s, r), START, Done(Sent(NeededIds(s, r)), Received(SyncEvent(s, r))))
    ensures var (n', o) := HandleHead(n, SyncEvent(s, r), now);
      && (o == Ok <==> OrderFine(s, r) && TimesAccepted(s, r, now) && !Stuck(r.st, r.head, Lca(s, r)))
      && n'.head == if o == Ok then s.head else r.head
  {
    hide WellFormed, Needed, Missing, Haul, ValidChain, OriginsFirst, Agree, NoCollision, TimesFine, OrderFine,
      ChainTxs, Extends, AddTxs, AddMerkles, AddBlocks, TimesAccepted, HandleHead, Stuck, EndsAt, NewEvent,
      FirstKnown, Complete;
    var ev := SyncEvent(s, r);
    SyncEnds(s, r);
    SyncEventIs(s, r);
    SyncTakesEffect(s, r, n, now);
    OrderIsKnownBefore(s, r);
    HandleHeadOk(n, ev, now);
    if OrderFine(s, r) {
      TimesThen(s, r, n, now);
      var st2 := AddMerkles(AddTxs(n, ev.txs).0.st, ev.merkles).0;
      TxsDeliverable(s, r, n);
      AddTxsOk(n, ev.txs);
      ExtendsEnv(n.st, AddTxs(n, ev.txs).0.st);
      MerklesThenBlocks(s, r, AddTxs(n, ev.txs).0.st, now);
      if TimesAccepted(s, r, now) {
        StuckKnownBefore(s, r, AddBlocks(st2, ev.blocks, now).0);
      }
    }
  }
}
