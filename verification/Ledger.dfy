/** The ledger a chain stands for, computed from its blocks alone.  Nothing here rewinds or
    updates: every component of a state at a head is defined by the transactions between the
    zero block and that head. */
module Ledger {
  import opened Core
  import opened Forest
  import opened Rules
  import opened Ancestry
  import opened Index

  // ---- The transactions of a chain ----

  function BlockTxs(st: Store, b: HashT): seq<HashT> {
    TxIdsUnder(st, BlockOf(st, b).merkleRoot)
  }

  /** Ids of all transactions from the first block to `b`, in order. */
  function ChainTxs(st: Store, b: HashT): seq<HashT>
    decreases HeightOf(st, b)
  {
    if !Linked(st, b) then [] else ChainTxs(st, Parent(st, b)) + BlockTxs(st, b)
  }

  // ---- Outputs and what spends them ----

  function Ins(st: Store, t: HashT): set<Utxo> { ToSet(ConsumedUtxos(TxOf(st, t))) }

  function Outs(st: Store, t: HashT): set<Utxo> {
    var outputs := TxOf(st, t).outputs;
    set i | 0 <= i < |outputs| :: Utxo(t, i, outputs[i].value)
  }

  function Created(st: Store, ids: seq<HashT>): set<Utxo> { set t, u | t in ids && u in Outs(st, t) :: u }

  function Spent(st: Store, ids: seq<HashT>): set<Utxo> { set t, u | t in ids && u in Ins(st, t) :: u }

  /** The unspent outputs of a list of transactions: what they create less what they consume. */
  function Unspent(st: Store, ids: seq<HashT>): set<Utxo> { Created(st, ids) - Spent(st, ids) }

  function OriginPkh(st: Store, u: Utxo): HashT { TxOutAt(st, u.txId, u.ind).publicKeyHash }

  // ---- Chains without double spends ----

  /** `t` can follow the transactions `before`. */
  predicate Fits(st: Store, before: seq<HashT>, t: HashT) {
    t !in before && NoDup(ConsumedUtxos(TxOf(st, t))) && Ins(st, t) <= Unspent(st, before)
  }

  /** The transactions `ids` can follow `before`, one after the other. */
  predicate FitsAll(st: Store, before: seq<HashT>, ids: seq<HashT>) {
    ids == [] ||
    (var front := ids[..|ids| - 1];
     FitsAll(st, before, front) && Fits(st, before + front, ids[|ids| - 1]))
  }

  predicate MinBlocksOk(st: Store, b: HashT) {
    forall i :: 0 <= i < |BlockTxs(st, b)| ==> TxOf(st, BlockTxs(st, b)[i]).minBlock <= HeightOf(st, b)
  }

  /** Block `b` can follow its parent. */
  predicate ValidBlock(st: Store, b: HashT) {
    MinBlocksOk(st, b) && FitsAll(st, ChainTxs(st, Parent(st, b)), BlockTxs(st, b))
  }

  predicate ValidChain(st: Store, b: HashT)
    decreases HeightOf(st, b)
  {
    !Linked(st, b) || (ValidChain(st, Parent(st, b)) && ValidBlock(st, b))
  }

  // ---- The state a head stands for ----

  datatype View = View(
    head: HashT,
    mempool: set<HashT>,
    utxos: set<Utxo>,
    mempoolRates: map<HashT, real>,
    mempoolUtxoSpends: map<Utxo, set<HashT>>,
    pkhUtxos: map<HashT, set<Utxo>>,
    includedTxBlocks: map<HashT, HashT>)

  function Rates(st: Store, mempool: set<HashT>): map<HashT, real> {
    map t | t in mempool :: Rate(TxOf(st, t))
  }

  function SpendPairs(st: Store, mempool: set<HashT>): set<(Utxo, HashT)> {
    set t, u | t in mempool && u in Ins(st, t) :: (u, t)
  }

  function PkhPairs(st: Store, utxos: set<Utxo>): set<(HashT, Utxo)> {
    set u | u in utxos :: (OriginPkh(st, u), u)
  }

  function IncludedAt(ids: seq<HashT>, b: HashT): map<HashT, HashT> { map t | t in ids :: b }

  function Included(st: Store, b: HashT): map<HashT, HashT>
    decreases HeightOf(st, b)
  {
    if !Linked(st, b) then map[] else Included(st, Parent(st, b)) + IncludedAt(BlockTxs(st, b), b)
  }

  /** The state at a head: the mempool is free, everything else follows. */
  function Canon(st: Store, head: HashT, mempool: set<HashT>): View {
    var utxos := Unspent(st, ChainTxs(st, head));
    View(head, mempool, utxos, Rates(st, mempool), IndexOf(SpendPairs(st, mempool)),
         IndexOf(PkhPairs(st, utxos)), Included(st, head))
  }

  /** What a head and mempool have to satisfy. */
  ghost predicate ChainOk(st: Store, head: HashT, mempool: set<HashT>) {
    && WellFormed(st)
    && head in st.blocks
    && ValidChain(st, head)
    && mempool <= st.txs.Keys
    && mempool !! ToSet(ChainTxs(st, head))
  }

  // ---- Created, spent and unspent ----

  lemma CreatedIds(st: Store, ids: seq<HashT>)
    ensures forall u :: u in Created(st, ids) ==> u.txId in ids
  {
  }

  lemma CreatedConcat(st: Store, a: seq<HashT>, b: seq<HashT>)
    ensures Created(st, a + b) == Created(st, a) + Created(st, b)
    ensures Spent(st, a + b) == Spent(st, a) + Spent(st, b)
  {
  }

  lemma CreatedOne(st: Store, t: HashT)
    ensures Created(st, [t]) == Outs(st, t) && Spent(st, [t]) == Ins(st, t)
  {
    assert t in [t];
  }

  /** Everything spent was created by these transactions. */
  lemma {:induction false} FittingSpends(st: Store, ids: seq<HashT>)
    requires FitsAll(st, [], ids)
    ensures Spent(st, ids) <= Created(st, ids)
    ensures NoDup(ids)
  {
    if ids != [] {
      var front, t := ids[..|ids| - 1], ids[|ids| - 1];
      assert [] + front == front && ids == front + [t];
      FittingSpends(st, front);
      CreatedConcat(st, front, [t]);
      CreatedOne(st, t);
    }
  }

  /** Adding a fitting transaction takes its inputs out and puts its outputs in. */
  lemma UnspentStep(st: Store, before: seq<HashT>, t: HashT)
    requires Spent(st, before) <= Created(st, before)
    requires Fits(st, before, t)
    ensures Unspent(st, before + [t]) == Unspent(st, before) - Ins(st, t) + Outs(st, t)
    ensures Outs(st, t) !! Created(st, before)
    ensures Spent(st, before + [t]) <= Created(st, before + [t])
  {
    CreatedConcat(st, before, [t]);
    CreatedOne(st, t);
    CreatedIds(st, before);
  }

  lemma {:induction false} FitsAllConcat(st: Store, before: seq<HashT>, a: seq<HashT>, b: seq<HashT>)
    ensures FitsAll(st, before, a + b) <==> FitsAll(st, before, a) && FitsAll(st, before + a, b)
    decreases |b|
  {
    if b == [] {
      assert a + b == a;
    } else {
      var front, t := b[..|b| - 1], b[|b| - 1];
      assert (a + b)[..|a + b| - 1] == a + front;
      assert before + (a + front) == before + a + front;
      FitsAllConcat(st, before, a, front);
    }
  }

  lemma {:induction false} ValidChainFits(st: Store, b: HashT)
    requires ValidChain(st, b)
    ensures FitsAll(st, [], ChainTxs(st, b))
    ensures NoDup(ChainTxs(st, b))
    ensures Spent(st, ChainTxs(st, b)) <= Created(st, ChainTxs(st, b))
    decreases HeightOf(st, b)
  {
    if Linked(st, b) {
      var before := ChainTxs(st, Parent(st, b));
      ValidChainFits(st, Parent(st, b));
      assert [] + before == before;
      FitsAllConcat(st, [], before, BlockTxs(st, b));
    }
    FittingSpends(st, ChainTxs(st, b));
  }

  // ---- No double spend, said of the whole list at once ----

  /** The output a position consumes was made by an earlier transaction, with the value claimed. */
  predicate Sourced(st: Store, ids: seq<HashT>, k: nat, u: Utxo)
    requires k < |ids|
  {
    && u.txId in ids[..k]
    && u.ind < |TxOf(st, u.txId).outputs|
    && u.value == TxOf(st, u.txId).outputs[u.ind].value
  }

  /** Distinct transactions, every input sourced from an earlier one, no output consumed twice. */
  ghost predicate NoDoubleSpend(st: Store, ids: seq<HashT>) {
    && NoDup(ids)
    && (forall k :: 0 <= k < |ids| ==> NoDup(ConsumedUtxos(TxOf(st, ids[k]))))
    && (forall k, u :: 0 <= k < |ids| && u in Ins(st, ids[k]) ==> Sourced(st, ids, k, u))
    && (forall k, k' :: 0 <= k < k' < |ids| ==> Ins(st, ids[k]) !! Ins(st, ids[k']))
  }

  lemma OutsMembers(st: Store, t: HashT, u: Utxo)
    ensures u in Outs(st, t) <==>
              u.txId == t && u.ind < |TxOf(st, t).outputs| && u.value == TxOf(st, t).outputs[u.ind].value
  {
  }

  lemma SourcedIsCreated(st: Store, ids: seq<HashT>, k: nat, u: Utxo)
    requires k < |ids|
    ensures Sourced(st, ids, k, u) <==> u in Created(st, ids[..k])
  {
    OutsMembers(st, u.txId, u);
    if u in Created(st, ids[..k]) {
      var t :| t in ids[..k] && u in Outs(st, t);
      OutsMembers(st, t, u);
    }
  }

  /** Fitting one after the other is the same as having no double spend. */
  lemma {:induction false} FitsAllIffNoDoubleSpend(st: Store, ids: seq<HashT>)
    ensures FitsAll(st, [], ids) <==> NoDoubleSpend(st, ids)
  {
    hide Fits;
    if ids != [] {
      var front, t := ids[..|ids| - 1], ids[|ids| - 1];
      assert ids == front + [t] && [] + front == front;
      FitsAllIffNoDoubleSpend(st, front);
      if NoDoubleSpend(st, ids) {
        NoDoubleSpendFront(st, front, t);
      }
      if NoDoubleSpend(st, front) {
        LastFits(st, front, t);
      }
    }
  }

  lemma NoDoubleSpendFront(st: Store, front: seq<HashT>, t: HashT)
    requires NoDoubleSpend(st, front + [t])
    ensures NoDoubleSpend(st, front)
  {
    var ids := front + [t];
    assert forall k :: 0 <= k < |front| ==> ids[k] == front[k];
    forall k, u | 0 <= k < |front| && u in Ins(st, front[k]) ensures Sourced(st, front, k, u) {
      assert Sourced(st, ids, k, u);
      assert ids[..k] == front[..k];
    }
    forall k, k' | 0 <= k < k' < |front| ensures Ins(st, front[k]) !! Ins(st, front[k']) {
      assert Ins(st, ids[k]) !! Ins(st, ids[k']);
    }
  }

  lemma LastFits(st: Store, front: seq<HashT>, t: HashT)
    requires NoDoubleSpend(st, front)
    ensures Fits(st, front, t) <==> NoDoubleSpend(st, front + [t])
  {
    var ids, n := front + [t], |front|;
    assert ids[..n] == front && ids[n] == t;
    assert forall k :: 0 <= k < n ==> ids[k] == front[k];
    NoDupAppend(front, [t]);
    if Fits(st, front, t) {
      forall k, u | 0 <= k < |ids| && u in Ins(st, ids[k]) ensures Sourced(st, ids, k, u) {
        SourcedIsCreated(st, ids, k, u);
        if k < n {
          assert Sourced(st, front, k, u);
          assert ids[..k] == front[..k];
        }
      }
      forall k, k' | 0 <= k < k' < |ids| ensures Ins(st, ids[k]) !! Ins(st, ids[k']) {
        assert ids[k] in front;
      }
    }
    if NoDoubleSpend(st, ids) {
      forall k | 0 <= k < n ensures Ins(st, front[k]) !! Ins(st, t) {
        assert Ins(st, ids[k]) !! Ins(st, ids[n]);
      }
      forall u | u in Ins(st, t) ensures u in Unspent(st, front) {
        assert Sourced(st, ids, n, u);
        SourcedIsCreated(st, ids, n, u);
      }
    }
  }

  // ---- Chains in a well-formed inventory ----

  lemma BlockTxsGrounded(st: Store, b: HashT)
    requires WellFormed(st) && b in st.blocks && b != 0
    ensures Linked(st, b)
    ensures Grounded(st, BlockOf(st, b).merkleRoot, MaxDepth(st))
    ensures NoDup(BlockTxs(st, b))
    ensures forall t :: t in BlockTxs(st, b) ==> t in st.txs
  {
    assert BlockRecordOk(st, b);
    assert MerkleRecordOk(st, BlockOf(st, b).merkleRoot);
    LevelOrderMembers(st, [BlockOf(st, b).merkleRoot], MaxDepth(st));
  }

  lemma {:induction false} ChainTxsStored(st: Store, b: HashT)
    requires WellFormed(st) && b in st.blocks
    ensures forall t :: t in ChainTxs(st, b) ==> t in st.txs
    decreases HeightOf(st, b)
  {
    if Linked(st, b) {
      BlockTxsGrounded(st, b);
      ChainTxsStored(st, Parent(st, b));
    }
  }

  /** Every input of these transactions names an output with its value and its key, and is signed. */
  ghost predicate InputsOwned(st: Store, ids: seq<HashT>) {
    forall k :: 0 <= k < |ids| ==> SpendsOwned(st, ids[k])
  }

  predicate SpendsOwned(st: Store, t: HashT) {
    forall i :: 0 <= i < |TxOf(st, t).inputs| ==>
      OriginOk(st, TxOf(st, t).inputs[i]) && SignatureOk(st.env, TxOf(st, t), i)
  }

  lemma ChainInputsOwned(st: Store, b: HashT)
    requires WellFormed(st) && b in st.blocks
    ensures InputsOwned(st, ChainTxs(st, b))
  {
    hide ChainTxs, OriginOk, SignatureOk, BlockRecordOk, MerkleRecordOk;
    ChainTxsStored(st, b);
    forall k | 0 <= k < |ChainTxs(st, b)| ensures SpendsOwned(st, ChainTxs(st, b)[k]) {
      assert ChainTxs(st, b)[k] in ChainTxs(st, b);
      assert TxRecordOk(st, ChainTxs(st, b)[k]);
    }
  }

  lemma {:induction false} IncludedKeys(st: Store, b: HashT)
    ensures Included(st, b).Keys == ToSet(ChainTxs(st, b))
    decreases HeightOf(st, b)
  {
    if Linked(st, b) {
      IncludedKeys(st, Parent(st, b));
    }
  }

  lemma {:induction false} ChainTxsAncestor(st: Store, a: HashT, b: HashT)
    requires Ancestor(st, a, b)
    ensures ToSet(ChainTxs(st, a)) <= ToSet(ChainTxs(st, b))
    ensures ValidChain(st, b) ==> ValidChain(st, a)
    decreases HeightOf(st, b)
  {
    if a != b {
      ChainTxsAncestor(st, a, Parent(st, b));
    }
  }

  lemma UnspentStored(st: Store, ids: seq<HashT>)
    ensures forall u :: u in Created(st, ids) ==> u.txId in ids && u.ind < |TxOf(st, u.txId).outputs|
  {
  }

  // ---- Taking a block off again, first transaction first ----

  /** Some transaction of the list consumes an output of an earlier one in it. */
  ghost predicate InBlockSpend(st: Store, ids: seq<HashT>) {
    exists i, j :: 0 <= i < j < |ids| && SpendsFrom(st, ids, i, j)
  }

  ghost predicate SpendsFrom(st: Store, ids: seq<HashT>, i: nat, j: nat)
    requires i < |ids| && j < |ids|
  {
    !(Outs(st, ids[i]) !! Ins(st, ids[j]))
  }

  /** The first `n` transactions have nobody after them in the list. */
  ghost predicate Unclaimed(st: Store, ids: seq<HashT>, n: nat)
    requires n <= |ids|
  {
    forall i, j :: 0 <= i < n && i < j < |ids| ==> !SpendsFrom(st, ids, i, j)
  }

  /** The unspent outputs after the first `n` transactions of the block are taken back. */
  function Rewound(st: Store, before: seq<HashT>, ids: seq<HashT>, n: nat): set<Utxo>
    requires n <= |ids|
  {
    Unspent(st, before + ids) + Spent(st, ids[..n]) - Created(st, ids[..n])
  }

  lemma PrefixFits(st: Store, before: seq<HashT>, ids: seq<HashT>, n: nat)
    requires FitsAll(st, [], before + ids) && n < |ids|
    ensures Fits(st, before + ids[..n], ids[n])
    ensures ids[n] !in ids[..n] && ids[n] !in before
    ensures Spent(st, before + ids[..n]) <= Created(st, before + ids[..n])
  {
    var a, b := before + ids[..n + 1], ids[n + 1..];
    assert before + ids == a + b;
    FitsAllConcat(st, [], a, b);
    assert a[..|a| - 1] == before + ids[..n] && a[|a| - 1] == ids[n];
    assert [] + (before + ids[..n]) == before + ids[..n];
    FittingSpends(st, before + ids[..n]);
  }

  lemma PrefixParts(st: Store, before: seq<HashT>, ids: seq<HashT>, n: nat)
    requires n < |ids|
    ensures Created(st, ids[..n + 1]) == Created(st, ids[..n]) + Outs(st, ids[n])
    ensures Spent(st, ids[..n + 1]) == Spent(st, ids[..n]) + Ins(st, ids[n])
  {
    assert ids[..n + 1] == ids[..n] + [ids[n]];
    CreatedConcat(st, ids[..n], [ids[n]]);
    CreatedOne(st, ids[n]);
  }

  lemma RewindStep(st: Store, before: seq<HashT>, ids: seq<HashT>, n: nat)
    requires FitsAll(st, [], before + ids) && n < |ids| && Unclaimed(st, ids, n)
    ensures Outs(st, ids[n]) <= Rewound(st, before, ids, n) + Ins(st, ids[n]) <==> Unclaimed(st, ids, n + 1)
    ensures Rewound(st, before, ids, n) + Ins(st, ids[n]) - Outs(st, ids[n]) == Rewound(st, before, ids, n + 1)
  {
    PrefixFits(st, before, ids, n);
    PrefixParts(st, before, ids, n);
    forall k | 0 <= k < n ensures Outs(st, ids[k]) !! Ins(st, ids[n]) {
      assert !SpendsFrom(st, ids, k, n);
    }
    CreatedIds(st, before + ids[..n]);
    OutputsStay(st, before, ids, n);
  }

  /** An output of the next transaction is there to remove exactly when no later one consumed it. */
  lemma OutputsStay(st: Store, before: seq<HashT>, ids: seq<HashT>, n: nat)
    requires FitsAll(st, [], before + ids) && n < |ids| && Unclaimed(st, ids, n)
    ensures Outs(st, ids[n]) <= Rewound(st, before, ids, n) + Ins(st, ids[n]) <==> Unclaimed(st, ids, n + 1)
  {
    PrefixFits(st, before, ids, n);
    var t, all := ids[n], before + ids;
    CreatedIds(st, before + ids[..n]);
    CreatedConcat(st, before, ids[..n]);
    forall o | o in Outs(st, t) ensures o !in Spent(st, ids[..n]) && o !in Created(st, ids[..n]) && o !in Ins(st, t) {
    }
    forall j | n < j < |ids| ensures SpendsFrom(st, ids, n, j) ==> !(Outs(st, t) <= Unspent(st, all)) {
      if SpendsFrom(st, ids, n, j) {
        var o :| o in Outs(st, t) && o in Ins(st, ids[j]);
        assert ids[j] in all;
      }
    }
    if Unclaimed(st, ids, n + 1) {
      forall o | o in Outs(st, t) ensures o in Unspent(st, all) {
        assert t in all;
        NotSpent(st, before, ids, n, o);
      }
    }
  }

  lemma NotSpent(st: Store, before: seq<HashT>, ids: seq<HashT>, n: nat, o: Utxo)
    requires FitsAll(st, [], before + ids) && n < |ids| && Unclaimed(st, ids, n + 1)
    requires o in Outs(st, ids[n])
    ensures o !in Spent(st, before + ids)
  {
    PrefixFits(st, before, ids, n);
    CreatedIds(st, before + ids[..n]);
    CreatedConcat(st, before, ids[..n]);
    forall t | t in before + ids ensures o !in Ins(st, t) {
      if t in before {
      } else {
        var j :| 0 <= j < |ids| && ids[j] == t;
        if j < n {
          assert t in ids[..n];
        } else if j > n {
          assert !SpendsFrom(st, ids, n, j);
        }
      }
    }
  }

  /** Taking the whole block back leaves what was unspent before it. */
  lemma RewindDone(st: Store, before: seq<HashT>, ids: seq<HashT>)
    requires FitsAll(st, [], before + ids)
    ensures Rewound(st, before, ids, |ids|) == Unspent(st, before)
  {
    assert ids[..|ids|] == ids;
    CreatedConcat(st, before, ids);
    forall j, u | 0 <= j < |ids| && u in Ins(st, ids[j])
      ensures u in Created(st, before) + Created(st, ids) && u !in Spent(st, before)
    {
      PrefixFits(st, before, ids, j);
      CreatedConcat(st, before, ids[..j]);
      assert forall t :: t in ids[..j] ==> t in ids;
    }
    FitsAllConcat(st, [], before, ids);
    FittingSpends(st, before);
    forall t | t in ids ensures t !in before {
      var j :| 0 <= j < |ids| && ids[j] == t;
      PrefixFits(st, before, ids, j);
    }
    CreatedIds(st, before);
    CreatedIds(st, ids);
  }

  // ---- Where a transaction was included ----

  /** The recorded block of a transaction is the one block of the head's chain that holds it. */
  lemma {:induction false} IncludedExact(st: Store, head: HashT, t: HashT, b: HashT)
    requires WellFormed(st) && head in st.blocks && ValidChain(st, head)
    ensures t in Included(st, head) && Included(st, head)[t] == b
       <==> Ancestor(st, b, head) && b != 0 && t in BlockTxs(st, b)
    decreases HeightOf(st, head)
  {
    hide WellFormed, BlockTxs, Tree;
    WellFormedTree(st);
    if head == 0 {
      ZeroIncludes(st, b);
    } else {
      BlockTxsGrounded(st, head);
      var p := Parent(st, head);
      IncludedExact(st, p, t, b);
      ValidChainFits(st, head);
      NoDupAppend(ChainTxs(st, p), BlockTxs(st, head));
      IncludedKeys(st, p);
      if Ancestor(st, head, p) {
        AncestorBelow(st, head, p);
      }
      if Ancestor(st, b, p) && b != 0 && t in BlockTxs(st, b) {
        assert t in ChainTxs(st, p);
      }
    }
  }

  lemma ZeroIncludes(st: Store, b: HashT)
    requires Tree(st)
    ensures Included(st, 0) == map[]
    ensures Ancestor(st, b, 0) <==> b == 0
  {
  }

  /** One for a transaction in the head, one more for every block above it, none off the chain. */
  function Confirms(st: Store, head: HashT, t: HashT): nat {
    if t in Included(st, head) then |Path(st, head, Included(st, head)[t])| + 1 else 0
  }

  /** Confirmations never underflow: one plus the depth of the recorded block. */
  lemma ConfirmsExact(st: Store, head: HashT, t: HashT)
    requires WellFormed(st) && head in st.blocks && ValidChain(st, head) && t in Included(st, head)
    ensures var b := Included(st, head)[t];
      Ancestor(st, b, head) && HeightOf(st, b) <= HeightOf(st, head)
      && |Path(st, head, b)| == HeightOf(st, head) - HeightOf(st, b)
  {
    hide WellFormed, ValidChain;
    var b := Included(st, head)[t];
    WellFormedTree(st);
    IncludedExact(st, head, t, b);
    AncestorBelow(st, b, head);
    PathExact(st, head, b);
  }
}
