/** The state of the local chain, updated piece by piece as the head moves. */
module ChainState {
  import opened Core
  import opened Forest
  import opened Rules
  import opened Ancestry
  import opened Index
  import opened Ledger
  import opened Inventory
  import opened Lists
  import opened Supply

  class State {
    const inv: Inv
    var head: HashT
    var mempool: set<HashT>
    var utxos: set<Utxo>
    var mempoolRates: map<HashT, real>
    var mempoolUtxoSpends: map<Utxo, set<HashT>>
    var pkhUtxos: map<HashT, set<Utxo>>
    var includedTxBlocks: map<HashT, HashT>

    function View(): Ledger.View
      reads this
    {
      Ledger.View(head, mempool, utxos, mempoolRates, mempoolUtxoSpends, pkhUtxos, includedTxBlocks)
    }

    /** Every field is what the head, the mempool and the inventory make it. */
    ghost predicate Valid()
      reads this, inv
    {
      ChainOk(inv.View(), head, mempool) && View() == Canon(inv.View(), head, mempool)
    }

    ghost predicate MempoolIndexed()
      reads this`mempool, this`mempoolRates, this`mempoolUtxoSpends, inv
    {
      && mempool <= inv.txs.Keys
      && mempoolRates == Rates(inv.View(), mempool)
      && mempoolUtxoSpends == IndexOf(SpendPairs(inv.View(), mempool))
    }

    ghost predicate UtxosIndexed()
      reads this`utxos, this`pkhUtxos, inv
    {
      && (forall u :: u in utxos ==> HasTxOut(inv.View(), u.txId, u.ind))
      && pkhUtxos == IndexOf(PkhPairs(inv.View(), utxos))
    }

    lemma ValidParts()
      requires Valid()
      ensures ChainOk(inv.View(), head, mempool)
      ensures View() == Canon(inv.View(), head, mempool)
      ensures WellFormed(inv.View()) && head in inv.blocks && ValidChain(inv.View(), head)
      ensures mempool !! ToSet(ChainTxs(inv.View(), head))
      ensures MempoolIndexed() && UtxosIndexed()
      ensures utxos == Unspent(inv.View(), ChainTxs(inv.View(), head))
      ensures includedTxBlocks == Included(inv.View(), head)
    {
      hide WellFormed, ValidChain;
      ChainTxsStored(inv.View(), head);
      UnspentStored(inv.View(), ChainTxs(inv.View(), head));
    }

    lemma HeadParts()
      requires Valid()
      ensures ChainOk(inv.View(), head, mempool)
      ensures inv.View().blocks == inv.blocks && head in inv.blocks
    {
    }

    lemma PartsValid()
      requires ChainOk(inv.View(), head, mempool) && MempoolIndexed() && UtxosIndexed()
      requires utxos == Unspent(inv.View(), ChainTxs(inv.View(), head))
      requires includedTxBlocks == Included(inv.View(), head)
      ensures Valid()
    {
    }

    constructor (inv: Inv)
      requires inv.Valid()
      ensures Valid() && this.inv == inv
      ensures View() == Canon(inv.View(), 0, {})
    {
      this.inv := inv;
      head := 0;
      mempool, utxos := {}, {};
      mempoolRates, mempoolUtxoSpends, pkhUtxos, includedTxBlocks := map[], map[], map[], map[];
      new;
      CanonZero(inv.View());
    }

    method Copy() returns (copy: State)
      ensures fresh(copy) && copy.inv == inv && copy.View() == View()
    {
      copy := new State.Raw(inv);
      copy.head, copy.mempool, copy.utxos := head, mempool, utxos;
      copy.mempoolRates, copy.mempoolUtxoSpends := mempoolRates, mempoolUtxoSpends;
      copy.pkhUtxos, copy.includedTxBlocks := pkhUtxos, includedTxBlocks;
    }

    constructor Raw(inv: Inv)
      ensures this.inv == inv
    {
      this.inv := inv;
    }

    /** The last step of a move, when everything else is already as the new head wants it. */
    method SetHead(b: HashT)
      requires ChainOk(inv.View(), b, mempool) && MempoolIndexed() && UtxosIndexed()
      requires utxos == Unspent(inv.View(), ChainTxs(inv.View(), b))
      requires includedTxBlocks == Included(inv.View(), b)
      modifies this`head
      ensures Valid() && head == b
    {
      head := b;
    }

    // ---- The mempool ----

    method AddMempoolTx(txId: HashT)
      requires txId in inv.txs && MempoolIndexed()
      modifies this`mempool, this`mempoolRates, this`mempoolUtxoSpends
      ensures MempoolIndexed() && mempool == old(mempool) + {txId}
    {
      hide SpendPairs, Rates;
      ghost var st, pairs := inv.View(), SpendPairs(inv.View(), mempool);
      var tx := inv.txs[txId].tx;
      var consumed := ConsumedUtxos(tx);
      assert pairs + Claims(consumed[..0], txId) == pairs;
      for i := 0 to |consumed|
        invariant mempool == old(mempool) && mempoolRates == old(mempoolRates)
        invariant mempoolUtxoSpends == IndexOf(pairs + Claims(consumed[..i], txId))
      {
        IndexAdd(pairs + Claims(consumed[..i], txId), consumed[i], txId);
        ClaimsStep(consumed, txId, i);
        assert pairs + Claims(consumed[..i], txId) + {(consumed[i], txId)} == pairs + Claims(consumed[..i + 1], txId);
        mempoolUtxoSpends := AddPair(mempoolUtxoSpends, consumed[i], txId);
      }
      assert consumed[..|consumed|] == consumed;
      SpendPairsAdd(st, mempool, txId);
      RatesAdd(st, mempool, txId);
      mempool := mempool + {txId};
      mempoolRates := mempoolRates[txId := Rate(tx)];
    }

    /** The mempool part of `Advance`; it is here that repeated inputs come to light. */
    method RemoveMempoolTx(txId: HashT) returns (ok: bool)
      requires txId in mempool && MempoolIndexed()
      modifies this`mempool, this`mempoolRates, this`mempoolUtxoSpends
      ensures ok <==> NoDup(ConsumedUtxos(TxOf(inv.View(), txId)))
      ensures ok ==> MempoolIndexed() && mempool == old(mempool) - {txId}
    {
      hide SpendPairs, NoDup, Rates;
      ghost var st, pairs := inv.View(), SpendPairs(inv.View(), mempool);
      var consumed := ConsumedUtxos(inv.txs[txId].tx);
      NoDupEmpty(consumed[..0]);
      assert pairs - Claims(consumed[..0], txId) == pairs;
      for i := 0 to |consumed|
        invariant mempool == old(mempool) && mempoolRates == old(mempoolRates)
        invariant mempoolUtxoSpends == IndexOf(pairs - Claims(consumed[..i], txId))
        invariant NoDup(consumed[..i])
      {
        var u := consumed[i];
        SpendPairsMember(st, mempool, txId, u);
        IndexExact(pairs - Claims(consumed[..i], txId));
        NoDupStep(consumed, i);
        if u !in mempoolUtxoSpends || txId !in mempoolUtxoSpends[u] {
          return false;
        }
        IndexRemove(pairs - Claims(consumed[..i], txId), u, txId);
        ClaimsStep(consumed, txId, i);
        assert pairs - Claims(consumed[..i], txId) - {(u, txId)} == pairs - Claims(consumed[..i + 1], txId);
        mempoolUtxoSpends := RemovePair(mempoolUtxoSpends, u, txId);
      }
      assert consumed[..|consumed|] == consumed;
      SpendPairsRemove(st, mempool, txId);
      RatesRemove(st, mempool, txId);
      mempool := mempool - {txId};
      mempoolRates := mempoolRates - {txId};
      ok := true;
    }

    // ---- The unspent outputs ----

    method CreditBalance(publicKeyHash: HashT, credit: Utxo)
      modifies this`pkhUtxos
      ensures forall pairs: set<(HashT, Utxo)> ::
        old(pkhUtxos) == IndexOf(pairs) ==> pkhUtxos == IndexOf(pairs + {(publicKeyHash, credit)})
      ensures publicKeyHash in pkhUtxos && credit in pkhUtxos[publicKeyHash]
      ensures forall k :: k != publicKeyHash ==>
        (k in pkhUtxos <==> k in old(pkhUtxos)) && (k in pkhUtxos ==> pkhUtxos[k] == old(pkhUtxos)[k])
    {
      forall pairs: set<(HashT, Utxo)> | pkhUtxos == IndexOf(pairs)
        ensures AddPair(pkhUtxos, publicKeyHash, credit) == IndexOf(pairs + {(publicKeyHash, credit)})
      {
        IndexAdd(pairs, publicKeyHash, credit);
      }
      pkhUtxos := AddPair(pkhUtxos, publicKeyHash, credit);
    }

    /** Fails, changing nothing, when the key does not control the output. */
    method DebitBalance(publicKeyHash: HashT, debit: Utxo) returns (ok: bool)
      modifies this`pkhUtxos
      ensures ok <==> publicKeyHash in old(pkhUtxos) && debit in old(pkhUtxos)[publicKeyHash]
      ensures ok ==> pkhUtxos == RemovePair(old(pkhUtxos), publicKeyHash, debit)
      ensures !ok ==> pkhUtxos == old(pkhUtxos)
    {
      if publicKeyHash !in pkhUtxos || debit !in pkhUtxos[publicKeyHash] {
        return false;
      }
      pkhUtxos := RemovePair(pkhUtxos, publicKeyHash, debit);
      ok := true;
    }

    method AddUtxo(publicKeyHash: HashT, u: Utxo)
      requires UtxosIndexed()
      requires HasTxOut(inv.View(), u.txId, u.ind) && OriginPkh(inv.View(), u) == publicKeyHash
      modifies this`utxos, this`pkhUtxos
      ensures UtxosIndexed() && utxos == old(utxos) + {u}
    {
      ghost var st := inv.View();
      ghost var pairs := PkhPairs(st, utxos);
      PkhPairsAdd(st, utxos, u);
      assert pkhUtxos == IndexOf(pairs);
      utxos := utxos + {u};
      CreditBalance(publicKeyHash, u);
      assert PkhPairs(st, utxos) == pairs + {(publicKeyHash, u)};
    }

    method RemoveUtxo(publicKeyHash: HashT, u: Utxo) returns (ok: bool)
      requires UtxosIndexed()
      requires OriginPkh(inv.View(), u) == publicKeyHash
      modifies this`utxos, this`pkhUtxos
      ensures ok <==> u in old(utxos)
      ensures ok ==> UtxosIndexed() && utxos == old(utxos) - {u}
    {
      if u !in utxos {
        return false;
      }
      ghost var st := inv.View();
      PkhPairsRemove(st, utxos, u);
      IndexRemove(PkhPairs(st, utxos), publicKeyHash, u);
      utxos := utxos - {u};
      ok := DebitBalance(publicKeyHash, u);
    }

    method ConsumeInputs(tx: Tx) returns (ok: bool)
      requires UtxosIndexed()
      modifies this`utxos, this`pkhUtxos
      ensures ok <==> NoDup(ConsumedUtxos(tx)) && ToSet(ConsumedUtxos(tx)) <= old(utxos)
      ensures ok ==> UtxosIndexed() && utxos == old(utxos) - ToSet(ConsumedUtxos(tx))
    {
      hide UtxosIndexed, NoDup;
      var consumed := ConsumedUtxos(tx);
      NoDupEmpty(consumed[..0]);
      for i := 0 to |consumed|
        invariant UtxosIndexed() && NoDup(consumed[..i])
        invariant ToSet(consumed[..i]) <= old(utxos)
        invariant utxos == old(utxos) - ToSet(consumed[..i])
      {
        NoDupStep(consumed, i);
        var u := consumed[i];
        ok := RemoveUtxo(OriginPkh(inv.View(), u), u);
        if !ok {
          assert u in ToSet(consumed);
          return;
        }
      }
      assert consumed[..|consumed|] == consumed;
      ok := true;
    }

    method ReturnInputs(tx: Tx)
      requires UtxosIndexed()
      requires forall u :: u in ToSet(ConsumedUtxos(tx)) ==> HasTxOut(inv.View(), u.txId, u.ind)
      modifies this`utxos, this`pkhUtxos
      ensures UtxosIndexed() && utxos == old(utxos) + ToSet(ConsumedUtxos(tx))
    {
      hide UtxosIndexed;
      var consumed := ConsumedUtxos(tx);
      for i := 0 to |consumed|
        invariant UtxosIndexed()
        invariant utxos == old(utxos) + ToSet(consumed[..i])
      {
        var u := consumed[i];
        assert u in ToSet(consumed);
        AddUtxo(OriginPkh(inv.View(), u), u);
      }
      assert consumed[..|consumed|] == consumed;
    }

    method CreateOutputs(txId: HashT)
      requires txId in inv.txs && UtxosIndexed()
      modifies this`utxos, this`pkhUtxos
      ensures UtxosIndexed() && utxos == old(utxos) + Outs(inv.View(), txId)
    {
      hide UtxosIndexed;
      var outputs := inv.txs[txId].tx.outputs;
      for i := 0 to |outputs|
        invariant UtxosIndexed()
        invariant utxos == old(utxos) + OutsTo(inv.View(), txId, i)
      {
        OutsToStep(inv.View(), txId, i);
        AddUtxo(outputs[i].publicKeyHash, Utxo(txId, i, outputs[i].value));
      }
    }

    method RemoveOutputs(txId: HashT) returns (ok: bool)
      requires txId in inv.txs && UtxosIndexed()
      modifies this`utxos, this`pkhUtxos
      ensures ok <==> Outs(inv.View(), txId) <= old(utxos)
      ensures ok ==> UtxosIndexed() && utxos == old(utxos) - Outs(inv.View(), txId)
    {
      hide UtxosIndexed;
      var outputs := inv.txs[txId].tx.outputs;
      for i := 0 to |outputs|
        invariant UtxosIndexed()
        invariant OutsTo(inv.View(), txId, i) <= old(utxos)
        invariant utxos == old(utxos) - OutsTo(inv.View(), txId, i)
      {
        OutsToStep(inv.View(), txId, i);
        ok := RemoveUtxo(outputs[i].publicKeyHash, Utxo(txId, i, outputs[i].value));
        if !ok {
          assert Utxo(txId, i, outputs[i].value) in Outs(inv.View(), txId);
          return;
        }
      }
      ok := true;
    }

    // ---- Moving the head forward ----

    /** Whether a transaction can go into the next block.  With auto-add it first joins the mempool. */
    method VerifyTxIncludable(txId: HashT, autoAdd: bool) returns (ok: bool)
      requires head in inv.blocks && MempoolIndexed()
      modifies this`mempool, this`mempoolRates, this`mempoolUtxoSpends
      ensures ok <==> Includable(inv.View(), HeightOf(inv.View(), head), old(mempool), utxos, txId, autoAdd)
      ensures MempoolIndexed()
      ensures ok ==> mempool == old(mempool) + {txId}
      ensures !autoAdd ==> unchanged(this)
    {
      hide MempoolIndexed;
      if txId !in inv.txs {
        return false;
      }
      var tx := inv.txs[txId].tx;
      if inv.blocks[head].height + 1 < tx.minBlock {
        return false;
      }
      if txId !in mempool {
        if !autoAdd {
          return false;
        }
        AddMempoolTx(txId);
      }
      var consumed := ConsumedUtxos(tx);
      for i := 0 to |consumed|
        invariant ToSet(consumed[..i]) <= utxos
      {
        if consumed[i] !in utxos {
          assert consumed[i] in ToSet(consumed);
          return false;
        }
      }
      assert consumed[..|consumed|] == consumed;
      ok := true;
    }

    /** One round of `Advance`. */
    method ApplyTx(txId: HashT, nextBlockId: HashT, autoAdd: bool, ghost before: seq<HashT>) returns (ok: bool)
      requires head in inv.blocks && nextBlockId in inv.blocks
      requires MempoolIndexed() && UtxosIndexed() && txId in inv.txs
      requires utxos == Unspent(inv.View(), before) && Spent(inv.View(), before) <= Created(inv.View(), before)
      requires includedTxBlocks.Keys == ToSet(before) && mempool !! ToSet(before)
      requires HeightOf(inv.View(), nextBlockId) == HeightOf(inv.View(), head) + 1
      modifies this
      ensures head == old(head)
      ensures ok <==>
        && Fits(inv.View(), before, txId)
        && (autoAdd || txId in old(mempool))
        && TxOf(inv.View(), txId).minBlock <= HeightOf(inv.View(), nextBlockId)
      ensures ok ==>
        && MempoolIndexed() && UtxosIndexed()
        && utxos == Unspent(inv.View(), before + [txId])
        && mempool == old(mempool) - {txId}
        && includedTxBlocks == old(includedTxBlocks)[txId := nextBlockId]
    {
      hide MempoolIndexed, UtxosIndexed, NoDup;
      var tx := inv.txs[txId].tx;
      ok := VerifyTxIncludable(txId, autoAdd);
      if !ok {
        return;
      }
      if inv.blocks[nextBlockId].height < tx.minBlock {
        return false;
      }
      ok := RemoveMempoolTx(txId);
      if !ok {
        return;
      }
      ok := ConsumeInputs(tx);
      if !ok {
        return;
      }
      CreateOutputs(txId);
      if txId in includedTxBlocks {
        return false;
      }
      UnspentStep(inv.View(), before, txId);
      includedTxBlocks := includedTxBlocks[txId := nextBlockId];
      ok := true;
    }

    /** The loop of `Advance`. */
    method ApplyTxs(ids: seq<HashT>, b: HashT, autoAdd: bool, ghost st: Store, ghost before: seq<HashT>)
      returns (ok: bool)
      requires st == inv.View() && head in st.blocks && ValidChain(st, head) && before == ChainTxs(st, head)
      requires b in st.blocks && HeightOf(st, b) == HeightOf(st, head) + 1
      requires MempoolIndexed() && UtxosIndexed() && mempool !! ToSet(before)
      requires utxos == Unspent(st, before) && includedTxBlocks == Included(st, head)
      requires NoDup(ids) && forall t :: t in ids ==> t in inv.txs
      modifies this
      ensures head == old(head)
      ensures ok <==> TxsFollow(st, before, ids, HeightOf(st, b), old(mempool), autoAdd)
      ensures ok ==> MempoolIndexed() && UtxosIndexed() && utxos == Unspent(st, before + ids)
      ensures ok ==> mempool == old(mempool) - ToSet(ids)
      ensures ok ==> includedTxBlocks == Included(st, head) + IncludedAt(ids, b)
    {
      hide MempoolIndexed, UtxosIndexed, Fits, FitsAll, Unspent, Included, IncludedAt, ValidChain, ChainTxs, NoDup;
      FollowNone(st, before, HeightOf(st, b), mempool, autoAdd, b);
      for i := 0 to |ids|
        invariant head == old(head) && MempoolIndexed() && UtxosIndexed()
        invariant TxsFollow(st, before, ids[..i], HeightOf(st, b), old(mempool), autoAdd)
        invariant utxos == Unspent(st, before + ids[..i])
        invariant mempool == old(mempool) - ToSet(ids[..i])
        invariant includedTxBlocks == Included(st, head) + IncludedAt(ids[..i], b)
      {
        MidAdvance(st, head, before, ids, i, b);
        FollowStep(st, before, ids, i, HeightOf(st, b), old(mempool), autoAdd, b);
        ok := ApplyTx(ids[i], b, autoAdd, before + ids[..i]);
        if !ok {
          return;
        }
      }
      assert ids[..|ids|] == ids;
      ok := true;
    }

    /** Moves the head to a child of it.  When this fails the state is spoiled. */
    method Advance(nextBlockId: HashT, autoAdd: bool) returns (ok: bool)
      requires Valid() && nextBlockId != 0
      modifies this
      ensures ok <==> CanAdvance(inv.View(), old(head), old(mempool), nextBlockId, autoAdd)
      ensures ok ==> Valid() && head == nextBlockId
      ensures ok ==> mempool == old(mempool) - ToSet(BlockTxs(inv.View(), nextBlockId))
    {
      hide WellFormed, ValidChain, Fits, FitsAll, Unspent, Valid, ChainOk, MempoolIndexed, UtxosIndexed,
        TxIdsUnder, IncludedAt, Included, ChainTxs, Grounded, NoDup;
      ValidParts();
      if nextBlockId !in inv.blocks {
        return false;
      }
      ghost var st := inv.View();
      BlockTxsGrounded(st, nextBlockId);
      var ids := inv.GetMerkleTxIds(inv.blocks[nextBlockId].block.merkleRoot);
      if inv.blocks[nextBlockId].block.prevBlockId != head {
        return false;
      }
      CanFollow(st, head, mempool, nextBlockId, autoAdd);
      ok := ApplyTxs(ids, nextBlockId, autoAdd, st, ChainTxs(st, head));
      if ok {
        EndAdvance(st, head, old(mempool), nextBlockId);
        SetHead(nextBlockId);
      }
    }

    // ---- Moving the head back ----

    /** One round of `Rewind`. */
    method RevertTx(txId: HashT, ghost st: Store, ghost before: seq<HashT>, ghost ids: seq<HashT>, ghost n: nat)
      returns (ok: bool)
      requires st == inv.View() && n < |ids| && ids[n] == txId && txId in inv.txs
      requires FitsAll(st, [], before + ids) && Unclaimed(st, ids, n)
      requires MempoolIndexed() && UtxosIndexed() && utxos == Rewound(st, before, ids, n)
      requires txId in includedTxBlocks && includedTxBlocks[txId] == head
      requires forall u :: u in Ins(st, txId) ==> HasTxOut(st, u.txId, u.ind)
      modifies this
      ensures head == old(head)
      ensures ok <==> Unclaimed(st, ids, n + 1)
      ensures ok ==> MempoolIndexed() && UtxosIndexed() && utxos == Rewound(st, before, ids, n + 1)
      ensures ok ==> mempool == old(mempool) + {txId}
      ensures ok ==> includedTxBlocks == old(includedTxBlocks) - {txId}
    {
      hide MempoolIndexed, UtxosIndexed, FitsAll, Unclaimed, Rewound;
      RewindStep(st, before, ids, n);
      AddMempoolTx(txId);
      ReturnInputs(inv.txs[txId].tx);
      ok := RemoveOutputs(txId);
      if !ok || txId !in includedTxBlocks || includedTxBlocks[txId] != head {
        return;
      }
      includedTxBlocks := includedTxBlocks - {txId};
    }

    /** The loop of `Rewind`, from the first transaction of the head block to its last. */
    method RevertTxs(ids: seq<HashT>, ghost st: Store) returns (ok: bool)
      requires Valid() && st == inv.View() && head != 0 && ids == BlockTxs(st, head)
      modifies this
      ensures head == old(head)
      ensures ok <==> !InBlockSpend(st, ids)
      ensures ok ==> MempoolIndexed() && UtxosIndexed()
      ensures ok ==> mempool == old(mempool) + ToSet(ids)
      ensures ok ==> utxos == Unspent(st, ChainTxs(st, Parent(st, head)))
      ensures ok ==> includedTxBlocks == Included(st, Parent(st, head))
    {
      hide MempoolIndexed, UtxosIndexed, Unspent, Fits, FitsAll, Unclaimed, Rewound, Valid, ChainOk,
        ValidChain, ChainTxs, Included, WellFormed, BlockTxs;
      ValidParts();
      ghost var before := ChainTxs(st, Parent(st, head));
      StartRewind(st, head, mempool, before, ids);
      for i := 0 to |ids|
        invariant head == old(head) && MempoolIndexed() && UtxosIndexed() && Unclaimed(st, ids, i)
        invariant utxos == Rewound(st, before, ids, i)
        invariant mempool == old(mempool) + ToSet(ids[..i])
        invariant includedTxBlocks == Included(st, head) - ToSet(ids[..i])
      {
        MidRewind(st, head, before, ids, i);
        ok := RevertTx(ids[i], st, before, ids, i);
        if !ok {
          ClaimedFails(st, ids, i + 1);
          return;
        }
      }
      assert ids[..|ids|] == ids;
      RewindDone(st, before, ids);
      UnclaimedAll(st, ids);
      ok := true;
    }

    /** Moves the head to its parent.  Not `ok` stands for the panics: at the zero block, or when
        an output to remove is gone because the same block consumed it. */
    method Rewind() returns (ok: bool)
      requires Valid()
      modifies this
      ensures ok <==> CanRewind(inv.View(), old(head))
      ensures ok ==> Valid() && head == Parent(inv.View(), old(head))
      ensures ok ==> mempool == old(mempool) + ToSet(BlockTxs(inv.View(), old(head)))
    {
      if head == 0 {
        return false;
      }
      hide *;
      ghost var st := inv.View();
      HeadParts();
      EndRewind(st, head, mempool);
      var record := inv.blocks[head];
      var ids := inv.GetMerkleTxIds(record.block.merkleRoot);
      ok := RevertTxs(ids, st);
      if ok {
        SetHead(record.block.prevBlockId);
      }
    }

    /** Rewinds until the head is the given block; panics when that is no ancestor. */
    method RewindUntil(blockId: HashT) returns (ok: bool)
      requires Valid()
      modifies this
      ensures ok <==> Ancestor(inv.View(), blockId, old(head)) && CanRewindTo(inv.View(), old(head), blockId)
      ensures ok ==> Valid() && head == blockId
      ensures ok ==>
        mempool == old(mempool) + (ToSet(ChainTxs(inv.View(), old(head))) - ToSet(ChainTxs(inv.View(), blockId)))
    {
      hide MempoolIndexed, UtxosIndexed, Unspent, Valid, ChainOk, ValidChain, ChainTxs, Included, WellFormed,
        InBlockSpend, Tree, Ancestor, Path, BlockTxs, Canon;
      ValidParts();
      ghost var st := inv.View();
      WellFormedTree(st);
      var depth: nat;
      depth, ok := inv.GetBlockAncestorDepth(head, blockId);
      if !ok {
        return;
      }
      ghost var gone: set<HashT> := {};
      for i := 0 to depth
        invariant Valid() && Ancestor(st, blockId, head) && |Path(st, head, blockId)| == depth - i
        invariant CanRewindTo(st, old(head), blockId) <==> CanRewindTo(st, head, blockId)
        invariant mempool == old(mempool) + gone
        invariant gone + ToSet(ChainTxs(st, head)) == ToSet(ChainTxs(st, old(head)))
        invariant gone !! ToSet(ChainTxs(st, head))
      {
        ValidParts();
        PathStep(st, head, blockId);
        RewindToStep(st, head, blockId);
        ghost var b := head;
        ok := Rewind();
        if !ok {
          return;
        }
        gone := gone + ToSet(BlockTxs(st, b));
      }
      ValidParts();
      PathStep(st, head, blockId);
      assert gone == ToSet(ChainTxs(st, old(head))) - ToSet(ChainTxs(st, blockId));
      ok := head == blockId;
    }

    // ---- Queries ----

    /** Mempool transactions that could go into the next block, best fee rate first. */
    method GetSortedIncludableMempool() returns (out: seq<HashT>)
      requires Valid()
      modifies this`mempool, this`mempoolRates, this`mempoolUtxoSpends
      ensures unchanged(this)
      ensures NoDup(out) && ToSet(out) == Candidates(inv.View(), head, mempool, utxos)
      ensures forall i, j :: 0 <= i < j < |out| ==>
        var a, b := TxOf(inv.View(), out[i]), TxOf(inv.View(), out[j]);
        (SumIn(a.inputs) % TWO_64 - SumOut(a.outputs) % TWO_64) * VSize(b)
          >= (SumIn(b.inputs) % TWO_64 - SumOut(b.outputs) % TWO_64) * VSize(a)
    {
      hide Valid, Includable, HasSurplus, Candidates, WellFormed, ValidChain, ChainOk, MempoolIndexed, UtxosIndexed,
        Canon;
      ghost var st := inv.View();
      HeadParts();
      ValidParts();
      RatesKnown();
      var all := ToList(mempool);
      var includable: set<HashT> := {};
      for i := 0 to |all|
        invariant unchanged(this)
        invariant includable == Candidates(st, head, mempool, utxos) * ToSet(all[..i])
      {
        var ok := VerifyTxIncludable(all[i], false);
        OneMoreCandidate(st, head, mempool, utxos, all, i);
        if ok && HasSurplus(inv.txs[all[i]].tx) {
          includable := includable + {all[i]};
        }
      }
      assert all[..|all|] == all;
      CandidatesPending(st, head, mempool, utxos);
      var rates := mempoolRates;
      out := SortedList(includable, t => if t in rates then rates[t] else 0.0);
      forall i, j | 0 <= i < j < |out| ensures PaysNoLess(TxOf(st, out[i]), TxOf(st, out[j])) {
        assert out[i] in ToSet(out) && out[j] in ToSet(out);
        RateOrder(TxOf(st, out[i]), TxOf(st, out[j]));
      }
    }

    lemma RatesKnown()
      requires Valid()
      ensures mempoolRates.Keys == mempool
      ensures forall t :: t in mempool ==> mempoolRates[t] == Rate(TxOf(inv.View(), t))
    {
    }

    lemma IndexesKnown()
      requires Valid()
      ensures pkhUtxos == IndexOf(PkhPairs(inv.View(), utxos))
      ensures mempoolUtxoSpends == IndexOf(SpendPairs(inv.View(), mempool))
    {
    }

    method GetPkhUtxos(publicKeyHash: HashT, excludeMempool: bool) returns (out: seq<Utxo>)
      requires Valid()
      ensures NoDup(out)
      ensures ToSet(out) == Spendable(inv.View(), utxos, mempool, publicKeyHash, excludeMempool)
    {
      hide Valid;
      IndexesKnown();
      ghost var st := inv.View();
      PkhIndexExact(st, utxos, publicKeyHash);
      if publicKeyHash !in pkhUtxos {
        return [];
      }
      var us := pkhUtxos[publicKeyHash];
      if excludeMempool {
        SpendsExact(st, mempool);
        us := set u | u in us && u !in mempoolUtxoSpends;
      }
      out := ToList(us);
    }

    method GetManyPkhUtxos(publicKeyHashes: seq<HashT>, excludeMempool: bool) returns (out: map<Utxo, HashT>)
      requires Valid()
      ensures forall u :: u in out <==>
        exists k :: k in publicKeyHashes && u in Spendable(inv.View(), utxos, mempool, k, excludeMempool)
      ensures forall u :: u in out ==> out[u] == OriginPkh(inv.View(), u)
    {
      hide Valid;
      ghost var st := inv.View();
      out := map[];
      for i := 0 to |publicKeyHashes|
        invariant forall u :: u in out <==>
          exists k :: k in publicKeyHashes[..i] && u in Spendable(st, utxos, mempool, k, excludeMempool)
        invariant forall u :: u in out ==> out[u] == OriginPkh(st, u)
      {
        var pkh := publicKeyHashes[i];
        var us := GetPkhUtxos(pkh, excludeMempool);
        assert forall u :: u in us <==> u in ToSet(us);
        assert publicKeyHashes[..i + 1] == publicKeyHashes[..i] + [pkh];
        out := out + map u | u in us :: pkh;
      }
      assert publicKeyHashes[..|publicKeyHashes|] == publicKeyHashes;
    }

    /** The sum wraps like any 64-bit sum. */
    method GetPkhBalance(publicKeyHash: HashT) returns (total: Uint64)
      requires Valid()
      ensures total == Total(Held(inv.View(), utxos, {publicKeyHash})) % TWO_64
    {
      hide Valid, Total, NoDup;
      IndexesKnown();
      PkhIndexExact(inv.View(), utxos, publicKeyHash);
      TotalNone({});
      if publicKeyHash !in pkhUtxos {
        return 0;
      }
      var us := ToList(pkhUtxos[publicKeyHash]);
      total := 0;
      assert ToSet(us[..0]) == {};
      for i := 0 to |us|
        invariant total == Total(ToSet(us[..i])) % TWO_64
      {
        TotalNext(us, i);
        AddWrap(Total(ToSet(us[..i])), us[i].value);
        total := (total + us[i].value) % TWO_64;
      }
      assert us[..|us|] == us;
    }

    /** Unknown transactions have no entry, ones off the chain have zero. */
    method GetTxConfirms(txIds: seq<HashT>) returns (out: map<HashT, nat>)
      requires Valid()
      ensures out.Keys == ToSet(txIds) * inv.txs.Keys
      ensures forall t :: t in out ==> out[t] == Confirms(inv.View(), head, t)
    {
      hide Valid, WellFormed, ValidChain, Included;
      ValidParts();
      ghost var st := inv.View();
      out := map[];
      for i := 0 to |txIds|
        invariant out.Keys == ToSet(txIds[..i]) * inv.txs.Keys
        invariant forall t :: t in out ==> out[t] == Confirms(st, head, t)
      {
        assert txIds[..i + 1] == txIds[..i] + [txIds[i]];
        var t := txIds[i];
        if t in inv.txs {
          if t !in includedTxBlocks {
            out := out[t := 0];
          } else {
            ConfirmsExact(st, head, t);
            WellFormedTree(st);
            var depth := inv.blocks[head].height - HeightOf(inv.View(), includedTxBlocks[t]);
            out := out[t := depth + 1];
          }
        }
      }
      assert txIds[..|txIds|] == txIds;
    }
  }

  // ---- What the queries answer ----

  /** What may be offered to a miner at a head. */
  function Candidates(st: Store, head: HashT, mempool: set<HashT>, utxos: set<Utxo>): set<HashT> {
    set t | t in mempool && Includable(st, HeightOf(st, head), mempool, utxos, t, false) && HasSurplus(TxOf(st, t))
  }

  lemma CandidatesPending(st: Store, head: HashT, mempool: set<HashT>, utxos: set<Utxo>)
    ensures Candidates(st, head, mempool, utxos) <= mempool
  {
  }

  lemma OneMoreCandidate(
    st: Store, head: HashT, mempool: set<HashT>, utxos: set<Utxo>, all: seq<HashT>, i: nat)
    requires i < |all| && ToSet(all) == mempool
    ensures var t := all[i];
            var fine := Includable(st, HeightOf(st, head), mempool, utxos, t, false) && HasSurplus(TxOf(st, t));
      Candidates(st, head, mempool, utxos) * ToSet(all[..i + 1])
        == Candidates(st, head, mempool, utxos) * ToSet(all[..i]) + if fine then {all[i]} else {}
  {
    hide Includable, HasSurplus;
    assert all[..i + 1] == all[..i] + [all[i]];
    assert all[i] in ToSet(all);
  }

  /** The unspent outputs that pay a key, perhaps without those that a mempool transaction spends. */
  function Spendable(st: Store, utxos: set<Utxo>, mempool: set<HashT>, k: HashT, excludeMempool: bool): set<Utxo> {
    set u | u in Held(st, utxos, {k}) && (excludeMempool ==> forall t :: t in mempool ==> u !in Ins(st, t))
  }

  lemma SpendsExact(st: Store, mempool: set<HashT>)
    ensures forall u :: u in IndexOf(SpendPairs(st, mempool)) <==> exists t :: t in mempool && u in Ins(st, t)
  {
    var pairs := SpendPairs(st, mempool);
    IndexExact(pairs);
    forall u ensures u in IndexOf(pairs) <==> exists t :: t in mempool && u in Ins(st, t) {
      if u in IndexOf(pairs) {
        var t :| t in IndexOf(pairs)[u];
        assert (u, t) in pairs;
      }
      if t :| t in mempool && u in Ins(st, t) {
        assert (u, t) in pairs;
      }
    }
  }

  lemma TotalNext(us: seq<Utxo>, i: nat)
    requires i < |us| && NoDup(us)
    ensures Total(ToSet(us[..i + 1])) == Total(ToSet(us[..i])) + us[i].value
  {
    hide Total;
    assert us[..i + 1] == us[..i] + [us[i]];
    assert ToSet(us[..i + 1]) - {us[i]} == ToSet(us[..i]);
    TotalRemove(ToSet(us[..i + 1]), us[i]);
  }

  // ---- Lemmas for the loops ----

  function Claims(us: seq<Utxo>, t: HashT): set<(Utxo, HashT)> { set u | u in us :: (u, t) }

  function OutsTo(st: Store, t: HashT, n: nat): set<Utxo>
    requires n <= |TxOf(st, t).outputs|
  {
    set i | 0 <= i < n :: Utxo(t, i, TxOf(st, t).outputs[i].value)
  }

  lemma OutsToStep(st: Store, t: HashT, n: nat)
    requires n < |TxOf(st, t).outputs|
    ensures OutsTo(st, t, n + 1) == OutsTo(st, t, n) + {Utxo(t, n, TxOf(st, t).outputs[n].value)}
  {
  }

  lemma ClaimsStep(us: seq<Utxo>, t: HashT, i: nat)
    requires i < |us|
    ensures Claims(us[..i + 1], t) == Claims(us[..i], t) + {(us[i], t)}
    ensures (us[i], t) in Claims(us[..i], t) <==> us[i] in us[..i]
  {
    assert us[..i + 1] == us[..i] + [us[i]];
  }

  lemma NoDupEmpty(us: seq<Utxo>)
    requires us == []
    ensures NoDup(us)
  {
  }

  lemma NoDupStep(us: seq<Utxo>, i: nat)
    requires i < |us|
    ensures NoDup(us[..i]) && us[i] !in us[..i] ==> NoDup(us[..i + 1])
    ensures us[i] in us[..i] ==> !NoDup(us)
  {
    assert us[..i + 1] == us[..i] + [us[i]];
    NoDupAppend(us[..i], [us[i]]);
  }

  lemma SpendPairsMember(st: Store, mempool: set<HashT>, t: HashT, u: Utxo)
    ensures (u, t) in SpendPairs(st, mempool) <==> t in mempool && u in ConsumedUtxos(TxOf(st, t))
  {
  }

  lemma SpendPairsAdd(st: Store, mempool: set<HashT>, t: HashT)
    ensures SpendPairs(st, mempool + {t}) == SpendPairs(st, mempool) + Claims(ConsumedUtxos(TxOf(st, t)), t)
  {
  }

  lemma SpendPairsRemove(st: Store, mempool: set<HashT>, t: HashT)
    ensures SpendPairs(st, mempool - {t}) == SpendPairs(st, mempool) - Claims(ConsumedUtxos(TxOf(st, t)), t)
  {
  }

  lemma RatesAdd(st: Store, mempool: set<HashT>, t: HashT)
    ensures Rates(st, mempool + {t}) == Rates(st, mempool)[t := Rate(TxOf(st, t))]
  {
  }

  lemma RatesRemove(st: Store, mempool: set<HashT>, t: HashT)
    ensures Rates(st, mempool - {t}) == Rates(st, mempool) - {t}
  {
  }

  lemma PkhPairsAdd(st: Store, utxos: set<Utxo>, u: Utxo)
    ensures PkhPairs(st, utxos + {u}) == PkhPairs(st, utxos) + {(OriginPkh(st, u), u)}
  {
  }

  lemma PkhPairsRemove(st: Store, utxos: set<Utxo>, u: Utxo)
    requires u in utxos
    ensures PkhPairs(st, utxos - {u}) == PkhPairs(st, utxos) - {(OriginPkh(st, u), u)}
    ensures (OriginPkh(st, u), u) in PkhPairs(st, utxos)
  {
  }

  lemma CanonZero(st: Store)
    requires WellFormed(st)
    ensures ChainOk(st, 0, {})
    ensures Canon(st, 0, {}) == Ledger.View(0, {}, {}, map[], map[], map[], map[])
  {
    assert !Linked(st, 0);
  }

  /** What `VerifyTxIncludable` checks. */
  predicate Includable(st: Store, height: nat, mempool: set<HashT>, utxos: set<Utxo>, t: HashT, autoAdd: bool) {
    && t in st.txs
    && TxOf(st, t).minBlock <= height + 1
    && (autoAdd || t in mempool)
    && Ins(st, t) <= utxos
  }

  ghost predicate CanAdvance(st: Store, head: HashT, mempool: set<HashT>, b: HashT, autoAdd: bool) {
    && b in st.blocks && Parent(st, b) == head
    && ValidBlock(st, b)
    && (autoAdd || ToSet(BlockTxs(st, b)) <= mempool)
  }

  /** The transactions `ids` can follow `before` in a block at this height. */
  predicate TxsFollow(
    st: Store, before: seq<HashT>, ids: seq<HashT>, height: nat, mempool: set<HashT>, autoAdd: bool)
  {
    && FitsAll(st, before, ids)
    && (autoAdd || ToSet(ids) <= mempool)
    && forall k :: 0 <= k < |ids| ==> TxOf(st, ids[k]).minBlock <= height
  }

  lemma FollowNone(st: Store, before: seq<HashT>, height: nat, mempool: set<HashT>, autoAdd: bool, b: HashT)
    ensures TxsFollow(st, before, [], height, mempool, autoAdd)
    ensures before + [] == before && IncludedAt([], b) == map[]
  {
  }

  lemma FollowStep(
    st: Store, before: seq<HashT>, ids: seq<HashT>, i: nat, height: nat, mempool: set<HashT>, autoAdd: bool, b: HashT)
    requires i < |ids| && NoDup(ids) && TxsFollow(st, before, ids[..i], height, mempool, autoAdd)
    ensures var fine := && Fits(st, before + ids[..i], ids[i])
                        && (autoAdd || ids[i] in mempool - ToSet(ids[..i]))
                        && TxOf(st, ids[i]).minBlock <= height;
      && (fine ==> TxsFollow(st, before, ids[..i + 1], height, mempool, autoAdd))
      && (!fine ==> !TxsFollow(st, before, ids, height, mempool, autoAdd))
    ensures before + ids[..i] + [ids[i]] == before + ids[..i + 1]
    ensures ToSet(ids[..i + 1]) == ToSet(ids[..i]) + {ids[i]}
    ensures IncludedAt(ids[..i + 1], b) == IncludedAt(ids[..i], b)[ids[i] := b]
  {
    hide Fits;
    assert ids[..i + 1] == ids[..i] + [ids[i]] && ids[..i + 1][..i] == ids[..i];
    if FitsAll(st, before, ids) {
      FitsPrefix(st, before, ids, i);
    }
    assert ids[i] in ids;
  }

  lemma FitsPrefix(st: Store, before: seq<HashT>, ids: seq<HashT>, i: nat)
    requires i < |ids| && FitsAll(st, before, ids)
    ensures Fits(st, before + ids[..i], ids[i])
  {
    hide Fits;
    assert ids[..i + 1][..i] == ids[..i] && ids == ids[..i + 1] + ids[i + 1..];
    FitsAllConcat(st, before, ids[..i + 1], ids[i + 1..]);
  }

  /** What the loop of `Advance` needs to know. */
  lemma MidAdvance(st: Store, head: HashT, before: seq<HashT>, ids: seq<HashT>, i: nat, b: HashT)
    requires before == ChainTxs(st, head) && ValidChain(st, head)
    requires i < |ids| && FitsAll(st, before, ids[..i])
    ensures Spent(st, before + ids[..i]) <= Created(st, before + ids[..i])
    ensures (Included(st, head) + IncludedAt(ids[..i], b)).Keys == ToSet(before + ids[..i])
  {
    hide Fits, FitsAll, ValidChain, Created, Spent;
    ValidChainFits(st, head);
    assert [] + before == before;
    FitsAllConcat(st, [], before, ids[..i]);
    FittingSpends(st, before + ids[..i]);
    IncludedSoFar(st, head, ids[..i], b);
  }

  lemma IncludedSoFar(st: Store, head: HashT, ids: seq<HashT>, b: HashT)
    ensures (Included(st, head) + IncludedAt(ids, b)).Keys == ToSet(ChainTxs(st, head) + ids)
  {
    hide ChainTxs, Included;
    IncludedKeys(st, head);
  }

  lemma CanFollow(st: Store, head: HashT, mempool: set<HashT>, b: HashT, autoAdd: bool)
    requires b in st.blocks && Parent(st, b) == head
    ensures CanAdvance(st, head, mempool, b, autoAdd)
       <==> TxsFollow(st, ChainTxs(st, head), BlockTxs(st, b), HeightOf(st, b), mempool, autoAdd)
  {
  }

  lemma EndAdvance(st: Store, head: HashT, mempool: set<HashT>, b: HashT)
    requires ChainOk(st, head, mempool)
    requires b in st.blocks && b != 0 && Parent(st, b) == head && ValidBlock(st, b)
    ensures ChainOk(st, b, mempool - ToSet(BlockTxs(st, b)))
    ensures ChainTxs(st, b) == ChainTxs(st, head) + BlockTxs(st, b)
    ensures Included(st, b) == Included(st, head) + IncludedAt(BlockTxs(st, b), b)
  {
    hide WellFormed, ValidBlock, BlockTxs, IncludedAt, Linked;
    BlockTxsGrounded(st, b);
  }

  // ---- Lemmas about moving back ----

  ghost predicate CanRewind(st: Store, head: HashT) {
    head != 0 && !InBlockSpend(st, BlockTxs(st, head))
  }

  ghost predicate CanRewindTo(st: Store, head: HashT, to: HashT) {
    forall c :: c in Path(st, head, to) ==> CanRewind(st, c)
  }

  lemma StartRewind(st: Store, head: HashT, mempool: set<HashT>, before: seq<HashT>, ids: seq<HashT>)
    requires ChainOk(st, head, mempool) && head != 0
    requires before == ChainTxs(st, Parent(st, head)) && ids == BlockTxs(st, head)
    ensures head in st.blocks && ChainTxs(st, head) == before + ids && FitsAll(st, [], before + ids)
    ensures forall t :: t in before + ids ==> t in st.txs
    ensures Unclaimed(st, ids, 0)
    ensures Rewound(st, before, ids, 0) == Unspent(st, ChainTxs(st, head))
    ensures Included(st, head) == Included(st, Parent(st, head)) + IncludedAt(ids, head)
    ensures Included(st, head) - ToSet(ids[..0]) == Included(st, head)
    ensures Included(st, head) - ToSet(ids) == Included(st, Parent(st, head))
  {
    hide WellFormed, ValidChain, FitsAll;
    BlockTxsGrounded(st, head);
    ValidChainFits(st, head);
    ChainTxsStored(st, head);
    NoDupAppend(before, ids);
    IncludedBefore(st, head);
    NothingRewound(st, before, ids);
  }

  lemma NothingRewound(st: Store, before: seq<HashT>, ids: seq<HashT>)
    ensures Unclaimed(st, ids, 0)
    ensures Rewound(st, before, ids, 0) == Unspent(st, before + ids)
  {
  }

  lemma IncludedBefore(st: Store, head: HashT)
    requires Linked(st, head)
    requires ToSet(ChainTxs(st, Parent(st, head))) !! ToSet(BlockTxs(st, head))
    ensures Included(st, head) == Included(st, Parent(st, head)) + IncludedAt(BlockTxs(st, head), head)
    ensures Included(st, head) - ToSet(BlockTxs(st, head)) == Included(st, Parent(st, head))
  {
    IncludedKeys(st, Parent(st, head));
    assert Included(st, head) - ToSet(BlockTxs(st, head)) == Included(st, Parent(st, head));
  }

  lemma MidRewind(st: Store, head: HashT, before: seq<HashT>, ids: seq<HashT>, i: nat)
    requires FitsAll(st, [], before + ids) && i < |ids|
    requires forall t :: t in before + ids ==> t in st.txs
    requires Included(st, head) == Included(st, Parent(st, head)) + IncludedAt(ids, head)
    ensures ids[i] in st.txs && ids[i] in Included(st, head) && Included(st, head)[ids[i]] == head
    ensures ids[i] !in ids[..i]
    ensures forall u :: u in Ins(st, ids[i]) ==> HasTxOut(st, u.txId, u.ind)
    ensures ToSet(ids[..i + 1]) == ToSet(ids[..i]) + {ids[i]}
  {
    PrefixFits(st, before, ids, i);
    FitsInputs(st, before + ids[..i], ids[i]);
    hide *;
    InputsStored(st, before, ids, i);
    IncludedMember(Included(st, Parent(st, head)), ids, i, head);
  }

  lemma FitsInputs(st: Store, before: seq<HashT>, t: HashT)
    requires Fits(st, before, t)
    ensures Ins(st, t) <= Unspent(st, before)
  {
  }

  lemma IncludedMember(earlier: map<HashT, HashT>, ids: seq<HashT>, i: nat, b: HashT)
    requires i < |ids|
    ensures ids[i] in earlier + IncludedAt(ids, b) && (earlier + IncludedAt(ids, b))[ids[i]] == b
    ensures ToSet(ids[..i + 1]) == ToSet(ids[..i]) + {ids[i]}
  {
    assert ids[..i + 1] == ids[..i] + [ids[i]];
    assert ids[i] in ids;
  }

  lemma InputsStored(st: Store, before: seq<HashT>, ids: seq<HashT>, i: nat)
    requires i < |ids| && Ins(st, ids[i]) <= Unspent(st, before + ids[..i])
    requires forall t :: t in before + ids ==> t in st.txs
    ensures ids[i] in st.txs && forall u :: u in Ins(st, ids[i]) ==> HasTxOut(st, u.txId, u.ind)
  {
    UnspentStored(st, before + ids[..i]);
    assert ids[i] in before + ids;
    assert forall t :: t in before + ids[..i] ==> t in before + ids;
    hide Outs, Ins;
  }

  lemma ClaimedFails(st: Store, ids: seq<HashT>, n: nat)
    requires n <= |ids| && !Unclaimed(st, ids, n)
    ensures InBlockSpend(st, ids)
  {
  }

  lemma UnclaimedAll(st: Store, ids: seq<HashT>)
    ensures Unclaimed(st, ids, |ids|) <==> !InBlockSpend(st, ids)
  {
  }

  lemma EndRewind(st: Store, head: HashT, mempool: set<HashT>)
    requires ChainOk(st, head, mempool) && head != 0
    ensures Grounded(st, st.blocks[head].block.merkleRoot, MaxDepth(st))
    ensures BlockTxs(st, head) == TxIdsUnder(st, st.blocks[head].block.merkleRoot)
    ensures Parent(st, head) == st.blocks[head].block.prevBlockId
    ensures CanRewind(st, head) <==> !InBlockSpend(st, BlockTxs(st, head))
    ensures ChainOk(st, Parent(st, head), mempool + ToSet(BlockTxs(st, head)))
  {
    hide WellFormed, FitsAll, TxIdsUnder, InBlockSpend;
    BlockTxsGrounded(st, head);
    ValidChainFits(st, head);
    NoDupAppend(ChainTxs(st, Parent(st, head)), BlockTxs(st, head));
  }

  lemma RewindToStep(st: Store, head: HashT, to: HashT)
    requires WellFormed(st) && head in st.blocks && head != to && Ancestor(st, to, head) && ValidChain(st, head)
    ensures Parent(st, head) in st.blocks && Ancestor(st, to, Parent(st, head))
    ensures CanRewindTo(st, head, to) <==> CanRewind(st, head) && CanRewindTo(st, Parent(st, head), to)
    ensures ToSet(ChainTxs(st, head)) == ToSet(ChainTxs(st, Parent(st, head))) + ToSet(BlockTxs(st, head))
    ensures ToSet(ChainTxs(st, Parent(st, head))) !! ToSet(BlockTxs(st, head))
  {
    hide WellFormed, Tree, FitsAll, TxIdsUnder, BlockTxs, ValidBlock, CanRewind, Ancestor, Path;
    WellFormedTree(st);
    PathStep(st, head, to);
    ValidChainFits(st, head);
    NoDupAppend(ChainTxs(st, Parent(st, head)), BlockTxs(st, head));
  }
}
