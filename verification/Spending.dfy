/** Who may spend an output: only a transaction that shows a key hashing to what the output pays, with a
    good signature under that key.  Said of hashes and signatures themselves. */
module Spending {
  import opened Core
  import opened Forest
  import opened Rules
  import opened Ancestry
  import opened Ledger
  import opened Inventory
  import opened N = Node

  lemma StoredInputShows(st: Store, t: HashT, i: nat)
    requires WellFormed(st) && t in st.txs && i < |st.txs[t].tx.inputs|
    ensures var tx, h := st.txs[t].tx, st.env.hashes;
            var txi := tx.inputs[i];
      && txi.utxo.txId in st.txs && txi.utxo.ind < |st.txs[txi.utxo.txId].tx.outputs|
      && var origin := st.txs[txi.utxo.txId].tx.outputs[txi.utxo.ind];
      && h.bytes(txi.publicKey) == origin.publicKeyHash && txi.utxo.value == origin.value
      && h.validSig(txi.publicKey, h.preSig(tx.minBlock, tx.outputs), txi.signature)
  {
    hide BlockRecordOk, MerkleRecordOk, TxOk, VSize;
    assert TxRecordOk(st, t);
    TxOkExact(st, st.txs[t].tx);
  }

  /** Whatever a chain spends, some transaction on it spends with its key. */
  lemma SpentWithKey(st: Store, b: HashT, u: Utxo) returns (t: HashT, i: nat)
    requires WellFormed(st) && b in st.blocks && u in Spent(st, ChainTxs(st, b))
    ensures t in ChainTxs(st, b) && t in st.txs && i < |st.txs[t].tx.inputs| && st.txs[t].tx.inputs[i].utxo == u
    ensures u.txId in st.txs && u.ind < |st.txs[u.txId].tx.outputs|
    ensures var tx, h := st.txs[t].tx, st.env.hashes;
      && h.bytes(tx.inputs[i].publicKey) == st.txs[u.txId].tx.outputs[u.ind].publicKeyHash
      && h.validSig(tx.inputs[i].publicKey, h.preSig(tx.minBlock, tx.outputs), tx.inputs[i].signature)
  {
    hide WellFormed, ChainTxs;
    ChainTxsStored(st, b);
    t :| t in ChainTxs(st, b) && u in Ins(st, t);
    var us := ConsumedUtxos(TxOf(st, t));
    i :| 0 <= i < |us| && us[i] == u;
    StoredInputShows(st, t, i);
  }

  /** Going up a chain, an output leaves the unspent ones only through a transaction with its key. */
  lemma SpentOnTheWay(st: Store, a: HashT, b: HashT, u: Utxo) returns (t: HashT, i: nat)
    requires WellFormed(st) && b in st.blocks && Ancestor(st, a, b)
    requires u in Unspent(st, ChainTxs(st, a)) && u !in Unspent(st, ChainTxs(st, b))
    ensures t in ChainTxs(st, b) && t !in ChainTxs(st, a)
    ensures t in st.txs && i < |st.txs[t].tx.inputs| && st.txs[t].tx.inputs[i].utxo == u
    ensures u.txId in st.txs && u.ind < |st.txs[u.txId].tx.outputs|
    ensures var tx, h := st.txs[t].tx, st.env.hashes;
      && h.bytes(tx.inputs[i].publicKey) == st.txs[u.txId].tx.outputs[u.ind].publicKeyHash
      && h.validSig(tx.inputs[i].publicKey, h.preSig(tx.minBlock, tx.outputs), tx.inputs[i].signature)
  {
    hide WellFormed, ChainTxs, ValidChain, Ancestor, Ins, Outs;
    ChainTxsAncestor(st, a, b);
    assert forall t :: t in ChainTxs(st, a) ==> t in ToSet(ChainTxs(st, b));
    t, i := SpentWithKey(st, b, u);
    assert t in ChainTxs(st, a) ==> u in Spent(st, ChainTxs(st, a)) by {
      InputSpends(st, t, i);
    }
  }

  lemma InputSpends(st: Store, t: HashT, i: nat)
    requires t in st.txs && i < |st.txs[t].tx.inputs|
    ensures st.txs[t].tx.inputs[i].utxo in Ins(st, t)
  {
    assert ConsumedUtxos(TxOf(st, t))[i] == st.txs[t].tx.inputs[i].utxo;
  }

  /** Over any run, reorganisations included: as long as the transaction that made it is on the chain,
      an output is lost only to a transaction on the chain with its key. */
  lemma LostToKey(n: N.Node, events: seq<Event>, u: Utxo) returns (t: HashT, i: nat)
    requires NodeOk(n) && n.st.env.params.Verified()
    requires u in Unspent(n.st, ChainTxs(n.st, n.head))
    requires var n' := Run(n, events);
      u.txId in ChainTxs(n'.st, n'.head) && u !in Unspent(n'.st, ChainTxs(n'.st, n'.head))
    ensures u.txId in n.st.txs && u.ind < |n.st.txs[u.txId].tx.outputs|
    ensures var st, h := Run(n, events).st, n.st.env.hashes;
      && t in ChainTxs(st, Run(n, events).head) && t in st.txs
      && var tx := st.txs[t].tx;
      && i < |tx.inputs| && tx.inputs[i].utxo == u
      && h.bytes(tx.inputs[i].publicKey) == n.st.txs[u.txId].tx.outputs[u.ind].publicKeyHash
      && h.validSig(tx.inputs[i].publicKey, h.preSig(tx.minBlock, tx.outputs), tx.inputs[i].signature)
  {
    hide WellFormed, ChainTxs, ValidChain, Run, Ins, InputsOwned, NoDoubleSpend;
    RunOk(n, events);
    var n' := Run(n, events);
    ChainTxsStored(n.st, n.head);
    CreatedIds(n.st, ChainTxs(n.st, n.head));
    assert u in Outs(n.st, u.txId);
    assert u in Outs(n'.st, u.txId);
    assert u in Created(n'.st, ChainTxs(n'.st, n'.head));
    t, i := SpentWithKey(n'.st, n'.head, u);
  }
}
