/** Facts about rewinding, advancing and the queries, stated on the ledger of a head. */
module History {
  import opened Core
  import opened Forest
  import opened Rules
  import opened Ancestry
  import opened Ledger
  import opened ChainState
  import opened N = Node
  import opened Chain

  /** Rewinding after advancing gives every field back, exactly when the block spends none of its own
      outputs.  With auto-add the mempool keeps the transactions that it was missing. */
  method AdvanceThenRewind(s: State, b: HashT, autoAdd: bool) returns (ok: bool)
    requires s.Valid() && b != 0
    modifies s
    ensures ok <==>
      && CanAdvance(s.inv.View(), old(s.head), old(s.mempool), b, autoAdd)
      && !InBlockSpend(s.inv.View(), BlockTxs(s.inv.View(), b))
    ensures ok ==> s.Valid() && SameLedger(s.View(), old(s.View()))
    ensures ok ==> s.mempool == old(s.mempool) + ToSet(BlockTxs(s.inv.View(), b))
    ensures ok && !autoAdd ==> s.View() == old(s.View())
  {
    hide State.Valid, WellFormed, ValidChain, ValidBlock, Canon, InBlockSpend, BlockTxs;
    ghost var st, there := s.inv.View(), s.mempool;
    ghost var was := s.View();
    FromHeadAndMempool(s);
    ok := s.Advance(b, autoAdd);
    if ok {
      ok := s.Rewind();
      if ok {
        FromHeadAndMempool(s);
        CanonParts(st, was.head, was.mempool, s.mempool);
        assert s.mempool == there - ToSet(BlockTxs(st, b)) + ToSet(BlockTxs(st, b)) == there + ToSet(BlockTxs(st, b));
        assert !autoAdd ==> s.mempool == there;
      }
    }
  }

  /** The same to any depth: up to a descendant block by block, and back at once. */
  method AdvanceThenRewindUntil(c: Chain, s: State, to: HashT, autoAdd: bool) returns (ok: bool)
    requires s.Valid() && s.inv == c.inv && to in c.inv.blocks
    requires Ancestor(c.inv.View(), s.head, to) && s.head != to
    modifies s
    ensures ok <==>
      && Reachable(s.inv.View(), old(s.head), old(s.mempool), to, autoAdd)
      && CanRewindTo(s.inv.View(), to, old(s.head))
    ensures ok ==> s.Valid() && SameLedger(s.View(), old(s.View()))
    ensures ok ==>
      s.mempool == old(s.mempool) + (ToSet(ChainTxs(s.inv.View(), to)) - ToSet(ChainTxs(s.inv.View(), old(s.head))))
    ensures ok && !autoAdd ==> s.View() == old(s.View())
  {
    hide State.Valid, WellFormed, ValidChain, Canon, ChainTxs, Ancestor, Path, CanRewindTo;
    ghost var st, was := s.inv.View(), s.View();
    FromHeadAndMempool(s);
    var from := s.head;
    ok := c.AdvanceTo(s, to, autoAdd);
    if ok {
      ok := s.RewindUntil(from);
      if ok {
        FromHeadAndMempool(s);
        CanonParts(st, was.head, was.mempool, s.mempool);
        s.ValidParts();
        ghost var top, bottom := ToSet(ChainTxs(st, to)), ToSet(ChainTxs(st, was.head));
        assert was.mempool !! bottom;
        assert s.mempool == was.mempool - top + (top - bottom) == was.mempool + (top - bottom);
        assert !autoAdd ==> s.mempool == was.mempool;
      }
    }
  }

  /** Head, unspent outputs, balances and inclusions are the same; the mempools may differ. */
  predicate SameLedger(v: Ledger.View, v': Ledger.View) {
    v.head == v'.head && v.utxos == v'.utxos && v.pkhUtxos == v'.pkhUtxos && v.includedTxBlocks == v'.includedTxBlocks
  }

  lemma FromHeadAndMempool(s: State)
    requires s.Valid()
    ensures s.View() == Canon(s.inv.View(), s.head, s.mempool)
    ensures s.mempool !! ToSet(ChainTxs(s.inv.View(), s.head))
  {
    s.ValidParts();
  }

  lemma CanonParts(st: Store, head: HashT, mempool: set<HashT>, mempool': set<HashT>)
    ensures SameLedger(Canon(st, head, mempool), Canon(st, head, mempool'))
  {
  }

  /** In every reachable state a stored transaction is pending or included, never both, and one that
      is included is in the recorded block, which is on the head's chain. */
  lemma TxPartition(env: Env, events: seq<Event>, t: HashT)
    requires env.Ok()
    ensures var n := Run(NewNode(env), events);
            var included := Included(n.st, n.head);
      && (t in n.st.txs <==> t in n.mempool || t in included)
      && !(t in n.mempool && t in included)
      && (t in included ==> Ancestor(n.st, included[t], n.head) && t in BlockTxs(n.st, included[t]))
  {
    hide WellFormed, ValidChain, ChainTxs, Included, Run, BlockTxs, Ancestor;
    NewNodeOk(env);
    RunOk(NewNode(env), events);
    var n := Run(NewNode(env), events);
    IncludedKeys(n.st, n.head);
    if t in Included(n.st, n.head) {
      IncludedExact(n.st, n.head, t, Included(n.st, n.head)[t]);
    }
  }
}
