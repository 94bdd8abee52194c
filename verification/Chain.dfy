/** The chain's event loop: the only writer of the state and the inventory. */
module Chain {
  import opened Core
  import opened Forest
  import opened Rules
  import opened Ancestry
  import opened Ledger
  import opened Inventory
  import opened ChainState
  import opened N = Node

  class Chain {
    const inv: Inv
    var state: State

    /** The state is the one that the inventory, the head and the mempool stand for. */
    ghost predicate Valid()
      reads this, inv, state, state.inv
    {
      state.inv == inv && state.Valid()
    }

    function Node(): N.Node
      reads this, inv, state
    {
      N.Node(inv.View(), state.head, state.mempool)
    }

    constructor (env: Env)
      requires env.Ok()
      ensures Valid() && fresh(inv) && fresh(state)
      ensures Node() == NewNode(env)
    {
      var i := new Inv(env);
      var s := new State(i);
      inv := i;
      state := s;
    }

    /** Stores a transaction that is not known yet and puts it into the mempool. */
    method AcceptTx(tx: Tx) returns (r: Outcome)
      requires Valid() && inv.env.hashes.tx(tx) !in inv.txs
      modifies inv`txs, state`mempool, state`mempoolRates, state`mempoolUtxoSpends
      ensures Valid()
      ensures r == if CanStoreTx(old(Node()).st, tx) then Ok else Err
      ensures r.Ok? ==> Node() == WithTx(old(Node()), tx)
      ensures !r.Ok? ==> Node() == old(Node())
    {
      hide WellFormed, ValidChain, CanStoreTx, Canon;
      ghost var n := Node();
      r := inv.StoreTx(tx);
      if r.Ok? {
        AddTxOk(n, tx);
        StaysValid(state);
        state.ValidParts();
        state.AddMempoolTx(inv.env.hashes.tx(tx));
        state.PartsValid();
      }
    }

    method AddEventTxs(txs: seq<Tx>) returns (r: Outcome)
      requires Valid()
      modifies inv`txs, state`mempool, state`mempoolRates, state`mempoolUtxoSpends
      ensures Valid() && (Node(), r) == AddTxs(old(Node()), txs)
    {
      hide Valid, State.Valid, CanStoreTx;
      var i := 0;
      while i < |txs|
        invariant 0 <= i <= |txs| && Valid()
        invariant AddTxs(old(Node()), txs) == AddTxs(Node(), txs[i..])
      {
        assert txs[i..][0] == txs[i] && txs[i..][1..] == txs[i + 1..];
        if inv.env.hashes.tx(txs[i]) !in inv.txs {
          r := AcceptTx(txs[i]);
          if !r.Ok? {
            return;
          }
        }
        i := i + 1;
      }
      r := Ok;
    }

    method AddEventMerkles(merkles: seq<MerkleNode>) returns (r: Outcome)
      requires Valid()
      modifies inv`merkles
      ensures Valid() && (inv.View(), r) == AddMerkles(old(inv.View()), merkles)
    {
      hide WellFormed, ValidChain, CanStoreMerkle, Canon;
      AddMerklesOk(inv.View(), merkles);
      var i := 0;
      while i < |merkles|
        invariant 0 <= i <= |merkles| && inv.Valid()
        invariant AddMerkles(old(inv.View()), merkles) == AddMerkles(inv.View(), merkles[i..])
      {
        assert merkles[i..][0] == merkles[i] && merkles[i..][1..] == merkles[i + 1..];
        if inv.env.hashes.merkle(merkles[i]) !in inv.merkles {
          r := inv.StoreMerkle(merkles[i]);
          if !r.Ok? {
            StaysValid(state);
            return;
          }
        }
        i := i + 1;
      }
      StaysValid(state);
      r := Ok;
    }

    method AddEventBlocks(blocks: seq<Block>, now: Uint64) returns (r: Outcome)
      requires Valid()
      modifies inv`blocks
      ensures inv.env.params.Verified()
      ensures Valid() && (inv.View(), r) == AddBlocks(old(inv.View()), blocks, now)
    {
      hide WellFormed, ValidChain, StoreBlockOutcome, Canon;
      WellFormedEnv(inv.View());
      AddBlocksOk(inv.View(), blocks, now);
      var i := 0;
      while i < |blocks|
        invariant 0 <= i <= |blocks| && inv.Valid()
        invariant AddBlocks(old(inv.View()), blocks, now) == AddBlocks(inv.View(), blocks[i..], now)
      {
        assert blocks[i..][0] == blocks[i] && blocks[i..][1..] == blocks[i + 1..];
        if inv.env.hashes.BlockId(blocks[i]) !in inv.blocks {
          r := inv.StoreBlock(blocks[i], now);
          if !r.Ok? {
            StaysValid(state);
            return;
          }
        }
        i := i + 1;
      }
      StaysValid(state);
      r := Ok;
    }

    method AddEventEntities(ev: HeadEvent, now: Uint64) returns (r: Outcome)
      requires Valid()
      modifies inv, state
      ensures inv.env.params.Verified()
      ensures Valid() && (Node(), r) == AddEntities(old(Node()), ev, now)
    {
      hide WellFormed, ValidChain, Canon, AddTxs, AddMerkles, AddBlocks;
      WellFormedEnv(inv.View());
      r := AddEventTxs(ev.txs);
      if r.Ok? {
        r := AddEventMerkles(ev.merkles);
        if r.Ok? {
          r := AddEventBlocks(ev.blocks, now);
        }
      }
    }

    method HandleCandidateTx(tx: Tx) returns (r: Outcome)
      requires Valid()
      modifies inv`txs, state
      ensures Valid() && (Node(), r) == HandleTx(old(Node()), tx)
    {
      hide Valid, CanStoreTx;
      OneTx(Node(), tx);
      if inv.env.hashes.tx(tx) in inv.txs {
        return Ok;
      }
      r := AcceptTx(tx);
    }

    /** Advances a state from an ancestor of a block to the block. */
    method AdvanceTo(s: State, newHead: HashT, autoAdd: bool) returns (ok: bool)
      requires s.Valid() && s.inv == inv && newHead in inv.blocks
      requires Ancestor(inv.View(), s.head, newHead) && s.head != newHead
      modifies s
      ensures ok <==> Reachable(inv.View(), old(s.head), old(s.mempool), newHead, autoAdd)
      ensures ok ==> s.Valid() && s.head == newHead
      ensures ok ==> s.mempool == old(s.mempool) - ToSet(ChainTxs(inv.View(), newHead))
    {
      hide WellFormed, ValidChain, ValidBlock, Tree, Ancestor, Path, ChainTxs, BlockTxs, Canon, ChainOk,
        State.Valid, Reachable;
      s.ValidParts();
      ghost var st := inv.View();
      WellFormedTree(st);
      var newBlocks := inv.GetBlockAncestorsUntil(newHead, s.head);
      var path := [newHead] + newBlocks;
      PathLinks(st, newHead, s.head);
      assert path == Path(st, newHead, s.head);
      StartReaching(st, s.head, s.mempool, newHead, autoAdd);
      var i := |path|;
      while i > 0
        invariant 0 <= i <= |path| && s.Valid()
        invariant s.head == if i == |path| then old(s.head) else path[i]
        invariant Ancestor(st, old(s.head), s.head)
        invariant s.mempool == old(s.mempool) - ToSet(ChainTxs(st, s.head))
        invariant Reachable(st, old(s.head), old(s.mempool), s.head, autoAdd)
      {
        i := i - 1;
        assert OnPath(st, newHead, old(s.head), path, i);
        ReachStep(st, old(s.head), old(s.mempool), path[i], newHead, autoAdd);
        ok := s.Advance(path[i], autoAdd);
        if !ok {
          return;
        }
      }
      ok := true;
    }

    /** Takes up the candidate head if it proves correct and better.  `Panic` leaves the state that
        the program would have crashed with. */
    method HandleCandidateHead(ev: HeadEvent, now: Uint64) returns (r: Outcome)
      requires Valid()
      modifies this, inv, state
      ensures inv.env.params.Verified()
      ensures Valid() && (Node(), r) == HandleHead(old(Node()), ev, now)
    {
      hide WellFormed, ValidChain, AddEntities, Tree, Ancestor, Path, ChainTxs, Canon, ChainOk, State.Valid,
        IsLca, Stuck, Reachable, InBlockSpend, CanRewindTo;
      r := AddEventEntities(ev, now);
      if !r.Ok? {
        return;
      }
      state.ValidParts();
      ghost var st, n := inv.View(), Node();
      WellFormedTree(st);
      if ev.head !in inv.blocks {
        return Err;
      }
      if inv.blocks[ev.head].totalWork <= inv.blocks[state.head].totalWork {
        return Err;
      }
      var lca := inv.GetBlockLCA(state.head, ev.head);
      LcaFacts(st, lca, state.head, ev.head);
      var newState := state.Copy();
      CopyValid(state, newState);
      var ok := newState.RewindUntil(lca);
      if !ok {
        return Panic;
      }
      ReachableIsVerdict(n, lca, ev.head, ev.autoAdd);
      ok := AdvanceTo(newState, ev.head, ev.autoAdd);
      if !ok {
        return Err;
      }
      state := newState;
      r := Ok;
    }
  }

  /** A state that nobody touched stays valid while the inventory grows. */
  twostate lemma StaysValid(s: State)
    requires old(s.Valid()) && unchanged(s)
    requires s.inv.Valid() && Extends(old(s.inv.View()), s.inv.View())
    ensures s.Valid()
  {
    hide WellFormed, ValidChain, Canon;
    ChainOkStable(old(s.inv.View()), s.inv.View(), s.head, s.mempool);
    CanonStable(old(s.inv.View()), s.inv.View(), s.head, s.mempool);
  }

  lemma CopyValid(s: State, copy: State)
    requires s.Valid() && copy.inv == s.inv && copy.View() == s.View()
    ensures copy.Valid()
  {
    hide ChainOk, Canon;
  }

  // ---- What advancing along a path comes to ----

  /** From a state at `from` with this mempool, the chain up to `to` can be taken. */
  ghost predicate Reachable(st: Store, from: HashT, mempool: set<HashT>, to: HashT, autoAdd: bool) {
    && ValidChain(st, to)
    && (autoAdd || ToSet(ChainTxs(st, to)) <= mempool + ToSet(ChainTxs(st, from)))
  }

  predicate OnPath(st: Store, b: HashT, until: HashT, path: seq<HashT>, k: nat)
    requires k < |path|
  {
    && Linked(st, path[k]) && Ancestor(st, path[k], b)
    && Ancestor(st, until, Parent(st, path[k]))
    && Parent(st, path[k]) == if k + 1 < |path| then path[k + 1] else until
  }

  lemma {:induction false} PathLinks(st: Store, b: HashT, until: HashT)
    requires Tree(st) && b in st.blocks && Ancestor(st, until, b)
    ensures var path := Path(st, b, until);
      && (forall k :: 0 <= k < |path| ==> OnPath(st, b, until, path, k))
      && (path == [] <==> b == until)
      && (path != [] ==> path[0] == b)
    decreases HeightOf(st, b)
  {
    if b != until {
      var p := Parent(st, b);
      var path, rest := Path(st, b, until), Path(st, p, until);
      PathLinks(st, p, until);
      forall k | 0 <= k < |path| ensures OnPath(st, b, until, path, k) {
        if k > 0 {
          assert OnPath(st, p, until, rest, k - 1);
          assert path[k] == rest[k - 1];
          assert k + 1 < |path| ==> path[k + 1] == rest[k];
        } else {
          assert rest != [] ==> path[1] == rest[0];
        }
      }
    }
  }

  lemma StartReaching(st: Store, from: HashT, mempool: set<HashT>, to: HashT, autoAdd: bool)
    requires ChainOk(st, from, mempool)
    ensures Reachable(st, from, mempool, from, autoAdd)
    ensures Ancestor(st, from, from)
    ensures mempool == mempool - ToSet(ChainTxs(st, from))
  {
  }

  /** One `Advance` along a path. */
  lemma ReachStep(st: Store, from: HashT, mempool: set<HashT>, b: HashT, to: HashT, autoAdd: bool)
    requires ChainOk(st, from, mempool) && Linked(st, b)
    requires Ancestor(st, from, Parent(st, b)) && Ancestor(st, b, to)
    requires Reachable(st, from, mempool, Parent(st, b), autoAdd)
    ensures Ancestor(st, from, b)
    ensures mempool - ToSet(ChainTxs(st, b)) == mempool - ToSet(ChainTxs(st, Parent(st, b))) - ToSet(BlockTxs(st, b))
    ensures CanAdvance(st, Parent(st, b), mempool - ToSet(ChainTxs(st, Parent(st, b))), b, autoAdd)
       <==> Reachable(st, from, mempool, b, autoAdd)
    ensures Reachable(st, from, mempool, to, autoAdd) ==> Reachable(st, from, mempool, b, autoAdd)
  {
    hide WellFormed, ValidBlock, Reachable;
    var p := Parent(st, b);
    ChainTxsAncestor(st, b, to);
    ChainTxsAncestor(st, from, p);
    ReachBlock(st, from, mempool, b, autoAdd);
    ReachDown(st, from, mempool, b, to, autoAdd);
  }

  lemma ReachDown(st: Store, from: HashT, mempool: set<HashT>, b: HashT, to: HashT, autoAdd: bool)
    requires Ancestor(st, b, to)
    ensures Reachable(st, from, mempool, to, autoAdd) ==> Reachable(st, from, mempool, b, autoAdd)
  {
    hide ValidChain;
    ChainTxsAncestor(st, b, to);
  }

  lemma ReachBlock(st: Store, from: HashT, mempool: set<HashT>, b: HashT, autoAdd: bool)
    requires Linked(st, b)
    requires Reachable(st, from, mempool, Parent(st, b), autoAdd)
    requires Ancestor(st, from, Parent(st, b))
    ensures CanAdvance(st, Parent(st, b), mempool - ToSet(ChainTxs(st, Parent(st, b))), b, autoAdd)
       <==> Reachable(st, from, mempool, b, autoAdd)
  {
    hide Ancestor, BlockTxs, ValidBlock, FitsAll;
    var p := Parent(st, b);
    var was, more := ToSet(ChainTxs(st, p)), ToSet(BlockTxs(st, b));
    ChainTxsAncestor(st, from, p);
    assert ToSet(ChainTxs(st, b)) == was + more;
    if ValidChain(st, b) {
      ValidChainFits(st, b);
      NoDupAppend(ChainTxs(st, p), BlockTxs(st, b));
      assert more <= mempool - was <==> more <= mempool + ToSet(ChainTxs(st, from));
    }
  }

  // ---- What the handler's steps come to together ----

  lemma LcaFacts(st: Store, lca: HashT, head: HashT, newHead: HashT)
    requires Tree(st) && head in st.blocks && newHead in st.blocks && IsLca(st, lca, head, newHead)
    requires WorkOf(st, head) < WorkOf(st, newHead)
    ensures Ancestor(st, lca, head) && Ancestor(st, lca, newHead) && lca != newHead
    ensures CanRewindTo(st, head, lca) <==> !Stuck(st, head, newHead)
  {
    HeavierNotAncestor(st, newHead, head);
    PathExact(st, head, lca);
    forall c ensures c in Path(st, head, lca) <==> Ancestor(st, c, head) && !Ancestor(st, c, newHead) {
      if Ancestor(st, c, head) && Ancestor(st, c, newHead) && c in Path(st, head, lca) {
        AncestorBelow(st, c, lca);
        AncestorBelow(st, lca, head);
        AncestorBelow(st, lca, c);
      }
      if Ancestor(st, c, head) && !Ancestor(st, c, newHead) {
        AncestorBelow(st, c, head);
        AncestorBelow(st, lca, head);
        if HeightOf(st, c) <= HeightOf(st, lca) {
          AncestorsOrdered(st, c, lca, head);
          AncestorTransitive(st, c, lca, newHead);
        } else {
          AncestorsOrdered(st, lca, c, head);
        }
      }
    }
    ZeroAncestor(st, newHead);
  }

  lemma ReachableIsVerdict(n: N.Node, lca: HashT, newHead: HashT, autoAdd: bool)
    requires NodeOk(n) && Ancestor(n.st, lca, n.head) && Ancestor(n.st, lca, newHead)
    ensures var st, h := n.st, n.head;
      var mid := n.mempool + (ToSet(ChainTxs(st, h)) - ToSet(ChainTxs(st, lca)));
      && (Reachable(st, lca, mid, newHead, autoAdd) <==>
            ValidChain(st, newHead) && (autoAdd || ToSet(ChainTxs(st, newHead)) <= n.mempool + ToSet(ChainTxs(st, h))))
      && mid - ToSet(ChainTxs(st, newHead)) == MoveTo(n, newHead).mempool
  {
    hide WellFormed, ValidChain, ChainTxs;
    ChainTxsAncestor(n.st, lca, n.head);
    ChainTxsAncestor(n.st, lca, newHead);
  }
}
