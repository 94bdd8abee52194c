/** A node's handling of candidate transactions and heads, stated on what matters: the
    inventory, the head and the mempool.  Everything else in a state follows from these. */
module Node {
  import opened Core
  import opened Forest
  import opened Rules
  import opened Ancestry
  import opened Index
  import opened Ledger

  datatype Node = Node(st: Store, head: HashT, mempool: set<HashT>)

  datatype HeadEvent = HeadEvent(
    head: HashT, blocks: seq<Block>, merkles: seq<MerkleNode>, txs: seq<Tx>, autoAdd: bool)

  datatype Event = CandidateHead(ev: HeadEvent, now: Uint64) | CandidateTx(tx: Tx)

  ghost predicate NodeOk(n: Node) { ChainOk(n.st, n.head, n.mempool) }

  function NewNode(env: Env): Node { Node(EmptyStore(env), 0, {}) }

  // ---- Storing the entities of an event, in order, up to the first that is refused ----

  function AddTxs(n: Node, txs: seq<Tx>): (Node, Outcome)
    decreases txs
  {
    if txs == [] then (n, Ok)
    else
      var id := n.st.env.hashes.tx(txs[0]);
      if id in n.st.txs then AddTxs(n, txs[1..])
      else if CanStoreTx(n.st, txs[0]) then AddTxs(Node(PutTx(n.st, txs[0]), n.head, n.mempool + {id}), txs[1..])
      else (n, Err)
  }

  function AddMerkles(st: Store, nodes: seq<MerkleNode>): (Store, Outcome)
    decreases nodes
  {
    if nodes == [] then (st, Ok)
    else if st.env.hashes.merkle(nodes[0]) in st.merkles then AddMerkles(st, nodes[1..])
    else if CanStoreMerkle(st, nodes[0]) then AddMerkles(PutMerkle(st, nodes[0]), nodes[1..])
    else (st, Err)
  }

  function AddBlocks(st: Store, blocks: seq<Block>, now: Uint64): (Store, Outcome)
    requires st.env.params.Verified()
    decreases blocks
  {
    if blocks == [] then (st, Ok)
    else if st.env.hashes.BlockId(blocks[0]) in st.blocks then AddBlocks(st, blocks[1..], now)
    else
      var r := StoreBlockOutcome(st, blocks[0], now);
      if r == Ok then AddBlocks(PutBlock(st, blocks[0]), blocks[1..], now)
      else (st, r)
  }

  function AddEntities(n: Node, ev: HeadEvent, now: Uint64): (Node, Outcome)
    requires n.st.env.params.Verified()
  {
    var (n1, r1) := AddTxs(n, ev.txs);
    if r1 != Ok then (n1, r1)
    else
      var (st2, r2) := AddMerkles(n1.st, ev.merkles);
      if r2 != Ok then (n1.(st := st2), r2)
      else
        AddEnv(n, ev);
        var (st3, r3) := AddBlocks(st2, ev.blocks, now);
        (n1.(st := st3), r3)
  }

  lemma AddTxsEnv(n: Node, txs: seq<Tx>)
    ensures AddTxs(n, txs).0.st.env == n.st.env
    decreases txs
  {
  }

  lemma AddMerklesEnv(st: Store, nodes: seq<MerkleNode>)
    ensures AddMerkles(st, nodes).0.env == st.env
    decreases nodes
  {
  }

  lemma AddEnv(n: Node, ev: HeadEvent)
    ensures AddMerkles(AddTxs(n, ev.txs).0.st, ev.merkles).0.env == n.st.env
  {
    AddTxsEnv(n, ev.txs);
    AddMerklesEnv(AddTxs(n, ev.txs).0.st, ev.merkles);
  }

  // ---- Taking up a new head ----

  /** A block that the old head's chain has and the new one's has not, with an in-block spend. */
  ghost predicate Stuck(st: Store, head: HashT, newHead: HashT) {
    exists c :: Ancestor(st, c, head) && !Ancestor(st, c, newHead) && InBlockSpend(st, BlockTxs(st, c))
  }

  /** What becomes of a candidate head once its entities are stored: it must be known and heavier,
      going back must not hit an in-block spend, and the new chain must be valid from the zero
      block on, with its transactions at hand. */
  ghost function Verdict(n: Node, newHead: HashT, autoAdd: bool): Outcome {
    if newHead !in n.st.blocks || WorkOf(n.st, newHead) <= WorkOf(n.st, n.head) then Err
    else if Stuck(n.st, n.head, newHead) then Panic
    else if && ValidChain(n.st, newHead)
            && (autoAdd || ToSet(ChainTxs(n.st, newHead)) <= n.mempool + ToSet(ChainTxs(n.st, n.head)))
    then Ok else Err
  }

  /** The node at the new head: transactions of either chain that the new one leaves out are in
      the mempool. */
  function MoveTo(n: Node, newHead: HashT): Node {
    Node(n.st, newHead, n.mempool + ToSet(ChainTxs(n.st, n.head)) - ToSet(ChainTxs(n.st, newHead)))
  }

  ghost function HandleHead(n: Node, ev: HeadEvent, now: Uint64): (Node, Outcome)
    requires n.st.env.params.Verified()
  {
    var (n1, r) := AddEntities(n, ev, now);
    if r != Ok then (n1, r)
    else
      var verdict := Verdict(n1, ev.head, ev.autoAdd);
      (if verdict == Ok then MoveTo(n1, ev.head) else n1, verdict)
  }

  function HandleTx(n: Node, tx: Tx): (Node, Outcome) { AddTxs(n, [tx]) }

  ghost function WithTx(n: Node, tx: Tx): Node {
    Node(PutTx(n.st, tx), n.head, n.mempool + {n.st.env.hashes.tx(tx)})
  }

  lemma OneTx(n: Node, tx: Tx)
    ensures AddTxs(n, [tx]) ==
      if n.st.env.hashes.tx(tx) in n.st.txs then (n, Ok)
      else if CanStoreTx(n.st, tx) then (WithTx(n, tx), Ok) else (n, Err)
  {
    hide CanStoreTx;
    assert [tx][1..] == [];
  }

  ghost function Step(n: Node, e: Event): Node
    requires n.st.env.params.Verified()
  {
    match e
    case CandidateHead(ev, now) => HandleHead(n, ev, now).0
    case CandidateTx(tx) => HandleTx(n, tx).0
  }

  // ---- The ledger of a head does not depend on what else is stored ----

  lemma MoreMerkles(st: Store, st': Store)
    requires Extends(st, st')
    ensures |st.merkles| <= |st'.merkles|
  {
    assert st.merkles.Keys <= st'.merkles.Keys;
    SubsetSize(st.merkles.Keys, st'.merkles.Keys);
  }

  lemma SubsetSize<T>(a: set<T>, b: set<T>)
    requires a <= b
    ensures |a| <= |b|
  {
    assert b == a + (b - a);
  }

  lemma BlockTxsStable(st: Store, st': Store, b: HashT)
    requires WellFormed(st) && Extends(st, st') && Separate(st') && b in st.blocks && b != 0
    ensures BlockTxs(st', b) == BlockTxs(st, b)
  {
    hide WellFormed, Separate, TxIdsUnder;
    MoreMerkles(st, st');
    BlockTxsGrounded(st, b);
    TxIdsUnderStable(st, st', BlockOf(st, b).merkleRoot);
  }

  lemma LinkedStable(st: Store, st': Store, b: HashT)
    requires Tree(st) && Extends(st, st') && b in st.blocks
    ensures Linked(st', b) <==> Linked(st, b)
    ensures Parent(st', b) == Parent(st, b) && HeightOf(st', b) == HeightOf(st, b)
    ensures Linked(st, b) <==> b != 0
  {
  }

  lemma {:induction false} ChainTxsStable(st: Store, st': Store, b: HashT)
    requires WellFormed(st) && Extends(st, st') && Separate(st') && b in st.blocks
    ensures ChainTxs(st', b) == ChainTxs(st, b)
    ensures Included(st', b) == Included(st, b)
    decreases HeightOf(st, b)
  {
    hide WellFormed, Separate, BlockTxs;
    WellFormedTree(st);
    LinkedStable(st, st', b);
    if b != 0 {
      ChainTxsStable(st, st', Parent(st, b));
      BlockTxsStable(st, st', b);
    }
  }

  lemma UtxosStable(st: Store, st': Store, ids: seq<HashT>)
    requires Extends(st, st') && forall t :: t in ids ==> t in st.txs
    ensures Created(st', ids) == Created(st, ids)
    ensures Spent(st', ids) == Spent(st, ids)
    ensures Unspent(st', ids) == Unspent(st, ids)
  {
    forall t | t in ids ensures Outs(st', t) == Outs(st, t) && Ins(st', t) == Ins(st, t) {
    }
  }

  lemma {:induction false} FitsAllStable(st: Store, st': Store, before: seq<HashT>, ids: seq<HashT>)
    requires Extends(st, st') && forall t :: t in before + ids ==> t in st.txs
    ensures FitsAll(st', before, ids) == FitsAll(st, before, ids)
    decreases |ids|
  {
    hide Unspent;
    if ids != [] {
      var front, t := ids[..|ids| - 1], ids[|ids| - 1];
      assert t in before + ids;
      assert forall t :: t in before + front ==> t in before + ids;
      FitsAllStable(st, st', before, front);
      UtxosStable(st, st', before + front);
    }
  }

  lemma ValidBlockStable(st: Store, st': Store, b: HashT)
    requires WellFormed(st) && Extends(st, st') && Separate(st') && b in st.blocks && b != 0
    ensures ValidBlock(st', b) == ValidBlock(st, b)
  {
    hide WellFormed, Separate, BlockTxs, FitsAll, ChainTxs;
    WellFormedTree(st);
    LinkedStable(st, st', b);
    BlockTxsGrounded(st, b);
    BlockTxsStable(st, st', b);
    ChainTxsStored(st, Parent(st, b));
    ChainTxsStable(st, st', Parent(st, b));
    FitsAllStable(st, st', ChainTxs(st, Parent(st, b)), BlockTxs(st, b));
    forall i | 0 <= i < |BlockTxs(st, b)| ensures TxOf(st', BlockTxs(st, b)[i]) == TxOf(st, BlockTxs(st, b)[i]) {
      assert BlockTxs(st, b)[i] in BlockTxs(st, b);
    }
  }

  lemma {:induction false} ValidChainStable(st: Store, st': Store, b: HashT)
    requires WellFormed(st) && Extends(st, st') && Separate(st') && b in st.blocks
    ensures ValidChain(st', b) == ValidChain(st, b)
    decreases HeightOf(st, b)
  {
    hide WellFormed, Separate, ValidBlock;
    WellFormedTree(st);
    LinkedStable(st, st', b);
    if b != 0 {
      ValidChainStable(st, st', Parent(st, b));
      ValidBlockStable(st, st', b);
    }
  }

  lemma ChainOkStable(st: Store, st': Store, head: HashT, mempool: set<HashT>)
    requires ChainOk(st, head, mempool) && WellFormed(st') && Extends(st, st')
    ensures ChainOk(st', head, mempool)
  {
    hide WellFormed, Separate, ValidChain, ChainTxs;
    WellFormedSeparate(st');
    ValidChainStable(st, st', head);
    ChainTxsStable(st, st', head);
  }

  lemma CanonStable(st: Store, st': Store, head: HashT, mempool: set<HashT>)
    requires ChainOk(st, head, mempool) && WellFormed(st') && Extends(st, st')
    ensures Canon(st', head, mempool) == Canon(st, head, mempool)
  {
    hide WellFormed, Separate, ValidChain, ChainTxs, Included, Unspent, Rates, SpendPairs, PkhPairs, IndexOf;
    WellFormedSeparate(st');
    ChainTxsStable(st, st', head);
    ChainTxsStored(st, head);
    UtxosStable(st, st', ChainTxs(st, head));
    MempoolStable(st, st', mempool);
    UnspentStored(st, ChainTxs(st, head));
    PkhStable(st, st', ChainTxs(st, head));
  }

  lemma MempoolStable(st: Store, st': Store, mempool: set<HashT>)
    requires Extends(st, st') && mempool <= st.txs.Keys
    ensures Rates(st', mempool) == Rates(st, mempool)
    ensures SpendPairs(st', mempool) == SpendPairs(st, mempool)
  {
    assert forall t :: t in mempool ==> TxOf(st', t) == TxOf(st, t);
  }

  lemma PkhStable(st: Store, st': Store, ids: seq<HashT>)
    requires Extends(st, st') && forall t :: t in ids ==> t in st.txs
    ensures PkhPairs(st', Unspent(st, ids)) == PkhPairs(st, Unspent(st, ids))
  {
    UnspentStored(st, ids);
    assert forall u :: u in Unspent(st, ids) ==> OriginPkh(st', u) == OriginPkh(st, u);
  }

  // ---- What every node keeps ----

  /** Every stored transaction is in the mempool or in the head's chain. */
  ghost predicate Complete(n: Node) {
    n.mempool + ToSet(ChainTxs(n.st, n.head)) == n.st.txs.Keys
  }

  /** `n'` knows what `n` knows and stands at the same head. */
  ghost predicate Grown(n: Node, n': Node) {
    && Extends(n.st, n'.st)
    && n'.head == n.head
    && n.mempool <= n'.mempool
  }

  lemma AddTxOk(n: Node, tx: Tx)
    requires NodeOk(n) && CanStoreTx(n.st, tx)
    ensures var n' := Node(PutTx(n.st, tx), n.head, n.mempool + {n.st.env.hashes.tx(tx)});
      NodeOk(n') && Grown(n, n') && ChainTxs(n'.st, n.head) == ChainTxs(n.st, n.head)
  {
    hide WellFormed, ValidChain, ChainTxs;
    var st' := PutTx(n.st, tx);
    PutTxWellFormed(n.st, tx);
    ChainOkStable(n.st, st', n.head, n.mempool);
    ChainTxsStored(n.st, n.head);
    WellFormedSeparate(st');
    ChainTxsStable(n.st, st', n.head);
  }

  lemma {:induction false} AddTxsOk(n: Node, txs: seq<Tx>)
    requires NodeOk(n)
    ensures var n' := AddTxs(n, txs).0;
      && NodeOk(n') && Grown(n, n') && (Complete(n) ==> Complete(n'))
      && n'.st.merkles == n.st.merkles && n'.st.blocks == n.st.blocks
    decreases txs
  {
    hide ChainOk, CanStoreTx, ChainTxs, Extends;
    if txs == [] {
      ExtendsReflexive(n.st);
    } else if n.st.env.hashes.tx(txs[0]) in n.st.txs {
      AddTxsOk(n, txs[1..]);
    } else if CanStoreTx(n.st, txs[0]) {
      AddTxOk(n, txs[0]);
      var n1 := Node(PutTx(n.st, txs[0]), n.head, n.mempool + {n.st.env.hashes.tx(txs[0])});
      AddTxsOk(n1, txs[1..]);
      ExtendsTransitive(n.st, n1.st, AddTxs(n1, txs[1..]).0.st);
    } else {
      ExtendsReflexive(n.st);
    }
  }

  lemma ExtendsReflexive(st: Store)
    ensures Extends(st, st)
  {
  }

  lemma ExtendsTransitive(a: Store, b: Store, c: Store)
    requires Extends(a, b) && Extends(b, c)
    ensures Extends(a, c)
  {
  }

  lemma {:induction false} AddMerklesOk(st: Store, nodes: seq<MerkleNode>)
    requires WellFormed(st)
    ensures var st' := AddMerkles(st, nodes).0;
      WellFormed(st') && Extends(st, st') && st'.txs == st.txs && st'.blocks == st.blocks
    decreases nodes
  {
    hide WellFormed, CanStoreMerkle, Extends;
    if nodes == [] {
      ExtendsReflexive(st);
    } else if st.env.hashes.merkle(nodes[0]) in st.merkles {
      AddMerklesOk(st, nodes[1..]);
    } else if CanStoreMerkle(st, nodes[0]) {
      PutMerkleWellFormed(st, nodes[0]);
      var st1 := PutMerkle(st, nodes[0]);
      AddMerklesOk(st1, nodes[1..]);
      ExtendsTransitive(st, st1, AddMerkles(st1, nodes[1..]).0);
    } else {
      ExtendsReflexive(st);
    }
  }

  lemma {:induction false} AddBlocksOk(st: Store, blocks: seq<Block>, now: Uint64)
    requires WellFormed(st)
    ensures var st' := AddBlocks(st, blocks, now).0;
      WellFormed(st') && Extends(st, st') && st'.txs == st.txs && st'.merkles == st.merkles
    decreases blocks
  {
    hide WellFormed, StoreBlockOutcome, Extends;
    WellFormedEnv(st);
    if blocks == [] {
      ExtendsReflexive(st);
    } else if st.env.hashes.BlockId(blocks[0]) in st.blocks {
      AddBlocksOk(st, blocks[1..], now);
    } else if StoreBlockOutcome(st, blocks[0], now) == Ok {
      PutBlockWellFormed(st, blocks[0], now);
      var st1 := PutBlock(st, blocks[0]);
      AddBlocksOk(st1, blocks[1..], now);
      ExtendsTransitive(st, st1, AddBlocks(st1, blocks[1..], now).0);
    } else {
      ExtendsReflexive(st);
    }
  }

  lemma WellFormedEnv(st: Store)
    requires WellFormed(st)
    ensures st.env.Ok() && st.env.params.Verified()
  {
  }

  /** Storing the entities of an event changes no chain, only what is known and pending. */
  lemma AddEntitiesOk(n: Node, ev: HeadEvent, now: Uint64)
    requires NodeOk(n)
    ensures var n' := AddEntities(n, ev, now).0;
      NodeOk(n') && Grown(n, n') && (Complete(n) ==> Complete(n'))
  {
    hide WellFormed, ChainTxs, ValidChain, Extends, AddTxs, AddMerkles, AddBlocks;
    var (n1, r1) := AddTxs(n, ev.txs);
    AddTxsOk(n, ev.txs);
    if r1 == Ok {
      var (st2, r2) := AddMerkles(n1.st, ev.merkles);
      AddMerklesOk(n1.st, ev.merkles);
      ExtendsTransitive(n.st, n1.st, st2);
      SameChain(n1, st2);
      if r2 == Ok {
        var n2 := n1.(st := st2);
        WellFormedEnv(st2);
        AddBlocksOk(st2, ev.blocks, now);
        var st3 := AddBlocks(st2, ev.blocks, now).0;
        ExtendsTransitive(n.st, st2, st3);
        SameChain(n2, st3);
      }
    }
  }

  lemma SameChain(n: Node, st': Store)
    requires NodeOk(n) && WellFormed(st') && Extends(n.st, st') && st'.txs == n.st.txs
    ensures NodeOk(n.(st := st')) && (Complete(n) ==> Complete(n.(st := st')))
  {
    hide WellFormed, ChainTxs, ValidChain, Extends;
    ChainOkStable(n.st, st', n.head, n.mempool);
    WellFormedSeparate(st');
    ChainTxsStable(n.st, st', n.head);
  }

  lemma MoveToOk(n: Node, newHead: HashT)
    requires NodeOk(n) && newHead in n.st.blocks && ValidChain(n.st, newHead)
    ensures NodeOk(MoveTo(n, newHead)) && (Complete(n) ==> Complete(MoveTo(n, newHead)))
  {
    hide WellFormed, ChainTxs, ValidChain;
    ChainTxsStored(n.st, n.head);
    ChainTxsStored(n.st, newHead);
  }

  /** A candidate head that is not taken up leaves the chain alone; one that is has more work. */
  lemma HandleHeadOk(n: Node, ev: HeadEvent, now: Uint64)
    requires NodeOk(n)
    ensures var (n', r) := HandleHead(n, ev, now);
      && NodeOk(n') && Extends(n.st, n'.st) && (Complete(n) ==> Complete(n'))
      && (r != Ok ==> n'.head == n.head && n.mempool <= n'.mempool
                      && ChainTxs(n'.st, n.head) == ChainTxs(n.st, n.head))
      && (r == Ok ==> n'.head == ev.head && WorkOf(n'.st, n'.head) > WorkOf(n.st, n.head)
                      && ValidChain(n'.st, ev.head))
  {
    hide WellFormed, ChainTxs, ValidChain, AddEntities;
    WellFormedEnv(n.st);
    AddEntitiesOk(n, ev, now);
    var (n1, r) := AddEntities(n, ev, now);
    WellFormedSeparate(n1.st);
    ChainTxsStable(n.st, n1.st, n.head);
    if r == Ok && Verdict(n1, ev.head, ev.autoAdd) == Ok {
      MoveToOk(n1, ev.head);
    }
  }

  // ---- Whole runs ----

  /** The node after a sequence of events. */
  ghost function Run(n: Node, events: seq<Event>): Node
    requires n.st.env.params.Verified()
    decreases |events|
  {
    if events == [] then n
    else
      StepEnv(n, events[0]);
      Run(Step(n, events[0]), events[1..])
  }

  lemma StepEnv(n: Node, e: Event)
    requires n.st.env.params.Verified()
    ensures Step(n, e).st.env == n.st.env
  {
    match e
    case CandidateHead(ev, now) =>
      AddTxsEnv(n, ev.txs);
      AddMerklesEnv(AddTxs(n, ev.txs).0.st, ev.merkles);
      var st2 := AddMerkles(AddTxs(n, ev.txs).0.st, ev.merkles).0;
      AddBlocksEnv(st2, ev.blocks, now);
    case CandidateTx(tx) =>
      AddTxsEnv(n, [tx]);
  }

  lemma {:induction false} AddBlocksEnv(st: Store, blocks: seq<Block>, now: Uint64)
    requires st.env.params.Verified()
    ensures AddBlocks(st, blocks, now).0.env == st.env
    decreases blocks
  {
    hide StoreBlockOutcome;
    if blocks != [] && st.env.hashes.BlockId(blocks[0]) in st.blocks {
      AddBlocksEnv(st, blocks[1..], now);
    } else if blocks != [] && StoreBlockOutcome(st, blocks[0], now) == Ok {
      AddBlocksEnv(PutBlock(st, blocks[0]), blocks[1..], now);
    }
  }

  lemma StepOk(n: Node, e: Event)
    requires NodeOk(n)
    ensures var n' := Step(n, e);
      && NodeOk(n') && Extends(n.st, n'.st) && (Complete(n) ==> Complete(n'))
      && WorkOf(n.st, n.head) <= WorkOf(n'.st, n'.head)
  {
    hide WellFormed, ChainTxs, ValidChain, HandleHead, AddTxs;
    WellFormedEnv(n.st);
    match e
    case CandidateHead(ev, now) => HandleHeadOk(n, ev, now);
    case CandidateTx(tx) => AddTxsOk(n, [tx]);
  }

  /** After any sequence of events, good or bad: the inventory is well formed, the head's chain
      has no double spend and spends only what its signers own, stored transactions are partitioned
      between the chain and the mempool, and no step has lost work. */
  lemma {:induction false} RunOk(n: Node, events: seq<Event>)
    requires NodeOk(n)
    ensures var n' := Run(n, events);
      && NodeOk(n') && Extends(n.st, n'.st) && (Complete(n) ==> Complete(n'))
      && NoDoubleSpend(n'.st, ChainTxs(n'.st, n'.head)) && InputsOwned(n'.st, ChainTxs(n'.st, n'.head))
      && WorkOf(n.st, n.head) <= WorkOf(n'.st, n'.head)
    decreases |events|
  {
    hide WellFormed, ChainTxs, ValidChain, Step, NoDoubleSpend, Extends, InputsOwned;
    WellFormedEnv(n.st);
    if events == [] {
      ExtendsReflexive(n.st);
      ValidChainFits(n.st, n.head);
      FitsAllIffNoDoubleSpend(n.st, ChainTxs(n.st, n.head));
      ChainInputsOwned(n.st, n.head);
    } else {
      StepOk(n, events[0]);
      StepEnv(n, events[0]);
      RunOk(Step(n, events[0]), events[1..]);
      ExtendsTransitive(n.st, Step(n, events[0]).st, Run(n, events).st);
    }
  }

  /** A fresh node satisfies everything `RunOk` asks for. */
  lemma NewNodeOk(env: Env)
    requires env.Ok()
    ensures NodeOk(NewNode(env)) && Complete(NewNode(env))
  {
    EmptyStoreWellFormed(env);
    assert !Linked(EmptyStore(env), 0);
  }

  /** The state of a fresh node is a function of its inventory and head: two runs that end with
      the same ones agree on every field, whatever was tried, taken back or refused on the way. */
  lemma HistoryIndependence(env: Env, events: seq<Event>, events': seq<Event>)
    requires env.Ok()
    requires Run(NewNode(env), events).st == Run(NewNode(env), events').st
    requires Run(NewNode(env), events).head == Run(NewNode(env), events').head
    ensures Run(NewNode(env), events) == Run(NewNode(env), events')
  {
    hide WellFormed, ChainTxs, ValidChain, Run;
    NewNodeOk(env);
    RunOk(NewNode(env), events);
    RunOk(NewNode(env), events');
  }
}
