/** Synchronising chains: the peer with more work sends the other the blocks, merkle nodes and
    transactions it lacks.  Messages are framed values; how they travel as bytes is in `Codec`. */
module Sync {
  import opened Core
  import opened Forest
  import opened Target
  import opened Rules
  import opened Ancestry
  import opened Agreement
  import opened N = Node
  import opened Network

  datatype Msg =
    | Hash(id: HashT)
    | Flag(b: bool)
    | Text(text: string)
    | BlockMsg(block: Block)
    | MerkleMsg(node: MerkleNode)
    | TxMsg(tx: Tx)

  /** What a peer brings to a sync: what it knows, and the head it takes for its own. */
  datatype Me = Me(st: Store, head: HashT)

  /** What the receiver has gathered once it has the blocks. */
  datatype Fetching = Fetching(
    needed: seq<HashT>, blocks: seq<Block>, queue: seq<HashT>, received: set<HashT>,
    merkles: seq<MerkleNode>, txs: seq<Tx>)

  datatype Result = Nothing | Sent(needed: seq<HashT>) | Received(ev: HeadEvent) | Failed | Crashed

  /** Where in the protocol a peer is. */
  datatype Phase =
    | SayWork | SayHead | HearWork | HearHead(theirWork: HashT)
    | SayIntent(theirWork: HashT, theirHead: HashT) | HearAnything | HearIntent(sending: bool)
    | SayRole(sending: bool) | HearRole(sending: bool)
      // sending
    | Offer(needed: seq<HashT>, id: HashT) | HearKnown(needed: seq<HashT>, id: HashT)
    | SendBlocks(needed: seq<HashT>, rest: seq<HashT>) | HearVerified(needed: seq<HashT>)
    | HearWanted(needed: seq<HashT>) | SayKind(needed: seq<HashT>, id: HashT)
    | SayEntity(needed: seq<HashT>, id: HashT) | HearComplete(needed: seq<HashT>)
      // receiving
    | HearOffer(needed: seq<HashT>) | SayUnknown(needed: seq<HashT>) | SayKnown(needed: seq<HashT>, lca: HashT)
    | HearBlocks(needed: seq<HashT>, lca: HashT, blocks: seq<Block>)
    | SayVerified(needed: seq<HashT>, lca: HashT, blocks: seq<Block>)
    | Fetch(f: Fetching) | HearKind(f: Fetching, id: HashT) | HearEntity(f: Fetching, id: HashT, isTx: bool)
    | SayComplete(f: Fetching)
    | Finished(result: Result)

  // ---- The checks on a chain before its entities are asked for ----

  predicate Continuous(h: Hashes, blocks: seq<Block>) {
    forall i :: 0 <= i < |blocks| - 1 ==> blocks[i].prevBlockId == h.BlockId(blocks[i + 1])
  }

  /** The work with the blocks' added; none where a total leaves 256 bits or a target is zero. */
  function AppendWork(work: HashT, blocks: seq<Block>): Option<HashT> {
    if blocks == [] then Some(work)
    else
      match AppendWork(work, blocks[..|blocks| - 1])
      case None => None
      case Some(w) =>
        var target := blocks[|blocks| - 1].target;
        if target == 0 || w + TargetToWork(target) >= TWO_256 then None else Some(w + TargetToWork(target))
  }

  predicate AllBeatTarget(h: Hashes, blocks: seq<Block>) {
    forall i :: 0 <= i < |blocks| ==> h.BlockId(blocks[i]) < blocks[i].target
  }

  function QuickVerdict(me: Me, newHead: HashT, lca: HashT, blocks: seq<Block>): Outcome
    requires blocks != []
  {
    var h := me.st.env.hashes;
    if h.BlockId(blocks[0]) != newHead || !Continuous(h, blocks) || blocks[|blocks| - 1].prevBlockId != lca then Err
    else
      match AppendWork(WorkOf(me.st, lca), blocks)
      case None => Panic
      case Some(newWork) =>
        if WorkOf(me.st, me.head) < newWork && AllBeatTarget(h, blocks) then Ok else Err
  }

  method AddUpWork(work: HashT, blocks: seq<Block>) returns (r: Option<HashT>)
    ensures r == AppendWork(work, blocks)
  {
    hide TargetToWork;
    var newWork := work;
    for i := 0 to |blocks|
      invariant AppendWork(work, blocks[..i]) == Some(newWork)
    {
      assert blocks[..i + 1][..i] == blocks[..i];
      var target := blocks[i].target;
      if target == 0 || newWork + TargetToWork(target) >= TWO_256 {
        NoWork(work, blocks, i + 1);
        return None;
      }
      newWork := newWork + TargetToWork(target);
    }
    assert blocks[..|blocks|] == blocks;
    r := Some(newWork);
  }

  method QuickVerifyChain(me: Me, newHead: HashT, lcaId: HashT, newBlocks: seq<Block>) returns (r: Outcome)
    requires newBlocks != []
    ensures r == QuickVerdict(me, newHead, lcaId, newBlocks)
    ensures r == Ok <==>
      var h := me.st.env.hashes;
      && h.BlockId(newBlocks[0]) == newHead
      && (forall i :: 0 <= i < |newBlocks| - 1 ==> newBlocks[i].prevBlockId == h.BlockId(newBlocks[i + 1]))
      && newBlocks[|newBlocks| - 1].prevBlockId == lcaId
      && (forall i :: 0 <= i < |newBlocks| ==> h.BlockId(newBlocks[i]) < newBlocks[i].target)
      && exists totals :: AddsUp(WorkOf(me.st, lcaId), newBlocks, totals)
                          && WorkOf(me.st, me.head) < totals[|newBlocks|] < TWO_256
  {
    QuickVerdictExact(me, newHead, lcaId, newBlocks);
    hide AppendWork, AddsUp;
    var h := me.st.env.hashes;
    if h.BlockId(newBlocks[0]) != newHead {
      return Err;
    }
    for i := 0 to |newBlocks| - 1
      invariant forall k :: 0 <= k < i ==> newBlocks[k].prevBlockId == h.BlockId(newBlocks[k + 1])
    {
      if newBlocks[i].prevBlockId != h.BlockId(newBlocks[i + 1]) {
        return Err;
      }
    }
    if newBlocks[|newBlocks| - 1].prevBlockId != lcaId {
      return Err;
    }
    var newWork := AddUpWork(WorkOf(me.st, lcaId), newBlocks);
    if newWork.None? {
      return Panic;
    }
    if WorkOf(me.st, me.head) >= newWork.value {
      return Err;
    }
    for i := 0 to |newBlocks|
      invariant forall k :: 0 <= k < i ==> h.BlockId(newBlocks[k]) < newBlocks[k].target
    {
      if h.BlockId(newBlocks[i]) >= newBlocks[i].target {
        return Err;
      }
    }
    r := Ok;
  }

  /** Running totals of the blocks' work, which is how often a target goes into 2^256 - 1. */
  predicate AddsUp(work: nat, blocks: seq<Block>, totals: seq<int>) {
    && |totals| == |blocks| + 1 && totals[0] == work
    && forall i :: 0 <= i < |blocks| ==>
         var work := totals[i + 1] - totals[i];
         work * blocks[i].target <= TWO_256 - 1 < (work + 1) * blocks[i].target
  }

  lemma {:induction false} TotalsExist(work: HashT, blocks: seq<Block>) returns (totals: seq<int>)
    requires forall i :: 0 <= i < |blocks| ==> 0 < blocks[i].target
    ensures AddsUp(work, blocks, totals) && |totals| == |blocks| + 1
    ensures AppendWork(work, blocks) == if totals[|blocks|] < TWO_256 then Some(totals[|blocks|]) else None
    decreases |blocks|
  {
    hide TargetToWork;
    if blocks == [] {
      totals := [work];
    } else {
      var front, target := blocks[..|blocks| - 1], blocks[|blocks| - 1].target;
      var before := TotalsExist(work, front);
      WorkExact(target);
      totals := before + [before[|front|] + TargetToWork(target)];
    }
  }

  lemma AddsUpSize(work: nat, blocks: seq<Block>, totals: seq<int>)
    requires AddsUp(work, blocks, totals)
    ensures |totals| == |blocks| + 1 && forall i :: 0 <= i < |blocks| ==> 0 < blocks[i].target
  {
    forall i | 0 <= i < |blocks| ensures 0 < blocks[i].target {
      var work := totals[i + 1] - totals[i];
      assert TWO_256 - 1 < (work + 1) * blocks[i].target;
    }
  }

  lemma {:induction false} TotalsUnique(work: nat, blocks: seq<Block>, totals: seq<int>, totals': seq<int>)
    requires AddsUp(work, blocks, totals) && AddsUp(work, blocks, totals')
    ensures totals[|blocks|] == totals'[|blocks|]
    decreases |blocks|
  {
    if blocks != [] {
      var k := |blocks| - 1;
      assert AddsUp(work, blocks[..k], totals[..k + 1]) && AddsUp(work, blocks[..k], totals'[..k + 1]);
      TotalsUnique(work, blocks[..k], totals[..k + 1], totals'[..k + 1]);
      OneWork(totals[k + 1] - totals[k], totals'[k + 1] - totals'[k], blocks[k].target);
    }
  }

  lemma OneWork(w: int, w': int, target: HashT)
    requires w * target <= TWO_256 - 1 < (w + 1) * target && w' * target <= TWO_256 - 1 < (w' + 1) * target
    ensures w == w'
  {
    if w < w' {
      Larger(w + 1, w', target);
    }
    if w' < w {
      Larger(w' + 1, w, target);
    }
  }

  /** Which chains pass, without a word about how the checks go: the blocks hang together between the
      two ends, each beats its own target, and their work is more than ours and fits 256 bits. */
  lemma QuickVerdictExact(me: Me, newHead: HashT, lca: HashT, blocks: seq<Block>)
    requires blocks != []
    ensures QuickVerdict(me, newHead, lca, blocks) == Ok <==>
      var h := me.st.env.hashes;
      && h.BlockId(blocks[0]) == newHead
      && (forall i :: 0 <= i < |blocks| - 1 ==> blocks[i].prevBlockId == h.BlockId(blocks[i + 1]))
      && blocks[|blocks| - 1].prevBlockId == lca
      && (forall i :: 0 <= i < |blocks| ==> h.BlockId(blocks[i]) < blocks[i].target)
      && exists totals :: AddsUp(WorkOf(me.st, lca), blocks, totals)
                          && WorkOf(me.st, me.head) < totals[|blocks|] < TWO_256
    ensures QuickVerdict(me, newHead, lca, blocks) == Panic <==>
      var h := me.st.env.hashes;
      && h.BlockId(blocks[0]) == newHead
      && (forall i :: 0 <= i < |blocks| - 1 ==> blocks[i].prevBlockId == h.BlockId(blocks[i + 1]))
      && blocks[|blocks| - 1].prevBlockId == lca
      && forall totals :: AddsUp(WorkOf(me.st, lca), blocks, totals) ==> TWO_256 <= totals[|blocks|]
  {
    AppendWorkExact(WorkOf(me.st, lca), blocks);
    hide AppendWork, AddsUp;
    var r := AppendWork(WorkOf(me.st, lca), blocks);
    if r.Some? {
      var totals :|
        AddsUp(WorkOf(me.st, lca), blocks, totals) && |totals| == |blocks| + 1 && totals[|blocks|] == r.value;
    }
  }

  lemma AppendWorkExact(work: HashT, blocks: seq<Block>)
    ensures forall totals :: AddsUp(work, blocks, totals) ==>
      AppendWork(work, blocks) == if totals[|blocks|] < TWO_256 then Some(totals[|blocks|]) else None
    ensures AppendWork(work, blocks).Some? ==>
      exists totals :: AddsUp(work, blocks, totals) && |totals| == |blocks| + 1
                       && totals[|blocks|] == AppendWork(work, blocks).value
  {
    hide AppendWork, AddsUp;
    forall totals | AddsUp(work, blocks, totals)
      ensures |totals| == |blocks| + 1
      ensures AppendWork(work, blocks) == if totals[|blocks|] < TWO_256 then Some(totals[|blocks|]) else None
    {
      AddsUpSize(work, blocks, totals);
      var totals' := TotalsExist(work, blocks);
      TotalsUnique(work, blocks, totals, totals');
    }
    if AppendWork(work, blocks).Some? {
      PositiveTargets(work, blocks);
      var totals := TotalsExist(work, blocks);
    }
  }

  lemma {:induction false} PositiveTargets(work: HashT, blocks: seq<Block>)
    requires AppendWork(work, blocks).Some?
    ensures forall i :: 0 <= i < |blocks| ==> 0 < blocks[i].target
  {
    if blocks != [] {
      PositiveTargets(work, blocks[..|blocks| - 1]);
    }
  }

  lemma {:induction false} NoWork(work: HashT, blocks: seq<Block>, n: nat)
    requires n <= |blocks| && AppendWork(work, blocks[..n]).None?
    ensures AppendWork(work, blocks).None?
    decreases |blocks| - n
  {
    if n < |blocks| {
      assert blocks[..n + 1][..n] == blocks[..n];
      NoWork(work, blocks, n + 1);
    } else {
      assert blocks[..n] == blocks;
    }
  }

  // ---- The protocol ----

  function NewEvent(f: Fetching): HeadEvent
    requires f.needed != []
  {
    HeadEvent(f.needed[0], Reverse(f.blocks), Reverse(f.merkles), Reverse(f.txs), false)
  }

  function Reverse<T>(s: seq<T>): (r: seq<T>)
    ensures |r| == |s| && forall i :: 0 <= i < |s| ==> r[i] == s[|s| - 1 - i]
  {
    seq(|s|, i requires 0 <= i < |s| => s[|s| - 1 - i])
  }

  function RootsOf(blocks: seq<Block>): seq<HashT> {
    seq(|blocks|, i requires 0 <= i < |blocks| => blocks[i].merkleRoot)
  }

  /** What a peer does next. */
  function Act(me: Me, p: Phase): Action<Phase, Msg> {
    var st, ourWork := me.st, WorkOf(me.st, me.head);
    match p
    case SayWork => Emit(Hash(ourWork), SayHead)
    case SayHead => Emit(Hash(me.head), HearWork)
    case SayIntent(theirWork, theirHead) =>
      if theirWork == ourWork || (ourWork < theirWork && theirHead in st.blocks) then Emit(Text("cancel"), HearAnything)
      else Emit(Text("continue"), HearIntent(theirWork < ourWork))
    case SayRole(sending) => Emit(Text(if sending then "sync:send" else "sync:recv"), HearRole(sending))
    case Offer(needed, id) => Emit(Hash(id), HearKnown(needed, id))
    case SendBlocks(needed, rest) =>
      if rest == [] then Skip(HearVerified(needed))
      else Emit(BlockMsg(BlockOf(st, rest[0])), SendBlocks(needed, rest[1..]))
    case SayKind(needed, id) => Emit(Flag(id !in st.merkles), SayEntity(needed, id))
    case SayEntity(needed, id) =>
      Emit(if id in st.merkles then MerkleMsg(st.merkles[id].merkle) else TxMsg(TxOf(st, id)), HearWanted(needed))
    case SayUnknown(needed) => Emit(Flag(false), HearOffer(needed))
    case SayKnown(needed, lca) =>
      Emit(Flag(true), if needed == [] then Finished(Failed) else HearBlocks(needed, lca, []))
    case SayVerified(needed, lca, blocks) =>
      if needed == [] || blocks == [] then Halt
      else
        (match QuickVerdict(me, needed[0], lca, blocks)
         case Ok => Emit(Flag(true), Fetch(Fetching(needed, blocks, RootsOf(blocks), {}, [], [])))
           // Composing the error message dereferences an error that is nil.
         case Err => Emit(Flag(false), Finished(Crashed))
         case Panic => Skip(Finished(Crashed)))
    case Fetch(f) =>
      if f.queue == [] then Emit(Hash(0), SayComplete(f))
      else if HasEntity(st, f.queue[0]) || f.queue[0] in f.received then Skip(Fetch(Popped(f)))
      else Emit(Hash(f.queue[0]), HearKind(Popped(f), f.queue[0]))
    case SayComplete(f) =>
      Emit(Text("complete"), if f.needed == [] then Finished(Failed) else Finished(Received(NewEvent(f))))
    case HearBlocks(needed, lca, blocks) =>
      if |blocks| >= |needed| then Skip(SayVerified(needed, lca, blocks)) else Await((m: Msg) => Take(me, p, m))
    case Finished(_) => Halt
    case _ => Await((m: Msg) => Take(me, p, m))
  }

  /** What a waiting peer makes of a message; one of the wrong kind fails the sync. */
  function Take(me: Me, p: Phase, m: Msg): Phase {
    var st, h := me.st, me.st.env.hashes;
    match (p, m)
    case (HearWork, Hash(work)) => HearHead(work)
    case (HearHead(theirWork), Hash(theirHead)) => SayIntent(theirWork, theirHead)
    case (HearAnything, Text(_)) => Finished(Nothing)
    case (HearIntent(sending), Text(text)) =>
      if text == "cancel" then Finished(Nothing) else if text == "continue" then SayRole(sending) else Finished(Failed)
    case (HearRole(sending), Text(text)) =>
      if text != (if sending then "sync:recv" else "sync:send") then Finished(Failed)
      else if sending then Offer([], me.head) else HearOffer([])
    case (HearKnown(needed, id), Flag(known)) =>
      if !known then Offer(needed + [id], Parent(st, id))
      else if needed == [] then Finished(Failed) else SendBlocks(needed, needed)
    case (HearVerified(needed), Flag(verified)) => if verified then HearWanted(needed) else Finished(Failed)
    case (HearWanted(needed), Hash(id)) =>
      if id == 0 then HearComplete(needed) else if HasEntity(st, id) then SayKind(needed, id) else Finished(Failed)
    case (HearComplete(needed), Text(text)) => Finished(if text == "complete" then Sent(needed) else Failed)
    case (HearOffer(needed), Hash(id)) =>
      if id in st.blocks then SayKnown(needed, id) else SayUnknown(needed + [id])
    case (HearBlocks(needed, lca, blocks), BlockMsg(block)) =>
      if |blocks| < |needed| && h.BlockId(block) == needed[|blocks|] then HearBlocks(needed, lca, blocks + [block])
      else Finished(Failed)
    case (HearKind(f, id), Flag(isTx)) => HearEntity(f, id, isTx)
    case (HearEntity(f, id, isTx), MerkleMsg(node)) =>
      if !isTx && h.merkle(node) == id then Fetch(PlusMerkle(f, id, node)) else Finished(Failed)
    case (HearEntity(f, id, isTx), TxMsg(tx)) =>
      if isTx && h.tx(tx) == id then Fetch(PlusTx(f, id, tx)) else Finished(Failed)
    case _ => Finished(Failed)
  }

  function Popped(f: Fetching): Fetching
    requires f.queue != []
  {
    f.(queue := f.queue[1..])
  }

  function PlusMerkle(f: Fetching, id: HashT, node: MerkleNode): Fetching {
    f.(merkles := f.merkles + [node], queue := f.queue + [node.lChild, node.rChild], received := f.received + {id})
  }

  function PlusTx(f: Fetching, id: HashT, tx: Tx): Fetching {
    f.(txs := f.txs + [tx], received := f.received + {id})
  }

  function Program(me: Me): Phase -> Action<Phase, Msg> { p => Act(me, p) }

  function Peers(left: Me, right: Me): System<Phase, Msg> { System(Program(left), Program(right)) }

  const START: Config<Phase, Msg> := Config(SayWork, SayWork, [], [])

  function Done(left: Result, right: Result): Config<Phase, Msg> { Config(Finished(left), Finished(right), [], []) }

  // ---- The course of an honest sync, with the sender on the left ----

  lemma Greeted(s: Me, r: Me)
    ensures Reaches(Peers(s, r), START, Config(HearWork, HearWork,
      [Hash(WorkOf(s.st, s.head)), Hash(s.head)], [Hash(WorkOf(r.st, r.head)), Hash(r.head)]))
  {
    hide Reaches, WorkOf, QuickVerdict, HasEntity, NewEvent, RootsOf, PlusMerkle, PlusTx, Popped, Parent, BlockOf, TxOf;
    var sys := Peers(s, r);
    var sw, sh, rw, rh := Hash(WorkOf(s.st, s.head)), Hash(s.head), Hash(WorkOf(r.st, r.head)), Hash(r.head);
    ReachesItself(sys, START);
    assert START.toRight + [sw] == [sw] && [sw] + [sh] == [sw, sh];
    assert START.toLeft + [rw] == [rw] && [rw] + [rh] == [rw, rh];
    OneMore(sys, START, START, true, Config(SayHead, SayWork, [sw], []));
    OneMore(sys, START, Config(SayHead, SayWork, [sw], []), true, Config(HearWork, SayWork, [sw, sh], []));
    OneMore(sys, START, Config(HearWork, SayWork, [sw, sh], []), false, Config(HearWork, SayHead, [sw, sh], [rw]));
    var c4 := Config(HearWork, HearWork, [sw, sh], [rw, rh]);
    OneMore(sys, START, Config(HearWork, SayHead, [sw, sh], [rw]), false, c4);
  }

  lemma Greeting(s: Me, r: Me)
    ensures Reaches(Peers(s, r), START,
      Config(SayIntent(WorkOf(r.st, r.head), r.head), SayIntent(WorkOf(s.st, s.head), s.head), [], []))
  {
    hide Reaches, WorkOf, QuickVerdict, HasEntity, NewEvent, RootsOf, PlusMerkle, PlusTx, Popped, Parent, BlockOf, TxOf;
    var sys := Peers(s, r);
    var sw, sh, rw, rh := Hash(WorkOf(s.st, s.head)), Hash(s.head), Hash(WorkOf(r.st, r.head)), Hash(r.head);
    Greeted(s, r);
    assert [rw, rh][1..] == [rh] && [rh][1..] == [] && [sw, sh][1..] == [sh] && [sh][1..] == [];
    var c5 := Config(HearHead(rw.id), HearWork, [sw, sh], [rh]);
    OneMore(sys, START, Config(HearWork, HearWork, [sw, sh], [rw, rh]), true, c5);
    var c6 := Config(SayIntent(rw.id, rh.id), HearWork, [sw, sh], []);
    OneMore(sys, START, c5, true, c6);
    var c7 := Config(SayIntent(rw.id, rh.id), HearHead(sw.id), [sh], []);
    OneMore(sys, START, c6, false, c7);
    OneMore(sys, START, c7, false, Config(SayIntent(rw.id, rh.id), SayIntent(sw.id, sh.id), [], []));
  }

  /** No sync is needed between peers with the same work, or when the lighter one knows the other's
      head already. */
  lemma NothingToDo(s: Me, r: Me)
    requires WorkOf(r.st, r.head) <= WorkOf(s.st, s.head)
    requires WorkOf(r.st, r.head) == WorkOf(s.st, s.head) || s.head in r.st.blocks
    ensures EndsAt(Peers(s, r), START, Done(Nothing, Nothing))
  {
    hide Reaches, WorkOf, QuickVerdict, HasEntity, NewEvent, RootsOf, PlusMerkle, PlusTx, Popped, Parent, BlockOf, TxOf;
    var sys := Peers(s, r);
    Greeting(s, r);
    Exchange(sys, START,
      Config(SayIntent(WorkOf(r.st, r.head), r.head), SayIntent(WorkOf(s.st, s.head), s.head), [], []));
  }

  /** Whether there is something to send. */
  predicate Needed(s: Me, r: Me) {
    WorkOf(r.st, r.head) < WorkOf(s.st, s.head) && s.head !in r.st.blocks
  }

  lemma Agreed(s: Me, r: Me)
    requires Needed(s, r)
    ensures Reaches(Peers(s, r), START, Config(SayRole(true), SayRole(false), [], []))
  {
    hide Reaches, WorkOf, QuickVerdict, HasEntity, NewEvent, RootsOf, PlusMerkle, PlusTx, Popped, Parent, BlockOf, TxOf;
    Greeting(s, r);
    Exchange(Peers(s, r), START,
      Config(SayIntent(WorkOf(r.st, r.head), r.head), SayIntent(WorkOf(s.st, s.head), s.head), [], []));
  }

  /** The peers take complementary roles. */
  lemma Roles(s: Me, r: Me)
    requires Needed(s, r)
    ensures Reaches(Peers(s, r), START, Config(Offer([], s.head), HearOffer([]), [], []))
  {
    hide Reaches, WorkOf, QuickVerdict, HasEntity, NewEvent, RootsOf, PlusMerkle, PlusTx, Popped, Parent, BlockOf, TxOf;
    Agreed(s, r);
    Exchange(Peers(s, r), START, Config(SayRole(true), SayRole(false), [], []));
  }

  // ---- Which blocks are sent ----

  /** The nearest ancestor of a block that the receiver knows. */
  function FirstKnown(s: Store, r: Store, id: HashT): HashT
    decreases HeightOf(s, id)
  {
    if id in r.blocks || !Linked(s, id) then id else FirstKnown(s, r, Parent(s, id))
  }

  function Missing(s: Store, r: Store, id: HashT): seq<HashT>
    decreases HeightOf(s, id)
  {
    if id in r.blocks || !Linked(s, id) then [] else [id] + Missing(s, r, Parent(s, id))
  }

  /** The blocks sent are exactly those between the head and its most recent known ancestor. */
  lemma {:induction false} MissingExact(s: Store, r: Store, id: HashT)
    requires Tree(s) && 0 in r.blocks && id in s.blocks
    ensures var lca := FirstKnown(s, r, id);
      && lca in r.blocks && Ancestor(s, lca, id)
      && Missing(s, r, id) == Path(s, id, lca)
      && (forall c :: c in Missing(s, r, id) ==> c !in r.blocks)
      && (forall c :: Ancestor(s, c, id) && c in r.blocks ==> Ancestor(s, c, lca))
    decreases HeightOf(s, id)
  {
    if id !in r.blocks {
      MissingExact(s, r, Parent(s, id));
      AncestorBelow(s, FirstKnown(s, r, id), Parent(s, id));
      PathStep(s, id, FirstKnown(s, r, id));
    } else {
      assert Path(s, id, id) == [];
    }
  }

  lemma {:induction false} Negotiate(s: Me, r: Me, pre: seq<HashT>, id: HashT)
    requires Tree(s.st) && 0 in r.st.blocks && id in s.st.blocks
    requires Reaches(Peers(s, r), START, Config(Offer(pre, id), HearOffer(pre), [], []))
    requires pre + Missing(s.st, r.st, id) != []
    ensures var all := pre + Missing(s.st, r.st, id);
      Reaches(Peers(s, r), START,
        Config(SendBlocks(all, all), HearBlocks(all, FirstKnown(s.st, r.st, id), []), [], []))
    decreases HeightOf(s.st, id)
  {
    hide Reaches, Peers;
    OneOffer(s, r, pre, id);
    if id in r.st.blocks {
      assert pre + [] == pre;
    } else {
      assert Linked(s.st, id);
      assert pre + Missing(s.st, r.st, id) == pre + [id] + Missing(s.st, r.st, Parent(s.st, id));
      Negotiate(s, r, pre + [id], Parent(s.st, id));
    }
  }

  lemma OneOffer(s: Me, r: Me, pre: seq<HashT>, id: HashT)
    requires Reaches(Peers(s, r), START, Config(Offer(pre, id), HearOffer(pre), [], []))
    ensures id in r.st.blocks && pre != [] ==>
      Reaches(Peers(s, r), START, Config(SendBlocks(pre, pre), HearBlocks(pre, id, []), [], []))
    ensures id !in r.st.blocks ==>
      Reaches(Peers(s, r), START, Config(Offer(pre + [id], Parent(s.st, id)), HearOffer(pre + [id]), [], []))
  {
    hide Reaches, WorkOf, QuickVerdict, HasEntity, NewEvent, RootsOf, PlusMerkle, PlusTx, Popped, BlockOf, TxOf, Parent;
    var sys := Peers(s, r);
    PassRight(sys, START, Config(Offer(pre, id), HearOffer(pre), [], []));
    if id in r.st.blocks {
      PassLeft(sys, START, Config(HearKnown(pre, id), SayKnown(pre, id), [], []));
    } else {
      PassLeft(sys, START, Config(HearKnown(pre, id), SayUnknown(pre + [id]), [], []));
    }
  }

  function BlocksOf(st: Store, ids: seq<HashT>): (blocks: seq<Block>)
    ensures |blocks| == |ids|
  {
    seq(|ids|, i requires 0 <= i < |ids| => BlockOf(st, ids[i]))
  }

  lemma {:induction false} SendAll(s: Me, r: Me, all: seq<HashT>, lca: HashT, k: nat)
    requires k <= |all| && forall i :: 0 <= i < |all| ==> r.st.env.hashes.BlockId(BlockOf(s.st, all[i])) == all[i]
    requires Reaches(Peers(s, r), START,
               Config(SendBlocks(all, all[k..]), HearBlocks(all, lca, BlocksOf(s.st, all[..k])), [], []))
    ensures Reaches(Peers(s, r), START, Config(HearVerified(all), SayVerified(all, lca, BlocksOf(s.st, all)), [], []))
    decreases |all| - k
  {
    hide Reaches, WorkOf, QuickVerdict, HasEntity, NewEvent, RootsOf, PlusMerkle, PlusTx, Popped, TxOf;
    var sys, sent := Peers(s, r), BlocksOf(s.st, all[..k]);
    var c := Config(SendBlocks(all, all[k..]), HearBlocks(all, lca, sent), [], []);
    hide Linked, BlockOf;
    if k == |all| {
      assert all[..k] == all && all[k..] == [];
      OneMore(sys, START, c, true, Config(HearVerified(all), HearBlocks(all, lca, sent), [], []));
      OneMore(sys, START, Config(HearVerified(all), HearBlocks(all, lca, sent), [], []), false,
        Config(HearVerified(all), SayVerified(all, lca, sent), [], []));
    } else {
      PassRight(sys, START, c);
      assert all[k..][1..] == all[k + 1..];
      assert sent + [BlockOf(s.st, all[k])] == BlocksOf(s.st, all[..k + 1]);
      SendAll(s, r, all, lca, k + 1);
    }
  }

  // ---- An honest chain passes the quick checks ----

  function SumWork(blocks: seq<Block>): nat {
    if blocks == [] then 0
    else
      var target := blocks[|blocks| - 1].target;
      SumWork(blocks[..|blocks| - 1]) + if target == 0 then 0 else TargetToWork(target)
  }

  lemma {:induction false} AppendWorkSums(work: HashT, blocks: seq<Block>)
    requires forall i :: 0 <= i < |blocks| ==> blocks[i].target > 0
    ensures AppendWork(work, blocks) ==
      if work + SumWork(blocks) < TWO_256 then Some(work + SumWork(blocks)) else None
  {
    hide TargetToWork;
    if blocks != [] {
      AppendWorkSums(work, blocks[..|blocks| - 1]);
    }
  }

  lemma {:induction false} SumWorkFirst(b: Block, blocks: seq<Block>)
    ensures SumWork([b] + blocks) == (if b.target == 0 then 0 else TargetToWork(b.target)) + SumWork(blocks)
    decreases |blocks|
  {
    hide TargetToWork;
    if blocks == [] {
      assert [b] + blocks == [b] && [b][..0] == [];
      assert SumWork([b]) == SumWork([b][..0]) + if b.target == 0 then 0 else TargetToWork(b.target);
    } else {
      assert ([b] + blocks)[..|blocks|] == [b] + blocks[..|blocks| - 1];
      SumWorkFirst(b, blocks[..|blocks| - 1]);
    }
  }

  predicate GoodLink(s: Store, ids: seq<HashT>, lca: HashT, i: nat)
    requires i < |ids|
  {
    var b, h := BlockOf(s, ids[i]), s.env.hashes;
    && h.BlockId(b) == ids[i] && ids[i] in s.blocks
    && b.prevBlockId == (if i + 1 < |ids| then ids[i + 1] else lca)
    && ids[i] < b.target
  }

  lemma {:induction false} MissingLinks(s: Store, r: Store, id: HashT)
    requires WellFormed(s) && Tree(s) && 0 in r.blocks && id in s.blocks
    ensures var ids, lca := Missing(s, r, id), FirstKnown(s, r, id);
      && (forall i :: 0 <= i < |ids| ==> GoodLink(s, ids, lca, i))
      && (ids != [] ==> ids[0] == id) && (ids == [] ==> lca == id)
      && WorkOf(s, id) == WorkOf(s, lca) + SumWork(BlocksOf(s, ids))
    decreases HeightOf(s, id)
  {
    hide WellFormed, SumWork;
    if id in r.blocks {
      NoSum(s);
    } else {
      var p := Parent(s, id);
      MissingLinks(s, r, p);
      BlockFacts(s, id);
      var ids, rest, lca := Missing(s, r, id), Missing(s, r, p), FirstKnown(s, r, id);
      assert ids == [id] + rest;
      forall i | 0 <= i < |ids| ensures GoodLink(s, ids, lca, i) {
        if i > 0 {
          assert GoodLink(s, rest, lca, i - 1) && ids[i] == rest[i - 1];
          assert i + 1 < |ids| ==> ids[i + 1] == rest[i];
        }
      }
      assert BlocksOf(s, ids) == [BlockOf(s, id)] + BlocksOf(s, rest);
      SumWorkFirst(BlockOf(s, id), BlocksOf(s, rest));
    }
  }

  lemma NoSum(s: Store)
    ensures BlocksOf(s, []) == [] && SumWork([]) == 0
  {
  }

  /** Two honest peers of one network. */
  ghost predicate Honest(s: Me, r: Me) {
    && WellFormed(s.st) && WellFormed(r.st)
    && s.st.env == r.st.env && NoCollision(s.st, r.st)
    && s.head in s.st.blocks && r.head in r.st.blocks
    && !HasEntity(s.st, 0) && !HasEntity(r.st, 0)
  }

  function NeededIds(s: Me, r: Me): seq<HashT> { Missing(s.st, r.st, s.head) }

  function Lca(s: Me, r: Me): HashT { FirstKnown(s.st, r.st, s.head) }

  lemma SameWorkAtLca(s: Me, r: Me)
    requires Honest(s, r)
    ensures Lca(s, r) in s.st.blocks && Lca(s, r) in r.st.blocks
    ensures WorkOf(r.st, Lca(s, r)) == WorkOf(s.st, Lca(s, r))
    ensures Tree(s.st) && Tree(r.st)
  {
    WellFormedTree(s.st);
    WellFormedTree(r.st);
    hide WellFormed, Tree, Agree, Ancestor, Path, Missing, NoCollision;
    TreeHasZero(r.st);
    MissingExact(s.st, r.st, s.head);
    NoCollisionAgree(s.st, r.st);
    AncestorBelow(s.st, Lca(s, r), s.head);
    SameChainTxs(s.st, r.st, Lca(s, r));
  }

  lemma TreeHasZero(st: Store)
    requires Tree(st)
    ensures 0 in st.blocks
  {
  }

  /** Properly linked blocks with enough work pass. */
  lemma GoodLinksPass(st: Store, me: Me, ids: seq<HashT>, lca: HashT)
    requires ids != [] && st.env == me.st.env
    requires forall i :: 0 <= i < |ids| ==> GoodLink(st, ids, lca, i)
    requires WorkOf(me.st, me.head) < WorkOf(me.st, lca) + SumWork(BlocksOf(st, ids)) < TWO_256
    ensures QuickVerdict(me, ids[0], lca, BlocksOf(st, ids)) == Ok
  {
    hide SumWork, AppendWork, WorkOf;
    var blocks := BlocksOf(st, ids);
    forall i | 0 <= i < |ids|
      ensures blocks[i].target > 0 && st.env.hashes.BlockId(blocks[i]) == ids[i] && ids[i] < blocks[i].target
      ensures blocks[i].prevBlockId == if i + 1 < |ids| then ids[i + 1] else lca
    {
      assert GoodLink(st, ids, lca, i);
    }
    forall i | 0 <= i < |blocks| - 1 ensures blocks[i].prevBlockId == st.env.hashes.BlockId(blocks[i + 1]) {
      assert GoodLink(st, ids, lca, i) && GoodLink(st, ids, lca, i + 1);
    }
    assert AllBeatTarget(st.env.hashes, blocks) && Continuous(st.env.hashes, blocks);
    assert GoodLink(st, ids, lca, |ids| - 1);
    AppendWorkSums(WorkOf(me.st, lca), blocks);
  }

  lemma HonestChainPasses(s: Me, r: Me)
    requires Honest(s, r) && Needed(s, r)
    ensures NeededIds(s, r) != [] && NeededIds(s, r)[0] == s.head
    ensures QuickVerdict(r, s.head, Lca(s, r), BlocksOf(s.st, NeededIds(s, r))) == Ok
    ensures forall i :: 0 <= i < |NeededIds(s, r)| ==> GoodLink(s.st, NeededIds(s, r), Lca(s, r), i)
  {
    hide WellFormed, Tree, SumWork, QuickVerdict, GoodLink, Missing, FirstKnown;
    SameWorkAtLca(s, r);
    TreeHasZero(r.st);
    MissingLinks(s.st, r.st, s.head);
    GoodLinksPass(s.st, r, NeededIds(s, r), Lca(s, r));
  }

  // ---- Fetching the entities ----

  function Unfetched(s: Store, f: Fetching): set<HashT> { s.merkles.Keys + s.txs.Keys - f.received }

  /** What the receiver has once its queue is empty, the sender answering from `s`. */
  function Fetched(s: Store, r: Store, f: Fetching): Fetching
    decreases Unfetched(s, f), |f.queue|
  {
    if f.queue == [] then f
    else
      var id := f.queue[0];
      if HasEntity(r, id) || id in f.received then Fetched(s, r, Popped(f))
      else if id in s.merkles then Fetched(s, r, PlusMerkle(Popped(f), id, s.merkles[id].merkle))
      else if id in s.txs then Fetched(s, r, PlusTx(Popped(f), id, TxOf(s, id)))
      else f
  }

  /** Every id in the queue can be asked for. */
  predicate Askable(s: Store, f: Fetching) {
    forall i :: 0 <= i < |f.queue| ==> f.queue[i] != 0 && HasEntity(s, f.queue[i])
  }

  /** A well-formed inventory has what its nodes refer to, under the right ids. */
  ghost predicate Answers(s: Store) {
    && !HasEntity(s, 0)
    && (forall id :: id in s.merkles ==>
          && s.env.hashes.merkle(s.merkles[id].merkle) == id
          && HasEntity(s, s.merkles[id].merkle.lChild) && HasEntity(s, s.merkles[id].merkle.rChild))
    && (forall id :: id in s.txs ==> s.env.hashes.tx(TxOf(s, id)) == id)
  }

  lemma WellFormedAnswers(s: Store)
    requires WellFormed(s) && !HasEntity(s, 0)
    ensures Answers(s)
  {
    WellFormedSeparate(s);
    forall id | id in s.merkles
      ensures s.env.hashes.merkle(s.merkles[id].merkle) == id
      ensures HasEntity(s, s.merkles[id].merkle.lChild) && HasEntity(s, s.merkles[id].merkle.rChild)
    {
      assert MerkleRecordOk(s, id);
      assert Grounded(s, id, MaxDepth(s));
      assert Grounded(s, s.merkles[id].merkle.lChild, MaxDepth(s) - 1);
      assert Grounded(s, s.merkles[id].merkle.rChild, MaxDepth(s) - 1);
    }
    forall id | id in s.txs ensures s.env.hashes.tx(TxOf(s, id)) == id {
      assert TxRecordOk(s, id);
    }
  }

  /** What comes of the first id in the queue. */
  function Handled(s: Store, r: Store, f: Fetching): Fetching
    requires f.queue != []
  {
    var id := f.queue[0];
    if HasEntity(r, id) || id in f.received then Popped(f)
    else if id in s.merkles then PlusMerkle(Popped(f), id, s.merkles[id].merkle)
    else PlusTx(Popped(f), id, TxOf(s, id))
  }

  lemma AskOne(s: Me, r: Me, f: Fetching)
    requires f.queue != [] && f.queue[0] != 0 && HasEntity(s.st, f.queue[0])
    requires Reaches(Peers(s, r), START, Config(HearWanted(f.needed), Fetch(f), [], []))
    ensures var id := f.queue[0];
      if HasEntity(r.st, id) || id in f.received then
        Reaches(Peers(s, r), START, Config(HearWanted(f.needed), Fetch(Popped(f)), [], []))
      else
        Reaches(Peers(s, r), START, Config(SayKind(f.needed, id), HearKind(Popped(f), id), [], []))
  {
    hide Reaches, WorkOf, QuickVerdict, NewEvent, RootsOf, Parent, BlockOf, HasEntity, PlusMerkle, PlusTx, TxOf;
    var sys, id := Peers(s, r), f.queue[0];
    var c := Config(HearWanted(f.needed), Fetch(f), [], []);
    if HasEntity(r.st, id) || id in f.received {
      OneMore(sys, START, c, false, Config(HearWanted(f.needed), Fetch(Popped(f)), [], []));
    } else {
      PassLeft(sys, START, c);
    }
  }

  lemma AnswerKind(s: Me, r: Me, f: Fetching, id: HashT)
    requires Reaches(Peers(s, r), START, Config(SayKind(f.needed, id), HearKind(f, id), [], []))
    ensures Reaches(Peers(s, r), START, Config(SayEntity(f.needed, id), HearEntity(f, id, id !in s.st.merkles), [], []))
  {
    hide Reaches, WorkOf, QuickVerdict, NewEvent, RootsOf, Parent, BlockOf, PlusMerkle, PlusTx, TxOf, HasEntity, Popped;
    PassRight(Peers(s, r), START, Config(SayKind(f.needed, id), HearKind(f, id), [], []));
  }

  lemma AnswerEntity(s: Me, r: Me, f: Fetching, id: HashT)
    requires s.st.env == r.st.env && HasEntity(s.st, id)
    requires id in s.st.merkles ==> s.st.env.hashes.merkle(s.st.merkles[id].merkle) == id
    requires id in s.st.txs ==> s.st.env.hashes.tx(TxOf(s.st, id)) == id
    requires Reaches(Peers(s, r), START,
               Config(SayEntity(f.needed, id), HearEntity(f, id, id !in s.st.merkles), [], []))
    ensures Reaches(Peers(s, r), START, Config(HearWanted(f.needed),
              Fetch(if id in s.st.merkles then PlusMerkle(f, id, s.st.merkles[id].merkle)
                    else PlusTx(f, id, TxOf(s.st, id))),
              [], []))
  {
    hide Reaches, WorkOf, QuickVerdict, NewEvent, RootsOf, Parent, BlockOf, PlusMerkle, PlusTx, TxOf, Popped;
    PassRight(Peers(s, r), START, Config(SayEntity(f.needed, id), HearEntity(f, id, id !in s.st.merkles), [], []));
  }

  lemma AnswerOne(s: Me, r: Me, f: Fetching, id: HashT)
    requires Answers(s.st) && s.st.env == r.st.env && HasEntity(s.st, id)
    requires Reaches(Peers(s, r), START, Config(SayKind(f.needed, id), HearKind(f, id), [], []))
    ensures Reaches(Peers(s, r), START, Config(HearWanted(f.needed),
              Fetch(if id in s.st.merkles then PlusMerkle(f, id, s.st.merkles[id].merkle)
                    else PlusTx(f, id, TxOf(s.st, id))),
              [], []))
  {
    hide Reaches, Peers, PlusMerkle, PlusTx;
    AnswerKind(s, r, f, id);
    AnswerEntity(s, r, f, id);
  }

  lemma PoppedAskable(s: Store, f: Fetching)
    requires Askable(s, f) && f.queue != []
    ensures f.queue[0] != 0 && HasEntity(s, f.queue[0]) && Askable(s, Popped(f))
  {
    forall i | 0 <= i < |f.queue| - 1 ensures f.queue[1..][i] != 0 && HasEntity(s, f.queue[1..][i]) {
      assert f.queue[1..][i] == f.queue[i + 1];
    }
  }

  lemma PlusAskable(s: Store, f: Fetching, id: HashT, node: MerkleNode)
    requires Askable(s, f) && !HasEntity(s, 0) && HasEntity(s, node.lChild) && HasEntity(s, node.rChild)
    ensures Askable(s, PlusMerkle(f, id, node))
  {
  }

  lemma AnswersNode(s: Store, id: HashT)
    requires Answers(s) && id in s.merkles
    ensures !HasEntity(s, 0)
    ensures HasEntity(s, s.merkles[id].merkle.lChild) && HasEntity(s, s.merkles[id].merkle.rChild)
  {
  }

  lemma HandledAskable(s: Store, r: Store, f: Fetching)
    requires Answers(s) && Askable(s, f) && f.queue != []
    ensures f.queue[0] != 0 && HasEntity(s, f.queue[0])
    ensures Askable(s, Handled(s, r, f))
  {
    hide Answers, Askable, HasEntity;
    PoppedAskable(s, f);
    var id := f.queue[0];
    if id in s.merkles {
      AnswersNode(s, id);
      PlusAskable(s, Popped(f), id, s.merkles[id].merkle);
    }
    TxAskable(s, Popped(f), id);
  }

  lemma TxAskable(s: Store, f: Fetching, id: HashT)
    requires Askable(s, f)
    ensures Askable(s, PlusTx(f, id, TxOf(s, id)))
  {
  }

  lemma OneFetch(s: Me, r: Me, f: Fetching)
    requires Answers(s.st) && s.st.env == r.st.env && f.queue != [] && Askable(s.st, f)
    requires Reaches(Peers(s, r), START, Config(HearWanted(f.needed), Fetch(f), [], []))
    ensures var g := Handled(s.st, r.st, f);
      && g.needed == f.needed && g.blocks == f.blocks && Askable(s.st, g)
      && Reaches(Peers(s, r), START, Config(HearWanted(f.needed), Fetch(g), [], []))
  {
    hide Reaches, Answers, Askable, Peers, HasEntity;
    HandledAskable(s.st, r.st, f);
    AskOne(s, r, f);
    if !HasEntity(r.st, f.queue[0]) && f.queue[0] !in f.received {
      AnswerOne(s, r, Popped(f), f.queue[0]);
    }
  }

  lemma {:induction false} FetchRuns(s: Me, r: Me, f: Fetching)
    requires Answers(s.st) && s.st.env == r.st.env && Askable(s.st, f)
    requires Reaches(Peers(s, r), START, Config(HearWanted(f.needed), Fetch(f), [], []))
    ensures var g := Fetched(s.st, r.st, f);
      && g.queue == [] && g.needed == f.needed && g.blocks == f.blocks
      && Reaches(Peers(s, r), START, Config(HearWanted(f.needed), Fetch(g), [], []))
    decreases Unfetched(s.st, f), |f.queue|
  {
    hide Reaches, Peers, Answers, Askable;
    if f.queue != [] {
      HandledAskable(s.st, r.st, f);
      OneFetch(s, r, f);
      FetchRuns(s, r, Handled(s.st, r.st, f));
    }
  }

  // ---- The whole sync ----

  function FirstFetch(s: Me, r: Me): Fetching {
    var blocks := BlocksOf(s.st, NeededIds(s, r));
    Fetching(NeededIds(s, r), blocks, RootsOf(blocks), {}, [], [])
  }

  /** What the receiver ends up with. */
  function Haul(s: Me, r: Me): Fetching { Fetched(s.st, r.st, FirstFetch(s, r)) }

  lemma RootsAskable(s: Me, r: Me)
    requires Honest(s, r)
    requires forall i :: 0 <= i < |NeededIds(s, r)| ==> GoodLink(s.st, NeededIds(s, r), Lca(s, r), i)
    ensures Answers(s.st) && Askable(s.st, FirstFetch(s, r))
  {
    hide Missing, FirstKnown;
    WellFormedAnswers(s.st);
    WellFormedTree(s.st);
    var ids, f := NeededIds(s, r), FirstFetch(s, r);
    forall i | 0 <= i < |ids| ensures f.queue[i] != 0 && HasEntity(s.st, f.queue[i]) {
      assert GoodLink(s.st, ids, Lca(s, r), i);
      assert BlockRecordOk(s.st, ids[i]);
    }
  }

  lemma Verified(s: Me, r: Me, ids: seq<HashT>, lca: HashT)
    requires ids != [] && QuickVerdict(r, ids[0], lca, BlocksOf(s.st, ids)) == Ok
    requires Reaches(Peers(s, r), START, Config(HearVerified(ids), SayVerified(ids, lca, BlocksOf(s.st, ids)), [], []))
    ensures Reaches(Peers(s, r), START, Config(HearWanted(ids),
              Fetch(Fetching(ids, BlocksOf(s.st, ids), RootsOf(BlocksOf(s.st, ids)), {}, [], [])), [], []))
  {
    hide Reaches, WorkOf, QuickVerdict, NewEvent, RootsOf, Parent, BlockOf, PlusMerkle, PlusTx, TxOf, HasEntity, Popped;
    PassLeft(Peers(s, r), START, Config(HearVerified(ids), SayVerified(ids, lca, BlocksOf(s.st, ids)), [], []));
  }

  lemma NothingLeft(s: Me, r: Me, f: Fetching)
    requires f.queue == []
    requires Reaches(Peers(s, r), START, Config(HearWanted(f.needed), Fetch(f), [], []))
    ensures Reaches(Peers(s, r), START, Config(HearComplete(f.needed), SayComplete(f), [], []))
  {
    hide Reaches, WorkOf, QuickVerdict, NewEvent, RootsOf, Parent, BlockOf, PlusMerkle, PlusTx, TxOf, HasEntity;
    PassLeft(Peers(s, r), START, Config(HearWanted(f.needed), Fetch(f), [], []));
  }

  lemma FinishUp(s: Me, r: Me, f: Fetching)
    requires f.queue == [] && f.needed != []
    requires Reaches(Peers(s, r), START, Config(HearWanted(f.needed), Fetch(f), [], []))
    ensures EndsAt(Peers(s, r), START, Done(Sent(f.needed), Received(NewEvent(f))))
  {
    hide Reaches, WorkOf, QuickVerdict, NewEvent, RootsOf, Parent, BlockOf, PlusMerkle, PlusTx, TxOf, HasEntity;
    NothingLeft(s, r, f);
    PassLeft(Peers(s, r), START, Config(HearComplete(f.needed), SayComplete(f), [], []));
  }

  /** Every interleaving of an honest sync ends, with both sides agreed on the blocks to send and the
      receiver's event published. */
  lemma SyncEnds(s: Me, r: Me)
    requires Honest(s, r) && Needed(s, r)
    ensures Haul(s, r).needed == NeededIds(s, r) != []
    ensures EndsAt(Peers(s, r), START, Done(Sent(NeededIds(s, r)), Received(NewEvent(Haul(s, r)))))
  {
    HonestChainPasses(s, r);
    RootsAskable(s, r);
    SameWorkAtLca(s, r);
    var ids, lca := NeededIds(s, r), Lca(s, r);
    forall i | 0 <= i < |ids| ensures r.st.env.hashes.BlockId(BlockOf(s.st, ids[i])) == ids[i] {
      assert GoodLink(s.st, ids, lca, i);
    }
    hide Reaches, Peers, QuickVerdict, Fetched, Answers, Askable, Needed, GoodLink, NewEvent, EndsAt, WellFormed, Tree;
    Roles(s, r);
    TreeHasZero(r.st);
    assert [] + ids == ids;
    Negotiate(s, r, [], s.head);
    assert ids[0..] == ids && BlocksOf(s.st, ids[..0]) == [];
    SendAll(s, r, ids, lca, 0);
    Verified(s, r, ids, lca);
    FetchRuns(s, r, FirstFetch(s, r));
    FinishUp(s, r, Haul(s, r));
  }

  lemma EndSwapped(s: Me, r: Me, a: Result, b: Result)
    requires EndsAt(Peers(s, r), START, Done(a, b))
    ensures EndsAt(Peers(r, s), START, Done(b, a))
  {
    hide Reaches;
    ReachesSwapped(Peers(s, r), START, Done(a, b));
  }

  /** Whoever is heavier, whoever initiated: the sync settles, in complementary roles or with nothing
      to do on either side. */
  lemma SyncSettles(l: Me, r: Me) returns (a: Result, b: Result)
    requires Honest(l, r)
    ensures EndsAt(Peers(l, r), START, Done(a, b))
    ensures (a == Nothing && b == Nothing) || (a.Sent? && b.Received?) || (a.Received? && b.Sent?)
    ensures a.Sent? <==> Needed(l, r)
    ensures b.Sent? <==> Needed(r, l)
  {
    hide EndsAt, WellFormed, NewEvent, Haul, NeededIds;
    if Needed(l, r) {
      SyncEnds(l, r);
      a, b := Sent(NeededIds(l, r)), Received(NewEvent(Haul(l, r)));
    } else if Needed(r, l) {
      SyncEnds(r, l);
      a, b := Received(NewEvent(Haul(r, l))), Sent(NeededIds(r, l));
      EndSwapped(r, l, b, a);
    } else {
      a, b := Nothing, Nothing;
      if WorkOf(r.st, r.head) <= WorkOf(l.st, l.head) {
        NothingToDo(l, r);
      } else {
        NothingToDo(r, l);
        EndSwapped(r, l, b, a);
      }
    }
  }
}
