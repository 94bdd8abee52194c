/** A sync with a peer that lies: it claims more work than we have, offers blocks, sends them, and pays
    no attention to what we say.  If the blocks fail the quick checks, we crash. */
module Lying {
  import opened Core
  import opened Forest
  import opened Rules
  import N = Node
  import opened Network
  import opened Sync
  import opened Scenarios

  /** One side follows the protocol, the other a script. */
  datatype Side = Ours(phase: Phase) | Theirs(rest: seq<Msg>)

  function Lift(a: Action<Phase, Msg>): Action<Side, Msg> {
    match a
    case Halt => Halt
    case Skip(next) => Skip(Ours(next))
    case Emit(msg, after) => Emit(msg, Ours(after))
    case Await(receive) => Await((m: Msg) => Ours(receive(m)))
  }

  function Recite(s: Side): Action<Side, Msg> {
    if s.Ours? || s.rest == [] then Halt else Emit(s.rest[0], Theirs(s.rest[1..]))
  }

  function Follow(me: Me): Side -> Action<Side, Msg> {
    (s: Side) => match s case Ours(p) => Lift(Act(me, p)) case Theirs(_) => Halt
  }

  function Against(me: Me): System<Side, Msg> { System(Recite, Follow(me)) }

  function Opening(script: seq<Msg>): Config<Side, Msg> { Config(Theirs(script), Ours(SayWork), [], []) }

  // ---- The script ----

  function IdsOf(h: Hashes, blocks: seq<Block>): seq<HashT> {
    seq(|blocks|, i requires 0 <= i < |blocks| => h.BlockId(blocks[i]))
  }

  function Offers(ids: seq<HashT>): seq<Msg> { seq(|ids|, i requires 0 <= i < |ids| => Hash(ids[i])) }

  function Sends(blocks: seq<Block>): seq<Msg> { seq(|blocks|, i requires 0 <= i < |blocks| => BlockMsg(blocks[i])) }

  /** Blocks, newest first, said to have so much work in all and to follow block `lca`. */
  function Script(h: Hashes, work: HashT, blocks: seq<Block>, lca: HashT): seq<Msg>
    requires blocks != []
  {
    [Hash(work), Hash(h.BlockId(blocks[0])), Text("continue"), Text("sync:send")]
    + (Offers(IdsOf(h, blocks)) + ([Hash(lca)] + Sends(blocks)))
  }

  // ---- How far the script takes us ----

  /** With the script said, we can be here with so much of it unread. */
  ghost predicate Gets(me: Me, script: seq<Msg>, p: Phase, unread: seq<Msg>) {
    exists out :: Reaches(Against(me), Opening(script), Config(Theirs([]), Ours(p), unread, out))
  }

  lemma {:induction false} Said(me: Me, script: seq<Msg>, rest: seq<Msg>, done: seq<Msg>)
    requires done + rest == script
    requires Reaches(Against(me), Opening(script), Config(Theirs(rest), Ours(SayWork), done, []))
    ensures Gets(me, script, SayWork, script)
    decreases |rest|
  {
    hide Reaches;
    if rest == [] {
      assert done == script;
    } else {
      var next := Config(Theirs(rest[1..]), Ours(SayWork), done + [rest[0]], []);
      OneMore(Against(me), Opening(script), Config(Theirs(rest), Ours(SayWork), done, []), true, next);
      assert done + [rest[0]] + rest[1..] == script;
      Said(me, script, rest[1..], done + [rest[0]]);
    }
  }

  lemma Begins(me: Me, script: seq<Msg>)
    ensures Gets(me, script, SayWork, script)
  {
    ReachesItself(Against(me), Opening(script));
    assert [] + script == script;
    Said(me, script, script, []);
  }

  lemma WeSay(me: Me, script: seq<Msg>, p: Phase, unread: seq<Msg>)
    requires Gets(me, script, p, unread) && Act(me, p).Emit?
    ensures Gets(me, script, Act(me, p).after, unread)
  {
    hide Reaches, Act;
    var out :| Reaches(Against(me), Opening(script), Config(Theirs([]), Ours(p), unread, out));
    OneMore(Against(me), Opening(script), Config(Theirs([]), Ours(p), unread, out), false,
      Config(Theirs([]), Ours(Act(me, p).after), unread, out + [Act(me, p).msg]));
  }

  lemma WeSkip(me: Me, script: seq<Msg>, p: Phase, unread: seq<Msg>)
    requires Gets(me, script, p, unread) && Act(me, p).Skip?
    ensures Gets(me, script, Act(me, p).next, unread)
  {
    hide Reaches, Act;
    var out :| Reaches(Against(me), Opening(script), Config(Theirs([]), Ours(p), unread, out));
    OneMore(Against(me), Opening(script), Config(Theirs([]), Ours(p), unread, out), false,
      Config(Theirs([]), Ours(Act(me, p).next), unread, out));
  }

  lemma WeHear(me: Me, script: seq<Msg>, p: Phase, m: Msg, unread: seq<Msg>)
    requires Gets(me, script, p, [m] + unread) && Act(me, p).Await?
    ensures Gets(me, script, Act(me, p).receive(m), unread)
  {
    hide Reaches, Act;
    var out :| Reaches(Against(me), Opening(script), Config(Theirs([]), Ours(p), [m] + unread, out));
    assert ([m] + unread)[1..] == unread;
    OneMore(Against(me), Opening(script), Config(Theirs([]), Ours(p), [m] + unread, out), false,
      Config(Theirs([]), Ours(Act(me, p).receive(m)), unread, out));
  }

  lemma Greeting(me: Me, work: HashT, blocks: seq<Block>, lca: HashT)
    requires blocks != [] && WorkOf(me.st, me.head) < work && me.st.env.hashes.BlockId(blocks[0]) !in me.st.blocks
    ensures var h := me.st.env.hashes;
      Gets(me, Script(h, work, blocks, lca), HearOffer([]), Offers(IdsOf(h, blocks)) + ([Hash(lca)] + Sends(blocks)))
  {
    hide Gets, WorkOf, QuickVerdict, HasEntity, NewEvent, RootsOf, PlusMerkle, PlusTx, Popped, Parent, BlockOf, TxOf;
    var h := me.st.env.hashes;
    var script, id := Script(h, work, blocks, lca), h.BlockId(blocks[0]);
    var rest := Offers(IdsOf(h, blocks)) + ([Hash(lca)] + Sends(blocks));
    var tail3 := [Text("sync:send")] + rest;
    var tail2 := [Text("continue")] + tail3;
    var tail1 := [Hash(id)] + tail2;
    assert script == [Hash(work)] + tail1;
    Begins(me, script);
    WeSay(me, script, SayWork, script);
    WeSay(me, script, SayHead, script);
    WeHear(me, script, HearWork, Hash(work), tail1);
    WeHear(me, script, HearHead(work), Hash(id), tail2);
    WeSay(me, script, SayIntent(work, id), tail2);
    WeHear(me, script, HearIntent(false), Text("continue"), tail3);
    WeSay(me, script, SayRole(false), tail3);
    WeHear(me, script, HearRole(false), Text("sync:send"), rest);
  }

  lemma {:induction false} HearOffers(
    me: Me, script: seq<Msg>, ids: seq<HashT>, k: nat, lca: HashT, after: seq<Msg>)
    requires k <= |ids| && ids != [] && lca in me.st.blocks && forall i :: 0 <= i < |ids| ==> ids[i] !in me.st.blocks
    requires Gets(me, script, HearOffer(ids[..k]), Offers(ids[k..]) + ([Hash(lca)] + after))
    ensures Gets(me, script, HearBlocks(ids, lca, []), after)
    decreases |ids| - k
  {
    hide Gets, WorkOf, QuickVerdict, HasEntity, NewEvent, RootsOf, PlusMerkle, PlusTx, Popped, Parent, BlockOf, TxOf;
    var rest := [Hash(lca)] + after;
    if k == |ids| {
      assert Offers(ids[k..]) + rest == rest && ids[..k] == ids;
      WeHear(me, script, HearOffer(ids), Hash(lca), after);
      WeSay(me, script, SayKnown(ids, lca), after);
    } else {
      assert Offers(ids[k..]) + rest == [Hash(ids[k])] + (Offers(ids[k + 1..]) + rest);
      WeHear(me, script, HearOffer(ids[..k]), Hash(ids[k]), Offers(ids[k + 1..]) + rest);
      assert ids[..k] + [ids[k]] == ids[..k + 1];
      WeSay(me, script, SayUnknown(ids[..k + 1]), Offers(ids[k + 1..]) + rest);
      HearOffers(me, script, ids, k + 1, lca, after);
    }
  }

  lemma {:induction false} HearSends(me: Me, script: seq<Msg>, blocks: seq<Block>, k: nat, lca: HashT)
    requires k <= |blocks| && blocks != []
    requires Gets(me, script, HearBlocks(IdsOf(me.st.env.hashes, blocks), lca, blocks[..k]), Sends(blocks[k..]))
    ensures Gets(me, script, SayVerified(IdsOf(me.st.env.hashes, blocks), lca, blocks), [])
    decreases |blocks| - k
  {
    hide Gets, WorkOf, QuickVerdict, HasEntity, NewEvent, RootsOf, PlusMerkle, PlusTx, Popped, Parent, BlockOf, TxOf;
    var ids := IdsOf(me.st.env.hashes, blocks);
    if k == |blocks| {
      assert blocks[..k] == blocks && Sends(blocks[k..]) == [];
      WeSkip(me, script, HearBlocks(ids, lca, blocks), []);
    } else {
      assert Sends(blocks[k..]) == [BlockMsg(blocks[k])] + Sends(blocks[k + 1..]);
      WeHear(me, script, HearBlocks(ids, lca, blocks[..k]), BlockMsg(blocks[k]), Sends(blocks[k + 1..]));
      assert blocks[..k] + [blocks[k]] == blocks[..k + 1];
      HearSends(me, script, blocks, k + 1, lca);
    }
  }

  /** Nothing more can happen to a peer with nothing to read. */
  predicate Stopped(me: Me, p: Phase) { Act(me, p).Halt? || Act(me, p).Await? }

  /** With nobody to answer, fetching stops at the first thing that is not here already. */
  lemma {:induction false} FetchStops(me: Me, script: seq<Msg>, f: Fetching) returns (p: Phase)
    requires Gets(me, script, Fetch(f), [])
    ensures Gets(me, script, p, []) && Stopped(me, p) && p != Finished(Crashed)
    decreases |f.queue|
  {
    hide Gets, WorkOf, QuickVerdict, HasEntity, NewEvent, RootsOf, PlusMerkle, PlusTx, Parent, BlockOf, TxOf;
    if f.queue == [] {
      WeSay(me, script, Fetch(f), []);
      WeSay(me, script, SayComplete(f), []);
      p := Act(me, SayComplete(f)).after;
    } else if HasEntity(me.st, f.queue[0]) || f.queue[0] in f.received {
      WeSkip(me, script, Fetch(f), []);
      p := FetchStops(me, script, Popped(f));
    } else {
      WeSay(me, script, Fetch(f), []);
      p := HearKind(Popped(f), f.queue[0]);
    }
  }

  /** Where the script leaves us: crashed, if and only if the blocks fail the quick checks. */
  lemma ScriptEnds(me: Me, work: HashT, blocks: seq<Block>, lca: HashT) returns (p: Phase)
    requires blocks != [] && WorkOf(me.st, me.head) < work && lca in me.st.blocks
    requires forall i :: 0 <= i < |blocks| ==> me.st.env.hashes.BlockId(blocks[i]) !in me.st.blocks
    ensures Gets(me, Script(me.st.env.hashes, work, blocks, lca), p, []) && Stopped(me, p)
    ensures p == Finished(Crashed) <==>
      QuickVerdict(me, me.st.env.hashes.BlockId(blocks[0]), lca, blocks) != Ok
  {
    hide Gets, WorkOf, QuickVerdict, HasEntity, NewEvent, RootsOf, PlusMerkle, PlusTx, Popped, Parent, BlockOf, TxOf;
    var h := me.st.env.hashes;
    var ids, script := IdsOf(h, blocks), Script(h, work, blocks, lca);
    Greeting(me, work, blocks, lca);
    assert ids[..0] == [] && ids[0..] == ids && blocks[..0] == [] && blocks[0..] == blocks;
    HearOffers(me, script, ids, 0, lca, Sends(blocks));
    HearSends(me, script, blocks, 0, lca);
    var last := SayVerified(ids, lca, blocks);
    match QuickVerdict(me, ids[0], lca, blocks)
    case Ok =>
      WeSay(me, script, last, []);
      p := FetchStops(me, script, Fetching(ids, blocks, RootsOf(blocks), {}, [], []));
    case Err =>
      WeSay(me, script, last, []);
      p := Finished(Crashed);
    case Panic =>
      WeSkip(me, script, last, []);
      p := Finished(Crashed);
  }

  /** Whoever claims more work and sends blocks that we do not have and that fail the quick checks
      crashes us, in every interleaving; with blocks that pass nothing crashes. */
  lemma LiarCrashes(me: Me, work: HashT, blocks: seq<Block>, lca: HashT) returns (end: Config<Side, Msg>)
    requires blocks != [] && WorkOf(me.st, me.head) < work && lca in me.st.blocks
    requires forall i :: 0 <= i < |blocks| ==> me.st.env.hashes.BlockId(blocks[i]) !in me.st.blocks
    ensures EndsAt(Against(me), Opening(Script(me.st.env.hashes, work, blocks, lca)), end)
    ensures end.right == Ours(Finished(Crashed)) <==>
      QuickVerdict(me, me.st.env.hashes.BlockId(blocks[0]), lca, blocks) != Ok
  {
    hide Reaches, QuickVerdict, WorkOf, Script;
    var p := ScriptEnds(me, work, blocks, lca);
    var script := Script(me.st.env.hashes, work, blocks, lca);
    var out :| Reaches(Against(me), Opening(script), Config(Theirs([]), Ours(p), [], out));
    end := Config(Theirs([]), Ours(p), [], out);
    StoppedQuiet(me, p, out);
  }

  lemma StoppedQuiet(me: Me, p: Phase, out: seq<Msg>)
    requires Stopped(me, p)
    ensures Quiet(Against(me), Config(Theirs([]), Ours(p), [], out))
  {
    hide Act;
  }

  // ---- One poor block is enough ----

  /** A block that does not attach where it is said to, or does not beat its own target, or adds too
      little. */
  predicate Poor(me: Me, b: Block) {
    || b.prevBlockId != 0
    || b.target <= me.st.env.hashes.BlockId(b)
    || TWO_256 - 1 < (WorkOf(me.st, me.head) + 1) * b.target
  }

  lemma PoorFails(me: Me, b: Block)
    requires Poor(me, b) && WorkOf(me.st, 0) == 0
    ensures QuickVerdict(me, me.st.env.hashes.BlockId(b), 0, [b]) != Ok
  {
    QuickVerdictExact(me, me.st.env.hashes.BlockId(b), 0, [b]);
    hide QuickVerdict;
    if TWO_256 - 1 < (WorkOf(me.st, me.head) + 1) * b.target {
      forall totals | AddsUp(0, [b], totals) ensures totals[1] <= WorkOf(me.st, me.head) {
        TooLittle(totals[1] - totals[0], WorkOf(me.st, me.head), b.target);
      }
    }
  }

  lemma TooLittle(work: int, ours: nat, target: HashT)
    requires work * target <= TWO_256 - 1 < (ours + 1) * target
    ensures work <= ours
  {
    if ours < work {
      Larger(ours + 1, work, target);
    }
  }

  /** Every interleaving ends, and ends with us crashed. */
  ghost predicate Crashes(me: Me, script: seq<Msg>) {
    && (exists bound :: Bounded(Against(me), Opening(script), bound))
    && forall schedule, d :: Run(Against(me), Opening(script), schedule) == Some(d) && Quiet(Against(me), d) ==>
         d.right == Ours(Finished(Crashed))
  }

  /** Every peer, unless it has all the work there can be, is crashed by one poor block that it does not
      have. */
  lemma AnyoneCrashes(me: Me, b: Block)
    requires 0 in me.st.blocks && WorkOf(me.st, 0) == 0 && WorkOf(me.st, me.head) + 1 < TWO_256
    requires me.st.env.hashes.BlockId(b) !in me.st.blocks && Poor(me, b)
    ensures Crashes(me, Script(me.st.env.hashes, WorkOf(me.st, me.head) + 1, [b], 0))
  {
    hide Reaches, QuickVerdict, WorkOf, Script, Poor, Against, Opening, Quiet, Bounded;
    PoorFails(me, b);
    var end := LiarCrashes(me, WorkOf(me.st, me.head) + 1, [b], 0);
    AllEndAlike(Against(me), Opening(Script(me.st.env.hashes, WorkOf(me.st, me.head) + 1, [b], 0)), end);
  }

  /** For one, a new node of the small network. */
  lemma NewNodeCrashes()
    ensures Crashes(Me(N.NewNode(SmallEnv()).st, 0), Script(SmallEnv().hashes, 1, [Block(8, 0, 0, 0, 9, 0)], 0))
  {
    hide Script, Crashes;
    AnyoneCrashes(Me(N.NewNode(SmallEnv()).st, 0), Block(8, 0, 0, 0, 9, 0));
  }
}
