/** What two honest peers say to each other, word by word, when one has a block that the other lacks.
    Each is put against a script of what the other says, so neither can take the other's habits for
    granted. */
module Transcript {
  import opened Core
  import opened Forest
  import opened Target
  import opened Rules
  import opened Ancestry
  import N = Node
  import opened Network
  import opened Sync
  import opened Lying
  import opened Scenarios
  import SyncScenario

  /** Having heard the first `k` of their words we have said the first `j` of ours. */
  ghost predicate Stands(me: Me, theirs: seq<Msg>, ours: seq<Msg>, k: nat, j: nat, p: Phase)
    requires k <= |theirs| && j <= |ours|
  {
    Reaches(Against(me), Opening(theirs), Config(Theirs([]), Ours(p), theirs[k..], ours[..j]))
  }

  lemma {:induction false} Recited(me: Me, theirs: seq<Msg>, i: nat)
    requires i <= |theirs|
    ensures Reaches(Against(me), Opening(theirs), Config(Theirs(theirs[i..]), Ours(SayWork), theirs[..i], []))
  {
    if i == 0 {
      ReachesItself(Against(me), Opening(theirs));
      assert theirs[0..] == theirs && theirs[..0] == [];
    } else {
      Recited(me, theirs, i - 1);
      hide Reaches;
      assert theirs[i - 1..][1..] == theirs[i..] && theirs[..i - 1] + [theirs[i - 1]] == theirs[..i];
      OneMore(Against(me), Opening(theirs), Config(Theirs(theirs[i - 1..]), Ours(SayWork), theirs[..i - 1], []), true,
        Config(Theirs(theirs[i..]), Ours(SayWork), theirs[..i], []));
    }
  }

  lemma Begin(me: Me, theirs: seq<Msg>, ours: seq<Msg>)
    ensures Stands(me, theirs, ours, 0, 0, SayWork)
  {
    Recited(me, theirs, |theirs|);
    assert theirs[|theirs|..] == [] && theirs[..|theirs|] == theirs && theirs[0..] == theirs && ours[..0] == [];
  }

  lemma Say(me: Me, theirs: seq<Msg>, ours: seq<Msg>, k: nat, j: nat, p: Phase)
    requires k <= |theirs| && j < |ours| && Stands(me, theirs, ours, k, j, p)
    requires Act(me, p).Emit? && Act(me, p).msg == ours[j]
    ensures Stands(me, theirs, ours, k, j + 1, Act(me, p).after)
  {
    hide Reaches, Act;
    assert ours[..j] + [ours[j]] == ours[..j + 1];
    OneMore(Against(me), Opening(theirs), Config(Theirs([]), Ours(p), theirs[k..], ours[..j]), false,
      Config(Theirs([]), Ours(Act(me, p).after), theirs[k..], ours[..j + 1]));
  }

  lemma Pass(me: Me, theirs: seq<Msg>, ours: seq<Msg>, k: nat, j: nat, p: Phase)
    requires k <= |theirs| && j <= |ours| && Stands(me, theirs, ours, k, j, p) && Act(me, p).Skip?
    ensures Stands(me, theirs, ours, k, j, Act(me, p).next)
  {
    hide Reaches, Act;
    OneMore(Against(me), Opening(theirs), Config(Theirs([]), Ours(p), theirs[k..], ours[..j]), false,
      Config(Theirs([]), Ours(Act(me, p).next), theirs[k..], ours[..j]));
  }

  lemma Hear(me: Me, theirs: seq<Msg>, ours: seq<Msg>, k: nat, j: nat, p: Phase, m: Msg)
    requires k < |theirs| && j <= |ours| && Stands(me, theirs, ours, k, j, p)
    requires Act(me, p).Await? && theirs[k] == m
    ensures Stands(me, theirs, ours, k + 1, j, Act(me, p).receive(m))
  {
    hide Reaches, Act;
    assert theirs[k..][1..] == theirs[k + 1..] && theirs[k..][0] == theirs[k];
    OneMore(Against(me), Opening(theirs), Config(Theirs([]), Ours(p), theirs[k..], ours[..j]), false,
      Config(Theirs([]), Ours(Act(me, p).receive(m)), theirs[k + 1..], ours[..j]));
  }

  // ---- The words ----

  predicate SenderSays(ws: seq<Msg>, work: HashT, b: Block) {
    && |ws| == 11
    && ws[0] == Hash(work) && ws[1] == Hash(1) && ws[2] == Text("continue") && ws[3] == Text("sync:send")
    && ws[4] == Hash(1) && ws[5] == Hash(0) && ws[6] == BlockMsg(b)
    && ws[7] == Flag(false) && ws[8] == MerkleMsg(MerkleNode(3, 3))
    && ws[9] == Flag(true) && ws[10] == TxMsg(Reward(1, 50, 1))
  }

  predicate ReceiverSays(ws: seq<Msg>) {
    && |ws| == 11
    && ws[0] == Hash(0) && ws[1] == Hash(0) && ws[2] == Text("continue") && ws[3] == Text("sync:recv")
    && ws[4] == Flag(false) && ws[5] == Flag(true) && ws[6] == Flag(true)
    && ws[7] == Hash(6006) && ws[8] == Hash(3) && ws[9] == Hash(0) && ws[10] == Text("complete")
  }

  /** Both sides: a node with the first reward block and a new one. */
  ghost predicate Sides(s: Me, r: Me) {
    && s.head == 1 && SyncScenario.RewardsStored(s.st, 1)
    && BlockOf(s.st, 1).prevBlockId == 0 && SmallEnv().hashes.BlockId(BlockOf(s.st, 1)) == 1
    && r == Me(N.NewNode(SmallEnv()).st, 0)
  }

  /** Such sides come out of a run. */
  lemma SidesMet()
    ensures SmallEnv().params.Verified()
    ensures var n := N.HandleHead(N.NewNode(SmallEnv()), SyncScenario.RewardNext(0), 0).0;
      Sides(Me(n.st, n.head), Me(N.NewNode(SmallEnv()).st, 0))
  {
    hide N.HandleHead, SyncScenario.AtReward, SmallEnv;
    SyncScenario.NothingYet();
    SyncScenario.NextRewardTaken(N.NewNode(SmallEnv()), 0);
    var n := N.HandleHead(N.NewNode(SmallEnv()), SyncScenario.RewardNext(0), 0).0;
    RewardSide(n);
  }

  lemma RewardSide(n: N.Node)
    requires SyncScenario.AtReward(n, 1)
    ensures Sides(Me(n.st, n.head), Me(N.NewNode(SmallEnv()).st, 0))
  {
    hide WellFormed, TargetToWork;
    BlockFacts(n.st, 1);
    assert SyncScenario.RewardAt(n.st, 1);
  }

  /** What that means for them. */
  ghost predicate Facts(s: Me, r: Me, b: Block) {
    && s.st.env == SmallEnv() && r.st.env == SmallEnv() && s.head == 1 && r.head == 0
    && BlockOf(s.st, 1) == b && Parent(s.st, 1) == 0 && b.merkleRoot == 6006
    && SmallEnv().hashes.BlockId(b) == 1 && SmallEnv().hashes.merkle(MerkleNode(3, 3)) == 6006
    && SmallEnv().hashes.tx(Reward(1, 50, 1)) == 3
    && WorkOf(s.st, 1) == TargetToWork(EASIEST) > 0 && WorkOf(r.st, 0) == 0
    && 0 in r.st.blocks && 1 !in r.st.blocks && QuickVerdict(r, 1, 0, [b]) == Ok
    && !HasEntity(r.st, 6006) && !HasEntity(r.st, 3) && HasEntity(s.st, 6006) && HasEntity(s.st, 3)
    && 6006 in s.st.merkles && s.st.merkles[6006].merkle == MerkleNode(3, 3)
    && 3 !in s.st.merkles && TxOf(s.st, 3) == Reward(1, 50, 1)
  }

  lemma SidesFacts(s: Me, r: Me)
    requires Sides(s, r)
    ensures Facts(s, r, BlockOf(s.st, 1))
  {
    var b := BlockOf(s.st, 1);
    LineWork(0);
    assert TargetToWork(EASIEST) > 0;
    hide TargetToWork;
    assert SyncScenario.RewardAt(s.st, 1);
    assert [b][..0] == [];
    assert AppendWork(0, [b][..0]) == Some(0);
  }

  lemma ReceiverGreets(r: Me, work: HashT, theirs: seq<Msg>, ours: seq<Msg>)
    requires |theirs| == 11 && |ours| == 11
    requires ours[0] == Hash(0) && ours[1] == Hash(0) && theirs[0] == Hash(work) && theirs[1] == Hash(1)
    requires r.head == 0 && WorkOf(r.st, 0) == 0
    ensures Stands(r, theirs, ours, 2, 2, SayIntent(work, 1))
  {
    hide Stands, WorkOf, QuickVerdict, HasEntity, BlockOf, TargetToWork, NewEvent, RootsOf, PlusMerkle,
      PlusTx, Popped, TxOf, Reward, Parent;
    Begin(r, theirs, ours);
    Say(r, theirs, ours, 0, 0, SayWork);
    Say(r, theirs, ours, 0, 1, SayHead);
    Hear(r, theirs, ours, 0, 2, HearWork, Hash(work));
    Hear(r, theirs, ours, 1, 2, HearHead(work), Hash(1));
  }

  lemma ReceiverAgrees(r: Me, work: HashT, theirs: seq<Msg>, ours: seq<Msg>)
    requires |theirs| == 11 && |ours| == 11
    requires ours[2] == Text("continue") && theirs[2] == Text("continue") && ours[3] == Text("sync:recv")
    requires theirs[3] == Text("sync:send")
    requires r.head == 0 && WorkOf(r.st, 0) == 0 && 0 < work && 1 !in r.st.blocks
    requires Stands(r, theirs, ours, 2, 2, SayIntent(work, 1))
    ensures Stands(r, theirs, ours, 4, 4, HearOffer([]))
  {
    hide Stands, WorkOf, QuickVerdict, HasEntity, BlockOf, TargetToWork, NewEvent, RootsOf, PlusMerkle,
      PlusTx, Popped, TxOf, Reward, Parent;
    Say(r, theirs, ours, 2, 2, SayIntent(work, 1));
    Hear(r, theirs, ours, 2, 3, HearIntent(false), Text("continue"));
    Say(r, theirs, ours, 3, 3, SayRole(false));
    Hear(r, theirs, ours, 3, 4, HearRole(false), Text("sync:send"));
  }

  lemma ReceiverLooks(r: Me, theirs: seq<Msg>, ours: seq<Msg>)
    requires |theirs| == 11 && |ours| == 11
    requires theirs[4] == Hash(1) && ours[4] == Flag(false) && theirs[5] == Hash(0) && ours[5] == Flag(true)
    requires 0 in r.st.blocks && 1 !in r.st.blocks
    requires Stands(r, theirs, ours, 4, 4, HearOffer([]))
    ensures Stands(r, theirs, ours, 6, 6, HearBlocks([1], 0, []))
  {
    hide Stands, WorkOf, QuickVerdict, HasEntity, BlockOf, TargetToWork, NewEvent, RootsOf, PlusMerkle,
      PlusTx, Popped, TxOf, Reward, Parent;
    Hear(r, theirs, ours, 4, 4, HearOffer([]), Hash(1));
    assert [] + [1] == [1];
    Say(r, theirs, ours, 5, 4, SayUnknown([1]));
    Hear(r, theirs, ours, 5, 5, HearOffer([1]), Hash(0));
    Say(r, theirs, ours, 6, 5, SayKnown([1], 0));
  }

  lemma ReceiverChecks(r: Me, b: Block, theirs: seq<Msg>, ours: seq<Msg>)
    requires |theirs| == 11 && |ours| == 11
    requires theirs[6] == BlockMsg(b) && ours[6] == Flag(true)
    requires r.st.env.hashes.BlockId(b) == 1 && QuickVerdict(r, 1, 0, [b]) == Ok && b.merkleRoot == 6006
    requires Stands(r, theirs, ours, 6, 6, HearBlocks([1], 0, []))
    ensures Stands(r, theirs, ours, 7, 7, Fetch(Fetching([1], [b], [6006], {}, [], [])))
  {
    hide Stands, WorkOf, QuickVerdict, HasEntity, BlockOf, TargetToWork, NewEvent, PlusMerkle,
      PlusTx, Popped, TxOf, Reward, Parent;
    Hear(r, theirs, ours, 6, 6, HearBlocks([1], 0, []), BlockMsg(b));
    assert [] + [b] == [b] && RootsOf([b]) == [6006];
    Pass(r, theirs, ours, 7, 6, HearBlocks([1], 0, [b]));
    Say(r, theirs, ours, 7, 6, SayVerified([1], 0, [b]));
  }

  lemma ReceiverAsks(r: Me, b: Block, theirs: seq<Msg>, ours: seq<Msg>)
    requires |theirs| == 11 && |ours| == 11
    requires ours[7] == Hash(6006) && theirs[7] == Flag(false) && theirs[8] == MerkleMsg(MerkleNode(3, 3))
    requires !HasEntity(r.st, 6006) && r.st.env.hashes.merkle(MerkleNode(3, 3)) == 6006
    requires Stands(r, theirs, ours, 7, 7, Fetch(Fetching([1], [b], [6006], {}, [], [])))
    ensures Stands(r, theirs, ours, 9, 8, Fetch(Fetching([1], [b], [3, 3], {6006}, [MerkleNode(3, 3)], [])))
  {
    hide Stands, WorkOf, QuickVerdict, HasEntity, BlockOf, TargetToWork, NewEvent, RootsOf,
      TxOf, Reward, Parent;
    var f0, f1 := Fetching([1], [b], [6006], {}, [], []), Fetching([1], [b], [], {}, [], []);
    Say(r, theirs, ours, 7, 7, Fetch(f0));
    assert Popped(f0) == f1;
    Hear(r, theirs, ours, 7, 8, HearKind(f1, 6006), Flag(false));
    Hear(r, theirs, ours, 8, 8, HearEntity(f1, 6006, false), MerkleMsg(MerkleNode(3, 3)));
    assert PlusMerkle(f1, 6006, MerkleNode(3, 3))
        == Fetching([1], [b], [3, 3], {6006}, [MerkleNode(3, 3)], []);
  }

  lemma ReceiverFetches(r: Me, b: Block, theirs: seq<Msg>, ours: seq<Msg>)
    requires |theirs| == 11 && |ours| == 11
    requires ours[8] == Hash(3) && theirs[9] == Flag(true) && theirs[10] == TxMsg(Reward(1, 50, 1))
    requires !HasEntity(r.st, 3) && r.st.env.hashes.tx(Reward(1, 50, 1)) == 3
    requires Stands(r, theirs, ours, 9, 8, Fetch(Fetching([1], [b], [3, 3], {6006}, [MerkleNode(3, 3)], [])))
    ensures Stands(r, theirs, ours, 11, 9, Fetch(
      Fetching([1], [b], [3], {6006, 3}, [MerkleNode(3, 3)], [Reward(1, 50, 1)])))
  {
    hide Stands, WorkOf, QuickVerdict, HasEntity, BlockOf, TargetToWork, NewEvent, RootsOf,
      TxOf, Reward, Parent;
    var f2 := Fetching([1], [b], [3, 3], {6006}, [MerkleNode(3, 3)], []);
    var f3 := Fetching([1], [b], [3], {6006}, [MerkleNode(3, 3)], []);
    Say(r, theirs, ours, 9, 8, Fetch(f2));
    assert Popped(f2) == f3;
    Hear(r, theirs, ours, 9, 9, HearKind(f3, 3), Flag(true));
    Hear(r, theirs, ours, 10, 9, HearEntity(f3, 3, true), TxMsg(Reward(1, 50, 1)));
    assert PlusTx(f3, 3, Reward(1, 50, 1))
        == Fetching([1], [b], [3], {6006, 3}, [MerkleNode(3, 3)], [Reward(1, 50, 1)]);
  }

  lemma ReceiverEnds(r: Me, b: Block, theirs: seq<Msg>, ours: seq<Msg>)
    requires |theirs| == 11 && |ours| == 11
    requires ours[9] == Hash(0) && ours[10] == Text("complete")
    requires Stands(r, theirs, ours, 11, 9, Fetch(
      Fetching([1], [b], [3], {6006, 3}, [MerkleNode(3, 3)], [Reward(1, 50, 1)])))
    ensures Stands(r, theirs, ours, 11, 11, Finished(Received(
      N.HeadEvent(1, [b], [MerkleNode(3, 3)], [Reward(1, 50, 1)], false))))
  {
    hide Stands, WorkOf, QuickVerdict, HasEntity, BlockOf, TargetToWork, RootsOf,
      TxOf, Reward, Parent;
    var f4 := Fetching([1], [b], [3], {6006, 3}, [MerkleNode(3, 3)], [Reward(1, 50, 1)]);
    var f5 := Fetching([1], [b], [], {6006, 3}, [MerkleNode(3, 3)], [Reward(1, 50, 1)]);
    Pass(r, theirs, ours, 11, 9, Fetch(f4));
    assert Popped(f4) == f5;
    Say(r, theirs, ours, 11, 9, Fetch(f5));
    Say(r, theirs, ours, 11, 10, SayComplete(f5));
    assert Reverse([b]) == [b] && Reverse([MerkleNode(3, 3)]) == [MerkleNode(3, 3)];
    assert Reverse([Reward(1, 50, 1)]) == [Reward(1, 50, 1)];
  }

  /** The side that lacks the block: it ends with the event that its chain is handed. */
  lemma ReceiverTranscript(s: Me, r: Me, b: Block, theirs: seq<Msg>, ours: seq<Msg>)
    requires Sides(s, r) && BlockOf(s.st, 1) == b
    requires SenderSays(theirs, TargetToWork(EASIEST), b) && ReceiverSays(ours)
    ensures Stands(r, theirs, ours, 11, 11, Finished(Received(
      N.HeadEvent(1, [b], [MerkleNode(3, 3)], [Reward(1, 50, 1)], false))))
  {
    SidesFacts(s, r);
    hide Stands, Sides, WorkOf, QuickVerdict, HasEntity, BlockOf, TargetToWork, SmallEnv, Reward;
    var work := TargetToWork(EASIEST);
    ReceiverGreets(r, work, theirs, ours);
    ReceiverAgrees(r, work, theirs, ours);
    ReceiverLooks(r, theirs, ours);
    ReceiverChecks(r, b, theirs, ours);
    ReceiverAsks(r, b, theirs, ours);
    ReceiverFetches(r, b, theirs, ours);
    ReceiverEnds(r, b, theirs, ours);
  }

  lemma SenderGreets(s: Me, work: HashT, theirs: seq<Msg>, ours: seq<Msg>)
    requires |theirs| == 11 && |ours| == 11
    requires ours[0] == Hash(work) && ours[1] == Hash(1) && theirs[0] == Hash(0) && theirs[1] == Hash(0)
    requires s.head == 1 && WorkOf(s.st, 1) == work
    ensures Stands(s, theirs, ours, 2, 2, SayIntent(0, 0))
  {
    hide Stands, WorkOf, QuickVerdict, HasEntity, BlockOf, TargetToWork, NewEvent, RootsOf, PlusMerkle,
      PlusTx, Popped, TxOf, Reward, Parent;
    Begin(s, theirs, ours);
    Say(s, theirs, ours, 0, 0, SayWork);
    Say(s, theirs, ours, 0, 1, SayHead);
    Hear(s, theirs, ours, 0, 2, HearWork, Hash(0));
    Hear(s, theirs, ours, 1, 2, HearHead(0), Hash(0));
  }

  lemma SenderAgrees(s: Me, theirs: seq<Msg>, ours: seq<Msg>)
    requires |theirs| == 11 && |ours| == 11
    requires ours[2] == Text("continue") && theirs[2] == Text("continue") && ours[3] == Text("sync:send")
    requires theirs[3] == Text("sync:recv")
    requires s.head == 1 && 0 < WorkOf(s.st, 1)
    requires Stands(s, theirs, ours, 2, 2, SayIntent(0, 0))
    ensures Stands(s, theirs, ours, 4, 4, Offer([], 1))
  {
    hide Stands, WorkOf, QuickVerdict, HasEntity, BlockOf, TargetToWork, NewEvent, RootsOf, PlusMerkle,
      PlusTx, Popped, TxOf, Reward, Parent;
    Say(s, theirs, ours, 2, 2, SayIntent(0, 0));
    Hear(s, theirs, ours, 2, 3, HearIntent(true), Text("continue"));
    Say(s, theirs, ours, 3, 3, SayRole(true));
    Hear(s, theirs, ours, 3, 4, HearRole(true), Text("sync:recv"));
  }

  lemma SenderOffers(s: Me, theirs: seq<Msg>, ours: seq<Msg>)
    requires |theirs| == 11 && |ours| == 11
    requires ours[4] == Hash(1) && theirs[4] == Flag(false) && ours[5] == Hash(0) && theirs[5] == Flag(true)
    requires Parent(s.st, 1) == 0
    requires Stands(s, theirs, ours, 4, 4, Offer([], 1))
    ensures Stands(s, theirs, ours, 6, 6, SendBlocks([1], [1]))
  {
    hide Stands, WorkOf, QuickVerdict, HasEntity, BlockOf, TargetToWork, NewEvent, RootsOf, PlusMerkle,
      PlusTx, Popped, TxOf, Reward, Parent;
    Say(s, theirs, ours, 4, 4, Offer([], 1));
    Hear(s, theirs, ours, 4, 5, HearKnown([], 1), Flag(false));
    assert [] + [1] == [1];
    Say(s, theirs, ours, 5, 5, Offer([1], 0));
    Hear(s, theirs, ours, 5, 6, HearKnown([1], 0), Flag(true));
  }

  lemma SenderSends(s: Me, b: Block, theirs: seq<Msg>, ours: seq<Msg>)
    requires |theirs| == 11 && |ours| == 11
    requires ours[6] == BlockMsg(b) && theirs[6] == Flag(true) && theirs[7] == Hash(6006)
    requires BlockOf(s.st, 1) == b && HasEntity(s.st, 6006)
    requires Stands(s, theirs, ours, 6, 6, SendBlocks([1], [1]))
    ensures Stands(s, theirs, ours, 8, 7, SayKind([1], 6006))
  {
    hide Stands, WorkOf, QuickVerdict, HasEntity, BlockOf, TargetToWork, NewEvent, RootsOf, PlusMerkle,
      PlusTx, Popped, TxOf, Reward, Parent;
    Say(s, theirs, ours, 6, 6, SendBlocks([1], [1]));
    assert [1][1..] == [];
    Pass(s, theirs, ours, 6, 7, SendBlocks([1], []));
    Hear(s, theirs, ours, 6, 7, HearVerified([1]), Flag(true));
    Hear(s, theirs, ours, 7, 7, HearWanted([1]), Hash(6006));
  }

  lemma SenderAnswers(s: Me, theirs: seq<Msg>, ours: seq<Msg>)
    requires |theirs| == 11 && |ours| == 11
    requires ours[7] == Flag(false) && ours[8] == MerkleMsg(MerkleNode(3, 3)) && theirs[8] == Hash(3)
    requires 6006 in s.st.merkles && s.st.merkles[6006].merkle == MerkleNode(3, 3) && HasEntity(s.st, 3)
    requires Stands(s, theirs, ours, 8, 7, SayKind([1], 6006))
    ensures Stands(s, theirs, ours, 9, 9, SayKind([1], 3))
  {
    hide Stands, WorkOf, QuickVerdict, HasEntity, BlockOf, TargetToWork, NewEvent, RootsOf, PlusMerkle,
      PlusTx, Popped, TxOf, Reward, Parent;
    Say(s, theirs, ours, 8, 7, SayKind([1], 6006));
    Say(s, theirs, ours, 8, 8, SayEntity([1], 6006));
    Hear(s, theirs, ours, 8, 9, HearWanted([1]), Hash(3));
  }

  lemma SenderEnds(s: Me, theirs: seq<Msg>, ours: seq<Msg>)
    requires |theirs| == 11 && |ours| == 11
    requires ours[9] == Flag(true) && ours[10] == TxMsg(Reward(1, 50, 1)) && theirs[9] == Hash(0)
    requires theirs[10] == Text("complete")
    requires 3 !in s.st.merkles && TxOf(s.st, 3) == Reward(1, 50, 1)
    requires Stands(s, theirs, ours, 9, 9, SayKind([1], 3))
    ensures Stands(s, theirs, ours, 11, 11, Finished(Sent([1])))
  {
    hide Stands, WorkOf, QuickVerdict, HasEntity, BlockOf, TargetToWork, NewEvent, RootsOf, PlusMerkle,
      PlusTx, Popped, TxOf, Reward, Parent;
    Say(s, theirs, ours, 9, 9, SayKind([1], 3));
    Say(s, theirs, ours, 9, 10, SayEntity([1], 3));
    Hear(s, theirs, ours, 9, 11, HearWanted([1]), Hash(0));
    Hear(s, theirs, ours, 10, 11, HearComplete([1]), Text("complete"));
  }

  /** The side that has it. */
  lemma SenderTranscript(s: Me, r: Me, b: Block, theirs: seq<Msg>, ours: seq<Msg>)
    requires Sides(s, r) && BlockOf(s.st, 1) == b
    requires ReceiverSays(theirs) && SenderSays(ours, TargetToWork(EASIEST), b)
    ensures Stands(s, theirs, ours, 11, 11, Finished(Sent([1])))
  {
    SidesFacts(s, r);
    hide Stands, Sides, WorkOf, QuickVerdict, HasEntity, BlockOf, TargetToWork, SmallEnv, Reward;
    SenderGreets(s, TargetToWork(EASIEST), theirs, ours);
    SenderAgrees(s, theirs, ours);
    SenderOffers(s, theirs, ours);
    SenderSends(s, b, theirs, ours);
    SenderAnswers(s, theirs, ours);
    SenderEnds(s, theirs, ours);
  }
}
