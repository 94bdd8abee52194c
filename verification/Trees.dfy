/** The shape of stored merkle trees: which nodes lie below which, and why, where no transaction
    occurs twice, no node has two parents. */
module Trees {
  import opened Core
  import opened Forest
  import opened Rules
  import opened N = Node

  function LeftOf(st: Store, id: HashT): HashT { if id in st.merkles then st.merkles[id].merkle.lChild else 0 }

  function RightOf(st: Store, id: HashT): HashT { if id in st.merkles then st.merkles[id].merkle.rChild else 0 }

  predicate IsChild(st: Store, c: HashT, id: HashT) {
    id in st.merkles && (c == LeftOf(st, id) || c == RightOf(st, id))
  }

  /** `m` is `x` or can be reached from it within `d` steps down. */
  predicate Below(st: Store, x: HashT, m: HashT, d: nat)
    decreases d
  {
    m == x || (d > 0 && x in st.merkles && (Below(st, LeftOf(st, x), m, d - 1) || Below(st, RightOf(st, x), m, d - 1)))
  }

  // ---- Leaves ----

  lemma NodeParts(st: Store, id: HashT)
    requires WellFormed(st) && id in st.merkles
    ensures id !in st.txs && Grounded(st, id, MaxDepth(st))
    ensures Grounded(st, LeftOf(st, id), MaxDepth(st) - 1) && Grounded(st, RightOf(st, id), MaxDepth(st) - 1)
    ensures HasEntity(st, LeftOf(st, id)) && HasEntity(st, RightOf(st, id))
  {
    WellFormedSeparate(st);
    assert MerkleRecordOk(st, id);
    assert Grounded(st, id, MaxDepth(st));
    assert Grounded(st, LeftOf(st, id), MaxDepth(st) - 1);
    assert Grounded(st, RightOf(st, id), MaxDepth(st) - 1);
  }

  /** The transactions under a node are those under its children, a repeated child counting once. */
  lemma NodeLeaves(st: Store, id: HashT)
    requires WellFormed(st) && id in st.merkles
    ensures var l, r := LeftOf(st, id), RightOf(st, id);
      multiset(TxIdsUnder(st, id))
        == if l == r then multiset(TxIdsUnder(st, l)) else multiset(TxIdsUnder(st, l)) + multiset(TxIdsUnder(st, r))
  {
    NodeParts(st, id);
    WellFormedSeparate(st);
    LeavesOfChildren(st, id, MaxDepth(st));
  }

  lemma LeavesOfChildren(st: Store, id: HashT, d: nat)
    requires Separate(st) && id in st.merkles && id !in st.txs && d > 0
    requires Grounded(st, LeftOf(st, id), d - 1) && Grounded(st, RightOf(st, id), d - 1)
    ensures var l, r := LeftOf(st, id), RightOf(st, id);
      multiset(LevelOrder(st, [id], d))
        == if l == r then multiset(LevelOrder(st, [l], d))
           else multiset(LevelOrder(st, [l], d)) + multiset(LevelOrder(st, [r], d))
  {
    hide Separate, Grounded, LevelOrder;
    var l, r, cs := LeftOf(st, id), RightOf(st, id), Children(st.merkles[id].merkle);
    LevelOrderNode(st, id, d);
    ExtendsReflexive(st);
    assert AllGrounded(st, cs, d - 1);
    LevelOrderStable(st, st, cs, d - 1, d);
    if l != r {
      assert cs == [l] + [r];
      LevelOrderConcat(st, [l], [r], d);
    }
  }

  /** Sizes add up in the same way. */
  lemma NodeVSize(st: Store, id: HashT)
    requires WellFormed(st) && id in st.merkles
    ensures var l, r := LeftOf(st, id), RightOf(st, id);
      TotalVSize(st, TxIdsUnder(st, id))
        == if l == r then TotalVSize(st, TxIdsUnder(st, l))
           else TotalVSize(st, TxIdsUnder(st, l)) + TotalVSize(st, TxIdsUnder(st, r))
  {
    NodeParts(st, id);
    WellFormedSeparate(st);
    VSizeOfChildren(st, id, MaxDepth(st));
  }

  lemma VSizeOfChildren(st: Store, id: HashT, d: nat)
    requires Separate(st) && id in st.merkles && id !in st.txs && d > 0
    requires Grounded(st, LeftOf(st, id), d - 1) && Grounded(st, RightOf(st, id), d - 1)
    ensures var l, r := LeftOf(st, id), RightOf(st, id);
      TotalVSize(st, LevelOrder(st, [id], d))
        == if l == r then TotalVSize(st, LevelOrder(st, [l], d))
           else TotalVSize(st, LevelOrder(st, [l], d)) + TotalVSize(st, LevelOrder(st, [r], d))
  {
    hide Separate, Grounded, LevelOrder;
    var l, r, cs := LeftOf(st, id), RightOf(st, id), Children(st.merkles[id].merkle);
    LevelOrderNode(st, id, d);
    ExtendsReflexive(st);
    assert AllGrounded(st, cs, d - 1);
    LevelOrderStable(st, st, cs, d - 1, d);
    if l != r {
      assert cs == [l] + [r];
      LevelOrderVSizeConcat(st, [l], [r], d);
    }
  }

  lemma EntityLeaves(st: Store, id: HashT)
    requires WellFormed(st) && HasEntity(st, id)
    ensures NoDup(TxIdsUnder(st, id)) && TxIdsUnder(st, id) != []
    ensures forall t :: t in TxIdsUnder(st, id) ==> t in st.txs
  {
    EntityRead(st, id);
    LevelOrderNonEmpty(st, [id], MaxDepth(st));
    LevelOrderMembers(st, [id], MaxDepth(st));
  }

  lemma ChildLeaves(st: Store, c: HashT, id: HashT)
    requires WellFormed(st) && IsChild(st, c, id)
    ensures HasEntity(st, c) && ToSet(TxIdsUnder(st, c)) <= ToSet(TxIdsUnder(st, id))
  {
    hide WellFormed, TxIdsUnder;
    NodeParts(st, id);
    NodeLeaves(st, id);
    forall t | t in TxIdsUnder(st, c) ensures t in TxIdsUnder(st, id) {
      assert t in multiset(TxIdsUnder(st, c));
      assert t in multiset(TxIdsUnder(st, id));
    }
  }

  /** Children that share a transaction are the same child. */
  lemma SameChild(st: Store, a: HashT, b: HashT, id: HashT, t: HashT)
    requires WellFormed(st) && IsChild(st, a, id) && IsChild(st, b, id)
    requires t in TxIdsUnder(st, a) && t in TxIdsUnder(st, b)
    ensures a == b
  {
    hide WellFormed, TxIdsUnder, NoDup;
    NodeLeaves(st, id);
    EntityLeaves(st, id);
    MultisetNoDup(TxIdsUnder(st, id));
    assert multiset(TxIdsUnder(st, id))[t] <= 1;
    assert t in multiset(TxIdsUnder(st, a)) && t in multiset(TxIdsUnder(st, b));
  }

  lemma {:induction false} BelowLeaves(st: Store, x: HashT, m: HashT, d: nat)
    requires WellFormed(st) && HasEntity(st, x) && Below(st, x, m, d)
    ensures HasEntity(st, m) && ToSet(TxIdsUnder(st, m)) <= ToSet(TxIdsUnder(st, x))
    decreases d
  {
    hide WellFormed, TxIdsUnder;
    if m != x {
      var c := if Below(st, LeftOf(st, x), m, d - 1) then LeftOf(st, x) else RightOf(st, x);
      ChildLeaves(st, c, x);
      BelowLeaves(st, c, m, d - 1);
    }
  }

  // ---- No cycles ----

  /** Levels below an id. */
  function Levels(st: Store, id: HashT, d: nat): nat
    requires Grounded(st, id, d)
    decreases d
  {
    if id in st.txs then 1
    else
      var l, r := Levels(st, st.merkles[id].merkle.lChild, d - 1), Levels(st, st.merkles[id].merkle.rChild, d - 1);
      1 + if l < r then r else l
  }

  lemma {:induction false} LevelsSame(st: Store, id: HashT, d: nat, d': nat)
    requires Grounded(st, id, d) && Grounded(st, id, d')
    ensures Levels(st, id, d) == Levels(st, id, d')
    decreases d
  {
    if id !in st.txs {
      LevelsSame(st, st.merkles[id].merkle.lChild, d - 1, d' - 1);
      LevelsSame(st, st.merkles[id].merkle.rChild, d - 1, d' - 1);
    }
  }

  function Rank(st: Store, id: HashT): nat {
    if Grounded(st, id, MaxDepth(st)) then Levels(st, id, MaxDepth(st)) else 0
  }

  lemma ChildRank(st: Store, c: HashT, id: HashT)
    requires WellFormed(st) && IsChild(st, c, id)
    ensures Rank(st, c) < Rank(st, id)
  {
    var d := MaxDepth(st);
    NodeParts(st, id);
    hide WellFormed;
    ExtendsReflexive(st);
    GroundedMonotone(st, st, c, d - 1, d);
    LevelsSame(st, c, d - 1, d);
  }

  lemma {:induction false} BelowRank(st: Store, x: HashT, m: HashT, d: nat)
    requires WellFormed(st) && Below(st, x, m, d)
    ensures Rank(st, m) <= Rank(st, x)
    decreases d
  {
    hide WellFormed, Rank;
    if m != x {
      var c := if Below(st, LeftOf(st, x), m, d - 1) then LeftOf(st, x) else RightOf(st, x);
      ChildRank(st, c, x);
      BelowRank(st, c, m, d - 1);
    }
  }

  // ---- One parent each ----

  /** Nodes of one tree that share a transaction lie on one line. */
  lemma {:induction false} OneLine(st: Store, x: HashT, a: HashT, b: HashT, t: HashT, d: nat)
    requires WellFormed(st) && HasEntity(st, x)
    requires Below(st, x, a, d) && Below(st, x, b, d)
    requires t in TxIdsUnder(st, a) && t in TxIdsUnder(st, b)
    ensures Below(st, a, b, d) || Below(st, b, a, d)
    decreases d
  {
    hide WellFormed, TxIdsUnder;
    if a != x && b != x {
      var ca := if Below(st, LeftOf(st, x), a, d - 1) then LeftOf(st, x) else RightOf(st, x);
      var cb := if Below(st, LeftOf(st, x), b, d - 1) then LeftOf(st, x) else RightOf(st, x);
      ChildLeaves(st, ca, x);
      ChildLeaves(st, cb, x);
      BelowLeaves(st, ca, a, d - 1);
      BelowLeaves(st, cb, b, d - 1);
      assert t in ToSet(TxIdsUnder(st, a)) && t in ToSet(TxIdsUnder(st, b));
      SameChild(st, ca, cb, x, t);
      OneLine(st, ca, a, b, t, d - 1);
      DeeperIsFine(st, a, b, d - 1);
      DeeperIsFine(st, b, a, d - 1);
    }
  }

  lemma {:induction false} DeeperIsFine(st: Store, x: HashT, m: HashT, d: nat)
    ensures Below(st, x, m, d) ==> Below(st, x, m, d + 1)
    decreases d
  {
    if d > 0 {
      DeeperIsFine(st, LeftOf(st, x), m, d - 1);
      DeeperIsFine(st, RightOf(st, x), m, d - 1);
    }
  }

  /** A child is not above its parent, ... */
  lemma NotAboveParent(st: Store, c: HashT, m: HashT, d: nat)
    requires WellFormed(st) && IsChild(st, c, m)
    ensures !Below(st, c, m, d)
  {
    if Below(st, c, m, d) {
      ChildRank(st, c, m);
      BelowRank(st, c, m, d);
    }
  }

  /** ... and so, of two parents on one line, neither is lower. */
  lemma LowerParent(st: Store, a: HashT, b: HashT, c: HashT, d: nat)
    requires WellFormed(st) && IsChild(st, c, a) && IsChild(st, c, b) && Below(st, a, b, d)
    ensures a == b
  {
    hide WellFormed, TxIdsUnder;
    if a != b {
      var x := if Below(st, LeftOf(st, a), b, d - 1) then LeftOf(st, a) else RightOf(st, a);
      ChildLeaves(st, c, b);
      ChildLeaves(st, x, a);
      BelowLeaves(st, x, b, d - 1);
      EntityLeaves(st, c);
      var t := TxIdsUnder(st, c)[0];
      assert t in ToSet(TxIdsUnder(st, c)) && t in ToSet(TxIdsUnder(st, x));
      SameChild(st, c, x, a, t);
      NotAboveParent(st, c, b, d - 1);
    }
  }

  lemma OneParent(st: Store, x: HashT, a: HashT, b: HashT, c: HashT, d: nat)
    requires WellFormed(st) && HasEntity(st, x)
    requires Below(st, x, a, d) && Below(st, x, b, d)
    requires IsChild(st, c, a) && IsChild(st, c, b)
    ensures a == b
  {
    hide WellFormed, TxIdsUnder, Below, IsChild;
    ChildLeaves(st, c, a);
    ChildLeaves(st, c, b);
    EntityLeaves(st, c);
    var t := TxIdsUnder(st, c)[0];
    assert t in ToSet(TxIdsUnder(st, c)) && t in ToSet(TxIdsUnder(st, a)) && t in ToSet(TxIdsUnder(st, b));
    OneLine(st, x, a, b, t, d);
    if Below(st, a, b, d) {
      LowerParent(st, a, b, c, d);
    } else {
      LowerParent(st, b, a, c, d);
    }
  }
}
