/** Ancestors in the block tree. */
module Ancestry {
  import opened Core
  import opened Forest
  import opened Target
  import opened Rules

  /** What the block map of a well-formed inventory is: a tree rooted at the zero block, in which
      total work grows downwards. */
  ghost predicate Tree(st: Store) {
    && 0 in st.blocks
    && HeightOf(st, 0) == 0
    && forall id :: id in st.blocks && id != 0 ==> Linked(st, id) && WorkOf(st, Parent(st, id)) < WorkOf(st, id)
  }

  lemma WellFormedTree(st: Store)
    requires WellFormed(st)
    ensures Tree(st)
  {
    assert BlockRecordOk(st, 0);
    forall id | id in st.blocks && id != 0
      ensures Linked(st, id) && WorkOf(st, Parent(st, id)) < WorkOf(st, id)
    {
      assert BlockRecordOk(st, id);
      PositiveWork(st.blocks[id].block.target);
    }
  }

  /** What the record of a stored block says. */
  lemma BlockFacts(st: Store, id: HashT)
    requires WellFormed(st) && id in st.blocks && id != 0
    ensures Linked(st, id) && st.env.hashes.BlockId(BlockOf(st, id)) == id && id < BlockOf(st, id).target
    ensures WorkOf(st, id) == WorkOf(st, Parent(st, id)) + TargetToWork(BlockOf(st, id).target)
  {
    assert BlockRecordOk(st, id);
  }

  lemma PositiveWork(target: HashT)
    requires target > 0
    ensures TargetToWork(target) >= 1
  {
  }

  predicate Ancestor(st: Store, a: HashT, b: HashT)
    decreases HeightOf(st, b)
  {
    a == b || (Linked(st, b) && Ancestor(st, a, Parent(st, b)))
  }

  lemma AncestorBelow(st: Store, a: HashT, b: HashT)
    requires Tree(st) && b in st.blocks && Ancestor(st, a, b)
    ensures a in st.blocks
    ensures HeightOf(st, a) <= HeightOf(st, b)
    ensures WorkOf(st, a) <= WorkOf(st, b)
    ensures a != b ==> HeightOf(st, a) < HeightOf(st, b) && WorkOf(st, a) < WorkOf(st, b)
    decreases HeightOf(st, b)
  {
    if a != b {
      AncestorBelow(st, a, Parent(st, b));
    }
  }

  lemma ZeroAncestor(st: Store, b: HashT)
    requires Tree(st) && b in st.blocks
    ensures Ancestor(st, 0, b)
    decreases HeightOf(st, b)
  {
    if b != 0 {
      ZeroAncestor(st, Parent(st, b));
    }
  }

  lemma AncestorTransitive(st: Store, a: HashT, b: HashT, c: HashT)
    requires Ancestor(st, a, b) && Ancestor(st, b, c)
    ensures Ancestor(st, a, c)
    decreases HeightOf(st, c)
  {
    if b != c {
      AncestorTransitive(st, a, b, Parent(st, c));
    }
  }

  /** Two ancestors of one block lie on one line. */
  lemma AncestorsOrdered(st: Store, a: HashT, b: HashT, c: HashT)
    requires Tree(st) && c in st.blocks
    requires Ancestor(st, a, c) && Ancestor(st, b, c) && HeightOf(st, a) <= HeightOf(st, b)
    ensures Ancestor(st, a, b)
    decreases HeightOf(st, c)
  {
    AncestorBelow(st, a, c);
    AncestorBelow(st, b, c);
    if b != c {
      AncestorsOrdered(st, a, b, Parent(st, c));
    }
  }

  /** The last common ancestor: every common ancestor is an ancestor of it. */
  ghost predicate IsLca(st: Store, l: HashT, a: HashT, b: HashT) {
    && Ancestor(st, l, a) && Ancestor(st, l, b)
    && forall c :: Ancestor(st, c, a) && Ancestor(st, c, b) ==> Ancestor(st, c, l)
  }

  lemma LcaUnique(st: Store, l: HashT, l': HashT, a: HashT, b: HashT)
    requires Tree(st) && a in st.blocks && IsLca(st, l, a, b) && IsLca(st, l', a, b)
    ensures l == l'
  {
    AncestorBelow(st, l, a);
    AncestorBelow(st, l', a);
    AncestorBelow(st, l, l');
    AncestorBelow(st, l', l);
  }

  /** Moving the higher of two blocks to its parent keeps their common ancestors. */
  lemma StepCommonAncestor(st: Store, a: HashT, b: HashT)
    requires Tree(st) && a in st.blocks && b in st.blocks && a != 0
    requires HeightOf(st, a) > HeightOf(st, b)
    ensures forall c ::
      Ancestor(st, c, a) && Ancestor(st, c, b) <==> Ancestor(st, c, Parent(st, a)) && Ancestor(st, c, b)
  {
    forall c | Ancestor(st, c, a) && Ancestor(st, c, b) ensures Ancestor(st, c, Parent(st, a)) {
      AncestorBelow(st, c, b);
    }
  }

  lemma StepBothCommonAncestor(st: Store, a: HashT, b: HashT)
    requires Tree(st) && a in st.blocks && b in st.blocks && a != b
    requires HeightOf(st, a) == HeightOf(st, b)
    ensures a != 0 && b != 0
    ensures forall c :: Ancestor(st, c, a) && Ancestor(st, c, b)
              <==> Ancestor(st, c, Parent(st, a)) && Ancestor(st, c, Parent(st, b))
  {
    forall c | Ancestor(st, c, a) && Ancestor(st, c, b)
      ensures Ancestor(st, c, Parent(st, a)) && Ancestor(st, c, Parent(st, b))
    {
      AncestorBelow(st, c, a);
      AncestorBelow(st, c, b);
    }
  }

  /** The blocks from `b` up to but without `until`, from the top. */
  function Path(st: Store, b: HashT, until: HashT): seq<HashT>
    decreases HeightOf(st, b)
  {
    if b == until || !Linked(st, b) then [] else [b] + Path(st, Parent(st, b), until)
  }

  /** The path is exactly the blocks between, its length their difference in height. */
  lemma {:induction false} PathExact(st: Store, b: HashT, until: HashT)
    requires Tree(st) && b in st.blocks && Ancestor(st, until, b)
    ensures |Path(st, b, until)| == HeightOf(st, b) - HeightOf(st, until)
    ensures forall c :: c in Path(st, b, until) <==> Ancestor(st, c, b) && Ancestor(st, until, c) && c != until
    decreases HeightOf(st, b)
  {
    AncestorBelow(st, until, b);
    if b != until {
      var p := Parent(st, b);
      PathExact(st, p, until);
      forall c ensures c in Path(st, b, until) <==> Ancestor(st, c, b) && Ancestor(st, until, c) && c != until {
        assert c in Path(st, b, until) <==> c == b || c in Path(st, p, until);
      }
    } else {
      forall c | Ancestor(st, c, b) && Ancestor(st, until, c) ensures c == until {
        AncestorBelow(st, c, b);
        AncestorBelow(st, until, c);
      }
    }
  }

  lemma PathStep(st: Store, b: HashT, until: HashT)
    requires Tree(st) && b in st.blocks && Ancestor(st, until, b)
    ensures b == until <==> Path(st, b, until) == []
    ensures b != until ==>
              && Linked(st, b) && Ancestor(st, until, Parent(st, b))
              && Path(st, b, until) == [b] + Path(st, Parent(st, b), until)
  {
  }

  /** A heavier block is not an ancestor of a lighter one. */
  lemma HeavierNotAncestor(st: Store, a: HashT, b: HashT)
    requires Tree(st) && b in st.blocks && WorkOf(st, b) < WorkOf(st, a)
    ensures !Ancestor(st, a, b)
  {
    if Ancestor(st, a, b) {
      AncestorBelow(st, a, b);
    }
  }

  lemma AncestorStable(st: Store, st': Store, a: HashT, b: HashT)
    requires Tree(st) && Extends(st, st') && b in st.blocks
    ensures Ancestor(st', a, b) <==> Ancestor(st, a, b)
    decreases HeightOf(st, b)
  {
    if a != b && b != 0 {
      assert Linked(st, b) && Linked(st', b);
      AncestorStable(st, st', a, Parent(st, b));
    } else if a != b {
      assert st'.blocks[0] == st.blocks[0];
    }
  }

  /** The sum over the chain of how often each target goes into 2^256 - 1. */
  function ChainWork(st: Store, b: HashT): nat
    decreases HeightOf(st, b)
  {
    if !Linked(st, b) || BlockOf(st, b).target == 0 then 0
    else ChainWork(st, Parent(st, b)) + (TWO_256 - 1) / BlockOf(st, b).target
  }

  lemma {:induction false} TotalWorkIsChainWork(st: Store, b: HashT)
    requires WellFormed(st) && b in st.blocks
    ensures WorkOf(st, b) == ChainWork(st, b)
    decreases HeightOf(st, b)
  {
    assert BlockRecordOk(st, b);
    if b != 0 {
      TotalWorkIsChainWork(st, Parent(st, b));
    } else {
      assert !Linked(st, 0);
    }
  }

  /** Every stored target is positive and at most the maximum. */
  lemma {:induction false} TargetsBounded(st: Store, b: HashT)
    requires WellFormed(st) && b in st.blocks && b != 0
    requires st.env.params.originalTarget <= st.env.params.maxTarget
    ensures 0 < BlockOf(st, b).target <= st.env.params.maxTarget
    ensures 4 * BlockOf(st, b).target < TWO_256
    decreases HeightOf(st, b)
  {
    assert BlockRecordOk(st, b);
    if Parent(st, b) != 0 {
      TargetsBounded(st, Parent(st, b));
    }
  }
}
