/** What a target weighs, and which of two blocks on one parent the node stands by. */
module Work {
  import opened Core
  import opened Forest
  import opened Target
  import opened Rules
  import opened Ancestry
  import opened Ledger
  import opened N = Node

  /** A stored block adds to its parent's total as often as its target goes into 2^256 - 1. */
  lemma StoredWork(st: Store, b: HashT)
    requires WellFormed(st) && b in st.blocks && b != 0
    ensures Linked(st, b) && 0 < BlockOf(st, b).target
    ensures var work := WorkOf(st, b) - WorkOf(st, Parent(st, b));
      0 < work && work * BlockOf(st, b).target <= TWO_256 - 1 < (work + 1) * BlockOf(st, b).target
  {
    hide WellFormed, TargetToWork;
    BlockFacts(st, b);
    WorkExact(BlockOf(st, b).target);
    PositiveWork(BlockOf(st, b).target);
  }

  /** How the work of two targets compares, without dividing. */
  lemma MoreWork(work: nat, target: nat, work': nat, target': nat)
    requires 0 < target && work * target <= TWO_256 - 1 < (work + 1) * target
    requires 0 < target' && work' * target' <= TWO_256 - 1 < (work' + 1) * target'
    ensures work' < work <==> exists k: nat :: k * target <= TWO_256 - 1 < k * target'
    ensures target <= target' ==> work' <= work
  {
    if work' < work {
      Larger(work' + 1, work, target');
      assert work * target <= TWO_256 - 1 < work * target';
    }
    if k: nat :| k * target <= TWO_256 - 1 < k * target' {
      if work < k {
        Larger(work + 1, k, target);
      }
      if k <= work' {
        Larger(k, work', target');
      }
    }
    if target <= target' && work < work' {
      Larger(work + 1, work', target');
      Larger(target, target', work + 1);
    }
  }

  /** Of two blocks on one parent the harder one never has less total work. */
  lemma HarderSibling(st: Store, a: HashT, b: HashT)
    requires WellFormed(st) && a in st.blocks && b in st.blocks && a != 0 && b != 0
    requires Parent(st, a) == Parent(st, b)
    ensures BlockOf(st, a).target <= BlockOf(st, b).target ==> WorkOf(st, b) <= WorkOf(st, a)
    ensures WorkOf(st, b) < WorkOf(st, a) <==>
      exists k: nat :: k * BlockOf(st, a).target <= TWO_256 - 1 < k * BlockOf(st, b).target
  {
    hide WellFormed;
    StoredWork(st, a);
    StoredWork(st, b);
    var p := Parent(st, a);
    MoreWork(WorkOf(st, a) - WorkOf(st, p), BlockOf(st, a).target,
             WorkOf(st, b) - WorkOf(st, p), BlockOf(st, b).target);
  }

  /** A sibling of the head that is known is taken up exactly if its target goes into 2^256 - 1 more
      often, its transactions follow and are at hand; then, if the head has an in-block spend, the node
      panics instead.  So a sibling as easy, or easier, is never taken up. */
  lemma SiblingTaken(n: N.Node, ev: HeadEvent, now: Uint64)
    requires NodeOk(n) && n.st.env.params.Verified() && n.head != 0 && ev.head != 0
    requires var (n1, r) := AddEntities(n, ev, now);
      r == Ok && ev.head in n1.st.blocks && Parent(n1.st, ev.head) == Parent(n1.st, n.head)
    ensures var st := AddEntities(n, ev, now).0.st;
            var heavier := exists k: nat ::
              k * BlockOf(st, ev.head).target <= TWO_256 - 1 < k * BlockOf(st, n.head).target;
            var (n', r) := HandleHead(n, ev, now);
      && (BlockOf(st, n.head).target <= BlockOf(st, ev.head).target ==> !heavier)
      && (r == Panic <==> heavier && InBlockSpend(st, BlockTxs(st, n.head)))
      && (r == Ok <==>
            && heavier && !InBlockSpend(st, BlockTxs(st, n.head)) && ValidBlock(st, ev.head)
            && (ev.autoAdd || ToSet(ChainTxs(st, ev.head))
                                <= AddEntities(n, ev, now).0.mempool + ToSet(ChainTxs(st, n.head))))
      && n'.head == if r == Ok then ev.head else n.head
  {
    hide AddEntities, ChainOk, WellFormed, InBlockSpend, BlockTxs, ChainTxs, ValidBlock, BlockOf, Verdict, Extends;
    AddEntitiesOk(n, ev, now);
    SiblingVerdict(AddEntities(n, ev, now).0, ev.head, ev.autoAdd);
  }

  lemma SiblingVerdict(n: N.Node, b: HashT, autoAdd: bool)
    requires NodeOk(n) && n.head != 0 && b != 0 && b in n.st.blocks && Parent(n.st, b) == Parent(n.st, n.head)
    ensures var heavier := exists k: nat ::
              k * BlockOf(n.st, b).target <= TWO_256 - 1 < k * BlockOf(n.st, n.head).target;
      && (BlockOf(n.st, n.head).target <= BlockOf(n.st, b).target ==> !heavier)
      && (Verdict(n, b, autoAdd) == Panic <==> heavier && InBlockSpend(n.st, BlockTxs(n.st, n.head)))
      && (Verdict(n, b, autoAdd) == Ok <==>
            && heavier && !InBlockSpend(n.st, BlockTxs(n.st, n.head)) && ValidBlock(n.st, b)
            && (autoAdd || ToSet(ChainTxs(n.st, b)) <= n.mempool + ToSet(ChainTxs(n.st, n.head))))
  {
    hide ChainOk, WellFormed, InBlockSpend, BlockTxs, ChainTxs, ValidChain, ValidBlock, BlockOf, Stuck, Tree;
    NodeParts(n);
    HarderSibling(n.st, b, n.head);
    HarderSibling(n.st, n.head, b);
    StuckAtHead(n.st, n.head, b);
    SiblingValid(n.st, n.head, b);
  }

  lemma NodeParts(n: N.Node)
    requires NodeOk(n)
    ensures WellFormed(n.st) && n.head in n.st.blocks && ValidChain(n.st, n.head) && Tree(n.st)
  {
    WellFormedTree(n.st);
  }

  lemma SiblingValid(st: Store, a: HashT, b: HashT)
    requires Tree(st) && a in st.blocks && b in st.blocks && a != 0 && b != 0 && Parent(st, a) == Parent(st, b)
    requires ValidChain(st, a)
    ensures ValidChain(st, b) <==> ValidBlock(st, b)
  {
    hide ValidBlock;
    assert Linked(st, a) && Linked(st, b);
  }

  /** Between siblings only the head itself is in the way. */
  lemma StuckAtHead(st: Store, a: HashT, b: HashT)
    requires Tree(st) && a in st.blocks && b in st.blocks && a != 0 && b != 0 && Parent(st, a) == Parent(st, b)
    ensures a != b ==> (Stuck(st, a, b) <==> InBlockSpend(st, BlockTxs(st, a)))
  {
    hide InBlockSpend, BlockTxs;
    assert Linked(st, a) && Linked(st, b);
    forall c | Ancestor(st, c, a) && !Ancestor(st, c, b) ensures c == a {
    }
    if a != b && Ancestor(st, a, b) {
      AncestorBelow(st, a, Parent(st, b));
    }
    assert Ancestor(st, a, a);
  }
}
