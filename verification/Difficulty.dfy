/** Adjusting the proof-of-work target at the end of each difficulty period. */
module Difficulty {
  import opened Core
  import opened Forest
  import opened Target
  import opened Rules
  import opened Ancestry
  import opened Inventory

  // ---- Arithmetic ----

  function LastMultiple(period: nat, height: nat): nat
    requires period > 0
  {
    height / period * period
  }

  predicate EndsPeriod(period: nat, height: nat)
    requires period > 0
  {
    (height + 1) % period == 0
  }

  function DesiredTime(params: Params, numBlocks: nat): Uint64 { params.blockTargetTime * numBlocks % TWO_64 }

  /** The previous target in proportion to the time taken. */
  function Ideal(prev: nat, actual: nat, desired: nat): nat
    requires desired > 0
  {
    prev * actual / desired
  }

  lemma DivModUnique(a: nat, p: nat, q: nat, r: nat)
    requires r < p && a == q * p + r
    ensures a / p == q && a % p == r
  {
    UniqueQuotient(p, q, r, a / p, a % p);
  }

  lemma UniqueQuotient(p: nat, q: nat, r: nat, q': nat, r': nat)
    requires r < p && r' < p && q * p + r == q' * p + r'
    ensures q == q' && r == r'
  {
    if q < q' {
      MultiplesApart(p, q, q');
    } else if q' < q {
      MultiplesApart(p, q', q);
    }
  }

  lemma MultiplesApart(p: nat, q: nat, q': nat)
    requires q < q'
    ensures q * p + p <= q' * p
  {
    assert (q' - q - 1) * p >= 0;
  }

  // ---- Time taken and time desired ----

  /** The first block of a period: the zero block is left out of the very first one. */
  function PeriodFirstHeight(period: nat, height: nat): nat
    requires period > 0
  {
    if height < period then 1 else LastMultiple(period, height)
  }

  function Measured(period: nat, height: nat): nat
    requires period > 0
  {
    if height < PeriodFirstHeight(period, height) then 0 else height - PeriodFirstHeight(period, height)
  }

  /** Where the measured blocks start. */
  function PeriodFirst(st: Store, head: HashT): HashT
    requires st.env.params.Verified()
  {
    AncestorAt(st, head, Measured(st.env.params.difficultyPeriod, HeightOf(st, head)))
  }

  /** Seconds that the measured blocks took, and should have taken in 64-bit arithmetic. */
  function Adjustment(st: Store, head: HashT): Option<(Uint64, Uint64)>
    requires st.env.params.Verified()
  {
    var period, height := st.env.params.difficultyPeriod, HeightOf(st, head);
    if height < 2 || height % period == 0 then None
    else
      var first, last := BlockOf(st, PeriodFirst(st, head)).minedTime, BlockOf(st, head).minedTime;
      if first >= last then None
      else Some((last - first, DesiredTime(st.env.params, Measured(period, height))))
  }

  /** None stands for a panic: no adjustment can be computed, or it would divide by zero. */
  function NextTarget(st: Store, prev: HashT): Option<HashT>
    requires st.env.params.Verified()
  {
    if prev == 0 then Some(st.env.params.originalTarget)
    else if !EndsPeriod(st.env.params.difficultyPeriod, HeightOf(st, prev)) then Some(BlockOf(st, prev).target)
    else
      match Adjustment(st, prev)
      case None => None
      case Some((actual, desired)) =>
        if desired == 0 then None
        else Some(Clamp(st.env.params, BlockOf(st, prev).target, Ideal(BlockOf(st, prev).target, actual, desired)))
  }

  function Clamp(params: Params, prev: HashT, ideal: nat): HashT
    requires params.Verified()
  {
    var capped: HashT := if ideal < TWO_256 then ideal else TWO_256 - 1;
    var raised := if capped < MinNextTarget(prev) then MinNextTarget(prev) else capped;
    if MaxNextTarget(params, prev) < raised then MaxNextTarget(params, prev) else raised
  }

  // ---- What the program computes ----

  method ExpectedTargetAdjustment(inv: Inv, head: HashT) returns (r: Option<(Uint64, Uint64)>)
    requires inv.env.Ok() && Tree(inv.View()) && head in inv.blocks
    ensures r == Adjustment(inv.View(), head)
  {
    hide LastMultiple, DesiredTime, Tree, AncestorAt;
    var params := inv.env.params;
    var headHeight := inv.blocks[head].height;
    if headHeight < 2 || headHeight % params.difficultyPeriod == 0 {
      return None;
    }
    var firstHeight: nat;
    if headHeight < params.difficultyPeriod {
      firstHeight := 1;
    } else {
      firstHeight := LastMultiple(params.difficultyPeriod, headHeight);
    }
    PeriodFirstBelow(params.difficultyPeriod, headHeight);
    var numBlocksMeasured := headHeight - firstHeight;
    var headMinedTime := inv.blocks[head].block.minedTime;
    var periodFirstId := inv.GetBlockSpecificAncestor(head, numBlocksMeasured);
    var firstMinedTime := BlockOf(inv.View(), periodFirstId).minedTime;
    if firstMinedTime >= headMinedTime {
      return None;
    }
    r := Some((headMinedTime - firstMinedTime, DesiredTime(params, numBlocksMeasured)));
  }

  method ComputeNextTarget(inv: Inv, prevBlockId: HashT) returns (r: Option<HashT>)
    requires inv.env.Ok() && Tree(inv.View()) && prevBlockId in inv.blocks
    ensures r == NextTarget(inv.View(), prevBlockId)
  {
    hide Adjustment, Ideal, EndsPeriod, Tree;
    var params := inv.env.params;
    if prevBlockId == 0 {
      return Some(params.originalTarget);
    }
    var prevTarget := inv.blocks[prevBlockId].block.target;
    if !EndsPeriod(params.difficultyPeriod, inv.blocks[prevBlockId].height) {
      return Some(prevTarget);
    }
    var adjustment := ExpectedTargetAdjustment(inv, prevBlockId);
    if adjustment.None? || adjustment.value.1 == 0 {
      return None;
    }
    var (actualTime, desiredTime) := adjustment.value;
    var targetInt := Ideal(prevTarget, actualTime, desiredTime);
    if targetInt > TWO_256 - 1 {
      targetInt := TWO_256 - 1;
    }
    var target: HashT := targetInt;
    if target < MinNextTarget(prevTarget) {
      target := MinNextTarget(prevTarget);
    }
    if MaxNextTarget(params, prevTarget) < target {
      target := MaxNextTarget(params, prevTarget);
    }
    r := Some(target);
  }

  // ---- What that means ----

  lemma PeriodFirstBelow(period: nat, height: nat)
    requires period >= 4 && height >= 1
    ensures 1 <= PeriodFirstHeight(period, height) <= height
    ensures Measured(period, height) < period
    ensures height % period == period - 1 ==>
      Measured(period, height) == if height < period then period - 2 else period - 1
  {
    var q := height / period;
    assert height == q * period + height % period;
    if height >= period {
      assert q >= 1;
      assert q * period >= period;
    } else {
      DivModUnique(height, period, 0, height);
    }
  }

  lemma {:induction false} AncestorAtHeight(st: Store, id: HashT, depth: nat)
    requires Tree(st) && id in st.blocks && depth <= HeightOf(st, id)
    ensures Ancestor(st, AncestorAt(st, id, depth), id)
    ensures HeightOf(st, AncestorAt(st, id, depth)) == HeightOf(st, id) - depth
    decreases depth
  {
    if depth > 0 && id != 0 {
      AncestorAtHeight(st, Parent(st, id), depth - 1);
    }
  }

  /** The blocks measured start at the one ancestor at the height where the period starts. */
  lemma PeriodFirstExact(st: Store, head: HashT)
    requires Tree(st) && head in st.blocks && head != 0 && st.env.params.Verified()
    ensures Ancestor(st, PeriodFirst(st, head), head)
    ensures HeightOf(st, PeriodFirst(st, head))
         == PeriodFirstHeight(st.env.params.difficultyPeriod, HeightOf(st, head))
  {
    assert Linked(st, head);
    PeriodFirstBelow(st.env.params.difficultyPeriod, HeightOf(st, head));
    AncestorAtHeight(st, head, Measured(st.env.params.difficultyPeriod, HeightOf(st, head)));
  }

  predicate Adjusting(st: Store, prev: HashT)
    requires st.env.params.Verified()
  {
    prev != 0 && EndsPeriod(st.env.params.difficultyPeriod, HeightOf(st, prev))
  }

  function BlocksMeasured(st: Store, prev: HashT): nat
    requires st.env.params.Verified()
  {
    if HeightOf(st, prev) < st.env.params.difficultyPeriod
    then st.env.params.difficultyPeriod - 2
    else st.env.params.difficultyPeriod - 1
  }

  lemma LastOfPeriod(period: nat, height: nat)
    requires period >= 4 && EndsPeriod(period, height)
    ensures height % period == period - 1 && height >= 3
  {
    var q := (height + 1) / period;
    assert height + 1 == q * period;
    assert q >= 1;
    assert height == (q - 1) * period + (period - 1);
    DivModUnique(height, period, q - 1, period - 1);
    assert (q - 1) * period >= 0;
  }

  /** Computing the next target panics exactly at the end of a period whose last block is not
      later than its first one, or with a target time that makes the desired time zero. */
  lemma PanicsExactly(st: Store, prev: HashT)
    requires Tree(st) && prev in st.blocks && st.env.params.Verified()
    ensures NextTarget(st, prev).None? <==>
      && Adjusting(st, prev)
      && (BlockOf(st, prev).minedTime <= BlockOf(st, PeriodFirst(st, prev)).minedTime
          || st.env.params.blockTargetTime * BlocksMeasured(st, prev) % TWO_64 == 0)
  {
    hide Tree, EndsPeriod, Ideal, PeriodFirst, Clamp, Measured;
    if Adjusting(st, prev) {
      var period, height := st.env.params.difficultyPeriod, HeightOf(st, prev);
      LastOfPeriod(period, height);
      PeriodFirstBelow(period, height);
    }
  }

  // ---- What the median rule leaves of that panic ----

  lemma {:induction false} RecentAncestors(st: Store, id: HashT, maxLen: nat)
    requires Tree(st) && id in st.blocks
    ensures forall a :: a in AncestorList(st, id, maxLen) ==> a in st.blocks && Ancestor(st, a, id)
    decreases maxLen
  {
    if maxLen > 0 && id != 0 {
      assert Linked(st, id);
      RecentAncestors(st, Parent(st, id), maxLen - 1);
    }
  }

  lemma {:induction false} ZeroComesLast(st: Store, id: HashT, maxLen: nat)
    ensures forall i :: 0 <= i < |AncestorList(st, id, maxLen)| - 1 ==> AncestorList(st, id, maxLen)[i] != 0
    decreases maxLen
  {
    if maxLen > 0 && id != 0 {
      ZeroComesLast(st, Parent(st, id), maxLen - 1);
    }
  }

  lemma RecentBelow(st: Store, prev: HashT, b: HashT)
    requires Tree(st) && prev in st.blocks && prev != 0 && b in RecentBlocks(st, prev)
    ensures b != 0 && b in st.blocks && Ancestor(st, b, prev)
  {
    hide Tree;
    RecentAncestors(st, prev, 4);
    ZeroComesLast(st, prev, 4);
    var ids := [prev] + AncestorList(st, prev, 4);
    assert b in ids;
  }

  /** The median is not below all times, unless the sum of the two middle ones wraps. */
  lemma MedianAtLeast(times: seq<Uint64>, least: Uint64)
    requires times != [] && forall i :: 0 <= i < |times| ==> least <= times[i] < TWO_64 / 2
    ensures least <= Median(times)
  {
    SortTimesSorts(times);
    var s := SortTimes(times);
    forall i | 0 <= i < |s| ensures least <= s[i] < TWO_64 / 2 {
      assert s[i] in multiset(s);
      assert s[i] in multiset(times);
    }
  }

  lemma MedianWraps()
    ensures Median([TWO_64 / 2, TWO_64 / 2 + 1]) == 0
  {
    var late: Uint64, later: Uint64 := TWO_64 / 2, TWO_64 / 2 + 1;
    assert [late, later][1..] == [later] && [later][1..] == [];
    assert SortTimes([later]) == [later];
    assert SortTimes([late, later]) == [late, later];
  }

  ghost predicate NoLateTimes(st: Store) { forall id :: id in st.blocks ==> BlockOf(st, id).minedTime < TWO_64 / 2 }

  /** Every later block is strictly later than the first block of its chain. */
  lemma {:induction false} LaterThanFirst(st: Store, first: HashT, b: HashT)
    requires WellFormed(st) && NoLateTimes(st) && b in st.blocks
    requires HeightOf(st, first) == 1 && Ancestor(st, first, b) && first != b
    ensures BlockOf(st, first).minedTime < BlockOf(st, b).minedTime
    decreases HeightOf(st, b)
  {
    hide WellFormed, Tree, Median, RecentBlocks;
    WellFormedTree(st);
    TreeZero(st);
    StoredAfterMedian(st, b);
    var prev := Parent(st, b);
    AncestorBelow(st, first, b);
    AncestorBelow(st, first, prev);
    var recent := RecentBlocks(st, prev);
    forall i | 0 <= i < |recent|
      ensures recent[i] in st.blocks && BlockOf(st, first).minedTime <= BlockOf(st, recent[i]).minedTime
    {
      OnLineWithFirst(st, first, recent[i], prev);
      if recent[i] != first {
        LaterThanFirst(st, first, recent[i]);
      }
    }
    MedianAtLeast(TimesOf(st, recent), BlockOf(st, first).minedTime);
  }

  lemma TreeZero(st: Store)
    requires Tree(st)
    ensures 0 in st.blocks && HeightOf(st, 0) == 0
  {
  }

  lemma StoredAfterMedian(st: Store, b: HashT)
    requires WellFormed(st) && b in st.blocks && b != 0
    ensures Linked(st, b) && AfterMedian(st, BlockOf(st, b))
  {
    hide LastingOk, AfterMedian;
    assert BlockRecordOk(st, b);
  }

  lemma OnLineWithFirst(st: Store, first: HashT, b: HashT, prev: HashT)
    requires Tree(st) && prev in st.blocks && prev != 0 && b in RecentBlocks(st, prev)
    requires HeightOf(st, first) == 1 && Ancestor(st, first, prev)
    ensures b in st.blocks && Ancestor(st, first, b) && HeightOf(st, b) <= HeightOf(st, prev)
  {
    RecentBelow(st, prev, b);
    assert Linked(st, b);
    AncestorBelow(st, b, prev);
    AncestorsOrdered(st, first, b, prev);
  }

  /** So in the first period only a target time that makes the desired time zero is left to panic at. */
  lemma FirstPeriodPanicsExactly(st: Store, prev: HashT)
    requires WellFormed(st) && NoLateTimes(st) && prev in st.blocks && st.env.params.Verified()
    requires HeightOf(st, prev) < st.env.params.difficultyPeriod
    ensures NextTarget(st, prev).None? <==>
      Adjusting(st, prev) && st.env.params.blockTargetTime * (st.env.params.difficultyPeriod - 2) % TWO_64 == 0
  {
    hide WellFormed, NextTarget, PeriodFirst, EndsPeriod, Tree;
    WellFormedTree(st);
    PanicsExactly(st, prev);
    if Adjusting(st, prev) {
      LastOfPeriod(st.env.params.difficultyPeriod, HeightOf(st, prev));
      PeriodFirstExact(st, prev);
      LaterThanFirst(st, PeriodFirst(st, prev), prev);
    }
  }

  /** The check that was to rule the first case out never fires: every block passes it. */
  lemma GuardNeverFires(st: Store, b: Block)
    requires st.env.params.Verified()
    ensures LastInPeriodOk(st, b)
  {
  }

  /** A next target passes the block verifier's rule, unless the previous one was so far above the
      maximum that no target would. */
  lemma NextTargetAllowed(st: Store, prev: HashT)
    requires st.env.params.Verified() && NextTarget(st, prev).Some?
    ensures TargetOk(st, prev, NextTarget(st, prev).value)
       <==> !Adjusting(st, prev) || BlockOf(st, prev).target / 4 <= st.env.params.maxTarget
  {
    hide Adjustment, Ideal;
  }

  /** With an original target within the maximum, it always passes. */
  lemma NextTargetOk(st: Store, prev: HashT)
    requires WellFormed(st) && prev in st.blocks && NextTarget(st, prev).Some?
    requires st.env.params.originalTarget <= st.env.params.maxTarget
    ensures TargetOk(st, prev, NextTarget(st, prev).value)
  {
    assert st.env.params.Verified();
    hide WellFormed, TargetOk, NextTarget;
    NextTargetAllowed(st, prev);
    if prev != 0 {
      TargetsBounded(st, prev);
    }
  }

  // ---- The new target, in numbers ----

  lemma ClampExact(params: Params, was: HashT, actual: nat, desired: nat)
    requires params.Verified() && desired > 0
    ensures var t := Clamp(params, was, Ideal(was, actual, desired));
            var most := if 4 * was < params.maxTarget then 4 * was else params.maxTarget;
      if most < was / 4 then t == most
      else if was * actual < was / 4 * desired then t == was / 4
      else if (most + 1) * desired <= was * actual then t == most
      else t * desired <= was * actual < (t + 1) * desired
  {
    var ideal := Ideal(was, actual, desired);
    IdealExact(was, actual, desired);
    var most := if 4 * was < params.maxTarget then 4 * was else params.maxTarget;
    hide Ideal;
    Above(ideal, was / 4, desired, was * actual);
    Above(ideal, most + 1, desired, was * actual);
  }

  lemma IdealExact(was: nat, actual: nat, desired: nat)
    requires desired > 0
    ensures Ideal(was, actual, desired) * desired <= was * actual < (Ideal(was, actual, desired) + 1) * desired
  {
    assert was * actual == Ideal(was, actual, desired) * desired + was * actual % desired;
  }

  lemma Above(q: nat, k: nat, d: nat, a: nat)
    requires d > 0 && q * d <= a < (q + 1) * d
    ensures k <= q <==> k * d <= a
  {
    if k <= q {
      Larger(k, q, d);
    } else {
      Larger(q + 1, k, d);
    }
  }

  lemma OneAtHeight(st: Store, a: HashT, b: HashT, c: HashT)
    requires Tree(st) && c in st.blocks && Ancestor(st, a, c) && Ancestor(st, b, c)
    requires HeightOf(st, a) == HeightOf(st, b)
    ensures a == b
  {
    AncestorsOrdered(st, a, b, c);
    AncestorBelow(st, b, c);
    AncestorBelow(st, a, b);
  }

  /** The target after the last block of a period: in proportion to the time that its blocks took and
      should have taken, rounded down, but no less than a quarter of the old one, and no more than four
      times it or the maximum.  None at all when no time passed or none should have. */
  lemma NextTargetExact(st: Store, prev: HashT, first: HashT)
    requires Tree(st) && prev in st.blocks && prev != 0 && st.env.params.Verified()
    requires (HeightOf(st, prev) + 1) % st.env.params.difficultyPeriod == 0
    requires Ancestor(st, first, prev)
    requires HeightOf(st, first) ==
      if HeightOf(st, prev) < st.env.params.difficultyPeriod then 1
      else HeightOf(st, prev) + 1 - st.env.params.difficultyPeriod
    ensures var p, was := st.env.params, BlockOf(st, prev).target;
            var actual := BlockOf(st, prev).minedTime - BlockOf(st, first).minedTime;
            var desired := p.blockTargetTime * (HeightOf(st, prev) - HeightOf(st, first)) % TWO_64;
            var most := if 4 * was < p.maxTarget then 4 * was else p.maxTarget;
      match NextTarget(st, prev)
      case None => actual <= 0 || desired == 0
      case Some(t) =>
        && actual > 0 && desired > 0
        && if most < was / 4 then t == most
           else if was * actual < was / 4 * desired then t == was / 4
           else if (most + 1) * desired <= was * actual then t == most
           else t * desired <= was * actual < (t + 1) * desired
  {
    hide Tree, Clamp, Ideal, Ancestor;
    var p, height := st.env.params, HeightOf(st, prev);
    LastOfPeriod(p.difficultyPeriod, height);
    PeriodFirstBelow(p.difficultyPeriod, height);
    PeriodFirstExact(st, prev);
    FirstOfPeriod(p.difficultyPeriod, height);
    OneAtHeight(st, first, PeriodFirst(st, prev), prev);
    assert Measured(p.difficultyPeriod, height) == height - HeightOf(st, first);
    match Adjustment(st, prev)
    case None =>
    case Some((actual, desired)) =>
      if desired > 0 {
        ClampExact(p, BlockOf(st, prev).target, actual, desired);
      }
  }

  lemma FirstOfPeriod(period: nat, height: nat)
    requires period >= 4 && height % period == period - 1
    ensures PeriodFirstHeight(period, height) == if height < period then 1 else height + 1 - period
  {
    assert height == height / period * period + height % period;
  }

  /** Slower blocks never lower a target within the maximum, faster ones never raise it, and blocks
      exactly on time keep it.  Elsewhere than at the end of a period nothing moves it. */
  lemma TargetMovesWithTime(st: Store, prev: HashT, first: HashT)
    requires Tree(st) && prev in st.blocks && prev != 0 && st.env.params.Verified()
    requires Ancestor(st, first, prev)
    requires HeightOf(st, first) ==
      if HeightOf(st, prev) < st.env.params.difficultyPeriod then 1
      else HeightOf(st, prev) + 1 - st.env.params.difficultyPeriod
    requires NextTarget(st, prev).Some? && BlockOf(st, prev).target <= st.env.params.maxTarget
    ensures var was, t := BlockOf(st, prev).target, NextTarget(st, prev).value;
            var actual := BlockOf(st, prev).minedTime - BlockOf(st, first).minedTime;
            var n := HeightOf(st, prev) - HeightOf(st, first);
            var desired := st.env.params.blockTargetTime * n % TWO_64;
      if (HeightOf(st, prev) + 1) % st.env.params.difficultyPeriod != 0 then t == was
      else
        && (actual >= desired ==> was <= t)
        && (actual <= desired ==> t <= was)
  {
    hide Tree, Adjustment, Clamp, Ideal, Ancestor;
    if (HeightOf(st, prev) + 1) % st.env.params.difficultyPeriod == 0 {
      NextTargetExact(st, prev, first);
      var was, t := BlockOf(st, prev).target, NextTarget(st, prev).value;
      var actual := BlockOf(st, prev).minedTime - BlockOf(st, first).minedTime;
      var n := HeightOf(st, prev) - HeightOf(st, first);
      var desired := st.env.params.blockTargetTime * n % TWO_64;
      var most := if 4 * was < st.env.params.maxTarget then 4 * was else st.env.params.maxTarget;
      hide NextTarget;
      ProportionMoves(was, t, actual, desired, most);
    }
  }

  lemma ProportionMoves(was: nat, t: nat, actual: nat, desired: nat, most: nat)
    requires desired > 0 && was <= most
    requires if was * actual < was / 4 * desired then t == was / 4
      else if (most + 1) * desired <= was * actual then t == most
      else t * desired <= was * actual < (t + 1) * desired
    ensures (actual >= desired ==> was <= t) && (actual <= desired ==> t <= was)
  {
    if actual >= desired {
      SlowerRaises(was, t, actual, desired, most);
    }
    if actual <= desired {
      FasterLowers(was, t, actual, desired, most);
    }
  }

  lemma SlowerRaises(was: nat, t: nat, actual: nat, desired: nat, most: nat)
    requires desired > 0 && was <= most && actual >= desired
    requires if was * actual < was / 4 * desired then t == was / 4
      else if (most + 1) * desired <= was * actual then t == most
      else was * actual < (t + 1) * desired
    ensures was <= t
  {
    Larger(desired, actual, was);
    Larger(was / 4, was, desired);
    if t < was {
      Larger(t + 1, was, desired);
    }
  }

  lemma FasterLowers(was: nat, t: nat, actual: nat, desired: nat, most: nat)
    requires desired > 0 && was <= most && actual <= desired
    requires if was * actual < was / 4 * desired then t == was / 4
      else if (most + 1) * desired <= was * actual then t == most
      else t * desired <= was * actual
    ensures t <= was
  {
    Larger(actual, desired, was);
    Larger(was + 1, most + 1, desired);
    if t > was {
      Larger(was + 1, t, desired);
    }
    assert was * desired < (was + 1) * desired;
  }

  function Distance(a: nat, b: nat): nat { if a < b then b - a else a - b }

  /** Among the targets the rule allows, the new one is the nearest to the proportional one, `q`. */
  lemma NearestAllowed(st: Store, prev: HashT, first: HashT, q: nat, target: HashT)
    requires Tree(st) && prev in st.blocks && prev != 0 && st.env.params.Verified()
    requires (HeightOf(st, prev) + 1) % st.env.params.difficultyPeriod == 0
    requires Ancestor(st, first, prev)
    requires HeightOf(st, first) ==
      if HeightOf(st, prev) < st.env.params.difficultyPeriod then 1
      else HeightOf(st, prev) + 1 - st.env.params.difficultyPeriod
    requires NextTarget(st, prev).Some? && TargetOk(st, prev, target)
    requires var was := BlockOf(st, prev).target;
             var actual := BlockOf(st, prev).minedTime - BlockOf(st, first).minedTime;
             var desired := st.env.params.blockTargetTime * (HeightOf(st, prev) - HeightOf(st, first)) % TWO_64;
      q * desired <= was * actual < (q + 1) * desired
    ensures TargetOk(st, prev, NextTarget(st, prev).value)
    ensures Distance(NextTarget(st, prev).value, q) <= Distance(target, q)
  {
    hide Tree, Ancestor, NextTarget;
    NextTargetExact(st, prev, first);
    var was, t := BlockOf(st, prev).target, NextTarget(st, prev).value;
    var actual := BlockOf(st, prev).minedTime - BlockOf(st, first).minedTime;
    var desired := st.env.params.blockTargetTime * (HeightOf(st, prev) - HeightOf(st, first)) % TWO_64;
    var most := if 4 * was < st.env.params.maxTarget then 4 * was else st.env.params.maxTarget;
    Above(q, was / 4, desired, was * actual);
    Above(q, most + 1, desired, was * actual);
    Above(q, t, desired, was * actual);
    Above(q, t + 1, desired, was * actual);
  }
}
