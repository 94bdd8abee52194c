/** Two peers joined by two first-in first-out streams.  Each is sequential: it writes, it waits for
    the next message, or it computes; how the two interleave is anybody's guess.  One complete
    schedule settles them all: every other interleaving ends as well, and in the same place. */
module Network {
  import opened Core

  /** What a peer does next in some local state. */
  datatype Action<!S, !M> = Halt | Skip(next: S) | Emit(msg: M, after: S) | Await(receive: M -> S)

  /** The two peers' programs. */
  datatype System<!S, !M> = System(left: S -> Action<S, M>, right: S -> Action<S, M>)

  /** Both local states and the messages under way. */
  datatype Config<S, M> = Config(left: S, right: S, toRight: seq<M>, toLeft: seq<M>)

  function StepLeft<S, M>(sys: System<S, M>, c: Config<S, M>): Option<Config<S, M>> {
    match sys.left(c.left)
    case Halt => None
    case Skip(next) => Some(c.(left := next))
    case Emit(msg, after) => Some(c.(left := after, toRight := c.toRight + [msg]))
    case Await(receive) =>
      if c.toLeft == [] then None else Some(c.(left := receive(c.toLeft[0]), toLeft := c.toLeft[1..]))
  }

  function StepRight<S, M>(sys: System<S, M>, c: Config<S, M>): Option<Config<S, M>> {
    match sys.right(c.right)
    case Halt => None
    case Skip(next) => Some(c.(right := next))
    case Emit(msg, after) => Some(c.(right := after, toLeft := c.toLeft + [msg]))
    case Await(receive) =>
      if c.toRight == [] then None else Some(c.(right := receive(c.toRight[0]), toRight := c.toRight[1..]))
  }

  function Step<S, M>(sys: System<S, M>, c: Config<S, M>, left: bool): Option<Config<S, M>> {
    if left then StepLeft(sys, c) else StepRight(sys, c)
  }

  /** Where a schedule leads, if every step in it is possible. */
  function Run<S, M>(sys: System<S, M>, c: Config<S, M>, schedule: seq<bool>): Option<Config<S, M>>
    decreases |schedule|
  {
    if schedule == [] then Some(c)
    else
      match Step(sys, c, schedule[0])
      case None => None
      case Some(d) => Run(sys, d, schedule[1..])
  }

  /** Neither peer can move. */
  predicate Quiet<S, M>(sys: System<S, M>, c: Config<S, M>) {
    Step(sys, c, true).None? && Step(sys, c, false).None?
  }

  /** Steps of different peers commute. */
  lemma Diamond<S, M>(sys: System<S, M>, c: Config<S, M>)
    requires Step(sys, c, true).Some? && Step(sys, c, false).Some?
    ensures Step(sys, Step(sys, c, true).value, false).Some?
    ensures Step(sys, Step(sys, c, true).value, false) == Step(sys, Step(sys, c, false).value, true)
  {
    var l, r := sys.left(c.left), sys.right(c.right);
    if l.Await? && r.Emit? {
      assert (c.toLeft + [r.msg])[1..] == c.toLeft[1..] + [r.msg];
    }
    if l.Emit? && r.Await? {
      assert (c.toRight + [l.msg])[1..] == c.toRight[1..] + [l.msg];
    }
  }

  lemma RunFirst<S, M>(sys: System<S, M>, c: Config<S, M>, x: bool, rest: seq<bool>)
    requires Step(sys, c, x).Some?
    ensures Run(sys, c, [x] + rest) == Run(sys, Step(sys, c, x).value, rest)
  {
    assert ([x] + rest)[1..] == rest;
  }

  /** A step that is possible now can be brought forward in any complete schedule. */
  lemma {:induction false} BringForward<S, M>(
    sys: System<S, M>, c: Config<S, M>, schedule: seq<bool>, end: Config<S, M>, x: bool)
    returns (rest: seq<bool>)
    requires Run(sys, c, schedule) == Some(end) && Quiet(sys, end) && Step(sys, c, x).Some?
    ensures |rest| == |schedule| - 1 && Run(sys, Step(sys, c, x).value, rest) == Some(end)
    decreases |schedule|
  {
    var y := schedule[0];
    if y == x {
      rest := schedule[1..];
    } else {
      Diamond(sys, c);
      var more := BringForward(sys, Step(sys, c, y).value, schedule[1..], end, x);
      rest := [y] + more;
      RunFirst(sys, Step(sys, c, x).value, y, more);
    }
  }

  /** Every interleaving is on the way to the end of a complete one, and no longer than it. */
  lemma {:induction false} Confluence<S, M>(
    sys: System<S, M>, c: Config<S, M>, schedule: seq<bool>, end: Config<S, M>, other: seq<bool>, d: Config<S, M>)
    returns (rest: seq<bool>)
    requires Run(sys, c, schedule) == Some(end) && Quiet(sys, end)
    requires Run(sys, c, other) == Some(d)
    ensures |other| + |rest| == |schedule| && Run(sys, d, rest) == Some(end)
    decreases |other|
  {
    if other == [] {
      rest := schedule;
    } else {
      var more := BringForward(sys, c, schedule, end, other[0]);
      rest := Confluence(sys, Step(sys, c, other[0]).value, more, end, other[1..], d);
    }
  }

  /** From `c` one complete schedule ends at `end`, so all do. */
  ghost predicate EndsAt<S(!new), M(!new)>(sys: System<S, M>, c: Config<S, M>, end: Config<S, M>) {
    Quiet(sys, end) && Reaches(sys, c, end)
  }

  ghost predicate Reaches<S(!new), M(!new)>(sys: System<S, M>, c: Config<S, M>, d: Config<S, M>) {
    exists schedule :: Run(sys, c, schedule) == Some(d)
  }

  /** No schedule from here is longer than the bound. */
  ghost predicate Bounded<S(!new), M(!new)>(sys: System<S, M>, c: Config<S, M>, bound: nat) {
    forall schedule :: Run(sys, c, schedule).Some? ==> |schedule| <= bound
  }

  /** No interleaving gets stuck anywhere else, and none goes on forever. */
  lemma AllEndAlike<S(!new), M(!new)>(sys: System<S, M>, c: Config<S, M>, end: Config<S, M>)
    requires EndsAt(sys, c, end)
    ensures forall other, d :: Run(sys, c, other) == Some(d) ==> Reaches(sys, d, end) && (Quiet(sys, d) ==> d == end)
    ensures exists bound :: Bounded(sys, c, bound)
  {
    var schedule :| Run(sys, c, schedule) == Some(end);
    forall other, d | Run(sys, c, other) == Some(d)
      ensures Reaches(sys, d, end) && (Quiet(sys, d) ==> d == end) && |other| <= |schedule|
    {
      var rest := Confluence(sys, c, schedule, end, other, d);
    }
    assert Bounded(sys, c, |schedule|);
  }

  // ---- Building schedules ----

  lemma {:induction false} RunConcat<S, M>(sys: System<S, M>, c: Config<S, M>, a: seq<bool>, b: seq<bool>)
    requires Run(sys, c, a).Some?
    ensures Run(sys, c, a + b) == Run(sys, Run(sys, c, a).value, b)
    decreases |a|
  {
    if a == [] {
      assert a + b == b;
    } else {
      assert (a + b)[1..] == a[1..] + b;
      RunConcat(sys, Step(sys, c, a[0]).value, a[1..], b);
    }
  }

  lemma ReachesItself<S(!new), M(!new)>(sys: System<S, M>, c: Config<S, M>)
    ensures Reaches(sys, c, c)
  {
    assert Run(sys, c, []) == Some(c);
  }

  lemma ReachesStep<S(!new), M(!new)>(sys: System<S, M>, c: Config<S, M>, x: bool)
    requires Step(sys, c, x).Some?
    ensures Reaches(sys, c, Step(sys, c, x).value)
  {
    RunFirst(sys, c, x, []);
    assert [x] + [] == [x];
  }

  lemma ReachesOn<S(!new), M(!new)>(sys: System<S, M>, c: Config<S, M>, d: Config<S, M>, e: Config<S, M>)
    requires Reaches(sys, c, d) && Reaches(sys, d, e)
    ensures Reaches(sys, c, e)
  {
    var a :| Run(sys, c, a) == Some(d);
    var b :| Run(sys, d, b) == Some(e);
    RunConcat(sys, c, a, b);
  }

  /** What has been reached, and one more step. */
  lemma OneMore<S(!new), M(!new)>(sys: System<S, M>, c: Config<S, M>, d: Config<S, M>, x: bool, e: Config<S, M>)
    requires Reaches(sys, c, d) && Step(sys, d, x) == Some(e)
    ensures Reaches(sys, c, e)
  {
    ReachesStep(sys, d, x);
    ReachesOn(sys, c, d, e);
  }

  /** The left peer says something and the right one, waiting, takes it. */
  lemma PassRight<S(!new), M(!new)>(sys: System<S, M>, c: Config<S, M>, d: Config<S, M>)
    requires sys.left(d.left).Emit? && sys.right(d.right).Await? && d.toRight == [] && d.toLeft == []
    requires Reaches(sys, c, d)
    ensures Reaches(sys, c, Config(sys.left(d.left).after, sys.right(d.right).receive(sys.left(d.left).msg), [], []))
  {
    var l, r := sys.left(d.left), sys.right(d.right);
    var e := Config(l.after, d.right, [l.msg], []);
    assert d.toRight + [l.msg] == [l.msg] && [l.msg][1..] == [];
    OneMore(sys, c, d, true, e);
    OneMore(sys, c, e, false, Config(l.after, r.receive(l.msg), [], []));
  }

  lemma PassLeft<S(!new), M(!new)>(sys: System<S, M>, c: Config<S, M>, d: Config<S, M>)
    requires sys.right(d.right).Emit? && sys.left(d.left).Await? && d.toRight == [] && d.toLeft == []
    requires Reaches(sys, c, d)
    ensures Reaches(sys, c, Config(sys.left(d.left).receive(sys.right(d.right).msg), sys.right(d.right).after, [], []))
  {
    var l, r := sys.left(d.left), sys.right(d.right);
    var e := Config(d.left, r.after, [], [r.msg]);
    assert d.toLeft + [r.msg] == [r.msg] && [r.msg][1..] == [];
    OneMore(sys, c, d, false, e);
    OneMore(sys, c, e, true, Config(l.receive(r.msg), r.after, [], []));
  }

  /** Both say something, then both take what the other said. */
  lemma Exchange<S(!new), M(!new)>(sys: System<S, M>, c: Config<S, M>, d: Config<S, M>)
    requires sys.left(d.left).Emit? && sys.right(d.right).Emit? && d.toRight == [] && d.toLeft == []
    requires sys.left(sys.left(d.left).after).Await? && sys.right(sys.right(d.right).after).Await?
    requires Reaches(sys, c, d)
    ensures var l, r := sys.left(d.left), sys.right(d.right);
      Reaches(sys, c, Config(sys.left(l.after).receive(r.msg), sys.right(r.after).receive(l.msg), [], []))
  {
    var l, r := sys.left(d.left), sys.right(d.right);
    var e := Config(l.after, d.right, [l.msg], []);
    assert d.toRight + [l.msg] == [l.msg] && [l.msg][1..] == [];
    assert d.toLeft + [r.msg] == [r.msg] && [r.msg][1..] == [];
    OneMore(sys, c, d, true, e);
    var f := Config(l.after, r.after, [l.msg], [r.msg]);
    OneMore(sys, c, e, false, f);
    var g := Config(sys.left(l.after).receive(r.msg), r.after, [l.msg], []);
    OneMore(sys, c, f, true, g);
    OneMore(sys, c, g, false, Config(g.left, sys.right(r.after).receive(l.msg), [], []));
  }

  // ---- Swapping the peers ----

  function SwapSystem<S, M>(sys: System<S, M>): System<S, M> { System(sys.right, sys.left) }

  function Swap<S, M>(c: Config<S, M>): Config<S, M> { Config(c.right, c.left, c.toLeft, c.toRight) }

  lemma {:induction false} RunSwapped<S, M>(sys: System<S, M>, c: Config<S, M>, schedule: seq<bool>)
    returns (swapped: seq<bool>)
    requires Run(sys, c, schedule).Some?
    ensures Run(SwapSystem(sys), Swap(c), swapped) == Some(Swap(Run(sys, c, schedule).value))
    decreases |schedule|
  {
    if schedule == [] {
      swapped := [];
    } else {
      var d := Step(sys, c, schedule[0]).value;
      var rest := RunSwapped(sys, d, schedule[1..]);
      swapped := [!schedule[0]] + rest;
      assert Step(SwapSystem(sys), Swap(c), !schedule[0]) == Some(Swap(d));
      RunFirst(SwapSystem(sys), Swap(c), !schedule[0], rest);
    }
  }

  lemma ReachesSwapped<S(!new), M(!new)>(sys: System<S, M>, c: Config<S, M>, d: Config<S, M>)
    requires Reaches(sys, c, d)
    ensures Reaches(SwapSystem(sys), Swap(c), Swap(d))
  {
    var schedule :| Run(sys, c, schedule) == Some(d);
    var swapped := RunSwapped(sys, c, schedule);
  }
}
