/** The two peers' loops, each turn of which is anybody's choice: to issue some command, or to take up
    a message if one is waiting.  Nothing is fixed beforehand; an invariant ties every run to the
    rounds that its choices happen to form. */
module Loop {
  import opened Core
  import opened Network
  import opened Sync
  import opened Command

  /** What a peer does at the top of its loop.  Polling without a message is no step. */
  datatype Choice = Issue(command: string) | Poll

  datatype Move = Go(left: bool) | Choose(left: bool, choice: Choice)

  function AsAgenda(choice: Choice): Option<string> {
    match choice
    case Issue(c) => Some(c)
    case Poll => None
  }

  predicate AtLoopTop<H>(p: Peer<H>) { !p.failed && p.running.None? && p.todo == [] }

  function Issuing<H>(p: Peer<H>, c: string): Peer<H> { p.(todo := [HearReply(c)]) }

  function Polling<H>(initiator: bool, p: Peer<H>, m: Msg): Peer<H> { Command.Take(initiator, p.(todo := [Listen]), m) }

  function FreeStep<H>(hl: Handlers<H>, hr: Handlers<H>, c: Config<Peer<H>, Msg>, m: Move)
    : Option<Config<Peer<H>, Msg>>
  {
    match m
    case Go(left) => Step(Link(hl, hr), c, left)
    case Choose(true, Issue(a)) =>
      if AtLoopTop(c.left)
      then Some(c.(left := Issuing(c.left, a), toRight := c.toRight + [Text("cmd:" + a)])) else None
    case Choose(true, Poll) =>
      if AtLoopTop(c.left) && c.toLeft != []
      then Some(c.(left := Polling(true, c.left, c.toLeft[0]), toLeft := c.toLeft[1..])) else None
    case Choose(false, Issue(b)) =>
      if AtLoopTop(c.right)
      then Some(c.(right := Issuing(c.right, b), toLeft := c.toLeft + [Text("cmd:" + b)])) else None
    case Choose(false, Poll) =>
      if AtLoopTop(c.right) && c.toRight != []
      then Some(c.(right := Polling(false, c.right, c.toRight[0]), toRight := c.toRight[1..])) else None
  }

  /** Where a sequence of moves leads, if each is possible; newest move last. */
  function FreeRun<H>(hl: Handlers<H>, hr: Handlers<H>, moves: seq<Move>): Option<Config<Peer<H>, Msg>> {
    if moves == [] then Some(Config(AtTop([], [], []), AtTop([], [], []), [], []))
    else
      match FreeRun(hl, hr, moves[..|moves| - 1])
      case None => None
      case Some(c) => FreeStep(hl, hr, c, moves[|moves| - 1])
  }

  /** The choices that one peer made, in order. */
  function Choices(moves: seq<Move>, left: bool): seq<Option<string>> {
    if moves == [] then []
    else
      var m := moves[|moves| - 1];
      Choices(moves[..|moves| - 1], left) + if m.Choose? && m.left == left then [AsAgenda(m.choice)] else []
  }

  /** Every command issued is one whose handlers get along. */
  ghost predicate Sound<H(!new)>(hl: Handlers<H>, hr: Handlers<H>, moves: seq<Move>) {
    forall i :: 0 <= i < |moves| && moves[i].Choose? && moves[i].choice.Issue? ==>
      Compatible(hl, hr, moves[i].choice.command, moves[i].left)
  }

  // ---- Longer agendas ----

  function WithMore<H>(p: Peer<H>, more: seq<Option<string>>): Peer<H> { p.(agenda := p.agenda + more) }

  /** The peers with more on their agendas. */
  function More<H>(c: Config<Peer<H>, Msg>, ml: seq<Option<string>>, mr: seq<Option<string>>): Config<Peer<H>, Msg> {
    c.(left := WithMore(c.left, ml), right := WithMore(c.right, mr))
  }

  /** A peer that can go on does the same with more to do later. */
  lemma ActMore<H>(hs: Handlers<H>, initiator: bool, p: Peer<H>, more: seq<Option<string>>)
    requires !Command.Act(hs, initiator, p).Halt?
    ensures var a, b := Command.Act(hs, initiator, p), Command.Act(hs, initiator, WithMore(p, more));
      && (a.Skip? ==> b == Skip(WithMore(a.next, more)))
      && (a.Emit? ==> b == Emit(a.msg, WithMore(a.after, more)))
      && (a.Await? ==> b.Await? && forall m :: b.receive(m) == WithMore(a.receive(m), more))
  {
    assert p.agenda != [] ==> (p.agenda + more)[1..] == p.agenda[1..] + more && (p.agenda + more)[0] == p.agenda[0];
  }

  lemma StepMore<H>(
    hl: Handlers<H>, hr: Handlers<H>, c: Config<Peer<H>, Msg>, x: bool,
    ml: seq<Option<string>>, mr: seq<Option<string>>)
    requires Step(Link(hl, hr), c, x).Some?
    ensures Step(Link(hl, hr), More(c, ml, mr), x) == Some(More(Step(Link(hl, hr), c, x).value, ml, mr))
  {
    hide Command.Act, WithMore;
    if x {
      ActMore(hl, true, c.left, ml);
    } else {
      ActMore(hr, false, c.right, mr);
    }
  }

  lemma {:induction false} RunMore<H>(
    hl: Handlers<H>, hr: Handlers<H>, c: Config<Peer<H>, Msg>, schedule: seq<bool>,
    ml: seq<Option<string>>, mr: seq<Option<string>>)
    requires Run(Link(hl, hr), c, schedule).Some?
    ensures Run(Link(hl, hr), More(c, ml, mr), schedule) == Some(More(Run(Link(hl, hr), c, schedule).value, ml, mr))
    decreases |schedule|
  {
    hide Link, Step, More;
    if schedule != [] {
      StepMore(hl, hr, c, schedule[0], ml, mr);
      RunMore(hl, hr, Step(Link(hl, hr), c, schedule[0]).value, schedule[1..], ml, mr);
    }
  }

  lemma ReachesMore<H(!new)>(
    hl: Handlers<H>, hr: Handlers<H>, c: Config<Peer<H>, Msg>, d: Config<Peer<H>, Msg>,
    ml: seq<Option<string>>, mr: seq<Option<string>>)
    requires Reaches(Link(hl, hr), c, d)
    ensures Reaches(Link(hl, hr), More(c, ml, mr), More(d, ml, mr))
  {
    hide Link, More;
    var schedule :| Run(Link(hl, hr), c, schedule) == Some(d);
    RunMore(hl, hr, c, schedule, ml, mr);
  }

  // ---- Choices form rounds ----

  ghost function Opening<H>(ls: seq<Option<string>>, rs: seq<Option<string>>): Config<Peer<H>, Msg> {
    Config(AtTop(ls, [], []), AtTop(rs, [], []), [], [])
  }

  function Rounds(ls: seq<Option<string>>, rs: seq<Option<string>>): seq<Round> {
    var n := if |ls| < |rs| then |ls| else |rs|;
    seq(n, i requires 0 <= i < n => Round(ls[i], rs[i]))
  }

  /** Both have had as many turns, or one is a turn ahead with a command that the other has not seen. */
  ghost predicate Balanced<H(!new)>(
    hl: Handlers<H>, hr: Handlers<H>, ls: seq<Option<string>>, rs: seq<Option<string>>)
  {
    && (forall i :: 0 <= i < |Rounds(ls, rs)| ==> RoundOk(hl, hr, Rounds(ls, rs)[i]))
    && (|ls| == |rs|
        || (|ls| == |rs| + 1 && ls[|rs|].Some? && Compatible(hl, hr, ls[|rs|].value, true))
        || (|rs| == |ls| + 1 && rs[|ls|].Some? && Compatible(hl, hr, rs[|ls|].value, false)))
  }

  /** Where such choices lead when nobody chooses anything more. */
  ghost function Closing<H>(ls: seq<Option<string>>, rs: seq<Option<string>>): Config<Peer<H>, Msg> {
    var rounds := Rounds(ls, rs);
    var l, r := AtTop([], Expected(rounds), Issued(Rights(rounds))), AtTop([], Expected(rounds), Issued(Lefts(rounds)));
    if |ls| > |rs| && ls[|rs|].Some? then
      Config(Issuing(l, ls[|rs|].value), r, [Text("cmd:" + ls[|rs|].value)], [])
    else if |rs| > |ls| && rs[|ls|].Some? then
      Config(l, Issuing(r, rs[|ls|].value), [], [Text("cmd:" + rs[|ls|].value)])
    else Config(l, r, [], [])
  }

  lemma RoundsBegin<H>(ls: seq<Option<string>>, rs: seq<Option<string>>)
    ensures var n := |Rounds(ls, rs)|;
      Begin<H>(Rounds(ls, rs)) == Opening<H>(ls[..n], rs[..n])
  {
    var n := |Rounds(ls, rs)|;
    assert Lefts(Rounds(ls, rs)) == ls[..n] && Rights(Rounds(ls, rs)) == rs[..n];
  }

  lemma OneTurnAhead<H(!new)>(
    hl: Handlers<H>, hr: Handlers<H>, c0: Config<Peer<H>, Msg>, l: Peer<H>, r: Peer<H>, c: string, left: bool)
    requires AtLoopTop(l) && AtLoopTop(r) && l.agenda == [] && r.agenda == []
    requires Reaches(Link(hl, hr), c0,
      More(Config(l, r, [], []), if left then [Some(c)] else [], if left then [] else [Some(c)]))
    ensures Reaches(Link(hl, hr), c0,
      if left then Config(Issuing(l, c), r, [Text("cmd:" + c)], [])
      else Config(l, Issuing(r, c), [], [Text("cmd:" + c)]))
  {
    hide Reaches;
    var none: seq<Option<string>>, some: seq<Option<string>>, quiet: seq<Msg> := [], [Some(c)], [];
    assert none + some == some && some[1..] == none && none + none == none;
    assert quiet + [Text("cmd:" + c)] == [Text("cmd:" + c)];
    if left {
      OneMore(Link(hl, hr), c0, More(Config(l, r, [], []), some, none), true,
        Config(Issuing(l, c), r, [Text("cmd:" + c)], []));
    } else {
      OneMore(Link(hl, hr), c0, More(Config(l, r, [], []), none, some), false,
        Config(l, Issuing(r, c), [], [Text("cmd:" + c)]));
    }
  }

  lemma ClosingQuiet<H(!new)>(hl: Handlers<H>, hr: Handlers<H>, ls: seq<Option<string>>, rs: seq<Option<string>>)
    ensures Quiet(Link(hl, hr), Closing(ls, rs))
  {
    hide Expected, Issued, Lefts, Rights, Rounds;
  }

  lemma BalancedEnds<H(!new)>(hl: Handlers<H>, hr: Handlers<H>, ls: seq<Option<string>>, rs: seq<Option<string>>)
    requires Balanced(hl, hr, ls, rs)
    ensures EndsAt(Link(hl, hr), Opening(ls, rs), Closing(ls, rs))
  {
    hide Reaches, Expected, Issued, RoundOk, Lefts, Rights, Compatible, Link;
    var rounds := Rounds(ls, rs);
    var n := |rounds|;
    CommandsSettle(hl, hr, rounds);
    RoundsBegin<H>(ls, rs);
    ClosingQuiet(hl, hr, ls, rs);
    var end: Config<Peer<H>, Msg> := Finish(rounds);
    if |ls| == |rs| {
      assert ls[..n] == ls && rs[..n] == rs;
    } else if |ls| > |rs| {
      ReachesMore(hl, hr, Opening(ls[..n], rs[..n]), end, [ls[n]], []);
      assert ls[..n] + [ls[n]] == ls && rs[..n] + [] == rs;
      OneTurnAhead(hl, hr, Opening(ls, rs), end.left, end.right, ls[n].value, true);
    } else {
      ReachesMore(hl, hr, Opening(ls[..n], rs[..n]), end, [], [rs[n]]);
      assert rs[..n] + [rs[n]] == rs && ls[..n] + [] == ls;
      OneTurnAhead(hl, hr, Opening(ls, rs), end.left, end.right, rs[n].value, false);
    }
  }

  // ---- The invariant ----

  /** The peers are where the rounds their choices form can lead. */
  ghost predicate Follows<H(!new)>(
    hl: Handlers<H>, hr: Handlers<H>, ls: seq<Option<string>>, rs: seq<Option<string>>, c: Config<Peer<H>, Msg>)
  {
    Balanced(hl, hr, ls, rs) && c.left.agenda == [] && c.right.agenda == [] && Reaches(Link(hl, hr), Opening(ls, rs), c)
  }

  /** A peer that cannot go on stays as it is, whatever the other does; and nothing it has done is
      undone meanwhile. */
  ghost predicate Ahead<H>(hl: Handlers<H>, hr: Handlers<H>, c: Config<Peer<H>, Msg>, d: Config<Peer<H>, Msg>) {
    && c.left.log <= d.left.log && c.left.acks <= d.left.acks
    && c.right.log <= d.right.log && c.right.acks <= d.right.acks
    && (Command.Act(hl, true, c.left).Halt? ==> d.left == c.left && c.toLeft <= d.toLeft)
    && (Command.Act(hr, false, c.right).Halt? ==> d.right == c.right && c.toRight <= d.toRight)
  }

  lemma StepAhead<H>(hl: Handlers<H>, hr: Handlers<H>, c: Config<Peer<H>, Msg>, x: bool)
    requires Step(Link(hl, hr), c, x).Some?
    ensures Ahead(hl, hr, c, Step(Link(hl, hr), c, x).value)
    ensures c.left.agenda == [] ==> Step(Link(hl, hr), c, x).value.left.agenda == []
    ensures c.right.agenda == [] ==> Step(Link(hl, hr), c, x).value.right.agenda == []
  {
    if x {
      ActAhead(hl, true, c.left);
    } else {
      ActAhead(hr, false, c.right);
    }
    hide Command.Act;
  }

  ghost predicate Later<H>(p: Peer<H>, q: Peer<H>) {
    p.log <= q.log && p.acks <= q.acks && (p.agenda == [] ==> q.agenda == [])
  }

  lemma ActAhead<H>(hs: Handlers<H>, initiator: bool, p: Peer<H>)
    ensures var a := Command.Act(hs, initiator, p);
      && (a.Skip? ==> Later(p, a.next)) && (a.Emit? ==> Later(p, a.after))
      && (a.Await? ==> forall m :: Later(p, a.receive(m)))
  {
  }

  lemma {:induction false} RunAhead<H>(
    hl: Handlers<H>, hr: Handlers<H>, c: Config<Peer<H>, Msg>, schedule: seq<bool>)
    requires Run(Link(hl, hr), c, schedule).Some?
    ensures Ahead(hl, hr, c, Run(Link(hl, hr), c, schedule).value)
    decreases |schedule|
  {
    hide Link, Step, Command.Act;
    if schedule != [] {
      StepAhead(hl, hr, c, schedule[0]);
      RunAhead(hl, hr, Step(Link(hl, hr), c, schedule[0]).value, schedule[1..]);
    }
  }

  /** What follows ends where the rounds end. */
  lemma FollowsEnds<H(!new)>(
    hl: Handlers<H>, hr: Handlers<H>, ls: seq<Option<string>>, rs: seq<Option<string>>, c: Config<Peer<H>, Msg>)
    returns (schedule: seq<bool>)
    requires Follows(hl, hr, ls, rs, c)
    ensures Run(Link(hl, hr), c, schedule) == Some(Closing(ls, rs))
    ensures Ahead(hl, hr, c, Closing(ls, rs))
  {
    hide Link, Balanced, Opening, Closing, Ahead;
    BalancedEnds(hl, hr, ls, rs);
    AllEndAlike(Link(hl, hr), Opening(ls, rs), Closing(ls, rs));
    var way :| Run(Link(hl, hr), Opening(ls, rs), way) == Some(c);
    assert Reaches(Link(hl, hr), c, Closing(ls, rs));
    schedule :| Run(Link(hl, hr), c, schedule) == Some(Closing(ls, rs));
    RunAhead(hl, hr, c, schedule);
  }

  lemma FollowsGo<H(!new)>(
    hl: Handlers<H>, hr: Handlers<H>, ls: seq<Option<string>>, rs: seq<Option<string>>, c: Config<Peer<H>, Msg>,
    x: bool)
    requires Follows(hl, hr, ls, rs, c) && Step(Link(hl, hr), c, x).Some?
    ensures Follows(hl, hr, ls, rs, Step(Link(hl, hr), c, x).value)
  {
    hide Link, Step, Balanced, Opening, Reaches, Ahead;
    StepAhead(hl, hr, c, x);
    OneMore(Link(hl, hr), Opening(ls, rs), c, x, Step(Link(hl, hr), c, x).value);
  }

  /** Whoever is at the top is not a turn ahead; and if a message waits, it is a turn behind. */
  lemma TurnsAtTop<H(!new)>(
    hl: Handlers<H>, hr: Handlers<H>, ls: seq<Option<string>>, rs: seq<Option<string>>, c: Config<Peer<H>, Msg>)
    requires Follows(hl, hr, ls, rs, c)
    ensures AtLoopTop(c.left) ==> |ls| <= |rs| && (c.toLeft != [] ==> |ls| < |rs|)
    ensures AtLoopTop(c.right) ==> |rs| <= |ls| && (c.toRight != [] ==> |rs| < |ls|)
  {
    hide Reaches, Link, Rounds, Expected, Issued, Lefts, Rights, RoundOk, Compatible;
    var schedule := FollowsEnds(hl, hr, ls, rs, c);
  }

  lemma MoreRounds(ls: seq<Option<string>>, rs: seq<Option<string>>, x: Option<string>)
    requires |ls| <= |rs| <= |ls| + 1
    ensures Rounds(ls + [x], rs) == Rounds(ls, rs) + if |ls| < |rs| then [Round(x, rs[|ls|])] else []
  {
    var a, b := Rounds(ls + [x], rs), Rounds(ls, rs) + if |ls| < |rs| then [Round(x, rs[|ls|])] else [];
    assert |a| == |b|;
    assert forall i :: 0 <= i < |a| ==> a[i] == b[i];
  }

  lemma MoreRoundsRight(ls: seq<Option<string>>, rs: seq<Option<string>>, x: Option<string>)
    requires |rs| <= |ls| <= |rs| + 1
    ensures Rounds(ls, rs + [x]) == Rounds(ls, rs) + if |rs| < |ls| then [Round(ls[|rs|], x)] else []
  {
    var a, b := Rounds(ls, rs + [x]), Rounds(ls, rs) + if |rs| < |ls| then [Round(ls[|rs|], x)] else [];
    assert |a| == |b|;
    assert forall i :: 0 <= i < |a| ==> a[i] == b[i];
  }

  lemma FollowsLeft<H(!new)>(
    hl: Handlers<H>, hr: Handlers<H>, ls: seq<Option<string>>, rs: seq<Option<string>>, c: Config<Peer<H>, Msg>,
    choice: Choice)
    requires Follows(hl, hr, ls, rs, c) && FreeStep(hl, hr, c, Choose(true, choice)).Some?
    requires choice.Issue? ==> Compatible(hl, hr, choice.command, true)
    ensures Follows(hl, hr, ls + [AsAgenda(choice)], rs, FreeStep(hl, hr, c, Choose(true, choice)).value)
  {
    hide Reaches, Compatible;
    TurnsAtTop(hl, hr, ls, rs, c);
    var sys, x := Link(hl, hr), AsAgenda(choice);
    MoreRounds(ls, rs, x);
    ReachesMore(hl, hr, Opening(ls, rs), c, [x], []);
    assert rs + [] == rs;
    var d := More(c, [x], []);
    assert d.left.agenda == [x] && d.left.agenda[1..] == c.left.agenda && d.right.agenda == c.right.agenda;
    assert d.right == c.right && d.left.(agenda := []) == c.left;
    var c0: Config<Peer<H>, Msg> := Opening(ls + [x], rs);
    match choice
    case Issue(a) =>
      OneMore(sys, c0, d, true, FreeStep(hl, hr, c, Choose(true, choice)).value);
    case Poll =>
      var e := c.(left := c.left.(todo := [Listen]));
      OneMore(sys, c0, d, true, e);
      OneMore(sys, c0, e, true, FreeStep(hl, hr, c, Choose(true, choice)).value);
  }

  lemma FollowsRight<H(!new)>(
    hl: Handlers<H>, hr: Handlers<H>, ls: seq<Option<string>>, rs: seq<Option<string>>, c: Config<Peer<H>, Msg>,
    choice: Choice)
    requires Follows(hl, hr, ls, rs, c) && FreeStep(hl, hr, c, Choose(false, choice)).Some?
    requires choice.Issue? ==> Compatible(hl, hr, choice.command, false)
    ensures Follows(hl, hr, ls, rs + [AsAgenda(choice)], FreeStep(hl, hr, c, Choose(false, choice)).value)
  {
    hide Reaches, Compatible;
    TurnsAtTop(hl, hr, ls, rs, c);
    var sys, x := Link(hl, hr), AsAgenda(choice);
    MoreRoundsRight(ls, rs, x);
    ReachesMore(hl, hr, Opening(ls, rs), c, [], [x]);
    assert ls + [] == ls;
    var d := More(c, [], [x]);
    assert d.right.agenda == [x] && d.right.agenda[1..] == c.right.agenda && d.left.agenda == c.left.agenda;
    assert d.left == c.left && d.right.(agenda := []) == c.right;
    var c0: Config<Peer<H>, Msg> := Opening(ls, rs + [x]);
    match choice
    case Issue(a) =>
      OneMore(sys, c0, d, false, FreeStep(hl, hr, c, Choose(false, choice)).value);
    case Poll =>
      var e := c.(right := c.right.(todo := [Listen]));
      OneMore(sys, c0, d, false, e);
      OneMore(sys, c0, e, false, FreeStep(hl, hr, c, Choose(false, choice)).value);
  }

  /** Every run follows the rounds that its choices form. */
  lemma {:induction false} RunFollows<H(!new)>(hl: Handlers<H>, hr: Handlers<H>, moves: seq<Move>)
    requires FreeRun(hl, hr, moves).Some? && Sound(hl, hr, moves)
    ensures Follows(hl, hr, Choices(moves, true), Choices(moves, false), FreeRun(hl, hr, moves).value)
    decreases |moves|
  {
    hide FreeStep, Follows, Compatible, Link;
    if moves == [] {
      StartFollows(hl, hr);
    } else {
      var front, m := moves[..|moves| - 1], moves[|moves| - 1];
      assert Sound(hl, hr, front);
      RunFollows(hl, hr, front);
      var ls, rs, c := Choices(front, true), Choices(front, false), FreeRun(hl, hr, front).value;
      assert ls + [] == ls && rs + [] == rs;
      MoveFollows(hl, hr, ls, rs, c, m);
    }
  }

  lemma StartFollows<H(!new)>(hl: Handlers<H>, hr: Handlers<H>)
    ensures Follows(hl, hr, [], [], Opening<H>([], []))
  {
    ReachesItself(Link(hl, hr), Opening<H>([], []));
    hide Reaches, Link;
  }

  lemma MoveFollows<H(!new)>(
    hl: Handlers<H>, hr: Handlers<H>, ls: seq<Option<string>>, rs: seq<Option<string>>, c: Config<Peer<H>, Msg>,
    m: Move)
    requires Follows(hl, hr, ls, rs, c) && FreeStep(hl, hr, c, m).Some?
    requires m.Choose? && m.choice.Issue? ==> Compatible(hl, hr, m.choice.command, m.left)
    ensures Follows(hl, hr, ls + (if m.Choose? && m.left then [AsAgenda(m.choice)] else []),
                    rs + (if m.Choose? && !m.left then [AsAgenda(m.choice)] else []), FreeStep(hl, hr, c, m).value)
  {
    hide Follows, Compatible, Link;
    assert ls + [] == ls && rs + [] == rs;
    match m
    case Go(x) => FollowsGo(hl, hr, ls, rs, c, x);
    case Choose(true, choice) => FollowsLeft(hl, hr, ls, rs, c, choice);
    case Choose(false, choice) => FollowsRight(hl, hr, ls, rs, c, choice);
  }

  // ---- What that means for every run ----

  function AllRounds(moves: seq<Move>): seq<Round> { Rounds(Choices(moves, true), Choices(moves, false)) }

  /** Whatever the peers choose, and however they interleave: nobody fails, and both have handled
      commands, and acknowledged them, in one order, as far as each has come. */
  lemma LoopsAgree<H(!new)>(hl: Handlers<H>, hr: Handlers<H>, moves: seq<Move>)
    requires FreeRun(hl, hr, moves).Some? && Sound(hl, hr, moves)
    ensures var c, rounds := FreeRun(hl, hr, moves).value, AllRounds(moves);
      && !c.left.failed && !c.right.failed
      && c.left.log <= Expected(rounds) && c.right.log <= Expected(rounds)
      && c.left.acks <= Issued(Rights(rounds)) && c.right.acks <= Issued(Lefts(rounds))
  {
    hide FreeRun, Follows, Sound, Reaches, Link, Expected, Issued, Lefts, Rights, Rounds;
    RunFollows(hl, hr, moves);
    var c := FreeRun(hl, hr, moves).value;
    var schedule := FollowsEnds(hl, hr, Choices(moves, true), Choices(moves, false), c);
  }

  /** Both are back at the top with nothing under way, having handled all commands in the same order
      and acknowledged each once. */
  ghost predicate Rested<H(!new)>(hl: Handlers<H>, hr: Handlers<H>, moves: seq<Move>) {
    FreeRun(hl, hr, moves).Some? &&
    var c, rounds := FreeRun(hl, hr, moves).value, AllRounds(moves);
    && AtLoopTop(c.left) && AtLoopTop(c.right) && c.toLeft == [] && c.toRight == []
    && |Choices(moves, true)| == |Choices(moves, false)|
    && c.left.log == c.right.log == Expected(rounds)
    && c.left.acks == Issued(Rights(rounds)) && c.right.acks == Issued(Lefts(rounds))
  }

  predicate IssuesNothing(moves: seq<Move>) {
    forall i :: 0 <= i < |moves| ==> !(moves[i].Choose? && moves[i].choice.Issue?)
  }

  function Goes(schedule: seq<bool>): seq<Move> {
    seq(|schedule|, i requires 0 <= i < |schedule| => Go(schedule[i]))
  }

  lemma {:induction false} RunGoes<H>(hl: Handlers<H>, hr: Handlers<H>, moves: seq<Move>, schedule: seq<bool>)
    requires FreeRun(hl, hr, moves).Some? && FreeRun(hl, hr, moves + Goes(schedule)).Some?
    ensures FreeRun(hl, hr, moves + Goes(schedule)) == Run(Link(hl, hr), FreeRun(hl, hr, moves).value, schedule)
    decreases |schedule|
  {
    hide Link, Step;
    if schedule == [] {
      assert moves + Goes(schedule) == moves;
    } else {
      var front, x := schedule[..|schedule| - 1], schedule[|schedule| - 1];
      var all := moves + Goes(schedule);
      assert all[..|all| - 1] == moves + Goes(front) && all[|all| - 1] == Go(x) && schedule == front + [x];
      RunGoes(hl, hr, moves, front);
      RunConcat(Link(hl, hr), FreeRun(hl, hr, moves).value, front, [x]);
    }
  }

  /** What a run goes through without another choice is bounded by the choices so far. */
  lemma GoesBounded<H(!new)>(
    hl: Handlers<H>, hr: Handlers<H>, moves: seq<Move>, schedule: seq<bool>, bound: nat)
    requires FreeRun(hl, hr, moves).Some? && FreeRun(hl, hr, moves + Goes(schedule)).Some? && Sound(hl, hr, moves)
    requires Bounded(Link(hl, hr), Opening(Choices(moves, true), Choices(moves, false)), bound)
    ensures |schedule| <= bound
  {
    hide FreeRun, Link, Sound, Choices, Balanced, Opening;
    RunFollows(hl, hr, moves);
    RunGoes(hl, hr, moves, schedule);
    var start, c := Opening<H>(Choices(moves, true), Choices(moves, false)), FreeRun(hl, hr, moves).value;
    var way :| Run(Link(hl, hr), start, way) == Some(c);
    RunConcat(Link(hl, hr), start, way, schedule);
    assert Run(Link(hl, hr), start, way + schedule).Some?;
  }

  /** Nothing is under way and nobody has a message to take up. */
  ghost predicate NothingLeft<H(!new)>(hl: Handlers<H>, hr: Handlers<H>, c: Config<Peer<H>, Msg>) {
    forall m: Move :: (m.Choose? ==> m.choice.Poll?) ==> FreeStep(hl, hr, c, m).None?
  }

  /** Where nothing is left to do, both are back at the top, and even. */
  lemma NothingLeftRests<H(!new)>(hl: Handlers<H>, hr: Handlers<H>, moves: seq<Move>)
    requires FreeRun(hl, hr, moves).Some? && Sound(hl, hr, moves) && NothingLeft(hl, hr, FreeRun(hl, hr, moves).value)
    ensures Rested(hl, hr, moves)
  {
    hide Follows, Reaches, Link, Sound, Rested, Step, Choices, Balanced, Closing, Ahead;
    RunFollows(hl, hr, moves);
    var ls, rs, c := Choices(moves, true), Choices(moves, false), FreeRun(hl, hr, moves).value;
    var schedule := FollowsEnds(hl, hr, ls, rs, c);
    FollowsBalanced(hl, hr, ls, rs, c);
    if schedule != [] {
      NothingPossible(hl, hr, c, Go(schedule[0]));
    }
    if |ls| == |rs| {
      ClosedIsRested(hl, hr, moves);
    } else {
      var m := Choose(|ls| < |rs|, Poll);
      assert (moves + [m])[..|moves|] == moves;
      NothingPossible(hl, hr, c, m);
      OtherPolls(hl, hr, moves, |rs| < |ls|);
    }
  }

  lemma NothingPossible<H(!new)>(hl: Handlers<H>, hr: Handlers<H>, c: Config<Peer<H>, Msg>, m: Move)
    requires NothingLeft(hl, hr, c) && (m.Choose? ==> m.choice.Poll?)
    ensures FreeStep(hl, hr, c, m).None?
  {
  }

  /** Without another command there is at most one more choice: whoever is a turn behind takes up the
      other's command. */
  ghost predicate Tail(moves: seq<Move>, more: seq<Move>, before: seq<bool>, after: seq<bool>) {
    var ls, rs := Choices(moves, true), Choices(moves, false);
    more == Goes(before) || (|ls| != |rs| && more == Goes(before) + [Choose(|ls| < |rs|, Poll)] + Goes(after))
  }

  lemma GoesMore(schedule: seq<bool>, x: bool)
    ensures Goes(schedule + [x]) == Goes(schedule) + [Go(x)]
  {
  }

  lemma {:induction false} TailShape<H(!new)>(hl: Handlers<H>, hr: Handlers<H>, moves: seq<Move>, more: seq<Move>)
    returns (before: seq<bool>, after: seq<bool>)
    requires FreeRun(hl, hr, moves).Some? && Sound(hl, hr, moves)
    requires FreeRun(hl, hr, moves + more).Some? && IssuesNothing(more)
    ensures Tail(moves, more, before, after)
    decreases |more|
  {
    hide Sound, FreeStep, Choices;
    before, after := [], [];
    if more != [] {
      var front, m := more[..|more| - 1], more[|more| - 1];
      assert (moves + more)[..|moves + more| - 1] == moves + front && more == front + [m];
      before, after := TailShape(hl, hr, moves, front);
      match m
      case Go(x) =>
        GoesMore(before, x);
        GoesMore(after, x);
        if front == Goes(before) {
          before := before + [x];
        } else {
          after := after + [x];
        }
      case Choose(left, choice) =>
        SoundMore(hl, hr, moves, front);
        PollsOnce(hl, hr, moves, front, before, after, left);
        assert Goes([]) == [] && more + [] == more;
        after := [];
    }
  }

  lemma PollsOnce<H(!new)>(
    hl: Handlers<H>, hr: Handlers<H>, moves: seq<Move>, front: seq<Move>, before: seq<bool>, after: seq<bool>,
    left: bool)
    requires FreeRun(hl, hr, moves).Some? && FreeRun(hl, hr, moves + front).Some?
    requires Sound(hl, hr, moves) && Sound(hl, hr, moves + front) && Tail(moves, front, before, after)
    requires FreeStep(hl, hr, FreeRun(hl, hr, moves + front).value, Choose(left, Poll)).Some?
    ensures front == Goes(before)
    ensures var ls, rs := Choices(moves, true), Choices(moves, false); |ls| != |rs| && left == (|ls| < |rs|)
  {
    hide Sound, Follows, Goes;
    RunFollows(hl, hr, moves + front);
    TurnsAtTop(hl, hr, Choices(moves + front, true), Choices(moves + front, false),
               FreeRun(hl, hr, moves + front).value);
    RunFollows(hl, hr, moves);
    FollowsBalanced(hl, hr, Choices(moves, true), Choices(moves, false), FreeRun(hl, hr, moves).value);
    hide FreeStep, FreeRun, Choices;
    TailChoices(moves, front, before, after, true);
    TailChoices(moves, front, before, after, false);
  }

  lemma {:induction false} ChoicesGoes(moves: seq<Move>, schedule: seq<bool>, left: bool)
    ensures Choices(moves + Goes(schedule), left) == Choices(moves, left)
    decreases |schedule|
  {
    var all := moves + Goes(schedule);
    if schedule == [] {
      assert all == moves;
    } else {
      var front, x := schedule[..|schedule| - 1], schedule[|schedule| - 1];
      assert all[..|all| - 1] == moves + Goes(front) && all[|all| - 1] == Go(x);
      ChoicesGoes(moves, front, left);
      assert Choices(moves, left) + [] == Choices(moves, left);
    }
  }

  lemma ChoicesMore(moves: seq<Move>, m: Move, left: bool)
    requires m.Choose?
    ensures Choices(moves + [m], left) ==
      if m.left == left then Choices(moves, left) + [AsAgenda(m.choice)] else Choices(moves, left)
  {
    assert (moves + [m])[..|moves|] == moves;
    assert Choices(moves, left) + [] == Choices(moves, left);
  }

  /** A peer's turns once it has taken up what the other is ahead with. */
  function Evened(mine: seq<Option<string>>, others: seq<Option<string>>): seq<Option<string>> {
    if |mine| < |others| then mine + [None] else mine
  }

  /** The choices after such a tail. */
  lemma TailChoices(moves: seq<Move>, more: seq<Move>, before: seq<bool>, after: seq<bool>, left: bool)
    requires Tail(moves, more, before, after)
    ensures var ls, rs := Choices(moves, true), Choices(moves, false);
      Choices(moves + more, left) ==
        if more == Goes(before) then Choices(moves, left) else if left then Evened(ls, rs) else Evened(rs, ls)
  {
    hide Choices, Goes;
    ChoicesGoes(moves, before, left);
    if more != Goes(before) {
      var m := Choose(|Choices(moves, true)| < |Choices(moves, false)|, Poll);
      ChoicesMore(moves + Goes(before), m, left);
      ChoicesGoes(moves + Goes(before) + [m], after, left);
      assert moves + more == moves + Goes(before) + [m] + Goes(after);
    }
  }

  lemma OpeningBounded<H(!new)>(hl: Handlers<H>, hr: Handlers<H>, ls: seq<Option<string>>, rs: seq<Option<string>>)
    returns (bound: nat)
    requires Balanced(hl, hr, ls, rs)
    ensures Bounded(Link(hl, hr), Opening(ls, rs), bound)
  {
    hide Link, Balanced, Opening, Closing, Bounded;
    BalancedEnds(hl, hr, ls, rs);
    AllEndAlike(Link(hl, hr), Opening(ls, rs), Closing(ls, rs));
    bound :| Bounded(Link(hl, hr), Opening(ls, rs), bound);
  }

  lemma PollEvens<H(!new)>(hl: Handlers<H>, hr: Handlers<H>, ls: seq<Option<string>>, rs: seq<Option<string>>)
    requires Balanced(hl, hr, ls, rs) && |ls| != |rs|
    ensures Balanced(hl, hr, Evened(ls, rs), Evened(rs, ls))
  {
    hide Rounds, Compatible;
    if |ls| < |rs| {
      MoreRounds(ls, rs, None);
    } else {
      MoreRoundsRight(ls, rs, None);
    }
  }

  /** From anywhere, however they go on without another command: it takes no more than so many moves,
      and where nothing is left to do both are back at the tops of their loops. */
  lemma LoopsRest<H(!new)>(hl: Handlers<H>, hr: Handlers<H>, moves: seq<Move>) returns (bound: nat)
    requires FreeRun(hl, hr, moves).Some? && Sound(hl, hr, moves)
    ensures forall more :: IssuesNothing(more) && FreeRun(hl, hr, moves + more).Some? ==>
      && |more| <= bound
      && (NothingLeft(hl, hr, FreeRun(hl, hr, moves + more).value) ==> Rested(hl, hr, moves + more))
  {
    hide FreeRun, Sound, Rested, Choices, Balanced, Follows, NothingLeft, Bounded, Link, Opening, IssuesNothing;
    RunFollows(hl, hr, moves);
    var ls, rs := Choices(moves, true), Choices(moves, false);
    FollowsBalanced(hl, hr, ls, rs, FreeRun(hl, hr, moves).value);
    var first := OpeningBounded(hl, hr, ls, rs);
    var second := 0;
    if |ls| != |rs| {
      PollEvens(hl, hr, ls, rs);
      second := OpeningBounded(hl, hr, Evened(ls, rs), Evened(rs, ls));
    }
    bound := first + 1 + second;
    forall more | IssuesNothing(more) && FreeRun(hl, hr, moves + more).Some?
      ensures |more| <= bound
      ensures NothingLeft(hl, hr, FreeRun(hl, hr, moves + more).value) ==> Rested(hl, hr, moves + more)
    {
      SoundMore(hl, hr, moves, more);
      if NothingLeft(hl, hr, FreeRun(hl, hr, moves + more).value) {
        NothingLeftRests(hl, hr, moves + more);
      }
      TailBounded(hl, hr, moves, more, first, second);
    }
  }

  lemma TailBounded<H(!new)>(
    hl: Handlers<H>, hr: Handlers<H>, moves: seq<Move>, more: seq<Move>, first: nat, second: nat)
    requires FreeRun(hl, hr, moves).Some? && Sound(hl, hr, moves)
    requires IssuesNothing(more) && FreeRun(hl, hr, moves + more).Some?
    requires var ls, rs := Choices(moves, true), Choices(moves, false);
      && Bounded(Link(hl, hr), Opening(ls, rs), first)
      && (|ls| != |rs| ==> Bounded(Link(hl, hr), Opening(Evened(ls, rs), Evened(rs, ls)), second))
    ensures |more| <= first + 1 + second
  {
    hide FreeRun, Sound, Choices, Bounded, Link, Opening;
    var before, after := TailShape(hl, hr, moves, more);
    Prefix(hl, hr, moves, more, |before|);
    assert more[..|before|] == Goes(before);
    GoesBounded(hl, hr, moves, before, first);
    if more != Goes(before) {
      var m := Choose(|Choices(moves, true)| < |Choices(moves, false)|, Poll);
      var polled := Goes(before) + [m];
      assert more[..|polled|] == polled && more == polled + Goes(after) && moves + more == moves + polled + Goes(after);
      Prefix(hl, hr, moves, more, |polled|);
      assert IssuesNothing(polled);
      SoundMore(hl, hr, moves, polled);
      assert polled == Goes(before) + [m] + Goes([]);
      TailChoices(moves, polled, before, [], true);
      TailChoices(moves, polled, before, [], false);
      GoesBounded(hl, hr, moves + polled, after, second);
    }
  }

  /** A run can be looked at earlier. */
  lemma {:induction false} Prefix<H>(hl: Handlers<H>, hr: Handlers<H>, moves: seq<Move>, more: seq<Move>, n: nat)
    requires FreeRun(hl, hr, moves + more).Some? && n <= |more|
    ensures FreeRun(hl, hr, moves + more[..n]).Some?
    decreases |more|
  {
    hide FreeStep;
    if n == |more| {
      assert more[..n] == more;
    } else {
      var front := more[..|more| - 1];
      assert (moves + more)[..|moves + more| - 1] == moves + front && front[..n] == more[..n];
      Prefix(hl, hr, moves, front, n);
    }
  }

  lemma FollowsBalanced<H(!new)>(
    hl: Handlers<H>, hr: Handlers<H>, ls: seq<Option<string>>, rs: seq<Option<string>>, c: Config<Peer<H>, Msg>)
    requires Follows(hl, hr, ls, rs, c)
    ensures Balanced(hl, hr, ls, rs)
  {
  }

  lemma SoundMore<H(!new)>(hl: Handlers<H>, hr: Handlers<H>, moves: seq<Move>, more: seq<Move>)
    requires Sound(hl, hr, moves) && IssuesNothing(more)
    ensures Sound(hl, hr, moves + more)
  {
    hide Compatible;
  }

  lemma ClosedIsRested<H(!new)>(hl: Handlers<H>, hr: Handlers<H>, moves: seq<Move>)
    requires |Choices(moves, true)| == |Choices(moves, false)|
    requires FreeRun(hl, hr, moves) == Some(Closing(Choices(moves, true), Choices(moves, false)))
    ensures Rested(hl, hr, moves)
  {
    hide FreeRun, Expected, Issued, Lefts, Rights, Rounds, Choices;
  }

  /** Of two peers a turn apart, the one behind finds the other's command waiting. */
  lemma OtherPolls<H(!new)>(hl: Handlers<H>, hr: Handlers<H>, moves: seq<Move>, leftAhead: bool)
    requires var ls, rs := Choices(moves, true), Choices(moves, false);
      && FreeRun(hl, hr, moves) == Some(Closing(ls, rs)) && Balanced(hl, hr, ls, rs)
      && (if leftAhead then |rs| < |ls| else |ls| < |rs|)
    ensures FreeRun(hl, hr, moves + [Choose(!leftAhead, Poll)]).Some?
    ensures |Choices(moves + [Choose(!leftAhead, Poll)], true)| == |Choices(moves + [Choose(!leftAhead, Poll)], false)|
  {
    hide Expected, Issued, Lefts, Rights, Rounds, RoundOk, Compatible;
    var more := moves + [Choose(!leftAhead, Poll)];
    assert more[..|more| - 1] == moves;
  }
}
