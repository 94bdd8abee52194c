/** Issuing commands over a connection.  Both peers may issue one at the same time; the one that
    initiated the connection then yields.  What a command's two handlers say to each other is left
    to them. */
module Command {
  import opened Core
  import opened Network
  import opened Sync

  /** One peer's handlers: how each starts, as the command's issuer or not, and how it goes on. */
  datatype Handlers<!H> = Handlers(start: (string, bool) -> H, run: H -> Action<H, Msg>)

  /** What a peer still has to do before it is back at the top of its loop. */
  datatype Todo =
    | Listen
    | HearReply(command: string)
    | ExpectAck(command: string)
    | Acknowledge(command: string)
    | Handle(command: string, ours: bool)

  datatype Ran = Ran(command: string, byInitiator: bool)

  /** A peer: each entry of its agenda is a command to issue, or nothing but listening. */
  datatype Peer<H> = Peer(
    agenda: seq<Option<string>>, todo: seq<Todo>, running: Option<H>, log: seq<Ran>, acks: seq<string>, failed: bool)

  function Done<H>(p: Peer<H>): Peer<H>
    requires p.todo != []
  {
    p.(todo := p.todo[1..])
  }

  predicate IsCommand(m: Msg) { m.Text? && "cmd:" <= m.text }

  function CommandOf(m: Msg): string
    requires IsCommand(m)
  {
    m.text[4..]
  }

  function Act<H>(hs: Handlers<H>, initiator: bool, p: Peer<H>): Action<Peer<H>, Msg> {
    if p.failed then Halt
    else if p.running.Some? then
      (match hs.run(p.running.value)
       case Halt => Skip(p.(running := None))
       case Skip(next) => Skip(p.(running := Some(next)))
       case Emit(msg, after) => Emit(msg, p.(running := Some(after)))
       case Await(receive) => Await((m: Msg) => p.(running := Some(receive(m)))))
    else if p.todo == [] then
      if p.agenda == [] then Halt
      else
        (match p.agenda[0]
         case None => Skip(p.(agenda := p.agenda[1..], todo := [Listen]))
         case Some(c) => Emit(Text("cmd:" + c), p.(agenda := p.agenda[1..], todo := [HearReply(c)])))
    else
      match p.todo[0]
      case Acknowledge(c) => Emit(Text("ack:" + c), Done(p).(acks := p.acks + [c]))
      case Handle(c, ours) =>
        Skip(Done(p).(running := Some(hs.start(c, ours)), log := p.log + [Ran(c, ours == initiator)]))
      case _ => Await((m: Msg) => Take(initiator, p, m))
  }

  /** A message that a waiting peer gets. */
  function Take<H>(initiator: bool, p: Peer<H>, m: Msg): Peer<H> {
    if p.todo == [] then p.(failed := true)
    else
      match p.todo[0]
      case Listen =>
        if IsCommand(m) then p.(todo := [Acknowledge(CommandOf(m)), Handle(CommandOf(m), false)] + p.todo[1..])
        else p.(failed := true)
      case HearReply(c) =>
        if m == Text("ack:" + c) then p.(todo := [Handle(c, true)] + p.todo[1..])
        else if !IsCommand(m) then p.(failed := true)
        else
          var first := [Acknowledge(CommandOf(m)), Handle(CommandOf(m), false)];
          var second := [ExpectAck(c), Handle(c, true)];
          // Both issued one: the initiator honours the other's command first.
          p.(todo := (if initiator then first + second else second + first) + p.todo[1..])
      case ExpectAck(c) => if m == Text("ack:" + c) then Done(p) else p.(failed := true)
      case _ => p.(failed := true)
  }

  function Program<H>(hs: Handlers<H>, initiator: bool): Peer<H> -> Action<Peer<H>, Msg> {
    p => Act(hs, initiator, p)
  }

  /** The initiator on the left. */
  function Link<H>(hl: Handlers<H>, hr: Handlers<H>): System<Peer<H>, Msg> {
    System(Program(hl, true), Program(hr, false))
  }

  // ---- What the handlers must do ----

  function Talk<H>(hl: Handlers<H>, hr: Handlers<H>): System<H, Msg> { System(hl.run, hr.run) }

  /** Left alone, the two handlers of a command come to an end with nothing left unread.  The word
      that closes a connection is no command. */
  ghost predicate Compatible<H(!new)>(hl: Handlers<H>, hr: Handlers<H>, c: string, leftIssues: bool) {
    c != "close" && exists l, r :: HandlersEnd(hl, hr, c, leftIssues, l, r)
  }

  ghost predicate HandlersEnd<H(!new)>(hl: Handlers<H>, hr: Handlers<H>, c: string, leftIssues: bool, l: H, r: H) {
    && hl.run(l).Halt? && hr.run(r).Halt?
    && Reaches(Talk(hl, hr), Config(hl.start(c, leftIssues), hr.start(c, !leftIssues), [], []), Config(l, r, [], []))
  }

  function Inside<H>(l: Peer<H>, r: Peer<H>, c: Config<H, Msg>): Config<Peer<H>, Msg> {
    Config(l.(running := Some(c.left)), r.(running := Some(c.right)), c.toRight, c.toLeft)
  }

  lemma StepInside<H(!new)>(
    hl: Handlers<H>, hr: Handlers<H>, l: Peer<H>, r: Peer<H>, c: Config<H, Msg>, x: bool)
    requires !l.failed && !r.failed && Step(Talk(hl, hr), c, x).Some?
    ensures Step(Link(hl, hr), Inside(l, r, c), x) == Some(Inside(l, r, Step(Talk(hl, hr), c, x).value))
  {
  }

  /** A conversation of handlers runs the same inside their peers. */
  lemma {:induction false} RunInside<H(!new)>(
    hl: Handlers<H>, hr: Handlers<H>, l: Peer<H>, r: Peer<H>, c: Config<H, Msg>, schedule: seq<bool>)
    requires !l.failed && !r.failed && Run(Talk(hl, hr), c, schedule).Some?
    ensures Run(Link(hl, hr), Inside(l, r, c), schedule) == Some(Inside(l, r, Run(Talk(hl, hr), c, schedule).value))
    decreases |schedule|
  {
    hide Talk, Link, Step, Inside;
    if schedule != [] {
      StepInside(hl, hr, l, r, c, schedule[0]);
      RunInside(hl, hr, l, r, Step(Talk(hl, hr), c, schedule[0]).value, schedule[1..]);
    }
  }

  // ---- Rounds ----

  datatype Round = Round(left: Option<string>, right: Option<string>)

  function Lefts(rounds: seq<Round>): seq<Option<string>> {
    seq(|rounds|, i requires 0 <= i < |rounds| => rounds[i].left)
  }

  function Rights(rounds: seq<Round>): seq<Option<string>> {
    seq(|rounds|, i requires 0 <= i < |rounds| => rounds[i].right)
  }

  /** The order in which a round's commands are handled. */
  function Order(round: Round): seq<Ran> {
    (if round.right.Some? then [Ran(round.right.value, false)] else [])
    + (if round.left.Some? then [Ran(round.left.value, true)] else [])
  }

  function Expected(rounds: seq<Round>): seq<Ran> {
    if rounds == [] then [] else Order(rounds[0]) + Expected(rounds[1..])
  }

  function Issued(agenda: seq<Option<string>>): seq<string> {
    if agenda == [] then []
    else (if agenda[0].Some? then [agenda[0].value] else []) + Issued(agenda[1..])
  }

  /** Somebody issues a command, and the handlers of each are compatible. */
  ghost predicate RoundOk<H(!new)>(hl: Handlers<H>, hr: Handlers<H>, round: Round) {
    && (round.left.Some? || round.right.Some?)
    && (round.left.Some? ==> Compatible(hl, hr, round.left.value, true))
    && (round.right.Some? ==> Compatible(hl, hr, round.right.value, false))
  }

  function AtTop<H>(agenda: seq<Option<string>>, log: seq<Ran>, acks: seq<string>): Peer<H> {
    Peer(agenda, [], None, log, acks, false)
  }

  /** Both peers are about to handle the same command. */
  lemma HandleBoth<H(!new)>(
    hl: Handlers<H>, hr: Handlers<H>, c0: Config<Peer<H>, Msg>, l: Peer<H>, r: Peer<H>, c: string, leftIssues: bool)
    requires !l.failed && !r.failed && l.running.None? && r.running.None?
    requires l.todo != [] && l.todo[0] == Handle(c, leftIssues) && r.todo != [] && r.todo[0] == Handle(c, !leftIssues)
    requires Compatible(hl, hr, c, leftIssues)
    requires Reaches(Link(hl, hr), c0, Config(l, r, [], []))
    ensures Reaches(Link(hl, hr), c0,
              Config(Done(l).(log := l.log + [Ran(c, leftIssues)]),
                     Done(r).(log := r.log + [Ran(c, leftIssues)]), [], []))
  {
    hide Reaches;
    var sys := Link(hl, hr);
    var l1, r1 := Done(l).(log := l.log + [Ran(c, leftIssues)]), Done(r).(log := r.log + [Ran(c, leftIssues)]);
    var lh, rh := hl.start(c, leftIssues), hr.start(c, !leftIssues);
    OneMore(sys, c0, Config(l, r, [], []), true, Config(l1.(running := Some(lh)), r, [], []));
    OneMore(sys, c0, Config(l1.(running := Some(lh)), r, [], []), false, Inside(l1, r1, Config(lh, rh, [], [])));
    var le, re :| HandlersEnd(hl, hr, c, leftIssues, le, re);
    HandlersInside(hl, hr, l1, r1, Config(lh, rh, [], []), Config(le, re, [], []));
    ReachesOn(sys, c0, Inside(l1, r1, Config(lh, rh, [], [])), Inside(l1, r1, Config(le, re, [], [])));
    OneMore(sys, c0, Inside(l1, r1, Config(le, re, [], [])), true, Config(l1, r1.(running := Some(re)), [], []));
    OneMore(sys, c0, Config(l1, r1.(running := Some(re)), [], []), false, Config(l1, r1, [], []));
  }

  lemma HandlersInside<H(!new)>(
    hl: Handlers<H>, hr: Handlers<H>, l: Peer<H>, r: Peer<H>, c: Config<H, Msg>, d: Config<H, Msg>)
    requires !l.failed && !r.failed && Reaches(Talk(hl, hr), c, d)
    ensures Reaches(Link(hl, hr), Inside(l, r, c), Inside(l, r, d))
  {
    var schedule :| Run(Talk(hl, hr), c, schedule) == Some(d);
    RunInside(hl, hr, l, r, c, schedule);
  }

  lemma Texts(c: string, d: string)
    ensures IsCommand(Text("cmd:" + c)) && CommandOf(Text("cmd:" + c)) == c
    ensures Text("cmd:" + c) != Text("ack:" + d)
    ensures "ack:" + c == "ack:" + d ==> c == d
  {
    assert ("cmd:" + c)[4..] == c && ("ack:" + c)[4..] == c && ("ack:" + d)[4..] == d;
    assert ("cmd:" + c)[0] == 'c' && ("ack:" + d)[0] == 'a';
  }

  /** Only the left peer issues. */
  lemma LeftIssues<H(!new)>(
    hl: Handlers<H>, hr: Handlers<H>, c0: Config<Peer<H>, Msg>, a: string,
    tl: seq<Option<string>>, tr: seq<Option<string>>, log: seq<Ran>, al: seq<string>, ar: seq<string>)
    requires Compatible(hl, hr, a, true)
    requires Reaches(Link(hl, hr), c0, Config(AtTop([Some(a)] + tl, log, al), AtTop([None] + tr, log, ar), [], []))
    ensures Reaches(Link(hl, hr), c0,
              Config(AtTop(tl, log + [Ran(a, true)], al), AtTop(tr, log + [Ran(a, true)], ar + [a]), [], []))
  {
    hide Reaches;
    var sys, l, r := Link(hl, hr), AtTop([Some(a)] + tl, log, al), AtTop([None] + tr, log, ar);
    Texts(a, a);
    assert l.agenda[1..] == tl && r.agenda[1..] == tr;
    var r1 := r.(agenda := tr, todo := [Listen]);
    OneMore(sys, c0, Config(l, r, [], []), false, Config(l, r1, [], []));
    PassRight(sys, c0, Config(l, r1, [], []));
    var l2 := l.(agenda := tl, todo := [HearReply(a)]);
    var r2 := r1.(todo := [Acknowledge(a), Handle(a, false)]);
    assert [Acknowledge(a), Handle(a, false)] + [Listen][1..] == [Acknowledge(a), Handle(a, false)];
    assert Reaches(sys, c0, Config(l2, r2, [], []));
    Answered(hl, hr, c0, l2, r2, a);
    var l3, r3 := l2.(todo := [Handle(a, true)]), r2.(todo := [Handle(a, false)], acks := ar + [a]);
    HandleBoth(hl, hr, c0, l3, r3, a, true);
    assert Done(l3).(log := log + [Ran(a, true)]) == AtTop(tl, log + [Ran(a, true)], al);
    assert Done(r3).(log := log + [Ran(a, true)]) == AtTop(tr, log + [Ran(a, true)], ar + [a]);
  }

  /** The happy path of the left peer's command: it is acknowledged. */
  lemma Answered<H(!new)>(
    hl: Handlers<H>, hr: Handlers<H>, c0: Config<Peer<H>, Msg>, l: Peer<H>, r: Peer<H>, a: string)
    requires !l.failed && !r.failed && l.running.None? && r.running.None?
    requires l.todo == [HearReply(a)] && r.todo == [Acknowledge(a), Handle(a, false)]
    requires Reaches(Link(hl, hr), c0, Config(l, r, [], []))
    ensures Reaches(Link(hl, hr), c0,
              Config(l.(todo := [Handle(a, true)]), r.(todo := [Handle(a, false)], acks := r.acks + [a]), [], []))
  {
    hide Reaches;
    PassLeft(Link(hl, hr), c0, Config(l, r, [], []));
    assert [Handle(a, true)] + l.todo[1..] == [Handle(a, true)] && r.todo[1..] == [Handle(a, false)];
  }

  lemma RightIssues<H(!new)>(
    hl: Handlers<H>, hr: Handlers<H>, c0: Config<Peer<H>, Msg>, b: string,
    tl: seq<Option<string>>, tr: seq<Option<string>>, log: seq<Ran>, al: seq<string>, ar: seq<string>)
    requires Compatible(hl, hr, b, false)
    requires Reaches(Link(hl, hr), c0, Config(AtTop([None] + tl, log, al), AtTop([Some(b)] + tr, log, ar), [], []))
    ensures Reaches(Link(hl, hr), c0,
              Config(AtTop(tl, log + [Ran(b, false)], al + [b]), AtTop(tr, log + [Ran(b, false)], ar), [], []))
  {
    hide Reaches;
    var sys, l, r := Link(hl, hr), AtTop([None] + tl, log, al), AtTop([Some(b)] + tr, log, ar);
    Texts(b, b);
    assert l.agenda[1..] == tl && r.agenda[1..] == tr;
    var l1 := l.(agenda := tl, todo := [Listen]);
    OneMore(sys, c0, Config(l, r, [], []), true, Config(l1, r, [], []));
    PassLeft(sys, c0, Config(l1, r, [], []));
    var l2 := l1.(todo := [Acknowledge(b), Handle(b, false)]);
    var r2 := r.(agenda := tr, todo := [HearReply(b)]);
    assert [Acknowledge(b), Handle(b, false)] + [Listen][1..] == [Acknowledge(b), Handle(b, false)];
    assert Reaches(sys, c0, Config(l2, r2, [], []));
    AnsweredRight(hl, hr, c0, l2, r2, b);
    var l3, r3 := l2.(todo := [Handle(b, false)], acks := al + [b]), r2.(todo := [Handle(b, true)]);
    HandleBoth(hl, hr, c0, l3, r3, b, false);
    assert Done(l3).(log := log + [Ran(b, false)]) == AtTop(tl, log + [Ran(b, false)], al + [b]);
    assert Done(r3).(log := log + [Ran(b, false)]) == AtTop(tr, log + [Ran(b, false)], ar);
  }

  lemma AnsweredRight<H(!new)>(
    hl: Handlers<H>, hr: Handlers<H>, c0: Config<Peer<H>, Msg>, l: Peer<H>, r: Peer<H>, b: string)
    requires !l.failed && !r.failed && l.running.None? && r.running.None?
    requires r.todo == [HearReply(b)] && l.todo == [Acknowledge(b), Handle(b, false)]
    requires Reaches(Link(hl, hr), c0, Config(l, r, [], []))
    ensures Reaches(Link(hl, hr), c0,
              Config(l.(todo := [Handle(b, false)], acks := l.acks + [b]), r.(todo := [Handle(b, true)]), [], []))
  {
    hide Reaches;
    PassRight(Link(hl, hr), c0, Config(l, r, [], []));
    assert [Handle(b, true)] + r.todo[1..] == [Handle(b, true)] && l.todo[1..] == [Handle(b, false)];
  }

  /** Both issue: the right peer's command goes first on both ends. */
  lemma BothIssue<H(!new)>(
    hl: Handlers<H>, hr: Handlers<H>, c0: Config<Peer<H>, Msg>, a: string, b: string,
    tl: seq<Option<string>>, tr: seq<Option<string>>, log: seq<Ran>, al: seq<string>, ar: seq<string>)
    requires Compatible(hl, hr, a, true) && Compatible(hl, hr, b, false)
    requires Reaches(Link(hl, hr), c0, Config(AtTop([Some(a)] + tl, log, al), AtTop([Some(b)] + tr, log, ar), [], []))
    ensures var ran := log + [Ran(b, false)] + [Ran(a, true)];
      Reaches(Link(hl, hr), c0, Config(AtTop(tl, ran, al + [b]), AtTop(tr, ran, ar + [a]), [], []))
  {
    hide Reaches;
    var l, r := AtTop([Some(a)] + tl, log, al), AtTop([Some(b)] + tr, log, ar);
    assert l.agenda[1..] == tl && r.agenda[1..] == tr;
    Collide(hl, hr, c0, l, r, a, b);
    var l1 := l.(agenda := tl, todo := [Acknowledge(b), Handle(b, false), ExpectAck(a), Handle(a, true)]);
    var r1 := r.(agenda := tr, todo := [ExpectAck(b), Handle(b, true), Acknowledge(a), Handle(a, false)]);
    AckLeft(hl, hr, c0, l1, r1, b);
    var l2 := l1.(todo := [Handle(b, false), ExpectAck(a), Handle(a, true)], acks := al + [b]);
    var r2 := r1.(todo := [Handle(b, true), Acknowledge(a), Handle(a, false)]);
    HandleBoth(hl, hr, c0, l2, r2, b, false);
    var l3 := l2.(todo := [ExpectAck(a), Handle(a, true)], log := log + [Ran(b, false)]);
    var r3 := r2.(todo := [Acknowledge(a), Handle(a, false)], log := log + [Ran(b, false)]);
    assert Done(l2).(log := log + [Ran(b, false)]) == l3 && Done(r2).(log := log + [Ran(b, false)]) == r3;
    AckRight(hl, hr, c0, l3, r3, a);
    var l4, r4 := l3.(todo := [Handle(a, true)]), r3.(todo := [Handle(a, false)], acks := ar + [a]);
    HandleBoth(hl, hr, c0, l4, r4, a, true);
    var ran := log + [Ran(b, false)] + [Ran(a, true)];
    assert Done(l4).(log := ran) == AtTop(tl, ran, al + [b]) && Done(r4).(log := ran) == AtTop(tr, ran, ar + [a]);
  }

  lemma Collide<H(!new)>(
    hl: Handlers<H>, hr: Handlers<H>, c0: Config<Peer<H>, Msg>, l: Peer<H>, r: Peer<H>, a: string, b: string)
    requires !l.failed && !r.failed && l.running.None? && r.running.None? && l.todo == [] && r.todo == []
    requires l.agenda != [] && l.agenda[0] == Some(a) && r.agenda != [] && r.agenda[0] == Some(b)
    requires Reaches(Link(hl, hr), c0, Config(l, r, [], []))
    ensures Reaches(Link(hl, hr), c0,
              Config(
                l.(agenda := l.agenda[1..], todo := [Acknowledge(b), Handle(b, false), ExpectAck(a), Handle(a, true)]),
                r.(agenda := r.agenda[1..], todo := [ExpectAck(b), Handle(b, true), Acknowledge(a), Handle(a, false)]),
                [], []))
  {
    hide Reaches;
    Texts(a, b);
    Texts(b, a);
    Exchange(Link(hl, hr), c0, Config(l, r, [], []));
    assert [Acknowledge(b), Handle(b, false)] + [ExpectAck(a), Handle(a, true)] + [HearReply(a)][1..]
        == [Acknowledge(b), Handle(b, false), ExpectAck(a), Handle(a, true)];
    assert [ExpectAck(b), Handle(b, true)] + [Acknowledge(a), Handle(a, false)] + [HearReply(b)][1..]
        == [ExpectAck(b), Handle(b, true), Acknowledge(a), Handle(a, false)];
  }

  lemma AckLeft<H(!new)>(
    hl: Handlers<H>, hr: Handlers<H>, c0: Config<Peer<H>, Msg>, l: Peer<H>, r: Peer<H>, c: string)
    requires !l.failed && !r.failed && l.running.None? && r.running.None?
    requires l.todo != [] && l.todo[0] == Acknowledge(c) && r.todo != [] && r.todo[0] == ExpectAck(c)
    requires Reaches(Link(hl, hr), c0, Config(l, r, [], []))
    ensures Reaches(Link(hl, hr), c0, Config(Done(l).(acks := l.acks + [c]), Done(r), [], []))
  {
    hide Reaches;
    PassRight(Link(hl, hr), c0, Config(l, r, [], []));
  }

  lemma AckRight<H(!new)>(
    hl: Handlers<H>, hr: Handlers<H>, c0: Config<Peer<H>, Msg>, l: Peer<H>, r: Peer<H>, c: string)
    requires !l.failed && !r.failed && l.running.None? && r.running.None?
    requires r.todo != [] && r.todo[0] == Acknowledge(c) && l.todo != [] && l.todo[0] == ExpectAck(c)
    requires Reaches(Link(hl, hr), c0, Config(l, r, [], []))
    ensures Reaches(Link(hl, hr), c0, Config(Done(l), Done(r).(acks := r.acks + [c]), [], []))
  {
    hide Reaches;
    PassLeft(Link(hl, hr), c0, Config(l, r, [], []));
  }

  lemma OneRound<H(!new)>(
    hl: Handlers<H>, hr: Handlers<H>, c0: Config<Peer<H>, Msg>, round: Round,
    tl: seq<Option<string>>, tr: seq<Option<string>>, log: seq<Ran>, al: seq<string>, ar: seq<string>)
    requires RoundOk(hl, hr, round)
    requires Reaches(Link(hl, hr), c0,
               Config(AtTop([round.left] + tl, log, al), AtTop([round.right] + tr, log, ar), [], []))
    ensures Reaches(Link(hl, hr), c0,
              Config(AtTop(tl, log + Order(round), al + Issued([round.right])),
                     AtTop(tr, log + Order(round), ar + Issued([round.left])), [], []))
  {
    hide Reaches, Compatible;
    OneIssued(round.left);
    OneIssued(round.right);
    match (round.left, round.right)
    case (Some(a), Some(b)) =>
      BothIssue(hl, hr, c0, a, b, tl, tr, log, al, ar);
      assert log + [Ran(b, false)] + [Ran(a, true)] == log + Order(round);
    case (Some(a), None) =>
      LeftIssues(hl, hr, c0, a, tl, tr, log, al, ar);
      assert log + Order(round) == log + [Ran(a, true)] && al + [] == al;
    case (None, Some(b)) =>
      RightIssues(hl, hr, c0, b, tl, tr, log, al, ar);
      assert log + Order(round) == log + [Ran(b, false)] && ar + [] == ar;
  }

  lemma OneIssued(c: Option<string>)
    ensures Issued([c]) == if c.Some? then [c.value] else []
  {
    assert [c][1..] == [];
    assert Issued([c][1..]) == [];
  }

  lemma {:induction false} ManyRounds<H(!new)>(
    hl: Handlers<H>, hr: Handlers<H>, c0: Config<Peer<H>, Msg>, rounds: seq<Round>,
    log: seq<Ran>, al: seq<string>, ar: seq<string>)
    requires forall i :: 0 <= i < |rounds| ==> RoundOk(hl, hr, rounds[i])
    requires Reaches(Link(hl, hr), c0, Config(AtTop(Lefts(rounds), log, al), AtTop(Rights(rounds), log, ar), [], []))
    ensures Reaches(Link(hl, hr), c0,
              Config(AtTop([], log + Expected(rounds), al + Issued(Rights(rounds))),
                     AtTop([], log + Expected(rounds), ar + Issued(Lefts(rounds))), [], []))
    decreases |rounds|
  {
    hide Reaches, RoundOk, Order, Link;
    if rounds == [] {
      assert log + [] == log && al + [] == al && ar + [] == ar;
    } else {
      var first, rest := rounds[0], rounds[1..];
      Split(rounds, log, al, ar);
      OneRound(hl, hr, c0, first, Lefts(rest), Rights(rest), log, al, ar);
      ManyRounds(hl, hr, c0, rest, log + Order(first), al + Issued([first.right]), ar + Issued([first.left]));
    }
  }

  lemma Split(rounds: seq<Round>, log: seq<Ran>, al: seq<string>, ar: seq<string>)
    requires rounds != []
    ensures var first, rest := rounds[0], rounds[1..];
      && Lefts(rounds) == [first.left] + Lefts(rest) && Rights(rounds) == [first.right] + Rights(rest)
      && log + Expected(rounds) == log + Order(first) + Expected(rest)
      && al + Issued(Rights(rounds)) == al + Issued([first.right]) + Issued(Rights(rest))
      && ar + Issued(Lefts(rounds)) == ar + Issued([first.left]) + Issued(Lefts(rest))
  {
    var first, rest := rounds[0], rounds[1..];
    SplitAgendas(rounds);
    hide Lefts, Rights, Order;
    IssuedFirst(first.left, Lefts(rest));
    IssuedFirst(first.right, Rights(rest));
    hide Issued;
    Associative(al, Issued([first.right]), Issued(Rights(rest)));
    Associative(ar, Issued([first.left]), Issued(Lefts(rest)));
    Associative(log, Order(first), Expected(rest));
  }

  lemma SplitAgendas(rounds: seq<Round>)
    requires rounds != []
    ensures Lefts(rounds) == [rounds[0].left] + Lefts(rounds[1..])
    ensures Rights(rounds) == [rounds[0].right] + Rights(rounds[1..])
  {
  }

  lemma IssuedFirst(c: Option<string>, rest: seq<Option<string>>)
    ensures Issued([c] + rest) == Issued([c]) + Issued(rest)
  {
    assert ([c] + rest)[1..] == rest;
    OneIssued(c);
  }

  /** Where any number of rounds ends. */
  ghost function Finish<H>(rounds: seq<Round>): Config<Peer<H>, Msg> {
    var ran := Expected(rounds);
    Config(AtTop([], ran, Issued(Rights(rounds))), AtTop([], ran, Issued(Lefts(rounds))), [], [])
  }

  ghost function Begin<H>(rounds: seq<Round>): Config<Peer<H>, Msg> {
    Config(AtTop(Lefts(rounds), [], []), AtTop(Rights(rounds), [], []), [], [])
  }

  /** In every interleaving both ends run the same handlers in the same order, each command is
      acknowledged exactly once, and nobody waits forever. */
  lemma CommandsSettle<H(!new)>(hl: Handlers<H>, hr: Handlers<H>, rounds: seq<Round>)
    requires forall i :: 0 <= i < |rounds| ==> RoundOk(hl, hr, rounds[i])
    ensures EndsAt(Link(hl, hr), Begin(rounds), Finish(rounds))
    ensures forall schedule, d :: Run(Link(hl, hr), Begin(rounds), schedule) == Some(d) && Quiet(Link(hl, hr), d) ==>
      d.left.log == d.right.log == Expected(rounds)
  {
    hide RoundOk, Reaches, Expected, Issued, Link, Lefts, Rights;
    ReachesItself(Link(hl, hr), Begin(rounds));
    ManyRounds(hl, hr, Begin(rounds), rounds, [], [], []);
    assert [] + Expected(rounds) == Expected(rounds);
    assert [] + Issued(Rights(rounds)) == Issued(Rights(rounds)) && [] + Issued(Lefts(rounds)) == Issued(Lefts(rounds));
    FinishQuiet(hl, hr, rounds);
    AllEndAlike(Link(hl, hr), Begin(rounds), Finish(rounds));
  }

  lemma FinishQuiet<H(!new)>(hl: Handlers<H>, hr: Handlers<H>, rounds: seq<Round>)
    ensures Quiet(Link(hl, hr), Finish(rounds))
  {
  }

  // ---- The sync command is one such ----

  function SyncHandlers(me: Me): Handlers<Phase> {
    Handlers((c, ours) => SayWork, Sync.Program(me))
  }

  lemma SyncCompatible(l: Me, r: Me, c: string, leftIssues: bool)
    requires Honest(l, r) && c != "close"
    ensures Compatible(SyncHandlers(l), SyncHandlers(r), c, leftIssues)
  {
    hide Reaches, Honest, Needed;
    var a, b := SyncSettles(l, r);
    assert HandlersEnd(SyncHandlers(l), SyncHandlers(r), c, leftIssues, Finished(a), Finished(b));
  }
}
