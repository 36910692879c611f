/**
  The manual jog controls of the connection pane: the fixed move vector of
  each jog button, and the press/hold/release protocol that brackets the
  repeated manual moves between enterManualMode and exitManualMode.

  A jog button's `armed` property listener runs only when the value changes.
  Pressing calls enterManualMode and then starts the button's repeating
  timer; each timer firing calls manualMove with the button's vector;
  releasing stops the timer and then calls exitManualMode. The builder is
  taken to be present throughout a session, since the jog buttons are
  disabled while no builder is selected.
*/
module Jog {
  import opened Wrappers

  datatype JogButton = Forward | Backward | Right | Left | PenUp | PenDown

  /** A relative move [dx, dy, dpen]; the source's float literals are whole numbers. */
  datatype Vector = Vector(dx: int, dy: int, dz: int)

  /** The vector the button's timer passes to manualMove: one axis per pair of
      opposite buttons, 5 units in the plane, 1 unit for the pen. */
  function JogVector(b: JogButton): (v: Vector)
    ensures (v.dx != 0) <==> (b == Forward || b == Backward)
    ensures (v.dy != 0) <==> (b == Right || b == Left)
    ensures (v.dz != 0) <==> (b == PenUp || b == PenDown)
    ensures (b == Forward || b == Right || b == PenUp) <==> v.dx + v.dy + v.dz > 0
    ensures v.dz == 0 ==> v.dx * v.dx + v.dy * v.dy == 25
    ensures v.dz != 0 ==> v.dz * v.dz == 1
  {
    match b
    case Forward => Vector(5, 0, 0)
    case Backward => Vector(-5, 0, 0)
    case Right => Vector(0, 5, 0)
    case Left => Vector(0, -5, 0)
    case PenUp => Vector(0, 0, 1)
    case PenDown => Vector(0, 0, -1)
  }

  /** The button on the other side of the same axis. */
  function Opposite(b: JogButton): JogButton
  {
    match b
    case Forward => Backward
    case Backward => Forward
    case Right => Left
    case Left => Right
    case PenUp => PenDown
    case PenDown => PenUp
  }

  /** Opposite buttons move by opposite vectors, and different buttons never
      share a vector. */
  lemma JogVectorsOpposeAndDiffer(a: JogButton, b: JogButton)
    ensures JogVector(Opposite(a)) == Vector(-JogVector(a).dx, -JogVector(a).dy, -JogVector(a).dz)
    ensures Opposite(Opposite(a)) == a && Opposite(a) != a
    ensures JogVector(a) == JogVector(b) ==> a == b
  {
  }

  // ---------------------------------------------------------------------------
  // The press / hold / release protocol

  /** What happens to a jog button: its armed property is set, or its timer fires. */
  datatype Event = SetArmed(button: JogButton, armed: bool) | TimerFired(button: JogButton)

  /** A call on the builder or on a timer, tagged with the button whose handler made it. */
  datatype Call =
    | EnterManualMode(from: JogButton)
    | PlayTimer(from: JogButton)
    | ManualMove(from: JogButton, vector: Vector)
    | StopTimer(from: JogButton)
    | ExitManualMode(from: JogButton)

  /** Which buttons are armed and whose timers are running. */
  datatype Panel = Panel(armed: set<JogButton>, playing: set<JogButton>)

  datatype Reaction = Reaction(panel: Panel, calls: seq<Call>)

  /** The listeners and timers of the six jog buttons. Each event touches
      only its own button: the other buttons keep their state, every call
      names the event's button, and a timer runs only on an armed button. */
  function Handle(p: Panel, e: Event): (r: Reaction)
    ensures r.panel.armed - {e.button} == p.armed - {e.button}
    ensures r.panel.playing - {e.button} == p.playing - {e.button}
    ensures forall i :: 0 <= i < |r.calls| ==> r.calls[i].from == e.button
    ensures p.playing <= p.armed ==> r.panel.playing <= r.panel.armed
    ensures p.playing == p.armed ==> r.panel.playing == r.panel.armed
  {
    match e
    case SetArmed(b, true) =>
      if b in p.armed then Reaction(p, [])
      else Reaction(Panel(p.armed + {b}, p.playing + {b}), [EnterManualMode(b), PlayTimer(b)])
    case SetArmed(b, false) =>
      if b !in p.armed then Reaction(p, [])
      else Reaction(Panel(p.armed - {b}, p.playing - {b}), [StopTimer(b), ExitManualMode(b)])
    case TimerFired(b) =>
      if b in p.playing then Reaction(p, [ManualMove(b, JogVector(b))]) else Reaction(p, [])
  }

  /** Arming an unarmed button enters manual mode and then starts its timer;
      disarming an armed one stops the timer and then exits manual mode; a
      value that does not change calls nothing; a timer moves by its
      button's vector only while it runs. */
  lemma HandleReacts(p: Panel, e: Event)
    ensures e.SetArmed? && e.armed && e.button !in p.armed ==>
              Handle(p, e).calls == [EnterManualMode(e.button), PlayTimer(e.button)]
    ensures e.SetArmed? && !e.armed && e.button in p.armed ==>
              Handle(p, e).calls == [StopTimer(e.button), ExitManualMode(e.button)]
    ensures e.SetArmed? && (e.armed == (e.button in p.armed)) ==> Handle(p, e) == Reaction(p, [])
    ensures e.TimerFired? ==> Handle(p, e).panel == p
    ensures e.TimerFired? ==>
              Handle(p, e).calls == (if e.button in p.playing then [ManualMove(e.button, JogVector(e.button))] else [])
  {
  }

  function RunEvents(p: Panel, events: seq<Event>): Reaction
    decreases |events|
  {
    if |events| == 0 then Reaction(p, [])
    else
      var first := Handle(p, events[0]);
      var rest := RunEvents(first.panel, events[1..]);
      Reaction(rest.panel, first.calls + rest.calls)
  }

  /** Where one button stands in its bracket: between enterManualMode and
      the timer start, while the timer runs, between the timer stop and
      exitManualMode, or outside any bracket. */
  datatype Phase = Idle | Entered | Playing | Stopped

  /** The bracket automaton of button `b`: Idle, enter, Entered, timer start,
      Playing with any number of moves, timer stop, Stopped, exit, Idle.
      Calls from other buttons leave `b`'s phase alone; `None` is a violation. */
  function Next(ph: Phase, b: JogButton, c: Call): Option<Phase>
  {
    if c.from != b then Some(ph)
    else
      match c
      case EnterManualMode(_) => if ph == Idle then Some(Entered) else None
      case PlayTimer(_) => if ph == Entered then Some(Playing) else None
      case ManualMove(_, _) => if ph == Playing then Some(Playing) else None
      case StopTimer(_) => if ph == Playing then Some(Stopped) else None
      case ExitManualMode(_) => if ph == Stopped then Some(Idle) else None
  }

  /** Runs the bracket automaton of `b` over a call log. */
  function Accept(calls: seq<Call>, b: JogButton, ph: Phase): Option<Phase>
    decreases |calls|
  {
    if |calls| == 0 then Some(ph)
    else
      match Next(ph, b, calls[0])
      case None => None
      case Some(q) => Accept(calls[1..], b, q)
  }

  lemma {:induction false} AcceptAppend(x: seq<Call>, y: seq<Call>, b: JogButton, ph: Phase)
    requires Accept(x, b, ph).Some?
    ensures Accept(x + y, b, ph) == Accept(y, b, Accept(x, b, ph).value)
    decreases |x|
  {
    if |x| == 0 {
      assert x + y == y;
    } else {
      assert (x + y)[0] == x[0];
      assert (x + y)[1..] == x[1..] + y;
      AcceptAppend(x[1..], y, b, Next(ph, b, x[0]).value);
    }
  }

  /** Every armed button has its timer running and no other timer runs. */
  ghost predicate Consistent(p: Panel)
  {
    p.armed == p.playing
  }

  function PhaseOf(p: Panel, b: JogButton): Phase
  {
    if b in p.playing then Playing else Idle
  }

  lemma HandleBracketed(p: Panel, e: Event, b: JogButton)
    requires Consistent(p)
    ensures Consistent(Handle(p, e).panel)
    ensures Accept(Handle(p, e).calls, b, PhaseOf(p, b)) == Some(PhaseOf(Handle(p, e).panel, b))
  {
    var r := Handle(p, e);
    if |r.calls| == 2 {
      var c := r.calls;
      var mid := Next(PhaseOf(p, b), b, c[0]).value;
      assert Accept(c, b, PhaseOf(p, b)) == Accept(c[1..], b, mid);
      assert Accept(c[1..], b, mid) == Accept(c[2..], b, Next(mid, b, c[1]).value);
    } else if |r.calls| == 1 {
      assert Accept(r.calls[1..], b, PhaseOf(p, b)) == Some(PhaseOf(p, b));
    }
  }

  /** Over any sequence of presses, releases and timer firings, every button's
      calls follow its bracket automaton, and the button stands inside a
      bracket exactly while it is armed. */
  lemma {:induction false} SessionBracketed(p: Panel, events: seq<Event>, b: JogButton)
    requires Consistent(p)
    ensures Consistent(RunEvents(p, events).panel)
    ensures Accept(RunEvents(p, events).calls, b, PhaseOf(p, b)) == Some(PhaseOf(RunEvents(p, events).panel, b))
    decreases |events|
  {
    if |events| > 0 {
      var first := Handle(p, events[0]);
      var rest := RunEvents(first.panel, events[1..]);
      HandleBracketed(p, events[0], b);
      SessionBracketed(first.panel, events[1..], b);
      AcceptAppend(first.calls, rest.calls, b, PhaseOf(p, b));
    }
  }

  // ---------------------------------------------------------------------------
  // Moves lie strictly between a matching enter and exit

  ghost predicate EnterBefore(calls: seq<Call>, b: JogButton, k: int)
  {
    exists i :: 0 <= i < k && i < |calls| && calls[i] == EnterManualMode(b)
  }

  ghost predicate ExitAfter(calls: seq<Call>, b: JogButton, k: int)
  {
    exists j :: 0 <= k < j < |calls| && calls[j] == ExitManualMode(b)
  }

  /** From inside a bracket, a log that ends outside any bracket holds an exit. */
  lemma {:induction false} ClosingNeedsExit(calls: seq<Call>, b: JogButton, ph: Phase)
    requires ph != Idle
    requires Accept(calls, b, ph) == Some(Idle)
    ensures exists j :: 0 <= j < |calls| && calls[j] == ExitManualMode(b)
    decreases |calls|
  {
    var q := Next(ph, b, calls[0]).value;
    if calls[0] == ExitManualMode(b) {
    } else {
      assert q != Idle;
      ClosingNeedsExit(calls[1..], b, q);
      var j :| 0 <= j < |calls[1..]| && calls[1..][j] == ExitManualMode(b);
      assert calls[j + 1] == ExitManualMode(b);
    }
  }

  /** Generalised: a move is preceded by an enter unless the log started
      inside a bracket, and followed by an exit when the log ends outside one. */
  lemma {:induction false} MovesBracketedFrom(calls: seq<Call>, b: JogButton, ph: Phase, k: nat)
    requires Accept(calls, b, ph) == Some(Idle)
    requires k < |calls| && calls[k].ManualMove? && calls[k].from == b
    ensures ph == Idle ==> EnterBefore(calls, b, k)
    ensures ExitAfter(calls, b, k)
    decreases |calls|
  {
    var q := Next(ph, b, calls[0]).value;
    if k == 0 {
      assert ph == Playing && q == Playing;
      ClosingNeedsExit(calls[1..], b, q);
      var j :| 0 <= j < |calls[1..]| && calls[1..][j] == ExitManualMode(b);
      assert calls[j + 1] == ExitManualMode(b);
    } else {
      MovesBracketedFrom(calls[1..], b, q, k - 1);
      var j :| 0 <= k - 1 < j < |calls[1..]| && calls[1..][j] == ExitManualMode(b);
      assert calls[j + 1] == ExitManualMode(b);
      if ph == Idle {
        if q == Idle {
          var i :| 0 <= i < k - 1 && i < |calls[1..]| && calls[1..][i] == EnterManualMode(b);
          assert calls[i + 1] == EnterManualMode(b);
        } else {
          assert calls[0] == EnterManualMode(b);
        }
      }
    }
  }

  /** In a session that starts and ends with no jog button held, every manual
      move of a button comes after an enterManualMode and before an
      exitManualMode of that same button. */
  lemma MovesStrictlyBracketed(events: seq<Event>, b: JogButton, k: nat)
    requires RunEvents(Panel({}, {}), events).panel.armed == {}
    requires k < |RunEvents(Panel({}, {}), events).calls|
    requires RunEvents(Panel({}, {}), events).calls[k].ManualMove?
    requires RunEvents(Panel({}, {}), events).calls[k].from == b
    ensures EnterBefore(RunEvents(Panel({}, {}), events).calls, b, k)
    ensures ExitAfter(RunEvents(Panel({}, {}), events).calls, b, k)
  {
    SessionBracketed(Panel({}, {}), events, b);
    MovesBracketedFrom(RunEvents(Panel({}, {}), events).calls, b, Idle, k);
  }

  // ---------------------------------------------------------------------------
  // One press, n timer firings, one release

  function Firings(b: JogButton, n: nat): seq<Event>
  {
    if n == 0 then [] else [TimerFired(b)] + Firings(b, n - 1)
  }

  function Moves(b: JogButton, n: nat): seq<Call>
  {
    if n == 0 then [] else [ManualMove(b, JogVector(b))] + Moves(b, n - 1)
  }

  /** One step of a non-empty trace: the first event's reaction, then the rest. */
  lemma RunEventsFirst(p: Panel, events: seq<Event>, first: Reaction, rest: Reaction)
    requires |events| > 0
    requires first == Handle(p, events[0])
    requires rest == RunEvents(first.panel, events[1..])
    ensures RunEvents(p, events) == Reaction(rest.panel, first.calls + rest.calls)
  {
  }

  /** The calls of a trace, regrouped around the end of its prefix. */
  lemma CallsRegroup(all: seq<Call>, a: seq<Call>, b: seq<Call>, c: seq<Call>, ab: seq<Call>)
    requires all == a + (b + c)
    requires ab == a + b
    ensures all == ab + c
  {
  }

  lemma {:induction false} RunEventsAppend(p: Panel, x: seq<Event>, y: seq<Event>)
    ensures RunEvents(p, x + y).panel == RunEvents(RunEvents(p, x).panel, y).panel
    ensures RunEvents(p, x + y).calls == RunEvents(p, x).calls + RunEvents(RunEvents(p, x).panel, y).calls
    decreases |x|
  {
    if |x| == 0 {
      assert x + y == y;
    } else {
      var xy := x + y;
      assert xy[0] == x[0];
      assert xy[1..] == x[1..] + y;
      var first := Handle(p, x[0]);
      var tail := RunEvents(first.panel, x[1..]);
      var restY := RunEvents(tail.panel, y);
      var tailY := RunEvents(first.panel, x[1..] + y);
      RunEventsAppend(first.panel, x[1..], y);
      RunEventsFirst(p, x, first, tail);
      RunEventsFirst(p, xy, first, tailY);
      CallsRegroup(RunEvents(p, xy).calls, first.calls, tail.calls, restY.calls, RunEvents(p, x).calls);
    }
  }

  lemma {:induction false} HoldingFires(p: Panel, b: JogButton, n: nat)
    requires b in p.playing
    ensures RunEvents(p, Firings(b, n)) == Reaction(p, Moves(b, n))
    decreases n
  {
    if n > 0 {
      HoldingFires(p, b, n - 1);
    }
  }

  /** Pressing a button, holding it through n timer firings and releasing it
      yields exactly: enter, timer start, n moves by the button's vector,
      timer stop, exit. */
  lemma PressHoldRelease(b: JogButton, n: nat)
    ensures var events := [SetArmed(b, true)] + Firings(b, n) + [SetArmed(b, false)];
            var r := RunEvents(Panel({}, {}), events);
            && r.calls == [EnterManualMode(b), PlayTimer(b)] + Moves(b, n) + [StopTimer(b), ExitManualMode(b)]
            && r.panel == Panel({}, {})
  {
    var start := Panel({}, {});
    var held := Panel({b}, {b});
    var press := [SetArmed(b, true)];
    var release := [SetArmed(b, false)];
    assert RunEvents(start, press) == Reaction(held, [EnterManualMode(b), PlayTimer(b)]);
    HoldingFires(held, b, n);
    assert RunEvents(held, release) == Reaction(start, [StopTimer(b), ExitManualMode(b)]);
    RunEventsAppend(start, press, Firings(b, n));
    RunEventsAppend(start, press + Firings(b, n), release);
  }

  /** A button's timer runs exactly while the button is armed, whatever the
      events: the state the six listeners and timers keep never drifts apart. */
  lemma {:induction false} TimerRunsIffArmed(p: Panel, events: seq<Event>)
    requires p.playing == p.armed
    ensures RunEvents(p, events).panel.playing == RunEvents(p, events).panel.armed
    decreases |events|
  {
    if |events| > 0 {
      TimerRunsIffArmed(Handle(p, events[0]).panel, events[1..]);
    }
  }

  /** The brackets are per button, not per builder: two buttons armed in an
      overlapping way interleave their calls on the one shared builder, so the
      builder sees Forward's exitManualMode while Right is still in manual
      mode and then a move from Right. */
  lemma SharedBuilderInterleaving()
    ensures var events := [SetArmed(Forward, true), SetArmed(Right, true), SetArmed(Forward, false),
                           TimerFired(Right), SetArmed(Right, false)];
            RunEvents(Panel({}, {}), events).calls
            == [EnterManualMode(Forward), PlayTimer(Forward),
                EnterManualMode(Right), PlayTimer(Right),
                StopTimer(Forward), ExitManualMode(Forward),
                ManualMove(Right, JogVector(Right)),
                StopTimer(Right), ExitManualMode(Right)]
  {
    var p1 := Panel({Forward}, {Forward});
    var p2 := Panel({Forward, Right}, {Forward, Right});
    var p3 := Panel({Right}, {Right});
    var e4 := [SetArmed(Right, false)];
    var e3 := [TimerFired(Right)] + e4;
    var e2 := [SetArmed(Forward, false)] + e3;
    var e1 := [SetArmed(Right, true)] + e2;
    assert {Forward, Right} - {Forward} == {Right};
    assert {Right} - {Right} == {};
    assert RunEvents(p3, e4).calls == [StopTimer(Right), ExitManualMode(Right)] by {
      assert e4[1..] == [];
    }
    assert RunEvents(p3, e3).calls == [ManualMove(Right, JogVector(Right))] + RunEvents(p3, e4).calls by {
      assert e3[1..] == e4;
    }
    assert RunEvents(p2, e2).calls == [StopTimer(Forward), ExitManualMode(Forward)] + RunEvents(p3, e3).calls by {
      assert e2[1..] == e3;
      assert Handle(p2, e2[0]).panel == p3;
    }
    assert RunEvents(p1, e1).calls == [EnterManualMode(Right), PlayTimer(Right)] + RunEvents(p2, e2).calls by {
      assert e1[1..] == e2;
      assert Handle(p1, e1[0]).panel == p2;
    }
    assert ([SetArmed(Forward, true)] + e1)[1..] == e1;
  }
}
