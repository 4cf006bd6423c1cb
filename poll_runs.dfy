/**
 * What the poll loop does over a finite run of passes: per channel, presses and
 * releases alternate starting with a press; a level held steady reports at most
 * once; the encoder reports one rotation per fall of phase A, its direction read
 * from phase B; and every pass ends with one delay followed by one watchdog service.
 */
module PollRuns {
  import opened Wrappers
  import opened Device
  import opened Keymap
  import opened PollLoop

  // ----- Projections of a trace -----

  /** What a call says about a channel's key: true for its press, false for its release. */
  function StrokeOf(c: Call, ch: Channel): seq<bool> {
    if c == Press(Code(ch)) then [true]
    else if c == Release(Code(ch)) then [false]
    else []
  }

  /** The presses (true) and releases (false) of a channel's key, in trace order. */
  function Strokes(t: seq<Call>, ch: Channel): seq<bool> {
    if t == [] then [] else StrokeOf(t[0], ch) + Strokes(t[1..], ch)
  }

  /** What a call says about the encoder: the direction it types, if any. */
  function TurnOf(c: Call): seq<Direction> {
    if c == Type(TurnCode(Clockwise)) then [Clockwise]
    else if c == Type(TurnCode(CounterClockwise)) then [CounterClockwise]
    else []
  }

  /** The rotations a trace types, in trace order. */
  function Turns(t: seq<Call>): seq<Direction> {
    if t == [] then [] else TurnOf(t[0]) + Turns(t[1..])
  }

  /** The direction phase B's level selects when phase A falls. */
  function DirectionFor(levelB: bool): Direction {
    if levelB then Clockwise else CounterClockwise
  }

  /** The strokes one handler's detection contributes to a channel. */
  function EdgeStroke(o: Option<Event>, ch: Channel): seq<bool> {
    if o == Some(Pressed(ch)) then [true]
    else if o == Some(Released(ch)) then [false]
    else []
  }

  /** The rotations one handler's detection contributes. */
  function EdgeTurn(o: Option<Event>): seq<Direction> {
    if o.Some? && o.value.Rotated? then [o.value.dir] else []
  }

  lemma {:induction false} StrokesAppend(a: seq<Call>, b: seq<Call>, ch: Channel)
    ensures Strokes(a + b, ch) == Strokes(a, ch) + Strokes(b, ch)
  {
    if a == [] {
      assert a + b == b;
    } else {
      assert (a + b)[1..] == a[1..] + b;
      StrokesAppend(a[1..], b, ch);
    }
  }

  lemma {:induction false} TurnsAppend(a: seq<Call>, b: seq<Call>)
    ensures Turns(a + b) == Turns(a) + Turns(b)
  {
    if a == [] {
      assert a + b == b;
    } else {
      assert (a + b)[1..] == a[1..] + b;
      TurnsAppend(a[1..], b);
    }
  }

  /** The calls of one handler project to the stroke, or rotation, it detected. */
  lemma ActionsProject(o: Option<Event>, ch: Channel)
    ensures Strokes(Actions(o), ch) == EdgeStroke(o, ch)
    ensures Turns(Actions(o)) == EdgeTurn(o)
  {
    if o.Some? {
      assert Actions(o)[1..] == [];
    }
  }

  /** The closing delay and watchdog service carry no stroke and no rotation. */
  lemma TailProjects(ch: Channel)
    ensures Strokes([Delay(2), WdtReset], ch) == []
    ensures Turns([Delay(2), WdtReset]) == []
  {
    assert [Delay(2), WdtReset][1..] == [WdtReset];
    assert [WdtReset][1..] == [];
  }

  lemma EmitProjects(o1: Option<Event>, o2: Option<Event>, o3: Option<Event>, o4: Option<Event>, o5: Option<Event>, ch: Channel)
    ensures Strokes(Emit(o1, o2, o3, o4, o5) + [Delay(2), WdtReset], ch)
      == EdgeStroke(o1, ch) + EdgeStroke(o2, ch) + EdgeStroke(o3, ch) + EdgeStroke(o4, ch) + EdgeStroke(o5, ch)
    ensures Turns(Emit(o1, o2, o3, o4, o5) + [Delay(2), WdtReset])
      == EdgeTurn(o1) + EdgeTurn(o2) + EdgeTurn(o3) + EdgeTurn(o4) + EdgeTurn(o5)
  {
    var a1, a2, a3, a4, a5 := Actions(o1), Actions(o2), Actions(o3), Actions(o4), Actions(o5);
    var tail := [Delay(2), WdtReset];
    ActionsProject(o1, ch);
    ActionsProject(o2, ch);
    ActionsProject(o3, ch);
    ActionsProject(o4, ch);
    ActionsProject(o5, ch);
    TailProjects(ch);
    StrokesAppend(a1, a2, ch);
    StrokesAppend(a1 + a2, a3, ch);
    StrokesAppend(a1 + a2 + a3, a4, ch);
    StrokesAppend(a1 + a2 + a3 + a4, a5, ch);
    StrokesAppend(a1 + a2 + a3 + a4 + a5, tail, ch);
    TurnsAppend(a1, a2);
    TurnsAppend(a1 + a2, a3);
    TurnsAppend(a1 + a2 + a3, a4);
    TurnsAppend(a1 + a2 + a3 + a4, a5);
    TurnsAppend(a1 + a2 + a3 + a4 + a5, tail);
  }

  // ----- One pass -----

  /** A pass projects onto the strokes its five handlers detect, in handling order. */
  lemma StepStrokesByHandler(l: Latches, s: Sample, ch: Channel)
    ensures Strokes(StepTrace(l, s), ch)
      == EdgeStroke(KeyEdge(Key1, l.key1, s.key1), ch) + EdgeStroke(KeyEdge(Key2, l.key2, s.key2), ch)
       + EdgeStroke(KeyEdge(Key3, l.key3, s.key3), ch) + EdgeStroke(Turn(l.encA, s.encA, s.encB), ch)
       + EdgeStroke(KeyEdge(EncSwitch, l.encSw, s.encSw), ch)
  {
    HandlersEmitStepTrace(l, s);
    EmitProjects(KeyEdge(Key1, l.key1, s.key1), KeyEdge(Key2, l.key2, s.key2), KeyEdge(Key3, l.key3, s.key3),
                 Turn(l.encA, s.encA, s.encB), KeyEdge(EncSwitch, l.encSw, s.encSw), ch);
  }

  /** A pass projects onto the rotations its five handlers detect, in handling order. */
  lemma StepTurnsByHandler(l: Latches, s: Sample)
    ensures Turns(StepTrace(l, s))
      == EdgeTurn(KeyEdge(Key1, l.key1, s.key1)) + EdgeTurn(KeyEdge(Key2, l.key2, s.key2))
       + EdgeTurn(KeyEdge(Key3, l.key3, s.key3)) + EdgeTurn(Turn(l.encA, s.encA, s.encB))
       + EdgeTurn(KeyEdge(EncSwitch, l.encSw, s.encSw))
  {
    HandlersEmitStepTrace(l, s);
    EmitProjects(KeyEdge(Key1, l.key1, s.key1), KeyEdge(Key2, l.key2, s.key2), KeyEdge(Key3, l.key3, s.key3),
                 Turn(l.encA, s.encA, s.encB), KeyEdge(EncSwitch, l.encSw, s.encSw), Key1);
  }

  /** Only a channel's own detector strokes it; the decoder strokes no key. */
  lemma DetectorStroke(own: Channel, latch: bool, level: bool, ch: Channel)
    ensures EdgeStroke(KeyEdge(own, latch, level), ch) == if own == ch && !level != latch then [!latch] else []
  {
  }

  /** Of the five handlers, only the channel's own detector strokes it, and only on a change. */
  lemma HandlerStrokes(l: Latches, s: Sample, ch: Channel)
    ensures EdgeStroke(KeyEdge(Key1, l.key1, s.key1), ch) + EdgeStroke(KeyEdge(Key2, l.key2, s.key2), ch)
       + EdgeStroke(KeyEdge(Key3, l.key3, s.key3), ch) + EdgeStroke(Turn(l.encA, s.encA, s.encB), ch)
       + EdgeStroke(KeyEdge(EncSwitch, l.encSw, s.encSw), ch)
      == if Changed(l, s, ch) then [!LatchOf(l, ch)] else []
  {
    DetectorStroke(Key1, l.key1, s.key1, ch);
    DetectorStroke(Key2, l.key2, s.key2, ch);
    DetectorStroke(Key3, l.key3, s.key3, ch);
    DetectorStroke(EncSwitch, l.encSw, s.encSw, ch);
    assert EdgeStroke(Turn(l.encA, s.encA, s.encB), ch) == [];
  }

  /**
   * A pass strokes a channel's key exactly when its level disagrees with the
   * latch, once, and the stroke is a press when the latch said released.
   */
  lemma StepStrokes(l: Latches, s: Sample, ch: Channel)
    ensures Strokes(StepTrace(l, s), ch) == if Changed(l, s, ch) then [!LatchOf(l, ch)] else []
  {
    StepStrokesByHandler(l, s, ch);
    HandlerStrokes(l, s, ch);
  }

  /**
   * A pass types exactly one rotation when phase A reads low while its latch says
   * high, clockwise when phase B reads high; otherwise it types none.
   */
  lemma StepTurns(l: Latches, s: Sample)
    ensures Turns(StepTrace(l, s)) == if !l.encA && !s.encA then [DirectionFor(s.encB)] else []
  {
    StepTurnsByHandler(l, s);
    assert EdgeTurn(KeyEdge(Key1, l.key1, s.key1)) == [];
    assert EdgeTurn(KeyEdge(Key2, l.key2, s.key2)) == [];
    assert EdgeTurn(KeyEdge(Key3, l.key3, s.key3)) == [];
    assert EdgeTurn(KeyEdge(EncSwitch, l.encSw, s.encSw)) == [];
  }

  /** A pass's actions are all keyboard actions; none is a delay or a watchdog call. */
  lemma DispatchAllIsKeyboard(evs: seq<Event>)
    ensures forall i :: 0 <= i < |DispatchAll(evs)| ==>
      DispatchAll(evs)[i].Press? || DispatchAll(evs)[i].Release? || DispatchAll(evs)[i].Type?
  {
  }

  /** Every watchdog service in a trace comes right after a 2 ms delay. */
  ghost predicate ResetsAfterDelay(t: seq<Call>) {
    forall i :: 0 <= i < |t| && t[i] == WdtReset ==> 0 < i && t[i - 1] == Delay(2)
  }

  /** Keyboard actions followed by the delay and the service: one of each, the service last, after the delay. */
  lemma KeyboardThenService(d: seq<Call>)
    requires forall i :: 0 <= i < |d| ==> d[i].Press? || d[i].Release? || d[i].Type?
    ensures (d + [Delay(2), WdtReset])[|d|..] == [Delay(2), WdtReset]
    ensures multiset(d + [Delay(2), WdtReset])[WdtReset] == 1
    ensures multiset(d + [Delay(2), WdtReset])[Delay(2)] == 1
    ensures ResetsAfterDelay(d + [Delay(2), WdtReset])
  {
    assert WdtReset !in d && Delay(2) !in d;
    assert multiset(d)[WdtReset] == 0 && multiset(d)[Delay(2)] == 0;
    assert multiset(d + [Delay(2), WdtReset]) == multiset(d) + multiset{Delay(2), WdtReset};
  }

  /**
   * A pass ends with the 2 ms delay followed by the watchdog service, makes each of
   * those calls exactly once, and services the watchdog only after the delay.
   */
  lemma StepServicesWatchdogOnce(l: Latches, s: Sample)
    ensures |StepTrace(l, s)| >= 2
    ensures StepTrace(l, s)[|StepTrace(l, s)| - 2..] == [Delay(2), WdtReset]
    ensures multiset(StepTrace(l, s))[WdtReset] == 1
    ensures multiset(StepTrace(l, s))[Delay(2)] == 1
    ensures ResetsAfterDelay(StepTrace(l, s))
  {
    DispatchAllIsKeyboard(Events(l, s));
    KeyboardThenService(DispatchAll(Events(l, s)));
  }

  // ----- Runs of passes -----

  /** Strokes that alternate, the first one moving the latch away from held. */
  ghost predicate Alternating(bs: seq<bool>, held: bool) {
    forall i :: 0 <= i < |bs| ==> bs[i] == ((i % 2 == 0) != held)
  }

  /** The latch value after the strokes bs, starting from held. */
  function After(bs: seq<bool>, held: bool): bool {
    (|bs| % 2 == 1) != held
  }

  /**
   * An alternating run stays alternating when extended by a stroke b exactly when
   * b moves the latch off its current value; that stroke leaves the latch at b.
   */
  lemma AlternatingSnoc(bs: seq<bool>, held: bool, b: bool)
    requires Alternating(bs, held)
    ensures Alternating(bs + [b], held) <==> b == !After(bs, held)
    ensures After(bs + [b], held) == !After(bs, held)
  {
    if Alternating(bs + [b], held) {
      assert (bs + [b])[|bs|] == b;
    }
  }

  /**
   * Over any run, a channel's strokes alternate, starting by moving away from the
   * initial latch, and the latch has moved once per stroke.
   */
  lemma {:induction false} RunStrokesAlternate(l: Latches, ss: seq<Sample>, ch: Channel)
    ensures Alternating(Strokes(RunTrace(l, ss), ch), LatchOf(l, ch))
    ensures LatchOf(RunLatches(l, ss), ch) == After(Strokes(RunTrace(l, ss), ch), LatchOf(l, ch))
  {
    if ss != [] {
      var pre, s := ss[..|ss| - 1], ss[|ss| - 1];
      var mid := RunLatches(l, pre);
      var bs := Strokes(RunTrace(l, pre), ch);
      RunStrokesAlternate(l, pre, ch);
      assert RunTrace(l, ss) == RunTrace(l, pre) + StepTrace(mid, s);
      StrokesAppend(RunTrace(l, pre), StepTrace(mid, s), ch);
      StepStrokes(mid, s, ch);
      NextRecordsLevels(mid, s, ch);
      if Changed(mid, s, ch) {
        AlternatingSnoc(bs, LatchOf(l, ch), !LatchOf(mid, ch));
      } else {
        assert bs + [] == bs;
      }
    }
  }

  /** Alternating strokes begin by moving away from held and never repeat a stroke. */
  lemma AlternatingNeverRepeats(bs: seq<bool>, held: bool)
    requires Alternating(bs, held)
    ensures bs != [] ==> bs[0] == !held
    ensures forall i :: 0 < i < |bs| ==> bs[i] != bs[i - 1]
  {
    forall i | 0 < i < |bs|
      ensures bs[i] != bs[i - 1]
    {
      assert (i % 2 == 0) != ((i - 1) % 2 == 0);
    }
  }

  /** In alternating strokes, the moves away from held outnumber the moves back by 0 or 1. */
  lemma {:induction false} AlternatingBalance(bs: seq<bool>, held: bool)
    requires Alternating(bs, held)
    ensures multiset(bs)[!held] == multiset(bs)[held] + |bs| % 2
  {
    if bs != [] {
      var pre, b := bs[..|bs| - 1], bs[|bs| - 1];
      assert bs == pre + [b];
      assert multiset(bs) == multiset(pre) + multiset{b};
      assert b == ((|pre| % 2 == 0) != held);
      AlternatingBalance(pre, held);
    }
  }

  /** A channel's strokes are exactly its press and release calls, counted. */
  lemma {:induction false} StrokesCount(t: seq<Call>, ch: Channel)
    ensures multiset(Strokes(t, ch))[true] == multiset(t)[Press(Code(ch))]
    ensures multiset(Strokes(t, ch))[false] == multiset(t)[Release(Code(ch))]
  {
    if t != [] {
      assert t == [t[0]] + t[1..];
      assert multiset(t) == multiset{t[0]} + multiset(t[1..]);
      assert multiset(Strokes(t, ch)) == multiset(StrokeOf(t[0], ch)) + multiset(Strokes(t[1..], ch));
      StrokesCount(t[1..], ch);
    }
  }

  /**
   * From power-on, a channel's first stroke is a press, presses and releases
   * alternate, and the presses outnumber the releases by one exactly when the latch
   * ends up set: the host sees the key held exactly when the firmware does.
   */
  lemma PowerOnStrokes(ss: seq<Sample>, ch: Channel)
    ensures Strokes(RunTrace(Initial(), ss), ch) != [] ==> Strokes(RunTrace(Initial(), ss), ch)[0]
    ensures forall i :: 0 < i < |Strokes(RunTrace(Initial(), ss), ch)| ==>
      Strokes(RunTrace(Initial(), ss), ch)[i] != Strokes(RunTrace(Initial(), ss), ch)[i - 1]
    ensures multiset(RunTrace(Initial(), ss))[Press(Code(ch))]
      == multiset(RunTrace(Initial(), ss))[Release(Code(ch))] + (if LatchOf(RunLatches(Initial(), ss), ch) then 1 else 0)
  {
    var t := RunTrace(Initial(), ss);
    var bs := Strokes(t, ch);
    assert LatchOf(Initial(), ch) == false;
    RunStrokesAlternate(Initial(), ss, ch);
    AlternatingNeverRepeats(bs, false);
    AlternatingBalance(bs, false);
    StrokesCount(t, ch);
  }

  /**
   * After a nonempty run from power-on, the host holds a channel's key down
   * exactly when its pin read low at the last pass.
   */
  lemma HostMirrorsLastLevel(ss: seq<Sample>, ch: Channel)
    requires ss != []
    ensures multiset(RunTrace(Initial(), ss))[Press(Code(ch))]
      == multiset(RunTrace(Initial(), ss))[Release(Code(ch))] + (if LevelOf(ss[|ss| - 1], ch) then 0 else 1)
  {
    PowerOnStrokes(ss, ch);
    NextRecordsLevels(RunLatches(Initial(), ss[..|ss| - 1]), ss[|ss| - 1], ch);
  }

  /**
   * A channel whose level stays the same strokes at most once, on the first pass,
   * and not at all when the latch already agrees with it; afterwards the latch
   * records the level.
   */
  lemma {:induction false} SteadyLevel(l: Latches, ss: seq<Sample>, ch: Channel, level: bool)
    requires forall i :: 0 <= i < |ss| ==> LevelOf(ss[i], ch) == level
    ensures Strokes(RunTrace(l, ss), ch) == if ss != [] && LatchOf(l, ch) == level then [!LatchOf(l, ch)] else []
    ensures ss != [] ==> LatchOf(RunLatches(l, ss), ch) == !level
  {
    if ss != [] {
      var pre, s := ss[..|ss| - 1], ss[|ss| - 1];
      var mid := RunLatches(l, pre);
      SteadyLevel(l, pre, ch, level);
      StrokesAppend(RunTrace(l, pre), StepTrace(mid, s), ch);
      StepStrokes(mid, s, ch);
      NextRecordsLevels(mid, s, ch);
    }
  }

  /**
   * A key already held when the loop starts is pressed on the first pass, and,
   * held on, never again.
   */
  lemma HeldAtPowerOn(ss: seq<Sample>, ch: Channel)
    requires ss != []
    requires forall i :: 0 <= i < |ss| ==> !LevelOf(ss[i], ch)
    ensures Strokes(RunTrace(Initial(), ss), ch) == [true]
  {
    SteadyLevel(Initial(), ss, ch, false);
  }

  /**
   * While phase A keeps one level, the encoder types at most one rotation: one, in
   * the direction phase B gives at the first pass, exactly when A is low and its
   * latch said high. Phase B moving on its own types nothing.
   */
  lemma {:induction false} SteadyPhaseA(l: Latches, ss: seq<Sample>, levelA: bool)
    requires forall i :: 0 <= i < |ss| ==> ss[i].encA == levelA
    ensures Turns(RunTrace(l, ss)) == if ss != [] && !l.encA && !levelA then [DirectionFor(ss[0].encB)] else []
    ensures ss != [] ==> RunLatches(l, ss).encA == !levelA
  {
    if ss != [] {
      var pre, s := ss[..|ss| - 1], ss[|ss| - 1];
      var mid := RunLatches(l, pre);
      SteadyPhaseA(l, pre, levelA);
      TurnsAppend(RunTrace(l, pre), StepTrace(mid, s));
      StepTurns(mid, s);
      NextRecordsLevels(mid, s, Key1);
      if pre != [] {
        assert pre[0] == ss[0];
      }
    }
  }

  /** Phase A already low at power-on types one rotation on the first pass. */
  lemma PhaseALowAtPowerOn(s: Sample)
    requires !s.encA
    ensures Turns(RunTrace(Initial(), [s])) == [DirectionFor(s.encB)]
  {
    SteadyPhaseA(Initial(), [s], false);
  }

  // ----- Runs against the pin levels alone -----

  /** Whether a pin read low just before sample i, given whether it read low before the run. */
  function WasLow(lowBefore: bool, levels: seq<bool>, i: nat): bool
    requires i <= |levels|
  {
    if i == 0 then lowBefore else !levels[i - 1]
  }

  /** A channel's levels across a run. */
  function Levels(ss: seq<Sample>, ch: Channel): seq<bool> {
    seq(|ss|, i requires 0 <= i < |ss| => LevelOf(ss[i], ch))
  }

  /**
   * The transitions of an active-low pin: a press (true) wherever it reads low
   * after reading high, a release (false) wherever it reads high after reading low.
   */
  function Transitions(lowBefore: bool, levels: seq<bool>): seq<bool> {
    if levels == [] then []
    else
      var n := |levels| - 1;
      Transitions(lowBefore, levels[..n]) + (if WasLow(lowBefore, levels, n) != !levels[n] then [!levels[n]] else [])
  }

  /** Phase A's falls across a run, each with the direction phase B reads at that sample. */
  function Falls(lowBefore: bool, ss: seq<Sample>): seq<Direction> {
    if ss == [] then []
    else
      var n := |ss| - 1;
      var wasLow := if n == 0 then lowBefore else !ss[n - 1].encA;
      Falls(lowBefore, ss[..n]) + (if !wasLow && !ss[n].encA then [DirectionFor(ss[n].encB)] else [])
  }

  /** After a nonempty run every latch records the level of the last sample. */
  lemma RunLatchesRecord(l: Latches, ss: seq<Sample>, ch: Channel)
    requires ss != []
    ensures LatchOf(RunLatches(l, ss), ch) == !LevelOf(ss[|ss| - 1], ch)
    ensures RunLatches(l, ss).encA == !ss[|ss| - 1].encA
  {
    NextRecordsLevels(RunLatches(l, ss[..|ss| - 1]), ss[|ss| - 1], ch);
  }

  /**
   * Over any run, a channel's key is pressed exactly at each high-to-low
   * transition of its pin and released exactly at each low-to-high one, the latch
   * standing for the level before the run.
   */
  lemma {:induction false} RunStrokesAtTransitions(l: Latches, ss: seq<Sample>, ch: Channel)
    ensures Strokes(RunTrace(l, ss), ch) == Transitions(LatchOf(l, ch), Levels(ss, ch))
  {
    if ss != [] {
      var n := |ss| - 1;
      var pre, s := ss[..n], ss[n];
      var mid := RunLatches(l, pre);
      var lv := Levels(ss, ch);
      RunStrokesAtTransitions(l, pre, ch);
      assert lv[..n] == Levels(pre, ch);
      StrokesAppend(RunTrace(l, pre), StepTrace(mid, s), ch);
      StepStrokes(mid, s, ch);
      if n > 0 {
        RunLatchesRecord(l, pre, ch);
      }
      assert LatchOf(mid, ch) == WasLow(LatchOf(l, ch), lv, n);
    }
  }

  /**
   * Over any run, the encoder types one rotation exactly at each fall of phase A,
   * in the direction phase B reads at that sample, the latch standing for phase A
   * before the run.
   */
  lemma {:induction false} RunTurnsAtFalls(l: Latches, ss: seq<Sample>)
    ensures Turns(RunTrace(l, ss)) == Falls(l.encA, ss)
  {
    if ss != [] {
      var n := |ss| - 1;
      var pre, s := ss[..n], ss[n];
      var mid := RunLatches(l, pre);
      RunTurnsAtFalls(l, pre);
      TurnsAppend(RunTrace(l, pre), StepTrace(mid, s));
      StepTurns(mid, s);
      if n > 0 {
        RunLatchesRecord(l, pre, Key1);
        assert pre[n - 1] == ss[n - 1];
      }
    }
  }

  lemma ResetsAfterDelayAppend(a: seq<Call>, b: seq<Call>)
    requires ResetsAfterDelay(a) && ResetsAfterDelay(b)
    ensures ResetsAfterDelay(a + b)
  {
    forall i | 0 <= i < |a + b| && (a + b)[i] == WdtReset
      ensures 0 < i && (a + b)[i - 1] == Delay(2)
    {
      if i >= |a| {
        assert b[i - |a|] == WdtReset;
      }
    }
  }

  /**
   * Over a run of n passes the loop services the watchdog exactly n times and
   * delays 2 ms exactly n times, and every service follows a delay.
   */
  lemma {:induction false} RunServicesWatchdog(l: Latches, ss: seq<Sample>)
    ensures multiset(RunTrace(l, ss))[WdtReset] == |ss|
    ensures multiset(RunTrace(l, ss))[Delay(2)] == |ss|
    ensures ResetsAfterDelay(RunTrace(l, ss))
  {
    if ss != [] {
      var pre, s := ss[..|ss| - 1], ss[|ss| - 1];
      var mid := RunLatches(l, pre);
      RunServicesWatchdog(l, pre);
      StepServicesWatchdogOnce(mid, s);
      ResetsAfterDelayAppend(RunTrace(l, pre), StepTrace(mid, s));
    }
  }
}
