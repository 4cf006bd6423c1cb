/**
 * One pass of the firmware's endless poll loop: four edge detectors (key 1, key 2,
 * key 3, encoder switch) and the quadrature decoder for the rotary encoder, each
 * keeping one latch, followed by the 2 ms debounce delay and the watchdog service.
 */
module PollLoop {
  import opened Wrappers
  import opened Device
  import opened Keymap

  /**
   * The raw levels the pins read in one pass; true is high. The keys and the
   * encoder switch pull their pins low while pressed.
   */
  datatype Sample = Sample(key1: bool, key2: bool, key3: bool, encA: bool, encB: bool, encSw: bool)

  /**
   * The latches: for a channel, "last reported pressed"; for encA, "phase A last
   * seen low".
   */
  datatype Latches = Latches(key1: bool, key2: bool, key3: bool, encA: bool, encSw: bool)

  /** The latches as main declares them, before the first pass. */
  function Initial(): Latches {
    Latches(false, false, false, false, false)
  }

  function LatchOf(l: Latches, ch: Channel): bool {
    match ch
    case Key1 => l.key1
    case Key2 => l.key2
    case Key3 => l.key3
    case EncSwitch => l.encSw
  }

  function LevelOf(s: Sample, ch: Channel): bool {
    match ch
    case Key1 => s.key1
    case Key2 => s.key2
    case Key3 => s.key3
    case EncSwitch => s.encSw
  }

  /**
   * Whether a pass sees a change on a channel: the pin reads low exactly when the
   * latch says "released", or high exactly when it says "pressed".
   */
  predicate Changed(l: Latches, s: Sample, ch: Channel) {
    !LevelOf(s, ch) != LatchOf(l, ch)
  }

  /**
   * A latch after one pass: toggled when the active-low level disagrees with it.
   * Either way it ends up recording the level just read.
   */
  function Toggle(latch: bool, level: bool): (r: bool)
    ensures r == !level
    ensures r != latch <==> !level != latch
  {
    if !level != latch then !latch else latch
  }

  /**
   * Edge detector for one button channel: a press when the pin goes low while the
   * latch says released, a release when it goes high while the latch says pressed,
   * nothing when the level agrees with the latch.
   */
  function KeyEdge(ch: Channel, latch: bool, level: bool): (r: Option<Event>)
    ensures r == None || r == Some(Pressed(ch)) || r == Some(Released(ch))
    ensures r.Some? <==> !level != latch
    ensures r == Some(Pressed(ch)) <==> !latch && !level
    ensures r == Some(Released(ch)) <==> latch && level
  {
    if !level != latch then
      var now := !latch;
      if now then Some(Pressed(ch)) else Some(Released(ch))
    else None
  }

  /**
   * Quadrature decoder: one rotation when phase A goes low while its latch says
   * high, clockwise if phase B then reads high and counter-clockwise if it reads
   * low; nothing when A goes back high or does not change.
   */
  function Turn(latchA: bool, levelA: bool, levelB: bool): (r: Option<Event>)
    ensures r == None || r.value.Rotated?
    ensures r.Some? <==> !latchA && !levelA
    ensures r == Some(Rotated(Clockwise)) <==> !latchA && !levelA && levelB
    ensures r == Some(Rotated(CounterClockwise)) <==> !latchA && !levelA && !levelB
  {
    if !levelA != latchA then
      var now := !latchA;
      if now then
        if levelB then Some(Rotated(Clockwise)) else Some(Rotated(CounterClockwise))
      else None
    else None
  }

  function Opt(o: Option<Event>): seq<Event> {
    if o.Some? then [o.value] else []
  }

  /** The order in which one pass handles the inputs. */
  function Rank(e: Event): nat {
    match e
    case Rotated(_) => 3
    case Pressed(ch) => ChannelRank(ch)
    case Released(ch) => ChannelRank(ch)
  }

  function ChannelRank(ch: Channel): nat {
    match ch
    case Key1 => 0
    case Key2 => 1
    case Key3 => 2
    case EncSwitch => 4
  }

  /** The detections of a sequence of handlers, in handling order. */
  function Flatten(os: seq<Option<Event>>): seq<Event> {
    if os == [] then [] else Flatten(os[..|os| - 1]) + Opt(os[|os| - 1])
  }

  /** What each handler of a pass detects: key 1, key 2, key 3, encoder, encoder switch. */
  function Detections(l: Latches, s: Sample): seq<Option<Event>> {
    [KeyEdge(Key1, l.key1, s.key1), KeyEdge(Key2, l.key2, s.key2), KeyEdge(Key3, l.key3, s.key3),
     Turn(l.encA, s.encA, s.encB), KeyEdge(EncSwitch, l.encSw, s.encSw)]
  }

  /** The events one pass detects, in handling order. */
  function Events(l: Latches, s: Sample): seq<Event> {
    Flatten(Detections(l, s))
  }

  /** The latches after one pass. */
  function Next(l: Latches, s: Sample): Latches {
    Latches(Toggle(l.key1, s.key1), Toggle(l.key2, s.key2), Toggle(l.key3, s.key3),
            Toggle(l.encA, s.encA), Toggle(l.encSw, s.encSw))
  }

  /** The calls one handler makes in a pass: the action of its event, if any. */
  function Actions(o: Option<Event>): seq<Call> {
    if o.Some? then [Dispatch(o.value)] else []
  }

  /** The calls the five handlers make, in handling order. */
  function Emit(o1: Option<Event>, o2: Option<Event>, o3: Option<Event>, o4: Option<Event>, o5: Option<Event>): seq<Call> {
    Actions(o1) + Actions(o2) + Actions(o3) + Actions(o4) + Actions(o5)
  }

  /** The calls one pass makes: the actions of the events it detects, in order, then the 2 ms delay and the watchdog service. */
  function StepTrace(l: Latches, s: Sample): seq<Call> {
    DispatchAll(Events(l, s)) + [Delay(2), WdtReset]
  }

  /** The latches after polling the samples in order. */
  function RunLatches(l: Latches, ss: seq<Sample>): Latches {
    if ss == [] then l else Next(RunLatches(l, ss[..|ss| - 1]), ss[|ss| - 1])
  }

  /** The calls made while polling the samples in order. */
  function RunTrace(l: Latches, ss: seq<Sample>): seq<Call> {
    if ss == [] then []
    else RunTrace(l, ss[..|ss| - 1]) + StepTrace(RunLatches(l, ss[..|ss| - 1]), ss[|ss| - 1])
  }

  /** Polling one more sample appends that pass's calls and applies its latch update. */
  lemma RunSnoc(l: Latches, ss: seq<Sample>, s: Sample)
    ensures (RunLatches(l, ss + [s]), RunTrace(l, ss + [s]))
      == (Next(RunLatches(l, ss), s), RunTrace(l, ss) + StepTrace(RunLatches(l, ss), s))
  {
    assert (ss + [s])[..|ss|] == ss;
  }

  // ----- One pass -----

  /**
   * After a pass every latch records the level just read, so a latch moves exactly
   * when its input changed and all others keep their value.
   */
  lemma NextRecordsLevels(l: Latches, s: Sample, ch: Channel)
    ensures LatchOf(Next(l, s), ch) == !LevelOf(s, ch)
    ensures Next(l, s).encA == !s.encA
    ensures LatchOf(Next(l, s), ch) != LatchOf(l, ch) <==> Changed(l, s, ch)
    ensures Next(l, s).encA != l.encA <==> !s.encA != l.encA
  {
  }

  ghost predicate InOrder(evs: seq<Event>) {
    forall i, j :: 0 <= i < j < |evs| ==> Rank(evs[i]) < Rank(evs[j])
  }

  ghost predicate RanksBelow(evs: seq<Event>, k: nat) {
    forall i :: 0 <= i < |evs| ==> Rank(evs[i]) < k
  }

  lemma InOrderSnoc(evs: seq<Event>, o: Option<Event>, k: nat)
    requires InOrder(evs) && RanksBelow(evs, k)
    requires o.Some? ==> Rank(o.value) == k
    ensures InOrder(evs + Opt(o)) && RanksBelow(evs + Opt(o), k + 1)
  {
  }

  /** Handlers whose detections have the rank of their position yield events in rank order. */
  lemma {:induction false} FlattenInOrder(os: seq<Option<Event>>)
    requires forall i :: 0 <= i < |os| && os[i].Some? ==> Rank(os[i].value) == i
    ensures InOrder(Flatten(os)) && RanksBelow(Flatten(os), |os|)
  {
    if os != [] {
      var pre := os[..|os| - 1];
      FlattenInOrder(pre);
      InOrderSnoc(Flatten(pre), os[|os| - 1], |os| - 1);
    }
  }

  /**
   * A pass handles the inputs in the fixed order key 1, key 2, key 3, encoder,
   * encoder switch, and so detects at most one event per input.
   */
  lemma EventsInHandlingOrder(l: Latches, s: Sample)
    ensures InOrder(Events(l, s))
  {
    FlattenInOrder(Detections(l, s));
  }

  /** An event is detected exactly when some handler detected it. */
  lemma {:induction false} InFlatten(x: Event, os: seq<Option<Event>>)
    ensures x in Flatten(os) <==> Some(x) in os
  {
    if os != [] {
      var pre := os[..|os| - 1];
      InFlatten(x, pre);
      assert os == pre + [os[|os| - 1]];
    }
  }

  /**
   * A pass reports a press exactly for the channels whose pin reads low while the
   * latch says released, and a release exactly for those reading high while the
   * latch says pressed.
   */
  lemma EdgesDetected(l: Latches, s: Sample, ch: Channel)
    ensures Pressed(ch) in Events(l, s) <==> !LatchOf(l, ch) && !LevelOf(s, ch)
    ensures Released(ch) in Events(l, s) <==> LatchOf(l, ch) && LevelOf(s, ch)
  {
    InFlatten(Pressed(ch), Detections(l, s));
    InFlatten(Released(ch), Detections(l, s));
  }

  /**
   * A pass reports a rotation exactly when phase A reads low while its latch says
   * high, clockwise when phase B reads high and counter-clockwise when it reads low.
   */
  lemma TurnsDetected(l: Latches, s: Sample)
    ensures Rotated(Clockwise) in Events(l, s) <==> !l.encA && !s.encA && s.encB
    ensures Rotated(CounterClockwise) in Events(l, s) <==> !l.encA && !s.encA && !s.encB
  {
    InFlatten(Rotated(Clockwise), Detections(l, s));
    InFlatten(Rotated(CounterClockwise), Detections(l, s));
  }

  /** Five handlers' detections flatten to their concatenation. */
  lemma FlattenFive(o1: Option<Event>, o2: Option<Event>, o3: Option<Event>, o4: Option<Event>, o5: Option<Event>)
    ensures Flatten([o1, o2, o3, o4, o5]) == Opt(o1) + Opt(o2) + Opt(o3) + Opt(o4) + Opt(o5)
  {
    assert [o1][..0] == [];
    assert Flatten([o1]) == [] + Opt(o1) == Opt(o1);
    assert [o1, o2][..1] == [o1];
    assert Flatten([o1, o2]) == Flatten([o1]) + Opt(o2);
    assert [o1, o2, o3][..2] == [o1, o2];
    assert Flatten([o1, o2, o3]) == Flatten([o1, o2]) + Opt(o3);
    assert [o1, o2, o3, o4][..3] == [o1, o2, o3];
    assert Flatten([o1, o2, o3, o4]) == Flatten([o1, o2, o3]) + Opt(o4);
    assert [o1, o2, o3, o4, o5][..4] == [o1, o2, o3, o4];
  }

  lemma EmitDispatchesJoin(o1: Option<Event>, o2: Option<Event>, o3: Option<Event>, o4: Option<Event>, o5: Option<Event>)
    ensures Emit(o1, o2, o3, o4, o5) == DispatchAll(Flatten([o1, o2, o3, o4, o5]))
  {
    var p1, p2, p3, p4, p5 := Opt(o1), Opt(o2), Opt(o3), Opt(o4), Opt(o5);
    assert Actions(o1) == DispatchAll(p1) && Actions(o2) == DispatchAll(p2) && Actions(o3) == DispatchAll(p3);
    assert Actions(o4) == DispatchAll(p4) && Actions(o5) == DispatchAll(p5);
    DispatchAllAppend(p1, p2);
    DispatchAllAppend(p1 + p2, p3);
    DispatchAllAppend(p1 + p2 + p3, p4);
    DispatchAllAppend(p1 + p2 + p3 + p4, p5);
    FlattenFive(o1, o2, o3, o4, o5);
  }

  /**
   * Handling the inputs one after another, each handler issuing the action of what
   * it detected, makes exactly the calls of a pass.
   */
  lemma HandlersEmitStepTrace(l: Latches, s: Sample)
    ensures Emit(KeyEdge(Key1, l.key1, s.key1), KeyEdge(Key2, l.key2, s.key2), KeyEdge(Key3, l.key3, s.key3),
                 Turn(l.encA, s.encA, s.encB), KeyEdge(EncSwitch, l.encSw, s.encSw)) + [Delay(2), WdtReset]
      == StepTrace(l, s)
  {
    EmitDispatchesJoin(KeyEdge(Key1, l.key1, s.key1), KeyEdge(Key2, l.key2, s.key2), KeyEdge(Key3, l.key3, s.key3),
                       Turn(l.encA, s.encA, s.encB), KeyEdge(EncSwitch, l.encSw, s.encSw));
  }

  /** Every call a pass makes is a keyboard action, the delay or the watchdog service. */
  lemma StepTraceLoopCalls(l: Latches, s: Sample)
    ensures forall i :: 0 <= i < |StepTrace(l, s)| ==> IsLoopCall(StepTrace(l, s)[i])
  {
  }

  /** Every call the loop makes, over any run, is a keyboard action, the delay or the watchdog service. */
  lemma {:induction false} RunTraceLoopCalls(l: Latches, ss: seq<Sample>)
    ensures forall i :: 0 <= i < |RunTrace(l, ss)| ==> IsLoopCall(RunTrace(l, ss)[i])
  {
    if ss != [] {
      var pre := ss[..|ss| - 1];
      RunTraceLoopCalls(l, pre);
      StepTraceLoopCalls(RunLatches(l, pre), ss[|ss| - 1]);
    }
  }

  // ----- The loop body, imperatively -----

  /** The five latch variables of main, owned by the poll loop. */
  class LoopState {
    var key1Last: bool
    var key2Last: bool
    var key3Last: bool
    var encALast: bool
    var encSwLast: bool

    function View(): Latches
      reads this
    {
      Latches(key1Last, key2Last, key3Last, encALast, encSwLast)
    }

    /** All five latches start false: nothing pressed, phase A not low. */
    constructor ()
      ensures View() == Initial()
    {
      key1Last, key2Last, key3Last, encALast, encSwLast := false, false, false, false, false;
    }

    /** One iteration of the endless loop on the latches, returning the calls it makes in order. */
    method Step(s: Sample) returns (trace: seq<Call>)
      modifies this
      ensures View() == Next(old(View()), s)
      ensures trace == StepTrace(old(View()), s)
    {
      var next;
      next, trace := Poll(View(), s);
      key1Last, key2Last, key3Last, encALast, encSwLast := next.key1, next.key2, next.key3, next.encA, next.encSw;
    }
  }

  /**
   * The body of the endless loop: key 1, key 2, key 3, the encoder and the encoder
   * switch are handled in turn, each updating its latch and issuing its action;
   * then the loop waits 2 ms and services the watchdog.
   */
  method Poll(l: Latches, s: Sample) returns (next: Latches, trace: seq<Call>)
    ensures (next, trace) == (Next(l, s), StepTrace(l, s))
  {
    var key1Last, key2Last, key3Last, encALast, encSwLast := l.key1, l.key2, l.key3, l.encA, l.encSw;
    var c1, c2, c3, c4, c5;
    key1Last, c1 := PollKey(Key1, key1Last, s.key1);
    key2Last, c2 := PollKey(Key2, key2Last, s.key2);
    key3Last, c3 := PollKey(Key3, key3Last, s.key3);
    encALast, c4 := PollEncoder(encALast, s.encA, s.encB);
    encSwLast, c5 := PollKey(EncSwitch, encSwLast, s.encSw);
    next := Latches(key1Last, key2Last, key3Last, encALast, encSwLast);
    trace := c1 + c2 + c3 + c4 + c5 + [Delay(2), WdtReset];
    HandlersEmitStepTrace(l, s);
  }

  /**
   * The handling of one button channel in a pass: when the active-low level
   * disagrees with the latch, toggle the latch and take the pressed action if it
   * now says pressed, the released action otherwise.
   */
  method PollKey(ch: Channel, latch: bool, level: bool) returns (now: bool, calls: seq<Call>)
    ensures now == !level
    ensures calls == Actions(KeyEdge(ch, latch, level))
  {
    now, calls := latch, [];
    if !level != now {
      now := !now;
      if now {
        calls := [Dispatch(Pressed(ch))];
      } else {
        calls := [Dispatch(Released(ch))];
      }
    }
  }

  /**
   * The handling of the rotary encoder in a pass: when phase A disagrees with its
   * latch, toggle the latch; if A is now low, type clockwise when B reads high and
   * counter-clockwise when B reads low.
   */
  method PollEncoder(latchA: bool, levelA: bool, levelB: bool) returns (now: bool, calls: seq<Call>)
    ensures now == !levelA
    ensures calls == Actions(Turn(latchA, levelA, levelB))
  {
    now, calls := latchA, [];
    if !levelA != now {
      now := !now;
      if now {
        if levelB {
          calls := [Dispatch(Rotated(Clockwise))];
        } else {
          calls := [Dispatch(Rotated(CounterClockwise))];
        }
      }
    }
  }
}
