/**
 * The macro functions that associate an action with each input event
 * (KEY1_PRESSED ... ENC_CW_ACTION), written as one table from event to call,
 * together with its inverse: which event a keyboard call reports.
 */
module Keymap {
  import opened Wrappers
  import opened Device

  /** The button-like inputs: three keys and the rotary encoder's push switch. */
  datatype Channel = Key1 | Key2 | Key3 | EncSwitch

  datatype Direction = Clockwise | CounterClockwise

  /** What one poll can detect on one input. */
  datatype Event =
    | Pressed(channel: Channel)
    | Released(channel: Channel)
    | Rotated(dir: Direction)

  /** The key code a button channel presses and releases. */
  function Code(ch: Channel): KeyCode {
    match ch
    case Key1 => F13
    case Key2 => F14
    case Key3 => F15
    case EncSwitch => F17
  }

  /** The key code typed for one detent of the encoder. */
  function TurnCode(d: Direction): KeyCode {
    match d
    case CounterClockwise => F16
    case Clockwise => F18
  }

  /** The channel whose press and release use key code k, if any. */
  function ChannelOf(k: KeyCode): Option<Channel> {
    match k
    case F13 => Some(Key1)
    case F14 => Some(Key2)
    case F15 => Some(Key3)
    case F17 => Some(EncSwitch)
    case _ => None
  }

  /** The direction whose rotation types key code k, if any. */
  function DirectionOf(k: KeyCode): Option<Direction> {
    match k
    case F16 => Some(CounterClockwise)
    case F18 => Some(Clockwise)
    case _ => None
  }

  /**
   * The action each event takes: a pressed channel presses its key, a released
   * channel releases it, a rotation types its key. The host can tell every event
   * apart from the call alone: EventOf recovers it.
   */
  function Dispatch(e: Event): (c: Call)
    ensures c.Press? <==> e.Pressed?
    ensures c.Release? <==> e.Released?
    ensures c.Type? <==> e.Rotated?
    ensures EventOf(c) == Some(e)
  {
    match e
    case Pressed(ch) => Press(Code(ch))
    case Released(ch) => Release(Code(ch))
    case Rotated(d) => Type(TurnCode(d))
  }

  /** The event a call reports, or None for a call no event issues. */
  function EventOf(c: Call): Option<Event> {
    match c
    case Press(k) => if ChannelOf(k).Some? then Some(Pressed(ChannelOf(k).value)) else None
    case Release(k) => if ChannelOf(k).Some? then Some(Released(ChannelOf(k).value)) else None
    case Type(k) => if DirectionOf(k).Some? then Some(Rotated(DirectionOf(k).value)) else None
    case _ => None
  }

  /** The default key map: keys 1 to 3 and the encoder switch on F13, F14, F15 and F17, rotations on F16 and F18. */
  lemma ActionTable()
    ensures Dispatch(Pressed(Key1)) == Press(F13) && Dispatch(Released(Key1)) == Release(F13)
    ensures Dispatch(Pressed(Key2)) == Press(F14) && Dispatch(Released(Key2)) == Release(F14)
    ensures Dispatch(Pressed(Key3)) == Press(F15) && Dispatch(Released(Key3)) == Release(F15)
    ensures Dispatch(Pressed(EncSwitch)) == Press(F17) && Dispatch(Released(EncSwitch)) == Release(F17)
    ensures Dispatch(Rotated(CounterClockwise)) == Type(F16) && Dispatch(Rotated(Clockwise)) == Type(F18)
  {
  }

  /** EventOf is exactly the inverse of Dispatch: a call reports e iff e dispatches to it. */
  lemma EventOfInvertsDispatch(c: Call, e: Event)
    ensures EventOf(c) == Some(e) <==> Dispatch(e) == c
  {
  }

  /** No two events share an action, so no event can be mistaken for another. */
  lemma DispatchInjective(e1: Event, e2: Event)
    ensures Dispatch(e1) == Dispatch(e2) ==> e1 == e2
  {
  }

  /** Dispatches a sequence of events in order. */
  function DispatchAll(evs: seq<Event>): seq<Call> {
    seq(|evs|, i requires 0 <= i < |evs| => Dispatch(evs[i]))
  }

  lemma DispatchAllAppend(a: seq<Event>, b: seq<Event>)
    ensures DispatchAll(a + b) == DispatchAll(a) + DispatchAll(b)
  {
    var l, r := DispatchAll(a + b), DispatchAll(a) + DispatchAll(b);
    assert |l| == |r|;
    forall i | 0 <= i < |l| ensures l[i] == r[i] {
      if i < |a| { assert (a + b)[i] == a[i]; } else { assert (a + b)[i] == b[i - |a|]; }
    }
  }
}
