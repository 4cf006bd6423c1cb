/**
 * Power-on: the encoder switch held down at reset sends the device to its
 * bootloader; otherwise it brings up the USB keyboard, waits, starts the watchdog
 * and enters the poll loop, which runs here for a finite list of samples.
 */
module Startup {
  import opened Device
  import opened PollLoop
  import opened PollRuns

  /** Where power-on leads: the bootloader, or the poll loop. */
  datatype Outcome = Bootloader | Running

  /** The boot check: a low encoder-switch pin (switch pressed) selects the bootloader. */
  function Gate(encSwLevel: bool): Outcome {
    if !encSwLevel then Bootloader else Running
  }

  /** The calls power-on makes before the first pass. */
  function StartupTrace(encSwLevel: bool): seq<Call> {
    match Gate(encSwLevel)
    case Bootloader => [LightAllPixels, EnterBootloader]
    case Running => [HidInit, Delay(500), WdtStart]
  }

  /** Every call the device makes from the boot check on, the loop polling the given samples. */
  function DeviceTrace(encSwLevel: bool, samples: seq<Sample>): seq<Call> {
    StartupTrace(encSwLevel) + (if Gate(encSwLevel) == Running then RunTrace(Initial(), samples) else [])
  }

  /**
   * The firmware from the boot check on: enter the bootloader if the encoder
   * switch is held, otherwise initialise and poll each sample in turn with fresh
   * latches.
   */
  method PowerOn(encSwLevel: bool, samples: seq<Sample>) returns (trace: seq<Call>)
    ensures trace == DeviceTrace(encSwLevel, samples)
  {
    if !encSwLevel {
      trace := [LightAllPixels, EnterBootloader];
      return;
    }
    trace := [HidInit, Delay(500), WdtStart];
    assert samples[..0] == [];
    assert trace == trace + RunTrace(Initial(), samples[..0]);
    var loop := new LoopState();
    var i := 0;
    while i < |samples|
      invariant 0 <= i <= |samples|
      invariant loop.View() == RunLatches(Initial(), samples[..i])
      invariant trace == [HidInit, Delay(500), WdtStart] + RunTrace(Initial(), samples[..i])
    {
      ghost var before := loop.View();
      var calls := loop.Step(samples[i]);
      LoopExtends(samples, i, before, trace, calls);
      trace := trace + calls;
      i := i + 1;
    }
    assert samples[..i] == samples;
  }

  /** One more pass of the loop extends the run by the next sample. */
  lemma LoopExtends(samples: seq<Sample>, i: nat, before: Latches, trace: seq<Call>, calls: seq<Call>)
    requires i < |samples|
    requires before == RunLatches(Initial(), samples[..i])
    requires trace == [HidInit, Delay(500), WdtStart] + RunTrace(Initial(), samples[..i])
    requires calls == StepTrace(before, samples[i])
    ensures Next(before, samples[i]) == RunLatches(Initial(), samples[..i + 1])
    ensures trace + calls == [HidInit, Delay(500), WdtStart] + RunTrace(Initial(), samples[..i + 1])
  {
    assert samples[..i + 1] == samples[..i] + [samples[i]];
    RunSnoc(Initial(), samples[..i], samples[i]);
  }

  /**
   * With the encoder switch held at power-on the device lights its pixels and
   * enters the bootloader, whatever the inputs later read: it never initialises
   * USB, never starts the watchdog and never polls.
   */
  lemma BootModeNeverPolls(samples: seq<Sample>)
    ensures DeviceTrace(false, samples) == [LightAllPixels, EnterBootloader]
    ensures forall i :: 0 <= i < |DeviceTrace(false, samples)| ==> !IsLoopCall(DeviceTrace(false, samples)[i])
    ensures HidInit !in DeviceTrace(false, samples) && WdtStart !in DeviceTrace(false, samples)
  {
    assert Gate(false) == Bootloader;
  }

  /** The initialisation calls followed by loop calls: each initialisation call once, first, and no boot call. */
  lemma InitThenLoop(t: seq<Call>)
    requires forall i :: 0 <= i < |t| ==> IsLoopCall(t[i])
    ensures (StartupTrace(true) + t)[..3] == [HidInit, Delay(500), WdtStart]
    ensures multiset(StartupTrace(true) + t)[HidInit] == 1
    ensures multiset(StartupTrace(true) + t)[WdtStart] == 1
    ensures multiset(StartupTrace(true) + t)[Delay(500)] == 1
    ensures multiset(StartupTrace(true) + t)[WdtReset] == multiset(t)[WdtReset]
    ensures EnterBootloader !in StartupTrace(true) + t && LightAllPixels !in StartupTrace(true) + t
    ensures forall i :: 0 <= i < |StartupTrace(true) + t| && IsLoopCall((StartupTrace(true) + t)[i]) ==> 3 <= i
    ensures forall i :: 3 <= i < |StartupTrace(true) + t| ==> IsLoopCall((StartupTrace(true) + t)[i])
  {
    var init := [HidInit, Delay(500), WdtStart];
    assert StartupTrace(true) == init;
    assert HidInit !in t && WdtStart !in t && Delay(500) !in t && EnterBootloader !in t && LightAllPixels !in t;
    assert multiset(init + t) == multiset(init) + multiset(t);
  }

  /**
   * With the encoder switch released at power-on the device initialises USB,
   * waits 500 ms and starts the watchdog, each exactly once and in that order,
   * before any key action; every later call is a loop call; it never enters the
   * bootloader; and the loop services the watchdog once per pass.
   */
  lemma RunModeOrder(samples: seq<Sample>)
    ensures DeviceTrace(true, samples)[..3] == [HidInit, Delay(500), WdtStart]
    ensures multiset(DeviceTrace(true, samples))[HidInit] == 1
    ensures multiset(DeviceTrace(true, samples))[WdtStart] == 1
    ensures multiset(DeviceTrace(true, samples))[Delay(500)] == 1
    ensures EnterBootloader !in DeviceTrace(true, samples) && LightAllPixels !in DeviceTrace(true, samples)
    ensures multiset(DeviceTrace(true, samples))[WdtReset] == |samples|
    ensures forall i :: 0 <= i < |DeviceTrace(true, samples)| && IsLoopCall(DeviceTrace(true, samples)[i]) ==> 3 <= i
    ensures forall i :: 3 <= i < |DeviceTrace(true, samples)| ==> IsLoopCall(DeviceTrace(true, samples)[i])
  {
    var t := RunTrace(Initial(), samples);
    assert DeviceTrace(true, samples) == StartupTrace(true) + t;
    RunServicesWatchdog(Initial(), samples);
    RunTraceLoopCalls(Initial(), samples);
    InitThenLoop(t);
  }

  /** The initialisation calls carry no key stroke. */
  lemma InitThenLoopStrokes(t: seq<Call>, ch: Keymap.Channel)
    ensures Strokes(StartupTrace(true) + t, ch) == Strokes(t, ch)
    ensures multiset(StartupTrace(true) + t)[Press(Keymap.Code(ch))] == multiset(t)[Press(Keymap.Code(ch))]
    ensures multiset(StartupTrace(true) + t)[Release(Keymap.Code(ch))] == multiset(t)[Release(Keymap.Code(ch))]
  {
    var init := [HidInit, Delay(500), WdtStart];
    assert StartupTrace(true) == init;
    StrokesAppend(init, t, ch);
    assert init[1..][1..][1..] == [];
    assert Strokes(init, ch) == [];
    assert multiset(init + t) == multiset(init) + multiset(t);
  }

  /**
   * From power-on in run mode, presses and releases of each key alternate,
   * starting with a press, and the host ends up holding the key exactly when its
   * pin read low at the last pass.
   */
  lemma DeviceKeysAlternate(samples: seq<Sample>, ch: Keymap.Channel)
    requires samples != []
    ensures Strokes(DeviceTrace(true, samples), ch) != [] ==> Strokes(DeviceTrace(true, samples), ch)[0]
    ensures forall i :: 0 < i < |Strokes(DeviceTrace(true, samples), ch)| ==>
      Strokes(DeviceTrace(true, samples), ch)[i] != Strokes(DeviceTrace(true, samples), ch)[i - 1]
    ensures multiset(DeviceTrace(true, samples))[Press(Keymap.Code(ch))]
      == multiset(DeviceTrace(true, samples))[Release(Keymap.Code(ch))] + (if LevelOf(samples[|samples| - 1], ch) then 0 else 1)
  {
    var t := RunTrace(Initial(), samples);
    assert DeviceTrace(true, samples) == StartupTrace(true) + t;
    InitThenLoopStrokes(t, ch);
    PowerOnStrokes(samples, ch);
    HostMirrorsLastLevel(samples, ch);
  }
}
