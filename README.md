# Macropad poll loop and startup gating

This project models the input-event state machine of a three-key USB macropad
with a rotary encoder (`software/macropad_plus.c`). It covers three things:
- the five latch variables and the endless poll loop in `main`;
- the key map that turns each detected event into a USB keyboard action;
- the startup gating that chooses between the bootloader and the loop.

The model states the firmware's promises about these and proves them.

Every call into code outside the core is recorded as one abstract trace entry
(`Device.Call`) instead of being performed. That covers the USB HID keyboard,
the delay, the watchdog, the NeoPixel strip and the bootloader. A pin level is a
boolean; true means high. The three keys and the encoder switch pull their pins
low while pressed.

Two orderings follow the code exactly:
- Each iteration first delays 2 ms and only then services the watchdog (`software/macropad_plus.c:257-258`).
- `HID_init` and the 500 ms wait both come before `WDT_start` arms the watchdog (`software/macropad_plus.c:188-190`).

Modules:
- `Wrappers`: the `Option` type.
- `Device`: key codes and the abstract calls.
- `Keymap`: channels, events, the action table `Dispatch` and its inverse `EventOf`.
- `PollLoop`: one pass of the loop, in three forms:
  - pure functions:
    - `Next` (`software/macropad_plus.c:195-255`): the latches after a pass;
    - `Events`: the events a pass detects;
    - `StepTrace` (`software/macropad_plus.c:195-258`): the calls of a pass, meaning the actions of its events followed by `Delay(2)` and `WdtReset`;
  - imperative code mirroring the C: `PollKey`, `PollEncoder`, `Poll`, and the class `LoopState`, whose five fields are the latch variables and whose `Step` method is one iteration;
  - lemmas about a single pass.
- `PollRuns`: properties of finite runs of passes.
- `Startup`:
  - `Gate` (`software/macropad_plus.c:173`): the boot decision. A low encoder-switch pin selects `Bootloader`; otherwise the device goes on `Running`.
  - `StartupTrace` (`software/macropad_plus.c:173-176`, `188-190`): the calls power-on makes before the loop.
  - `DeviceTrace` (`software/macropad_plus.c:172-259`): every call from the boot check on.
  - `PowerOn`: builds a `LoopState` and steps it over a finite list of samples.

## Model

| member | source | states |
|---|---|---|
| Keymap.Dispatch | software/macropad_plus.c:81-137 | Each event has its own keyboard action: a press for a pressed channel, a release for a released channel, a type for a rotation. The event can be recovered from the call with `EventOf`. |
| Keymap.ActionTable | software/macropad_plus.c:81-137 | The key map: key 1 uses F13, key 2 F14, key 3 F15 and the encoder switch F17, each pressed and released. Counter-clockwise types F16 and clockwise types F18. |
| Keymap.EventOfInvertsDispatch | software/macropad_plus.c:81-137 | A call reports event e exactly when e dispatches to that call. |
| Keymap.DispatchInjective | software/macropad_plus.c:81-137 | No two events share an action. |
| Keymap.DispatchAllAppend | software/macropad_plus.c:195-255 | Dispatching consecutive groups of events gives the concatenation of their actions. |
| PollLoop.Toggle | software/macropad_plus.c:197-198 | After the latch test and toggle, the latch equals the negated pin level. It moved exactly when the negated level disagreed with it. |
| PollLoop.KeyEdge | software/macropad_plus.c:197-205 | A detector fires exactly when the negated level differs from the latch. It reports a press exactly when the latch said released and the pin reads low, and a release exactly when the latch said pressed and the pin reads high. |
| PollLoop.Turn | software/macropad_plus.c:233-243 | The decoder fires exactly when phase A reads low while its latch says high. It reports clockwise exactly when phase B also reads high and counter-clockwise exactly when B reads low. A returning high fires nothing. |
| PollLoop.NextRecordsLevels | software/macropad_plus.c:195-255 | After a pass every latch records the level just read. A latch changes exactly when its input changed; all others keep their value. |
| PollLoop.EventsInHandlingOrder | software/macropad_plus.c:195-255 | A pass's events appear in the fixed order key 1, key 2, key 3, encoder, encoder switch, with at most one event per input. |
| PollLoop.FlattenInOrder | software/macropad_plus.c:195-255 | Handlers whose detections have the rank of their position yield events in rank order. |
| PollLoop.InFlatten | software/macropad_plus.c:195-255 | An event is detected in a pass exactly when some handler detected it. |
| PollLoop.EdgesDetected | software/macropad_plus.c:197-198 | A pass contains a press of a channel exactly when its pin reads low and its latch said released, and a release exactly when its pin reads high and its latch said pressed. |
| PollLoop.TurnsDetected | software/macropad_plus.c:233-242 | A pass contains a clockwise or counter-clockwise rotation exactly when phase A falls, chosen by phase B. |
| PollLoop.HandlersEmitStepTrace | software/macropad_plus.c:195-258 | The handlers' actions, issued one handler after another, followed by the delay and the watchdog service, are exactly the calls of a pass. |
| PollLoop.EmitDispatchesJoin | software/macropad_plus.c:195-255 | The five handlers' action lists, concatenated, dispatch exactly the concatenated detections. |
| PollLoop.FlattenFive | software/macropad_plus.c:195-255 | Five handlers' detections flatten to their concatenation in handling order. |
| PollLoop.StepTraceLoopCalls | software/macropad_plus.c:195-258 | Every call of a pass is a keyboard action, the 2 ms delay or the watchdog service. |
| PollLoop.RunTraceLoopCalls | software/macropad_plus.c:193-259 | The same holds for every call over any run of passes. |
| PollLoop.RunSnoc | software/macropad_plus.c:193-259 | Polling one more sample applies that pass's latch update and appends that pass's calls. |
| PollLoop.LoopState.constructor | software/macropad_plus.c:159-163 | All five latches start false: nothing pressed, phase A not low. |
| PollLoop.LoopState.Step | software/macropad_plus.c:193-259 | One iteration sets the latches to their update from the old latches and returns exactly that pass's calls. |
| PollLoop.Poll | software/macropad_plus.c:195-258 | Running the five handlers in turn, then the delay and the watchdog service, yields the latch update and the pass's calls. |
| PollLoop.PollKey | software/macropad_plus.c:197-205 | One button handler leaves its latch at the negated level and issues exactly the action of the edge it detects. |
| PollLoop.PollEncoder | software/macropad_plus.c:233-243 | The encoder handler leaves its latch at the negated phase A level and types exactly the rotation the decoder detects. |
| PollRuns.StrokesAppend | software/macropad_plus.c:195-255 | A channel's press/release projection of a trace distributes over concatenation. |
| PollRuns.TurnsAppend | software/macropad_plus.c:233-242 | The rotation projection of a trace distributes over concatenation. |
| PollRuns.ActionsProject | software/macropad_plus.c:81-137 | The calls of one handler project onto the stroke or rotation it detected. |
| PollRuns.TailProjects | software/macropad_plus.c:257-258 | The delay and watchdog service carry no stroke and no rotation. |
| PollRuns.EmitProjects | software/macropad_plus.c:195-258 | A pass's strokes and rotations are those of its handlers, in handling order. |
| PollRuns.StepStrokesByHandler | software/macropad_plus.c:195-258 | A pass's strokes of a channel are the strokes its five handlers detect. |
| PollRuns.StepTurnsByHandler | software/macropad_plus.c:195-258 | A pass's rotations are those its five handlers detect. |
| PollRuns.DetectorStroke | software/macropad_plus.c:197-205 | Only a channel's own detector strokes it, and only when its level disagrees with its latch. |
| PollRuns.HandlerStrokes | software/macropad_plus.c:195-255 | Of the five handlers, only the channel's own strokes it, and only on a change. |
| PollRuns.StepStrokes | software/macropad_plus.c:197-205 | A pass presses or releases a channel's key at most once. It does so exactly when the level disagrees with the latch: a press when the latch said released, a release otherwise. |
| PollRuns.StepTurns | software/macropad_plus.c:233-242 | A pass types exactly one rotation when phase A falls, in phase B's direction, and none otherwise. |
| PollRuns.DispatchAllIsKeyboard | software/macropad_plus.c:81-137 | Dispatched events are keyboard calls only. |
| PollRuns.KeyboardThenService | software/macropad_plus.c:257-258 | Keyboard calls followed by the delay and the service contain one delay and one service. The service is last and follows the delay. |
| PollRuns.StepServicesWatchdogOnce | software/macropad_plus.c:257-258 | A pass ends with the 2 ms delay followed by the watchdog service, and makes each of those calls exactly once. |
| PollRuns.AlternatingSnoc | software/macropad_plus.c:199-204 | An alternating stroke sequence stays alternating after one more stroke if and only if that stroke moves the latch off its current value. The stroke then flips the latch. |
| PollRuns.RunStrokesAlternate | software/macropad_plus.c:197-205 | Over any run, a channel's presses and releases alternate, starting by moving away from the initial latch. The latch has moved once per stroke. |
| PollRuns.AlternatingNeverRepeats | software/macropad_plus.c:199-204 | Alternating strokes start away from the initial latch and never repeat. |
| PollRuns.AlternatingBalance | software/macropad_plus.c:199-204 | In alternating strokes, the moves away from the initial latch outnumber the moves back by the sequence length mod 2. |
| PollRuns.StrokesCount | software/macropad_plus.c:81-137 | A channel's strokes count exactly its press and release calls. |
| PollRuns.PowerOnStrokes | software/macropad_plus.c:159-163 | From power-on, a channel's first stroke is a press and strokes never repeat. Presses exceed releases by one exactly when the latch ends set, and are otherwise equal. |
| PollRuns.HostMirrorsLastLevel | software/macropad_plus.c:197-205 | After a nonempty run from power-on, presses exceed releases by one exactly when the pin read low at the last pass. |
| PollRuns.SteadyLevel | software/macropad_plus.c:197-198 | A level held steady strokes at most once, on the first pass, and not at all when the latch already agrees. The latch then records the level. |
| PollRuns.HeldAtPowerOn | software/macropad_plus.c:159-163 | A key held from power-on is pressed on the first pass and never again while held. |
| PollRuns.SteadyPhaseA | software/macropad_plus.c:233-242 | While phase A keeps one level, the encoder types at most one rotation: exactly one, in phase B's first direction, when A is low and the latch said high. Phase B moving alone types nothing. |
| PollRuns.PhaseALowAtPowerOn | software/macropad_plus.c:159-163 | Phase A already low at power-on types one rotation on the first pass. |
| PollRuns.RunLatchesRecord | software/macropad_plus.c:195-255 | After a nonempty run every latch records the last sample's level. |
| PollRuns.RunStrokesAtTransitions | software/macropad_plus.c:197-205 | Over any run, a key is pressed exactly at each high-to-low transition of its pin and released exactly at each low-to-high one. This agrees with a reference defined on the pin levels alone. |
| PollRuns.RunTurnsAtFalls | software/macropad_plus.c:233-242 | Over any run, the encoder types one rotation exactly at each fall of phase A, in the direction phase B reads then. This agrees with a reference defined on the levels alone. |
| PollRuns.ResetsAfterDelayAppend | software/macropad_plus.c:257-258 | "Every watchdog service follows a delay" is preserved by concatenation. |
| PollRuns.RunServicesWatchdog | software/macropad_plus.c:193-259 | Over n passes the loop services the watchdog exactly n times and delays 2 ms exactly n times, each service right after a delay. |
| Startup.PowerOn | software/macropad_plus.c:172-259 | The firmware from the boot check on makes exactly the device trace: the bootloader path, or initialisation followed by the polling of every sample with fresh latches. |
| Startup.LoopExtends | software/macropad_plus.c:193-259 | One more iteration extends the latches and the trace by the next sample's pass. |
| Startup.BootModeNeverPolls | software/macropad_plus.c:173-176 | With the encoder switch held at power-on, the device lights its pixels and enters the bootloader, whatever the inputs later read. It never initialises USB, never starts the watchdog and never polls. |
| Startup.InitThenLoop | software/macropad_plus.c:188-193 | Initialisation followed by loop calls: HID init, the 500 ms wait and the watchdog start each occur once, as the first three calls, and every later call is a loop call. There is no boot call. |
| Startup.RunModeOrder | software/macropad_plus.c:188-193 | Otherwise HID init, the 500 ms wait and the watchdog start come first, once each and in that order. Every later call, and only a later call, is a loop call. The bootloader is never entered, and the watchdog is serviced once per pass. |
| Startup.InitThenLoopStrokes | software/macropad_plus.c:188-190 | The initialisation calls carry no key strokes. |
| Startup.DeviceKeysAlternate | software/macropad_plus.c:157-259 | From power-on in run mode, each key's presses and releases alternate, starting with a press. The host ends up holding the key exactly when its pin read low at the last pass. |

## Left out

- NeoPixel driver (`NEO_init`, `NEO_sendByte`, `NEO_writeColor`, `NEO_update`, `NEO_clearAll`) and the pan-flag colour writes (`software/macropad_plus.c:167-170`, `178-185`). These are LED bit-timing I/O. Lighting all pixels before the bootloader is one abstract call, `LightAllPixels`. The device trace therefore starts at the boot check.
- Clock configuration and the 10 ms settling delay (`software/macropad_plus.c:168-169`). These are hardware set-up with no effect on the inputs or the loop.
- USB HID stack and its interrupt handler (`HID_init`, `KBD_press`, `KBD_release`, `KBD_type`, `USB_ISR`). These are foreign library code and interrupt-driven concurrency. They appear only as abstract calls.
- Real durations: the millisecond delays are recorded by their argument only. The watchdog timeout and the device reset it causes are not modelled, because they are hardware timing.
- `BOOT_now` never returns. Here it is a terminal trace entry after which the device trace ends.
- The endless `while(1)` loop is modelled as any finite list of samples, one per iteration. Every lemma holds for every such list.
- Pin sampling is a parameter: each iteration's reads are given as one `Sample`. Each pin is read at most once per iteration, so this loses only the instants of the reads.
- The unused hue macros `NEO_KEY1` to `NEO_KEY6` and `NEO_BRIGHT_KEYS` (`software/macropad_plus.c:144-152`) are constants with no behaviour.
