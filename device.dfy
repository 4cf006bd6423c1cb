/**
 * The calls the firmware's main function makes into code outside the modelled core
 * (USB HID keyboard, delay, watchdog, NeoPixel strip, bootloader), each recorded as
 * one abstract trace entry instead of being performed.
 */
module Device {
  /** The USB HID key codes the default key map binds. */
  datatype KeyCode = F13 | F14 | F15 | F16 | F17 | F18

  datatype Call =
    | Press(key: KeyCode)       // KBD_press: key down
    | Release(key: KeyCode)     // KBD_release: key up
    | Type(key: KeyCode)        // KBD_type: key down immediately followed by key up
    | Delay(ms: nat)            // DLY_ms
    | WdtStart                  // WDT_start: arm the watchdog
    | WdtReset                  // WDT_reset: service the watchdog
    | HidInit                   // HID_init: bring up the USB HID device
    | LightAllPixels            // one byte of 127 sent for every colour of every NeoPixel
    | EnterBootloader           // BOOT_now: jump to the bootloader, never returns

  /** The calls a poll-loop iteration can make: keyboard actions, the 2 ms delay, the watchdog service. */
  predicate IsLoopCall(c: Call) {
    c.Press? || c.Release? || c.Type? || c == Delay(2) || c == WdtReset
  }
}
