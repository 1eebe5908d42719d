# Asus Transformer dock: hotkeys and dock battery

This project models the dock support of the Asus Transformer TF101 in CyanogenMod (the `asusdec` package). It has three parts.

1. **The hotkey dispatcher (`KeyHandler`).**
   - It filters key events to first key-downs.
   - It maps the dock's scan codes to nine actions.
   - It reports whether the event was consumed.
   - The actions are:
     - the wifi (station and hotspot) toggle, guarded against transitions;
     - the Bluetooth toggle;
     - the touchpad switch, which is persisted;
     - brightness steps with a one-sided clamp, on Java `int` arithmetic that wraps;
     - the auto-brightness switch;
     - the ringer mute;
     - the settings launcher;
     - the screenshot session. Its connection identity moves from idle to requesting and back on request, connect, reply and timeout events.
2. **The dock battery change detector (`DockBatteryHandler`).**
   - A native update fills a seven-field snapshot.
   - `process` derives the plugged source, with AC winning over USB.
   - `hasNewData` is an edge detector over a saved copy.
   - `isPlugged` and `getNotifyData` read the snapshot.
3. **The native sysfs side of the dock battery handler.**
   - `readFromFile` reads once and trims trailing newlines.
   - Text is decoded into a status, online flags, a presence flag and an `atoi` level.
   - The registration loop finds the power-supply files by the `type` each `/sys/class/power_supply` entry declares.

The Dafny is organised as follows.

- **`hotkeys.dfy`** holds the handler's decisions as functions over values.
  - The platform services the handler talks to are one `Platform` record:
    - the wifi, hotspot, Bluetooth and audio states it reads;
    - the settings it reads and writes, namely brightness, brightness mode and touchpad status, where `None` means the setting is absent;
    - the last value sent to the touchpad controller;
    - a log of the requests it issues to the services.
  - `Perform`/`Dispatch` describe one key press on the whole handler state.
- **`key_handler.dfy`** is the handler as a class whose methods update its fields step by step. Each method is proved against the matching function in `hotkeys.dfy`.
- **`sysfs.dfy`** models the native code.
  - The file system is a map from path to contents, or to a failing read.
  - `ReadFromFile` works on an `array<char>` with the trimming loop.
  - The registration loop is a method over the directory listing, proved against `ClassifyAll`.
- **`dock_battery.dfy`** is the change detector as a class with the Java fields. It also holds client methods that call the handler in an assumed order (update, process, then hasNewData). The battery service that makes those calls is not part of this model.
- **`android.dfy`** holds the framework constants the code compares against. These are the values of `KeyEvent`, `WifiManager`, `BluetoothAdapter`, `AudioManager`, `Settings.System`, `Intent` and `BatteryManager`.
- **`wrappers.dfy`** holds `Option`.

## Model

| member | source | states |
|---|---|---|
| Hotkeys.ActionFor | asusdec/java/com/cyanogenmod/asusdec/KeyHandler.java:134-170 | exactly the nine scan codes 238, 237, 60, 224, 225, 61, 212, 62, 113 map to an action; 113 alone is mute, 212 alone is screenshot |
| Hotkeys.ScanCodeOf | asusdec/java/com/cyanogenmod/asusdec/KeyHandler.java:53-62 | every action has a scan code that maps back to it |
| Hotkeys.ScanCodeTableIsInjective | asusdec/java/com/cyanogenmod/asusdec/KeyHandler.java:134-170 | a mapped scan code is the one code of its action, so the table is a bijection |
| Hotkeys.WifiRequests | asusdec/java/com/cyanogenmod/asusdec/KeyHandler.java:183-200 | nothing is requested while station or hotspot is enabling/disabling; the hotspot is never enabled; station-enable is requested iff both are disabled; disable-both is requested iff neither is in transition and either is enabled; these are the only three outcomes |
| Hotkeys.BluetoothRequests | asusdec/java/com/cyanogenmod/asusdec/KeyHandler.java:208-219 | OFF leads to enable and ON leads to disable, each iff; every other state, turning on/off included, requests nothing |
| Hotkeys.TouchpadStatusValue | asusdec/java/com/cyanogenmod/asusdec/KeyHandler.java:226 | the persisted value is 0 or 1, and 0 exactly when the touchpad is disabled |
| Hotkeys.InitialTouchpadEnabled | asusdec/java/com/cyanogenmod/asusdec/KeyHandler.java:90-97 | the handler starts disabled iff the setting exists and is 0; a missing setting leaves it enabled |
| Hotkeys.TouchpadStatusRoundTrip | asusdec/java/com/cyanogenmod/asusdec/KeyHandler.java:222-228 | what the toggle persists is what the next handler starts with |
| Hotkeys.DockEventReasserts | asusdec/java/com/cyanogenmod/asusdec/KeyHandler.java:104-114 | the touchpad is re-sent iff the intent is a dock event whose dock state is present and not UNDOCKED |
| Hotkeys.Wrap32 | asusdec/java/com/cyanogenmod/asusdec/KeyHandler.java:236-248 | the result of Java `int` addition: the exact value when it fits, otherwise the value shifted by 2^32 into range |
| Hotkeys.BrightnessDownLevel | asusdec/java/com/cyanogenmod/asusdec/KeyHandler.java:231-241 | the stored level is at least MIN; when `int` subtraction does not wrap it is the current level (MIN when unset) minus 10, or MIN; near the bottom of the `int` range it is the wrapped difference |
| Hotkeys.BrightnessUpLevel | asusdec/java/com/cyanogenmod/asusdec/KeyHandler.java:243-253 | the stored level is at most MAX; when `int` addition does not wrap it is the current level (MAX when unset) plus 10, or MAX; near the top of the `int` range it is the wrapped, negative sum |
| Hotkeys.BrightnessStaysInRange | asusdec/java/com/cyanogenmod/asusdec/KeyHandler.java:231-253 | a level in [MIN, MAX] stays in range, and moves down (resp. up) |
| Hotkeys.BrightnessClampIsOneSided | asusdec/java/com/cyanogenmod/asusdec/KeyHandler.java:231-253 | down does not clamp from above and up does not clamp from below: out-of-range levels can stay out of range |
| Hotkeys.BrightnessStepsAreMonotonic | asusdec/java/com/cyanogenmod/asusdec/KeyHandler.java:231-253 | both keys are monotonic in the stored level wherever the step cannot wrap |
| Hotkeys.BrightnessWrapsAtIntLimits | asusdec/java/com/cyanogenmod/asusdec/KeyHandler.java:231-253 | up from Integer.MAX_VALUE stores −2147483639 and down from Integer.MIN_VALUE stores 2147483638, so neither key is monotonic across the `int` limits |
| Hotkeys.ToggledBrightnessMode | asusdec/java/com/cyanogenmod/asusdec/KeyHandler.java:259-267 | automatic iff the mode is manual or unset; manual otherwise |
| Hotkeys.ToggledBrightnessModeInvolution | asusdec/java/com/cyanogenmod/asusdec/KeyHandler.java:255-268 | between manual and automatic, two presses restore the mode |
| Hotkeys.ToggledRinger | asusdec/java/com/cyanogenmod/asusdec/KeyHandler.java:318-321 | silent iff the ringer was normal; normal iff it was anything else, vibrate included |
| Hotkeys.AudioMuteToggled | asusdec/java/com/cyanogenmod/asusdec/KeyHandler.java:312-323 | outside the normal audio mode nothing changes; otherwise only the ringer changes, to silent iff it was normal |
| Hotkeys.AudioMuteTwiceEndsNormal | asusdec/java/com/cyanogenmod/asusdec/KeyHandler.java:312-323 | two presses in normal mode leave the ringer normal if it was normal, and silent otherwise |
| Hotkeys.RequestScreenshot | asusdec/java/com/cyanogenmod/asusdec/KeyHandler.java:346-395 | a request while a connection is live does nothing; otherwise a new connection is bound and recorded iff the bind succeeds; session validity is kept |
| Hotkeys.ScreenshotConnected | asusdec/java/com/cyanogenmod/asusdec/KeyHandler.java:357-383 | the session never changes; the capture request is sent iff the connecting connection is the live one |
| Hotkeys.ScreenshotReplied | asusdec/java/com/cyanogenmod/asusdec/KeyHandler.java:367-375 | a reply ends the session (unbind, timeout cancelled) iff its connection is the live one; otherwise nothing changes |
| Hotkeys.ScreenshotTimedOut | asusdec/java/com/cyanogenmod/asusdec/KeyHandler.java:333-343 | the timeout unbinds and clears any live connection and does nothing when none is live |
| Hotkeys.LateReplyIsIgnored | asusdec/java/com/cyanogenmod/asusdec/KeyHandler.java:333-375 | a reply arriving after its session timed out changes nothing |
| Hotkeys.RequestAcceptedAfterSessionEnds | asusdec/java/com/cyanogenmod/asusdec/KeyHandler.java:333-395 | after a reply or a timeout, the next request binds a connection with a new identity |
| Hotkeys.Perform | asusdec/java/com/cyanogenmod/asusdec/KeyHandler.java:134-170 | only the touchpad action changes the touchpad flag, only the screenshot action changes the session, session validity is kept, radio/adapter/audio-mode state is never written, requests are only appended |
| Hotkeys.Dispatch | asusdec/java/com/cyanogenmod/asusdec/KeyHandler.java:129-172 | consumed iff the event is a first key-down of one of the eight non-mute codes; a filtered or unmapped event changes nothing; otherwise the mapped action is performed |
| Hotkeys.MuteKeyIsNeverConsumed | asusdec/java/com/cyanogenmod/asusdec/KeyHandler.java:159-166 | the mute key is not consumed even when it changes the ringer |
| Hotkeys.ScreenshotKeyConsumedWhenSkipped | asusdec/java/com/cyanogenmod/asusdec/KeyHandler.java:153-155 | the screenshot key is consumed even when a live session makes it a no-op |
| Hotkeys.WifiPressesInTransitionDoNothing | asusdec/java/com/cyanogenmod/asusdec/KeyHandler.java:183-190 | any number of wifi presses during a transition leave the whole state unchanged |
| Hotkeys.BrightnessUpStaysAtMaximum | asusdec/java/com/cyanogenmod/asusdec/KeyHandler.java:243-253 | from MAX, any number of up presses stay at MAX |
| Hotkeys.BrightnessDownConverges | asusdec/java/com/cyanogenmod/asusdec/KeyHandler.java:231-241 | n down presses from c ≥ MIN give max(c − 10n, MIN), so MIN stays at MIN |
| Hotkeys.TouchpadTwiceRestores | asusdec/java/com/cyanogenmod/asusdec/KeyHandler.java:222-229 | two toggles restore the flag, leave hardware and setting agreeing with it, and restore the whole state when they agreed before |
| KeyHandling.KeyHandler.constructor | asusdec/java/com/cyanogenmod/asusdec/KeyHandler.java:78-102 | the touchpad starts as InitialTouchpadEnabled says, and the controller is told "off" only when it starts disabled; the session starts idle |
| KeyHandling.KeyHandler.OnDockEvent | asusdec/java/com/cyanogenmod/asusdec/KeyHandler.java:104-114 | on docking the controller receives the current touchpad flag; nothing else changes |
| KeyHandling.KeyHandler.HandleKeyEvent | asusdec/java/com/cyanogenmod/asusdec/KeyHandler.java:116-173 | the new fields and the result are those of Dispatch on the old state |
| KeyHandling.KeyHandler.ToggleWifi | asusdec/java/com/cyanogenmod/asusdec/KeyHandler.java:175-201 | only the request log changes, by WifiRequests of the current states |
| KeyHandling.KeyHandler.ToggleBluetooth | asusdec/java/com/cyanogenmod/asusdec/KeyHandler.java:203-220 | only the request log changes, by BluetoothRequests of the current state |
| KeyHandling.KeyHandler.ToggleTouchpad | asusdec/java/com/cyanogenmod/asusdec/KeyHandler.java:222-229 | the flag is negated; the controller and the setting receive the new value |
| KeyHandling.KeyHandler.BrightnessDown | asusdec/java/com/cyanogenmod/asusdec/KeyHandler.java:231-241 | manual mode is forced, and BrightnessDownLevel (with `int` wrap-around) is stored and sent as the override |
| KeyHandling.KeyHandler.BrightnessUp | asusdec/java/com/cyanogenmod/asusdec/KeyHandler.java:243-253 | manual mode is forced, and BrightnessUpLevel (with `int` wrap-around) is stored and sent as the override |
| KeyHandling.KeyHandler.ToggleAutoBrightness | asusdec/java/com/cyanogenmod/asusdec/KeyHandler.java:255-268 | nothing changes when automatic brightness is unavailable; otherwise the mode becomes ToggledBrightnessMode |
| KeyHandling.KeyHandler.SetBrightnessMode | asusdec/java/com/cyanogenmod/asusdec/KeyHandler.java:270-273 | only the brightness-mode setting changes |
| KeyHandling.KeyHandler.SetBrightness | asusdec/java/com/cyanogenmod/asusdec/KeyHandler.java:275-287 | the override is requested and the setting is written, whether or not the power manager accepts it |
| KeyHandling.KeyHandler.GetBrightness | asusdec/java/com/cyanogenmod/asusdec/KeyHandler.java:289-297 | the stored brightness, or the default when the setting is missing |
| KeyHandling.KeyHandler.LaunchSettings | asusdec/java/com/cyanogenmod/asusdec/KeyHandler.java:299-305 | only the settings-activity request is added |
| KeyHandling.KeyHandler.ToggleAudioMute | asusdec/java/com/cyanogenmod/asusdec/KeyHandler.java:307-324 | the platform becomes AudioMuteToggled of the old one |
| KeyHandling.KeyHandler.TakeScreenshot | asusdec/java/com/cyanogenmod/asusdec/KeyHandler.java:346-395 | the session and requests follow RequestScreenshot; validity is kept |
| KeyHandling.KeyHandler.OnScreenshotServiceConnected | asusdec/java/com/cyanogenmod/asusdec/KeyHandler.java:357-383 | the requests follow ScreenshotConnected; the session is untouched |
| KeyHandling.KeyHandler.OnScreenshotReply | asusdec/java/com/cyanogenmod/asusdec/KeyHandler.java:367-375 | the session and requests follow ScreenshotReplied; validity is kept |
| KeyHandling.KeyHandler.OnScreenshotTimeout | asusdec/java/com/cyanogenmod/asusdec/KeyHandler.java:333-343 | the session and requests follow ScreenshotTimedOut; validity is kept |
| Sysfs.RawRead | asusdec/jni/com_cyanogenmod_asusdec_DockBatteryHandler.cpp:79-89 | a read yields at most `capacity` bytes, a prefix of an existing, readable file; a null path or failed open/read yields nothing |
| Sysfs.TrimNewlines | asusdec/jni/com_cyanogenmod_asusdec_DockBatteryHandler.cpp:90-91 | the result is a prefix with no trailing newline, and everything cut off is newlines |
| Sysfs.ReadFromFile | asusdec/jni/com_cyanogenmod_asusdec_DockBatteryHandler.cpp:79-100 | returns −1 iff the path is null or the open or read fails; otherwise the count is below the buffer length, the buffer holds the trimmed text followed by NUL, and a path that cannot be opened leaves the buffer untouched |
| Sysfs.DropTrailingNewlines | asusdec/jni/com_cyanogenmod_asusdec_DockBatteryHandler.cpp:90-91 | the loop leaves the count at the length of the trimmed text |
| Sysfs.TerminatorOverrunsAsWritten | asusdec/jni/com_cyanogenmod_asusdec_DockBatteryHandler.cpp:89-93 | as written, the NUL index equals the buffer size exactly when the read fills the buffer and its last byte is not a newline |
| Sysfs.BooleanReadOverrunsAsWritten | asusdec/jni/com_cyanogenmod_asusdec_DockBatteryHandler.cpp:104-108 | a sixteen-character online file makes the sixteen-byte read write its NUL one past the buffer |
| Sysfs.ReadTextDiffersOnlyWhenBufferFills | asusdec/jni/com_cyanogenmod_asusdec_DockBatteryHandler.cpp:79-93 | reading `size − 1` bytes instead of `size` changes the decoded text iff the file has at least `size` bytes and byte `size − 1` is not a newline |
| Sysfs.TrimKeeps | asusdec/jni/com_cyanogenmod_asusdec_DockBatteryHandler.cpp:90-91 | trimming keeps every byte up to and including any non-newline |
| Sysfs.GetDockBatteryStatus | asusdec/jni/com_cyanogenmod_asusdec_DockBatteryHandler.cpp:66-77 | Charging iff the first character is 'C', NotCharging iff it is 'N', Unknown otherwise |
| Sysfs.StatusFromContents | asusdec/jni/com_cyanogenmod_asusdec_DockBatteryHandler.cpp:136-141 | the status is decoded from the first byte read, and a failed or empty read gives Unknown |
| Sysfs.BooleanFromContents | asusdec/jni/com_cyanogenmod_asusdec_DockBatteryHandler.cpp:102-114 | an online flag is set iff the read succeeds, its first byte is not '0', and it holds something other than newlines |
| Sysfs.PresentFromContents | asusdec/jni/com_cyanogenmod_asusdec_DockBatteryHandler.cpp:143-150 | present iff at least 15 bytes are read and byte 14 is '1' |
| Sysfs.LevelFromDecimal | asusdec/jni/com_cyanogenmod_asusdec_DockBatteryHandler.cpp:116-134 | a capacity file holding any decimal number and a newline decodes to that number, with no range clamp |
| Sysfs.StatusOfKnownStrings | asusdec/jni/com_cyanogenmod_asusdec_DockBatteryHandler.cpp:66-77 | "Charging" and "Not charging" decode to their statuses; "Discharging" and "Full" decode to Unknown |
| Sysfs.LeadingDigits | asusdec/jni/com_cyanogenmod_asusdec_DockBatteryHandler.cpp:123 | the longest all-digit prefix (the digits `atoi` consumes) |
| Sysfs.DecimalValue | asusdec/jni/com_cyanogenmod_asusdec_DockBatteryHandler.cpp:123 | the digits of a number denote that number |
| Sysfs.AtoiDecimal | asusdec/jni/com_cyanogenmod_asusdec_DockBatteryHandler.cpp:123 | `atoi` reads back a decimal number, with or without a minus sign |
| Sysfs.CString | asusdec/jni/com_cyanogenmod_asusdec_DockBatteryHandler.cpp:186-189 | the text `strcmp` compares: the prefix before the first NUL |
| Sysfs.WithPath | asusdec/jni/com_cyanogenmod_asusdec_DockBatteryHandler.cpp:191-213 | recording a path sets that slot and no other |
| Sysfs.Classify | asusdec/jni/com_cyanogenmod_asusdec_DockBatteryHandler.cpp:173-215 | "." and ".." change nothing; a slot changes only for an entry whose type is the slot's type and whose slot file is readable, and then it changes to that file; such an entry always sets it |
| Sysfs.ClassifyByType | asusdec/jni/com_cyanogenmod_asusdec_DockBatteryHandler.cpp:189-214 | "Mains" touches only the AC path, "USB" only the pad-USB path, "DockAC" only the dock-AC path, "DockBattery" none of the online paths; any other type, or none, changes nothing |
| Sysfs.FoundPathsHaveMatchingType | asusdec/jni/com_cyanogenmod_asusdec_DockBatteryHandler.cpp:173-216 | every path the loop finds is a readable file of an entry that declared the slot's type |
| Sysfs.MainsSupplyFound | asusdec/jni/com_cyanogenmod_asusdec_DockBatteryHandler.cpp:173-193 | a listing ".", "..", "ac" with type "Mains\n" and a readable online file yields exactly the AC path |
| Sysfs.RegisterPaths | asusdec/jni/com_cyanogenmod_asusdec_DockBatteryHandler.cpp:164-218 | no paths when the directory cannot be opened; otherwise the loop's result is ClassifyAll of the listing |
| Sysfs.ClassifyEntry | asusdec/jni/com_cyanogenmod_asusdec_DockBatteryHandler.cpp:181-215 | the loop body for one entry equals Classify |
| Sysfs.ReadSupplyType | asusdec/jni/com_cyanogenmod_asusdec_DockBatteryHandler.cpp:181-189 | the type string read and cut as `strcmp` sees it, or none for a failed or empty read |
| Sysfs.Unlock | asusdec/jni/com_cyanogenmod_asusdec_DockBatteryHandler.cpp:190-192 | a slot is recorded iff its file passes access(R_OK) |
| Sysfs.ReadBoolean | asusdec/jni/com_cyanogenmod_asusdec_DockBatteryHandler.cpp:102-114 | the flag is the boolean decoding of at most 15 bytes read into the sixteen-byte buffer |
| Sysfs.ReadInt | asusdec/jni/com_cyanogenmod_asusdec_DockBatteryHandler.cpp:116-126 | `atoi` of the text, or the default for a failed or empty read |
| Sysfs.NativeDockBatteryUpdate | asusdec/jni/com_cyanogenmod_asusdec_DockBatteryHandler.cpp:128-157 | the six fields are ReadAll of the paths: level, status, presence and the three online flags |
| DockBattery.PluggedFrom | asusdec/java/com/cyanogenmod/asusdec/DockBatteryHandler.java:77-83 | AC iff dock AC or AC is online; USB iff neither is but pad USB is; 0 iff none is |
| DockBattery.PluggedIn | asusdec/java/com/cyanogenmod/asusdec/DockBatteryHandler.java:128-130 | never plugged when not present |
| DockBattery.PluggedAfterProcess | asusdec/java/com/cyanogenmod/asusdec/DockBatteryHandler.java:76-130 | after `process`, isPlugged holds iff the dock is present and some supply is online |
| DockBattery.ProcessIsIdempotent | asusdec/java/com/cyanogenmod/asusdec/DockBatteryHandler.java:76-83 | `process` depends only on the three online flags, and a second run changes nothing |
| DockBattery.DistinctReadingsStayDistinct | asusdec/java/com/cyanogenmod/asusdec/DockBatteryHandler.java:71-83 | different native readings give different processed snapshots |
| DockBattery.DockBatteryHandler.constructor | asusdec/java/com/cyanogenmod/asusdec/DockBatteryHandler.java:39-68 | the flag `initial` is set, and all fields hold Java's defaults |
| DockBattery.DockBatteryHandler.Update | asusdec/java/com/cyanogenmod/asusdec/DockBatteryHandler.java:71-73 | status, level, presence and the three online flags become the native reading (ReadAll of the paths); `plugged` is left as it was |
| DockBattery.DockBatteryHandler.Process | asusdec/java/com/cyanogenmod/asusdec/DockBatteryHandler.java:76-83 | only `plugged` changes, to PluggedFrom of the online flags |
| DockBattery.DockBatteryHandler.GetNotifyData | asusdec/java/com/cyanogenmod/asusdec/DockBatteryHandler.java:85-99 | the bundle has exactly the seven keys, and decoding it gives back the current snapshot unchanged |
| DockBattery.DockBatteryHandler.HasNewData | asusdec/java/com/cyanogenmod/asusdec/DockBatteryHandler.java:101-125 | true iff this is the first call or the snapshot differs from the saved copy; afterwards the saved copy equals the unchanged snapshot and the flag `initial` is cleared |
| DockBattery.DockBatteryHandler.IsPlugged | asusdec/java/com/cyanogenmod/asusdec/DockBatteryHandler.java:127-130 | PluggedIn of the snapshot, so never without presence |
| DockBattery.Poll | asusdec/java/com/cyanogenmod/asusdec/DockBatteryHandler.java:70-125 | in the assumed calling order update, process, hasNewData: a change is reported iff the processed snapshot differs from the saved one, and it is saved |
| DockBattery.FirstPollReports | asusdec/java/com/cyanogenmod/asusdec/DockBatteryHandler.java:65-125 | the first poll after construction reports whatever it read; asking again at once does not |
| DockBattery.ChangeIsReported | asusdec/java/com/cyanogenmod/asusdec/DockBatteryHandler.java:104-122 | a change between two polls in anything the native update reads is reported |
| DockBattery.PollAndNotify | asusdec/java/com/cyanogenmod/asusdec/DockBatteryHandler.java:85-130 | after a poll, isPlugged and the bundle describe the very snapshot the poll compared |

## Left out

- The Android services are not modelled: the wifi, Bluetooth, audio, power-manager and activity managers. The handler's calls into them are appended to a request log, and their effects are outside the model. So are their failures (`RemoteException`, `ActivityNotFoundException`), which the source swallows.
- Whether binding to the screenshot service succeeds is the parameter `bindOk`. Messenger IPC, the `Handler` looper, `synchronized` and the 10-second `postDelayed` timing are not modelled. Each callback is one atomic step, and the pending timeout is a flag.
- `onServiceDisconnected` is empty in the source and has no counterpart.
- The touchpad ioctl (`nativeToggleTouchpad`, `AsusdecNative`) is recorded as the last value sent to the controller. Its result and its failure to open `/dev/asusdec` are not modelled.
- Real I/O is not modelled: `open`, `read`, `close`, `opendir`, `readdir`, `access`, `snprintf` and `strdup`. The file system is a map from path to contents or a failing read, and the directory listing is a parameter. One `read` is assumed to return the file's first bytes up to the requested size.
- `atoi` is modelled on unbounded integers. A C `int` overflows for more than nine or ten digits, which is undefined behaviour and not modelled.
- The six paths that the native registration stores in globals are a `PowerSupplyPaths` value. `DockBatteryHandler.Update` takes it as a parameter.
- JNI plumbing is not modelled: `JNI_OnLoad`, `FindClass`/`GetFieldID`, native method registration, and the BatteryManager constants fetched at run time. The constants are the framework's values in `android.dfy`.
- The string values of BatteryManager's four dock extras are not part of this model. The bundle keys are a datatype.
- Logging and the `DEBUG_KEYEVENT` branch are not modelled.
- `DeviceSettings.java` is not part of this model: preference UI and storage. Neither is `AsusdecNative.java`, a library-loading guard.
- Sysfs.ReadText: every read in the model asks for `size − 1` bytes, the corrected capacity from the finding below, not the `size` bytes the source asks for. A file that fills the source's buffer with a non-newline last byte therefore decodes differently. Examples: an online file of fifteen newlines followed by "1" is set in the source but not in the model; a type file "Mains", fourteen newlines and "x" is Mains in the model but not in the source; a capacity file of 127 newlines followed by "5" gives 5 in the source and 0 in the model. `ReadTextAsWritten` and `ReadTextDiffersOnlyWhenBufferFills` pin down exactly which files are affected.
- Hotkeys.BrightnessStepsAreMonotonic: monotonicity is promised only where the ±10 step stays inside the `int` range. Across the limits it fails, as `BrightnessWrapsAtIntLimits` shows.
- `Sysfs.ReadSupplyType`: the source's own strip of one trailing newline from the type text can never fire, because `readFromFile` has already removed every trailing newline. The model asserts this instead of executing a dead store.

## Findings

| source | as written | input that shows it | evidently intended | confidence | as-written member | corrected member |
|---|---|---|---|---|---|---|
| asusdec/jni/com_cyanogenmod_asusdec_DockBatteryHandler.cpp:89-93 | `readFromFile` reads up to `size` bytes into a `size`-byte buffer, then writes the NUL at `buf[count]`. When the read fills the buffer and its last byte is not a newline, `count == size` and the write lands one byte past the buffer. | a sixteen-character online file such as "1111111111111111" read by `setBooleanField` (16-byte buffer); likewise a twenty-character `type` file in the registration loop | read at most `size - 1` bytes so that the terminator always fits | not executed | Sysfs.TerminatorOverrunsAsWritten | Sysfs.ReadFromFile |
