/**
 * The decisions of the dock's hotkey handler, as functions over values: which key events pass
 * the filter, which of the nine actions a scan code selects, what each action asks of the
 * platform services, and how the screenshot session moves between idle and requesting.
 * The class in key_handler.dfy performs these steps in place and is proved against them.
 */
module Hotkeys {
  import opened Wrappers
  import opened Android

  const MINIMUM_BACKLIGHT: int := BRIGHTNESS_OFF + 1
  const MAXIMUM_BACKLIGHT: int := BRIGHTNESS_ON
  const BRIGHTNESS_STEP: int := 10

  // Java's `int`: the brightness setting and the arithmetic on it are 32-bit two's complement
  const INT_MIN: int := -0x8000_0000
  const INT_MAX: int := 0x7fff_ffff
  const INT_RANGE: int := 0x1_0000_0000

  type Int32 = x: int | -0x8000_0000 <= x <= 0x7fff_ffff

  /** The `int` a Java addition or subtraction yields: the exact result, wrapped into range. */
  function Wrap32(x: int): (w: Int32)
    ensures INT_MIN <= x <= INT_MAX ==> w == x
    ensures INT_MAX < x <= INT_MAX + INT_RANGE ==> w == x - INT_RANGE
    ensures INT_MIN - INT_RANGE <= x < INT_MIN ==> w == x + INT_RANGE
  {
    (x - INT_MIN) % INT_RANGE + INT_MIN
  }

  // Device scan codes (not Android key codes)
  const SCANCODE_TOGGLE_WIFI: int := 238
  const SCANCODE_TOGGLE_BT: int := 237
  const SCANCODE_TOGGLE_TOUCHPAD: int := 60
  const SCANCODE_BRIGHTNESS_DOWN: int := 224
  const SCANCODE_BRIGHTNESS_UP: int := 225
  const SCANCODE_BRIGHTNESS_AUTO: int := 61
  const SCANCODE_SCREENSHOT: int := 212
  const SCANCODE_SETTINGS: int := 62
  const SCANCODE_VOLUME_MUTE: int := 113

  /** The parts of a KeyEvent the handler looks at. */
  datatype KeyEvent = KeyEvent(action: int, repeatCount: int, scanCode: int)

  datatype Action =
    | ToggleWifi
    | ToggleBluetooth
    | ToggleTouchpad
    | BrightnessDown
    | BrightnessUp
    | ToggleAutoBrightness
    | Screenshot
    | LaunchSettings
    | ToggleAudioMute

  /** A call into a platform service whose effect lies outside the handler. */
  datatype Request =
    | SetWifiEnabled(enabled: bool)
    | SetWifiApEnabled(enabled: bool)
    | EnableBluetooth
    | DisableBluetooth
    | SetBrightnessOverride(level: int)
    | StartSettingsActivity
    | BindScreenshotService(conn: ConnectionId)
    | SendScreenshotRequest(conn: ConnectionId)
    | UnbindService(conn: ConnectionId)

  /**
   * What the handler can observe of and do to the platform: radio, Bluetooth and audio states
   * as the services report them, the settings it reads and writes (None when a setting is
   * absent), the value last sent to the touchpad controller, and the log of service requests.
   */
  datatype Platform = Platform(
    wifiState: int,
    wifiApState: int,
    bluetoothState: int,
    audioMode: int,
    ringerMode: int,
    brightness: Option<Int32>,
    brightnessMode: Option<int>,
    touchpadStatus: Option<int>,
    touchpadHardware: Option<bool>,
    requests: seq<Request>)

  // ---------------------------------------------------------------------------------------
  // The event filter and the scan-code table

  /** Only a first key-down passes: key-ups and auto-repeats do not. */
  predicate Qualifies(e: KeyEvent) {
    e.action == ACTION_DOWN && e.repeatCount == 0
  }

  function ActionFor(scanCode: int): (a: Option<Action>)
    ensures a.Some? <==> scanCode in {238, 237, 60, 224, 225, 61, 212, 62, 113}
    ensures a == Some(ToggleAudioMute) <==> scanCode == 113
    ensures a == Some(Screenshot) <==> scanCode == 212
  {
    if scanCode == SCANCODE_TOGGLE_WIFI then Some(ToggleWifi)
    else if scanCode == SCANCODE_TOGGLE_BT then Some(ToggleBluetooth)
    else if scanCode == SCANCODE_TOGGLE_TOUCHPAD then Some(ToggleTouchpad)
    else if scanCode == SCANCODE_BRIGHTNESS_DOWN then Some(BrightnessDown)
    else if scanCode == SCANCODE_BRIGHTNESS_UP then Some(BrightnessUp)
    else if scanCode == SCANCODE_BRIGHTNESS_AUTO then Some(ToggleAutoBrightness)
    else if scanCode == SCANCODE_SCREENSHOT then Some(Screenshot)
    else if scanCode == SCANCODE_SETTINGS then Some(LaunchSettings)
    else if scanCode == SCANCODE_VOLUME_MUTE then Some(ToggleAudioMute)
    else None
  }

  /** The one scan code bound to each action. */
  function ScanCodeOf(a: Action): (code: int)
    ensures ActionFor(code) == Some(a)
  {
    match a
    case ToggleWifi => SCANCODE_TOGGLE_WIFI
    case ToggleBluetooth => SCANCODE_TOGGLE_BT
    case ToggleTouchpad => SCANCODE_TOGGLE_TOUCHPAD
    case BrightnessDown => SCANCODE_BRIGHTNESS_DOWN
    case BrightnessUp => SCANCODE_BRIGHTNESS_UP
    case ToggleAutoBrightness => SCANCODE_BRIGHTNESS_AUTO
    case Screenshot => SCANCODE_SCREENSHOT
    case LaunchSettings => SCANCODE_SETTINGS
    case ToggleAudioMute => SCANCODE_VOLUME_MUTE
  }

  /** The table is a bijection between its nine scan codes and the nine actions. */
  lemma ScanCodeTableIsInjective(code: int)
    requires ActionFor(code).Some?
    ensures ScanCodeOf(ActionFor(code).value) == code
  {
  }

  // ---------------------------------------------------------------------------------------
  // Radios

  predicate WifiInTransition(state: int, apState: int) {
    || state == WIFI_STATE_ENABLING || state == WIFI_STATE_DISABLING
    || apState == WIFI_AP_STATE_ENABLING || apState == WIFI_AP_STATE_DISABLING
  }

  /** The requests the wifi key makes, given the station and access-point states. */
  function WifiRequests(state: int, apState: int): (rs: seq<Request>)
    ensures WifiInTransition(state, apState) ==> rs == []
    ensures SetWifiApEnabled(true) !in rs
    ensures SetWifiEnabled(true) in rs <==> state == WIFI_STATE_DISABLED && apState == WIFI_AP_STATE_DISABLED
    ensures rs == [SetWifiEnabled(false), SetWifiApEnabled(false)] <==>
              !WifiInTransition(state, apState) && (state == WIFI_STATE_ENABLED || apState == WIFI_AP_STATE_ENABLED)
    ensures rs == [] || rs == [SetWifiEnabled(true)] || rs == [SetWifiEnabled(false), SetWifiApEnabled(false)]
  {
    if WifiInTransition(state, apState) then []
    else if state == WIFI_STATE_ENABLED || apState == WIFI_AP_STATE_ENABLED then
      [SetWifiEnabled(false), SetWifiApEnabled(false)]
    else if state == WIFI_STATE_DISABLED && apState == WIFI_AP_STATE_DISABLED then
      [SetWifiEnabled(true)]
    else []
  }

  /** The requests the Bluetooth key makes, given the adapter state. */
  function BluetoothRequests(state: int): (rs: seq<Request>)
    ensures rs == [EnableBluetooth] <==> state == BT_STATE_OFF
    ensures rs == [DisableBluetooth] <==> state == BT_STATE_ON
    ensures state != BT_STATE_OFF && state != BT_STATE_ON ==> rs == []
  {
    if state == BT_STATE_TURNING_OFF || state == BT_STATE_TURNING_ON then []
    else if state == BT_STATE_OFF then [EnableBluetooth]
    else if state == BT_STATE_ON then [DisableBluetooth]
    else []
  }

  function WifiToggled(p: Platform): Platform {
    p.(requests := p.requests + WifiRequests(p.wifiState, p.wifiApState))
  }

  function BluetoothToggled(p: Platform): Platform {
    p.(requests := p.requests + BluetoothRequests(p.bluetoothState))
  }

  // ---------------------------------------------------------------------------------------
  // Touchpad

  /** The value persisted under "touchpad_status". */
  function TouchpadStatusValue(enabled: bool): (v: int)
    ensures v == 0 || v == 1
    ensures v == 0 <==> !enabled
  {
    if enabled then 1 else 0
  }

  /** The touchpad state the handler starts with: disabled only when the setting exists and is 0. */
  function InitialTouchpadEnabled(status: Option<int>): (enabled: bool)
    ensures !enabled <==> status == Some(0)
  {
    !(status.Some? && status.value == 0)
  }

  /** What is persisted is what the next handler starts with. */
  lemma TouchpadStatusRoundTrip(enabled: bool)
    ensures InitialTouchpadEnabled(Some(TouchpadStatusValue(enabled))) == enabled
  {
  }

  /** The platform after the touchpad has been switched to `enabled`: hardware and setting agree. */
  function TouchpadApplied(p: Platform, enabled: bool): Platform {
    p.(touchpadHardware := Some(enabled), touchpadStatus := Some(TouchpadStatusValue(enabled)))
  }

  /** A dock event re-sends the touchpad state unless it reports (or defaults to) undocked. */
  function DockEventReasserts(isDockEvent: bool, dockState: Option<int>): (b: bool)
    ensures b <==> isDockEvent && dockState.Some? && dockState.value != EXTRA_DOCK_STATE_UNDOCKED
  {
    isDockEvent && dockState.GetOr(EXTRA_DOCK_STATE_UNDOCKED) != EXTRA_DOCK_STATE_UNDOCKED
  }

  // ---------------------------------------------------------------------------------------
  // Brightness

  /**
   * The level stored by the brightness-down key: one step lower, but never below the minimum.
   * The step is an `int` subtraction, so a level within ten of the bottom of the range wraps
   * to a large positive level before the clamp is tested.
   */
  function BrightnessDownLevel(current: Option<Int32>): (v: Int32)
    ensures v >= MINIMUM_BACKLIGHT
    ensures var c := current.GetOr(MINIMUM_BACKLIGHT);
            c - BRIGHTNESS_STEP >= INT_MIN ==>
              v >= c - BRIGHTNESS_STEP && (v == c - BRIGHTNESS_STEP || v == MINIMUM_BACKLIGHT)
    ensures var c := current.GetOr(MINIMUM_BACKLIGHT);
            c - BRIGHTNESS_STEP < INT_MIN ==> v == c - BRIGHTNESS_STEP + INT_RANGE
  {
    var value := Wrap32(current.GetOr(MINIMUM_BACKLIGHT) - BRIGHTNESS_STEP);
    if value < MINIMUM_BACKLIGHT then MINIMUM_BACKLIGHT else value
  }

  /**
   * The level stored by the brightness-up key: one step higher, but never above the maximum.
   * A level within ten of the top of the `int` range wraps to a negative level, which the
   * clamp lets through.
   */
  function BrightnessUpLevel(current: Option<Int32>): (v: Int32)
    ensures v <= MAXIMUM_BACKLIGHT
    ensures var c := current.GetOr(MAXIMUM_BACKLIGHT);
            c + BRIGHTNESS_STEP <= INT_MAX ==>
              v <= c + BRIGHTNESS_STEP && (v == c + BRIGHTNESS_STEP || v == MAXIMUM_BACKLIGHT)
    ensures var c := current.GetOr(MAXIMUM_BACKLIGHT);
            c + BRIGHTNESS_STEP > INT_MAX ==> v == c + BRIGHTNESS_STEP - INT_RANGE
  {
    var value := Wrap32(current.GetOr(MAXIMUM_BACKLIGHT) + BRIGHTNESS_STEP);
    if value > MAXIMUM_BACKLIGHT then MAXIMUM_BACKLIGHT else value
  }

  /** At the ends of the `int` range the step wraps, so the keys are not monotonic there. */
  lemma BrightnessWrapsAtIntLimits()
    ensures BrightnessUpLevel(Some(INT_MAX)) == -2147483639
    ensures BrightnessDownLevel(Some(INT_MIN)) == 2147483638
    ensures BrightnessUpLevel(Some(100)) > BrightnessUpLevel(Some(INT_MAX))
    ensures BrightnessDownLevel(Some(INT_MIN)) > BrightnessDownLevel(Some(100))
  {
  }

  /** A level within the backlight range stays within it under either key. */
  lemma BrightnessStaysInRange(c: Int32)
    requires MINIMUM_BACKLIGHT <= c <= MAXIMUM_BACKLIGHT
    ensures MINIMUM_BACKLIGHT <= BrightnessDownLevel(Some(c)) <= c
    ensures c <= BrightnessUpLevel(Some(c)) <= MAXIMUM_BACKLIGHT
  {
  }

  /** Each key clamps on one side only: a stored level outside the range can stay outside it. */
  lemma BrightnessClampIsOneSided()
    ensures BrightnessDownLevel(Some(MAXIMUM_BACKLIGHT + 100)) > MAXIMUM_BACKLIGHT
    ensures BrightnessUpLevel(Some(MINIMUM_BACKLIGHT - 100)) < MINIMUM_BACKLIGHT
  {
  }

  /** Away from the wrap at the ends of the `int` range, both keys are monotonic in the stored level. */
  lemma BrightnessStepsAreMonotonic(c: Int32, d: Int32)
    requires c <= d
    ensures c >= INT_MIN + BRIGHTNESS_STEP ==> BrightnessDownLevel(Some(c)) <= BrightnessDownLevel(Some(d))
    ensures d <= INT_MAX - BRIGHTNESS_STEP ==> BrightnessUpLevel(Some(c)) <= BrightnessUpLevel(Some(d))
  {
  }

  /** Both keys first force manual mode, then store the new level and send it as the override. */
  function BrightnessSet(p: Platform, v: Int32): Platform {
    p.(brightnessMode := Some(SCREEN_BRIGHTNESS_MODE_MANUAL),
       brightness := Some(v),
       requests := p.requests + [SetBrightnessOverride(v)])
  }

  /** The mode the auto-brightness key selects: automatic from manual (or unset), manual otherwise. */
  function ToggledBrightnessMode(mode: Option<int>): (m: int)
    ensures m == SCREEN_BRIGHTNESS_MODE_AUTOMATIC <==> mode.GetOr(SCREEN_BRIGHTNESS_MODE_MANUAL) == SCREEN_BRIGHTNESS_MODE_MANUAL
    ensures m == SCREEN_BRIGHTNESS_MODE_MANUAL <==> mode.GetOr(SCREEN_BRIGHTNESS_MODE_MANUAL) != SCREEN_BRIGHTNESS_MODE_MANUAL
  {
    if mode.GetOr(SCREEN_BRIGHTNESS_MODE_MANUAL) == SCREEN_BRIGHTNESS_MODE_MANUAL
    then SCREEN_BRIGHTNESS_MODE_AUTOMATIC
    else SCREEN_BRIGHTNESS_MODE_MANUAL
  }

  /** Between the two real modes the auto-brightness key is an involution. */
  lemma ToggledBrightnessModeInvolution(m: int)
    requires m == SCREEN_BRIGHTNESS_MODE_MANUAL || m == SCREEN_BRIGHTNESS_MODE_AUTOMATIC
    ensures ToggledBrightnessMode(Some(ToggledBrightnessMode(Some(m)))) == m
  {
  }

  function AutoBrightnessToggled(p: Platform, automaticAvailable: bool): Platform {
    if automaticAvailable then p.(brightnessMode := Some(ToggledBrightnessMode(p.brightnessMode))) else p
  }

  // ---------------------------------------------------------------------------------------
  // Audio

  /** The ringer mode the mute key selects: silent from normal, normal from anything else. */
  function ToggledRinger(ringer: int): (r: int)
    ensures r == RINGER_MODE_SILENT <==> ringer == RINGER_MODE_NORMAL
    ensures r == RINGER_MODE_NORMAL <==> ringer != RINGER_MODE_NORMAL
  {
    if ringer != RINGER_MODE_NORMAL then RINGER_MODE_NORMAL else RINGER_MODE_SILENT
  }

  /** The mute key acts only in the normal audio mode (never during a ring or a call). */
  function AudioMuteToggled(p: Platform): (q: Platform)
    ensures p.audioMode != AUDIO_MODE_NORMAL ==> q == p
    ensures q.(ringerMode := p.ringerMode) == p
    ensures p.audioMode == AUDIO_MODE_NORMAL ==> (q.ringerMode == RINGER_MODE_SILENT <==> p.ringerMode == RINGER_MODE_NORMAL)
  {
    if p.audioMode == AUDIO_MODE_NORMAL then p.(ringerMode := ToggledRinger(p.ringerMode)) else p
  }

  /** Two presses in normal audio mode leave a normal ringer normal and turn any other ringer silent. */
  lemma AudioMuteTwiceEndsNormal(p: Platform)
    requires p.audioMode == AUDIO_MODE_NORMAL
    ensures AudioMuteToggled(AudioMuteToggled(p)).ringerMode ==
              if p.ringerMode == RINGER_MODE_NORMAL then RINGER_MODE_NORMAL else RINGER_MODE_SILENT
  {
  }

  function SettingsLaunched(p: Platform): Platform {
    p.(requests := p.requests + [StartSettingsActivity])
  }

  // ---------------------------------------------------------------------------------------
  // Screenshot session: Idle -> Requesting -> Idle

  /** The identity of a service connection; each request creates a new one. */
  type ConnectionId = nat

  /**
   * The screenshot cell: the live connection, if any, whether the 10-second timeout is
   * posted, and how many connections have been created (the next one gets that number).
   */
  datatype Session = Session(connection: Option<ConnectionId>, timeoutPending: bool, created: nat)

  const IdleSession: Session := Session(None, false, 0)

  /** Every live session has its timeout posted and nothing else does; ids are never reused. */
  predicate SessionValid(s: Session) {
    && s.timeoutPending == s.connection.Some?
    && (s.connection.Some? ==> s.connection.value < s.created)
  }

  datatype SessionStep = SessionStep(session: Session, issued: seq<Request>)

  /** The screenshot key. */
  function RequestScreenshot(s: Session, bindOk: bool): (t: SessionStep)
    ensures s.connection.Some? ==> t == SessionStep(s, [])
    ensures s.connection.None? ==> t.issued == [BindScreenshotService(s.created)] && t.session.created == s.created + 1
    ensures s.connection.None? ==> (t.session.connection.Some? <==> bindOk)
    ensures t.session.connection.Some? ==> t.session.connection == s.connection || t.session.connection == Some(s.created)
    ensures SessionValid(s) ==> SessionValid(t.session)
  {
    if s.connection.Some? then SessionStep(s, [])
    else
      var conn := s.created;
      var next := if bindOk then Session(Some(conn), true, conn + 1) else s.(created := conn + 1);
      SessionStep(next, [BindScreenshotService(conn)])
  }

  /** The service-connected callback of connection `conn`: only the live connection sends the capture request. */
  function ScreenshotConnected(s: Session, conn: ConnectionId): (t: SessionStep)
    ensures t.session == s
    ensures t.issued != [] <==> s.connection == Some(conn)
    ensures t.issued != [] ==> t.issued == [SendScreenshotRequest(conn)]
  {
    if s.connection != Some(conn) then SessionStep(s, [])
    else SessionStep(s, [SendScreenshotRequest(conn)])
  }

  /** The capture reply for connection `conn`: ends the session only if `conn` is the live one. */
  function ScreenshotReplied(s: Session, conn: ConnectionId): (t: SessionStep)
    ensures s.connection != Some(conn) ==> t == SessionStep(s, [])
    ensures s.connection == Some(conn) ==>
              t.session == Session(None, false, s.created) && t.issued == [UnbindService(conn)]
    ensures SessionValid(s) ==> SessionValid(t.session)
  {
    if s.connection == Some(conn) then SessionStep(Session(None, false, s.created), [UnbindService(conn)])
    else SessionStep(s, [])
  }

  /** The timeout: ends whatever session is live, and does nothing when none is. */
  function ScreenshotTimedOut(s: Session): (t: SessionStep)
    ensures s.connection.None? ==> t == SessionStep(s, [])
    ensures s.connection.Some? ==>
              t.session == Session(None, false, s.created) && t.issued == [UnbindService(s.connection.value)]
    ensures SessionValid(s) ==> SessionValid(t.session)
  {
    match s.connection
    case None => SessionStep(s, [])
    case Some(conn) => SessionStep(Session(None, false, s.created), [UnbindService(conn)])
  }

  /** A reply that arrives after the timeout has ended its session changes nothing. */
  lemma LateReplyIsIgnored(s: Session, conn: ConnectionId)
    requires s.connection == Some(conn)
    ensures var after := ScreenshotTimedOut(s).session;
            ScreenshotReplied(after, conn) == SessionStep(after, [])
  {
  }

  /** Once the live session has ended, by reply or by timeout, the next request binds a new connection. */
  lemma RequestAcceptedAfterSessionEnds(s: Session, conn: ConnectionId, byReply: bool)
    requires SessionValid(s) && s.connection == Some(conn)
    ensures var ended := if byReply then ScreenshotReplied(s, conn).session else ScreenshotTimedOut(s).session;
            var t := RequestScreenshot(ended, true);
            && t.issued == [BindScreenshotService(s.created)]
            && t.session.connection == Some(s.created)
            && s.created != conn
  {
  }

  // ---------------------------------------------------------------------------------------
  // The whole handler

  datatype HandlerState = HandlerState(touchpadEnabled: bool, platform: Platform, session: Session)

  /** One action. `bindOk` says whether binding to the screenshot service succeeds. */
  function Perform(a: Action, s: HandlerState, automaticAvailable: bool, bindOk: bool): (r: HandlerState)
    ensures a != ToggleTouchpad ==> r.touchpadEnabled == s.touchpadEnabled
    ensures a != Screenshot ==> r.session == s.session
    ensures SessionValid(s.session) ==> SessionValid(r.session)
    // the handler reads radio, adapter and call state but never sets it itself
    ensures && r.platform.wifiState == s.platform.wifiState
            && r.platform.wifiApState == s.platform.wifiApState
            && r.platform.bluetoothState == s.platform.bluetoothState
            && r.platform.audioMode == s.platform.audioMode
    // requests are only ever appended
    ensures s.platform.requests <= r.platform.requests
  {
    var p := s.platform;
    match a
    case ToggleWifi => s.(platform := WifiToggled(p))
    case ToggleBluetooth => s.(platform := BluetoothToggled(p))
    case ToggleTouchpad =>
      s.(touchpadEnabled := !s.touchpadEnabled, platform := TouchpadApplied(p, !s.touchpadEnabled))
    case BrightnessDown => s.(platform := BrightnessSet(p, BrightnessDownLevel(p.brightness)))
    case BrightnessUp => s.(platform := BrightnessSet(p, BrightnessUpLevel(p.brightness)))
    case ToggleAutoBrightness => s.(platform := AutoBrightnessToggled(p, automaticAvailable))
    case Screenshot =>
      var t := RequestScreenshot(s.session, bindOk);
      s.(session := t.session, platform := p.(requests := p.requests + t.issued))
    case LaunchSettings => s.(platform := SettingsLaunched(p))
    case ToggleAudioMute => s.(platform := AudioMuteToggled(p))
  }

  datatype Dispatched = Dispatched(state: HandlerState, consumed: bool)

  /** handleKeyEvent: filter, look up, perform at most one action, report whether the event is consumed. */
  function Dispatch(s: HandlerState, automaticAvailable: bool, e: KeyEvent, bindOk: bool): (d: Dispatched)
    ensures d.consumed <==> Qualifies(e) && e.scanCode in {238, 237, 60, 224, 225, 61, 212, 62}
    ensures !Qualifies(e) || ActionFor(e.scanCode).None? ==> d.state == s
    ensures Qualifies(e) && ActionFor(e.scanCode).Some? ==>
              d.state == Perform(ActionFor(e.scanCode).value, s, automaticAvailable, bindOk)
  {
    if !Qualifies(e) then Dispatched(s, false)
    else match ActionFor(e.scanCode)
      case None => Dispatched(s, false)
      case Some(a) => Dispatched(Perform(a, s, automaticAvailable, bindOk), a != ToggleAudioMute)
  }

  /** The mute key reports the event as not consumed even when it changes the ringer. */
  lemma MuteKeyIsNeverConsumed(s: HandlerState, automaticAvailable: bool, repeatCount: int, bindOk: bool)
    requires s.platform.audioMode == AUDIO_MODE_NORMAL
    ensures var d := Dispatch(s, automaticAvailable, KeyEvent(ACTION_DOWN, 0, SCANCODE_VOLUME_MUTE), bindOk);
            !d.consumed && d.state.platform.ringerMode != s.platform.ringerMode
  {
  }

  /** The screenshot key is consumed even when a session is already live and nothing happens. */
  lemma ScreenshotKeyConsumedWhenSkipped(s: HandlerState, automaticAvailable: bool, bindOk: bool)
    requires s.session.connection.Some?
    ensures Dispatch(s, automaticAvailable, KeyEvent(ACTION_DOWN, 0, SCANCODE_SCREENSHOT), bindOk) == Dispatched(s, true)
  {
  }

  /** The same action `n` times in a row. */
  function Repeat(a: Action, n: nat, s: HandlerState, automaticAvailable: bool, bindOk: bool): HandlerState
    decreases n
  {
    if n == 0 then s else Repeat(a, n - 1, Perform(a, s, automaticAvailable, bindOk), automaticAvailable, bindOk)
  }

  /** While a radio is in transition, any number of wifi presses requests nothing. */
  lemma {:induction false} WifiPressesInTransitionDoNothing(n: nat, s: HandlerState, automaticAvailable: bool, bindOk: bool)
    requires WifiInTransition(s.platform.wifiState, s.platform.wifiApState)
    ensures Repeat(ToggleWifi, n, s, automaticAvailable, bindOk) == s
  {
    if n > 0 {
      assert Perform(ToggleWifi, s, automaticAvailable, bindOk) == s;
      WifiPressesInTransitionDoNothing(n - 1, s, automaticAvailable, bindOk);
    }
  }

  /** Brightness-up from the maximum stays at the maximum, however often it is pressed. */
  lemma {:induction false} BrightnessUpStaysAtMaximum(n: nat, s: HandlerState, automaticAvailable: bool, bindOk: bool)
    requires s.platform.brightness == Some(MAXIMUM_BACKLIGHT)
    ensures Repeat(BrightnessUp, n, s, automaticAvailable, bindOk).platform.brightness == Some(MAXIMUM_BACKLIGHT)
  {
    if n > 0 {
      BrightnessUpStaysAtMaximum(n - 1, Perform(BrightnessUp, s, automaticAvailable, bindOk), automaticAvailable, bindOk);
    }
  }

  /** `n` presses of brightness-down from a level at or above the minimum lower it by 10 each, down to the minimum. */
  lemma {:induction false} BrightnessDownConverges(n: nat, s: HandlerState, automaticAvailable: bool, bindOk: bool, c: Int32)
    requires s.platform.brightness == Some(c) && c >= MINIMUM_BACKLIGHT
    ensures var level := c - BRIGHTNESS_STEP * n;
            Repeat(BrightnessDown, n, s, automaticAvailable, bindOk).platform.brightness ==
              Some(if level < MINIMUM_BACKLIGHT then MINIMUM_BACKLIGHT else level)
  {
    if n > 0 {
      var s' := Perform(BrightnessDown, s, automaticAvailable, bindOk);
      var c' := BrightnessDownLevel(Some(c));
      BrightnessDownConverges(n - 1, s', automaticAvailable, bindOk, c');
    }
  }

  /** Two touchpad presses restore the enabled flag and leave hardware and setting agreeing with it. */
  lemma TouchpadTwiceRestores(s: HandlerState, automaticAvailable: bool, bindOk: bool)
    ensures var r := Repeat(ToggleTouchpad, 2, s, automaticAvailable, bindOk);
            && r.touchpadEnabled == s.touchpadEnabled
            && r.platform == TouchpadApplied(s.platform, s.touchpadEnabled)
            && r.session == s.session
    ensures s.platform.touchpadHardware == Some(s.touchpadEnabled)
            && s.platform.touchpadStatus == Some(TouchpadStatusValue(s.touchpadEnabled)) ==>
              Repeat(ToggleTouchpad, 2, s, automaticAvailable, bindOk) == s
  {
    var s1 := Perform(ToggleTouchpad, s, automaticAvailable, bindOk);
    var s2 := Perform(ToggleTouchpad, s1, automaticAvailable, bindOk);
    assert Repeat(ToggleTouchpad, 2, s, automaticAvailable, bindOk) == Repeat(ToggleTouchpad, 1, s1, automaticAvailable, bindOk);
    assert Repeat(ToggleTouchpad, 1, s1, automaticAvailable, bindOk) == Repeat(ToggleTouchpad, 0, s2, automaticAvailable, bindOk);
  }
}
