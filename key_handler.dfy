/**
 * The dock's hotkey handler as an object: the touchpad flag, the platform it drives and the
 * screenshot cell are fields that its methods update step by step. Each method is proved
 * against the value-level decision in hotkeys.dfy.
 */
module KeyHandling {
  import opened Wrappers
  import opened Android
  import opened Hotkeys

  class KeyHandler {
    const automaticAvailable: bool
    var touchpadEnabled: bool
    var platform: Platform
    var screenshotConnection: Option<ConnectionId>
    var timeoutPending: bool
    var connectionsCreated: nat

    ghost function ScreenshotSession(): Session
      reads this
    {
      Session(screenshotConnection, timeoutPending, connectionsCreated)
    }

    ghost function State(): HandlerState
      reads this
    {
      HandlerState(touchpadEnabled, platform, ScreenshotSession())
    }

    ghost predicate Valid()
      reads this
    {
      SessionValid(ScreenshotSession())
    }

    /** Reads the persisted touchpad setting; a stored 0 disables the touchpad at once. */
    constructor (automaticAvailable: bool, initial: Platform)
      ensures Valid()
      ensures this.automaticAvailable == automaticAvailable
      ensures touchpadEnabled == InitialTouchpadEnabled(initial.touchpadStatus)
      ensures platform == if touchpadEnabled then initial else initial.(touchpadHardware := Some(false))
      ensures ScreenshotSession() == IdleSession
    {
      this.automaticAvailable := automaticAvailable;
      touchpadEnabled := true;
      platform := initial;
      screenshotConnection := None;
      timeoutPending := false;
      connectionsCreated := 0;
      new;
      if initial.touchpadStatus.Some? && initial.touchpadStatus.value == 0 {
        touchpadEnabled := false;
        NativeToggleTouchpad(false);
      }
    }

    /** The dock receiver: on docking, the touchpad controller is told the current state again. */
    method OnDockEvent(isDockEvent: bool, dockState: Option<int>)
      modifies this`platform
      ensures platform == if DockEventReasserts(isDockEvent, dockState)
                          then old(platform).(touchpadHardware := Some(touchpadEnabled))
                          else old(platform)
      ensures DockEventReasserts(isDockEvent, dockState) ==> platform.touchpadHardware == Some(touchpadEnabled)
    {
      if isDockEvent {
        var dockMode := dockState.GetOr(EXTRA_DOCK_STATE_UNDOCKED);
        if dockMode != EXTRA_DOCK_STATE_UNDOCKED {
          NativeToggleTouchpad(touchpadEnabled);
        }
      }
    }

    /** handleKeyEvent. `bindOk` is whether binding to the screenshot service succeeds. */
    method HandleKeyEvent(e: KeyEvent, bindOk: bool) returns (consumed: bool)
      requires Valid()
      modifies this
      ensures Valid()
      ensures var d := Dispatch(old(State()), automaticAvailable, e, bindOk);
              State() == d.state && consumed == d.consumed
    {
      if e.action != ACTION_DOWN || e.repeatCount != 0 {
        return false;
      }
      var code := e.scanCode;
      if code == SCANCODE_TOGGLE_WIFI {
        ToggleWifi();
      } else if code == SCANCODE_TOGGLE_BT {
        ToggleBluetooth();
      } else if code == SCANCODE_TOGGLE_TOUCHPAD {
        ToggleTouchpad();
      } else if code == SCANCODE_BRIGHTNESS_DOWN {
        BrightnessDown();
      } else if code == SCANCODE_BRIGHTNESS_UP {
        BrightnessUp();
      } else if code == SCANCODE_BRIGHTNESS_AUTO {
        ToggleAutoBrightness();
      } else if code == SCANCODE_SCREENSHOT {
        TakeScreenshot(bindOk);
      } else if code == SCANCODE_SETTINGS {
        LaunchSettings();
      } else if code == SCANCODE_VOLUME_MUTE {
        ToggleAudioMute();
        return false;
      } else {
        return false;
      }
      return true;
    }

    method Issue(r: Request)
      modifies this`platform
      ensures platform == old(platform).(requests := old(platform.requests) + [r])
    {
      platform := platform.(requests := platform.requests + [r]);
    }

    /** nativeToggleTouchpad: records the value last sent to the touchpad controller. */
    method NativeToggleTouchpad(status: bool)
      modifies this`platform
      ensures platform == old(platform).(touchpadHardware := Some(status))
    {
      platform := platform.(touchpadHardware := Some(status));
    }

    method ToggleWifi()
      modifies this`platform
      ensures platform == WifiToggled(old(platform))
    {
      var state := platform.wifiState;
      var apState := platform.wifiApState;
      if state == WIFI_STATE_ENABLING || state == WIFI_STATE_DISABLING {
        return;
      }
      if apState == WIFI_AP_STATE_ENABLING || apState == WIFI_AP_STATE_DISABLING {
        return;
      }
      if state == WIFI_STATE_ENABLED || apState == WIFI_AP_STATE_ENABLED {
        Issue(SetWifiEnabled(false));
        Issue(SetWifiApEnabled(false));
      } else if state == WIFI_STATE_DISABLED && apState == WIFI_AP_STATE_DISABLED {
        Issue(SetWifiEnabled(true));
      }
    }

    method ToggleBluetooth()
      modifies this`platform
      ensures platform == BluetoothToggled(old(platform))
    {
      var state := platform.bluetoothState;
      if state == BT_STATE_TURNING_OFF || state == BT_STATE_TURNING_ON {
        return;
      }
      if state == BT_STATE_OFF {
        Issue(EnableBluetooth);
      }
      if state == BT_STATE_ON {
        Issue(DisableBluetooth);
      }
    }

    method ToggleTouchpad()
      modifies this`touchpadEnabled, this`platform
      ensures touchpadEnabled == !old(touchpadEnabled)
      ensures platform == TouchpadApplied(old(platform), touchpadEnabled)
    {
      touchpadEnabled := !touchpadEnabled;
      NativeToggleTouchpad(touchpadEnabled);
      var enabled := if touchpadEnabled then 1 else 0;
      platform := platform.(touchpadStatus := Some(enabled));
    }

    method BrightnessDown()
      modifies this`platform
      ensures platform == BrightnessSet(old(platform), BrightnessDownLevel(old(platform).brightness))
    {
      SetBrightnessMode(SCREEN_BRIGHTNESS_MODE_MANUAL);
      var value := GetBrightness(MINIMUM_BACKLIGHT);
      value := Wrap32(value - 10);
      if value < MINIMUM_BACKLIGHT {
        value := MINIMUM_BACKLIGHT;
      }
      SetBrightness(value);
    }

    method BrightnessUp()
      modifies this`platform
      ensures platform == BrightnessSet(old(platform), BrightnessUpLevel(old(platform).brightness))
    {
      SetBrightnessMode(SCREEN_BRIGHTNESS_MODE_MANUAL);
      var value := GetBrightness(MAXIMUM_BACKLIGHT);
      value := Wrap32(value + 10);
      if value > MAXIMUM_BACKLIGHT {
        value := MAXIMUM_BACKLIGHT;
      }
      SetBrightness(value);
    }

    method ToggleAutoBrightness()
      modifies this`platform
      ensures platform == AutoBrightnessToggled(old(platform), automaticAvailable)
    {
      if !automaticAvailable {
        return;
      }
      var currentValue := platform.brightnessMode.GetOr(SCREEN_BRIGHTNESS_MODE_MANUAL);
      SetBrightnessMode(
        if currentValue == SCREEN_BRIGHTNESS_MODE_MANUAL
        then SCREEN_BRIGHTNESS_MODE_AUTOMATIC
        else SCREEN_BRIGHTNESS_MODE_MANUAL);
    }

    method SetBrightnessMode(mode: int)
      modifies this`platform
      ensures platform == old(platform).(brightnessMode := Some(mode))
    {
      platform := platform.(brightnessMode := Some(mode));
    }

    /** Sends the level to the power manager (a failure there is swallowed) and stores it. */
    method SetBrightness(value: Int32)
      modifies this`platform
      ensures platform == old(platform).(requests := old(platform.requests) + [SetBrightnessOverride(value)],
                                         brightness := Some(value))
    {
      Issue(SetBrightnessOverride(value));
      platform := platform.(brightness := Some(value));
    }

    /** The stored brightness, or `def` when the setting is absent. */
    method GetBrightness(def: Int32) returns (value: Int32)
      ensures platform.brightness.Some? ==> value == platform.brightness.value
      ensures platform.brightness.None? ==> value == def
    {
      value := def;
      if platform.brightness.Some? {
        value := platform.brightness.value;
      }
    }

    /** Asks for the settings screen; a missing activity is swallowed. */
    method LaunchSettings()
      modifies this`platform
      ensures platform == SettingsLaunched(old(platform))
    {
      Issue(StartSettingsActivity);
    }

    method ToggleAudioMute()
      modifies this`platform
      ensures platform == AudioMuteToggled(old(platform))
    {
      if platform.audioMode == AUDIO_MODE_NORMAL {
        var newValue := if platform.ringerMode != RINGER_MODE_NORMAL then RINGER_MODE_NORMAL else RINGER_MODE_SILENT;
        platform := platform.(ringerMode := newValue);
      }
    }

    /** takeScreenshot: bind a new connection unless one is live; on success, post the timeout. */
    method TakeScreenshot(bindOk: bool)
      requires Valid()
      modifies this`screenshotConnection, this`timeoutPending, this`connectionsCreated, this`platform
      ensures Valid()
      ensures var t := RequestScreenshot(old(ScreenshotSession()), bindOk);
              ScreenshotSession() == t.session && platform == old(platform).(requests := old(platform.requests) + t.issued)
    {
      if screenshotConnection.Some? {
        return;
      }
      var conn := connectionsCreated;
      connectionsCreated := connectionsCreated + 1;
      Issue(BindScreenshotService(conn));
      if bindOk {
        screenshotConnection := Some(conn);
        timeoutPending := true;
      }
    }

    /** onServiceConnected of connection `conn`. */
    method OnScreenshotServiceConnected(conn: ConnectionId)
      modifies this`platform
      ensures var t := ScreenshotConnected(ScreenshotSession(), conn);
              platform == old(platform).(requests := old(platform.requests) + t.issued)
    {
      if screenshotConnection != Some(conn) {
        return;
      }
      Issue(SendScreenshotRequest(conn));
    }

    /** The reply handler created for connection `conn`. */
    method OnScreenshotReply(conn: ConnectionId)
      requires Valid()
      modifies this`screenshotConnection, this`timeoutPending, this`platform
      ensures Valid()
      ensures var t := ScreenshotReplied(old(ScreenshotSession()), conn);
              ScreenshotSession() == t.session && platform == old(platform).(requests := old(platform.requests) + t.issued)
    {
      if screenshotConnection == Some(conn) {
        Issue(UnbindService(conn));
        screenshotConnection := None;
        timeoutPending := false;
      }
    }

    /** mScreenshotTimeout, run when the 10-second delay has passed. */
    method OnScreenshotTimeout()
      requires Valid()
      modifies this`screenshotConnection, this`timeoutPending, this`platform
      ensures Valid()
      ensures var t := ScreenshotTimedOut(old(ScreenshotSession()));
              ScreenshotSession() == t.session && platform == old(platform).(requests := old(platform.requests) + t.issued)
    {
      if screenshotConnection.Some? {
        Issue(UnbindService(screenshotConnection.value));
        screenshotConnection := None;
        timeoutPending := false;
      }
    }
  }
}
