/**
 * Constants of the Android framework that the dock code compares against.
 * Their values are the framework's own (android.view.KeyEvent, android.net.wifi.WifiManager,
 * android.bluetooth.BluetoothAdapter, android.media.AudioManager, android.provider.Settings,
 * android.os.PowerManager, android.os.BatteryManager, android.content.Intent);
 * the framework itself is not part of this model.
 */
module Android {

  // KeyEvent
  const ACTION_DOWN: int := 0

  // WifiManager station states
  const WIFI_STATE_DISABLING: int := 0
  const WIFI_STATE_DISABLED: int := 1
  const WIFI_STATE_ENABLING: int := 2
  const WIFI_STATE_ENABLED: int := 3

  // WifiManager access-point states
  const WIFI_AP_STATE_DISABLING: int := 10
  const WIFI_AP_STATE_DISABLED: int := 11
  const WIFI_AP_STATE_ENABLING: int := 12
  const WIFI_AP_STATE_ENABLED: int := 13

  // BluetoothAdapter states
  const BT_STATE_OFF: int := 10
  const BT_STATE_TURNING_ON: int := 11
  const BT_STATE_ON: int := 12
  const BT_STATE_TURNING_OFF: int := 13

  // AudioManager
  const AUDIO_MODE_NORMAL: int := 0
  const RINGER_MODE_SILENT: int := 0
  const RINGER_MODE_VIBRATE: int := 1
  const RINGER_MODE_NORMAL: int := 2

  // Settings.System brightness modes
  const SCREEN_BRIGHTNESS_MODE_MANUAL: int := 0
  const SCREEN_BRIGHTNESS_MODE_AUTOMATIC: int := 1

  // PowerManager
  const BRIGHTNESS_OFF: int := 0
  const BRIGHTNESS_ON: int := 255

  // Intent.EXTRA_DOCK_STATE
  const EXTRA_DOCK_STATE_UNDOCKED: int := 0

  // BatteryManager
  const BATTERY_STATUS_UNKNOWN: int := 1
  const BATTERY_STATUS_CHARGING: int := 2
  const BATTERY_STATUS_NOT_CHARGING: int := 4
  const BATTERY_PLUGGED_AC: int := 1
  const BATTERY_PLUGGED_USB: int := 2
}
