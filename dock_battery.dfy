/**
 * The dock battery change detector. The native update fills six fields from sysfs, `process`
 * derives the plugged source, `hasNewData` compares the current snapshot with the one saved by
 * its previous call, and `getNotifyData` packs the snapshot into a bundle.
 */
module DockBattery {
  import opened Wrappers
  import opened Android
  import opened Sysfs

  /** The seven fields the handler reports. */
  datatype Snapshot = Snapshot(
    status: int,
    level: int,
    present: bool,
    plugged: int,
    padUsbOnline: bool,
    acOnline: bool,
    dockAcOnline: bool)

  /** Java's default field values, which a fresh handler starts with. */
  const Zero: Snapshot := Snapshot(0, 0, false, 0, false, false, false)

  /** The snapshot after a native update: every field but `plugged` comes from the reading. */
  function WithReading(s: Snapshot, r: Reading): Snapshot {
    Snapshot(r.status, r.level, r.present, s.plugged, r.padUsbOnline, r.acOnline, r.dockAcOnline)
  }

  /** The plugged source `process` derives: a dock or wall charger wins over USB. */
  function PluggedFrom(dockAcOnline: bool, acOnline: bool, padUsbOnline: bool): (plugged: int)
    ensures plugged == BATTERY_PLUGGED_AC <==> dockAcOnline || acOnline
    ensures plugged == BATTERY_PLUGGED_USB <==> !dockAcOnline && !acOnline && padUsbOnline
    ensures plugged == 0 <==> !dockAcOnline && !acOnline && !padUsbOnline
  {
    if dockAcOnline || acOnline then BATTERY_PLUGGED_AC
    else if padUsbOnline then BATTERY_PLUGGED_USB
    else 0
  }

  function Processed(s: Snapshot): Snapshot {
    s.(plugged := PluggedFrom(s.dockAcOnline, s.acOnline, s.padUsbOnline))
  }

  /** isPlugged on a snapshot. */
  function PluggedIn(s: Snapshot): (r: bool)
    ensures r ==> s.present
  {
    s.present && s.plugged != 0
  }

  /** After `process`, the dock counts as plugged exactly when it is present and some supply is online. */
  lemma PluggedAfterProcess(s: Snapshot)
    ensures PluggedIn(Processed(s)) <==> s.present && (s.dockAcOnline || s.acOnline || s.padUsbOnline)
  {
    var p := Processed(s).plugged;
    assert p == 0 <==> !s.dockAcOnline && !s.acOnline && !s.padUsbOnline;
  }

  /** `process` depends on the three online flags alone, and running it again changes nothing. */
  lemma ProcessIsIdempotent(s: Snapshot)
    ensures Processed(Processed(s)) == Processed(s)
    ensures forall t: Snapshot :: t.dockAcOnline == s.dockAcOnline && t.acOnline == s.acOnline && t.padUsbOnline == s.padUsbOnline
              ==> Processed(t).plugged == Processed(s).plugged
  {
  }

  /** Two different readings never yield the same processed snapshot, whatever came before. */
  lemma DistinctReadingsStayDistinct(s: Snapshot, t: Snapshot, ra: Reading, rb: Reading)
    requires ra != rb
    ensures Processed(WithReading(s, ra)) != Processed(WithReading(t, rb))
  {
  }

  /** hasNewData's verdict: always on the first call, afterwards on any difference from the saved copy. */
  predicate HasChanged(initial: bool, current: Snapshot, last: Snapshot) {
    initial || current != last
  }

  // ---------------------------------------------------------------------------------------
  // getNotifyData

  /**
   * The keys of the notification bundle: BatteryManager's four dock extras, then
   * "usb_wakeup", "ac_online" and "dock_ac_online".
   */
  datatype BundleKey = ExtraDockStatus | ExtraDockLevel | ExtraDockPresent | ExtraDockPlugged
                     | UsbWakeup | AcOnlineKey | DockAcOnlineKey

  datatype BundleValue = IntValue(i: int) | BoolValue(b: bool)

  type Bundle = map<BundleKey, BundleValue>

  const AllKeys: set<BundleKey> :=
    {ExtraDockStatus, ExtraDockLevel, ExtraDockPresent, ExtraDockPlugged, UsbWakeup, AcOnlineKey, DockAcOnlineKey}

  function IntAt(b: Bundle, k: BundleKey): Option<int> {
    if k in b && b[k].IntValue? then Some(b[k].i) else None
  }

  function BoolAt(b: Bundle, k: BundleKey): Option<bool> {
    if k in b && b[k].BoolValue? then Some(b[k].b) else None
  }

  /** What a receiver of the bundle reads back; None when a key is missing or holds the wrong kind. */
  function FromBundle(b: Bundle): Option<Snapshot> {
    match (IntAt(b, ExtraDockStatus), IntAt(b, ExtraDockLevel), BoolAt(b, ExtraDockPresent), IntAt(b, ExtraDockPlugged),
           BoolAt(b, UsbWakeup), BoolAt(b, AcOnlineKey), BoolAt(b, DockAcOnlineKey))
    case (Some(status), Some(level), Some(present), Some(plugged), Some(usb), Some(ac), Some(dockAc)) =>
      Some(Snapshot(status, level, present, plugged, usb, ac, dockAc))
    case _ => None
  }

  // ---------------------------------------------------------------------------------------
  // The handler object

  class DockBatteryHandler {
    // the native fields
    var dockBatteryStatus: int
    var dockBatteryLevel: int
    var dockBatteryPresent: bool
    var dockBatteryPlugged: int
    var padUsbOnline: bool
    var acOnline: bool
    var dockAcOnline: bool

    var initial: bool
    var lastDockBatteryStatus: int
    var lastDockBatteryLevel: int
    var lastDockBatteryPresent: bool
    var lastDockBatteryPlugged: int
    var lastPadUsbOnline: bool
    var lastAcOnline: bool
    var lastDockAcOnline: bool

    ghost function Current(): Snapshot
      reads this
    {
      Snapshot(dockBatteryStatus, dockBatteryLevel, dockBatteryPresent, dockBatteryPlugged,
               padUsbOnline, acOnline, dockAcOnline)
    }

    ghost function Last(): Snapshot
      reads this
    {
      Snapshot(lastDockBatteryStatus, lastDockBatteryLevel, lastDockBatteryPresent, lastDockBatteryPlugged,
               lastPadUsbOnline, lastAcOnline, lastDockAcOnline)
    }

    /** Every field keeps Java's default except the initial flag. */
    constructor ()
      ensures initial
      ensures Current() == Zero && Last() == Zero
    {
      dockBatteryStatus, dockBatteryLevel, dockBatteryPresent, dockBatteryPlugged := 0, 0, false, 0;
      padUsbOnline, acOnline, dockAcOnline := false, false, false;
      lastDockBatteryStatus, lastDockBatteryLevel, lastDockBatteryPresent, lastDockBatteryPlugged := 0, 0, false, 0;
      lastPadUsbOnline, lastAcOnline, lastDockAcOnline := false, false, false;
      initial := true;
    }

    /** update: the native code writes the six fields it reads; `plugged` is left as it was. */
    method Update(paths: PowerSupplyPaths, fs: Tree)
      modifies this`dockBatteryStatus, this`dockBatteryLevel, this`dockBatteryPresent,
               this`padUsbOnline, this`acOnline, this`dockAcOnline
      ensures Current() == WithReading(old(Current()), ReadAll(paths, fs))
    {
      var r := NativeDockBatteryUpdate(paths, fs);
      dockBatteryLevel := r.level;
      dockBatteryStatus := r.status;
      dockBatteryPresent := r.present;
      padUsbOnline := r.padUsbOnline;
      acOnline := r.acOnline;
      dockAcOnline := r.dockAcOnline;
    }

    /** process */
    method Process()
      modifies this`dockBatteryPlugged
      ensures Current() == Processed(old(Current()))
    {
      dockBatteryPlugged := 0;
      if dockAcOnline || acOnline {
        dockBatteryPlugged := BATTERY_PLUGGED_AC;
      } else if padUsbOnline {
        dockBatteryPlugged := BATTERY_PLUGGED_USB;
      }
    }

    /** getNotifyData: the seven current values under their keys. */
    method GetNotifyData() returns (bundle: Bundle)
      ensures bundle.Keys == AllKeys
      ensures FromBundle(bundle) == Some(Current())
    {
      bundle := map[];
      bundle := bundle[ExtraDockStatus := IntValue(dockBatteryStatus)];
      bundle := bundle[ExtraDockLevel := IntValue(dockBatteryLevel)];
      bundle := bundle[ExtraDockPresent := BoolValue(dockBatteryPresent)];
      bundle := bundle[ExtraDockPlugged := IntValue(dockBatteryPlugged)];
      bundle := bundle[UsbWakeup := BoolValue(padUsbOnline)];
      bundle := bundle[AcOnlineKey := BoolValue(acOnline)];
      bundle := bundle[DockAcOnlineKey := BoolValue(dockAcOnline)];
    }

    /** hasNewData: report whether anything changed, then save the current values. */
    method HasNewData() returns (changed: bool)
      modifies this`initial, this`lastDockBatteryStatus, this`lastDockBatteryLevel, this`lastDockBatteryPresent,
               this`lastDockBatteryPlugged, this`lastPadUsbOnline, this`lastAcOnline, this`lastDockAcOnline
      ensures changed == HasChanged(old(initial), old(Current()), old(Last()))
      ensures !initial && Last() == Current() && Current() == old(Current())
    {
      changed :=
        initial ||
        dockBatteryLevel != lastDockBatteryLevel ||
        dockBatteryStatus != lastDockBatteryStatus ||
        dockBatteryPresent != lastDockBatteryPresent ||
        dockBatteryPlugged != lastDockBatteryPlugged ||
        padUsbOnline != lastPadUsbOnline ||
        acOnline != lastAcOnline ||
        dockAcOnline != lastDockAcOnline;

      initial := false;
      lastDockBatteryLevel := dockBatteryLevel;
      lastDockBatteryStatus := dockBatteryStatus;
      lastDockBatteryPresent := dockBatteryPresent;
      lastDockBatteryPlugged := dockBatteryPlugged;
      lastPadUsbOnline := padUsbOnline;
      lastAcOnline := acOnline;
      lastDockAcOnline := dockAcOnline;
    }

    /** isPlugged */
    function IsPlugged(): (r: bool)
      reads this
      ensures r == PluggedIn(Current())
      ensures r ==> dockBatteryPresent
    {
      dockBatteryPresent && dockBatteryPlugged != 0
    }
  }

  // ---------------------------------------------------------------------------------------
  // Clients of the handler. The calling order (update, process, then hasNewData) is the one
  // the battery service is assumed to follow; that service is not part of this model.

  /** One poll in the assumed calling order: update, process, then ask whether anything changed. */
  method Poll(h: DockBatteryHandler, paths: PowerSupplyPaths, fs: Tree) returns (changed: bool)
    modifies h
    ensures var s := Processed(WithReading(old(h.Current()), ReadAll(paths, fs)));
            && changed == HasChanged(old(h.initial), s, old(h.Last()))
            && h.Current() == s && h.Last() == s && !h.initial
  {
    h.Update(paths, fs);
    h.Process();
    changed := h.HasNewData();
  }

  /** The first poll after construction reports, whatever it read; asking again with no update does not. */
  method FirstPollReports(paths: PowerSupplyPaths, fs: Tree) returns (first: bool, second: bool)
    ensures first && !second
  {
    var h := new DockBatteryHandler();
    first := Poll(h, paths, fs);
    second := h.HasNewData();
  }

  /** Between two polls, a change in anything the native update reads is reported. */
  method ChangeIsReported(paths: PowerSupplyPaths, fsA: Tree, fsB: Tree) returns (first: bool, after: bool)
    requires ReadAll(paths, fsA) != ReadAll(paths, fsB)
    ensures first && after
  {
    var h := new DockBatteryHandler();
    first := Poll(h, paths, fsA);
    ghost var saved := h.Current();
    DistinctReadingsStayDistinct(saved, Zero, ReadAll(paths, fsB), ReadAll(paths, fsA));
    after := Poll(h, paths, fsB);
  }

  /** After a poll, isPlugged and the bundle describe the snapshot the poll compared. */
  method PollAndNotify(h: DockBatteryHandler, paths: PowerSupplyPaths, fs: Tree)
    returns (changed: bool, plugged: bool, bundle: Bundle)
    modifies h
    ensures var s := Processed(WithReading(old(h.Current()), ReadAll(paths, fs)));
            && changed == HasChanged(old(h.initial), s, old(h.Last()))
            && plugged == PluggedIn(s)
            && FromBundle(bundle) == Some(s)
  {
    changed := Poll(h, paths, fs);
    plugged := h.IsPlugged();
    bundle := h.GetNotifyData();
  }
}
