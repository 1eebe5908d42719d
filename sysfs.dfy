/**
 * The native side of the dock battery handler: reading small sysfs files into a buffer,
 * decoding their text into the handler's fields, and finding the power-supply files by the
 * type each power-supply directory declares. The file system is a value: a map from path to
 * what opening and reading that path yields.
 */
module Sysfs {
  import opened Wrappers
  import opened Android

  const POWER_SUPPLY_PATH: string := "/sys/class/power_supply"

  // The buffer sizes the callers of readFromFile use
  const BOOLEAN_BUFFER_SIZE: nat := 16
  const INT_BUFFER_SIZE: nat := 128
  const UPDATE_BUFFER_SIZE: nat := 128
  const TYPE_BUFFER_SIZE: nat := 20

  /** What reading an existing file yields: its text, or a failing read(2). */
  datatype FileNode = Contents(text: string) | ReadFails

  /** The file system: a path that is absent cannot be opened and fails access(R_OK). */
  type Tree = map<string, FileNode>

  /** access(path, R_OK) == 0 */
  predicate Readable(path: string, fs: Tree) {
    path in fs
  }

  // ---------------------------------------------------------------------------------------
  // readFromFile

  /** The bytes one read(2) of at most `capacity` bytes returns; None for a null path, a failed open or a failed read. */
  function RawRead(path: Option<string>, fs: Tree, capacity: nat): (r: Option<string>)
    ensures r.Some? ==> |r.value| <= capacity
    ensures r.Some? ==> path.Some? && path.value in fs && fs[path.value].Contents? && r.value <= fs[path.value].text
  {
    if path.None? || path.value !in fs then None
    else match fs[path.value]
      case ReadFails => None
      case Contents(text) => Some(if |text| <= capacity then text else text[..capacity])
  }

  /** `s` without its trailing newlines. */
  function TrimNewlines(s: string): (t: string)
    ensures t <= s
    ensures t == [] || t[|t| - 1] != '\n'
    ensures forall i | |t| <= i < |s| :: s[i] == '\n'
  {
    if |s| > 0 && s[|s| - 1] == '\n' then TrimNewlines(s[..|s| - 1]) else s
  }

  /** The text readFromFile leaves in a buffer of `size` bytes; None where it returns -1. */
  function ReadText(path: Option<string>, fs: Tree, size: nat): Option<string>
    requires size >= 1
  {
    match RawRead(path, fs, size - 1)
    case None => None
    case Some(data) => Some(TrimNewlines(data))
  }

  /** The text readFromFile leaves when it reads up to `size` bytes into its `size`-byte buffer. */
  function ReadTextAsWritten(path: Option<string>, fs: Tree, size: nat): Option<string> {
    match RawRead(path, fs, size)
    case None => None
    case Some(data) => Some(TrimNewlines(data))
  }

  /** The file fills a `size`-byte buffer and its last byte there is not a newline. */
  predicate FillsBuffer(path: Option<string>, fs: Tree, size: nat)
    requires size >= 1
  {
    path.Some? && path.value in fs && fs[path.value].Contents?
    && |fs[path.value].text| >= size && fs[path.value].text[size - 1] != '\n'
  }

  /**
   * Reading one byte less changes the text exactly for a file that fills the buffer with a
   * non-newline: everywhere else the byte given up is absent or a newline that would be trimmed.
   */
  lemma {:induction false} ReadTextDiffersOnlyWhenBufferFills(path: Option<string>, fs: Tree, size: nat)
    requires size >= 1
    ensures ReadText(path, fs, size) != ReadTextAsWritten(path, fs, size) <==> FillsBuffer(path, fs, size)
  {
    if path.Some? && path.value in fs && fs[path.value].Contents? {
      var text := fs[path.value].text;
      if |text| >= size {
        var full := text[..size];
        assert full[..size - 1] == text[..size - 1];
        if text[size - 1] == '\n' {
          assert TrimNewlines(full) == TrimNewlines(text[..size - 1]);
        } else {
          assert TrimNewlines(full) == full;
          assert |ReadText(path, fs, size).value| <= size - 1;
        }
      }
    }
  }

  /**
   * readFromFile: read once into `buf`, drop trailing newlines, terminate with NUL and return
   * the length left, or -1. At most buf.Length - 1 bytes are read, so the terminator always
   * fits (see TerminatorIndexAsWritten for the read of buf.Length bytes).
   */
  method ReadFromFile(path: Option<string>, fs: Tree, buf: array<char>) returns (count: int)
    requires buf.Length >= 1
    modifies buf
    ensures count >= -1
    ensures count == -1 <==> ReadText(path, fs, buf.Length).None?
    ensures count >= 0 ==> && count < buf.Length
                           && buf[..count] == ReadText(path, fs, buf.Length).value
                           && buf[count] == '\0'
    ensures path.None? || path.value !in fs ==> buf[..] == old(buf[..])
  {
    if path.None? {
      return -1;
    }
    if path.value !in fs {
      return -1;
    }
    var node := fs[path.value];
    if node.ReadFails? {
      buf[0] := '\0';
      return -1;
    }
    var capacity := buf.Length - 1;
    var data := if |node.text| <= capacity then node.text else node.text[..capacity];
    assert RawRead(path, fs, capacity) == Some(data);
    Fill(buf, data);
    count := |data|;
    if count > 0 {
      count := DropTrailingNewlines(buf, count);
      buf[count] := '\0';
    } else {
      buf[0] := '\0';
    }
  }

  /** read(2) placing `data` at the start of `buf`. */
  method Fill(buf: array<char>, data: string)
    requires |data| <= buf.Length
    modifies buf
    ensures buf[..|data|] == data
  {
    forall i | 0 <= i < |data| {
      buf[i] := data[i];
    }
  }

  /** The loop of readFromFile that steps `count` back over trailing newlines. */
  method DropTrailingNewlines(buf: array<char>, n: nat) returns (count: nat)
    requires n <= buf.Length
    ensures count <= n
    ensures buf[..count] == TrimNewlines(buf[..n])
  {
    count := n;
    while count > 0 && buf[count - 1] == '\n'
      invariant 0 <= count <= n
      invariant TrimNewlines(buf[..count]) == TrimNewlines(buf[..n])
    {
      assert buf[..count][..count - 1] == buf[..count - 1];
      count := count - 1;
    }
  }

  /**
   * The index at which the source writes the NUL terminator: it reads up to `size` bytes
   * into a `size`-byte buffer and writes buf[count] after trimming.
   */
  function TerminatorIndexAsWritten(content: string, size: nat): nat {
    var data := if |content| <= size then content else content[..size];
    |TrimNewlines(data)|
  }

  /** As written, the terminator lands one past the buffer exactly when the read fills it with no trailing newline. */
  lemma TerminatorOverrunsAsWritten(content: string, size: nat)
    requires size > 0
    ensures TerminatorIndexAsWritten(content, size) <= size
    ensures TerminatorIndexAsWritten(content, size) == size <==> |content| >= size && content[size - 1] != '\n'
  {
    var data := if |content| <= size then content else content[..size];
    if |content| >= size && content[size - 1] != '\n' {
      assert data[|data| - 1] == content[size - 1];
    }
  }

  /** A sixteen-character online file overruns the sixteen-byte buffer of setBooleanField. */
  lemma BooleanReadOverrunsAsWritten()
    ensures TerminatorIndexAsWritten("1111111111111111", BOOLEAN_BUFFER_SIZE) == BOOLEAN_BUFFER_SIZE
  {
    TerminatorOverrunsAsWritten("1111111111111111", BOOLEAN_BUFFER_SIZE);
  }

  /** A character other than a newline survives trimming, and so does everything before it. */
  lemma TrimKeeps(s: string, i: nat)
    requires i < |s| && s[i] != '\n'
    ensures i < |TrimNewlines(s)| && TrimNewlines(s)[..i + 1] == s[..i + 1]
  {
  }

  // ---------------------------------------------------------------------------------------
  // Decoding the text of one file

  /** getDockBatteryStatus: by the first character only. */
  function GetDockBatteryStatus(text: string): (status: int)
    ensures status == BATTERY_STATUS_CHARGING <==> |text| > 0 && text[0] == 'C'
    ensures status == BATTERY_STATUS_NOT_CHARGING <==> |text| > 0 && text[0] == 'N'
    ensures status == BATTERY_STATUS_UNKNOWN <==> !(|text| > 0 && (text[0] == 'C' || text[0] == 'N'))
  {
    if |text| > 0 && text[0] == 'C' then BATTERY_STATUS_CHARGING
    else if |text| > 0 && text[0] == 'N' then BATTERY_STATUS_NOT_CHARGING
    else BATTERY_STATUS_UNKNOWN
  }

  /** The status field: Unknown when the read fails or leaves nothing. */
  function DecodedStatus(text: Option<string>): int {
    if text.Some? && |text.value| > 0 then GetDockBatteryStatus(text.value) else BATTERY_STATUS_UNKNOWN
  }

  /** setBooleanField's rule. */
  function DecodedBoolean(text: Option<string>): bool {
    text.Some? && |text.value| > 0 && text.value[0] != '0'
  }

  /** The presence rule: the text reads "dock detect = 1". */
  function DecodedPresent(text: Option<string>): bool {
    text.Some? && |text.value| >= 15 && text.value[14] == '1'
  }

  /** setIntField's rule: atoi of the text, or `def`. */
  function DecodedInt(text: Option<string>, def: int): int {
    if text.Some? && |text.value| > 0 then Atoi(text.value) else def
  }

  /** The status comes from the first byte of the file, whatever follows it. */
  lemma StatusFromContents(path: Option<string>, fs: Tree, size: nat)
    requires size >= 1
    ensures var raw := RawRead(path, fs, size - 1);
            DecodedStatus(ReadText(path, fs, size)) ==
              if raw.Some? && |raw.value| > 0 then GetDockBatteryStatus(raw.value) else BATTERY_STATUS_UNKNOWN
  {
    var raw := RawRead(path, fs, size - 1);
    if raw.Some? && |raw.value| > 0 && raw.value[0] != '\n' {
      TrimKeeps(raw.value, 0);
    }
  }

  /** An online flag is set by a file whose first byte is not '0' and which holds more than newlines. */
  lemma BooleanFromContents(path: Option<string>, fs: Tree, size: nat)
    requires size >= 1
    ensures var raw := RawRead(path, fs, size - 1);
            DecodedBoolean(ReadText(path, fs, size)) <==>
              && raw.Some? && |raw.value| > 0 && raw.value[0] != '0'
              && exists i :: 0 <= i < |raw.value| && raw.value[i] != '\n'
  {
    var raw := RawRead(path, fs, size - 1);
    if raw.Some? {
      var d := raw.value;
      if exists i :: 0 <= i < |d| && d[i] != '\n' {
        var i :| 0 <= i < |d| && d[i] != '\n';
        TrimKeeps(d, i);
      }
      if |TrimNewlines(d)| > 0 {
        var i := |TrimNewlines(d)| - 1;
        assert d[i] == TrimNewlines(d)[i];
      }
    }
  }

  /** Presence depends only on the fifteenth byte read: trailing newlines never matter. */
  lemma PresentFromContents(path: Option<string>, fs: Tree, size: nat)
    requires size >= 1
    ensures var raw := RawRead(path, fs, size - 1);
            DecodedPresent(ReadText(path, fs, size)) <==> raw.Some? && |raw.value| >= 15 && raw.value[14] == '1'
  {
    var raw := RawRead(path, fs, size - 1);
    if raw.Some? && |raw.value| >= 15 && raw.value[14] == '1' {
      TrimKeeps(raw.value, 14);
    }
  }

  /** A capacity file holding a decimal number and a newline decodes to that number, with no range clamp. */
  lemma LevelFromDecimal(path: string, fs: Tree, n: nat)
    requires path in fs && fs[path] == Contents(Decimal(n) + "\n")
    requires |Decimal(n)| + 1 < INT_BUFFER_SIZE
    ensures DecodedInt(ReadText(Some(path), fs, INT_BUFFER_SIZE), 0) == n
  {
    var d := Decimal(n);
    DecimalIsDigits(n);
    assert (d + "\n")[..|d|] == d;
    assert TrimNewlines(d + "\n") == TrimNewlines(d);
    assert TrimNewlines(d) == d;
    AtoiDecimal(n);
  }

  /** The dock's own status strings. */
  lemma StatusOfKnownStrings()
    ensures GetDockBatteryStatus("Charging") == BATTERY_STATUS_CHARGING
    ensures GetDockBatteryStatus("Not charging") == BATTERY_STATUS_NOT_CHARGING
    ensures GetDockBatteryStatus("Discharging") == BATTERY_STATUS_UNKNOWN
    ensures GetDockBatteryStatus("Full") == BATTERY_STATUS_UNKNOWN
  {
  }

  // ---------------------------------------------------------------------------------------
  // atoi

  predicate IsDigit(c: char) {
    '0' as int <= c as int <= '9' as int
  }

  /** isspace in the C locale: space, tab, newline, vertical tab, form feed, carriage return. */
  predicate IsSpace(c: char) {
    c == ' ' || ('\t' <= c <= '\r')
  }

  function SkipSpaces(s: string): string {
    if |s| > 0 && IsSpace(s[0]) then SkipSpaces(s[1..]) else s
  }

  /** The longest prefix of digits. */
  function LeadingDigits(s: string): (ds: string)
    ensures ds <= s
    ensures forall i | 0 <= i < |ds| :: IsDigit(ds[i])
    ensures |ds| < |s| ==> !IsDigit(s[|ds|])
  {
    if |s| > 0 && IsDigit(s[0]) then [s[0]] + LeadingDigits(s[1..]) else []
  }

  function DigitValue(c: char): nat
    requires IsDigit(c)
  {
    c as int - '0' as int
  }

  /** The number a string of decimal digits denotes, most significant first. */
  function DigitsValue(ds: string): nat
    requires forall i | 0 <= i < |ds| :: IsDigit(ds[i])
  {
    if |ds| == 0 then 0 else DigitsValue(ds[..|ds| - 1]) * 10 + DigitValue(ds[|ds| - 1])
  }

  /** atoi: leading white space, an optional sign, then as many digits as follow. */
  function Atoi(s: string): int {
    var r := SkipSpaces(s);
    if |r| > 0 && r[0] == '-' then -(DigitsValue(LeadingDigits(r[1..])) as int)
    else if |r| > 0 && r[0] == '+' then DigitsValue(LeadingDigits(r[1..]))
    else DigitsValue(LeadingDigits(r))
  }

  /** The decimal digits of `n`, as the kernel writes a number. */
  function Decimal(n: nat): string {
    if n < 10 then [('0' as int + n) as char]
    else Decimal(n / 10) + [('0' as int + n % 10) as char]
  }

  lemma {:induction false} DecimalIsDigits(n: nat)
    ensures |Decimal(n)| > 0
    ensures forall i | 0 <= i < |Decimal(n)| :: IsDigit(Decimal(n)[i])
  {
    if n >= 10 {
      DecimalIsDigits(n / 10);
    }
  }

  lemma {:induction false} DecimalValue(n: nat)
    ensures forall i | 0 <= i < |Decimal(n)| :: IsDigit(Decimal(n)[i])
    ensures DigitsValue(Decimal(n)) == n
  {
    DecimalIsDigits(n);
    if n >= 10 {
      DecimalValue(n / 10);
      var d := Decimal(n);
      assert d[..|d| - 1] == Decimal(n / 10);
    }
  }

  lemma {:induction false} LeadingDigitsOfDigits(ds: string)
    requires forall i | 0 <= i < |ds| :: IsDigit(ds[i])
    ensures LeadingDigits(ds) == ds
  {
    if |ds| > 0 {
      LeadingDigitsOfDigits(ds[1..]);
    }
  }

  /** atoi reads back what Decimal writes, with or without a minus sign. */
  lemma AtoiDecimal(n: nat)
    ensures Atoi(Decimal(n)) == n
    ensures Atoi("-" + Decimal(n)) == -(n as int)
  {
    var d := Decimal(n);
    DecimalValue(n);
    LeadingDigitsOfDigits(d);
    assert SkipSpaces(d) == d;
    assert ("-" + d)[1..] == d;
    assert SkipSpaces("-" + d) == "-" + d;
  }

  // ---------------------------------------------------------------------------------------
  // Finding the power-supply files (register_asusdec_DockBatteryHandler)

  datatype PowerSupplyPaths = PowerSupplyPaths(
    dockBatteryStatusPath: Option<string>,
    dockBatteryCapacityPath: Option<string>,
    dockBatteryPresentPath: Option<string>,
    padUsbOnlinePath: Option<string>,
    acOnlinePath: Option<string>,
    dockAcOnlinePath: Option<string>)

  const NoPaths: PowerSupplyPaths := PowerSupplyPaths(None, None, None, None, None, None)

  /** The six paths, each with the supply type that unlocks it and the file it names. */
  datatype Slot = DockBatteryStatus | DockBatteryCapacity | DockBatteryPresent | PadUsbOnline | AcOnline | DockAcOnline

  function PathIn(p: PowerSupplyPaths, slot: Slot): Option<string> {
    match slot
    case DockBatteryStatus => p.dockBatteryStatusPath
    case DockBatteryCapacity => p.dockBatteryCapacityPath
    case DockBatteryPresent => p.dockBatteryPresentPath
    case PadUsbOnline => p.padUsbOnlinePath
    case AcOnline => p.acOnlinePath
    case DockAcOnline => p.dockAcOnlinePath
  }

  function WithPath(p: PowerSupplyPaths, slot: Slot, path: string): (q: PowerSupplyPaths)
    ensures PathIn(q, slot) == Some(path)
    ensures forall other | other != slot :: PathIn(q, other) == PathIn(p, other)
  {
    match slot
    case DockBatteryStatus => p.(dockBatteryStatusPath := Some(path))
    case DockBatteryCapacity => p.(dockBatteryCapacityPath := Some(path))
    case DockBatteryPresent => p.(dockBatteryPresentPath := Some(path))
    case PadUsbOnline => p.(padUsbOnlinePath := Some(path))
    case AcOnline => p.(acOnlinePath := Some(path))
    case DockAcOnline => p.(dockAcOnlinePath := Some(path))
  }

  function SlotType(slot: Slot): string {
    match slot
    case DockBatteryStatus => "DockBattery"
    case DockBatteryCapacity => "DockBattery"
    case DockBatteryPresent => "DockBattery"
    case PadUsbOnline => "USB"
    case AcOnline => "Mains"
    case DockAcOnline => "DockAC"
  }

  function SlotFile(slot: Slot): string {
    match slot
    case DockBatteryStatus => "status"
    case DockBatteryCapacity => "capacity"
    case DockBatteryPresent => "device/ec_dock"
    case PadUsbOnline => "online"
    case AcOnline => "online"
    case DockAcOnline => "online"
  }

  function SupplyFile(name: string, file: string): string {
    POWER_SUPPLY_PATH + "/" + name + "/" + file
  }

  function SlotPath(name: string, slot: Slot): string {
    SupplyFile(name, SlotFile(slot))
  }

  /** The string strcmp sees: everything before the first NUL. */
  function CString(s: string): (c: string)
    ensures c <= s
    ensures forall i | 0 <= i < |c| :: c[i] != '\0'
    ensures |c| < |s| ==> s[|c|] == '\0'
  {
    if |s| == 0 || s[0] == '\0' then [] else [s[0]] + CString(s[1..])
  }

  /** The type a power-supply directory declares; None when its type file cannot be read or is empty. */
  function SupplyType(name: string, fs: Tree): Option<string> {
    var t := ReadText(Some(SupplyFile(name, "type")), fs, TYPE_BUFFER_SIZE);
    if t.Some? && |t.value| > 0 then Some(CString(t.value)) else None
  }

  predicate IsDotEntry(name: string) {
    name == "." || name == ".."
  }

  function SetIfReadable(p: PowerSupplyPaths, slot: Slot, name: string, fs: Tree): PowerSupplyPaths {
    if Readable(SlotPath(name, slot), fs) then WithPath(p, slot, SlotPath(name, slot)) else p
  }

  /** One directory entry of the classification loop. */
  function Classify(p: PowerSupplyPaths, name: string, fs: Tree): (q: PowerSupplyPaths)
    ensures IsDotEntry(name) ==> q == p
    // a path changes only for an entry of the slot's type, and then to that entry's readable file
    ensures forall slot :: PathIn(q, slot) != PathIn(p, slot) ==>
              && !IsDotEntry(name)
              && SupplyType(name, fs) == Some(SlotType(slot))
              && PathIn(q, slot) == Some(SlotPath(name, slot))
              && Readable(SlotPath(name, slot), fs)
    // and an entry of the slot's type with a readable file always sets it
    ensures forall slot :: !IsDotEntry(name) && SupplyType(name, fs) == Some(SlotType(slot))
                           && Readable(SlotPath(name, slot), fs) ==>
              PathIn(q, slot) == Some(SlotPath(name, slot))
  {
    if IsDotEntry(name) then p
    else match SupplyType(name, fs)
      case None => p
      case Some(t) =>
        if t == "Mains" then SetIfReadable(p, AcOnline, name, fs)
        else if t == "USB" then SetIfReadable(p, PadUsbOnline, name, fs)
        else if t == "DockBattery" then
          SetIfReadable(SetIfReadable(SetIfReadable(p, DockBatteryStatus, name, fs), DockBatteryCapacity, name, fs),
                        DockBatteryPresent, name, fs)
        else if t == "DockAC" then SetIfReadable(p, DockAcOnline, name, fs)
        else p
  }

  /** Each type string unlocks its own slots and no others; an unknown or unreadable type unlocks nothing. */
  lemma ClassifyByType(p: PowerSupplyPaths, name: string, fs: Tree, slot: Slot)
    requires !IsDotEntry(name)
    ensures SupplyType(name, fs) == Some("Mains") && slot != AcOnline ==> PathIn(Classify(p, name, fs), slot) == PathIn(p, slot)
    ensures SupplyType(name, fs) == Some("USB") && slot != PadUsbOnline ==> PathIn(Classify(p, name, fs), slot) == PathIn(p, slot)
    ensures SupplyType(name, fs) == Some("DockAC") && slot != DockAcOnline ==> PathIn(Classify(p, name, fs), slot) == PathIn(p, slot)
    ensures SupplyType(name, fs) == Some("DockBattery") && slot in {PadUsbOnline, AcOnline, DockAcOnline} ==>
              PathIn(Classify(p, name, fs), slot) == PathIn(p, slot)
    ensures SupplyType(name, fs) !in {Some("Mains"), Some("USB"), Some("DockBattery"), Some("DockAC")} ==>
              Classify(p, name, fs) == p
  {
  }

  /** The whole loop over the directory entries, in order: a later entry of the same type wins. */
  function ClassifyAll(names: seq<string>, fs: Tree): PowerSupplyPaths {
    if |names| == 0 then NoPaths
    else Classify(ClassifyAll(names[..|names| - 1], fs), names[|names| - 1], fs)
  }

  /** Every path found belongs to a readable file of a directory that declared the slot's type. */
  lemma {:induction false} FoundPathsHaveMatchingType(names: seq<string>, fs: Tree, slot: Slot)
    requires PathIn(ClassifyAll(names, fs), slot).Some?
    ensures exists i | 0 <= i < |names| ::
              && !IsDotEntry(names[i])
              && SupplyType(names[i], fs) == Some(SlotType(slot))
              && PathIn(ClassifyAll(names, fs), slot) == Some(SlotPath(names[i], slot))
              && Readable(SlotPath(names[i], slot), fs)
  {
    var n := |names|;
    var prefix := names[..n - 1];
    var p := ClassifyAll(prefix, fs);
    if PathIn(Classify(p, names[n - 1], fs), slot) == PathIn(p, slot) {
      FoundPathsHaveMatchingType(prefix, fs, slot);
      var i :| 0 <= i < |prefix| && !IsDotEntry(prefix[i]) && SupplyType(prefix[i], fs) == Some(SlotType(slot))
                && PathIn(p, slot) == Some(SlotPath(prefix[i], slot)) && Readable(SlotPath(prefix[i], slot), fs);
      assert names[i] == prefix[i];
    }
  }

  /** A readable "online" file under a directory of type "Mains" becomes the AC path. */
  lemma MainsSupplyFound(fs: Tree)
    requires SupplyFile("ac", "type") in fs && fs[SupplyFile("ac", "type")] == Contents("Mains\n")
    requires SupplyFile("ac", "online") in fs
    ensures ClassifyAll([".", "..", "ac"], fs) == NoPaths.(acOnlinePath := Some(SupplyFile("ac", "online")))
  {
    var t := "Mains\n";
    assert t[..|t| - 1] == "Mains";
    assert TrimNewlines(t) == "Mains";
    assert ReadText(Some(SupplyFile("ac", "type")), fs, TYPE_BUFFER_SIZE) == Some("Mains");
    assert CString("Mains") == "Mains";
    assert SupplyType("ac", fs) == Some("Mains");
    var names := [".", "..", "ac"];
    assert names[..2][..1] == ["."] && names[..2] == [".", ".."];
    assert ClassifyAll(["."], fs) == NoPaths;
    assert ClassifyAll([".", ".."], fs) == NoPaths;
    assert SlotPath("ac", AcOnline) == SupplyFile("ac", "online");
  }

  /**
   * register_asusdec_DockBatteryHandler's directory loop. `entries` is the directory listing,
   * None when the directory cannot be opened.
   */
  method RegisterPaths(entries: Option<seq<string>>, fs: Tree) returns (paths: PowerSupplyPaths)
    ensures entries.None? ==> paths == NoPaths
    ensures entries.Some? ==> paths == ClassifyAll(entries.value, fs)
  {
    paths := NoPaths;
    if entries.None? {
      return;
    }
    var names := entries.value;
    var i := 0;
    while i < |names|
      invariant 0 <= i <= |names|
      invariant paths == ClassifyAll(names[..i], fs)
    {
      assert names[..i + 1][..i] == names[..i];
      var name := names[i];
      if name == "." || name == ".." {
        i := i + 1;
        continue;
      }
      paths := ClassifyEntry(paths, name, fs);
      i := i + 1;
    }
    assert names[..|names|] == names;
  }

  /** The body of the directory loop for one entry other than "." and "..". */
  method ClassifyEntry(p: PowerSupplyPaths, name: string, fs: Tree) returns (paths: PowerSupplyPaths)
    requires !IsDotEntry(name)
    ensures paths == Classify(p, name, fs)
  {
    paths := p;
    var supplyType := ReadSupplyType(name, fs);
    if supplyType.Some? {
      var typeName := supplyType.value;
      if typeName == "Mains" {
        paths := Unlock(paths, AcOnline, name, fs);
      } else if typeName == "USB" {
        paths := Unlock(paths, PadUsbOnline, name, fs);
      } else if typeName == "DockBattery" {
        paths := Unlock(paths, DockBatteryStatus, name, fs);
        paths := Unlock(paths, DockBatteryCapacity, name, fs);
        paths := Unlock(paths, DockBatteryPresent, name, fs);
      } else if typeName == "DockAC" {
        paths := Unlock(paths, DockAcOnline, name, fs);
      }
    }
  }

  /** Reads `name`/type into a twenty-byte buffer and cuts it at the first NUL, as strcmp sees it. */
  method ReadSupplyType(name: string, fs: Tree) returns (supplyType: Option<string>)
    ensures supplyType == SupplyType(name, fs)
  {
    var buf := new char[TYPE_BUFFER_SIZE];
    var length := ReadFromFile(Some(SupplyFile(name, "type")), fs, buf);
    if length <= 0 {
      return None;
    }
    // The caller's own newline strip never fires: readFromFile has already trimmed them all.
    assert buf[length - 1] != '\n';
    supplyType := Some(CString(buf[..length]));
  }

  /** Records the slot's file under `name` when access(R_OK) succeeds on it. */
  method Unlock(p: PowerSupplyPaths, slot: Slot, name: string, fs: Tree) returns (q: PowerSupplyPaths)
    ensures q == SetIfReadable(p, slot, name, fs)
  {
    q := p;
    var path := SlotPath(name, slot);
    if Readable(path, fs) {
      q := WithPath(p, slot, path);
    }
  }

  // ---------------------------------------------------------------------------------------
  // nativeDockBatteryUpdate

  /** The six fields the native update sets (the plugged field is derived later, in Java). */
  datatype Reading = Reading(
    status: int,
    level: int,
    present: bool,
    padUsbOnline: bool,
    acOnline: bool,
    dockAcOnline: bool)

  /** What one native update reads from the six files. */
  function ReadAll(paths: PowerSupplyPaths, fs: Tree): Reading {
    Reading(
      DecodedStatus(ReadText(paths.dockBatteryStatusPath, fs, UPDATE_BUFFER_SIZE)),
      DecodedInt(ReadText(paths.dockBatteryCapacityPath, fs, INT_BUFFER_SIZE), 0),
      DecodedPresent(ReadText(paths.dockBatteryPresentPath, fs, UPDATE_BUFFER_SIZE)),
      DecodedBoolean(ReadText(paths.padUsbOnlinePath, fs, BOOLEAN_BUFFER_SIZE)),
      DecodedBoolean(ReadText(paths.acOnlinePath, fs, BOOLEAN_BUFFER_SIZE)),
      DecodedBoolean(ReadText(paths.dockAcOnlinePath, fs, BOOLEAN_BUFFER_SIZE)))
  }

  /** setBooleanField */
  method ReadBoolean(path: Option<string>, fs: Tree) returns (value: bool)
    ensures value == DecodedBoolean(ReadText(path, fs, BOOLEAN_BUFFER_SIZE))
  {
    var buf := new char[BOOLEAN_BUFFER_SIZE];
    value := false;
    var count := ReadFromFile(path, fs, buf);
    if count > 0 {
      assert buf[..count][0] == buf[0];
      if buf[0] != '0' {
        value := true;
      }
    }
  }

  /** setIntField */
  method ReadInt(path: Option<string>, fs: Tree, def: int) returns (value: int)
    ensures value == DecodedInt(ReadText(path, fs, INT_BUFFER_SIZE), def)
  {
    var buf := new char[INT_BUFFER_SIZE];
    value := def;
    var count := ReadFromFile(path, fs, buf);
    if count > 0 {
      value := Atoi(buf[..count]);
    }
  }

  /** asusdec_DockBatteryHandler_nativeDockBatteryUpdate, with the JNI field writes as the result. */
  method NativeDockBatteryUpdate(paths: PowerSupplyPaths, fs: Tree) returns (r: Reading)
    ensures r == ReadAll(paths, fs)
  {
    var buf := new char[UPDATE_BUFFER_SIZE];

    var level := ReadInt(paths.dockBatteryCapacityPath, fs, 0);

    var status;
    var count := ReadFromFile(paths.dockBatteryStatusPath, fs, buf);
    if count > 0 {
      status := GetDockBatteryStatus(buf[..count]);
    } else {
      status := BATTERY_STATUS_UNKNOWN;
    }

    var present := false;
    count := ReadFromFile(paths.dockBatteryPresentPath, fs, buf);
    if count >= 15 {
      if buf[14] == '1' {
        present := true;
      }
    }

    var padUsbOnline := ReadBoolean(paths.padUsbOnlinePath, fs);
    var acOnline := ReadBoolean(paths.acOnlinePath, fs);
    var dockAcOnline := ReadBoolean(paths.dockAcOnlinePath, fs);

    r := Reading(status, level, present, padUsbOnline, acOnline, dockAcOnline);
  }
}
