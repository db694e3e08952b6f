/**
 * Settings (src/settings.cpp). The INI file is an in-memory map from key to
 * value; the constructor writes every missing default into it and load()
 * reads each field back with the same default as fallback. The toggle
 * shortcut is turned into a Windows virtual-key code by masking off Qt's
 * modifier bits and mapping the remaining Qt key code.
 */
module Settings {
  import opened Common

  // Qt key codes (Qt::Key).
  const KeyA: int := 0x41
  const KeyZ: int := 0x5a
  const Key0: int := 0x30
  const Key9: int := 0x39
  const KeySpace: int := 0x20
  const KeyEscape: int := 0x0100_0000
  const KeyTab: int := 0x0100_0001
  const KeyBackspace: int := 0x0100_0003
  const KeyReturn: int := 0x0100_0004
  const KeyEnter: int := 0x0100_0005
  const KeyInsert: int := 0x0100_0006
  const KeyDelete: int := 0x0100_0007
  const KeyHome: int := 0x0100_0010
  const KeyEnd: int := 0x0100_0011
  const KeyLeft: int := 0x0100_0012
  const KeyUp: int := 0x0100_0013
  const KeyRight: int := 0x0100_0014
  const KeyDown: int := 0x0100_0015
  const KeyPageUp: int := 0x0100_0016
  const KeyPageDown: int := 0x0100_0017
  const KeyF1: int := 0x0100_0030

  /** Qt::KeyboardModifierMask: the bits of a key combination that hold Shift, Ctrl, Alt, Meta, Keypad. */
  const KeyboardModifierMask: bv32 := 0xfe00_0000

  // Windows virtual-key codes.
  const VkBack: int := 0x08
  const VkTab: int := 0x09
  const VkReturn: int := 0x0d
  const VkEscape: int := 0x1b
  const VkSpace: int := 0x20
  const VkPrior: int := 0x21
  const VkNext: int := 0x22
  const VkEnd: int := 0x23
  const VkHome: int := 0x24
  const VkLeft: int := 0x25
  const VkUp: int := 0x26
  const VkRight: int := 0x27
  const VkDown: int := 0x28
  const VkInsert: int := 0x2d
  const VkDelete: int := 0x2e
  const VkF1: int := 0x70

  /** Settings::qtKeyToVk: letters and digits by offset, a fixed list of named keys, VK_HOME otherwise. */
  function QtKeyToVk(key: int): int {
    if KeyA <= key <= KeyZ then 'A' as int + (key - KeyA)
    else if Key0 <= key <= Key9 then '0' as int + (key - Key0)
    else if key == KeyHome then VkHome
    else if key == KeyEnd then VkEnd
    else if key == KeyLeft then VkLeft
    else if key == KeyUp then VkUp
    else if key == KeyRight then VkRight
    else if key == KeyDown then VkDown
    else if key == KeyPageUp then VkPrior
    else if key == KeyPageDown then VkNext
    else if key == KeyInsert then VkInsert
    else if key == KeyDelete then VkDelete
    else if key == KeySpace then VkSpace
    else if key == KeyBackspace then VkBack
    else if key == KeyReturn then VkReturn
    else if key == KeyEnter then VkReturn
    else if key == KeyEscape then VkEscape
    else if key == KeyTab then VkTab
    else if KeyF1 <= key <= KeyF1 + 11 then VkF1 + (key - KeyF1)
    else VkHome
  }

  /** The named keys the switch lists (F1 to F12 are the twelve codes from KeyF1 on). */
  predicate NamedKey(key: int) {
    key in {KeyHome, KeyEnd, KeyLeft, KeyUp, KeyRight, KeyDown, KeyPageUp, KeyPageDown,
            KeyInsert, KeyDelete, KeySpace, KeyBackspace, KeyReturn, KeyEnter, KeyEscape, KeyTab}
    || KeyF1 <= key <= KeyF1 + 11
  }

  /** A key qtKeyToVk maps to a code of its own rather than the VK_HOME default. */
  predicate Mapped(key: int) {
    KeyA <= key <= KeyZ || Key0 <= key <= Key9 || NamedKey(key)
  }

  /** Letters and digits have the same code in Qt and in Windows. */
  lemma LettersAndDigitsKeepTheirCode(key: int)
    requires KeyA <= key <= KeyZ || Key0 <= key <= Key9
    ensures QtKeyToVk(key) == key
  {
  }

  /** F1 to F12 map to VK_F1 to VK_F12 in order. */
  lemma FunctionKeysInOrder(i: int)
    requires 0 <= i < 12
    ensures QtKeyToVk(KeyF1 + i) == VkF1 + i
  {
  }

  /** The result is VK_HOME exactly for Home and for every key the mapping does not list. */
  lemma HomeIsTheDefault(key: int)
    ensures QtKeyToVk(key) == VkHome <==> key == KeyHome || !Mapped(key)
  {
  }

  /** Every result is a virtual-key code (1 to 254). */
  lemma ResultIsVirtualKey(key: int)
    ensures 0x01 <= QtKeyToVk(key) <= 0xfe
  {
  }

  /** Apart from Return and Enter, no two listed keys share a virtual-key code. */
  lemma OnlyReturnAndEnterCollide(a: int, b: int)
    requires Mapped(a) && Mapped(b) && a != b
    requires QtKeyToVk(a) == QtKeyToVk(b)
    ensures (a == KeyReturn && b == KeyEnter) || (a == KeyEnter && b == KeyReturn)
  {
  }

  /**
   * getToggleVisibilityKeyVk over the parsed shortcut (its key combinations):
   * VK_HOME when empty, otherwise the first combination with the modifier
   * bits masked off, mapped by qtKeyToVk.
   */
  function ToggleKeyVk(sequence: seq<bv32>): int {
    if |sequence| == 0 then VkHome
    else QtKeyToVk((sequence[0] & !KeyboardModifierMask) as int)
  }

  /** Modifier bits on the first combination, and any later combination, never change the result. */
  lemma ModifiersNeverMatter(combination: bv32, modifiers: bv32, rest: seq<bv32>)
    requires modifiers & !KeyboardModifierMask == 0
    ensures ToggleKeyVk([combination | modifiers] + rest) == ToggleKeyVk([combination])
  {
    assert (combination | modifiers) & !KeyboardModifierMask == combination & !KeyboardModifierMask;
  }

  /** A plain key as the shortcut gives that key's mapping. */
  lemma PlainKeyShortcut(key: bv32)
    requires key & KeyboardModifierMask == 0
    ensures ToggleKeyVk([key]) == QtKeyToVk(key as int)
  {
    assert key & !KeyboardModifierMask == key;
  }

  // ---- Values as QSettings stores them -------------------------------------

  /** A QVariant: what setValue wrote, or the text the INI file holds. */
  datatype Value = IntValue(i: int) | BoolValue(b: bool) | TextValue(s: string)

  const IntMin: int := -0x8000_0000
  const IntMax: int := 0x7fff_ffff

  predicate IsDigit(c: char) { '0' <= c <= '9' }

  /** The value of a run of decimal digits. */
  function DigitsValue(s: string): nat
    requires forall k :: 0 <= k < |s| ==> IsDigit(s[k])
    decreases |s|
  {
    if |s| == 0 then 0
    else
      assert IsDigit(s[|s| - 1]);
      10 * DigitsValue(s[..|s| - 1]) + (s[|s| - 1] as int - '0' as int)
  }

  /** The decimal digits of n, without leading zeros. */
  function Digits(n: nat): (s: string)
    ensures |s| > 0 && forall k :: 0 <= k < |s| ==> IsDigit(s[k])
    decreases n
  {
    if n < 10 then [('0' as int + n) as char] else Digits(n / 10) + [('0' as int + n % 10) as char]
  }

  /** QString::number(i). */
  function IntToText(i: int): string {
    if i < 0 then "-" + Digits(-i) else Digits(i)
  }

  /** QString::toInt: an optional sign and at least one digit, in the range of a 32-bit int. */
  function ParseInt(s: string): Option<int> {
    var signed := |s| > 0 && (s[0] == '-' || s[0] == '+');
    var body := if signed then s[1..] else s;
    if |body| == 0 || !(forall k :: 0 <= k < |body| ==> IsDigit(body[k])) then None
    else
      var n: int := if signed && s[0] == '-' then 0 - DigitsValue(body) as int else DigitsValue(body);
      if IntMin <= n <= IntMax then Some(n) else None
  }

  lemma {:induction false} DigitsRoundTrip(n: nat)
    ensures DigitsValue(Digits(n)) == n
    decreases n
  {
    if n >= 10 {
      DigitsRoundTrip(n / 10);
      var s := Digits(n);
      assert s[..|s| - 1] == Digits(n / 10);
    }
  }

  /** Writing an int to the file and reading it back gives the same int. */
  lemma IntTextRoundTrip(i: int)
    requires IntMin <= i <= IntMax
    ensures ParseInt(IntToText(i)) == Some(i)
  {
    DigitsRoundTrip(if i < 0 then -i else i);
    var s := IntToText(i);
    if i < 0 {
      assert s[1..] == Digits(-i);
    } else {
      assert s[0] != '-' && s[0] != '+';
    }
  }

  /** QVariant::toInt: 0 when the value does not convert. */
  function ToInt(v: Value): int {
    match v
    case IntValue(i) => i
    case BoolValue(b) => if b then 1 else 0
    case TextValue(s) => match ParseInt(s) case Some(n) => n case None => 0
  }

  function AsciiLower(s: string): (r: string)
    ensures |r| == |s|
  {
    seq(|s|, k requires 0 <= k < |s| => if 'A' <= s[k] <= 'Z' then (s[k] as int + 32) as char else s[k])
  }

  /** QVariant::toBool: a string is false when empty, "0" or "false" in any case. */
  function ToBool(v: Value): bool {
    match v
    case IntValue(i) => i != 0
    case BoolValue(b) => b
    case TextValue(s) => !(s == "" || s == "0" || AsciiLower(s) == "false")
  }

  /** QVariant::toString. */
  function ToText(v: Value): string {
    match v
    case IntValue(i) => IntToText(i)
    case BoolValue(b) => if b then "true" else "false"
    case TextValue(s) => s
  }

  /** A boolean written to the file reads back as itself. */
  lemma BoolTextRoundTrip(b: bool)
    ensures ToBool(TextValue(ToText(BoolValue(b)))) == b
  {
    if !b {
      assert AsciiLower("false") == "false";
    }
  }

  /** QSettings::value(key, fallback). */
  function ValueOr(store: map<SettingKey, Value>, key: SettingKey, fallback: Value): Value {
    if key in store then store[key] else fallback
  }

  // ---- The keys and their defaults -----------------------------------------


  /** The keys the program reads and writes. */
  datatype SettingKey =
    | RefreshIntervalKey
    | CloseRefreshDelayKey
    | InitialWidthKey
    | MinimumWidthKey
    | MarginKey
    | HSpacingKey
    | VSpacingKey
    | MaxTitleLengthKey
    | TileWidthKey
    | TileHeightKey
    | IconSizeKey
    | ContentMarginKey
    | InternalSpacingKey
    | ShiftClickCloseKey
    | TargetDisplayKey
    | ToggleShortcutKey

  /** Each key's path in the INI file. */
  function Path(key: SettingKey): string {
    match key
    case RefreshIntervalKey => "MainWindow/RefreshIntervalMs"
    case CloseRefreshDelayKey => "MainWindow/CloseRefreshDelayMs"
    case InitialWidthKey => "MainWindow/InitialWidth"
    case MinimumWidthKey => "MainWindow/MinimumWidth"
    case MarginKey => "Layout/Margin"
    case HSpacingKey => "Layout/HSpacing"
    case VSpacingKey => "Layout/VSpacing"
    case MaxTitleLengthKey => "WindowScanner/MaxTitleLength"
    case TileWidthKey => "WindowTile/Width"
    case TileHeightKey => "WindowTile/Height"
    case IconSizeKey => "WindowTile/IconSize"
    case ContentMarginKey => "WindowTile/ContentMargin"
    case InternalSpacingKey => "WindowTile/InternalSpacing"
    case ShiftClickCloseKey => "WindowTile/EnableShiftClickClose"
    case TargetDisplayKey => "Display/TargetDisplayIndex"
    case ToggleShortcutKey => "Shortcuts/ToggleVisibility"
  }

  /** The value the constructor writes for a key that the file lacks. */
  function ConstructorDefault(key: SettingKey): Value {
    match key
    case RefreshIntervalKey => IntValue(2000)
    case CloseRefreshDelayKey => IntValue(500)
    case InitialWidthKey => IntValue(300)
    case MinimumWidthKey => IntValue(300)
    case MarginKey => IntValue(2)
    case HSpacingKey => IntValue(2)
    case VSpacingKey => IntValue(2)
    case MaxTitleLengthKey => IntValue(256)
    case TileWidthKey => IntValue(250)
    case TileHeightKey => IntValue(30)
    case IconSizeKey => IntValue(16)
    case ContentMarginKey => IntValue(2)
    case InternalSpacingKey => IntValue(5)
    case ShiftClickCloseKey => BoolValue(false)
    case TargetDisplayKey => IntValue(0)
    case ToggleShortcutKey => TextValue("Home")
  }

  /** Every key the program knows. */
  const AllKeys: set<SettingKey> := {
    RefreshIntervalKey, CloseRefreshDelayKey, InitialWidthKey, MinimumWidthKey,
    MarginKey, HSpacingKey, VSpacingKey, MaxTitleLengthKey,
    TileWidthKey, TileHeightKey, IconSizeKey, ContentMarginKey, InternalSpacingKey, ShiftClickCloseKey,
    TargetDisplayKey, ToggleShortcutKey}

  /** The store once every missing default has been written: present values kept, absent ones defaulted. */
  function WithDefaults(store: map<SettingKey, Value>): map<SettingKey, Value> {
    map key | key in AllKeys :: if key in store then store[key] else ConstructorDefault(key)
  }

  /**
   * After the constructor every key is present, every value the file held is
   * kept, and reading any key with its default as fallback gives what
   * reading the original file would have given.
   */
  lemma WithDefaultsKeepsExisting(store: map<SettingKey, Value>, key: SettingKey)
    ensures key in WithDefaults(store)
    ensures key in store ==> WithDefaults(store)[key] == store[key]
    ensures ValueOr(WithDefaults(store), key, ConstructorDefault(key)) == ValueOr(store, key, ConstructorDefault(key))
  {
    assert key in AllKeys by {
      match key
      case RefreshIntervalKey => case CloseRefreshDelayKey => case InitialWidthKey => case MinimumWidthKey =>
      case MarginKey => case HSpacingKey => case VSpacingKey => case MaxTitleLengthKey =>
      case TileWidthKey => case TileHeightKey => case IconSizeKey => case ContentMarginKey =>
      case InternalSpacingKey => case ShiftClickCloseKey => case TargetDisplayKey => case ToggleShortcutKey =>
    }
  }

  /** The initial values plus the defaults of the keys in `done`: the store partway through the constructor. */
  function PartlyDefaulted(initial: map<SettingKey, Value>, done: set<SettingKey>): map<SettingKey, Value> {
    map key | key in initial.Keys + done :: if key in initial then initial[key] else ConstructorDefault(key)
  }

  /** Writing one more missing default extends `done` by that key. */
  lemma WriteOneMore(initial: map<SettingKey, Value>, done: set<SettingKey>, key: SettingKey, value: Value)
    requires value == ConstructorDefault(key)
    ensures var s := PartlyDefaulted(initial, done);
            (if key in s then s else s[key := value]) == PartlyDefaulted(initial, done + {key})
  {
  }

  /** Once every key is done, the store is WithDefaults(initial). */
  lemma AllDone(initial: map<SettingKey, Value>, done: set<SettingKey>)
    requires AllKeys <= done
    ensures PartlyDefaulted(initial, done) == WithDefaults(initial)
  {
    forall key ensures key in AllKeys {
      WithDefaultsKeepsExisting(initial, key);
    }
  }

  /** Adding the defaults twice is adding them once. */
  lemma WithDefaultsIdempotent(store: map<SettingKey, Value>)
    ensures WithDefaults(WithDefaults(store)) == WithDefaults(store)
  {
    forall key ensures key in WithDefaults(WithDefaults(store)) <==> key in WithDefaults(store) {
      WithDefaultsKeepsExisting(store, key);
      WithDefaultsKeepsExisting(WithDefaults(store), key);
    }
    forall key | key in WithDefaults(store) ensures WithDefaults(WithDefaults(store))[key] == WithDefaults(store)[key] {
      WithDefaultsKeepsExisting(WithDefaults(store), key);
    }
  }

  /** The fields load() fills in. */
  datatype Config = Config(
    refreshIntervalMs: int,
    closeRefreshDelayMs: int,
    initialWidth: int,
    minimumWidth: int,
    layoutMargin: int,
    layoutHSpacing: int,
    layoutVSpacing: int,
    maxTitleLength: int,
    tileWidth: int,
    tileHeight: int,
    tileIconSize: int,
    tileContentMargin: int,
    tileInternalSpacing: int,
    tileEnableShiftClickClose: bool,
    targetDisplayIndex: int,
    toggleVisibilityShortcut: string)

  /** The sixteen QVariants load() reads, before conversion. */
  datatype Reads = Reads(
    refreshIntervalMs: Value,
    closeRefreshDelayMs: Value,
    initialWidth: Value,
    minimumWidth: Value,
    layoutMargin: Value,
    layoutHSpacing: Value,
    layoutVSpacing: Value,
    maxTitleLength: Value,
    tileWidth: Value,
    tileHeight: Value,
    tileIconSize: Value,
    tileContentMargin: Value,
    tileInternalSpacing: Value,
    tileEnableShiftClickClose: Value,
    targetDisplayIndex: Value,
    toggleVisibilityShortcut: Value)

  /** QSettings::value for each key, with the fallback load() passes. */
  function ReadAll(store: map<SettingKey, Value>): Reads {
    Reads(
      ValueOr(store, RefreshIntervalKey, IntValue(2000)),
      ValueOr(store, CloseRefreshDelayKey, IntValue(500)),
      ValueOr(store, InitialWidthKey, IntValue(300)),
      ValueOr(store, MinimumWidthKey, IntValue(300)),
      ValueOr(store, MarginKey, IntValue(2)),
      ValueOr(store, HSpacingKey, IntValue(2)),
      ValueOr(store, VSpacingKey, IntValue(2)),
      ValueOr(store, MaxTitleLengthKey, IntValue(256)),
      ValueOr(store, TileWidthKey, IntValue(250)),
      ValueOr(store, TileHeightKey, IntValue(30)),
      ValueOr(store, IconSizeKey, IntValue(16)),
      ValueOr(store, ContentMarginKey, IntValue(2)),
      ValueOr(store, InternalSpacingKey, IntValue(5)),
      ValueOr(store, ShiftClickCloseKey, BoolValue(false)),
      ValueOr(store, TargetDisplayKey, IntValue(0)),
      ValueOr(store, ToggleShortcutKey, TextValue("Home")))
  }

  /** The conversions load() applies: toInt, toBool for the shift-click flag, toString for the shortcut. */
  function Convert(r: Reads): Config {
    Config(
      ToInt(r.refreshIntervalMs),
      ToInt(r.closeRefreshDelayMs),
      ToInt(r.initialWidth),
      ToInt(r.minimumWidth),
      ToInt(r.layoutMargin),
      ToInt(r.layoutHSpacing),
      ToInt(r.layoutVSpacing),
      ToInt(r.maxTitleLength),
      ToInt(r.tileWidth),
      ToInt(r.tileHeight),
      ToInt(r.tileIconSize),
      ToInt(r.tileContentMargin),
      ToInt(r.tileInternalSpacing),
      ToBool(r.tileEnableShiftClickClose),
      ToInt(r.targetDisplayIndex),
      ToText(r.toggleVisibilityShortcut))
  }

  /** What load() assigns, field by field. */
  function Loaded(store: map<SettingKey, Value>): Config {
    Convert(ReadAll(store))
  }

  /** The configuration of an empty file. */
  const DefaultConfig: Config :=
    Config(2000, 500, 300, 300, 2, 2, 2, 256, 250, 30, 16, 2, 5, false, 0, "Home")

  /**
   * load()'s fallbacks are the constructor's defaults: writing the defaults
   * first changes nothing that load() reads.
   */
  lemma LoadFallbacksAreTheDefaults(store: map<SettingKey, Value>)
    ensures Loaded(WithDefaults(store)) == Loaded(store)
  {
    forall key ensures ValueOr(WithDefaults(store), key, ConstructorDefault(key)) == ValueOr(store, key, ConstructorDefault(key)) {
      WithDefaultsKeepsExisting(store, key);
    }
    SameReadsLoadSame(WithDefaults(store), store);
    assert Loaded(WithDefaults(store)) == Convert(ReadAll(store));
  }

  /** The first eight reads of load() agree for two such stores. */
  lemma SameMainWindowAndLayoutReads(a: map<SettingKey, Value>, b: map<SettingKey, Value>)
    requires forall key :: ValueOr(a, key, ConstructorDefault(key)) == ValueOr(b, key, ConstructorDefault(key))
    ensures ValueOr(a, RefreshIntervalKey, IntValue(2000)) == ValueOr(b, RefreshIntervalKey, IntValue(2000))
    ensures ValueOr(a, CloseRefreshDelayKey, IntValue(500)) == ValueOr(b, CloseRefreshDelayKey, IntValue(500))
    ensures ValueOr(a, InitialWidthKey, IntValue(300)) == ValueOr(b, InitialWidthKey, IntValue(300))
    ensures ValueOr(a, MinimumWidthKey, IntValue(300)) == ValueOr(b, MinimumWidthKey, IntValue(300))
    ensures ValueOr(a, MarginKey, IntValue(2)) == ValueOr(b, MarginKey, IntValue(2))
    ensures ValueOr(a, HSpacingKey, IntValue(2)) == ValueOr(b, HSpacingKey, IntValue(2))
    ensures ValueOr(a, VSpacingKey, IntValue(2)) == ValueOr(b, VSpacingKey, IntValue(2))
    ensures ValueOr(a, MaxTitleLengthKey, IntValue(256)) == ValueOr(b, MaxTitleLengthKey, IntValue(256))
  {
    assert ValueOr(a, RefreshIntervalKey, ConstructorDefault(RefreshIntervalKey)) == ValueOr(b, RefreshIntervalKey, ConstructorDefault(RefreshIntervalKey));
    assert ValueOr(a, CloseRefreshDelayKey, ConstructorDefault(CloseRefreshDelayKey)) == ValueOr(b, CloseRefreshDelayKey, ConstructorDefault(CloseRefreshDelayKey));
    assert ValueOr(a, InitialWidthKey, ConstructorDefault(InitialWidthKey)) == ValueOr(b, InitialWidthKey, ConstructorDefault(InitialWidthKey));
    assert ValueOr(a, MinimumWidthKey, ConstructorDefault(MinimumWidthKey)) == ValueOr(b, MinimumWidthKey, ConstructorDefault(MinimumWidthKey));
    assert ValueOr(a, MarginKey, ConstructorDefault(MarginKey)) == ValueOr(b, MarginKey, ConstructorDefault(MarginKey));
    assert ValueOr(a, HSpacingKey, ConstructorDefault(HSpacingKey)) == ValueOr(b, HSpacingKey, ConstructorDefault(HSpacingKey));
    assert ValueOr(a, VSpacingKey, ConstructorDefault(VSpacingKey)) == ValueOr(b, VSpacingKey, ConstructorDefault(VSpacingKey));
    assert ValueOr(a, MaxTitleLengthKey, ConstructorDefault(MaxTitleLengthKey)) == ValueOr(b, MaxTitleLengthKey, ConstructorDefault(MaxTitleLengthKey));
  }

  /** The last eight reads of load() agree for two such stores. */
  lemma SameTileAndDisplayReads(a: map<SettingKey, Value>, b: map<SettingKey, Value>)
    requires forall key :: ValueOr(a, key, ConstructorDefault(key)) == ValueOr(b, key, ConstructorDefault(key))
    ensures ValueOr(a, TileWidthKey, IntValue(250)) == ValueOr(b, TileWidthKey, IntValue(250))
    ensures ValueOr(a, TileHeightKey, IntValue(30)) == ValueOr(b, TileHeightKey, IntValue(30))
    ensures ValueOr(a, IconSizeKey, IntValue(16)) == ValueOr(b, IconSizeKey, IntValue(16))
    ensures ValueOr(a, ContentMarginKey, IntValue(2)) == ValueOr(b, ContentMarginKey, IntValue(2))
    ensures ValueOr(a, InternalSpacingKey, IntValue(5)) == ValueOr(b, InternalSpacingKey, IntValue(5))
    ensures ValueOr(a, ShiftClickCloseKey, BoolValue(false)) == ValueOr(b, ShiftClickCloseKey, BoolValue(false))
    ensures ValueOr(a, TargetDisplayKey, IntValue(0)) == ValueOr(b, TargetDisplayKey, IntValue(0))
    ensures ValueOr(a, ToggleShortcutKey, TextValue("Home")) == ValueOr(b, ToggleShortcutKey, TextValue("Home"))
  {
    assert ValueOr(a, TileWidthKey, ConstructorDefault(TileWidthKey)) == ValueOr(b, TileWidthKey, ConstructorDefault(TileWidthKey));
    assert ValueOr(a, TileHeightKey, ConstructorDefault(TileHeightKey)) == ValueOr(b, TileHeightKey, ConstructorDefault(TileHeightKey));
    assert ValueOr(a, IconSizeKey, ConstructorDefault(IconSizeKey)) == ValueOr(b, IconSizeKey, ConstructorDefault(IconSizeKey));
    assert ValueOr(a, ContentMarginKey, ConstructorDefault(ContentMarginKey)) == ValueOr(b, ContentMarginKey, ConstructorDefault(ContentMarginKey));
    assert ValueOr(a, InternalSpacingKey, ConstructorDefault(InternalSpacingKey)) == ValueOr(b, InternalSpacingKey, ConstructorDefault(InternalSpacingKey));
    assert ValueOr(a, ShiftClickCloseKey, ConstructorDefault(ShiftClickCloseKey)) == ValueOr(b, ShiftClickCloseKey, ConstructorDefault(ShiftClickCloseKey));
    assert ValueOr(a, TargetDisplayKey, ConstructorDefault(TargetDisplayKey)) == ValueOr(b, TargetDisplayKey, ConstructorDefault(TargetDisplayKey));
    assert ValueOr(a, ToggleShortcutKey, ConstructorDefault(ToggleShortcutKey)) == ValueOr(b, ToggleShortcutKey, ConstructorDefault(ToggleShortcutKey));
  }

  /** Two stores that read alike under the constructor's defaults load the same configuration. */
  lemma SameReadsLoadSame(a: map<SettingKey, Value>, b: map<SettingKey, Value>)
    requires forall key :: ValueOr(a, key, ConstructorDefault(key)) == ValueOr(b, key, ConstructorDefault(key))
    ensures ReadAll(a) == ReadAll(b)
  {
    SameMainWindowAndLayoutReads(a, b);
    SameTileAndDisplayReads(a, b);
  }

  /** An empty settings file loads the default configuration. */
  lemma EmptyStoreLoadsDefaults(store: map<SettingKey, Value>)
    requires store == map[]
    ensures Loaded(store) == DefaultConfig
  {
    assert IntToText(0) == "0";
  }

  /** The Settings singleton: the store and the loaded fields. */
  class SettingsStore {
    var store: map<SettingKey, Value>
    var config: Config

    /** Settings(): write each missing default, then load. */
    constructor (initial: map<SettingKey, Value>)
      ensures store == WithDefaults(initial)
      ensures config == Loaded(initial)
    {
      store := initial;
      config := Loaded(initial);
      new;
      WriteDefaults();
      Load();
      LoadFallbacksAreTheDefaults(initial);
    }

    /** The constructor's sixteen `if (!contains(key)) setValue(key, value)` lines, group by group. */
    method WriteDefaults()
      modifies this`store
      ensures store == WithDefaults(old(store))
    {
      ghost var initial := store;
      ghost var done: set<SettingKey> := {};
      assert store == PartlyDefaulted(initial, done);
      WriteMainWindowDefaults(initial, done);
      done := done + {RefreshIntervalKey} + {CloseRefreshDelayKey} + {InitialWidthKey} + {MinimumWidthKey};
      WriteLayoutAndScannerDefaults(initial, done);
      done := done + {MarginKey} + {HSpacingKey} + {VSpacingKey} + {MaxTitleLengthKey};
      WriteTileSizeDefaults(initial, done);
      done := done + {TileWidthKey} + {TileHeightKey} + {IconSizeKey};
      WriteTileContentDefaults(initial, done);
      done := done + {ContentMarginKey} + {InternalSpacingKey} + {ShiftClickCloseKey};
      WriteDisplayAndShortcutDefaults(initial, done);
      done := done + {TargetDisplayKey} + {ToggleShortcutKey};
      AllDone(initial, done);
    }

    /** The MainWindow group. */
    method WriteMainWindowDefaults(ghost initial: map<SettingKey, Value>, ghost done: set<SettingKey>)
      requires store == PartlyDefaulted(initial, done)
      modifies this`store
      ensures store == PartlyDefaulted(initial, done + {RefreshIntervalKey} + {CloseRefreshDelayKey} + {InitialWidthKey} + {MinimumWidthKey})
    {
      ghost var d := done;
      WriteDefaultIfMissing(RefreshIntervalKey, IntValue(2000), initial, d);
      d := d + {RefreshIntervalKey};
      WriteDefaultIfMissing(CloseRefreshDelayKey, IntValue(500), initial, d);
      d := d + {CloseRefreshDelayKey};
      WriteDefaultIfMissing(InitialWidthKey, IntValue(300), initial, d);
      d := d + {InitialWidthKey};
      WriteDefaultIfMissing(MinimumWidthKey, IntValue(300), initial, d);
    }

    /** The Layout and WindowScanner groups. */
    method WriteLayoutAndScannerDefaults(ghost initial: map<SettingKey, Value>, ghost done: set<SettingKey>)
      requires store == PartlyDefaulted(initial, done)
      modifies this`store
      ensures store == PartlyDefaulted(initial, done + {MarginKey} + {HSpacingKey} + {VSpacingKey} + {MaxTitleLengthKey})
    {
      ghost var d := done;
      WriteDefaultIfMissing(MarginKey, IntValue(2), initial, d);
      d := d + {MarginKey};
      WriteDefaultIfMissing(HSpacingKey, IntValue(2), initial, d);
      d := d + {HSpacingKey};
      WriteDefaultIfMissing(VSpacingKey, IntValue(2), initial, d);
      d := d + {VSpacingKey};
      WriteDefaultIfMissing(MaxTitleLengthKey, IntValue(256), initial, d);
    }

    /** The WindowTile group, first half: the tile's size and icon size. */
    method WriteTileSizeDefaults(ghost initial: map<SettingKey, Value>, ghost done: set<SettingKey>)
      requires store == PartlyDefaulted(initial, done)
      modifies this`store
      ensures store == PartlyDefaulted(initial, done + {TileWidthKey} + {TileHeightKey} + {IconSizeKey})
    {
      ghost var d := done;
      WriteDefaultIfMissing(TileWidthKey, IntValue(250), initial, d);
      d := d + {TileWidthKey};
      WriteDefaultIfMissing(TileHeightKey, IntValue(30), initial, d);
      d := d + {TileHeightKey};
      WriteDefaultIfMissing(IconSizeKey, IntValue(16), initial, d);
    }

    /** The WindowTile group, second half: the tile's spacing and the shift-click flag. */
    method WriteTileContentDefaults(ghost initial: map<SettingKey, Value>, ghost done: set<SettingKey>)
      requires store == PartlyDefaulted(initial, done)
      modifies this`store
      ensures store == PartlyDefaulted(initial, done + {ContentMarginKey} + {InternalSpacingKey} + {ShiftClickCloseKey})
    {
      ghost var d := done;
      WriteDefaultIfMissing(ContentMarginKey, IntValue(2), initial, d);
      d := d + {ContentMarginKey};
      WriteDefaultIfMissing(InternalSpacingKey, IntValue(5), initial, d);
      d := d + {InternalSpacingKey};
      WriteDefaultIfMissing(ShiftClickCloseKey, BoolValue(false), initial, d);
    }

    /** The Display and Shortcuts groups. */
    method WriteDisplayAndShortcutDefaults(ghost initial: map<SettingKey, Value>, ghost done: set<SettingKey>)
      requires store == PartlyDefaulted(initial, done)
      modifies this`store
      ensures store == PartlyDefaulted(initial, done + {TargetDisplayKey} + {ToggleShortcutKey})
    {
      ghost var d := done;
      WriteDefaultIfMissing(TargetDisplayKey, IntValue(0), initial, d);
      d := d + {TargetDisplayKey};
      WriteDefaultIfMissing(ToggleShortcutKey, TextValue("Home"), initial, d);
    }

    /** `if (!contains(key)) setValue(key, value)`, on a store that so far has the defaults in `done` written. */
    method WriteDefaultIfMissing(key: SettingKey, value: Value, ghost initial: map<SettingKey, Value>, ghost done: set<SettingKey>)
      requires value == ConstructorDefault(key)
      requires store == PartlyDefaulted(initial, done)
      modifies this`store
      ensures store == PartlyDefaulted(initial, done + {key})
    {
      WriteOneMore(initial, done, key, value);
      if key !in store {
        store := store[key := value];
      }
    }

    /** load(): re-read every field from the store. */
    method Load()
      modifies this`config
      ensures config == Loaded(store)
    {
      config := Loaded(store);
    }
  }
}
