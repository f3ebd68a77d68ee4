/**
 * The setting toggle button: the values a button may cycle through, the
 * process-wide appearance table keyed by (setting, value), and the icon,
 * item overlay and tooltip a button shows, each with its fallback.
 *
 * Icons, items and tooltip texts are opaque tokens named after the
 * constants of the program. The static `appearances` map is an
 * `Appearances` object shared by every button.
 */
module SettingToggleButton {
  import opened Wrappers

  /** An enum constant, named by its enum class and its own name. */
  datatype EnumConst = EnumConst(enumClass: string, name: string)

  /**
   * The identity of a `Setting`. Settings are singletons compared with
   * `==`, so a setting is identified by its name.
   */
  type SettingId = string

  /** A setting and the enum values it allows (`getValues()`). */
  datatype Setting = Setting(name: SettingId, values: set<EnumConst>)

  datatype Icon = Icon(name: string)

  const ToolbarButtonBackground: Icon := Icon("TOOLBAR_BUTTON_BACKGROUND")

  datatype Item = Item(id: string)

  /** A `ButtonToolTips` constant. */
  datatype ToolTip = ToolTip(name: string)

  /** A line of tooltip text: the text of a `ButtonToolTips` constant. */
  datatype Component = Text(tip: ToolTip)

  const NoSuchMessage: Component := Text(ToolTip("NoSuchMessage"))

  /** `ButtonAppearance`: an optional icon, an optional item, and the tooltip lines. */
  datatype ButtonAppearance = ButtonAppearance(icon: Option<Icon>, item: Option<Item>, tooltipLines: seq<Component>)

  /** The table key: a setting and one of its values. */
  datatype EnumPair = EnumPair(setting: SettingId, value: EnumConst)

  type AppearanceTable = map<EnumPair, ButtonAppearance>

  // ---------------------------------------------------------------------
  // EnumPair equality and hashing
  // ---------------------------------------------------------------------

  /** A Java object as `EnumPair.equals` sees it: null, another pair, or an object of another class. */
  datatype JavaObject = Null | PairObject(pair: EnumPair) | OtherObject(id: nat)

  /** `EnumPair.equals`: same class, same setting and same value. */
  function Equals(p: EnumPair, obj: JavaObject): (b: bool)
    ensures b <==> obj == PairObject(p)
  {
    match obj
    case Null => false
    case OtherObject(_) => false
    case PairObject(other) => other.setting == p.setting && other.value == p.value
  }

  /** `EnumPair.hashCode`, given the identity hashes of settings and enum constants. */
  function HashCode(p: EnumPair, settingHash: SettingId -> bv32, valueHash: EnumConst -> bv32): (h: bv32)
    ensures h ^ valueHash(p.value) == settingHash(p.setting)
    ensures h ^ settingHash(p.setting) == valueHash(p.value)
  {
    settingHash(p.setting) ^ valueHash(p.value)
  }

  // ---------------------------------------------------------------------
  // Valid values
  // ---------------------------------------------------------------------

  predicate Distinct(s: seq<EnumConst>)
  {
    forall i, j :: 0 <= i < j < |s| ==> s[i] != s[j]
  }

  /** The elements of `s` that `drop` does not accept, in their order in `s`. */
  function Without(s: seq<EnumConst>, drop: EnumConst -> bool): (r: seq<EnumConst>)
    ensures forall x :: x in r <==> x in s && !drop(x)
    ensures Distinct(s) ==> Distinct(r)
    decreases |s|
  {
    if s == [] then []
    else
      var last := s[|s| - 1];
      Without(s[..|s| - 1], drop) + (if drop(last) then [] else [last])
  }

  /** `removeIf`: one pass over `s` that keeps, in order, what `drop` does not accept. */
  method RemoveIf(s: seq<EnumConst>, drop: EnumConst -> bool) returns (r: seq<EnumConst>)
    ensures r == Without(s, drop)
  {
    r := [];
    var i := 0;
    while i < |s|
      invariant 0 <= i <= |s|
      invariant r == Without(s[..i], drop)
    {
      assert s[..i + 1][..i] == s[..i];
      if !drop(s[i]) {
        r := r + [s[i]];
      }
      i := i + 1;
    }
    assert s[..|s|] == s;
  }

  /**
   * The valid values a button is built with: the constants of the enum
   * (`constants`, in declaration order), less those `isValidValue`
   * rejects, less those the setting does not allow.
   */
  method ValidValues(constants: seq<EnumConst>, isValidValue: EnumConst -> bool, setting: Setting)
    returns (r: seq<EnumConst>)
    ensures forall x :: x in r <==> x in constants && isValidValue(x) && x in setting.values
    ensures Distinct(constants) ==> Distinct(r)
  {
    r := RemoveIf(constants, x => !isValidValue(x));
    r := RemoveIf(r, x => x !in setting.values);
  }

  // ---------------------------------------------------------------------
  // The appearance table
  // ---------------------------------------------------------------------

  /** What `registerApp` stores for an icon: the icon, no item, the title line and then the tooltip lines. */
  function IconAppearance(icon: Icon, title: ToolTip, lines: seq<Component>): (a: ButtonAppearance)
    ensures a.icon == Some(icon) && a.item == None
    ensures |a.tooltipLines| == |lines| + 1 && a.tooltipLines[0] == Text(title) && a.tooltipLines[1..] == lines
  {
    ButtonAppearance(Some(icon), None, [Text(title)] + lines)
  }

  /** What `registerApp` stores for an item: no icon, the item, the title line and then the tooltip lines. */
  function ItemAppearance(item: Item, title: ToolTip, lines: seq<Component>): (a: ButtonAppearance)
    ensures a.icon == None && a.item == Some(item)
    ensures |a.tooltipLines| == |lines| + 1 && a.tooltipLines[0] == Text(title) && a.tooltipLines[1..] == lines
  {
    ButtonAppearance(None, Some(item), [Text(title)] + lines)
  }

  /** The arguments of one `registerApp(icon, setting, value, title, hint)` call of the initialisation. */
  datatype Registration = Registration(icon: Icon, setting: SettingId, value: EnumConst, title: ToolTip, hint: ToolTip)

  function Row(icon: string, setting: SettingId, value: EnumConst, title: string, hint: string): Registration
  {
    Registration(Icon(icon), setting, value, ToolTip(title), ToolTip(hint))
  }

  function KeyOf(r: Registration): EnumPair
  {
    EnumPair(r.setting, r.value)
  }

  function AppearanceOf(r: Registration): ButtonAppearance
  {
    IconAppearance(r.icon, r.title, [Text(r.hint)])
  }

  /** The table after the registrations `regs` have been put, in order, into an empty map. */
  function TableOf(regs: seq<Registration>): (m: AppearanceTable)
    ensures forall k :: k in m <==> exists i :: 0 <= i < |regs| && KeyOf(regs[i]) == k
    decreases |regs|
  {
    if regs == [] then map[]
    else
      var last := regs[|regs| - 1];
      TableOf(regs[..|regs| - 1])[KeyOf(last) := AppearanceOf(last)]
  }

  /** The registrations the first button's constructor makes, in source order. */
  const DefaultRegistrations: seq<Registration> := [
      Row("ACCESS_READ", "ACCESS", EnumConst("AccessRestriction", "READ"), "IOMode", "Read"),
      Row("ACCESS_WRITE", "ACCESS", EnumConst("AccessRestriction", "WRITE"), "IOMode", "Write"),
      Row("ACCESS_READ_WRITE", "ACCESS", EnumConst("AccessRestriction", "READ_WRITE"), "IOMode", "ReadWrite"),
      Row("ARROW_UP", "SORT_DIRECTION", EnumConst("SortDir", "ASCENDING"), "SortOrder", "Ascending"),
      Row("ARROW_DOWN", "SORT_DIRECTION", EnumConst("SortDir", "DESCENDING"), "SortOrder", "Descending"),
      Row("TERMINAL_STYLE_SMALL", "TERMINAL_STYLE", EnumConst("TerminalStyle", "SMALL"), "TerminalStyle", "TerminalStyle_Small"),
      Row("TERMINAL_STYLE_MEDIUM", "TERMINAL_STYLE", EnumConst("TerminalStyle", "MEDIUM"), "TerminalStyle", "TerminalStyle_Medium"),
      Row("TERMINAL_STYLE_TALL", "TERMINAL_STYLE", EnumConst("TerminalStyle", "TALL"), "TerminalStyle", "TerminalStyle_Tall"),
      Row("TERMINAL_STYLE_FULL", "TERMINAL_STYLE", EnumConst("TerminalStyle", "FULL"), "TerminalStyle", "TerminalStyle_Full"),
      Row("SORT_BY_NAME", "SORT_BY", EnumConst("SortOrder", "NAME"), "SortBy", "ItemName"),
      Row("SORT_BY_AMOUNT", "SORT_BY", EnumConst("SortOrder", "AMOUNT"), "SortBy", "NumberOfItems"),
      Row("SORT_BY_MOD", "SORT_BY", EnumConst("SortOrder", "MOD"), "SortBy", "Mod"),
      Row("FUZZY_PERCENT_25", "FUZZY_MODE", EnumConst("FuzzyMode", "PERCENT_25"), "FuzzyMode", "FZPercent_25"),
      Row("FUZZY_PERCENT_50", "FUZZY_MODE", EnumConst("FuzzyMode", "PERCENT_50"), "FuzzyMode", "FZPercent_50"),
      Row("FUZZY_PERCENT_75", "FUZZY_MODE", EnumConst("FuzzyMode", "PERCENT_75"), "FuzzyMode", "FZPercent_75"),
      Row("FUZZY_PERCENT_99", "FUZZY_MODE", EnumConst("FuzzyMode", "PERCENT_99"), "FuzzyMode", "FZPercent_99"),
      Row("FUZZY_IGNORE", "FUZZY_MODE", EnumConst("FuzzyMode", "IGNORE_ALL"), "FuzzyMode", "FZIgnoreAll"),
      Row("FULLNESS_EMPTY", "FULLNESS_MODE", EnumConst("FullnessMode", "EMPTY"), "OperationMode", "MoveWhenEmpty"),
      Row("FULLNESS_HALF", "FULLNESS_MODE", EnumConst("FullnessMode", "HALF"), "OperationMode", "MoveWhenWorkIsDone"),
      Row("FULLNESS_FULL", "FULLNESS_MODE", EnumConst("FullnessMode", "FULL"), "OperationMode", "MoveWhenFull"),
      Row("BLOCKING_MODE_YES", "BLOCKING_MODE", EnumConst("YesNo", "YES"), "InterfaceBlockingMode", "Blocking"),
      Row("BLOCKING_MODE_NO", "BLOCKING_MODE", EnumConst("YesNo", "NO"), "InterfaceBlockingMode", "NonBlocking"),
      Row("VIEW_MODE_CRAFTING", "CRAFT_ONLY", EnumConst("YesNo", "YES"), "Craft", "CraftOnly"),
      Row("VIEW_MODE_ALL", "CRAFT_ONLY", EnumConst("YesNo", "NO"), "Craft", "CraftEither"),
      Row("STORAGE_FILTER_EXTRACTABLE_ONLY", "STORAGE_FILTER", EnumConst("StorageFilter", "EXTRACTABLE_ONLY"), "ReportInaccessibleItems", "ReportInaccessibleItemsNo"),
      Row("STORAGE_FILTER_EXTRACTABLE_NONE", "STORAGE_FILTER", EnumConst("StorageFilter", "NONE"), "ReportInaccessibleItems", "ReportInaccessibleItemsYes"),
      Row("PLACEMENT_BLOCK", "PLACE_BLOCK", EnumConst("YesNo", "YES"), "BlockPlacement", "BlockPlacementYes"),
      Row("PLACEMENT_ITEM", "PLACE_BLOCK", EnumConst("YesNo", "NO"), "BlockPlacement", "BlockPlacementNo"),
      Row("SCHEDULING_DEFAULT", "SCHEDULING_MODE", EnumConst("SchedulingMode", "DEFAULT"), "SchedulingMode", "SchedulingModeDefault"),
      Row("SCHEDULING_ROUND_ROBIN", "SCHEDULING_MODE", EnumConst("SchedulingMode", "ROUNDROBIN"), "SchedulingMode", "SchedulingModeRoundRobin"),
      Row("SCHEDULING_RANDOM", "SCHEDULING_MODE", EnumConst("SchedulingMode", "RANDOM"), "SchedulingMode", "SchedulingModeRandom"),
      Row("OVERLAY_OFF", "OVERLAY_MODE", EnumConst("YesNo", "NO"), "OverlayMode", "OverlayModeNo"),
      Row("OVERLAY_ON", "OVERLAY_MODE", EnumConst("YesNo", "YES"), "OverlayMode", "OverlayModeYes"),
      Row("FILTER_ON_EXTRACT_ENABLED", "FILTER_ON_EXTRACT", EnumConst("YesNo", "YES"), "FilterOnExtract", "FilterOnExtractEnabled"),
      Row("FILTER_ON_EXTRACT_DISABLED", "FILTER_ON_EXTRACT", EnumConst("YesNo", "NO"), "FilterOnExtract", "FilterOnExtractDisabled"),
      Row("UNLOCKED", "LOCK_CRAFTING_MODE", EnumConst("LockCraftingMode", "NONE"), "LockCraftingMode", "LockCraftingModeNone"),
      Row("REDSTONE_LOW", "LOCK_CRAFTING_MODE", EnumConst("LockCraftingMode", "LOCK_WHILE_HIGH"), "LockCraftingMode", "LockCraftingWhileRedstoneHigh"),
      Row("REDSTONE_HIGH", "LOCK_CRAFTING_MODE", EnumConst("LockCraftingMode", "LOCK_WHILE_LOW"), "LockCraftingMode", "LockCraftingWhileRedstoneLow"),
      Row("REDSTONE_PULSE", "LOCK_CRAFTING_MODE", EnumConst("LockCraftingMode", "LOCK_UNTIL_PULSE"), "LockCraftingMode", "LockCraftingUntilRedstonePulse"),
      Row("ENTER", "LOCK_CRAFTING_MODE", EnumConst("LockCraftingMode", "LOCK_UNTIL_RESULT"), "LockCraftingMode", "LockCraftingUntilResultReturned")
    ]

  /** The shared `appearances` map; `table` is `None` while it is null. */
  class Appearances {
    var table: Option<AppearanceTable>

    constructor ()
      ensures table == None
    {
      table := None;
    }

    /** `registerApp` for an icon: stores the icon and the title followed by the tooltip lines. */
    method RegisterIcon(icon: Icon, setting: SettingId, value: EnumConst, title: ToolTip, tooltipLines: seq<Component>)
      requires table.Some?
      modifies this
      ensures table == Some(old(table.value)[EnumPair(setting, value) := IconAppearance(icon, title, tooltipLines)])
    {
      var lines := [Text(title)] + tooltipLines;
      table := Some(table.value[EnumPair(setting, value) := ButtonAppearance(Some(icon), None, lines)]);
    }

    /** `registerApp` for an item: stores the item and the title followed by the tooltip lines. */
    method RegisterItem(item: Item, setting: SettingId, value: EnumConst, title: ToolTip, tooltipLines: seq<Component>)
      requires table.Some?
      modifies this
      ensures table == Some(old(table.value)[EnumPair(setting, value) := ItemAppearance(item, title, tooltipLines)])
    {
      var lines := [Text(title)] + tooltipLines;
      table := Some(table.value[EnumPair(setting, value) := ButtonAppearance(None, Some(item), lines)]);
    }

    /** `registerApp` with a single hint: the icon form with the hint's text as the one tooltip line. */
    method RegisterHint(icon: Icon, setting: SettingId, value: EnumConst, title: ToolTip, hint: ToolTip)
      requires table.Some?
      modifies this
      ensures table == Some(old(table.value)[EnumPair(setting, value) := IconAppearance(icon, title, [Text(hint)])])
    {
      RegisterIcon(icon, setting, value, title, [Text(hint)]);
    }

    /**
     * The initialisation in the constructor: only while the map is null,
     * a new map receives the default registrations one after another.
     */
    method EnsureInitialised()
      modifies this
      ensures old(table).Some? ==> table == old(table)
      ensures old(table).None? ==> table == Some(TableOf(DefaultRegistrations))
    {
      if table.None? {
        table := Some(map[]);
        var i := 0;
        while i < |DefaultRegistrations|
          invariant 0 <= i <= |DefaultRegistrations|
          invariant table == Some(TableOf(DefaultRegistrations[..i]))
        {
          var r := DefaultRegistrations[i];
          assert DefaultRegistrations[..i + 1][..i] == DefaultRegistrations[..i];
          RegisterHint(r.icon, r.setting, r.value, r.title, r.hint);
          i := i + 1;
        }
        assert DefaultRegistrations[..|DefaultRegistrations|] == DefaultRegistrations;
      }
    }
  }

  // ---------------------------------------------------------------------
  // Lookups
  // ---------------------------------------------------------------------

  /** `getApperance`: the entry for (setting, value), or none if either is null or nothing is registered. */
  function Lookup(m: AppearanceTable, setting: Option<SettingId>, value: Option<EnumConst>): (r: Option<ButtonAppearance>)
    ensures r.Some? <==> setting.Some? && value.Some? && EnumPair(setting.value, value.value) in m
    ensures r.Some? ==> r.value == m[EnumPair(setting.value, value.value)]
  {
    if setting.Some? && value.Some? && EnumPair(setting.value, value.value) in m
    then Some(m[EnumPair(setting.value, value.value)])
    else None
  }

  /** `getIcon`: the registered icon, otherwise the plain button background. */
  function IconFor(m: AppearanceTable, setting: Option<SettingId>, value: Option<EnumConst>): (i: Icon)
    ensures Lookup(m, setting, value).Some? && Lookup(m, setting, value).value.icon.Some? ==>
      i == Lookup(m, setting, value).value.icon.value
    ensures i != ToolbarButtonBackground ==>
      setting.Some? && value.Some? && EnumPair(setting.value, value.value) in m &&
      m[EnumPair(setting.value, value.value)].icon == Some(i)
  {
    var app := Lookup(m, setting, value);
    if app.Some? && app.value.icon.Some? then app.value.icon.value else ToolbarButtonBackground
  }

  /** `getItemOverlay`: the registered item, otherwise none. */
  function ItemOverlayFor(m: AppearanceTable, setting: Option<SettingId>, value: Option<EnumConst>): (r: Option<Item>)
    ensures r.Some? <==>
      setting.Some? && value.Some? && EnumPair(setting.value, value.value) in m &&
      m[EnumPair(setting.value, value.value)].item.Some?
    ensures r.Some? ==> r == m[EnumPair(setting.value, value.value)].item
  {
    var app := Lookup(m, setting, value);
    if app.Some? && app.value.item.Some? then app.value.item else None
  }

  /** `getTooltipMessage`: nothing without a setting and value, a fixed line if unregistered, else the stored lines. */
  function TooltipMessage(m: AppearanceTable, setting: Option<SettingId>, value: Option<EnumConst>): (lines: seq<Component>)
    ensures setting.None? || value.None? ==> lines == []
    ensures setting.Some? && value.Some? && EnumPair(setting.value, value.value) !in m ==> lines == [NoSuchMessage]
    ensures setting.Some? && value.Some? && EnumPair(setting.value, value.value) in m ==>
      lines == m[EnumPair(setting.value, value.value)].tooltipLines
  {
    if setting.None? || value.None? then []
    else
      var key := EnumPair(setting.value, value.value);
      if key !in m then [NoSuchMessage] else m[key].tooltipLines
  }

  // ---------------------------------------------------------------------
  // The button
  // ---------------------------------------------------------------------

  class SettingToggleButton {
    const registry: Appearances
    const buttonSetting: Setting
    /** The values the button may take, in declaration order. */
    const validValues: seq<EnumConst>
    var currentValue: Option<EnumConst>

    ghost predicate Valid()
      reads this, registry
    {
      registry.table.Some?
    }

    /**
     * The constructor with a validity predicate. `constants` are the
     * constants of `val`'s enum class in declaration order.
     */
    constructor WithPredicate(registry: Appearances, setting: Setting, val: EnumConst,
                              isValidValue: EnumConst -> bool, constants: seq<EnumConst>)
      modifies registry
      ensures Valid()
      ensures this.registry == registry && buttonSetting == setting && currentValue == Some(val)
      ensures forall x :: x in validValues <==> x in constants && isValidValue(x) && x in setting.values
      ensures Distinct(constants) ==> Distinct(validValues)
      ensures old(registry.table).Some? ==> registry.table == old(registry.table)
      ensures old(registry.table).None? ==> registry.table == Some(TableOf(DefaultRegistrations))
    {
      var values := ValidValues(constants, isValidValue, setting);
      this.registry := registry;
      validValues := values;
      buttonSetting := setting;
      currentValue := Some(val);
      new;
      registry.EnsureInitialised();
    }

    /** The constructor without a predicate: every constant passes it. */
    constructor (registry: Appearances, setting: Setting, val: EnumConst, constants: seq<EnumConst>)
      modifies registry
      ensures Valid()
      ensures this.registry == registry && buttonSetting == setting && currentValue == Some(val)
      ensures forall x :: x in validValues <==> x in constants && x in setting.values
      ensures Distinct(constants) ==> Distinct(validValues)
      ensures old(registry.table).Some? ==> registry.table == old(registry.table)
      ensures old(registry.table).None? ==> registry.table == Some(TableOf(DefaultRegistrations))
    {
      var values := ValidValues(constants, _ => true, setting);
      this.registry := registry;
      validValues := values;
      buttonSetting := setting;
      currentValue := Some(val);
      new;
      registry.EnsureInitialised();
    }

    /** `getSetting`: the setting the button was built with. */
    function GetSetting(): (s: Setting)
      reads this
      ensures s == buttonSetting
    {
      buttonSetting
    }

    /** `getCurrentValue`: the value the button shows now. */
    function GetCurrentValue(): (v: Option<EnumConst>)
      reads this
      ensures v == currentValue
    {
      currentValue
    }

    /** `set`: the button now shows `e`; its setting and valid values are constants. */
    method Set(e: Option<EnumConst>)
      requires Valid()
      modifies this`currentValue
      ensures Valid()
      ensures GetCurrentValue() == e
    {
      if currentValue != e {
        currentValue := e;
      }
    }

    /** `getIcon`: the icon registered for this button's (setting, value), otherwise the plain background. */
    function GetIcon(): (i: Icon)
      reads this, registry
      requires Valid()
      ensures var m := registry.table.value;
        if currentValue.Some? && EnumPair(buttonSetting.name, currentValue.value) in m
           && m[EnumPair(buttonSetting.name, currentValue.value)].icon.Some?
        then i == m[EnumPair(buttonSetting.name, currentValue.value)].icon.value
        else i == ToolbarButtonBackground
    {
      IconFor(registry.table.value, Some(buttonSetting.name), currentValue)
    }

    /** `getItemOverlay`: the item registered for this button's (setting, value), otherwise none. */
    function GetItemOverlay(): (r: Option<Item>)
      reads this, registry
      requires Valid()
      ensures var m := registry.table.value;
        if currentValue.Some? && EnumPair(buttonSetting.name, currentValue.value) in m
        then r == m[EnumPair(buttonSetting.name, currentValue.value)].item
        else r == None
    {
      ItemOverlayFor(registry.table.value, Some(buttonSetting.name), currentValue)
    }

    /** `getTooltipMessage`: nothing without a value, a fixed line if this button's pair is unregistered, else its lines. */
    function GetTooltipMessage(): (lines: seq<Component>)
      reads this, registry
      requires Valid()
      ensures currentValue.None? ==> lines == []
      ensures currentValue.Some? ==> var key := EnumPair(buttonSetting.name, currentValue.value);
        lines == if key in registry.table.value then registry.table.value[key].tooltipLines else [NoSuchMessage]
    {
      TooltipMessage(registry.table.value, Some(buttonSetting.name), currentValue)
    }
  }
}
