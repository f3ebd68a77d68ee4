/**
 * Properties of the setting toggle button: what a registration makes the
 * lookups return, which registration a key ends up with, the shared table
 * across buttons, and the equality and hashing of table keys.
 */
module SettingToggleButtonLemmas {
  import opened Wrappers
  import opened SettingToggleButton

  // ---------------------------------------------------------------------
  // Registration and lookup
  // ---------------------------------------------------------------------

  /** After registering an icon for (setting, value), the button shows that icon, no item, and the title then the lines. */
  lemma RegisteredIconIsShown(m: AppearanceTable, setting: SettingId, value: EnumConst,
                              icon: Icon, title: ToolTip, lines: seq<Component>)
    ensures var m' := m[EnumPair(setting, value) := IconAppearance(icon, title, lines)];
      && IconFor(m', Some(setting), Some(value)) == icon
      && ItemOverlayFor(m', Some(setting), Some(value)) == None
      && TooltipMessage(m', Some(setting), Some(value)) == [Text(title)] + lines
  {
  }

  /** After registering an item for (setting, value), the button shows the background icon, that item, and the lines. */
  lemma RegisteredItemIsShown(m: AppearanceTable, setting: SettingId, value: EnumConst,
                              item: Item, title: ToolTip, lines: seq<Component>)
    ensures var m' := m[EnumPair(setting, value) := ItemAppearance(item, title, lines)];
      && IconFor(m', Some(setting), Some(value)) == ToolbarButtonBackground
      && ItemOverlayFor(m', Some(setting), Some(value)) == Some(item)
      && TooltipMessage(m', Some(setting), Some(value)) == [Text(title)] + lines
  {
  }

  /** A registration leaves what every other (setting, value) shows unchanged. */
  lemma RegistrationKeepsOtherKeys(m: AppearanceTable, key: EnumPair, app: ButtonAppearance,
                                   setting: SettingId, value: EnumConst)
    requires EnumPair(setting, value) != key
    ensures IconFor(m[key := app], Some(setting), Some(value)) == IconFor(m, Some(setting), Some(value))
    ensures ItemOverlayFor(m[key := app], Some(setting), Some(value)) == ItemOverlayFor(m, Some(setting), Some(value))
    ensures TooltipMessage(m[key := app], Some(setting), Some(value)) == TooltipMessage(m, Some(setting), Some(value))
  {
  }

  /** An unregistered pair falls back on every lookup. */
  lemma UnregisteredFallbacks(m: AppearanceTable, setting: SettingId, value: EnumConst)
    requires EnumPair(setting, value) !in m
    ensures IconFor(m, Some(setting), Some(value)) == ToolbarButtonBackground
    ensures ItemOverlayFor(m, Some(setting), Some(value)) == None
    ensures TooltipMessage(m, Some(setting), Some(value)) == [NoSuchMessage]
  {
  }

  /** A registration that no later registration overrides is the one the table keeps. */
  lemma {:induction false} LastRegistrationWins(regs: seq<Registration>, i: nat)
    requires i < |regs|
    requires forall j :: i < j < |regs| ==> KeyOf(regs[j]) != KeyOf(regs[i])
    ensures KeyOf(regs[i]) in TableOf(regs)
    ensures TableOf(regs)[KeyOf(regs[i])] == AppearanceOf(regs[i])
    decreases |regs|
  {
    if i < |regs| - 1 {
      LastRegistrationWins(regs[..|regs| - 1], i);
    }
  }

  /** Every entry the initialisation makes is some registration's icon with its title line and hint line, and no item. */
  lemma {:induction false} TableEntriesAreIconsWithHint(regs: seq<Registration>, key: EnumPair)
    requires key in TableOf(regs)
    ensures TableOf(regs)[key].icon.Some? && TableOf(regs)[key].item.None?
    ensures |TableOf(regs)[key].tooltipLines| == 2
    ensures exists r :: r in regs && KeyOf(r) == key && TableOf(regs)[key] == AppearanceOf(r)
    decreases |regs|
  {
    var last := regs[|regs| - 1];
    if key != KeyOf(last) {
      var init := regs[..|regs| - 1];
      TableEntriesAreIconsWithHint(init, key);
      var r :| r in init && KeyOf(r) == key && TableOf(init)[key] == AppearanceOf(r);
      assert r in regs;
    }
  }

  /** A registration that no later one overrides is what the button on its (setting, value) shows. */
  lemma RegistrationShown(regs: seq<Registration>, i: nat)
    requires i < |regs|
    requires forall j :: i < j < |regs| ==> KeyOf(regs[j]) != KeyOf(regs[i])
    ensures IconFor(TableOf(regs), Some(regs[i].setting), Some(regs[i].value)) == regs[i].icon
    ensures ItemOverlayFor(TableOf(regs), Some(regs[i].setting), Some(regs[i].value)) == None
    ensures TooltipMessage(TableOf(regs), Some(regs[i].setting), Some(regs[i].value)) == [Text(regs[i].title), Text(regs[i].hint)]
  {
    LastRegistrationWins(regs, i);
  }

  /** A button on (ACCESS, READ) shows the ACCESS_READ icon, no item, and the IOMode title with the Read hint. */
  lemma DefaultAccessReadAppearance()
    ensures var m := TableOf(DefaultRegistrations);
      var access := Some("ACCESS");
      var read := Some(EnumConst("AccessRestriction", "READ"));
      && IconFor(m, access, read) == Icon("ACCESS_READ")
      && ItemOverlayFor(m, access, read) == None
      && TooltipMessage(m, access, read) == [Text(ToolTip("IOMode")), Text(ToolTip("Read"))]
  {
    var d := DefaultRegistrations;
    assert forall j :: 0 < j < |d| ==> KeyOf(d[j]) != KeyOf(d[0]);
    RegistrationShown(d, 0);
  }

  /**
   * YES is a value of several settings; a button on (BLOCKING_MODE, YES)
   * still shows its own registration, not another setting's YES.
   */
  lemma DefaultBlockingYesAppearance()
    ensures var m := TableOf(DefaultRegistrations);
      var blocking := Some("BLOCKING_MODE");
      var yes := Some(EnumConst("YesNo", "YES"));
      && IconFor(m, blocking, yes) == Icon("BLOCKING_MODE_YES")
      && ItemOverlayFor(m, blocking, yes) == None
      && TooltipMessage(m, blocking, yes) == [Text(ToolTip("InterfaceBlockingMode")), Text(ToolTip("Blocking"))]
  {
    var d := DefaultRegistrations;
    assert forall j :: 20 < j < |d| ==> KeyOf(d[j]) != KeyOf(d[20]);
    RegistrationShown(d, 20);
  }

  // ---------------------------------------------------------------------
  // EnumPair
  // ---------------------------------------------------------------------

  /**
   * Equal pairs hash alike, whatever the identity hashes are: the
   * consistency of `equals` and `hashCode` a `HashMap` key relies on. It
   * holds here because setting identity is modelled as name equality and
   * the hash as a function of the components; it is not a proof about Java
   * object identity.
   */
  lemma EqualPairsHashAlike(p: EnumPair, q: EnumPair, settingHash: SettingId -> bv32, valueHash: EnumConst -> bv32)
    requires Equals(p, PairObject(q))
    ensures HashCode(p, settingHash, valueHash) == HashCode(q, settingHash, valueHash)
  {
  }

  /** `equals` is reflexive and symmetric on pairs, and never true for null or another class. */
  lemma EqualsIsIdentityOnComponents(p: EnumPair, q: EnumPair, id: nat)
    ensures Equals(p, PairObject(p))
    ensures Equals(p, PairObject(q)) <==> Equals(q, PairObject(p))
    ensures Equals(p, PairObject(q)) <==> p.setting == q.setting && p.value == q.value
    ensures !Equals(p, Null) && !Equals(p, OtherObject(id))
  {
  }

  // ---------------------------------------------------------------------
  // A client
  // ---------------------------------------------------------------------

  /** The first button fills the shared table; a second button leaves it as it is; `set` changes only the value. */
  method TwoButtonsShareOneTable(setting: Setting, a: EnumConst, b: EnumConst, constants: seq<EnumConst>)
  {
    var registry := new Appearances();
    var first := new SettingToggleButton(registry, setting, a, constants);
    ghost var built := registry.table;
    assert built == Some(TableOf(DefaultRegistrations));
    var second := new SettingToggleButton.WithPredicate(registry, setting, b, x => x == b, constants);
    assert registry.table == built;
    assert forall x :: x in second.validValues ==> x == b;
    second.Set(Some(a));
    assert second.GetCurrentValue() == Some(a) && second.GetSetting() == setting;
    assert first.GetCurrentValue() == Some(a);
  }
}
