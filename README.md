# Spatial IO port and setting toggle button, in Dafny

This project models two parts of Applied Energistics 2.

**The spatial IO port block entity** (`SpatialIOPortBlockEntity`) is modelled by the module `SpatialIOPort` in `spatial_io_port.dfy`, with its lemmas in `spatial_io_port_lemmas.dfy`. The entity is a class with three parts:
- the tri-state redstone latch `lastRedstoneState` (`No`, `Yes`, `Undecided`);
- the two-slot inventory `inv`, an array where slot 0 is the input and slot 1 the output;
- a ghost queue `pending` of the callables the entity has handed to the tick handler.

A rising redstone edge enqueues the entity, but only on the server and only when the input holds a spatial cell. The deferred `Call` then re-checks the slots, the claimed region, the simulated power, the veto event and the cell's transition. Only if the transition succeeds does it extract the required power (MODULATE) and move the cell to the output slot.

The collaborators are given as plain values:
- the world's redstone power (`power`);
- the server flag (`isServer`);
- the spatial pylon cache, the energy grid's SIMULATE answer, the event verdict, the security owner and the transition's success, together in one `Network` value.

`Call` returns, in order, the calls that act on the collaborators: the SIMULATE and MODULATE extractions, the event post and the transition. The queries (region, required power, event verdict, security owner) are answered by the `Network` value and are not in the trace. Its contract ties the new inventory and the trace to the function `CallSpec`. The lemmas state what the code promises about `CallSpec`:
- the cell moves iff every guard holds;
- exactly one MODULATE extraction of the requirement happens iff every guard holds, and none otherwise;
- the deduction comes only after the transition.

**The setting toggle button** (`SettingToggleButton`) is modelled by the module `SettingToggleButton` in `setting_toggle_button.dfy`, with its lemmas in `setting_toggle_button_lemmas.dfy`. It covers:
- the valid values a button is built with: the enum's constants, filtered by a predicate and by the setting's allowed values;
- the process-wide appearance table, keyed by (setting, value) and filled once, by the first button constructed;
- the icon, item-overlay and tooltip lookups, each with its fallback.

The static map is an `Appearances` object shared by all buttons, with `None` standing for null. Icons, items and tooltip texts are opaque tokens named after the program's constants.

`wrappers.dfy` holds the `Option` type used for nullable values.

Three facts about the code are worth stating, since each is easy to get wrong:
- **Deduction order.** Power is extracted in MODULATE mode only after the cell's transition reports success (`SpatialIOPortBlockEntity.java:137-143`). A failed transition deducts nothing (`FailedTransitionDeductsNothing`).
- **First sample.** A fresh entity's latch is `UNDECIDED`, and `UNDECIDED -> YES` counts as a change, so the first powered sample triggers the transition (`SpatialIOPortBlockEntity.java:91-95`, `UndecidedToYesFires`).
- **Where the checks run.** The trigger checks only that it runs on the server and that the input slot holds a spatial cell (`SpatialIOPortBlockEntity.java:99-106`). The power simulation, the event and the transition all run inside the deferred `call`.

## Model

| member | source | states |
|---|---|---|
| SpatialIOPort.Ordinal | src/main/java/appeng/tile/spatial/SpatialIOPortBlockEntity.java:69 | `ordinal()` of the latch is below 3, the number of `YesNo` constants, and `FromOrdinal` inverts it |
| SpatialIOPort.FromOrdinal | src/main/java/appeng/tile/spatial/SpatialIOPortBlockEntity.java:77 | `YesNo.values()[i]` is the constant whose ordinal is `i` |
| SpatialIOPort.WriteLatch | src/main/java/appeng/tile/spatial/SpatialIOPortBlockEntity.java:66-71 | the saved tag holds the latch ordinal under `lastRedstoneState`, and every other entry is kept |
| SpatialIOPort.ReadLatch | src/main/java/appeng/tile/spatial/SpatialIOPortBlockEntity.java:73-79 | a present key sets the latch to the stored ordinal; an absent key leaves the latch as it was |
| SpatialIOPort.Sample | src/main/java/appeng/tile/spatial/SpatialIOPortBlockEntity.java:90 | the sampled state is never UNDECIDED, and it is YES iff the neighbours' power is nonzero |
| SpatialIOPort.Fires | src/main/java/appeng/tile/spatial/SpatialIOPortBlockEntity.java:91-95 | an update triggers iff the power is nonzero and the latch was not already YES |
| SpatialIOPort.IsSpatialCell | src/main/java/appeng/tile/spatial/SpatialIOPortBlockEntity.java:108-114 | false for an empty stack or a non-cell item; otherwise the cell's own `isSpatialStorage` answer |
| SpatialIOPort.AllowExtract | src/main/java/appeng/tile/spatial/SpatialIOPortBlockEntity.java:181-183 | automation may extract from slot 1 and from no other slot |
| SpatialIOPort.AllowInsert | src/main/java/appeng/tile/spatial/SpatialIOPortBlockEntity.java:186-188 | automation may insert only into slot 0, and every spatial cell is accepted there |
| SpatialIOPort.Enqueued | src/main/java/appeng/tile/spatial/SpatialIOPortBlockEntity.java:99-106 | a trigger enqueues exactly one callable (for any world) iff on the server with a spatial cell in slot 0, else nothing |
| SpatialIOPort.SpatialIOPortEntity.constructor | src/main/java/appeng/tile/spatial/SpatialIOPortBlockEntity.java:57-59 | a new entity has two empty slots, an UNDECIDED latch and nothing enqueued |
| SpatialIOPort.SpatialIOPortEntity.ToTag | src/main/java/appeng/tile/spatial/SpatialIOPortBlockEntity.java:66-71 | `toTag` returns the tag with the current latch written into it |
| SpatialIOPort.SpatialIOPortEntity.FromTag | src/main/java/appeng/tile/spatial/SpatialIOPortBlockEntity.java:73-79 | `fromTag` sets the latch from the tag if the key is present, else leaves it |
| SpatialIOPort.SpatialIOPortEntity.GetRedstoneState | src/main/java/appeng/tile/spatial/SpatialIOPortBlockEntity.java:81-87 | samples (and may trigger) only while UNDECIDED, otherwise changes nothing; returns true iff the latch is YES |
| SpatialIOPort.SpatialIOPortEntity.UpdateRedstoneState | src/main/java/appeng/tile/spatial/SpatialIOPortBlockEntity.java:89-97 | the latch becomes the sample; the queue grows by the trigger's callables iff the latch changed to YES |
| SpatialIOPort.SpatialIOPortEntity.TriggerTransition | src/main/java/appeng/tile/spatial/SpatialIOPortBlockEntity.java:99-106 | appends one callable for any world iff on the server with a spatial cell in slot 0 |
| SpatialIOPort.SpatialIOPortEntity.Call | src/main/java/appeng/tile/spatial/SpatialIOPortBlockEntity.java:116-150 | the new inventory and the ordered trace of extractions, event post and transition are those of `CallSpec` on the old inventory; `CallSpec` runs the guards in source order (`CommitGuards` collects them), attributes the transition to `PlayerId` (the owner, or -1 without security, :132-135) and tests power with `WithinTolerance` |
| SpatialIOPort.WithinTolerance | src/main/java/appeng/tile/spatial/SpatialIOPortBlockEntity.java:129 | the power check passes iff the simulated amount lies strictly within 0.1% of the requirement on either side, which needs a positive requirement |
| SpatialIOPortLemmas.OrdinalRoundTrip | src/main/java/appeng/tile/spatial/SpatialIOPortBlockEntity.java:69-77 | reading back an ordinal gives the same latch value |
| SpatialIOPortLemmas.LatchPersistenceRoundTrip | src/main/java/appeng/tile/spatial/SpatialIOPortBlockEntity.java:66-79 | loading a saved tag restores the saved latch, whatever the latch was before loading |
| SpatialIOPortLemmas.AbsentLatchKeepsState | src/main/java/appeng/tile/spatial/SpatialIOPortBlockEntity.java:76-78 | a tag without the key is loadable and leaves the latch unchanged (UNDECIDED on a fresh entity) |
| SpatialIOPortLemmas.FireTraceAt | src/main/java/appeng/tile/spatial/SpatialIOPortBlockEntity.java:89-97 | over a run of updates, update i triggers iff its power is nonzero and the previous sample was zero (or, for the first, the latch was not YES) |
| SpatialIOPortLemmas.SustainedPowerNeverRefires | src/main/java/appeng/tile/spatial/SpatialIOPortBlockEntity.java:91 | an update whose previous sample was already powered never triggers |
| SpatialIOPortLemmas.PowerOnAfterOffFires | src/main/java/appeng/tile/spatial/SpatialIOPortBlockEntity.java:91-95 | a powered update after an unpowered one always triggers |
| SpatialIOPortLemmas.UndecidedToYesFires | src/main/java/appeng/tile/spatial/SpatialIOPortBlockEntity.java:89-95 | power triggers from UNDECIDED and from NO, never from YES |
| SpatialIOPortLemmas.OffOnOnOffOnTrace | src/main/java/appeng/tile/spatial/SpatialIOPortBlockEntity.java:89-97 | from a fresh latch, samples off, on, on, off, on trigger exactly at the second and the fifth |
| SpatialIOPortLemmas.CallMovesCellIffGuards | src/main/java/appeng/tile/spatial/SpatialIOPortBlockEntity.java:116-147 | the slots change iff every guard (cell, empty output, valid region, tolerance, no veto, transition success) holds, and then slot 0 is empty and slot 1 holds the cell |
| SpatialIOPortLemmas.CallDeductsOnlyOnCommit | src/main/java/appeng/tile/spatial/SpatialIOPortBlockEntity.java:137-143 | the MODULATE extractions of a call are exactly `[req]` when every guard holds, and none otherwise |
| SpatialIOPortLemmas.DeductionFollowsTransition | src/main/java/appeng/tile/spatial/SpatialIOPortBlockEntity.java:128-143 | a MODULATE extraction is the last call and comes right after the transition; before the transition, extractions are SIMULATE only |
| SpatialIOPortLemmas.FailedTransitionDeductsNothing | src/main/java/appeng/tile/spatial/SpatialIOPortBlockEntity.java:137-143 | when the transition fails, it was attempted, but the slots are unchanged and nothing is deducted |
| SpatialIOPortLemmas.EventOnlyAfterPowerCheck | src/main/java/appeng/tile/spatial/SpatialIOPortBlockEntity.java:127-131 | the spatial event is posted only after a SIMULATE extraction that was within tolerance |
| SpatialIOPortLemmas.ZeroRequirementNeverCommits | src/main/java/appeng/tile/spatial/SpatialIOPortBlockEntity.java:127-129 | a region requiring no power never passes the strict tolerance test, so nothing moves |
| SpatialIOPortLemmas.ToleranceExamples | src/main/java/appeng/tile/spatial/SpatialIOPortBlockEntity.java:129 | an exact supply passes the 0.1% test and a supply 10% short fails it |
| SpatialIOPortLemmas.InsufficientPowerScenario | src/main/java/appeng/tile/spatial/SpatialIOPortBlockEntity.java:126-131 | with 1000 required and 900 simulated, the call only simulates: no event, no transition, no deduction, no move |
| SpatialIOPortLemmas.FilterMatchesCallInput | src/main/java/appeng/tile/spatial/SpatialIOPortBlockEntity.java:179-190 | automation inserts exactly what `call` accepts as input, nowhere but slot 0, and cannot extract the input |
| SettingToggleButton.Equals | src/main/java/appeng/client/gui/widgets/SettingToggleButton.java:316-326 | `equals` holds exactly for another pair with the same setting and value; never for null or another class |
| SettingToggleButton.HashCode | src/main/java/appeng/client/gui/widgets/SettingToggleButton.java:310-314 | `hashCode` is the XOR of the setting's and the value's identity hashes: XOR-ing either one back out gives the other |
| SettingToggleButton.Without | src/main/java/appeng/client/gui/widgets/SettingToggleButton.java:81-82 | after `removeIf`, an element remains iff it was present and not rejected, and distinct elements stay distinct |
| SettingToggleButton.RemoveIf | src/main/java/appeng/client/gui/widgets/SettingToggleButton.java:81-82 | the one-pass removal loop computes exactly `Without` |
| SettingToggleButton.ValidValues | src/main/java/appeng/client/gui/widgets/SettingToggleButton.java:79-83 | the valid values are exactly the enum constants that pass the predicate and that the setting allows |
| SettingToggleButton.IconAppearance | src/main/java/appeng/client/gui/widgets/SettingToggleButton.java:215-224 | an icon registration stores the icon, no item, and the title line followed by the tooltip lines |
| SettingToggleButton.ItemAppearance | src/main/java/appeng/client/gui/widgets/SettingToggleButton.java:226-235 | an item registration stores no icon, the item, and the title line followed by the tooltip lines |
| SettingToggleButton.TableOf | src/main/java/appeng/client/gui/widgets/SettingToggleButton.java:88-195 | the keys of the built table are exactly the keys of the registrations |
| SettingToggleButton.Appearances.constructor | src/main/java/appeng/client/gui/widgets/SettingToggleButton.java:58 | the shared table starts out null |
| SettingToggleButton.Appearances.RegisterIcon | src/main/java/appeng/client/gui/widgets/SettingToggleButton.java:215-224 | `registerApp` with an icon puts the icon appearance under (setting, value), and changes no other key |
| SettingToggleButton.Appearances.RegisterItem | src/main/java/appeng/client/gui/widgets/SettingToggleButton.java:226-235 | `registerApp` with an item puts the item appearance under (setting, value), and changes no other key |
| SettingToggleButton.Appearances.RegisterHint | src/main/java/appeng/client/gui/widgets/SettingToggleButton.java:237-240 | the hint overload stores the icon with the title and the hint's text as the only tooltip line |
| SettingToggleButton.Appearances.EnsureInitialised | src/main/java/appeng/client/gui/widgets/SettingToggleButton.java:88-195 | a null table becomes the table of the 40 default registrations; an existing table is left untouched |
| SettingToggleButton.Lookup | src/main/java/appeng/client/gui/widgets/SettingToggleButton.java:242-248 | the appearance is present iff setting and value are non-null and registered, and it is the stored one |
| SettingToggleButton.IconFor | src/main/java/appeng/client/gui/widgets/SettingToggleButton.java:250-257 | the registered icon if there is one, otherwise `TOOLBAR_BUTTON_BACKGROUND` |
| SettingToggleButton.ItemOverlayFor | src/main/java/appeng/client/gui/widgets/SettingToggleButton.java:259-266 | the registered item if there is one, otherwise none |
| SettingToggleButton.TooltipMessage | src/main/java/appeng/client/gui/widgets/SettingToggleButton.java:286-299 | empty for a null setting or value, the single `NoSuchMessage` line if unregistered, else the stored lines |
| SettingToggleButton.SettingToggleButton.WithPredicate | src/main/java/appeng/client/gui/widgets/SettingToggleButton.java:74-196 | the valid values are the constants passing the predicate and allowed by the setting; the value is `val`; the table is built only if null |
| SettingToggleButton.SettingToggleButton.constructor | src/main/java/appeng/client/gui/widgets/SettingToggleButton.java:69-72 | as the predicate constructor with an always-true predicate: the valid values are the constants the setting allows |
| SettingToggleButton.SettingToggleButton.Set | src/main/java/appeng/client/gui/widgets/SettingToggleButton.java:276-280 | afterwards the current value is `e`; the setting and the valid values are constants |
| SettingToggleButton.SettingToggleButton.GetSetting | src/main/java/appeng/client/gui/widgets/SettingToggleButton.java:268-270 | returns the setting the button was built with |
| SettingToggleButton.SettingToggleButton.GetCurrentValue | src/main/java/appeng/client/gui/widgets/SettingToggleButton.java:272-274 | returns the value the button shows now |
| SettingToggleButton.SettingToggleButton.GetIcon | src/main/java/appeng/client/gui/widgets/SettingToggleButton.java:242-257 | the icon registered in the shared table for the button's own (setting, current value), otherwise `TOOLBAR_BUTTON_BACKGROUND` |
| SettingToggleButton.SettingToggleButton.GetItemOverlay | src/main/java/appeng/client/gui/widgets/SettingToggleButton.java:242-266 | the item registered for the button's own (setting, current value), otherwise none |
| SettingToggleButton.SettingToggleButton.GetTooltipMessage | src/main/java/appeng/client/gui/widgets/SettingToggleButton.java:286-299 | empty without a current value, the `NoSuchMessage` line if the button's own pair is unregistered, else the stored lines |
| SettingToggleButtonLemmas.RegisteredIconIsShown | src/main/java/appeng/client/gui/widgets/SettingToggleButton.java:215-266 | after an icon registration for (s, v), the button on (s, v) shows that icon, no item, and the title followed by the lines |
| SettingToggleButtonLemmas.RegisteredItemIsShown | src/main/java/appeng/client/gui/widgets/SettingToggleButton.java:226-266 | after an item registration for (s, v), the button on (s, v) shows the background icon, that item, and the title followed by the lines |
| SettingToggleButtonLemmas.RegistrationKeepsOtherKeys | src/main/java/appeng/client/gui/widgets/SettingToggleButton.java:221-223 | a registration changes no lookup for any other (setting, value) |
| SettingToggleButtonLemmas.UnregisteredFallbacks | src/main/java/appeng/client/gui/widgets/SettingToggleButton.java:250-299 | an unregistered pair shows the background icon, no item, and the `NoSuchMessage` line |
| SettingToggleButtonLemmas.LastRegistrationWins | src/main/java/appeng/client/gui/widgets/SettingToggleButton.java:88-195 | the table keeps, for each key, the registration that no later one overrides |
| SettingToggleButtonLemmas.RegistrationShown | src/main/java/appeng/client/gui/widgets/SettingToggleButton.java:88-195 | a registration that no later one overrides is what a button on its (setting, value) shows: its icon, no item, and its title and hint lines |
| SettingToggleButtonLemmas.DefaultAccessReadAppearance | src/main/java/appeng/client/gui/widgets/SettingToggleButton.java:90-91 | after the initialisation, a button on (ACCESS, READ) shows `ACCESS_READ`, no item, and the `IOMode` title with the `Read` hint |
| SettingToggleButtonLemmas.DefaultBlockingYesAppearance | src/main/java/appeng/client/gui/widgets/SettingToggleButton.java:139-140 | after the initialisation, a button on (BLOCKING_MODE, YES) shows `BLOCKING_MODE_YES` with its own title and hint, although YES is registered under several settings |
| SettingToggleButtonLemmas.TableEntriesAreIconsWithHint | src/main/java/appeng/client/gui/widgets/SettingToggleButton.java:237-240 | every entry the initialisation makes is the appearance of a registration with that key: its icon, no item, and exactly its title line and its hint line |
| SettingToggleButtonLemmas.EqualPairsHashAlike | src/main/java/appeng/client/gui/widgets/SettingToggleButton.java:311-326 | equal pairs have equal hash codes, whatever the identity hashes are |
| SettingToggleButtonLemmas.EqualsIsIdentityOnComponents | src/main/java/appeng/client/gui/widgets/SettingToggleButton.java:316-326 | `equals` is reflexive and symmetric, is component-wise identity, and is false for null or another class |

## Left out

- World I/O: the neighbours' redstone power and `Platform.isServer()` are parameters.
- The tick handler: `TickHandler.addCallable` is modelled as appending to the ghost queue `pending`. Draining the queue at a world tick is not part of this model: `Call` is the callable's body, which the caller invokes.
- Energy grid, spatial pylon cache, event bus, security service and `doSpatialTransition`: their code is not part of this model. Their answers to queries come in as one `Network` value, and only the calls that act on them (the extractions, the event post and the transition) appear as `Effect`s in the returned trace. The grid's stored energy is not modelled, so a MODULATE extraction is an effect, not a change of balance.
- The change `doSpatialTransition` makes to the cell stack's own data is not modelled. The stack moved to slot 1 is the one read from slot 0.
- `getGrid()` and `getEnergy()` can throw when the node is not connected to a grid. That exception path is not modelled.
- Floating point: power values are `real`, and 0.001 is the exact rational. IEEE rounding and NaN are not modelled.
- `fromTag` with an ordinal outside the enum throws in the code. `FromTag` requires the stored ordinal to be in range instead.
- Only the integer entries of a compound tag are modelled. `super.toTag`/`super.fromTag` are not part of this model. `ToTag` returns the new tag as a value, whereas the code writes into the caller's tag and returns it.
- The ordinal order NO, YES, UNDECIDED of `YesNo` is assumed, since `YesNo` is not part of this model. The round-trip lemmas hold for any order.
- The entity constructor's `setFlags(REQUIRE_CHANNEL)`, `getCableConnectionType`, `getLocation`, `getItemHandlerForSide`, `getInternalInventory` and the empty `onChangeInventory` carry no logic and are not modelled.
- `SettingToggleButton.onPress`/`triggerPress` read the Minecraft screen and call the handler. They are not modelled.
- `getNextValue` delegates to `EnumCycler`, which is not part of this model.
- Setting identity (`==` on `Setting` objects) is modelled as equality of setting names. Enum constants are named by their class and constant name. The identity hash codes are parameters of `HashCode`.
- The constructors take the enum's constants (`EnumSet.allOf`) as a parameter, in declaration order. The button's setting is assumed non-null: `SettingToggleButton` is built with a `Setting` value, not an optional one. The three-argument constructor does dereference the setting, but the predicate constructor lets a null setting through when `isValidValue` rejects every constant, because the second `removeIf`, the only place that reads the setting, then has nothing to test. Such a button shows the null-setting fallbacks (an empty tooltip and the background icon); they are stated only on the pure `Lookup`, `IconFor` and `TooltipMessage`, which take the setting as an `Option`.
- The 40 successive `registerApp` calls of the initialisation are modelled as a loop over a literal table of their arguments, in source order.
- SettingToggleButtonLemmas.LastRegistrationWins: it is proved for any registration sequence. The 40 default keys are not proved pairwise distinct as a whole; the stored entry is derived only for the rows (ACCESS, READ) and (BLOCKING_MODE, YES), in `DefaultAccessReadAppearance` and `DefaultBlockingYesAppearance`.
- `SpatialPylonModel` and `BlockModelProvider` are rendering and data-generation code with no logic to model.
