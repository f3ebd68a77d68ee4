/**
 * Properties of the spatial IO port: persistence of the latch, which
 * redstone samples trigger a transition, and what the deferred call does to
 * the inventory and the energy grid.
 */
module SpatialIOPortLemmas {
  import opened SpatialIOPort

  // ---------------------------------------------------------------------
  // Persistence
  // ---------------------------------------------------------------------

  lemma OrdinalRoundTrip(s: YesNo)
    ensures FromOrdinal(Ordinal(s)) == s
  {
  }

  /** Loading what `toTag` wrote restores the latch, whatever it was before loading. */
  lemma LatchPersistenceRoundTrip(data: Tag, saved: YesNo, current: YesNo)
    ensures Loadable(WriteLatch(data, saved))
    ensures ReadLatch(WriteLatch(data, saved), current) == saved
  {
    OrdinalRoundTrip(saved);
  }

  /** A tag without the key leaves the latch alone; a fresh entity stays UNDECIDED. */
  lemma AbsentLatchKeepsState(data: Tag, current: YesNo)
    requires LatchKey !in data
    ensures Loadable(data) && ReadLatch(data, current) == current
  {
  }

  // ---------------------------------------------------------------------
  // The redstone latch over a run of samples
  // ---------------------------------------------------------------------

  /** For each sample of a run, whether that call of `updateRedstoneState` triggered. */
  function FireTrace(last: YesNo, powers: seq<nat>): (fires: seq<bool>)
    ensures |fires| == |powers|
    decreases |powers|
  {
    if powers == [] then []
    else [Fires(last, powers[0])] + FireTrace(Sample(powers[0]), powers[1..])
  }

  /**
   * The rising-edge reading of the trace: a sample triggers iff it is
   * powered and the sample before it was not (for the first sample: the
   * latch was not already YES, so UNDECIDED -> YES triggers too).
   */
  lemma {:induction false} FireTraceAt(last: YesNo, powers: seq<nat>, i: nat)
    requires i < |powers|
    ensures FireTrace(last, powers)[i] <==>
      powers[i] != 0 && (if i == 0 then last != Yes else powers[i - 1] == 0)
    decreases i
  {
    if i > 0 {
      FireTraceAt(Sample(powers[0]), powers[1..], i - 1);
    }
  }

  /** Another update with power still on never triggers again. */
  lemma SustainedPowerNeverRefires(last: YesNo, powers: seq<nat>, i: nat)
    requires 0 < i < |powers| && powers[i - 1] != 0
    ensures !FireTrace(last, powers)[i]
  {
    FireTraceAt(last, powers, i);
  }

  /** A change from off to on always triggers. */
  lemma PowerOnAfterOffFires(last: YesNo, powers: seq<nat>, i: nat)
    requires 0 < i < |powers| && powers[i - 1] == 0 && powers[i] != 0
    ensures FireTrace(last, powers)[i]
  {
    FireTraceAt(last, powers, i);
  }

  /** The first powered sample of a fresh entity triggers: UNDECIDED -> YES counts as a change. */
  lemma UndecidedToYesFires(power: nat)
    requires power != 0
    ensures Fires(Undecided, power) && Fires(No, power) && !Fires(Yes, power)
  {
  }

  /** Samples off, on, on, off, on from a fresh entity trigger at the second and fifth only. */
  lemma OffOnOnOffOnTrace()
    ensures FireTrace(Undecided, [0, 15, 15, 0, 15]) == [false, true, false, false, true]
  {
  }

  // ---------------------------------------------------------------------
  // The deferred call
  // ---------------------------------------------------------------------

  lemma {:induction false} DeductionsAppend(a: seq<Effect>, b: seq<Effect>)
    ensures Deductions(a + b) == Deductions(a) + Deductions(b)
  {
    if b == [] {
      assert a + b == a;
    } else {
      var b' := b[..|b| - 1];
      assert (a + b)[..|a + b| - 1] == a + b';
      DeductionsAppend(a, b');
    }
  }

  lemma DeductionsOfOne(e: Effect)
    ensures Deductions([e]) == if e.ExtractPower? && e.mode == Modulate then [e.amount] else []
  {
  }

  /** No extraction but SIMULATE is ever deducted from a trace without MODULATE steps. */
  lemma {:induction false} NoModulateNoDeductions(effects: seq<Effect>)
    requires forall i :: 0 <= i < |effects| ==> !(effects[i].ExtractPower? && effects[i].mode == Modulate)
    ensures Deductions(effects) == []
  {
    if effects != [] {
      NoModulateNoDeductions(effects[..|effects| - 1]);
    }
  }

  /**
   * `call` moves the cell from the input to the output slot iff every
   * guard holds, the transition's success included; otherwise the
   * inventory is unchanged.
   */
  lemma CallMovesCellIffGuards(slots: seq<ItemStack>, net: Network)
    requires |slots| == 2
    ensures CommitGuards(slots, net) ==> CallSpec(slots, net).slots == [Empty, slots[0]]
    ensures !CommitGuards(slots, net) ==> CallSpec(slots, net).slots == slots
    ensures CallSpec(slots, net).slots != slots <==> CommitGuards(slots, net)
  {
  }

  /** Exactly one MODULATE extraction, of the required power, iff every guard holds; none otherwise. */
  lemma CallDeductsOnlyOnCommit(slots: seq<ItemStack>, net: Network)
    requires |slots| == 2
    ensures Deductions(CallSpec(slots, net).effects) ==
      if CommitGuards(slots, net) then [net.spatial.requiredPower] else []
  {
    var e := CallSpec(slots, net).effects;
    if CommitGuards(slots, net) {
      var n := |e| - 1;
      assert e == e[..n] + [e[n]];
      DeductionsAppend(e[..n], [e[n]]);
      DeductionsOfOne(e[n]);
      NoModulateNoDeductions(e[..n]);
    } else {
      NoModulateNoDeductions(e);
    }
  }

  /** Power is only ever deducted right after the cell's transition; before it, only SIMULATE runs. */
  lemma DeductionFollowsTransition(slots: seq<ItemStack>, net: Network, i: nat)
    requires |slots| == 2
    requires i < |CallSpec(slots, net).effects|
    ensures var e := CallSpec(slots, net).effects;
      e[i].ExtractPower? && e[i].mode == Modulate ==>
        i == |e| - 1 && 0 < i && e[i - 1].DoSpatialTransition?
    ensures var e := CallSpec(slots, net).effects;
      forall j :: 0 <= j < i && e[i].DoSpatialTransition? && e[j].ExtractPower? ==> e[j].mode == Simulate
  {
  }

  /** A transition that fails leaves the slots and the energy grid alone, but was attempted. */
  lemma FailedTransitionDeductsNothing(slots: seq<ItemStack>, net: Network)
    requires |slots| == 2
    requires IsSpatialCell(slots[0]) && IsEmpty(slots[1])
    requires net.spatial.hasRegion && net.spatial.isValidRegion
    requires WithinTolerance(net.simulated, net.spatial.requiredPower) && !net.eventCanceled
    requires !net.transitionSucceeds
    ensures CallSpec(slots, net).slots == slots
    ensures Deductions(CallSpec(slots, net).effects) == []
    ensures CallSpec(slots, net).effects[|CallSpec(slots, net).effects| - 1].DoSpatialTransition?
  {
    CallDeductsOnlyOnCommit(slots, net);
  }

  /** The spatial event is posted only once the simulated extraction passed the tolerance. */
  lemma EventOnlyAfterPowerCheck(slots: seq<ItemStack>, net: Network)
    requires |slots| == 2
    requires PostSpatialEvent(net.spatial.requiredPower) in CallSpec(slots, net).effects
    ensures WithinTolerance(net.simulated, net.spatial.requiredPower)
    ensures CallSpec(slots, net).effects[0] == ExtractPower(net.spatial.requiredPower, Simulate)
  {
  }

  /** A region that needs no power never passes the tolerance check, so nothing moves. */
  lemma ZeroRequirementNeverCommits(slots: seq<ItemStack>, net: Network)
    requires |slots| == 2
    requires net.spatial.requiredPower <= 0.0
    ensures CallSpec(slots, net).slots == slots
    ensures |CallSpec(slots, net).effects| <= 1
  {
  }

  /** The tolerance accepts an exact supply and rejects one 10% short. */
  lemma ToleranceExamples(req: real)
    requires req > 0.0
    ensures WithinTolerance(req, req)
    ensures !WithinTolerance(req * 0.9, req)
  {
  }

  /** With 1000 required and 900 available, nothing is posted, deducted or moved. */
  lemma InsufficientPowerScenario(slots: seq<ItemStack>, net: Network)
    requires |slots| == 2 && IsSpatialCell(slots[0]) && IsEmpty(slots[1])
    requires net.spatial.hasRegion && net.spatial.isValidRegion
    requires net.spatial.requiredPower == 1000.0 && net.simulated == 900.0
    ensures CallSpec(slots, net) == CallOutcome(slots, [ExtractPower(1000.0, Simulate)])
  {
  }

  // ---------------------------------------------------------------------
  // The side filter
  // ---------------------------------------------------------------------

  /**
   * What automation may insert is exactly what `call` accepts as input,
   * and automation can never pull the input cell out.
   */
  lemma FilterMatchesCallInput(stack: ItemStack)
    ensures AllowInsert(0, stack) <==> IsSpatialCell(stack)
    ensures forall slot :: slot != 0 ==> !AllowInsert(slot, stack)
    ensures !AllowExtract(0)
  {
  }

  // ---------------------------------------------------------------------
  // A client
  // ---------------------------------------------------------------------

  /**
   * A fresh port with a cell in its input: power off, on, on enqueues one
   * call; the call moves the cell and deducts the requirement once; a
   * second call finds the input empty and does nothing.
   */
  method RisingEdgeScenario(cell: ItemStack, net: Network)
    requires CommitGuards([cell, Empty], net)
  {
    var port := new SpatialIOPortEntity();
    port.inv[0] := cell;
    port.UpdateRedstoneState(0, true);
    assert port.pending == [];
    port.UpdateRedstoneState(15, true);
    assert port.pending == [AnyWorld];
    port.UpdateRedstoneState(15, true);
    assert port.pending == [AnyWorld];
    assert port.inv[..] == [cell, Empty];
    CallMovesCellIffGuards([cell, Empty], net);
    CallDeductsOnlyOnCommit([cell, Empty], net);
    var effects := port.Call(net);
    assert port.inv[..] == [Empty, cell];
    assert Deductions(effects) == [net.spatial.requiredPower];
    var again := port.Call(net);
    assert again == [] && port.inv[..] == [Empty, cell];
  }
}
