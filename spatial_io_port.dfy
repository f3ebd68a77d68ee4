/**
 * The spatial IO port block entity: a redstone latch, a two-slot inventory
 * (slot 0 takes a spatial storage cell, slot 1 receives it after the
 * transition) and the deferred call that performs the spatial transition.
 *
 * The world, the energy grid, the spatial pylon cache, the event bus, the
 * security service and the cell's transition are collaborators whose code is
 * not part of this model: their answers come in as plain values (`power`,
 * `isServer`, `Network`). The calls that act on them (the SIMULATE and
 * MODULATE extractions, the event post and the transition) are returned, in
 * order, as a trace of `Effect`s; the queries are answered by `Network`.
 */
module SpatialIOPort {
  import opened Wrappers

  // ---------------------------------------------------------------------
  // The tri-state latch and its persistence
  // ---------------------------------------------------------------------

  /** The `YesNo` enum, constructors in declaration order NO, YES, UNDECIDED. */
  datatype YesNo = No | Yes | Undecided

  /** `YesNo.ordinal()`. */
  function Ordinal(s: YesNo): (i: nat)
    ensures i < 3
  {
    match s
    case No => 0
    case Yes => 1
    case Undecided => 2
  }

  /** `YesNo.values()[i]`; an ordinal outside the enum would throw. */
  function FromOrdinal(i: nat): (s: YesNo)
    requires i < 3
    ensures Ordinal(s) == i
  {
    if i == 0 then No else if i == 1 then Yes else Undecided
  }

  /** The integer entries of an NBT compound tag. */
  type Tag = map<string, int>

  const LatchKey: string := "lastRedstoneState"

  /** What `toTag` writes: the latch ordinal under its key, every other entry kept. */
  function WriteLatch(data: Tag, s: YesNo): (r: Tag)
    ensures LatchKey in r && r[LatchKey] == Ordinal(s)
    ensures r.Keys == data.Keys + {LatchKey}
    ensures forall k :: k in data && k != LatchKey ==> r[k] == data[k]
  {
    data[LatchKey := Ordinal(s)]
  }

  /** A tag `fromTag` can read without an out-of-range ordinal. */
  predicate Loadable(data: Tag)
  {
    LatchKey in data ==> 0 <= data[LatchKey] < 3
  }

  /** The latch after `fromTag`: the stored ordinal if the key is present, else `current`. */
  function ReadLatch(data: Tag, current: YesNo): (s: YesNo)
    requires Loadable(data)
    ensures LatchKey !in data ==> s == current
    ensures LatchKey in data ==> Ordinal(s) == data[LatchKey]
  {
    if LatchKey in data then FromOrdinal(data[LatchKey] as nat) else current
  }

  /** The state `updateRedstoneState` samples: YES iff the neighbours' redstone power is nonzero. */
  function Sample(power: nat): (s: YesNo)
    ensures s != Undecided
    ensures s == Yes <==> power != 0
  {
    if power != 0 then Yes else No
  }

  /** Whether `updateRedstoneState` calls `triggerTransition`: the latch changes and becomes YES. */
  function Fires(last: YesNo, power: nat): (b: bool)
    ensures b <==> power != 0 && last != Yes
  {
    last != Sample(power) && Sample(power) == Yes
  }

  // ---------------------------------------------------------------------
  // Items and the side filter
  // ---------------------------------------------------------------------

  /**
   * An item. A `SpatialCellItem` implements the spatial storage cell
   * interface; `isSpatialStorage` is the answer its `isSpatialStorage`
   * method gives for the stack.
   */
  datatype Item = PlainItem(id: nat) | SpatialCellItem(id: nat, isSpatialStorage: bool)

  /** An item stack; `Empty` is `ItemStack.EMPTY`. */
  datatype ItemStack = Empty | Stack(item: Item, count: int)

  /** `ItemStack.isEmpty()`: the empty stack or a stack of no items. */
  predicate IsEmpty(s: ItemStack)
  {
    s.Empty? || s.count <= 0
  }

  /** `isSpatialCell`: a non-empty stack of a spatial cell item that declares itself spatial storage. */
  function IsSpatialCell(cell: ItemStack): (b: bool)
    ensures IsEmpty(cell) ==> !b
    ensures !IsEmpty(cell) && cell.item.PlainItem? ==> !b
    ensures !IsEmpty(cell) && cell.item.SpatialCellItem? ==> (b <==> cell.item.isSpatialStorage)
  {
    !IsEmpty(cell) && cell.item.SpatialCellItem? && cell.item.isSpatialStorage
  }

  /** `SpatialIOFilter.allowExtract`: automation may only take from the output slot. */
  function AllowExtract(slot: int): (b: bool)
    ensures b <==> slot == 1
  {
    slot == 1
  }

  /** `SpatialIOFilter.allowInsert`: automation may only put spatial cells into the input slot. */
  function AllowInsert(slot: int, stack: ItemStack): (b: bool)
    ensures b ==> slot == 0 && !IsEmpty(stack) && stack.item.SpatialCellItem?
    ensures slot == 0 && IsSpatialCell(stack) ==> b
  {
    slot == 0 && IsSpatialCell(stack)
  }

  // ---------------------------------------------------------------------
  // The deferred call
  // ---------------------------------------------------------------------

  datatype Coord = Coord(x: int, y: int, z: int)

  /** `Actionable`: SIMULATE previews an extraction, MODULATE performs it. */
  datatype Actionable = Simulate | Modulate

  /** What the spatial pylon cache reports about the claimed region. */
  datatype SpatialCache = SpatialCache(
    hasRegion: bool,
    isValidRegion: bool,
    requiredPower: real,
    min: Coord,
    max: Coord)

  /**
   * The answers of the grid's collaborators during one `call`:
   * the spatial cache, the amount a SIMULATE extraction of the required
   * power reports, the verdict of posting the spatial event, the owner
   * if the security service is available, and whether the cell's
   * transition succeeds.
   */
  datatype Network = Network(
    spatial: SpatialCache,
    simulated: real,
    eventCanceled: bool,
    securityOwner: Option<int>,
    transitionSucceeds: bool)

  /** A call of `call` that acts on a collaborator: an extraction, the event post or the transition. */
  datatype Effect =
    | ExtractPower(amount: real, mode: Actionable)
    | PostSpatialEvent(power: real)
    | DoSpatialTransition(cell: ItemStack, min: Coord, max: Coord, playerId: int)

  /** The inventory after `call` and the acting collaborator calls it made, in order. */
  datatype CallOutcome = CallOutcome(slots: seq<ItemStack>, effects: seq<Effect>)

  function Abs(x: real): real
  {
    if x < 0.0 then -x else x
  }

  /** The power check of `call`: the simulated amount is within 0.1% of the requirement. */
  predicate WithinTolerance(simulated: real, req: real)
    ensures WithinTolerance(simulated, req) ==> req > 0.0
    ensures WithinTolerance(simulated, req) <==> req - req * 0.001 < simulated < req + req * 0.001
  {
    Abs(simulated - req) < req * 0.001
  }

  /** The player attributed to the transition: the owner, or -1 when security is unavailable. */
  function PlayerId(owner: Option<int>): int
  {
    match owner
    case Some(id) => id
    case None => -1
  }

  /**
   * `call`, as a function of the inventory before it and the collaborators'
   * answers: each guard in turn, then the transition, then (only on
   * success) the MODULATE extraction and the move of the cell.
   */
  function CallSpec(slots: seq<ItemStack>, net: Network): (r: CallOutcome)
    requires |slots| == 2
  {
    var cell := slots[0];
    if !(IsSpatialCell(cell) && IsEmpty(slots[1])) then CallOutcome(slots, [])
    else
      var spc := net.spatial;
      if !(spc.hasRegion && spc.isValidRegion) then CallOutcome(slots, [])
      else
        var req := spc.requiredPower;
        var simulated := [ExtractPower(req, Simulate)];
        if !WithinTolerance(net.simulated, req) then CallOutcome(slots, simulated)
        else
          var posted := simulated + [PostSpatialEvent(req)];
          if net.eventCanceled then CallOutcome(slots, posted)
          else
            var attempted := posted + [DoSpatialTransition(cell, spc.min, spc.max, PlayerId(net.securityOwner))];
            if !net.transitionSucceeds then CallOutcome(slots, attempted)
            else CallOutcome([Empty, cell], attempted + [ExtractPower(req, Modulate)])
  }

  /** Every guard of `call` holds, the transition's success included. */
  predicate CommitGuards(slots: seq<ItemStack>, net: Network)
    requires |slots| == 2
  {
    && IsSpatialCell(slots[0])
    && IsEmpty(slots[1])
    && net.spatial.hasRegion
    && net.spatial.isValidRegion
    && WithinTolerance(net.simulated, net.spatial.requiredPower)
    && !net.eventCanceled
    && net.transitionSucceeds
  }

  /** The amounts of the MODULATE extractions in a trace, in order. */
  function Deductions(effects: seq<Effect>): (r: seq<real>)
    ensures |r| <= |effects|
  {
    if effects == [] then []
    else
      var last := effects[|effects| - 1];
      Deductions(effects[..|effects| - 1])
      + (if last.ExtractPower? && last.mode == Modulate then [last.amount] else [])
  }

  // ---------------------------------------------------------------------
  // The block entity
  // ---------------------------------------------------------------------

  /** Where a deferred callable runs; `AnyWorld` is the `null` world: the next world tick of any world. */
  datatype TickTarget = AnyWorld | InWorld(world: nat)

  /** The callables that `triggerTransition` may enqueue. */
  function Enqueued(isServer: bool, cell: ItemStack): (r: seq<TickTarget>)
    ensures |r| <= 1
    ensures |r| == 1 <==> isServer && IsSpatialCell(cell)
    ensures r != [] ==> r[0] == AnyWorld
  {
    if isServer && IsSpatialCell(cell) then [AnyWorld] else []
  }

  class SpatialIOPortEntity {
    /** The internal inventory: slot 0 is the input, slot 1 the output. */
    const inv: array<ItemStack>
    var lastRedstoneState: YesNo
    /** The callables this entity has handed to the tick handler, oldest first. */
    ghost var pending: seq<TickTarget>

    ghost predicate Valid()
      reads this
    {
      inv.Length == 2
    }

    constructor ()
      ensures Valid() && fresh(inv)
      ensures inv[..] == [Empty, Empty]
      ensures lastRedstoneState == Undecided && pending == []
    {
      inv := new ItemStack[2](_ => Empty);
      lastRedstoneState := Undecided;
      pending := [];
    }

    /** `toTag`: adds the latch ordinal to `data`. */
    method ToTag(data: Tag) returns (r: Tag)
      ensures r == WriteLatch(data, lastRedstoneState)
    {
      r := data[LatchKey := Ordinal(lastRedstoneState)];
    }

    /** `fromTag`: restores the latch if the tag holds it. */
    method FromTag(data: Tag)
      requires Loadable(data)
      modifies this`lastRedstoneState
      ensures lastRedstoneState == ReadLatch(data, old(lastRedstoneState))
    {
      if LatchKey in data {
        lastRedstoneState := FromOrdinal(data[LatchKey] as nat);
      }
    }

    /** `getRedstoneState`: samples only while UNDECIDED, then reports whether the latch is YES. */
    method GetRedstoneState(power: nat, isServer: bool) returns (r: bool)
      requires Valid()
      modifies this`lastRedstoneState, this`pending
      ensures Valid()
      ensures r <==> lastRedstoneState == Yes
      ensures old(lastRedstoneState) == Undecided ==>
        lastRedstoneState == Sample(power) &&
        pending == old(pending) + (if Fires(Undecided, power) then Enqueued(isServer, inv[0]) else [])
      ensures old(lastRedstoneState) != Undecided ==>
        lastRedstoneState == old(lastRedstoneState) && pending == old(pending)
    {
      if lastRedstoneState == Undecided {
        UpdateRedstoneState(power, isServer);
      }
      r := lastRedstoneState == Yes;
    }

    /** `updateRedstoneState`: latches the sampled state and triggers on a change to YES. */
    method UpdateRedstoneState(power: nat, isServer: bool)
      requires Valid()
      modifies this`lastRedstoneState, this`pending
      ensures Valid()
      ensures lastRedstoneState == Sample(power)
      ensures pending == old(pending) + (if Fires(old(lastRedstoneState), power) then Enqueued(isServer, inv[0]) else [])
    {
      var currentState := if power != 0 then Yes else No;
      if lastRedstoneState != currentState {
        lastRedstoneState := currentState;
        if lastRedstoneState == Yes {
          TriggerTransition(isServer);
        }
      }
    }

    /** `triggerTransition`: on the server, enqueues this entity if the input slot holds a spatial cell. */
    method TriggerTransition(isServer: bool)
      requires Valid()
      modifies this`pending
      ensures Valid()
      ensures pending == old(pending) + Enqueued(isServer, inv[0])
    {
      if isServer {
        var cell := inv[0];
        if IsSpatialCell(cell) {
          pending := pending + [AnyWorld];
        }
      }
    }

    /**
     * `call`: the deferred spatial transition. Returns, in order, the calls
     * that act on the collaborators; the queries are answered by `net`.
     */
    method Call(net: Network) returns (effects: seq<Effect>)
      requires Valid()
      modifies inv
      ensures Valid()
      ensures CallOutcome(inv[..], effects) == CallSpec(old(inv[..]), net)
    {
      effects := [];
      var cell := inv[0];
      if IsSpatialCell(cell) && IsEmpty(inv[1]) {
        var spc := net.spatial;
        if spc.hasRegion && spc.isValidRegion {
          var req := spc.requiredPower;
          effects := effects + [ExtractPower(req, Simulate)];
          var pr := net.simulated;
          if Abs(pr - req) < req * 0.001 {
            effects := effects + [PostSpatialEvent(req)];
            if !net.eventCanceled {
              var playerId := -1;
              if net.securityOwner.Some? {
                playerId := net.securityOwner.value;
              }
              effects := effects + [DoSpatialTransition(cell, spc.min, spc.max, playerId)];
              if net.transitionSucceeds {
                effects := effects + [ExtractPower(req, Modulate)];
                inv[0] := Empty;
                inv[1] := cell;
              }
            }
          }
        }
      }
    }
  }
}
