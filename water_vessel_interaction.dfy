/** WaterVesselInteraction: a vessel that pours into, or is filled from, another vessel. It
    is built on the interaction gate; its own vessel is `myVessel` and the other vessel is the
    gate's container. Invoke(StopTransfer, transferDuration) becomes a queue of due times. */
module VesselTransfers {
  import opened WaterMath
  import opened WaterSystem
  import opened InteractionGates

  /** A pour, on values: the other vessel is filled with a request for its whole capacity at
      the pouring vessel's quality, and the pouring vessel is emptied. */
  function PourOut(mine: Water, myCapacity: real, theirs: Water, theirCapacity: real): (Water, Water)
    requires WaterInvariant(theirCapacity, theirs)
  {
    (EmptyAll(mine), Fill(theirCapacity, theirs, theirCapacity, mine.quality).0)
  }

  /** A pour leaves the receiving vessel exactly full, whatever the pouring vessel held: the
      total volume goes from the two old amounts to the receiver's capacity, so water is
      conserved only when the receiver's free space equals the pourer's contents. */
  lemma PourOutVolume(mine: Water, myCapacity: real, theirs: Water, theirCapacity: real)
    requires WaterInvariant(myCapacity, mine) && WaterInvariant(theirCapacity, theirs)
    requires myCapacity > 0.0 && theirCapacity > 0.0
    requires IsFull(myCapacity, mine) && !IsFull(theirCapacity, theirs)
    ensures PourOut(mine, myCapacity, theirs, theirCapacity).0 == Empty
    ensures PourOut(mine, myCapacity, theirs, theirCapacity).1.amount == theirCapacity
    ensures var r := PourOut(mine, myCapacity, theirs, theirCapacity);
            (r.0.amount + r.1.amount == mine.amount + theirs.amount) <==> (theirCapacity - theirs.amount == myCapacity)
  {
    FillToCapacityMakesFull(theirCapacity, theirs, mine.quality);
  }

  /** A concrete pour of a full 5-litre cup into an empty 10-litre bucket: the bucket ends with
      10 litres. */
  lemma PourOutDoublesWater()
    ensures var r := PourOut(Water(5.0, 100.0), 5.0, Empty, 10.0);
            r.0 == Empty && r.1 == Water(10.0, 100.0)
  {
    FillToCapacityMakesFull(10.0, Empty, 100.0);
  }

  class VesselTransfer {
    const gate: InteractionGate
    const myVessel: Vessel
    const enableWaterSource: bool
    const enableWaterReceiver: bool
    const transferDuration: real
    var isTransferring: bool
    /** The due times of the StopTransfer calls scheduled by Invoke, oldest first. */
    var pendingStops: seq<real>

    constructor (conditionType: ConditionType, tiltAngleThreshold: real, allowedVesselTypeEnum: AllowedVesselType,
                 requiresFull: bool, myVessel: Vessel, enableWaterSource: bool, enableWaterReceiver: bool,
                 transferDuration: real)
      ensures fresh(gate) && gate.currentContainer == null && !gate.isExecuting
      ensures gate.conditionType == conditionType && gate.requiresFull == requiresFull
      ensures gate.allowedVesselTypeEnum == allowedVesselTypeEnum && gate.allowedVesselType == None
      ensures gate.tiltAngleThreshold == tiltAngleThreshold
      ensures this.myVessel == myVessel && this.enableWaterSource == enableWaterSource
      ensures this.enableWaterReceiver == enableWaterReceiver && this.transferDuration == transferDuration
      ensures !isTransferring && pendingStops == []
    {
      gate := new InteractionGate(conditionType, tiltAngleThreshold, allowedVesselTypeEnum, requiresFull);
      this.myVessel := myVessel;
      this.enableWaterSource := enableWaterSource;
      this.enableWaterReceiver := enableWaterReceiver;
      this.transferDuration := transferDuration;
      isTransferring := false;
      pendingStops := [];
    }

    /** Both vessels satisfy the vessel invariant. */
    ghost predicate Valid()
      reads this, gate, myVessel, gate.currentContainer
    {
      myVessel.Valid() && (gate.currentContainer != null ==> gate.currentContainer.Valid())
    }

    /** The guard of TransferWaterOut: this vessel is full and `v` is not. */
    predicate CanPourInto(v: Vessel?)
      reads myVessel, v
    {
      v != null && myVessel.IsFull() && !v.IsFull()
    }

    /** The guard of TransferWaterIn: `v` is full and this vessel is not. */
    predicate CanFillFrom(v: Vessel?)
      reads myVessel, v
    {
      v != null && !myVessel.IsFull() && v.IsFull()
    }

    /** The source role towards `v`. */
    predicate GivesTo(v: Vessel?)
      reads this, myVessel, v
    {
      enableWaterSource && CanPourInto(v)
    }

    /** The receiver role towards `v`. */
    predicate TakesFrom(v: Vessel?)
      reads this, myVessel, v
    {
      enableWaterReceiver && CanFillFrom(v)
    }

    /** Awake: the base conversion; an enabled source role switches to requiresFull and tilt
        detection. */
    method Awake()
      modifies gate`allowedVesselType, gate`requiresFull, gate`conditionType
      ensures gate.allowedVesselType == ToVesselFilter(gate.allowedVesselTypeEnum)
      ensures enableWaterSource ==> gate.requiresFull && gate.conditionType == TiltDetection
      ensures !enableWaterSource ==>
                gate.requiresFull == old(gate.requiresFull) && gate.conditionType == old(gate.conditionType)
    {
      gate.Awake();
      if enableWaterSource {
        gate.requiresFull := true;
        gate.conditionType := TiltDetection;
      }
    }

    /** A pour into `c`: `c` filled at this vessel's old quality, this vessel emptied, both
        flags set and a stop scheduled. */
    twostate predicate PouredInto(c: Vessel, now: real)
      reads this, gate, myVessel, c
    {
      && old(c.Valid())
      && (myVessel.Contents(), c.Contents()) ==
           PourOut(old(myVessel.Contents()), old(myVessel.maxCapacity), old(c.Contents()), old(c.maxCapacity))
      && isTransferring && gate.isExecuting
      && pendingStops == old(pendingStops) + [now + transferDuration]
    }

    /** A fill from `c`: this vessel filled at `c`'s old quality, `c` emptied, and both flags
        cleared again at once. */
    twostate predicate FilledFrom(c: Vessel)
      reads this, gate, myVessel, c
    {
      && old(myVessel.Valid())
      && (c.Contents(), myVessel.Contents()) ==
           PourOut(old(c.Contents()), old(c.maxCapacity), old(myVessel.Contents()), old(myVessel.maxCapacity))
      && !isTransferring && !gate.isExecuting
      && pendingStops == old(pendingStops)
    }

    /** Neither vessel, nor the flags, nor the schedule changed. */
    twostate predicate Still(c: Vessel?)
      reads this, gate, myVessel, c
    {
      && myVessel.Contents() == old(myVessel.Contents())
      && (c != null ==> c.Contents() == old(c.Contents()))
      && isTransferring == old(isTransferring) && gate.isExecuting == old(gate.isExecuting)
      && pendingStops == old(pendingStops)
    }

    /** TransferWaterOut: only into a container that is not full, and only while this vessel
        is full. */
    method TransferWaterOut(now: real)
      requires Valid()
      modifies this`isTransferring, this`pendingStops, gate`isExecuting
      modifies myVessel`currentWaterAmount, myVessel`waterQuality
      modifies Opt(gate.currentContainer)`currentWaterAmount, Opt(gate.currentContainer)`waterQuality
      ensures Valid()
      ensures old(CanPourInto(gate.currentContainer)) ==> PouredInto(gate.currentContainer, now)
      ensures !old(CanPourInto(gate.currentContainer)) ==> Still(gate.currentContainer)
    {
      var c := gate.currentContainer;
      if c == null || c.IsFull() {
        return;
      }
      if !myVessel.IsFull() {
        return;
      }
      isTransferring := true;
      gate.isExecuting := true;
      var quality := myVessel.waterQuality;
      c.FillWaterToCapacity(quality);
      myVessel.EmptyWater();
      pendingStops := pendingStops + [now + transferDuration];
    }

    /** TransferWaterIn: only from a full container, and only while this vessel is not full;
        the transfer completes at once. */
    method TransferWaterIn()
      requires Valid()
      modifies this`isTransferring, gate`isExecuting
      modifies myVessel`currentWaterAmount, myVessel`waterQuality
      modifies Opt(gate.currentContainer)`currentWaterAmount, Opt(gate.currentContainer)`waterQuality
      ensures Valid()
      ensures old(CanFillFrom(gate.currentContainer)) ==> FilledFrom(gate.currentContainer)
      ensures !old(CanFillFrom(gate.currentContainer)) ==> Still(gate.currentContainer)
    {
      var c := gate.currentContainer;
      if c == null || !c.IsFull() {
        return;
      }
      if myVessel.IsFull() {
        return;
      }
      isTransferring := true;
      gate.isExecuting := true;
      var quality := c.waterQuality;
      myVessel.FillWaterToCapacity(quality);
      c.EmptyWater();
      isTransferring := false;
      gate.isExecuting := false;
    }

    method StopTransfer()
      modifies this`isTransferring, gate`isExecuting
      ensures !isTransferring && !gate.isExecuting
    {
      isTransferring := false;
      gate.isExecuting := false;
    }

    /** ExecuteTask: nothing while a transfer runs; otherwise the source role is tried first,
        then the receiver role. */
    method ExecuteTask(now: real)
      requires Valid()
      modifies this`isTransferring, this`pendingStops, gate`isExecuting
      modifies myVessel`currentWaterAmount, myVessel`waterQuality
      modifies Opt(gate.currentContainer)`currentWaterAmount, Opt(gate.currentContainer)`waterQuality
      ensures Valid()
      ensures old(!isTransferring && GivesTo(gate.currentContainer)) ==> PouredInto(gate.currentContainer, now)
      ensures old(!isTransferring && TakesFrom(gate.currentContainer)) ==> FilledFrom(gate.currentContainer)
      ensures !old(!isTransferring && (GivesTo(gate.currentContainer) || TakesFrom(gate.currentContainer))) ==>
                Still(gate.currentContainer)
    {
      if isTransferring {
        return;
      }
      if gate.currentContainer == null {
        return;
      }
      if enableWaterSource && myVessel.IsFull() && !gate.currentContainer.IsFull() {
        TransferWaterOut(now);
      } else if enableWaterReceiver && !myVessel.IsFull() && gate.currentContainer.IsFull() {
        TransferWaterIn();
      }
    }

    /** The overriding CheckCondition: false in CollisionDetection mode and outside both roles;
        in either role, the base condition. */
    predicate CheckCondition(pressed: bool)
      reads this, gate, myVessel, gate.currentContainer
    {
      if gate.conditionType == CollisionDetection then false
      else if GivesTo(gate.currentContainer) then gate.CheckCondition(pressed)
      else if TakesFrom(gate.currentContainer) then gate.CheckCondition(pressed)
      else false
    }

    /** The inherited Update, with the overriding CheckCondition and ExecuteTask. */
    method Update(pressed: bool, now: real)
      requires Valid()
      modifies this`isTransferring, this`pendingStops, gate`isExecuting
      modifies myVessel`currentWaterAmount, myVessel`waterQuality
      modifies Opt(gate.currentContainer)`currentWaterAmount, Opt(gate.currentContainer)`waterQuality
      ensures Valid()
      ensures old(gate.UpdatePolls() && CheckCondition(pressed) && !isTransferring && GivesTo(gate.currentContainer)) ==>
                PouredInto(gate.currentContainer, now)
      ensures old(gate.UpdatePolls() && CheckCondition(pressed) && !isTransferring && TakesFrom(gate.currentContainer)) ==>
                FilledFrom(gate.currentContainer)
      ensures !old(gate.UpdatePolls() && CheckCondition(pressed) && !isTransferring) ==> Still(gate.currentContainer)
      ensures old(gate.conditionType) == CollisionDetection ==> Still(gate.currentContainer)
    {
      if gate.conditionType == CollisionDetection {
        return;
      }
      if gate.currentContainer == null || gate.isExecuting {
        return;
      }
      if CheckCondition(pressed) {
        ExecuteTask(now);
      }
    }

    /** The overriding OnTriggerEnter: no type or fill-level filter of the base; the other
        vessel becomes the container when a role applies, the receiver role first, and the
        transfer runs at once in CollisionDetection mode. */
    method OnTriggerEnter(other: Vessel?, now: real)
      requires Valid() && (other != null ==> other.Valid())
      modifies gate`currentContainer, this`isTransferring, this`pendingStops, gate`isExecuting
      modifies myVessel`currentWaterAmount, myVessel`waterQuality
      modifies Opt(other)`currentWaterAmount, Opt(other)`waterQuality
      ensures Valid()
      ensures gate.currentContainer ==
                if old(other != myVessel && (TakesFrom(other) || GivesTo(other))) then other
                else old(gate.currentContainer)
      ensures old(other != myVessel && TakesFrom(other)) && gate.conditionType == CollisionDetection ==>
                FilledFrom(other)
      ensures old(other != myVessel && GivesTo(other)) && gate.conditionType == CollisionDetection ==>
                PouredInto(other, now)
      ensures !(old(other != myVessel && (TakesFrom(other) || GivesTo(other))) && gate.conditionType == CollisionDetection) ==>
                Still(other)
    {
      if other == null || other == myVessel {
        return;
      }
      if enableWaterReceiver && !myVessel.IsFull() && other.IsFull() {
        gate.currentContainer := other;
        if gate.conditionType == CollisionDetection {
          TransferWaterIn();
        }
      } else if enableWaterSource && myVessel.IsFull() && !other.IsFull() {
        gate.currentContainer := other;
        if gate.conditionType == CollisionDetection {
          TransferWaterOut(now);
        }
      }
    }

    /** The inherited OnTriggerExit: OnContainerExited is not overridden, so the container is
        only forgotten and the gate re-armed; isTransferring is left as it was. */
    method OnTriggerExit(other: Vessel?)
      modifies gate`currentContainer, gate`isExecuting
      ensures other == old(gate.currentContainer) ==> gate.currentContainer == null && !gate.isExecuting
      ensures other != old(gate.currentContainer) ==>
                gate.currentContainer == old(gate.currentContainer) && gate.isExecuting == old(gate.isExecuting)
    {
      if other == gate.currentContainer {
        gate.ClearContainer();
      }
    }

    /** The scene clock reaching the oldest scheduled StopTransfer, which then runs. */
    method TransferTimerElapsed(now: real)
      modifies this`pendingStops, this`isTransferring, gate`isExecuting
      ensures old(pendingStops != [] && pendingStops[0] <= now) ==>
                pendingStops == old(pendingStops[1..]) && !isTransferring && !gate.isExecuting
      ensures !old(pendingStops != [] && pendingStops[0] <= now) ==>
                pendingStops == old(pendingStops) && isTransferring == old(isTransferring)
                && gate.isExecuting == old(gate.isExecuting)
    {
      if pendingStops != [] && pendingStops[0] <= now {
        pendingStops := pendingStops[1..];
        StopTransfer();
      }
    }
  }

  /** The two guards exclude each other, and neither pairs the vessel with itself, so the
      other-vessel check of OnTriggerEnter only spares the work. */
  lemma RolesExclusive(t: VesselTransfer, v: Vessel)
    ensures !(t.CanPourInto(v) && t.CanFillFrom(v))
    ensures !t.CanPourInto(t.myVessel) && !t.CanFillFrom(t.myVessel)
  {
  }
}
