/** WaterDisposalZone: an area where tilting a full vessel throws its water away, once per
    visit. */
module DisposalZones {
  import opened WaterMath
  import opened GameManagement
  import opened WaterSystem

  /** One Update of the zone, on values: whether it disposes, given whether it already did
      during this visit and whether a container is present, full and tilted past its pour
      angle. */
  predicate Disposes(hasDisposed: bool, present: bool, full: bool, pouring: bool)
  {
    present && full && pouring && !hasDisposed
  }

  /** A frame of a visit: whether the container is full and tilted past its pour angle. */
  datatype ZoneFrame = ZoneFrame(full: bool, pouring: bool)

  /** The number of disposals over consecutive frames of one visit, from the given flag. */
  function DisposalsIn(hasDisposed: bool, frames: seq<ZoneFrame>): nat
    decreases |frames|
  {
    if frames == [] then 0
    else
      var d := Disposes(hasDisposed, true, frames[0].full, frames[0].pouring);
      (if d then 1 else 0) + DisposalsIn(hasDisposed || d, frames[1..])
  }

  /** Once the flag is set, no frame of the visit disposes; from a fresh entry at most one
      does, however often the vessel is refilled and tilted inside the zone. */
  lemma {:induction false} AtMostOneDisposalPerVisit(hasDisposed: bool, frames: seq<ZoneFrame>)
    ensures hasDisposed ==> DisposalsIn(hasDisposed, frames) == 0
    ensures DisposalsIn(hasDisposed, frames) <= 1
    decreases |frames|
  {
    if frames != [] {
      var d := Disposes(hasDisposed, true, frames[0].full, frames[0].pouring);
      AtMostOneDisposalPerVisit(true, frames[1..]);
      AtMostOneDisposalPerVisit(hasDisposed || d, frames[1..]);
    }
  }

  class DisposalZone {
    /** Serialized but never reaches the ledger: RecordWaste takes the amount only. */
    const qualityDecrease: real
    /** Serialized but never reaches the ledger or the stamina gauge. */
    const staminaCost: real
    var currentContainer: Vessel?
    var hasDisposed: bool

    /** The two serialized settings; the shipped defaults are 10 and 2. */
    constructor (qualityDecrease: real, staminaCost: real)
      ensures this.qualityDecrease == qualityDecrease && this.staminaCost == staminaCost
      ensures currentContainer == null && !hasDisposed
    {
      this.qualityDecrease := qualityDecrease;
      this.staminaCost := staminaCost;
      currentContainer := null;
      hasDisposed := false;
    }

    ghost predicate Valid()
      reads this, currentContainer
    {
      currentContainer != null ==> currentContainer.Valid()
    }

    /** OnTriggerEnter: any vessel becomes the container and re-arms the zone. */
    method OnTriggerEnter(other: Vessel?)
      modifies this`currentContainer, this`hasDisposed
      ensures other != null ==> currentContainer == other && !hasDisposed
      ensures other == null ==> currentContainer == old(currentContainer) && hasDisposed == old(hasDisposed)
    {
      if other != null {
        currentContainer := other;
        hasDisposed := false;
      }
    }

    /** OnTriggerExit: the container is forgotten when it leaves (two nulls compare equal
        too); the flag stays as it is until the next entry. */
    method OnTriggerExit(other: Vessel?)
      modifies this`currentContainer
      ensures currentContainer == if other == old(currentContainer) then null else old(currentContainer)
    {
      if other == currentContainer {
        currentContainer := null;
      }
    }

    /** DisposeWater: the vessel's whole capacity is recorded as wasted, whatever it held,
        and the vessel is emptied. */
    method DisposeWater(container: Vessel, gm: GameManager)
      requires container.Valid()
      modifies container`currentWaterAmount, container`waterQuality, this`hasDisposed
      modifies gm`taskCompletedSignals, gm`gameEndedSignals
      modifies gm.Data`WaterVolume, gm.Data`WaterQuality, gm.Data`Stamina, gm.Data`History
      ensures container.Valid() && hasDisposed
      ensures container.Contents() == EmptyAll(old(container.Contents()))
      ensures gm.State() == WasteStep(old(gm.State()), container.maxCapacity)
    {
      var amount := container.maxCapacity;
      container.EmptyWater();
      gm.RecordWaste(amount);
      hasDisposed := true;
    }

    /** Update: disposes exactly when Disposes holds for this frame. */
    method Update(gm: GameManager)
      requires Valid()
      modifies this`hasDisposed
      modifies Opt(currentContainer)`currentWaterAmount
      modifies Opt(currentContainer)`waterQuality
      modifies gm`taskCompletedSignals, gm`gameEndedSignals
      modifies gm.Data`WaterVolume, gm.Data`WaterQuality, gm.Data`Stamina, gm.Data`History
      ensures Valid()
      ensures var c := currentContainer;
              old(Disposes(hasDisposed, c != null, c != null && c.IsFull(), c != null && c.IsPouringAngle())) ==>
                hasDisposed && c.Contents() == Empty && gm.State() == WasteStep(old(gm.State()), c.maxCapacity)
      ensures var c := currentContainer;
              !old(Disposes(hasDisposed, c != null, c != null && c.IsFull(), c != null && c.IsPouringAngle())) ==>
                hasDisposed == old(hasDisposed) && gm.State() == old(gm.State())
                && (c != null ==> c.Contents() == old(c.Contents()))
    {
      if currentContainer != null && currentContainer.IsFull() && currentContainer.IsPouringAngle() && !hasDisposed {
        DisposeWater(currentContainer, gm);
      }
    }
  }
}
