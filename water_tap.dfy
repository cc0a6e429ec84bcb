/** WaterTap: a stand-alone tap (not built on the interaction gate) that fills a vessel that
    is not full, on the A button or on contact. Invoke(StopWaterFlow, 2) becomes a queue of
    due times. */
module WaterTaps {
  import opened WaterMath
  import opened GameManagement
  import opened WaterSystem

  /** The fixed delay of the scheduled StopWaterFlow, in seconds. */
  const FlowSeconds: real := 2.0

  class WaterTap {
    const waterQuality: real
    const staminaCost: real
    const useButtonTrigger: bool
    const useCollisionTrigger: bool
    var currentContainer: Vessel?
    var isWaterFlowing: bool
    /** The due times of the scheduled StopWaterFlow calls, oldest first. */
    var pendingStops: seq<real>

    /** The four serialized settings; the shipped defaults are quality 100, cost 10,
        button trigger on and contact trigger off. */
    constructor (waterQuality: real, staminaCost: real, useButtonTrigger: bool, useCollisionTrigger: bool)
      ensures this.waterQuality == waterQuality && this.staminaCost == staminaCost
      ensures this.useButtonTrigger == useButtonTrigger && this.useCollisionTrigger == useCollisionTrigger
      ensures currentContainer == null && !isWaterFlowing && pendingStops == []
    {
      this.waterQuality := waterQuality;
      this.staminaCost := staminaCost;
      this.useButtonTrigger := useButtonTrigger;
      this.useCollisionTrigger := useCollisionTrigger;
      currentContainer := null;
      isWaterFlowing := false;
      pendingStops := [];
    }

    ghost predicate Valid()
      reads this, currentContainer
    {
      currentContainer != null ==> currentContainer.Valid()
    }

    /** The guard of StartWaterFlow. */
    predicate CanFill()
      reads this, currentContainer
    {
      currentContainer != null && !currentContainer.IsFull()
    }

    /** After a start: flowing, the container filled with a request for its whole capacity at
        the tap's quality, a draw of that capacity recorded with the stamina cost paid, and a
        stop scheduled two seconds later. */
    twostate predicate Started(c: Vessel, now: real, gm: GameManager)
      reads this, c, gm, gm.Data
    {
      && isWaterFlowing
      && old(c.Valid())
      && c.Contents() == Fill(old(c.maxCapacity), old(c.Contents()), old(c.maxCapacity), waterQuality).0
      && gm.State() == DrawAndSpend(old(gm.State()), c.maxCapacity, waterQuality, staminaCost)
      && pendingStops == old(pendingStops) + [now + FlowSeconds]
    }

    /** Nothing a start would change has changed. */
    twostate predicate Idle(c: Vessel?, gm: GameManager)
      reads this, c, gm, gm.Data
    {
      && isWaterFlowing == old(isWaterFlowing)
      && (c != null ==> c.Contents() == old(c.Contents()))
      && gm.State() == old(gm.State())
      && pendingStops == old(pendingStops)
    }

    /** StartWaterFlow: a no-op without a container or with a full one. It does not look at
        isWaterFlowing. */
    method StartWaterFlow(now: real, gm: GameManager)
      requires Valid()
      modifies this`isWaterFlowing, this`pendingStops
      modifies Opt(currentContainer)`currentWaterAmount, Opt(currentContainer)`waterQuality
      modifies gm`taskCompletedSignals, gm`gameEndedSignals
      modifies gm.Data`WaterVolume, gm.Data`WaterQuality, gm.Data`Stamina, gm.Data`History
      ensures Valid()
      ensures old(CanFill()) ==> Started(currentContainer, now, gm)
      ensures !old(CanFill()) ==> Idle(currentContainer, gm)
    {
      var c := currentContainer;
      if c == null || c.IsFull() {
        return;
      }
      isWaterFlowing := true;
      c.FillWaterToCapacity(waterQuality);
      var amount := c.maxCapacity;
      gm.RecordDrawWater(amount, waterQuality);
      gm.SpendStamina(staminaCost);
      pendingStops := pendingStops + [now + FlowSeconds];
    }

    method StopWaterFlow()
      modifies this`isWaterFlowing
      ensures !isWaterFlowing
    {
      isWaterFlowing := false;
    }

    /** OnTriggerEnter: any vessel that is not full becomes the container, of any kind; with
        the contact trigger the flow starts at once. */
    method OnTriggerEnter(other: Vessel?, now: real, gm: GameManager)
      requires Valid() && (other != null ==> other.Valid())
      modifies this`currentContainer, this`isWaterFlowing, this`pendingStops
      modifies Opt(other)`currentWaterAmount, Opt(other)`waterQuality
      modifies gm`taskCompletedSignals, gm`gameEndedSignals
      modifies gm.Data`WaterVolume, gm.Data`WaterQuality, gm.Data`Stamina, gm.Data`History
      ensures Valid()
      ensures currentContainer == if old(other != null && !other.IsFull()) then other else old(currentContainer)
      ensures old(other != null && !other.IsFull()) && useCollisionTrigger ==> Started(other, now, gm)
      ensures !(old(other != null && !other.IsFull()) && useCollisionTrigger) ==> Idle(other, gm)
    {
      if other != null && !other.IsFull() {
        currentContainer := other;
        if useCollisionTrigger {
          StartWaterFlow(now, gm);
        }
      }
    }

    /** OnTriggerExit: when the leaving object is the container (two nulls compare equal
        too), the flow stops and the container is forgotten. */
    method OnTriggerExit(other: Vessel?)
      modifies this`isWaterFlowing, this`currentContainer
      ensures other == old(currentContainer) ==> !isWaterFlowing && currentContainer == null
      ensures other != old(currentContainer) ==>
                isWaterFlowing == old(isWaterFlowing) && currentContainer == old(currentContainer)
    {
      if other == currentContainer {
        StopWaterFlow();
        currentContainer := null;
      }
    }

    /** Update: with the button trigger, a container present and no flow running, this
        frame's press of the A button starts the flow. */
    method Update(pressed: bool, now: real, gm: GameManager)
      requires Valid()
      modifies this`isWaterFlowing, this`pendingStops
      modifies Opt(currentContainer)`currentWaterAmount, Opt(currentContainer)`waterQuality
      modifies gm`taskCompletedSignals, gm`gameEndedSignals
      modifies gm.Data`WaterVolume, gm.Data`WaterQuality, gm.Data`Stamina, gm.Data`History
      ensures Valid()
      ensures old(useButtonTrigger && !isWaterFlowing && pressed && CanFill()) ==> Started(currentContainer, now, gm)
      ensures !old(useButtonTrigger && !isWaterFlowing && pressed && CanFill()) ==> Idle(currentContainer, gm)
    {
      if useButtonTrigger && currentContainer != null && !isWaterFlowing {
        if pressed {
          StartWaterFlow(now, gm);
        }
      }
    }

    /** The scene clock reaching the oldest scheduled stop, which then runs. */
    method FlowTimerElapsed(now: real)
      modifies this`pendingStops, this`isWaterFlowing
      ensures old(pendingStops != [] && pendingStops[0] <= now) ==>
                pendingStops == old(pendingStops[1..]) && !isWaterFlowing
      ensures !old(pendingStops != [] && pendingStops[0] <= now) ==>
                pendingStops == old(pendingStops) && isWaterFlowing == old(isWaterFlowing)
    {
      if pendingStops != [] && pendingStops[0] <= now {
        pendingStops := pendingStops[1..];
        StopWaterFlow();
      }
    }
  }
}
