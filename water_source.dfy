/** WaterSource: a tap built on the interaction gate that fills a vessel that is not yet
    full. Invoke(StopWaterFlow, flowDuration) becomes a queue of due times that the scene's
    clock drains through FlowTimerElapsed. */
module WaterSources {
  import opened WaterMath
  import opened GameManagement
  import opened WaterSystem
  import opened InteractionGates

  /** Whether an entry starts a flow at once: the vessel is taken, is not full, the gate is
      in CollisionDetection mode and no flow is running. */
  predicate EntryStarts(acceptedNotFull: bool, c: ConditionType, flowing: bool)
  {
    acceptedNotFull && c == CollisionDetection && !flowing
  }

  class WaterSource {
    const gate: InteractionGate
    const waterQuality: real
    const staminaCost: real
    const flowDuration: real
    var isWaterFlowing: bool
    /** The due times of the StopWaterFlow calls scheduled by Invoke, oldest first. */
    var pendingStops: seq<real>

    constructor (conditionType: ConditionType, tiltAngleThreshold: real,
                 allowedVesselTypeEnum: AllowedVesselType, requiresFull: bool,
                 waterQuality: real, staminaCost: real, flowDuration: real)
      ensures fresh(gate) && gate.currentContainer == null && !gate.isExecuting
      ensures gate.conditionType == conditionType && gate.allowedVesselTypeEnum == allowedVesselTypeEnum
      ensures gate.tiltAngleThreshold == tiltAngleThreshold && gate.requiresFull == requiresFull
      ensures gate.allowedVesselType == None
      ensures this.waterQuality == waterQuality && this.staminaCost == staminaCost
      ensures this.flowDuration == flowDuration
      ensures !isWaterFlowing && pendingStops == []
    {
      gate := new InteractionGate(conditionType, tiltAngleThreshold, allowedVesselTypeEnum, requiresFull);
      this.waterQuality := waterQuality;
      this.staminaCost := staminaCost;
      this.flowDuration := flowDuration;
      isWaterFlowing := false;
      pendingStops := [];
    }

    /** The container, if any, satisfies the vessel invariant. */
    ghost predicate Valid()
      reads this, gate, gate.currentContainer
    {
      gate.currentContainer != null ==> gate.currentContainer.Valid()
    }

    /** Awake: the base conversion, then requiresFull is forced off, so only vessels that
        are not full are taken as containers. */
    method Awake()
      modifies gate`allowedVesselType, gate`requiresFull
      ensures gate.allowedVesselType == ToVesselFilter(gate.allowedVesselTypeEnum)
      ensures !gate.requiresFull
    {
      gate.Awake();
      gate.requiresFull := false;
    }

    /** Whether ExecuteTask starts a flow: a container that is not full, and no flow running. */
    predicate WouldStart()
      reads this, gate, gate.currentContainer
    {
      gate.currentContainer != null && !gate.currentContainer.IsFull() && !isWaterFlowing
    }

    /** What a start leaves: both flags set, the container filled up to its capacity at the
        source's quality, a draw of the container's whole capacity recorded and the stamina
        cost paid, and a stop scheduled flowDuration later. */
    twostate predicate Started(c: Vessel, now: real, gm: GameManager)
      reads this, gate, c, gm, gm.Data
    {
      && isWaterFlowing && gate.isExecuting
      && old(c.Valid())
      && c.Contents() == Fill(old(c.maxCapacity), old(c.Contents()), old(c.maxCapacity), waterQuality).0
      && gm.State() == DrawAndSpend(old(gm.State()), c.maxCapacity, waterQuality, staminaCost)
      && pendingStops == old(pendingStops) + [now + flowDuration]
    }

    /** Nothing a start would change has changed. */
    twostate predicate Idle(c: Vessel?, gm: GameManager)
      reads this, gate, c, gm, gm.Data
    {
      && isWaterFlowing == old(isWaterFlowing) && gate.isExecuting == old(gate.isExecuting)
      && (c != null ==> c.Contents() == old(c.Contents()))
      && gm.State() == old(gm.State())
      && pendingStops == old(pendingStops)
    }

    method StartWaterFlow(now: real, gm: GameManager)
      requires gate.currentContainer != null && gate.currentContainer.Valid()
      modifies this`isWaterFlowing, this`pendingStops, gate`isExecuting
      modifies gate.currentContainer`currentWaterAmount, gate.currentContainer`waterQuality
      modifies gm`taskCompletedSignals, gm`gameEndedSignals
      modifies gm.Data`WaterVolume, gm.Data`WaterQuality, gm.Data`Stamina, gm.Data`History
      ensures gate.currentContainer.Valid()
      ensures Started(gate.currentContainer, now, gm)
    {
      isWaterFlowing := true;
      gate.isExecuting := true;
      var c := gate.currentContainer;
      c.FillWaterToCapacity(waterQuality);
      var amount := c.maxCapacity;
      gm.RecordDrawWater(amount, waterQuality);
      gm.SpendStamina(staminaCost);
      pendingStops := pendingStops + [now + flowDuration];
    }

    method StopWaterFlow()
      modifies this`isWaterFlowing, gate`isExecuting
      ensures !isWaterFlowing && !gate.isExecuting
    {
      isWaterFlowing := false;
      gate.isExecuting := false;
    }

    /** ExecuteTask: a no-op with no container, a full container or a flow already running. */
    method ExecuteTask(now: real, gm: GameManager)
      requires Valid()
      modifies this`isWaterFlowing, this`pendingStops, gate`isExecuting
      modifies Opt(gate.currentContainer)`currentWaterAmount, Opt(gate.currentContainer)`waterQuality
      modifies gm`taskCompletedSignals, gm`gameEndedSignals
      modifies gm.Data`WaterVolume, gm.Data`WaterQuality, gm.Data`Stamina, gm.Data`History
      ensures Valid()
      ensures old(WouldStart()) ==> Started(gate.currentContainer, now, gm)
      ensures !old(WouldStart()) ==> Idle(gate.currentContainer, gm)
    {
      if gate.currentContainer == null {
        return;
      }
      if gate.currentContainer.IsFull() {
        return;
      }
      if isWaterFlowing {
        return;
      }
      StartWaterFlow(now, gm);
    }

    /** OnTriggerEnter: the base filters; in CollisionDetection mode the task runs at once. */
    method OnTriggerEnter(other: Vessel?, now: real, gm: GameManager)
      requires Valid() && (other != null ==> other.Valid())
      modifies gate`currentContainer, this`isWaterFlowing, this`pendingStops, gate`isExecuting
      modifies Opt(other)`currentWaterAmount, Opt(other)`waterQuality
      modifies gm`taskCompletedSignals, gm`gameEndedSignals
      modifies gm.Data`WaterVolume, gm.Data`WaterQuality, gm.Data`Stamina, gm.Data`History
      ensures Valid()
      ensures gate.currentContainer == if old(gate.Accepts(other)) then other else old(gate.currentContainer)
      ensures EntryStarts(old(gate.Accepts(other) && !other.IsFull()), gate.conditionType, old(isWaterFlowing)) ==>
                Started(other, now, gm)
      ensures !EntryStarts(old(gate.Accepts(other) && !other.IsFull()), gate.conditionType, old(isWaterFlowing)) ==>
                Idle(other, gm)
    {
      var accepted := gate.Enter(other);
      if accepted {
        if gate.conditionType == CollisionDetection {
          ExecuteTask(now, gm);
        }
      }
    }

    /** OnTriggerExit: when the leaving object is the container (two nulls compare equal
        too), OnContainerExited stops the flow and the base forgets the container. */
    method OnTriggerExit(other: Vessel?)
      modifies this`isWaterFlowing, gate`isExecuting, gate`currentContainer
      ensures other == old(gate.currentContainer) ==>
                !isWaterFlowing && !gate.isExecuting && gate.currentContainer == null
      ensures other != old(gate.currentContainer) ==>
                isWaterFlowing == old(isWaterFlowing) && gate.isExecuting == old(gate.isExecuting)
                && gate.currentContainer == old(gate.currentContainer)
    {
      if other == gate.currentContainer {
        StopWaterFlow();
        gate.ClearContainer();
      }
    }

    /** The base Update: in a polling mode, with a container and nothing running, the task
        runs when this frame's condition holds. */
    method Update(pressed: bool, now: real, gm: GameManager)
      requires Valid()
      modifies this`isWaterFlowing, this`pendingStops, gate`isExecuting
      modifies Opt(gate.currentContainer)`currentWaterAmount, Opt(gate.currentContainer)`waterQuality
      modifies gm`taskCompletedSignals, gm`gameEndedSignals
      modifies gm.Data`WaterVolume, gm.Data`WaterQuality, gm.Data`Stamina, gm.Data`History
      ensures Valid()
      ensures old(gate.UpdatePolls() && gate.CheckCondition(pressed) && WouldStart()) ==>
                Started(gate.currentContainer, now, gm)
      ensures !old(gate.UpdatePolls() && gate.CheckCondition(pressed) && WouldStart()) ==>
                Idle(gate.currentContainer, gm)
      ensures old(gate.conditionType) == CollisionDetection ==> Idle(gate.currentContainer, gm)
    {
      if gate.conditionType == CollisionDetection {
        return;
      }
      if gate.currentContainer == null || gate.isExecuting {
        return;
      }
      var conditionMet := gate.CheckCondition(pressed);
      if conditionMet {
        ExecuteTask(now, gm);
      }
    }

    /** The scene clock reaching the oldest scheduled stop, which then runs. */
    method FlowTimerElapsed(now: real)
      modifies this`pendingStops, this`isWaterFlowing, gate`isExecuting
      ensures old(pendingStops != [] && pendingStops[0] <= now) ==>
                pendingStops == old(pendingStops[1..]) && !isWaterFlowing && !gate.isExecuting
      ensures !old(pendingStops != [] && pendingStops[0] <= now) ==>
                pendingStops == old(pendingStops) && isWaterFlowing == old(isWaterFlowing)
                && gate.isExecuting == old(gate.isExecuting)
    {
      if pendingStops != [] && pendingStops[0] <= now {
        pendingStops := pendingStops[1..];
        StopWaterFlow();
      }
    }
  }

  /** After Awake a full vessel is never taken as the container, and every vessel of an
      allowed kind that is not full is. */
  lemma AwakeSourceAdmitsOnlyNotFull(s: WaterSource, v: Vessel)
    requires !s.gate.requiresFull
    ensures s.gate.Accepts(v) <==> Allows(s.gate.allowedVesselType, v.kind) && !v.IsFull()
  {
    AcceptsExactly(s.gate, v);
  }

  /** A start fills a container that was not full up to exactly its capacity. */
  lemma StartFillsToCapacity(capacity: real, w: Water, quality: real)
    requires WaterInvariant(capacity, w) && capacity > 0.0 && !IsFull(capacity, w)
    ensures Fill(capacity, w, capacity, quality).0.amount == capacity
    ensures Fill(capacity, w, capacity, quality).1 == capacity - w.amount
  {
    FillToCapacityMakesFull(capacity, w, quality);
  }
}
