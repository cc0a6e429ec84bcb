# WaterQuestVR water chores, modelled in Dafny

WaterQuestVR is a VR game about the daily water chores of a household:

- The player draws water at a source or a tap into a bucket or a cup.
- They carry it to a field or a drinking point and tilt it to pour.
- They can pour one vessel into another, or tip unwanted water into a disposal zone.
- A session ledger (GameManager, GameData, ActionHistory) counts every chore. It keeps the water, quality and stamina gauges and ends the session after a set number of tasks.

This project models that rules engine in Dafny and proves what its code promises.

- The vessels, receivers, gates and sites whose fields the C# code updates in place are Dafny classes. Their methods carry `modifies` frames.
- Each state-changing method is proved against a pure function of the old state: `Fill`, `Reduce`, `EmptyAll`, `Receive`, `DrawStep`, `PlacedUpTo`, and the rest.
- The properties the game relies on are lemmas about those functions.

Modules, one file each:

- `WaterMath` (`water_math.dfy`) holds the pure arithmetic:
  - fill, reduce and empty, with volume-weighted quality blending;
  - the Euler-angle pour test;
  - the rising-edge tilt detector;
  - the receiver's cooldown and one-shot gate;
  - the vessel-kind filter.
- `GameManagement` (`game_management.dfy`) holds the ledger. `ActionHistory` is a value. GameData and GameManager are classes. Each `Record*` is also given as a step function on a `Session` value, and sequences of records are reasoned about through it.
- `WaterSystem` (`water_system.dfy`) holds WaterVessel (with the WaterBucket and WaterCup kinds) and WaterReceiver (with the Field and DrinkingPoint tasks). It also holds the receiver registry and the pour protocol that notifies at most one receiver.
- `InteractionGates` (`interaction_gate.dfy`) holds WaterInteractionBase as an `InteractionGate` object that each site owns. A site's overrides are its own methods, and they call into the gate.
- `WaterSources`, `VesselTransfers`, `WaterTaps` and `DisposalZones` hold the four sites: the water source, vessel-to-vessel transfer, the legacy tap and the disposal zone.
- `ObiWater` (`obi_water.dfy`) holds the sample WaterContainer and DirtObject.
- `GridPlacement` (`grid_placer.dfy`) holds SimpleGridPlacer's child selection and row-major placement walk.

Inputs from the engine become parameters:

- `Time.time` is `now`.
- The button edge from `OVRInput.GetDown` is `pressed`.
- `transform.eulerAngles` are the vessel's `eulerX`/`eulerZ`, set through `SetPose`.
- Bounds sizes and the active flags of a placer's children are the `children` argument.
- The `GameManager.Instance` singleton is an explicit `gm: GameManager`.
- Each `Invoke(nameof(Stop…), t)` appends the due time `now + t` to a `pendingStops` queue. A `…TimerElapsed(now)` method runs the oldest stop once it is due.
- Floats are modelled as `real`.

## Model

| member | source | states |
|---|---|---|
| GameManagement.TotalTasksFacts | Assets/Scripts/GameManagement/ActionHistory.cs:10-25 | A fresh history has completed nothing. Washing never moves the total. Raising any one of draw, farm, drink or waste by one raises the total by exactly one. |
| GameManagement.Signal | Assets/Scripts/GameManagement/GameManager.cs:41-55 | OnTaskCompleted fires once. OnGameEnded fires exactly when the total has reached MaxTasks. Nothing else changes. |
| GameManagement.StaminaAfterDrink | Assets/Scripts/GameManagement/GameManager.cs:88-93 | The result is always in [0, 100]. A safe drink (quality >= 80) adds 10 and an unsafe one takes 10 when that stays in range; otherwise the result is clamped at 100 or 0. |
| GameManagement.DrawAndSpendFacts | Assets/Scripts/GameManagement/GameManager.cs:59-69 | A draw completes one task. It adds the amount to the volume and to the drawn total and raises quality to max(old, q). The site's stamina cost is then paid in full, with no clamp. |
| GameManagement.RecordCompletesOneTask | Assets/Scripts/GameManagement/GameManager.cs:59-116 | Every Record* raises TotalTasksCompleted by one and fires OnTaskCompleted once. It fires OnGameEnded iff the new total >= MaxTasks, and it leaves MaxTasks and washing alone. |
| GameManagement.RecordTouchesItsOwnCounter | Assets/Scripts/GameManagement/GameManager.cs:59-110 | Each record changes exactly its own volume(s) and counter in the history. Waste raises both wasted and polluted. |
| GameManagement.RunCountsTasks | Assets/Scripts/GameManagement/GameManager.cs:59-116 | After any run of n records the total has grown by n and OnTaskCompleted has fired n times. No counter has decreased. |
| GameManagement.GameEndsAgainOnEveryRecord | Assets/Scripts/GameManagement/GameManager.cs:41-55 | Once the limit is reached, every further record fires OnGameEnded again (there is no once-only guard). |
| GameManagement.NoEndBeforeLimit | Assets/Scripts/GameManagement/GameManager.cs:41-48 | While the total stays below MaxTasks, OnGameEnded never fires. |
| GameManagement.DrinkKeepsStaminaInRange | Assets/Scripts/GameManagement/GameManager.cs:85-96 | After a drink the stamina is in [0, 100] whatever it was before, and the quality gauge is untouched. |
| GameManagement.CalculateHygiene | Assets/Scripts/GameManagement/GameManager.cs:120-127 | The hygiene score is 100 for every history, because the unsafe volume is fixed at 0. |
| GameManagement.CalculateEfficiency | Assets/Scripts/GameManagement/GameManager.cs:129-136 | The score is 0 when nothing was drawn. Otherwise score × drawn = (drinking + farming) × 100. |
| GameManagement.EfficiencyIsPercentage | Assets/Scripts/GameManagement/GameManager.cs:129-136 | With non-negative uses that do not exceed the drawn volume, the score is in [0, 100]. Waste and washing never change it. |
| GameManagement.GameData.constructor | Assets/Scripts/GameManagement/GameData.cs:11-19 | MaxTasks is 5, the volume 0, the quality and stamina 100, and the history all zero. |
| GameManagement.GameData.Reset | Assets/Scripts/GameManagement/GameData.cs:22-28 | The gauges return to 0/100/100 and the history to all zero, which are the initial values. MaxTasks is kept. The new state depends only on MaxTasks, so Reset is idempotent. |
| GameManagement.GameManager.constructor | Assets/Scripts/GameManagement/GameManager.cs:12 | A new GameData and no event fired yet. |
| GameManagement.GameManager.Start | Assets/Scripts/GameManagement/GameManager.cs:33-37 | The session data is reset and nothing else changes. |
| GameManagement.GameManager.EndGame | Assets/Scripts/GameManagement/GameManager.cs:50-55 | OnGameEnded fires once more. |
| GameManagement.GameManager.CheckGameCompletion | Assets/Scripts/GameManagement/GameManager.cs:41-48 | OnGameEnded fires iff TotalTasksCompleted >= MaxTasks. |
| GameManagement.GameManager.RecordDrawWater | Assets/Scripts/GameManagement/GameManager.cs:59-70 | The new ledger state is DrawStep of the old one (see DrawAndSpendFacts, RecordCompletesOneTask). |
| GameManagement.GameManager.RecordFarming | Assets/Scripts/GameManagement/GameManager.cs:72-83 | The new ledger state is FarmStep of the old one: volume −amount and quality −5 with no clamp, farming volume and count raised, then the signals. |
| GameManagement.GameManager.RecordDrinking | Assets/Scripts/GameManagement/GameManager.cs:85-102 | The new ledger state is DrinkStep of the old one: volume −amount, stamina by StaminaAfterDrink, drinking volume and count raised, then the signals. |
| GameManagement.GameManager.RecordWaste | Assets/Scripts/GameManagement/GameManager.cs:104-116 | The new ledger state is WasteStep of the old one: volume −amount and quality −10, wasted and polluted +amount, WasteCount +1, then the signals. |
| GameManagement.GameManager.SpendStamina | Assets/Scripts/Interactions/WaterSource.cs:88 | Only the stamina changes, by −cost, with no clamp. |
| WaterMath.Clamp | Assets/Scripts/GameManagement/GameManager.cs:93 | Mathf.Clamp: the result is within [lo, hi], equals x inside the range, and equals the bound crossed otherwise. |
| WaterMath.FillAmount | Assets/Scripts/WaterSystem/WaterVessel.cs:205-217 | Added litres are positive iff amount > 0 and the vessel is not full. They are at most the request and never overflow the capacity, and they equal the request unless the vessel ends exactly full. |
| WaterMath.Fill | Assets/Scripts/WaterSystem/WaterVessel.cs:205-243 | The amount grows by the litres added. Nothing changes when 0 is added. Filling an empty vessel takes the incoming quality; otherwise the quality is the volume-weighted blend. The invariant 0 <= amount <= capacity is kept, and the quality stays in [0, 100] when both inputs are. |
| WaterMath.BlendBetween | Assets/Scripts/WaterSystem/WaterVessel.cs:220-230 | A volume-weighted blend lies between the two qualities that are mixed. |
| WaterMath.FillToCapacityMakesFull | Assets/Scripts/WaterSystem/WaterVessel.cs:248-252 | FillWater(quality) leaves the vessel full, at exactly its capacity when it was not full before. |
| WaterMath.Reduce | Assets/Scripts/WaterSystem/WaterVessel.cs:184-197 | Nothing changes for amount <= 0 or an empty vessel. Otherwise the amount drops by min(amount, current), hits 0 iff amount >= current, and the quality resets to 0 exactly then. The invariant is kept for every capacity. |
| WaterMath.EmptyAll | Assets/Scripts/WaterSystem/WaterVessel.cs:256-262 | A vessel holding water ends empty with quality 0; an empty one is untouched. |
| WaterMath.EmptyIsReduceAll | Assets/Scripts/WaterSystem/WaterVessel.cs:184-197 | For a valid vessel, emptying equals reducing by the whole amount, and both give the empty water. |
| WaterMath.BlendExample | Assets/Scripts/WaterSystem/WaterVessel.cs:220-230 | 50 L at quality 100 then 30 L at quality 0 in an empty 80 L vessel gives 80 L at quality 62.5. |
| WaterMath.FoldAngle | Assets/Scripts/WaterSystem/WaterVessel.cs:56-61 | An angle in [0, 360) folds into [0, 180]: unchanged up to 180, 360 − a above. |
| WaterMath.TiltTestsAgree | Assets/Scripts/Interactions/WaterInteractionBase.cs:271-285 | The base's max-of-folded-angles test and the vessel's either-angle test agree, and tilting past the threshold in either axis is pouring. |
| WaterMath.TiltStep | Assets/Scripts/WaterSystem/WaterVessel.cs:297-312 | OnTilted is called only on a rising edge while holding water. An empty vessel clears the edge flag; otherwise the flag becomes this frame's tilt. |
| WaterMath.TiltRun | Assets/Scripts/WaterSystem/WaterVessel.cs:297-312 | One OnTilted decision per frame. |
| WaterMath.NoPourOnConsecutiveFrames | Assets/Scripts/WaterSystem/WaterVessel.cs:302-307 | OnTilted is never called in two consecutive frames, so holding a vessel tilted pours once. |
| WaterMath.Receive | Assets/Scripts/Interactions/WaterReceiver.cs:234-263 | ReceiveWater executes iff the cooldown has passed and CanReceiveWater holds. A refusal changes nothing. An execution stamps the time and marks the receiver completed. |
| WaterMath.OneShotExecutesAtMostOnce | Assets/Scripts/Interactions/WaterReceiver.cs:244-259 | A one-shot receiver executes at most once over any sequence of calls, and never once completed. |
| WaterMath.CooldownRefusesSecondCall | Assets/Scripts/Interactions/WaterReceiver.cs:237-241 | A call inside the cooldown window of an execution is refused and changes nothing. |
| WaterMath.FilterAccepts | Assets/Scripts/Interactions/WaterReceiver.cs:122-139 | The converted filter accepts every vessel for All, and exactly its own kind for WaterBucket or WaterCup. |
| WaterSystem.UnregisterList | Assets/Scripts/WaterSystem/WaterVessel.cs:330-337 | Removing a present receiver shortens the list by one, and removing an absent one changes nothing. Nothing new appears. |
| WaterSystem.UnregisterMembership | Assets/Scripts/WaterSystem/WaterVessel.cs:330-337 | On a registry without duplicates, unregistering removes exactly the receiver named and keeps the registry free of duplicates. |
| WaterSystem.RegistryLaws | Assets/Scripts/WaterSystem/WaterVessel.cs:318-337 | Register and unregister are idempotent and keep the registry free of duplicates. Unregistering a newly registered receiver restores the registry. |
| WaterSystem.UnregisterAppended | Assets/Scripts/WaterSystem/WaterVessel.cs:318-337 | Removing the receiver just appended gives back the list it was appended to. |
| WaterSystem.AwakeCapacity | Assets/Scripts/WaterSystem/WaterBucket.cs:8-15 | A capacity configured as 0 becomes 80 for a bucket and 10 for a cup (WaterCup.cs:8-15); any other value is kept. |
| WaterSystem.LastReady | Assets/Scripts/WaterSystem/WaterVessel.cs:382-407 | The index chosen is in range or −1, and the receiver there is live and would execute. |
| WaterSystem.LastReadyIsLast | Assets/Scripts/WaterSystem/WaterVessel.cs:382-407 | No receiver registered after the chosen one would execute, so the newest-first walk stops at the chosen one. |
| WaterSystem.KeepMembership | Assets/Scripts/WaterSystem/WaterVessel.cs:386-391 | Pruning drops exactly the destroyed receivers. |
| WaterSystem.Snapshot | Assets/Scripts/WaterSystem/WaterVessel.cs:382-387 | One slot per registered receiver. |
| WaterSystem.SnapshotAt | Assets/Scripts/WaterSystem/WaterVessel.cs:384-387 | Slot j is receiver j's destroyed flag and gate. |
| WaterSystem.WalkStep | Assets/Scripts/WaterSystem/WaterVessel.cs:382-391 | One step of the reverse loop: RemoveAt(i) of a destroyed receiver, or moving past a live one, keeps the walked-registry invariant. |
| WaterSystem.WalkEnds | Assets/Scripts/WaterSystem/WaterVessel.cs:382 | The walk starts at the whole registry and, run through, gives the fully pruned registry. |
| WaterSystem.Vessel.constructor | Assets/Scripts/WaterSystem/WaterVessel.cs:12-42 | The vessel starts with its settings, no water at quality 0, never tilted (lastTiltTime −1) and no receivers. |
| WaterSystem.Vessel.Awake | Assets/Scripts/WaterSystem/WaterBucket.cs:8-15 | Only the kind's default-capacity rule runs (WaterCup.cs:8-15), and the invariant is kept. |
| WaterSystem.Vessel.SetPose | Assets/Scripts/WaterSystem/WaterVessel.cs:56-57 | The Euler angles read by the pour test are the ones given. |
| WaterSystem.Vessel.ReduceWater | Assets/Scripts/WaterSystem/WaterVessel.cs:184-197 | The contents become Reduce(old contents, amount), and the invariant is kept. |
| WaterSystem.Vessel.FillWater | Assets/Scripts/WaterSystem/WaterVessel.cs:205-243 | The contents and the returned litres are Fill(capacity, old contents, amount, quality), and the invariant is kept. |
| WaterSystem.Vessel.FillWaterToCapacity | Assets/Scripts/WaterSystem/WaterVessel.cs:248-252 | The contents are the fill of the whole capacity at the given quality. |
| WaterSystem.Vessel.EmptyWater | Assets/Scripts/WaterSystem/WaterVessel.cs:256-262 | The contents become EmptyAll(old contents), and the invariant is kept. |
| WaterSystem.Vessel.RegisterReceiver | Assets/Scripts/WaterSystem/WaterVessel.cs:318-325 | A non-null receiver is appended unless already present; null changes nothing. |
| WaterSystem.Vessel.UnregisterReceiver | Assets/Scripts/WaterSystem/WaterVessel.cs:330-337 | The first occurrence of a non-null receiver is removed; null changes nothing. |
| WaterSystem.Vessel.OnTiltedOutsideTask | Assets/Scripts/WaterSystem/WaterVessel.cs:416-420 | The hook does nothing. A ghost log records the call and its arguments. |
| WaterSystem.Vessel.PruneAndFind | Assets/Scripts/WaterSystem/WaterVessel.cs:382-410 | The reverse loop stops at LastReady, the newest live, ready receiver, or runs through. It leaves the registry pruned of destroyed entries in the walked part only. |
| WaterSystem.Vessel.NotifyWaterReceivers | Assets/Scripts/WaterSystem/WaterVessel.cs:377-411 | The registry is pruned as walked. At most one receiver, the newest ready one, executes its task with the water given, and every other receiver is unchanged. Of the receivers only the `gate` state can change (the frame), so their vessel, cost and filters are kept. The result says whether one executed. |
| WaterSystem.Vessel.OnTilted | Assets/Scripts/WaterSystem/WaterVessel.cs:342-371 | A vessel holding water and out of cooldown pours: it ends empty, stamps lastTiltTime, and delivers the pre-drain amount and quality to at most one receiver. The outside-task hook is called iff none executed. Otherwise nothing changes. Either way the receivers' fields other than `gate` are untouched. |
| WaterSystem.Vessel.Pour | Assets/Scripts/WaterSystem/WaterVessel.cs:352-370 | The part of OnTilted after its guards: the snapshot, the notification, EmptyWater and the hook, as above; only the receivers' `gate` state can change. |
| WaterSystem.Vessel.Update | Assets/Scripts/WaterSystem/WaterVessel.cs:294-313 | The edge flag follows TiltStep. On a rising edge the OnTilted outcome follows, and otherwise the pour state is unchanged. The receivers' fields other than `gate` are untouched in both cases. |
| WaterSystem.Receiver.constructor | Assets/Scripts/Interactions/WaterReceiver.cs:14-50 | The settings given, not completed, lastExecutionTime −1, no vessel, and the filter null until Awake. |
| WaterSystem.Receiver.Awake | Assets/Scripts/Interactions/Field.cs:12-19 | The effective filter is converted from the configured enum before Field (or DrinkingPoint.cs:14-21) assigns its own enum. The subclass's Bucket-only or Cup-only setting therefore does not take effect, and one-shot execution is forced on. |
| WaterSystem.Receiver.Destroy | Assets/Scripts/WaterSystem/WaterVessel.cs:387 | The receiver is marked destroyed, which the registry walk prunes. |
| WaterSystem.Receiver.OnTriggerEnter | Assets/Scripts/Interactions/WaterReceiver.cs:144-179 | An allowed vessel is remembered whether or not it holds water, and this receiver registers with it only if it has water. A null or disallowed object changes nothing, and only the vessel's registry can change. |
| WaterSystem.Receiver.OnTriggerStay | Assets/Scripts/Interactions/WaterReceiver.cs:181-200 | The remembered, allowed vessel gets the receiver registered once it holds water; anything else is unchanged. |
| WaterSystem.Receiver.OnTriggerExit | Assets/Scripts/Interactions/WaterReceiver.cs:202-217 | When the remembered vessel leaves, the receiver unregisters from it and forgets it. Other objects change nothing. |
| WaterSystem.Receiver.ReceiveWater | Assets/Scripts/Interactions/WaterReceiver.cs:234-263 | The gate and the result follow Receive. The ledger gets the task's effect exactly when it executes. |
| WaterSystem.Receiver.ExecuteTask | Assets/Scripts/Interactions/Field.cs:24-31 | A field records farming of the amount; a drinking point (DrinkingPoint.cs:26-42) records drinking of the amount and quality. The vessel is not touched. |
| WaterSystem.DrinkClassificationAgrees | Assets/Scripts/Interactions/DrinkingPoint.cs:12-28 | With the default threshold 80, a safe drink (inclusive at 80) raises stamina by 10 up to 100, and an unsafe one lowers it by 10 down to 0. Each drink adds one to the count. |
| InteractionGates.FillLevelIsExact | Assets/Scripts/Interactions/WaterInteractionBase.cs:140-149 | The two fill-level guards admit a vessel iff it is full exactly when requiresFull is set; a partly filled vessel passes when it is not. |
| InteractionGates.InteractionGate.constructor | Assets/Scripts/Interactions/WaterInteractionBase.cs:60-73 | The settings given, no container, not executing, and the filter null until Awake. |
| InteractionGates.InteractionGate.Awake | Assets/Scripts/Interactions/WaterInteractionBase.cs:75-111 | The filter is the conversion of the enum. |
| InteractionGates.InteractionGate.Enter | Assets/Scripts/Interactions/WaterInteractionBase.cs:113-155 | A vessel is accepted iff it is not null, its kind passes and its fill level passes. An accepted vessel becomes the container; a refusal changes nothing. |
| InteractionGates.InteractionGate.ClearContainer | Assets/Scripts/Interactions/WaterInteractionBase.cs:172-176 | The container is forgotten and isExecuting cleared. |
| InteractionGates.AcceptsExactly | Assets/Scripts/Interactions/WaterInteractionBase.cs:117-149 | The entry filter is stated outright: a matching kind (or no filter), and full exactly when requiresFull is set. |
| InteractionGates.TiltConditionIsPourTest | Assets/Scripts/Interactions/WaterInteractionBase.cs:271-285 | With a container, the tilt condition is the container's pour test at the gate's threshold. |
| InteractionGates.ConditionFacts | Assets/Scripts/Interactions/WaterInteractionBase.cs:179-215 | The button condition is the press edge and the tilt condition is the tilt. CollisionDetection never polls in Update, and polling needs a container and no task running. |
| WaterSources.WaterSource.constructor | Assets/Scripts/Interactions/WaterSource.cs:15-19 | The settings given, including the gate's condition, tilt threshold, vessel enum and requiresFull. The gate's filter is null until Awake, with no container, no flow and no stop scheduled. |
| WaterSources.WaterSource.Awake | Assets/Scripts/Interactions/WaterSource.cs:21-28 | The base conversion, then requiresFull is false. |
| WaterSources.WaterSource.StartWaterFlow | Assets/Scripts/Interactions/WaterSource.cs:68-92 | Both flags are set. The container is filled up to capacity at waterQuality. A draw of MaxCapacity is recorded and staminaCost paid with no clamp, and a stop is scheduled flowDuration later. |
| WaterSources.WaterSource.StopWaterFlow | Assets/Scripts/Interactions/WaterSource.cs:94-106 | Both flags are cleared. |
| WaterSources.WaterSource.ExecuteTask | Assets/Scripts/Interactions/WaterSource.cs:42-66 | It starts iff there is a container that is not full and no flow; otherwise nothing changes. |
| WaterSources.WaterSource.OnTriggerEnter | Assets/Scripts/Interactions/WaterInteractionBase.cs:113-166 | The gate's filter decides the container. It starts at once iff the vessel is accepted and not full, the mode is CollisionDetection and nothing flows; otherwise nothing starts. |
| WaterSources.WaterSource.OnTriggerExit | Assets/Scripts/Interactions/WaterSource.cs:36-40 | When the leaving object is the container, the flow stops and the container is cleared (WaterInteractionBase.cs:168-177); otherwise nothing changes. |
| WaterSources.WaterSource.Update | Assets/Scripts/Interactions/WaterInteractionBase.cs:179-194 | It starts iff the gate polls, this frame's condition holds and ExecuteTask would start; otherwise nothing changes. A CollisionDetection source never starts from Update, whatever the button or the angles. |
| WaterSources.WaterSource.FlowTimerElapsed | Assets/Scripts/Interactions/WaterSource.cs:91 | Once the oldest scheduled stop is due, it runs and leaves the queue; before that nothing changes. |
| WaterSources.AwakeSourceAdmitsOnlyNotFull | Assets/Scripts/Interactions/WaterSource.cs:26 | After Awake a vessel arms the source iff its kind passes and it is not full. |
| WaterSources.StartFillsToCapacity | Assets/Scripts/Interactions/WaterSource.cs:79-80 | A start leaves a vessel that was not full at exactly its capacity, having added capacity − current. |
| VesselTransfers.PourOutVolume | Assets/Scripts/WaterSystem/WaterVesselInteraction.cs:135-137 | Pouring out empties this vessel and fills the other to exactly its capacity. The volume is conserved iff the other's free space equals this vessel's capacity. |
| VesselTransfers.PourOutDoublesWater | Assets/Scripts/WaterSystem/WaterVesselInteraction.cs:135-137 | A full 5 L cup poured into an empty 10 L bucket leaves 10 L: the transfer creates water. |
| VesselTransfers.VesselTransfer.constructor | Assets/Scripts/WaterSystem/WaterVesselInteraction.cs:13-23 | The settings given, including the gate's condition, tilt threshold, vessel enum and requiresFull. The gate's filter is null until Awake; not transferring, and no stop scheduled. |
| VesselTransfers.VesselTransfer.Awake | Assets/Scripts/WaterSystem/WaterVesselInteraction.cs:28-52 | The base conversion runs. An enabled source role then forces requiresFull and TiltDetection; otherwise both are kept. |
| VesselTransfers.VesselTransfer.TransferWaterOut | Assets/Scripts/WaterSystem/WaterVesselInteraction.cs:119-144 | With this vessel full and the other not full, the other is filled to capacity at this vessel's quality and this one emptied. Both flags are set and a stop is scheduled after transferDuration. Otherwise nothing changes. |
| VesselTransfers.VesselTransfer.TransferWaterIn | Assets/Scripts/WaterSystem/WaterVesselInteraction.cs:149-168 | With this vessel not full and the other full, this one is filled to capacity at the other's quality and the other emptied. Both flags end cleared. Otherwise nothing changes. |
| VesselTransfers.VesselTransfer.StopTransfer | Assets/Scripts/WaterSystem/WaterVesselInteraction.cs:170-180 | Both flags are cleared. |
| VesselTransfers.VesselTransfer.ExecuteTask | Assets/Scripts/WaterSystem/WaterVesselInteraction.cs:99-114 | With no transfer running, the source role (pour out) is tried before the receiver role (fill in). Nothing changes while transferring or when neither role applies. |
| VesselTransfers.VesselTransfer.Update | Assets/Scripts/Interactions/WaterInteractionBase.cs:179-194 | The base firing rule with the override of CheckCondition (WaterVesselInteraction.cs:182-199): a transfer starts only when the gate polls, the condition holds and no transfer runs. A CollisionDetection transfer never runs from Update, whatever the button or the angles. |
| VesselTransfers.VesselTransfer.OnTriggerEnter | Assets/Scripts/WaterSystem/WaterVesselInteraction.cs:54-92 | Non-vessels and the component's own vessel are ignored. The receiver role is checked before the source role, and the partner becomes the container. In CollisionDetection mode that role's transfer runs at once; otherwise nothing moves. |
| VesselTransfers.VesselTransfer.OnTriggerExit | Assets/Scripts/Interactions/WaterInteractionBase.cs:168-177 | When the leaving object is the container it is cleared along with isExecuting, while isTransferring is kept. Other objects change nothing. |
| VesselTransfers.VesselTransfer.TransferTimerElapsed | Assets/Scripts/WaterSystem/WaterVesselInteraction.cs:143 | Once the oldest scheduled stop is due, StopTransfer runs and the stop leaves the queue. |
| VesselTransfers.RolesExclusive | Assets/Scripts/WaterSystem/WaterVesselInteraction.cs:121-122 | No partner can be both poured into and filled from, and the component's own vessel is never a partner. |
| WaterTaps.WaterTap.constructor | Assets/Scripts/Interactions/WaterTap.cs:12-20 | The four serialized settings (shipped as quality 100, cost 10, button trigger on, collision trigger off) are stored as given; no container, no flow. |
| WaterTaps.WaterTap.StartWaterFlow | Assets/Scripts/Interactions/WaterTap.cs:61-83 | With a container that is not full, the flow flag is set and the container filled to capacity at waterQuality. MaxCapacity is recorded as drawn and staminaCost paid, and a stop is scheduled after 2 s. Otherwise nothing changes, even while a flow runs. |
| WaterTaps.WaterTap.StopWaterFlow | Assets/Scripts/Interactions/WaterTap.cs:85-94 | The flow flag is cleared. |
| WaterTaps.WaterTap.OnTriggerEnter | Assets/Scripts/Interactions/WaterTap.cs:22-36 | Any vessel that is not full becomes the container, and in collision mode the flow starts at once. |
| WaterTaps.WaterTap.OnTriggerExit | Assets/Scripts/Interactions/WaterTap.cs:38-46 | When the leaving object is the container, the flow stops and the container is cleared; other objects change nothing. |
| WaterTaps.WaterTap.Update | Assets/Scripts/Interactions/WaterTap.cs:48-59 | In button mode the flow starts iff there is no flow, the button is pressed and the container can be filled; otherwise nothing changes. |
| WaterTaps.WaterTap.FlowTimerElapsed | Assets/Scripts/Interactions/WaterTap.cs:82 | Once the oldest scheduled stop is due, the flow stops. |
| DisposalZones.AtMostOneDisposalPerVisit | Assets/Scripts/Interactions/WaterDisposalZone.cs:36-62 | Within one visit (no re-entry) at most one frame disposes, and none once the flag is set. |
| DisposalZones.DisposalZone.constructor | Assets/Scripts/Interactions/WaterDisposalZone.cs:9-13 | The two serialized settings (shipped as 10 and 2) are stored as given; no container, not disposed. |
| DisposalZones.DisposalZone.OnTriggerEnter | Assets/Scripts/Interactions/WaterDisposalZone.cs:15-24 | Any vessel becomes the container and re-arms the zone; a non-vessel changes nothing. |
| DisposalZones.DisposalZone.OnTriggerExit | Assets/Scripts/Interactions/WaterDisposalZone.cs:26-34 | The container is cleared iff the leaving object is it (two nulls count as equal). |
| DisposalZones.DisposalZone.DisposeWater | Assets/Scripts/Interactions/WaterDisposalZone.cs:48-63 | The vessel is emptied, its MaxCapacity recorded as waste, and the zone marked disposed. |
| DisposalZones.DisposalZone.Update | Assets/Scripts/Interactions/WaterDisposalZone.cs:36-46 | It disposes iff there is a container that is full and at pouring angle, and nothing was disposed yet this visit; otherwise nothing changes. |
| ObiWater.AddedQualityIsBlend | Assets/Obi/Samples/Common/SampleResources/Scripts/WaterContainer.cs:17-24 | When the added water fits, the new quality is the volume-weighted blend of old and incoming, within [0, 100] when both are. |
| ObiWater.ClampedAddLeavesRange | Assets/Obi/Samples/Common/SampleResources/Scripts/WaterContainer.cs:22 | When the add is clamped, the numerator still counts all the incoming litres: 5 L at 100 plus 5 L at 100 in a 5 L container gives quality 200. |
| ObiWater.WaterContainer.constructor | Assets/Obi/Samples/Common/SampleResources/Scripts/WaterContainer.cs:8-15 | 5 L capacity, empty, quality 0. |
| ObiWater.WaterContainer.AddWater | Assets/Obi/Samples/Common/SampleResources/Scripts/WaterContainer.cs:17-24 | The litres become min(current + liters, max). The quality is AddedQuality, with the divisor floored at 0.0001. |
| ObiWater.WaterContainer.DirtyByUse | Assets/Obi/Samples/Common/SampleResources/Scripts/WaterContainer.cs:26-29 | The quality becomes clamp(quality + delta, 0, 100), with delta 10 by default. It stays in [0, 100] and never drops for delta >= 0. |
| ObiWater.WaterContainer.Consume | Assets/Obi/Samples/Common/SampleResources/Scripts/WaterContainer.cs:31-36 | min(liters, current) is removed and returned. The amount never goes negative for liters >= 0, and it reaches 0 when liters >= current. |
| ObiWater.DirtObject.constructor | Assets/Obi/Scripts/DirectObject.cs:8 | The dirt level starts at 100. |
| ObiWater.DirtObject.Clean | Assets/Obi/Scripts/DirectObject.cs:10-15 | The level becomes clamp(level − a, 0, 100): within [0, 100], and never raised for a >= 0. |
| ObiWater.DirtObject.Dirty | Assets/Obi/Scripts/DirectObject.cs:17-22 | The level becomes clamp(level + a, 0, 100): within [0, 100], and never lowered for a >= 0. |
| ObiWater.CleanDirtyInverse | Assets/Obi/Scripts/DirectObject.cs:10-22 | Without clamping, Dirty undoes Clean and Clean undoes Dirty. |
| GridPlacement.ActivePrefix | Assets/Scripts/GridSystem/SimpleGridPlacer.cs:70-88 | The indices kept are strictly increasing, in range, and all of active children. |
| GridPlacement.ActivePrefixComplete | Assets/Scripts/GridSystem/SimpleGridPlacer.cs:72-84 | With no limit, every active child is kept. |
| GridPlacement.ActivePrefixGrows | Assets/Scripts/GridSystem/SimpleGridPlacer.cs:72-84 | Scanning further never drops a kept child. |
| GridPlacement.SelectedFacts | Assets/Scripts/GridSystem/SimpleGridPlacer.cs:70-88 | Only active children are kept, in child order, at most maxObjects when it is positive. An active child is left out only when the limit was reached before it. |
| GridPlacement.MaxSizeIsLeastBound | Assets/Scripts/GridSystem/SimpleGridPlacer.cs:99-112 | The maximum object size is non-negative and bounds every kept child's size on each axis. On each axis it is either zero or the size of one of the kept children. |
| GridPlacement.WalkIsDivMod | Assets/Scripts/GridSystem/SimpleGridPlacer.cs:179-188 | After k advances with m > 0 per row, the column is k mod m and the row k div m. With m <= 0, the column is k and the row 0. |
| GridPlacement.GridPositionClosedForm | Assets/Scripts/GridSystem/SimpleGridPlacer.cs:169-176 | The j-th object's position is base + (col × spacing.x, height, row × spacing.z). The height is heightOffset when flat, and the row times spacing.y plus heightOffset when stepped. |
| GridPlacement.PlacedUpToFacts | Assets/Scripts/GridSystem/SimpleGridPlacer.cs:165-189 | After placing k objects, exactly the first k kept children have moved, each to its grid position; every other child keeps its position. |
| GridPlacement.GridPlacer.constructor | Assets/Scripts/GridSystem/SimpleGridPlacer.cs:13-48 | The settings given, nothing detected, zero sizes and counters. |
| GridPlacement.GridPlacer.CalculateObjectSizes | Assets/Scripts/GridSystem/SimpleGridPlacer.cs:99-112 | The maximum size over the kept children, and spacing = that size × spacingMultiplier per axis. |
| GridPlacement.GridPlacer.DetectChildren | Assets/Scripts/GridSystem/SimpleGridPlacer.cs:68-94 | The list is cleared and refilled with the selection: active children in order, up to maxObjects. |
| GridPlacement.GridPlacer.PlaceAllObjectsOnGrid | Assets/Scripts/GridSystem/SimpleGridPlacer.cs:144-190 | Children are re-detected. With none, it returns without moving anything. Otherwise sizes are recalculated and every kept child is set to its grid position relative to parent + offset. The counters end at the walk's final cell, and the parent is not moved. |
| GridPlacement.GridPlacer.PlaceDetected | Assets/Scripts/GridSystem/SimpleGridPlacer.cs:160-189 | The placement loop: the counters are reset, each kept child is placed at its cell, and the counters advance row-major. |
| GridPlacement.GridPlacer.ResetPlacement | Assets/Scripts/GridSystem/SimpleGridPlacer.cs:196-201 | The three counters are zero. |

## Left out

- Unity lifecycle plumbing is not modelled:
  - collider, renderer and rigidbody discovery and its warnings in every `Awake`/`Start`;
  - `Debug.Log`;
  - `GetComponent` lookups: "the other object is a vessel" is a nullable `Vessel?` argument;
  - the base WaterVessel `Awake`/`Start` collider set-up, which WaterBucket and WaterCup hide anyway.
- `UpdateMaterial`, the before/after materials and the Obi effect `SetActive` calls are rendering only.
- WaterInteractionBase's `OnContainerEntered`/`OnContainerExited` hooks are not modelled as separate members. OnContainerEntered is empty in every site, so it is left out. The water source's OnContainerExited (stop flow) is inlined in `WaterSources.WaterSource.OnTriggerExit`.
- `CheckButtonInput`: the mapping of buttons to `OVRInput` calls is a foreign input, so it becomes the `pressed` argument (this frame's GetDown of the configured button).
- `transferAmount` in WaterVesselInteraction is used only in a log message, so it is not a field.
- The `myVessel == null` branch of WaterVesselInteraction's `Awake`, a `GetComponent` fallback, is left out. The vessel is a constructor argument.
- SimpleGridPlacer is modelled without three pieces:
  - `GetObjectBounds`, a renderer/collider lookup: bounds sizes are inputs, one `Child` per child transform;
  - `OnTransformChildrenChanged`, which runs only in the editor;
  - the `obj == null` skip, since a child cannot vanish between detection and placement within one call.
- SimpleGridPlacerEditor.cs, GameUIManager.cs, UIController.cs and WaterColorizer.cs are UI or editor code and are not part of this model.
- Laundry.cs and LaundryTask.cs are not part of this model. They override a `ConsumeWater` that WaterReceiver lacks and use fields and a `RecordLaundry` that exist nowhere.
- WaterCollisionHandler.cs and WaterTriggerHandler.cs are physics callbacks whose only effect is a call into DirtObject, which is modelled directly.
- IWaterReceiver.cs has no behaviour. The vessel's registry holds `Receiver` objects, the one implementation.
- Frame scheduling between components is not modelled: each handler is a separate method, and an engine loop is not. This covers, for example, a disposal zone and a vessel's tilt detector in the same frame.
- Float rounding is not modelled: every gauge is a `real`.
- 32-bit integer overflow is not modelled. The `ActionHistory` counts (`DrawCount` and the other task counts) and the placer's `currentX`, `currentZ` and `currentHeight` are C# `int`s, but here they are unbounded `int`s. Wrap-around would need over two billion recorded tasks or placed objects.
- After a `Destroy`, only the "compares equal to null" effect is kept, as the receiver's `destroyed` flag. Other uses of a destroyed object are not modelled.
- GameManager's `Awake` singleton set-up and `Destroy` of a duplicate are not modelled: the ledger is passed explicitly.
- WaterSystem.Vessel.NotifyWaterReceivers assumes that a receiver which CanReceiveWater admits but ReceiveWater refuses (it is in cooldown) changes nothing, which holds for `Receiver`. The walk is proved in `PruneAndFind` and then calls only the receiver that executes. Calling and ignoring the refusing ones is equivalent, because a refusal changes nothing (`WaterMath.Receive`).

## Discrepancies between the code and its design (the model follows the code)

- **The call sites do not match the ledger.** GameManager.cs defines `RecordFarming(amount)`, `RecordDrinking(amount, quality)` and `RecordWaste(amount)`. The sites call other signatures:
  - Assets/Scripts/Interactions/Field.cs:30 calls RecordFarming with 3 arguments (amount, qualityDecrease, staminaCost);
  - Assets/Scripts/Interactions/DrinkingPoint.cs:41 calls RecordDrinking with 4 (amount, quality, safeStaminaGain, unsafeStaminaLoss);
  - Assets/Scripts/Interactions/WaterDisposalZone.cs:60 calls RecordWaste with 3 (amount, qualityDecrease, staminaCost).

  The model's sites pass only the arguments the ledger takes. Field's `qualityDecrease` (50), a receiver's `staminaCost` (15), DrinkingPoint's gain and loss, and the disposal zone's `qualityDecrease` (10) and `staminaCost` (2) never reach the ledger. The ledger applies its own fixed −5, −10 and ±10 instead.
- WaterBucket.cs:17 and WaterCup.cs:17 override a parameterless `OnTiltedOutsideTask()`, while WaterVessel declares `OnTiltedOutsideTask(float, float)` (WaterVessel.cs:416). Both versions do nothing, so the model keeps the base hook.
- Field and DrinkingPoint assign their Bucket-only or Cup-only enum after `base.Awake()` has already converted the filter (WaterReceiver.cs:116). The effective filter therefore stays the configured one (`WaterSystem.Receiver.Awake`).
- DrinkingPoint classifies the water with its own `safeQualityThreshold`, but only to choose a log message. The ledger classifies again with its fixed 80.
- `CalculateHygiene` is 100 for every history, because the unsafe volume is fixed at 0. `CalculateEfficiency` counts only drinking and farming, so waste and washing never lower it.
- `EndGame` has no once-only guard: every record after the limit fires OnGameEnded again (`GameManagement.GameEndsAgainOnEveryRecord`).
- WaterVesselInteraction fills the partner to its full capacity and then empties the pouring vessel, whatever the volumes. A 5 L cup can fill a 10 L bucket (`VesselTransfers.PourOutDoublesWater`).
- WaterVesselInteraction has two further oddities:
  - its tilt condition reads the container's angles (the partner's), not its own vessel's;
  - an exit clears `isExecuting` but not `isTransferring`, so a transfer out keeps blocking until its timer runs `StopTransfer`.
- When an object without a WaterVessel leaves while there is no container, two nulls compare equal. WaterSource, WaterTap and WaterDisposalZone then run their "container left" branch: the flow stops and the container is cleared (it was already null).
- WaterTap's `StartWaterFlow` has no `isWaterFlowing` guard. A collision-mode entry during a flow fills and records a second draw.
- The source, the tap and the disposal zone have draw and waste inconsistencies:
  - the source and the tap record a draw of `MaxCapacity` however much was added;
  - the disposal zone records `MaxCapacity` as waste;
  - the stamina cost of a draw is subtracted without a clamp, unlike RecordDrinking's.
- `WaterContainer.DirtyByUse` raises the quality number, which in that sample means cleaner.
- `WaterContainer.AddWater` can leave the quality above 100 when the add is clamped (`ObiWater.ClampedAddLeavesRange`).
- SimpleGridPlacer's stepped height mode is documented as raising the height for each object (SimpleGridPlacer.cs:38). The code (SimpleGridPlacer.cs:180-187) raises it once per completed row instead, and never when `maxObjectsPerRow` is 0 (`GridPlacement.HeightAt`, `GridPlacement.GridPositionClosedForm`).
