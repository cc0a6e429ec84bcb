/** Pure arithmetic behind a water vessel (bucket or cup) and the receivers it pours into:
    filling with volume-weighted quality blending, draining, the Euler-angle pouring test,
    the rising-edge tilt detector and the cooldown / one-shot gate of a receiver.
    Unity floats are modelled as `real`. */
module WaterMath {

  datatype Option<T> = None | Some(value: T)

  /** The two concrete vessel classes, WaterBucket and WaterCup. */
  datatype VesselKind = Bucket | Cup

  /** The water a vessel holds: its amount in litres and its quality (0 dirty .. 100 clean). */
  datatype Water = Water(amount: real, quality: real)

  const Empty := Water(0.0, 0.0)

  function Min(a: real, b: real): real { if a <= b then a else b }

  function Max(a: real, b: real): real { if a >= b then a else b }

  function Abs(x: real): real { if x < 0.0 then -x else x }

  /** Mathf.Clamp(x, lo, hi). */
  function Clamp(x: real, lo: real, hi: real): (r: real)
    requires lo <= hi
    ensures lo <= r <= hi
    ensures lo <= x <= hi ==> r == x
    ensures x < lo ==> r == lo
    ensures x > hi ==> r == hi
  {
    if x < lo then lo else if x > hi then hi else x
  }

  /** What every vessel keeps: a non-negative amount that never exceeds the capacity,
      and quality 0 whenever the vessel is empty. */
  ghost predicate WaterInvariant(capacity: real, w: Water)
  {
    && 0.0 <= w.amount
    && (w.amount > 0.0 ==> w.amount <= capacity)
    && (w.amount == 0.0 ==> w.quality == 0.0)
  }

  predicate IsFull(capacity: real, w: Water) { w.amount >= capacity }

  predicate HasWater(w: Water) { w.amount > 0.0 }

  /** The litres FillWater(amount, quality) actually adds: the request clamped to the free space,
      and nothing at all for a non-positive request or a full vessel. */
  function FillAmount(capacity: real, current: real, amount: real): (r: real)
    ensures 0.0 <= r
    ensures r > 0.0 <==> amount > 0.0 && current < capacity
    ensures r > 0.0 ==> r <= amount && current + r <= capacity
    ensures r > 0.0 ==> r == amount || current + r == capacity
  {
    if amount <= 0.0 then 0.0
    else
      var actual := Min(amount, capacity - current);
      if actual <= 0.0 then 0.0 else actual
  }

  /** Volume-weighted average of two bodies of water. */
  function BlendQuality(q1: real, a1: real, q2: real, a2: real): real
    requires a1 + a2 > 0.0
  {
    (q1 * a1 + q2 * a2) / (a1 + a2)
  }

  lemma MulNonNegative(x: real, y: real)
    requires x >= 0.0 && y >= 0.0
    ensures x * y >= 0.0
  {
  }

  /** The blended quality lies between the two qualities mixed. */
  lemma BlendBetween(q1: real, a1: real, q2: real, a2: real)
    requires a1 > 0.0 && a2 > 0.0
    ensures Min(q1, q2) <= BlendQuality(q1, a1, q2, a2) <= Max(q1, q2)
  {
    var lo, hi, t := Min(q1, q2), Max(q1, q2), a1 + a2;
    MulNonNegative(q1 - lo, a1);
    MulNonNegative(q2 - lo, a2);
    MulNonNegative(hi - q1, a1);
    MulNonNegative(hi - q2, a2);
    var n := q1 * a1 + q2 * a2;
    assert n >= lo * t;
    assert n <= hi * t;
    assert n / t * t == n;
  }

  /** FillWater(amount, quality): the new water and the litres added
      (WaterVessel.FillWater(float, float)). */
  function Fill(capacity: real, w: Water, amount: real, quality: real): (r: (Water, real))
    requires WaterInvariant(capacity, w)
    ensures r.1 == FillAmount(capacity, w.amount, amount)
    ensures r.0.amount == w.amount + r.1
    ensures r.1 == 0.0 ==> r.0 == w
    ensures r.1 > 0.0 && w.amount == 0.0 ==> r.0.quality == quality
    ensures r.1 > 0.0 && w.amount > 0.0 ==>
              r.0.quality == BlendQuality(w.quality, w.amount, quality, r.1)
              && Min(w.quality, quality) <= r.0.quality <= Max(w.quality, quality)
    ensures WaterInvariant(capacity, r.0)
    ensures 0.0 <= w.quality <= 100.0 && 0.0 <= quality <= 100.0 ==> 0.0 <= r.0.quality <= 100.0
  {
    var actual := FillAmount(capacity, w.amount, amount);
    if actual <= 0.0 then (w, 0.0)
    else if w.amount > 0.0 then
      BlendBetween(w.quality, w.amount, quality, actual);
      (Water(w.amount + actual, BlendQuality(w.quality, w.amount, quality, actual)), actual)
    else (Water(actual, quality), actual)
  }

  /** The one-argument FillWater(quality): a request for the whole capacity. It leaves a vessel
      of positive capacity full, whatever it held before. */
  lemma FillToCapacityMakesFull(capacity: real, w: Water, quality: real)
    requires WaterInvariant(capacity, w) && capacity > 0.0
    ensures IsFull(capacity, Fill(capacity, w, capacity, quality).0)
    ensures !IsFull(capacity, w) ==> Fill(capacity, w, capacity, quality).0.amount == capacity
  {
  }

  /** ReduceWater(amount). */
  function Reduce(w: Water, amount: real): (r: Water)
    requires 0.0 <= w.amount
    ensures amount <= 0.0 || w.amount <= 0.0 ==> r == w
    ensures amount > 0.0 && w.amount > 0.0 ==> r.amount == w.amount - Min(amount, w.amount)
    ensures amount > 0.0 && w.amount > 0.0 ==> (r.amount == 0.0 <==> amount >= w.amount)
    ensures amount > 0.0 && w.amount > 0.0 ==> r.quality == (if r.amount == 0.0 then 0.0 else w.quality)
    ensures forall c: real :: WaterInvariant(c, w) ==> WaterInvariant(c, r)
  {
    if amount <= 0.0 || w.amount <= 0.0 then w
    else
      var left := Max(0.0, w.amount - amount);
      Water(left, if left <= 0.0 then 0.0 else w.quality)
  }

  /** EmptyWater(). */
  function EmptyAll(w: Water): (r: Water)
    ensures w.amount > 0.0 ==> r == Empty
    ensures w.amount <= 0.0 ==> r == w
  {
    if w.amount <= 0.0 then w else Empty
  }

  /** Emptying is draining everything: for a vessel in its invariant, EmptyWater and
      ReduceWater(currentWaterAmount) agree, and both end empty at quality 0. */
  lemma EmptyIsReduceAll(capacity: real, w: Water)
    requires WaterInvariant(capacity, w)
    ensures EmptyAll(w) == Reduce(w, w.amount) == Empty
  {
  }

  /** Filling an empty vessel of capacity 80 with 50 litres at quality 100 and then 30 litres
      at quality 0 gives a full vessel at quality 62.5. */
  lemma BlendExample()
    ensures var w1 := Fill(80.0, Empty, 50.0, 100.0).0;
            var w2 := Fill(80.0, w1, 30.0, 0.0).0;
            w2 == Water(80.0, 62.5)
  {
    var w1 := Fill(80.0, Empty, 50.0, 100.0).0;
    assert w1 == Water(50.0, 100.0);
    assert BlendQuality(100.0, 50.0, 0.0, 30.0) == 62.5;
  }

  // ---- pouring angle -------------------------------------------------------------------

  /** An Euler angle folded into [0, 180]: its absolute value, reflected about 180. */
  function FoldAngle(a: real): (r: real)
    ensures 0.0 <= a < 360.0 ==> 0.0 <= r <= 180.0
    ensures 0.0 <= a <= 180.0 ==> r == a
    ensures 180.0 < a < 360.0 ==> r == 360.0 - a
  {
    var b := Abs(a);
    if b > 180.0 then 360.0 - b else b
  }

  /** WaterVessel.IsPouringAngle: either folded angle beyond the threshold. */
  predicate IsPouringAngle(angleX: real, angleZ: real, threshold: real)
  {
    FoldAngle(angleX) > threshold || FoldAngle(angleZ) > threshold
  }

  /** WaterInteractionBase.CheckTiltAngle tests the larger folded angle. */
  predicate TiltExceeds(angleX: real, angleZ: real, threshold: real)
  {
    Max(FoldAngle(angleX), FoldAngle(angleZ)) > threshold
  }

  /** The two tilt tests of the source agree whenever their thresholds do; and tilting a
      vessel the same amount the other way round (360 - a) gives the same answer. */
  lemma TiltTestsAgree(angleX: real, angleZ: real, threshold: real)
    ensures TiltExceeds(angleX, angleZ, threshold) <==> IsPouringAngle(angleX, angleZ, threshold)
    ensures 0.0 < angleX < 360.0 && 0.0 < angleZ < 360.0 ==>
              (IsPouringAngle(360.0 - angleX, 360.0 - angleZ, threshold)
               <==> IsPouringAngle(angleX, angleZ, threshold))
  {
  }

  // ---- tilt edge detection -------------------------------------------------------------

  /** One frame of WaterVessel.Update's edge detector: whether OnTilted is called, and the new
      value of wasTiltedLastFrame. */
  datatype TiltFrame = TiltFrame(callsOnTilted: bool, wasTilted: bool)

  function TiltStep(hasWater: bool, tiltedNow: bool, wasTilted: bool): (r: TiltFrame)
    ensures r.callsOnTilted ==> hasWater && tiltedNow && !wasTilted
    ensures !hasWater ==> r == TiltFrame(false, false)
    ensures hasWater ==> r.wasTilted == tiltedNow
  {
    if hasWater then TiltFrame(tiltedNow && !wasTilted, tiltedNow) else TiltFrame(false, false)
  }

  /** Runs the edge detector over a sequence of frames, each giving (hasWater, tiltedNow);
      returns the frames, by index, in which OnTilted is called. */
  function TiltRun(frames: seq<(bool, bool)>, wasTilted: bool): (r: seq<bool>)
    ensures |r| == |frames|
  {
    if frames == [] then []
    else
      var f := TiltStep(frames[0].0, frames[0].1, wasTilted);
      [f.callsOnTilted] + TiltRun(frames[1..], f.wasTilted)
  }

  /** Holding a vessel tilted pours once: OnTilted is never called in two consecutive frames. */
  lemma {:induction false} NoPourOnConsecutiveFrames(frames: seq<(bool, bool)>, wasTilted: bool, k: nat)
    requires k + 1 < |frames|
    ensures !(TiltRun(frames, wasTilted)[k] && TiltRun(frames, wasTilted)[k + 1])
  {
    var f := TiltStep(frames[0].0, frames[0].1, wasTilted);
    if k > 0 {
      NoPourOnConsecutiveFrames(frames[1..], f.wasTilted, k - 1);
    } else {
      var g := TiltStep(frames[1].0, frames[1].1, f.wasTilted);
      assert TiltRun(frames, wasTilted)[1] == TiltRun(frames[1..], f.wasTilted)[0] == g.callsOnTilted;
    }
  }

  /** A cooldown window measured from the last event: `now - last < cooldown`. */
  predicate InCooldown(now: real, last: real, cooldown: real) { now - last < cooldown }

  // ---- receiver gate -------------------------------------------------------------------

  /** The part of a WaterReceiver that decides whether ReceiveWater executes. */
  datatype ReceiverGate = ReceiverGate(oneTimeExecution: bool, cooldownTime: real,
                                       hasBeenCompleted: bool, lastExecutionTime: real)

  /** IWaterReceiver.CanReceiveWater. */
  predicate CanReceive(g: ReceiverGate) { !g.hasBeenCompleted || !g.oneTimeExecution }

  /** WaterReceiver.ReceiveWater at time `now`: the new gate and whether the task ran. */
  function Receive(g: ReceiverGate, now: real): (r: (ReceiverGate, bool))
    ensures r.1 <==> !InCooldown(now, g.lastExecutionTime, g.cooldownTime) && CanReceive(g)
    ensures !r.1 ==> r.0 == g
    ensures r.1 ==> r.0 == g.(hasBeenCompleted := true, lastExecutionTime := now)
  {
    if InCooldown(now, g.lastExecutionTime, g.cooldownTime) then (g, false)
    else if g.oneTimeExecution && g.hasBeenCompleted then (g, false)
    else (g.(hasBeenCompleted := true, lastExecutionTime := now), true)
  }

  /** How many of a sequence of ReceiveWater calls, at the given times, execute the task. */
  function ExecutionCount(g: ReceiverGate, times: seq<real>): nat
    decreases |times|
  {
    if times == [] then 0
    else
      var step := Receive(g, times[0]);
      (if step.1 then 1 else 0) + ExecutionCount(step.0, times[1..])
  }

  /** A one-shot receiver executes at most once over any sequence of calls, and not at all
      once it has completed. */
  lemma {:induction false} OneShotExecutesAtMostOnce(g: ReceiverGate, times: seq<real>)
    requires g.oneTimeExecution
    ensures ExecutionCount(g, times) <= (if g.hasBeenCompleted then 0 else 1)
    decreases |times|
  {
    if times != [] {
      var step := Receive(g, times[0]);
      OneShotExecutesAtMostOnce(step.0, times[1..]);
    }
  }

  /** A call inside the cooldown window of the previous execution is refused, even by a
      receiver that is not one-shot. */
  lemma CooldownRefusesSecondCall(g: ReceiverGate, t1: real, t2: real)
    requires Receive(g, t1).1 && t2 - t1 < g.cooldownTime
    ensures Receive(Receive(g, t1).0, t2) == (Receive(g, t1).0, false)
  {
  }

  /** WaterInteractionBase.AllowedVesselType / WaterReceiver.AllowedVesselType. */
  datatype AllowedVesselType = All | WaterBucket | WaterCup

  /** ConvertVesselTypeEnumToType: None stands for the null Type, which means "every vessel". */
  function ToVesselFilter(e: AllowedVesselType): Option<VesselKind>
  {
    match e
    case All => None
    case WaterBucket => Some(Bucket)
    case WaterCup => Some(Cup)
  }

  /** IsAllowedVesselType / the type check of WaterInteractionBase.OnTriggerEnter;
      WaterBucket and WaterCup have no subclasses, so IsSubclassOf adds nothing. */
  predicate Allows(filter: Option<VesselKind>, k: VesselKind)
  {
    filter == None || filter == Some(k)
  }

  /** The filter accepts every vessel for All, and exactly its own kind otherwise. */
  lemma FilterAccepts(e: AllowedVesselType, k: VesselKind)
    ensures Allows(ToVesselFilter(e), k) <==>
              (e == All || (e == WaterBucket && k == Bucket) || (e == WaterCup && k == Cup))
  {
  }

  /** DrinkingPoint's classification: safe iff the quality reaches the threshold, inclusive. */
  predicate IsSafeToDrink(quality: real, safeQualityThreshold: real)
  {
    quality >= safeQualityThreshold
  }
}
