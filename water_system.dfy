/** WaterVessel (with its WaterBucket / WaterCup kinds) and WaterReceiver (with its Field /
    DrinkingPoint kinds). The two classes reference each other, as in the source: a vessel keeps
    the receivers whose trigger volume it is in, and a receiver remembers the vessel in its
    volume and registers itself with it. `Time.time` is the `now` parameter; the GameManager
    singleton is the `gm` parameter; the Unity "destroyed object compares equal to null" test
    is the receiver's `destroyed` flag. */
module WaterSystem {

  import opened WaterMath
  import opened GameManagement

  // ---- the receiver registry as a list ----------------------------------------------------

  ghost predicate NoDuplicates<T>(s: seq<T>)
  {
    forall i, j :: 0 <= i < j < |s| ==> s[i] != s[j]
  }

  /** RegisterReceiver on the list: appended unless already present. */
  function RegisterList<T(==)>(s: seq<T>, x: T): seq<T>
  {
    if x in s then s else s + [x]
  }

  /** UnregisterReceiver on the list: List.Remove, which drops the first occurrence. */
  function UnregisterList<T(==)>(s: seq<T>, x: T): (r: seq<T>)
    ensures |r| == (if x in s then |s| - 1 else |s|)
    ensures x !in s ==> r == s
    ensures forall y :: y in r ==> y in s
  {
    if s == [] then []
    else if s[0] == x then s[1..]
    else [s[0]] + UnregisterList(s[1..], x)
  }

  /** Unregistering removes exactly the receiver named, and keeps the order of the others. */
  lemma {:induction false} UnregisterMembership<T>(s: seq<T>, x: T, y: T)
    requires NoDuplicates(s)
    ensures y in UnregisterList(s, x) <==> y in s && y != x
    ensures NoDuplicates(UnregisterList(s, x))
  {
    if s != [] {
      assert NoDuplicates(s[1..]) by {
        forall i, j | 0 <= i < j < |s[1..]| ensures s[1..][i] != s[1..][j] {
          assert s[1..][i] == s[i + 1] && s[1..][j] == s[j + 1];
        }
      }
      assert s[0] !in s[1..] by {
        forall i | 0 <= i < |s[1..]| ensures s[1..][i] != s[0] {
          assert s[1..][i] == s[i + 1];
        }
      }
      if s[0] != x {
        UnregisterMembership(s[1..], x, y);
        var t := UnregisterList(s[1..], x);
        assert s[0] !in t;
        forall i, j | 0 <= i < j < |[s[0]] + t| ensures ([s[0]] + t)[i] != ([s[0]] + t)[j] {
          if i == 0 {
            assert ([s[0]] + t)[j] == t[j - 1];
          } else {
            assert ([s[0]] + t)[i] == t[i - 1] && ([s[0]] + t)[j] == t[j - 1];
          }
        }
      }
    }
  }

  /** Register and unregister are idempotent, both keep the registry free of duplicates, and
      unregistering a receiver just registered gives back the registry it was added to. */
  lemma RegistryLaws<T>(s: seq<T>, x: T)
    requires NoDuplicates(s)
    ensures RegisterList(RegisterList(s, x), x) == RegisterList(s, x)
    ensures NoDuplicates(RegisterList(s, x))
    ensures UnregisterList(UnregisterList(s, x), x) == UnregisterList(s, x)
    ensures NoDuplicates(UnregisterList(s, x))
    ensures x !in s ==> UnregisterList(RegisterList(s, x), x) == s
  {
    UnregisterMembership(s, x, x);
    if x !in s {
      UnregisterAppended(s, x);
    }
  }

  lemma {:induction false} UnregisterAppended<T>(s: seq<T>, x: T)
    requires x !in s
    ensures UnregisterList(s + [x], x) == s
  {
    if s == [] {
      assert [] + [x] == [x];
    } else {
      assert (s + [x])[0] == s[0] && (s + [x])[1..] == s[1..] + [x];
      UnregisterAppended(s[1..], x);
    }
  }

  // ---- kinds -------------------------------------------------------------------------------

  /** The WaterReceiver subclasses Field and DrinkingPoint, with their serialized settings. */
  datatype Task =
    | Field(qualityDecrease: real)
    | DrinkingPoint(safeStaminaGain: real, unsafeStaminaLoss: real, safeQualityThreshold: real)

  /** The ledger effect of ExecuteTask(amount, quality): Field records farming, DrinkingPoint
      records drinking, with the records GameManager defines. */
  function TaskEffect(task: Task, s: Session, amount: real, quality: real): Session
  {
    match task
    case Field(_) => FarmStep(s, amount)
    case DrinkingPoint(_, _, _) => DrinkStep(s, amount, quality)
  }

  /** WaterBucket.Awake and WaterCup.Awake: a capacity configured as 0 becomes the kind's
      default (80 for a bucket, 10 for a cup); any other value is kept. */
  function AwakeCapacity(kind: VesselKind, configured: real): (r: real)
    ensures configured != 0.0 ==> r == configured
    ensures configured == 0.0 ==> r > 0.0
    ensures configured == 0.0 && kind == Bucket ==> r == 80.0
    ensures configured == 0.0 && kind == Cup ==> r == 10.0
  {
    if configured == 0.0 then (match kind case Bucket => 80.0 case Cup => 10.0) else configured
  }

  /** What a pour needs to know about one registered receiver: whether it has been destroyed,
      and its cooldown and one-shot state. */
  datatype Slot = Slot(destroyed: bool, gate: ReceiverGate)

  /** A receiver that would execute a pour at time `now`: still present in the scene and
      passing the cooldown and one-shot gate. */
  predicate SlotReady(s: Slot, now: real)
  {
    !s.destroyed && Receive(s.gate, now).1
  }

  /** The receiver NotifyWaterReceivers executes: the last registered one that is ready,
      or -1 when none is. */
  function LastReady(slots: seq<Slot>, now: real): (k: int)
    ensures -1 <= k < |slots|
    ensures k >= 0 ==> SlotReady(slots[k], now)
    decreases |slots|
  {
    if slots == [] then -1
    else if SlotReady(slots[|slots| - 1], now) then |slots| - 1
    else LastReady(slots[..|slots| - 1], now)
  }

  /** No receiver registered after the one LastReady picks is ready. */
  lemma {:induction false} LastReadyIsLast(slots: seq<Slot>, now: real, j: int)
    requires LastReady(slots, now) < j < |slots|
    ensures !SlotReady(slots[j], now)
    decreases |slots|
  {
    var n := |slots|;
    if !SlotReady(slots[n - 1], now) && j < n - 1 {
      LastReadyIsLast(slots[..n - 1], now, j);
      assert slots[..n - 1][j] == slots[j];
    }
  }

  /** The entries whose slot is not destroyed, in order. */
  function Keep<T>(xs: seq<T>, slots: seq<Slot>): seq<T>
    requires |xs| == |slots|
    decreases |xs|
  {
    if xs == [] then []
    else (if slots[0].destroyed then [] else [xs[0]]) + Keep(xs[1..], slots[1..])
  }

  /** Keep drops exactly the destroyed entries. */
  lemma {:induction false} KeepMembership<T>(xs: seq<T>, slots: seq<Slot>, x: T)
    requires |xs| == |slots|
    ensures x in Keep(xs, slots) <==> exists j :: 0 <= j < |xs| && xs[j] == x && !slots[j].destroyed
    decreases |xs|
  {
    if xs != [] {
      KeepMembership(xs[1..], slots[1..], x);
      if x in Keep(xs, slots) && x !in Keep(xs[1..], slots[1..]) {
        assert xs[0] == x && !slots[0].destroyed;
      }
      forall j | 1 <= j < |xs| && xs[j] == x && !slots[j].destroyed
        ensures x in Keep(xs, slots)
      {
        assert xs[1..][j - 1] == x && !slots[1..][j - 1].destroyed;
      }
    }
  }

  /** The registry after a notification that stopped at index k (or ran through when k < 0):
      destroyed entries are pruned from the part that was walked, newest first. */
  function Pruned<T>(xs: seq<T>, slots: seq<Slot>, k: int): seq<T>
    requires |xs| == |slots| && -1 <= k < |xs|
  {
    if k >= 0 then xs[..k + 1] + Keep(xs[k + 1..], slots[k + 1..]) else Keep(xs, slots)
  }

  /** The pour-relevant state of each registered receiver. */
  ghost function Snapshot(rs: seq<Receiver>): (s: seq<Slot>)
    reads rs
    ensures |s| == |rs|
    decreases |rs|
  {
    if rs == [] then [] else [Slot(rs[0].destroyed, rs[0].gate)] + Snapshot(rs[1..])
  }

  /** Entry j of the snapshot is receiver j's state. */
  lemma {:induction false} SnapshotAt(rs: seq<Receiver>, j: int)
    requires 0 <= j < |rs|
    ensures Snapshot(rs)[j] == Slot(rs[j].destroyed, rs[j].gate)
    decreases j
  {
    if j > 0 {
      SnapshotAt(rs[1..], j - 1);
    }
  }

  /** What a notification does to the receivers and the ledger: at most one receiver, the last
      registered ready one, executes its task with the given water; every other receiver is
      left as it was. `before` is the receivers' state when the notification started. */
  twostate predicate Delivered(rs: seq<Receiver>, before: seq<Slot>, now: real, gm: GameManager,
                               amount: real, quality: real, executed: bool)
    requires |before| == |rs|
    reads rs, gm, gm.Data
  {
    var k := LastReady(before, now);
    && executed == (k >= 0)
    && (forall j :: 0 <= j < |rs| && (k < 0 || rs[j] != rs[k]) ==> rs[j].gate == old(rs[j].gate))
    && (k >= 0 ==> rs[k].gate == Receive(old(rs[k].gate), now).0)
    && (forall j :: 0 <= j < |rs| ==> rs[j].destroyed == old(rs[j].destroyed))
    && gm.State() == (if k >= 0 then TaskEffect(rs[k].task, old(gm.State()), amount, quality)
                      else old(gm.State()))
  }

  /** The registry while NotifyWaterReceivers walks it: the entries below i not yet visited,
      the visited ones with the destroyed entries pruned. */
  function Walked<T>(xs: seq<T>, slots: seq<Slot>, i: int): seq<T>
    requires |xs| == |slots| && 0 <= i <= |xs|
  {
    xs[..i] + Keep(xs[i..], slots[i..])
  }

  /** One step of the walk, from i + 1 down to i. */
  lemma WalkStep<T>(xs: seq<T>, slots: seq<Slot>, i: int)
    requires |xs| == |slots| && 0 <= i < |xs|
    ensures |Walked(xs, slots, i + 1)| > i && Walked(xs, slots, i + 1)[i] == xs[i]
    ensures slots[i].destroyed ==>
              Walked(xs, slots, i + 1)[..i] + Walked(xs, slots, i + 1)[i + 1..] == Walked(xs, slots, i)
    ensures !slots[i].destroyed ==>
              Walked(xs, slots, i + 1) == Walked(xs, slots, i) && Walked(xs, slots, i + 1) == Pruned(xs, slots, i)
  {
    var rest := Keep(xs[i + 1..], slots[i + 1..]);
    assert xs[i..][1..] == xs[i + 1..] && slots[i..][1..] == slots[i + 1..];
    assert xs[..i + 1] == xs[..i] + [xs[i]];
    assert Walked(xs, slots, i + 1) == xs[..i] + ([xs[i]] + rest);
  }

  /** The walk starts from the whole registry and, run to the end, prunes all of it. */
  lemma WalkEnds<T>(xs: seq<T>, slots: seq<Slot>)
    requires |xs| == |slots|
    ensures Walked(xs, slots, |xs|) == xs
    ensures Walked(xs, slots, 0) == Pruned(xs, slots, -1)
  {
    assert xs[..|xs|] == xs && xs[0..] == xs && slots[0..] == slots;
  }

  // ---- WaterVessel -------------------------------------------------------------------------

  /** The vessel a nullable reference names, as a frame. */
  function Opt(v: Vessel?): set<Vessel>
  {
    if v == null then {} else {v}
  }

  class Vessel {
    const kind: VesselKind
    var maxCapacity: real
    var pourAngleThreshold: real
    var tiltCooldownTime: real
    var waterQuality: real
    var currentWaterAmount: real
    var wasTiltedLastFrame: bool
    var lastTiltTime: real
    var receiversInRange: seq<Receiver>
    /** transform.eulerAngles.x and .z, written by the pose source. */
    var eulerX: real
    var eulerZ: real
    /** The arguments of every OnTiltedOutsideTask call (the hook itself does nothing). */
    ghost var outsideTaskSpills: seq<Water>

    ghost predicate Valid()
      reads this
    {
      WaterInvariant(maxCapacity, Contents())
    }

    function Contents(): Water
      reads this
    {
      Water(currentWaterAmount, waterQuality)
    }

    predicate IsFull()
      reads this
    {
      currentWaterAmount >= maxCapacity
    }

    predicate HasWater()
      reads this
    {
      currentWaterAmount > 0.0
    }

    predicate IsPouringAngle()
      reads this
    {
      WaterMath.IsPouringAngle(eulerX, eulerZ, pourAngleThreshold)
    }

    /** A vessel as the scene creates it: the serialized settings, no water, quality 0,
        never tilted (lastTiltTime -1) and no receiver in range. */
    constructor (kind: VesselKind, maxCapacity: real, pourAngleThreshold: real, tiltCooldownTime: real)
      ensures Valid()
      ensures this.kind == kind && this.maxCapacity == maxCapacity
      ensures this.pourAngleThreshold == pourAngleThreshold && this.tiltCooldownTime == tiltCooldownTime
      ensures Contents() == Empty && !wasTiltedLastFrame && lastTiltTime == -1.0
      ensures receiversInRange == [] && outsideTaskSpills == []
    {
      this.kind := kind;
      this.maxCapacity := maxCapacity;
      this.pourAngleThreshold := pourAngleThreshold;
      this.tiltCooldownTime := tiltCooldownTime;
      waterQuality := 0.0;
      currentWaterAmount := 0.0;
      wasTiltedLastFrame := false;
      lastTiltTime := -1.0;
      receiversInRange := [];
      eulerX := 0.0;
      eulerZ := 0.0;
      outsideTaskSpills := [];
    }

    /** The kind's Awake (WaterBucket.Awake / WaterCup.Awake), which hides the base Awake:
        only the default-capacity rule runs. */
    method Awake()
      requires Valid()
      modifies this`maxCapacity
      ensures Valid()
      ensures maxCapacity == AwakeCapacity(kind, old(maxCapacity))
    {
      if maxCapacity == 0.0 {
        maxCapacity := match kind case Bucket => 80.0 case Cup => 10.0;
      }
    }

    /** The pose source moving the vessel. */
    method SetPose(x: real, z: real)
      modifies this`eulerX, this`eulerZ
      ensures eulerX == x && eulerZ == z
    {
      eulerX, eulerZ := x, z;
    }

    method ReduceWater(amount: real)
      requires Valid()
      modifies this`currentWaterAmount, this`waterQuality
      ensures Valid()
      ensures Contents() == Reduce(old(Contents()), amount)
    {
      if amount <= 0.0 { return; }
      if currentWaterAmount <= 0.0 { return; }
      currentWaterAmount := Max(0.0, currentWaterAmount - amount);
      if currentWaterAmount <= 0.0 {
        waterQuality := 0.0;
      }
    }

    /** FillWater(float amount, float quality). */
    method FillWater(amount: real, quality: real) returns (added: real)
      requires Valid()
      modifies this`currentWaterAmount, this`waterQuality
      ensures Valid()
      ensures (Contents(), added) == Fill(maxCapacity, old(Contents()), amount, quality)
    {
      if amount <= 0.0 {
        return 0.0;
      }
      var availableSpace := maxCapacity - currentWaterAmount;
      var actualAmount := Min(amount, availableSpace);
      if actualAmount <= 0.0 {
        return 0.0;
      }
      assert actualAmount == FillAmount(maxCapacity, currentWaterAmount, amount);
      if currentWaterAmount > 0.0 {
        var totalAmount := currentWaterAmount + actualAmount;
        waterQuality := (waterQuality * currentWaterAmount + quality * actualAmount) / totalAmount;
      } else {
        waterQuality := quality;
      }
      currentWaterAmount := currentWaterAmount + actualAmount;
      added := actualAmount;
      assert Contents().amount == Fill(maxCapacity, old(Contents()), amount, quality).0.amount;
      assert Contents().quality == Fill(maxCapacity, old(Contents()), amount, quality).0.quality;
    }

    /** FillWater(float quality): a fill of the whole capacity. */
    method FillWaterToCapacity(quality: real)
      requires Valid()
      modifies this`currentWaterAmount, this`waterQuality
      ensures Valid()
      ensures Contents() == Fill(maxCapacity, old(Contents()), maxCapacity, quality).0
    {
      var _ := FillWater(maxCapacity, quality);
    }

    method EmptyWater()
      requires Valid()
      modifies this`currentWaterAmount, this`waterQuality
      ensures Valid()
      ensures Contents() == EmptyAll(old(Contents()))
    {
      if currentWaterAmount <= 0.0 { return; }
      currentWaterAmount := 0.0;
      waterQuality := 0.0;
    }

    method RegisterReceiver(receiver: Receiver?)
      modifies this`receiversInRange
      ensures receiversInRange == if receiver == null then old(receiversInRange)
                                  else RegisterList<Receiver>(old(receiversInRange), receiver)
    {
      if receiver != null && receiver !in receiversInRange {
        receiversInRange := receiversInRange + [receiver];
      }
    }

    method UnregisterReceiver(receiver: Receiver?)
      modifies this`receiversInRange
      ensures receiversInRange == if receiver == null then old(receiversInRange)
                                  else UnregisterList<Receiver>(old(receiversInRange), receiver)
    {
      if receiver != null && receiver in receiversInRange {
        var r: Receiver := receiver;
        receiversInRange := UnregisterList<Receiver>(receiversInRange, r);
      }
    }

    /** The default OnTiltedOutsideTask, which WaterBucket and WaterCup keep: it does nothing;
        the ghost log only records that it was called and with what. */
    method OnTiltedOutsideTask(amount: real, quality: real)
      modifies this`outsideTaskSpills
      ensures outsideTaskSpills == old(outsideTaskSpills) + [Water(amount, quality)]
    {
      outsideTaskSpills := outsideTaskSpills + [Water(amount, quality)];
    }

    /** The walk of NotifyWaterReceivers, newest first: destroyed receivers are pruned, and
        the walk stops at the first receiver whose ReceiveWater would execute (k), or runs
        through the whole registry (k == -1). */
    static method PruneAndFind(rs: seq<Receiver>, now: real) returns (list: seq<Receiver>, k: int)
      ensures k == LastReady(Snapshot(rs), now)
      ensures list == Pruned(rs, Snapshot(rs), k)
    {
      ghost var before := Snapshot(rs);
      ghost var target := LastReady(before, now);
      WalkEnds(rs, before);
      list := rs;
      var i := |list|;
      while i > 0
        invariant 0 <= i <= |rs| && target < i
        invariant list == Walked(rs, before, i)
        decreases i
      {
        i := i - 1;
        WalkStep(rs, before, i);
        SnapshotAt(rs, i);
        var receiver := list[i];
        if receiver.destroyed {
          list := list[..i] + list[i + 1..];
          continue;
        }
        if receiver.CanReceiveWater() && Receive(receiver.gate, now).1 {
          if target < i {
            LastReadyIsLast(before, now, i);
          }
          return list, i;
        }
      }
      return list, -1;
    }

    /** Notifies the receivers in range of a pour: the registry is pruned as the walk goes,
        and the first receiver (newest first) whose ReceiveWater executes ends the walk. A
        ReceiveWater that refuses changes nothing, so only that receiver is called; ReceiveWater
        does not touch the registry, so the pruned list is stored after the call. */
    method NotifyWaterReceivers(amount: real, quality: real, now: real, gm: GameManager)
      returns (anyTaskExecuted: bool)
      modifies this`receiversInRange, receiversInRange`gate
      modifies gm`taskCompletedSignals, gm`gameEndedSignals
      modifies gm.Data`WaterVolume, gm.Data`WaterQuality, gm.Data`Stamina, gm.Data`History
      ensures var rs, before := old(receiversInRange), old(Snapshot(receiversInRange));
              && receiversInRange == Pruned(rs, before, LastReady(before, now))
              && Delivered(rs, before, now, gm, amount, quality, anyTaskExecuted)
    {
      ghost var rs, before := receiversInRange, Snapshot(receiversInRange);
      var list, k := PruneAndFind(receiversInRange, now);
      anyTaskExecuted := false;
      if k >= 0 {
        var receiver := receiversInRange[k];
        SnapshotAt(rs, k);
        assert SlotReady(before[k], now);
        anyTaskExecuted := receiver.ReceiveWater(amount, quality, now, gm);
      }
      receiversInRange := list;
    }

    /** What OnTilted leaves once it pours: the vessel empty, the cooldown stamped, the water
        as it was before draining delivered to at most one receiver, and the outside-task
        hook called exactly when no receiver executed. `before` is the receivers' state when
        the tilt began. */
    twostate predicate PouredFrom(rs: seq<Receiver>, before: seq<Slot>, now: real, gm: GameManager)
      requires |before| == |rs|
      reads this, rs, gm, gm.Data
    {
      var k := LastReady(before, now);
      && Contents() == Empty
      && lastTiltTime == now
      && receiversInRange == Pruned(rs, before, k)
      && Delivered(rs, before, now, gm, old(currentWaterAmount), old(waterQuality), k >= 0)
      && outsideTaskSpills == old(outsideTaskSpills) + (if k >= 0 then [] else [old(Contents())])
    }

    /** Nothing of the pour protocol changed. */
    twostate predicate NotPoured(rs: seq<Receiver>, before: seq<Slot>, gm: GameManager)
      requires |before| == |rs|
      reads this, rs, gm, gm.Data
    {
      && Contents() == old(Contents())
      && lastTiltTime == old(lastTiltTime)
      && receiversInRange == rs
      && Snapshot(rs) == before
      && gm.State() == old(gm.State())
      && outsideTaskSpills == old(outsideTaskSpills)
    }

    /** Only the registry of receivers in range changed. */
    twostate predicate OnlyRegistryChanged()
      reads this
    {
      && Contents() == old(Contents()) && maxCapacity == old(maxCapacity)
      && pourAngleThreshold == old(pourAngleThreshold) && tiltCooldownTime == old(tiltCooldownTime)
      && wasTiltedLastFrame == old(wasTiltedLastFrame) && lastTiltTime == old(lastTiltTime)
      && eulerX == old(eulerX) && eulerZ == old(eulerZ) && outsideTaskSpills == old(outsideTaskSpills)
    }

    /** Whether a tilt at `now` pours: the vessel holds water and the last pour is at least
        tiltCooldownTime ago. */
    predicate PoursAt(now: real)
      reads this
    {
      currentWaterAmount > 0.0 && !InCooldown(now, lastTiltTime, tiltCooldownTime)
    }

    method OnTilted(now: real, gm: GameManager)
      requires Valid()
      modifies this`currentWaterAmount, this`waterQuality, this`lastTiltTime
      modifies this`receiversInRange, this`outsideTaskSpills, receiversInRange`gate
      modifies gm`taskCompletedSignals, gm`gameEndedSignals
      modifies gm.Data`WaterVolume, gm.Data`WaterQuality, gm.Data`Stamina, gm.Data`History
      ensures Valid()
      ensures old(PoursAt(now)) ==> PouredFrom(old(receiversInRange), old(Snapshot(receiversInRange)), now, gm)
      ensures !old(PoursAt(now)) ==> NotPoured(old(receiversInRange), old(Snapshot(receiversInRange)), gm)
    {
      if currentWaterAmount <= 0.0 { return; }
      if now - lastTiltTime < tiltCooldownTime {
        return;
      }
      Pour(now, gm);
    }

    /** The part of OnTilted past its two guards. */
    method Pour(now: real, gm: GameManager)
      requires Valid() && PoursAt(now)
      modifies this`currentWaterAmount, this`waterQuality, this`lastTiltTime
      modifies this`receiversInRange, this`outsideTaskSpills, receiversInRange`gate
      modifies gm`taskCompletedSignals, gm`gameEndedSignals
      modifies gm.Data`WaterVolume, gm.Data`WaterQuality, gm.Data`Stamina, gm.Data`History
      ensures Valid()
      ensures PouredFrom(old(receiversInRange), old(Snapshot(receiversInRange)), now, gm)
    {
      var amount := currentWaterAmount;
      var quality := waterQuality;
      lastTiltTime := now;
      var taskExecuted := NotifyWaterReceivers(amount, quality, now, gm);
      EmptyWater();
      if !taskExecuted {
        OnTiltedOutsideTask(amount, quality);
      }
    }

    /** One frame of WaterVessel.Update: the rising-edge tilt detector, evaluated only while
        the vessel holds water. */
    method Update(now: real, gm: GameManager)
      requires Valid()
      modifies this`currentWaterAmount, this`waterQuality, this`lastTiltTime, this`wasTiltedLastFrame
      modifies this`receiversInRange, this`outsideTaskSpills, receiversInRange`gate
      modifies gm`taskCompletedSignals, gm`gameEndedSignals
      modifies gm.Data`WaterVolume, gm.Data`WaterQuality, gm.Data`Stamina, gm.Data`History
      ensures Valid()
      ensures var f := TiltStep(old(HasWater()), old(IsPouringAngle()), old(wasTiltedLastFrame));
              && wasTiltedLastFrame == f.wasTilted
              && (f.callsOnTilted && old(PoursAt(now)) ==> PouredFrom(old(receiversInRange), old(Snapshot(receiversInRange)), now, gm))
              && (!(f.callsOnTilted && old(PoursAt(now))) ==> NotPoured(old(receiversInRange), old(Snapshot(receiversInRange)), gm))
    {
      if currentWaterAmount > 0.0 {
        var isTiltedNow := IsPouringAngle();
        if isTiltedNow && !wasTiltedLastFrame {
          OnTilted(now, gm);
        }
        wasTiltedLastFrame := isTiltedNow;
      } else {
        wasTiltedLastFrame := false;
      }
    }
  }

  // ---- WaterReceiver -----------------------------------------------------------------------

  class Receiver {
    const task: Task
    var staminaCost: real
    /** oneTimeExecution, cooldownTime, hasBeenCompleted and lastExecutionTime. */
    var gate: ReceiverGate
    var allowedVesselTypeEnum: AllowedVesselType
    var allowedVesselType: Option<VesselKind>
    var currentVessel: Vessel?
    /** The receiver was destroyed; Unity then makes references to it compare equal to null. */
    var destroyed: bool

    /** A receiver with its serialized settings (the source's defaults are staminaCost 15,
        oneTimeExecution true, cooldownTime 0.5, filter All), before Awake. */
    constructor (task: Task, staminaCost: real, oneTimeExecution: bool, cooldownTime: real,
                 allowedVesselTypeEnum: AllowedVesselType)
      ensures this.task == task && this.staminaCost == staminaCost
      ensures gate == ReceiverGate(oneTimeExecution, cooldownTime, false, -1.0)
      ensures this.allowedVesselTypeEnum == allowedVesselTypeEnum && allowedVesselType == None
      ensures currentVessel == null && !destroyed
    {
      this.task := task;
      this.staminaCost := staminaCost;
      gate := ReceiverGate(oneTimeExecution, cooldownTime, false, -1.0);
      this.allowedVesselTypeEnum := allowedVesselTypeEnum;
      allowedVesselType := None;
      currentVessel := null;
      destroyed := false;
    }

    predicate CanReceiveWater()
      reads this
    {
      CanReceive(gate)
    }

    predicate IsAllowedVesselType(vessel: Vessel)
      reads this
    {
      Allows(allowedVesselType, vessel.kind)
    }

    /** Field.Awake / DrinkingPoint.Awake: base.Awake converts the configured filter first;
        only afterwards does the subclass set its Bucket-only or Cup-only enum and force
        one-shot execution. The effective filter therefore stays the configured one. */
    method Awake()
      modifies this`allowedVesselType, this`allowedVesselTypeEnum, this`gate
      ensures allowedVesselType == ToVesselFilter(old(allowedVesselTypeEnum))
      ensures allowedVesselTypeEnum == (if task.Field? then WaterBucket else WaterCup)
      ensures gate == old(gate).(oneTimeExecution := true)
    {
      allowedVesselType := ToVesselFilter(allowedVesselTypeEnum);
      match task {
        case Field(_) =>
          allowedVesselTypeEnum := WaterBucket;
        case DrinkingPoint(_, _, _) =>
          allowedVesselTypeEnum := WaterCup;
      }
      gate := gate.(oneTimeExecution := true);
    }

    /** The scene destroying the receiver. */
    method Destroy()
      modifies this`destroyed
      ensures destroyed
    {
      destroyed := true;
    }

    /** An allowed vessel entering the volume is remembered whether or not it holds water,
        and registered with only if it does. */
    method OnTriggerEnter(other: Vessel?)
      modifies this`currentVessel, Opt(other)`receiversInRange
      ensures other == null || !IsAllowedVesselType(other) ==> currentVessel == old(currentVessel)
      ensures other != null ==> other.OnlyRegistryChanged()
      ensures other != null && !IsAllowedVesselType(other) ==> other.receiversInRange == old(other.receiversInRange)
      ensures other != null && IsAllowedVesselType(other) ==>
                && currentVessel == other
                && other.receiversInRange == (if other.HasWater() then RegisterList<Receiver>(old(other.receiversInRange), this)
                                              else old(other.receiversInRange))
    {
      if other == null { return; }
      if !IsAllowedVesselType(other) { return; }
      currentVessel := other;
      if other.HasWater() {
        other.RegisterReceiver(this);
      }
    }

    /** While the remembered vessel stays in the volume, it is registered with once it holds
        water (a vessel filled inside the volume). */
    method OnTriggerStay(other: Vessel?)
      modifies Opt(other)`receiversInRange
      ensures other != null ==> other.OnlyRegistryChanged()
      ensures other != null ==>
                other.receiversInRange ==
                  (if other == currentVessel && IsAllowedVesselType(other) && other.HasWater()
                   then RegisterList<Receiver>(old(other.receiversInRange), this) else old(other.receiversInRange))
    {
      if other == null { return; }
      if other != currentVessel { return; }
      if !IsAllowedVesselType(other) { return; }
      if other.HasWater() {
        other.RegisterReceiver(this);
      }
    }

    /** The remembered vessel leaving: unregister from it and forget it; any other leaving
        object changes nothing. */
    method OnTriggerExit(other: Vessel?)
      modifies this`currentVessel, Opt(other)`receiversInRange
      ensures other != null ==> other.OnlyRegistryChanged()
      ensures other != null && other == old(currentVessel) ==>
                currentVessel == null && other.receiversInRange == UnregisterList<Receiver>(old(other.receiversInRange), this)
      ensures other == null || other != old(currentVessel) ==> currentVessel == old(currentVessel)
      ensures other != null && other != old(currentVessel) ==> other.receiversInRange == old(other.receiversInRange)
    {
      if other == null { return; }
      if other == currentVessel {
        other.UnregisterReceiver(this);
        currentVessel := null;
      }
    }

    /** IWaterReceiver.ReceiveWater: refused during the cooldown and after a one-shot
        completion; otherwise the task runs once and the receiver completes. */
    method ReceiveWater(amount: real, quality: real, now: real, gm: GameManager) returns (executed: bool)
      modifies this`gate
      modifies gm`taskCompletedSignals, gm`gameEndedSignals
      modifies gm.Data`WaterVolume, gm.Data`WaterQuality, gm.Data`Stamina, gm.Data`History
      ensures (gate, executed) == Receive(old(gate), now)
      ensures gm.State() == if executed then TaskEffect(task, old(gm.State()), amount, quality)
                            else old(gm.State())
    {
      if now - gate.lastExecutionTime < gate.cooldownTime {
        return false;
      }
      if gate.oneTimeExecution && gate.hasBeenCompleted {
        return false;
      }
      ExecuteTask(amount, quality, gm);
      gate := gate.(lastExecutionTime := now);
      if !gate.hasBeenCompleted {
        gate := gate.(hasBeenCompleted := true);
      }
      return true;
    }

    /** Field.ExecuteTask / DrinkingPoint.ExecuteTask. The vessel is not touched here: the
        pouring vessel drains itself. DrinkingPoint's own safety classification only chooses
        a log message; the ledger classifies again with its fixed threshold. */
    method ExecuteTask(amount: real, quality: real, gm: GameManager)
      modifies gm`taskCompletedSignals, gm`gameEndedSignals
      modifies gm.Data`WaterVolume, gm.Data`WaterQuality, gm.Data`Stamina, gm.Data`History
      ensures gm.State() == TaskEffect(task, old(gm.State()), amount, quality)
    {
      match task {
        case Field(_) =>
          gm.RecordFarming(amount);
        case DrinkingPoint(_, _, _) =>
          gm.RecordDrinking(amount, quality);
      }
    }
  }

  /** With DrinkingPoint's default threshold of 80 its classification and the ledger's agree,
      so a safe drink raises stamina and an unsafe drink lowers it (within [0, 100]). */
  lemma DrinkClassificationAgrees(s: Session, amount: real, quality: real)
    requires 0.0 <= s.stamina <= 100.0
    ensures var t := TaskEffect(DrinkingPoint(10.0, 10.0, 80.0), s, amount, quality);
            && (IsSafeToDrink(quality, 80.0) ==> t.stamina == Min(s.stamina + 10.0, 100.0))
            && (!IsSafeToDrink(quality, 80.0) ==> t.stamina == Max(s.stamina - 10.0, 0.0))
            && t.history.DrinkCount == s.history.DrinkCount + 1
  {
  }
}
