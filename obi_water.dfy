/** The water container and the dirt object of the fluid-simulation samples: a litre counter
    with a quality number, and a dirt level on a 0..100 scale. */
module ObiWater {
  import opened WaterMath

  /** The floor Mathf.Max puts under AddWater's divisor. */
  const DivisorFloor: real := 0.0001

  /** The quality AddWater assigns: the old and the incoming quality weighted by the old
      litres and by the full incoming litres, over the new (possibly clamped) total. */
  function AddedQuality(quality: real, current: real, liters: real, incomingQuality: real, maxLiters: real): real
  {
    (quality * current + incomingQuality * liters) / Max(Min(current + liters, maxLiters), DivisorFloor)
  }

  /** Without clamping, AddWater's quality is the volume-weighted average of the two bodies
      of water, and so stays in [0, 100] when both qualities do. */
  lemma AddedQualityIsBlend(quality: real, current: real, liters: real, incomingQuality: real, maxLiters: real)
    requires 0.0 <= current && 0.0 <= liters && current + liters <= maxLiters && current + liters >= DivisorFloor
    ensures AddedQuality(quality, current, liters, incomingQuality, maxLiters) ==
              BlendQuality(quality, current, incomingQuality, liters)
    ensures 0.0 <= quality <= 100.0 && 0.0 <= incomingQuality <= 100.0 ==>
              0.0 <= AddedQuality(quality, current, liters, incomingQuality, maxLiters) <= 100.0
  {
    var t := current + liters;
    assert Min(t, maxLiters) == t && Max(t, DivisorFloor) == t;
    if 0.0 <= quality <= 100.0 && 0.0 <= incomingQuality <= 100.0 {
      BlendInRange(quality, current, incomingQuality, liters);
    }
  }

  /** Two qualities in [0, 100] blend to a quality in [0, 100], whatever the (non-negative)
      volumes. */
  lemma BlendInRange(q1: real, a1: real, q2: real, a2: real)
    requires 0.0 <= q1 <= 100.0 && 0.0 <= q2 <= 100.0 && 0.0 <= a1 && 0.0 <= a2 && a1 + a2 > 0.0
    ensures 0.0 <= BlendQuality(q1, a1, q2, a2) <= 100.0
  {
    var n := q1 * a1 + q2 * a2;
    MulNonNegative(q1, a1);
    MulNonNegative(q2, a2);
    MulNonNegative(100.0 - q1, a1);
    MulNonNegative(100.0 - q2, a2);
    assert (100.0 - q1) * a1 + (100.0 - q2) * a2 == 100.0 * (a1 + a2) - n;
    DivBetween(n, a1 + a2, 0.0, 100.0);
  }

  lemma MulPositive(x: real, y: real)
    requires x > 0.0 && y > 0.0
    ensures x * y > 0.0
  {
  }

  lemma DivBetween(n: real, t: real, lo: real, hi: real)
    requires t > 0.0 && lo * t <= n <= hi * t
    ensures lo <= n / t <= hi
  {
    var r := n / t;
    assert r * t == n;
    if r < lo {
      MulPositive(lo - r, t);
    }
    if r > hi {
      MulPositive(r - hi, t);
    }
  }

  /** When the total is clamped the numerator still counts every incoming litre: pouring 5
      litres of quality 100 into a full 5-litre container of quality 100 gives quality 200. */
  lemma ClampedAddLeavesRange()
    ensures AddedQuality(100.0, 5.0, 5.0, 100.0, 5.0) == 200.0
  {
  }

  class WaterContainer {
    var maxLiters: real
    var currentLiters: real
    /** 0 is dirty, 100 is clean; the inspector range is not enforced. */
    var quality: real

    constructor ()
      ensures maxLiters == 5.0 && currentLiters == 0.0 && quality == 0.0
    {
      maxLiters := 5.0;
      currentLiters := 0.0;
      quality := 0.0;
    }

    /** AddWater: the total is capped at maxLiters and the quality recomputed. */
    method AddWater(liters: real, incomingQuality: real)
      modifies this`currentLiters, this`quality
      ensures currentLiters == Min(old(currentLiters) + liters, maxLiters)
      ensures currentLiters <= maxLiters
      ensures quality == AddedQuality(old(quality), old(currentLiters), liters, incomingQuality, maxLiters)
    {
      var total := currentLiters + liters;
      if total > maxLiters {
        total := maxLiters;
      }
      quality := (quality * currentLiters + incomingQuality * liters) / Max(total, DivisorFloor);
      currentLiters := total;
    }

    /** DirtyByUse: quality moves up by delta (10 by default) and is clamped to [0, 100].
        On a scale where 100 is clean, use makes the water score cleaner. */
    method DirtyByUse(delta: real := 10.0)
      modifies this`quality
      ensures quality == Clamp(old(quality) + delta, 0.0, 100.0)
      ensures 0.0 <= quality <= 100.0
      ensures delta >= 0.0 && old(quality) <= 100.0 ==> quality >= old(quality)
    {
      quality := Clamp(quality + delta, 0.0, 100.0);
    }

    /** Consume: removes and returns the smaller of the request and the litres held. */
    method Consume(liters: real) returns (used: real)
      modifies this`currentLiters
      ensures used == Min(liters, old(currentLiters))
      ensures currentLiters == old(currentLiters) - used
      ensures liters >= 0.0 && old(currentLiters) >= 0.0 ==>
                0.0 <= used <= liters && currentLiters >= 0.0
      ensures liters >= old(currentLiters) ==> currentLiters == 0.0
    {
      used := Min(liters, currentLiters);
      currentLiters := currentLiters - used;
    }
  }

  class DirtObject {
    /** 100 is fully dirty. */
    var dirtLevel: real

    constructor ()
      ensures dirtLevel == 100.0
    {
      dirtLevel := 100.0;
    }

    method Clean(amount: real)
      modifies this
      ensures dirtLevel == Clamp(old(dirtLevel) - amount, 0.0, 100.0)
      ensures 0.0 <= dirtLevel <= 100.0
      ensures amount >= 0.0 && old(dirtLevel) >= 0.0 ==> dirtLevel <= old(dirtLevel)
    {
      dirtLevel := dirtLevel - amount;
      dirtLevel := Clamp(dirtLevel, 0.0, 100.0);
    }

    method Dirty(amount: real)
      modifies this
      ensures dirtLevel == Clamp(old(dirtLevel) + amount, 0.0, 100.0)
      ensures 0.0 <= dirtLevel <= 100.0
      ensures amount >= 0.0 && old(dirtLevel) <= 100.0 ==> dirtLevel >= old(dirtLevel)
    {
      dirtLevel := dirtLevel + amount;
      dirtLevel := Clamp(dirtLevel, 0.0, 100.0);
    }
  }

  /** Cleaning by an amount the level can absorb, then dirtying by the same amount, restores
      the level; dirtying first does the same when there is headroom. */
  lemma CleanDirtyInverse(level: real, amount: real)
    requires 0.0 <= amount && 0.0 <= level <= 100.0
    ensures amount <= level ==> Clamp(Clamp(level - amount, 0.0, 100.0) + amount, 0.0, 100.0) == level
    ensures level + amount <= 100.0 ==> Clamp(Clamp(level + amount, 0.0, 100.0) - amount, 0.0, 100.0) == level
  {
  }
}
