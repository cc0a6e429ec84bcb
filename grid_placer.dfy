/** SimpleGridPlacer: lays the active children of a parent out on a grid, row by row, with an
    optional row length and an optional height step per row. The scene's children are an
    input sequence with their active flag and bounds size; the placer's output is the world
    position it gives each child, by child index. */
module GridPlacement {
  import opened WaterMath

  datatype Vec3 = Vec3(x: real, y: real, z: real)

  const Zero: Vec3 := Vec3(0.0, 0.0, 0.0)

  function Add(a: Vec3, b: Vec3): Vec3
  {
    Vec3(a.x + b.x, a.y + b.y, a.z + b.z)
  }

  function Scale(v: Vec3, s: real): Vec3
  {
    Vec3(v.x * s, v.y * s, v.z * s)
  }

  /** The per-axis maximum. */
  function AxisMax(a: Vec3, b: Vec3): Vec3
  {
    Vec3(Max(a.x, b.x), Max(a.y, b.y), Max(a.z, b.z))
  }

  /** SimpleGridPlacer.HeightMode: all at one height, or one step up per row. */
  datatype HeightMode = Flat | Stepped

  /** A child of the parent transform: whether it is active in the hierarchy, and the size of
      its bounds. */
  datatype Child = Child(active: bool, boundsSize: Vec3)

  predicate IndicesIn(sel: seq<nat>, n: nat)
  {
    forall k :: 0 <= k < |sel| ==> sel[k] < n
  }

  predicate Increasing(sel: seq<nat>)
  {
    forall k, l :: 0 <= k < l < |sel| ==> sel[k] < sel[l]
  }

  // ---- DetectChildren ----------------------------------------------------------------------

  /** The indices of the active children among the first i, in child-index order. */
  function ActivePrefix(children: seq<Child>, i: nat): (r: seq<nat>)
    requires i <= |children|
    ensures IndicesIn(r, i) && Increasing(r) && |r| <= i
    ensures forall k :: 0 <= k < |r| ==> children[r[k]].active
  {
    if i == 0 then []
    else ActivePrefix(children, i - 1) + (if children[i - 1].active then [i - 1] else [])
  }

  /** Every active child among the first i is listed. */
  lemma {:induction false} ActivePrefixComplete(children: seq<Child>, i: nat, j: nat)
    requires j < i <= |children| && children[j].active
    ensures j in ActivePrefix(children, i)
    decreases i
  {
    if j < i - 1 {
      ActivePrefixComplete(children, i - 1, j);
    }
  }

  /** Looking at more children only appends to the list. */
  lemma {:induction false} ActivePrefixGrows(children: seq<Child>, i: nat, j: nat)
    requires i <= j <= |children|
    ensures ActivePrefix(children, i) <= ActivePrefix(children, j)
    decreases j
  {
    if i < j {
      ActivePrefixGrows(children, i, j - 1);
    }
  }

  /** What DetectChildren keeps: the active children in order, cut after the first
      maxObjects when maxObjects is positive. */
  function Selected(children: seq<Child>, maxObjects: int): seq<nat>
  {
    var a := ActivePrefix(children, |children|);
    if maxObjects > 0 && |a| > maxObjects then a[..maxObjects] else a
  }

  /** The selection keeps only active children, in child-index order, at most maxObjects of
      them when that is positive; an active child is left out only when the cap is reached,
      and then every kept child comes before it. */
  lemma SelectedFacts(children: seq<Child>, maxObjects: int)
    ensures var r := Selected(children, maxObjects);
            && IndicesIn(r, |children|) && Increasing(r)
            && (forall k :: 0 <= k < |r| ==> children[r[k]].active)
            && (maxObjects > 0 ==> |r| <= maxObjects)
    ensures var r := Selected(children, maxObjects);
            forall j :: 0 <= j < |children| && children[j].active ==>
              j in r || (maxObjects > 0 && |r| == maxObjects && (forall k :: 0 <= k < |r| ==> r[k] < j))
  {
    var a := ActivePrefix(children, |children|);
    var r := Selected(children, maxObjects);
    forall j | 0 <= j < |children| && children[j].active
      ensures j in r || (maxObjects > 0 && |r| == maxObjects && (forall k :: 0 <= k < |r| ==> r[k] < j))
    {
      ActivePrefixComplete(children, |children|, j);
      var p :| 0 <= p < |a| && a[p] == j;
      if p < |r| {
        assert r[p] == j;
      } else {
        assert forall k :: 0 <= k < |r| ==> r[k] == a[k];
      }
    }
  }

  // ---- CalculateObjectSizes ----------------------------------------------------------------

  /** The per-axis maximum bounds size over the first k selected children, from zero. */
  function MaxSize(children: seq<Child>, sel: seq<nat>, k: nat): Vec3
    requires IndicesIn(sel, |children|) && k <= |sel|
  {
    if k == 0 then Zero else AxisMax(MaxSize(children, sel, k - 1), children[sel[k - 1]].boundsSize)
  }

  /** The maximum is non-negative on each axis, covers every selected child's size, and is
      either zero or one of those sizes. */
  lemma {:induction false} MaxSizeIsLeastBound(children: seq<Child>, sel: seq<nat>, k: nat)
    requires IndicesIn(sel, |children|) && k <= |sel|
    ensures var r := MaxSize(children, sel, k);
            && 0.0 <= r.x && 0.0 <= r.y && 0.0 <= r.z
            && (forall j :: 0 <= j < k ==>
                  var s := children[sel[j]].boundsSize; s.x <= r.x && s.y <= r.y && s.z <= r.z)
            && (r.x == 0.0 || exists j :: 0 <= j < k && r.x == children[sel[j]].boundsSize.x)
            && (r.y == 0.0 || exists j :: 0 <= j < k && r.y == children[sel[j]].boundsSize.y)
            && (r.z == 0.0 || exists j :: 0 <= j < k && r.z == children[sel[j]].boundsSize.z)
    decreases k
  {
    if k > 0 {
      MaxSizeIsLeastBound(children, sel, k - 1);
    }
  }

  // ---- PlaceAllObjectsOnGrid ----------------------------------------------------------------

  /** One advance of the (column, row) counters: the next column, wrapping to a new row after
      perRow columns when perRow is positive. */
  function Advance(c: (int, int), perRow: int): (int, int)
  {
    if perRow > 0 && c.0 + 1 >= perRow then (0, c.1 + 1) else (c.0 + 1, c.1)
  }

  /** The counters after k advances from (0, 0). */
  function Walk(k: nat, perRow: int): (int, int)
  {
    if k == 0 then (0, 0) else Advance(Walk(k - 1, perRow), perRow)
  }

  lemma DivModUnique(n: int, m: int, q: int, r: int)
    requires m > 0 && 0 <= r < m && n == q * m + r
    ensures n / m == q && n % m == r
  {
    var q', r' := n / m, n % m;
    assert n == q' * m + r';
    if q > q' {
      MulAtLeast(q - q', m);
    } else if q < q' {
      MulAtLeast(q' - q, m);
    }
  }

  lemma MulAtLeast(a: int, m: int)
    requires a >= 1 && m > 0
    ensures a * m >= m
  {
  }

  /** The k-th object's cell in closed form: column k mod m and row k div m for a row length
      m > 0; column k and row 0 without a row length. */
  lemma {:induction false} WalkIsDivMod(k: nat, perRow: int)
    ensures perRow > 0 ==> Walk(k, perRow) == (k % perRow, k / perRow)
    ensures perRow <= 0 ==> Walk(k, perRow) == (k, 0)
    decreases k
  {
    if k > 0 {
      WalkIsDivMod(k - 1, perRow);
      if perRow > 0 {
        var x, z := (k - 1) % perRow, (k - 1) / perRow;
        assert k == z * perRow + x + 1;
        if x + 1 >= perRow {
          assert (z + 1) * perRow == z * perRow + perRow;
          DivModUnique(k, perRow, z + 1, 0);
        } else {
          DivModUnique(k, perRow, z, x + 1);
        }
      }
    }
  }

  /** The layout settings of one placement: base position, spacing, height mode, height
      offset and row length. */
  datatype Layout = Layout(base: Vec3, spacing: Vec3, mode: HeightMode, heightOffset: real, perRow: int)

  /** The position an object gets from the column and row counters `c` and the height
      counter: base plus the counters times the spacing, the height counter ignored in flat
      mode. */
  function CellPosition(l: Layout, c: (int, int), height: int): Vec3
  {
    Vec3(l.base.x + c.0 as real * l.spacing.x,
         if l.mode == Flat then l.base.y + l.heightOffset
         else l.base.y + height as real * l.spacing.y + l.heightOffset,
         l.base.z + c.1 as real * l.spacing.z)
  }

  /** The height counter after k advances: the row in stepped mode, 0 in flat mode. */
  function HeightAt(l: Layout, k: nat): int
  {
    if l.mode == Stepped then Walk(k, l.perRow).1 else 0
  }

  function GridPosition(l: Layout, k: nat): Vec3
  {
    CellPosition(l, Walk(k, l.perRow), HeightAt(l, k))
  }

  /** The positions after the first k selected objects have been placed. */
  function PlacedUpTo(prior: map<nat, Vec3>, sel: seq<nat>, k: nat, l: Layout): map<nat, Vec3>
    requires k <= |sel|
  {
    if k == 0 then prior else PlacedUpTo(prior, sel, k - 1, l)[sel[k - 1] := GridPosition(l, k - 1)]
  }

  /** The placement in closed form: the j-th selected child goes to the cell (j mod m, j div m)
      (or (j, 0) without a row length) scaled by the spacing from the base; in flat mode at
      base height plus the offset, in stepped mode one spacing step per row higher. */
  lemma GridPositionClosedForm(l: Layout, j: nat)
    ensures var col := if l.perRow > 0 then j % l.perRow else j;
            var row := if l.perRow > 0 then j / l.perRow else 0;
            GridPosition(l, j) ==
              Vec3(l.base.x + col as real * l.spacing.x,
                   l.base.y + (if l.mode == Stepped then row as real * l.spacing.y else 0.0) + l.heightOffset,
                   l.base.z + row as real * l.spacing.z)
  {
    WalkIsDivMod(j, l.perRow);
  }

  /** Each selected child ends at its grid position and every other child keeps its
      position. */
  lemma {:induction false} PlacedUpToFacts(prior: map<nat, Vec3>, sel: seq<nat>, k: nat, l: Layout)
    requires k <= |sel| && Increasing(sel)
    ensures var m := PlacedUpTo(prior, sel, k, l);
            && (forall j :: 0 <= j < k ==> sel[j] in m && m[sel[j]] == GridPosition(l, j))
            && (forall key :: key in m <==> key in prior || key in sel[..k])
            && (forall key :: key in prior && key !in sel[..k] ==> m[key] == prior[key])
    decreases k
  {
    if k > 0 {
      PlacedUpToFacts(prior, sel, k - 1, l);
      var before := PlacedUpTo(prior, sel, k - 1, l);
      var m := PlacedUpTo(prior, sel, k, l);
      assert m == before[sel[k - 1] := GridPosition(l, k - 1)];
      assert sel[..k] == sel[..k - 1] + [sel[k - 1]];
      forall j | 0 <= j < k - 1
        ensures m[sel[j]] == GridPosition(l, j)
      {
        assert sel[j] < sel[k - 1];
      }
    }
  }

  class GridPlacer {
    const spacingMultiplier: real
    const offsetFromParent: Vec3
    const heightMode: HeightMode
    const heightOffset: real
    const maxObjectsPerRow: int
    const maxObjects: int
    /** The detected children, as child indices. */
    var childrenObjects: seq<nat>
    var maxObjectSize: Vec3
    var calculatedSpacing: Vec3
    var currentX: int
    var currentZ: int
    var currentHeight: int
    var lastChildCount: int
    /** The world positions the placer has given to children, by child index. */
    var positions: map<nat, Vec3>

    constructor (spacingMultiplier: real, offsetFromParent: Vec3, heightMode: HeightMode, heightOffset: real,
                 maxObjectsPerRow: int, maxObjects: int)
      ensures this.spacingMultiplier == spacingMultiplier && this.offsetFromParent == offsetFromParent
      ensures this.heightMode == heightMode && this.heightOffset == heightOffset
      ensures this.maxObjectsPerRow == maxObjectsPerRow && this.maxObjects == maxObjects
      ensures childrenObjects == [] && maxObjectSize == Zero && calculatedSpacing == Zero
      ensures currentX == 0 && currentZ == 0 && currentHeight == 0 && lastChildCount == 0
      ensures positions == map[]
    {
      this.spacingMultiplier := spacingMultiplier;
      this.offsetFromParent := offsetFromParent;
      this.heightMode := heightMode;
      this.heightOffset := heightOffset;
      this.maxObjectsPerRow := maxObjectsPerRow;
      this.maxObjects := maxObjects;
      childrenObjects := [];
      maxObjectSize := Zero;
      calculatedSpacing := Zero;
      currentX, currentZ, currentHeight, lastChildCount := 0, 0, 0, 0;
      positions := map[];
    }

    /** CalculateObjectSizes: the largest bounds size on each axis, times the multiplier. */
    method CalculateObjectSizes(children: seq<Child>)
      requires IndicesIn(childrenObjects, |children|)
      modifies this`maxObjectSize, this`calculatedSpacing
      ensures maxObjectSize == MaxSize(children, childrenObjects, |childrenObjects|)
      ensures calculatedSpacing == Scale(maxObjectSize, spacingMultiplier)
    {
      maxObjectSize := Zero;
      var k := 0;
      while k < |childrenObjects|
        invariant 0 <= k <= |childrenObjects|
        invariant maxObjectSize == MaxSize(children, childrenObjects, k)
      {
        var size := children[childrenObjects[k]].boundsSize;
        maxObjectSize := Vec3(Max(maxObjectSize.x, size.x), Max(maxObjectSize.y, size.y), Max(maxObjectSize.z, size.z));
        k := k + 1;
      }
      calculatedSpacing := Scale(maxObjectSize, spacingMultiplier);
    }

    /** The state DetectChildren leaves for the scene's `children`: the selection, the child
        count, and the sizes and spacing of the selection. */
    ghost predicate Detected(children: seq<Child>)
      reads this
    {
      && childrenObjects == Selected(children, maxObjects)
      && IndicesIn(childrenObjects, |children|)
      && lastChildCount == |children|
      && maxObjectSize == MaxSize(children, childrenObjects, |childrenObjects|)
      && calculatedSpacing == Scale(maxObjectSize, spacingMultiplier)
    }

    /** The layout a placement from `parentPosition` uses. */
    function LayoutFrom(parentPosition: Vec3): Layout
      reads this
    {
      Layout(Add(parentPosition, offsetFromParent), calculatedSpacing, heightMode, heightOffset, maxObjectsPerRow)
    }

    /** DetectChildren: the list is rebuilt from the active children, stopping once
        maxObjects are kept when that is positive, and the sizes recomputed. */
    method DetectChildren(children: seq<Child>)
      modifies this`childrenObjects, this`lastChildCount, this`maxObjectSize, this`calculatedSpacing
      ensures Detected(children) && Increasing(childrenObjects)
    {
      childrenObjects := [];
      var count := 0;
      var i := 0;
      while i < |children|
        invariant 0 <= i <= |children|
        invariant childrenObjects == ActivePrefix(children, i) && count == |childrenObjects|
        invariant maxObjects > 0 ==> count <= maxObjects
      {
        if maxObjects > 0 && count >= maxObjects {
          ActivePrefixGrows(children, i, |children|);
          break;
        }
        if children[i].active {
          childrenObjects := childrenObjects + [i];
          count := count + 1;
        }
        i := i + 1;
      }
      lastChildCount := |children|;
      CalculateObjectSizes(children);
    }

    /** PlaceAllObjectsOnGrid: detect again; with nothing detected, stop before touching the
        counters; otherwise reset the counters and give the k-th detected child its grid
        position relative to the parent position plus the offset. The parent position is
        only read. */
    method PlaceAllObjectsOnGrid(children: seq<Child>, parentPosition: Vec3)
      modifies this`childrenObjects, this`lastChildCount, this`maxObjectSize, this`calculatedSpacing
      modifies this`currentX, this`currentZ, this`currentHeight, this`positions
      ensures Detected(children)
      ensures childrenObjects == [] ==>
                positions == old(positions) && currentX == old(currentX) && currentZ == old(currentZ)
                && currentHeight == old(currentHeight)
      ensures childrenObjects != [] ==>
                && positions == PlacedUpTo(old(positions), childrenObjects, |childrenObjects|, LayoutFrom(parentPosition))
                && (currentX, currentZ) == Walk(|childrenObjects|, maxObjectsPerRow)
                && currentHeight == HeightAt(LayoutFrom(parentPosition), |childrenObjects|)
    {
      DetectChildren(children);
      if |childrenObjects| == 0 {
        return;
      }
      CalculateObjectSizes(children);
      var basePosition := Add(parentPosition, offsetFromParent);
      PlaceDetected(Layout(basePosition, calculatedSpacing, heightMode, heightOffset, maxObjectsPerRow));
    }

    /** The placement loop of PlaceAllObjectsOnGrid over the detected children, from reset
        counters, for the layout of this placement. */
    method PlaceDetected(l: Layout)
      requires l.mode == heightMode && l.heightOffset == heightOffset && l.perRow == maxObjectsPerRow
      modifies this`currentX, this`currentZ, this`currentHeight, this`positions
      ensures positions == PlacedUpTo(old(positions), childrenObjects, |childrenObjects|, l)
      ensures (currentX, currentZ) == Walk(|childrenObjects|, l.perRow)
      ensures currentHeight == HeightAt(l, |childrenObjects|)
    {
      currentX := 0;
      currentZ := 0;
      currentHeight := 0;
      var k := 0;
      while k < |childrenObjects|
        invariant 0 <= k <= |childrenObjects|
        invariant (currentX, currentZ) == Walk(k, maxObjectsPerRow)
        invariant currentHeight == HeightAt(l, k)
        invariant positions == PlacedUpTo(old(positions), childrenObjects, k, l)
      {
        var obj := childrenObjects[k];
        positions := positions[obj := CellPosition(l, (currentX, currentZ), currentHeight)];
        currentX := currentX + 1;
        if maxObjectsPerRow > 0 && currentX >= maxObjectsPerRow {
          currentX := 0;
          currentZ := currentZ + 1;
          if heightMode == Stepped {
            currentHeight := currentHeight + 1;
          }
        }
        k := k + 1;
      }
    }

    /** ResetPlacement: the three counters go back to zero. */
    method ResetPlacement()
      modifies this`currentX, this`currentZ, this`currentHeight
      ensures currentX == 0 && currentZ == 0 && currentHeight == 0
    {
      currentX := 0;
      currentZ := 0;
      currentHeight := 0;
    }
  }
}
