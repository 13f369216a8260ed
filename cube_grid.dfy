/** The cube grids of 12.py's associative-law demo. Scene 2 builds a 7 by 5
    layer of half-unit cubes and stacks a copy on top of it; scene 3 builds a 5
    by 2 slice and lays seven copies side by side. Positions are relative to the
    axes' origin. */
module CubeGrid {
  import opened JavaText

  const CubeSize: real := 0.5
  const Gap: real := 0.0

  datatype Point = Point(x: real, y: real, z: real)

  function Shift(p: Point, d: Point): Point
  {
    Point(p.x + d.x, p.y + d.y, p.z + d.z)
  }

  /** `VGroup.copy().shift(d)` on a group of cubes. */
  function ShiftAll(cubes: seq<Point>, d: Point): (r: seq<Point>)
    ensures |r| == |cubes| && forall n :: 0 <= n < |cubes| ==> r[n] == Shift(cubes[n], d)
  {
    if cubes == [] then [] else [Shift(cubes[0], d)] + ShiftAll(cubes[1..], d)
  }

  /** The centre of cube (i, j, k) of scene 2: column i, row j, layer k. It
      is where the loop puts cube (i, j) of the base layer, raised by k cube
      widths as the top layer's shift does. */
  function Scene2Centre(i: nat, j: nat, k: nat): (r: Point)
    ensures r == Point(i as real * (CubeSize + Gap) + -(7.0 - 1.0) * (CubeSize + Gap) / 2.0,
                       j as real * (CubeSize + Gap) + -(5.0 - 1.0) * (CubeSize + Gap) / 2.0,
                       CubeSize / 2.0 - CubeSize / 2.0 + k as real * (CubeSize + Gap))
  {
    Point(0.5 * i as real - 1.5, 0.5 * j as real - 1.0, 0.5 * k as real)
  }

  /** The centre of cube (i, j, k) of scene 3: slice i, row j, depth k. It is
      where the loop puts cube (j, k) of the slice, moved right by i cube widths
      as the i-th copy's shift does. */
  function Scene3Centre(i: nat, j: nat, k: nat): (r: Point)
    ensures r == Point(-(7.0 - 1.0) * (CubeSize + Gap) / 2.0 + CubeSize / 2.0 + i as real * (CubeSize + Gap),
                       j as real * (CubeSize + Gap) + -(5.0 - 1.0) * (CubeSize + Gap) / 2.0 + CubeSize / 2.0,
                       k as real * (CubeSize + Gap) + -(2.0 - 1.0) * (CubeSize + Gap) / 2.0 + CubeSize / 2.0)
  {
    Point(0.5 * i as real - 1.25, 0.5 * j as real - 0.75, 0.5 * k as real)
  }

  /** Both scenes enumerate the same 7 x 5 x 2 index set, and cube (i, j, k)
      of scene 3 is cube (i, j, k) of scene 2 moved by (0.25, 0.25, 0). */
  lemma SameGridTranslated(i: nat, j: nat, k: nat)
    ensures Scene3Centre(i, j, k) == Shift(Scene2Centre(i, j, k), Point(0.25, 0.25, 0.0))
  {
  }

  /** Distinct indices give distinct cubes: no two cubes of a grid overlap. */
  lemma CentresAreDistinct(i: nat, j: nat, k: nat, i': nat, j': nat, k': nat)
    ensures Scene2Centre(i, j, k) == Scene2Centre(i', j', k') <==> (i, j, k) == (i', j', k')
    ensures Scene3Centre(i, j, k) == Scene3Centre(i', j', k') <==> (i, j, k) == (i', j', k')
  {
  }

  /** The index arithmetic of the row-major layouts, 5 or 2 columns wide. */
  lemma RowMajor(i: nat, j: nat, w: nat)
    requires w == 5 || w == 2
    requires j < w
    ensures (w * i + j) / w == i && (w * i + j) % w == j
  {
    if w == 5 {
      assert (5 * i + j) / 5 == i;
    } else {
      assert (2 * i + j) / 2 == i;
    }
  }

  /** Scene 2's nested loop: 35 cubes, the one at 5i + j centred at (i, j, 0). */
  method BuildBaseLayer() returns (baseLayer: seq<Point>)
    ensures |baseLayer| == 35
    ensures forall n :: 0 <= n < 35 ==> baseLayer[n] == Scene2Centre(n / 5, n % 5, 0)
  {
    baseLayer := [];
    var xOffset := -(7.0 - 1.0) * (CubeSize + Gap) / 2.0;
    var yOffset := -(5.0 - 1.0) * (CubeSize + Gap) / 2.0;
    var zOffset := CubeSize / 2.0;
    for i := 0 to 7
      invariant |baseLayer| == 5 * i
      invariant forall n :: 0 <= n < |baseLayer| ==> baseLayer[n] == Scene2Centre(n / 5, n % 5, 0)
    {
      for j := 0 to 5
        invariant |baseLayer| == 5 * i + j
        invariant forall n :: 0 <= n < |baseLayer| ==> baseLayer[n] == Scene2Centre(n / 5, n % 5, 0)
      {
        var xPos := i as real * (CubeSize + Gap) + xOffset;
        var yPos := j as real * (CubeSize + Gap) + yOffset;
        var zPos := zOffset;
        RowMajor(i, j, 5);
        baseLayer := baseLayer + [Point(xPos, yPos, zPos - CubeSize / 2.0)];
      }
    }
  }

  /** Scene 3's nested loop: 10 cubes, the one at 2j + k centred at (0, j, k). */
  method BuildSlice() returns (sliceLayer: seq<Point>)
    ensures |sliceLayer| == 10
    ensures forall n :: 0 <= n < 10 ==> sliceLayer[n] == Scene3Centre(0, n / 2, n % 2)
  {
    sliceLayer := [];
    var xOffset := -(7.0 - 1.0) * (CubeSize + Gap) / 2.0;
    var yOffset := -(5.0 - 1.0) * (CubeSize + Gap) / 2.0;
    var zOffset := -(2.0 - 1.0) * (CubeSize + Gap) / 2.0;
    var firstSliceX := xOffset + CubeSize / 2.0;
    for j := 0 to 5
      invariant |sliceLayer| == 2 * j
      invariant forall n :: 0 <= n < |sliceLayer| ==> sliceLayer[n] == Scene3Centre(0, n / 2, n % 2)
    {
      for k := 0 to 2
        invariant |sliceLayer| == 2 * j + k
        invariant forall n :: 0 <= n < |sliceLayer| ==> sliceLayer[n] == Scene3Centre(0, n / 2, n % 2)
      {
        var yPos := j as real * (CubeSize + Gap) + yOffset + CubeSize / 2.0;
        var zPos := k as real * (CubeSize + Gap) + zOffset + CubeSize / 2.0;
        RowMajor(j, k, 2);
        sliceLayer := sliceLayer + [Point(firstSliceX, yPos, zPos)];
      }
    }
  }

  /** Scene 3's `full_block`: slice i is the slice moved 0.5 i to the right. */
  method BuildFullBlock(sliceLayer: seq<Point>) returns (fullBlock: seq<seq<Point>>)
    ensures |fullBlock| == 7
    ensures forall i :: 0 <= i < 7 ==> fullBlock[i] == ShiftAll(sliceLayer, Point(i as real * (CubeSize + Gap), 0.0, 0.0))
  {
    fullBlock := [];
    for i := 0 to 7
      invariant |fullBlock| == i
      invariant forall i' :: 0 <= i' < i ==> fullBlock[i'] == ShiftAll(sliceLayer, Point(i' as real * (CubeSize + Gap), 0.0, 0.0))
    {
      var xShift := i as real * (CubeSize + Gap);
      fullBlock := fullBlock + [ShiftAll(sliceLayer, Point(xShift, 0.0, 0.0))];
    }
  }

  /** The number of cubes in a group of groups. */
  function CubeCount(groups: seq<seq<Point>>): nat
  {
    if groups == [] then 0 else |groups[0]| + CubeCount(groups[1..])
  }

  /** Two layers of 35, cube (i, j, k) at 5i + j of layer k. */
  predicate Scene2Layout(cubes: seq<seq<Point>>)
  {
    |cubes| == 2 &&
    forall k, n :: 0 <= k < 2 && 0 <= n < 35 ==> |cubes[k]| == 35 && cubes[k][n] == Scene2Centre(n / 5, n % 5, k)
  }

  /** Seven slices of 10, cube (i, j, k) at 2j + k of slice i. */
  predicate Scene3Layout(cubes: seq<seq<Point>>)
  {
    |cubes| == 7 &&
    forall i, n :: 0 <= i < 7 && 0 <= n < 10 ==> |cubes[i]| == 10 && cubes[i][n] == Scene3Centre(i, n / 2, n % 2)
  }

  /** Scene 2 ends with `VGroup(base_layer, top_layer)`: 70 cubes, cube (i, j, k)
      at 5i + j of layer k. */
  method BuildScene2Cubes() returns (cubes: seq<seq<Point>>)
    ensures Scene2Layout(cubes) && CubeCount(cubes) == 70
  {
    var baseLayer := BuildBaseLayer();
    var topLayer := ShiftAll(baseLayer, Point(0.0, 0.0, CubeSize + Gap));
    cubes := [baseLayer, topLayer];
    assert CubeCount(cubes) == |baseLayer| + CubeCount([topLayer]);
    assert CubeCount([topLayer]) == |topLayer| + CubeCount([]);
  }

  /** Scene 3 ends with `full_block`: 70 cubes, cube (i, j, k) at 2j + k of slice i. */
  method BuildScene3Cubes() returns (cubes: seq<seq<Point>>)
    ensures Scene3Layout(cubes) && CubeCount(cubes) == 70
  {
    var sliceLayer := BuildSlice();
    cubes := BuildFullBlock(sliceLayer);
    CountTens(cubes);
  }

  lemma {:induction false} CountTens(groups: seq<seq<Point>>)
    requires forall i :: 0 <= i < |groups| ==> |groups[i]| == 10
    ensures CubeCount(groups) == 10 * |groups|
  {
    if groups != [] {
      CountTens(groups[1..]);
    }
  }

  /** What scene 4 shows: a copy of scene 3's block, else of scene 2's, else a
      single placeholder cube. */
  datatype Display = FromScene3(block: seq<seq<Point>>) | FromScene2(block: seq<seq<Point>>) | Placeholder

  /** Python truthiness of a stored VGroup: set and not empty. */
  predicate Truthy(g: Option<seq<seq<Point>>>)
  {
    g.Some? && g.value != []
  }

  function FinalDisplay(s3: Option<seq<seq<Point>>>, s2: Option<seq<seq<Point>>>): (d: Display)
    ensures d.FromScene3? <==> Truthy(s3)
    ensures d.FromScene2? <==> !Truthy(s3) && Truthy(s2)
    ensures d.FromScene3? ==> d.block == s3.value
    ensures d.FromScene2? ==> d.block == s2.value
  {
    if Truthy(s3) then FromScene3(s3.value)
    else if Truthy(s2) then FromScene2(s2.value)
    else Placeholder
  }

  /** The class attributes `final_cubes_s2` and `final_cubes_s3`, None until
      their scene has run. */
  class CubeScenes {
    var finalCubesS2: Option<seq<seq<Point>>>
    var finalCubesS3: Option<seq<seq<Point>>>

    constructor()
      ensures finalCubesS2 == None && finalCubesS3 == None
    {
      finalCubesS2 := None;
      finalCubesS3 := None;
    }

    method PlayScene2()
      modifies this
      ensures finalCubesS2.Some? && Scene2Layout(finalCubesS2.value) && CubeCount(finalCubesS2.value) == 70
      ensures finalCubesS3 == old(finalCubesS3)
    {
      var cubes := BuildScene2Cubes();
      finalCubesS2 := Some(cubes);
    }

    method PlayScene3()
      modifies this
      ensures finalCubesS3.Some? && Scene3Layout(finalCubesS3.value) && CubeCount(finalCubesS3.value) == 70
      ensures finalCubesS2 == old(finalCubesS2)
    {
      var cubes := BuildScene3Cubes();
      finalCubesS3 := Some(cubes);
    }

    /** Scene 4's choice of the cubes to show. */
    method FinalCubes() returns (d: Display)
      ensures d == FinalDisplay(finalCubesS3, finalCubesS2)
    {
      if finalCubesS3.Some? && finalCubesS3.value != [] {
        d := FromScene3(finalCubesS3.value);
      } else if finalCubesS2.Some? && finalCubesS2.value != [] {
        d := FromScene2(finalCubesS2.value);
      } else {
        d := Placeholder;
      }
    }
  }

  /** Played in order, scenes 2, 3 and 4 show scene 3's block of 70 cubes. */
  method PlayAll() returns (d: Display)
    ensures d.FromScene3? && Scene3Layout(d.block) && CubeCount(d.block) == 70
  {
    var scenes := new CubeScenes();
    scenes.PlayScene2();
    scenes.PlayScene3();
    d := scenes.FinalCubes();
  }
}
