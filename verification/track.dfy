/**
  The section generator that the plugin schedules on every session world: it
  lays five grass blocks in a line starting at (100, 64, 0), stepping 2 to 4
  blocks along X and -1 to +1 along Y after each block, with Z fixed at 0.
  The random draws are supplied as a sequence of offsets, one pair per loop
  iteration, so the generator is a pure function of them.
 */
module Track {

  datatype Vec3 = Vec3(x: int, y: int, z: int)

  /** One iteration's pair of draws: the step along X and the step along Y. */
  datatype Offset = Offset(dx: int, dy: int)

  /** Number of loop iterations, and so of blocks placed, per run of the task. */
  const SectionLength: nat := 5

  /** Where every section starts. */
  const Origin: Vec3 := Vec3(100, 64, 0)

  const MinDx: int := 2
  const MaxDx: int := 4
  const MinDy: int := -1
  const MaxDy: int := 1

  /** The ranges `rand(2, 4)` and `rand(-1, 1)` draw from, both bounds inclusive. */
  predicate InRange(o: Offset)
  {
    MinDx <= o.dx <= MaxDx && MinDy <= o.dy <= MaxDy
  }

  predicate AllInRange(offsets: seq<Offset>)
  {
    forall i :: 0 <= i < |offsets| ==> InRange(offsets[i])
  }

  /** Component-wise sum of a sequence of offsets. */
  function Displacement(offsets: seq<Offset>): Offset
    decreases |offsets|
  {
    if |offsets| == 0 then Offset(0, 0)
    else
      var d := Displacement(offsets[..|offsets| - 1]);
      var o := offsets[|offsets| - 1];
      Offset(d.dx + o.dx, d.dy + o.dy)
  }

  /** Closed form of the `i`-th placed block: the origin moved by the first `i` draws. */
  function BlockAt(offsets: seq<Offset>, i: nat): Vec3
    requires i <= |offsets|
  {
    var d := Displacement(offsets[..i]);
    Vec3(Origin.x + d.dx, Origin.y + d.dy, Origin.z)
  }

  /** The block after the `i`-th lies exactly one draw further on. */
  lemma {:induction false} BlockAtNext(offsets: seq<Offset>, i: nat)
    requires i < |offsets|
    ensures BlockAt(offsets, i + 1).x == BlockAt(offsets, i).x + offsets[i].dx
    ensures BlockAt(offsets, i + 1).y == BlockAt(offsets, i).y + offsets[i].dy
    ensures BlockAt(offsets, i + 1).z == BlockAt(offsets, i).z
  {
    assert offsets[..i + 1][..i] == offsets[..i];
  }

  /** With in-range draws, block `i` lies 2i to 4i along X and within i of Y = 64. */
  lemma {:induction false} BlockBounds(offsets: seq<Offset>, i: nat)
    requires i <= |offsets|
    requires AllInRange(offsets)
    ensures Origin.x + MinDx * i <= BlockAt(offsets, i).x <= Origin.x + MaxDx * i
    ensures Origin.y + MinDy * i <= BlockAt(offsets, i).y <= Origin.y + MaxDy * i
    ensures BlockAt(offsets, i).z == Origin.z
  {
    if i > 0 {
      BlockBounds(offsets, i - 1);
      BlockAtNext(offsets, i - 1);
    }
  }

  /** With in-range draws, blocks placed later lie strictly further along X. */
  lemma {:induction false} BlockXIncreasing(offsets: seq<Offset>, i: nat, j: nat)
    requires i < j <= |offsets|
    requires AllInRange(offsets)
    ensures BlockAt(offsets, i).x < BlockAt(offsets, j).x
    decreases j
  {
    BlockAtNext(offsets, j - 1);
    if i < j - 1 {
      BlockXIncreasing(offsets, i, j - 1);
    }
  }

  /** A block depends only on the draws made before it was placed. */
  lemma {:induction false} BlockAtPrefix(a: seq<Offset>, b: seq<Offset>, i: nat)
    requires i <= |a| && i <= |b|
    requires a[..i] == b[..i]
    ensures BlockAt(a, i) == BlockAt(b, i)
  {
  }

  /**
    What a generated section looks like: it starts at the origin, stays in the
    plane Z = 0, each block is one in-range step on from the previous one, X
    strictly increases, and every block lies between 100 and 116 along X and
    within 4 of Y = 64.
   */
  predicate WellShaped(blocks: seq<Vec3>)
  {
    && 0 < |blocks|
    && blocks[0] == Origin
    && (forall i :: 0 <= i < |blocks| ==> blocks[i].z == 0)
    && (forall i :: 0 < i < |blocks| ==>
          && MinDx <= blocks[i].x - blocks[i - 1].x <= MaxDx
          && MinDy <= blocks[i].y - blocks[i - 1].y <= MaxDy)
    && (forall i, j :: 0 <= i < j < |blocks| ==> blocks[i].x < blocks[j].x)
    && (forall i :: 0 <= i < |blocks| ==> 60 <= blocks[i].y <= 68)
    && (forall i :: 0 <= i < |blocks| ==> 100 <= blocks[i].x <= 116)
  }

  /** The shape of a whole section, read off the closed form of its blocks. */
  lemma {:induction false} SectionShape(offsets: seq<Offset>, blocks: seq<Vec3>)
    requires |offsets| == SectionLength && |blocks| == SectionLength
    requires AllInRange(offsets)
    requires forall i :: 0 <= i < |blocks| ==> blocks[i] == BlockAt(offsets, i)
    ensures WellShaped(blocks)
  {
    assert offsets[..0] == [];
    forall i | 0 <= i < |blocks|
      ensures blocks[i].z == 0
      ensures 60 <= blocks[i].y <= 68 && 100 <= blocks[i].x <= 116
    {
      BlockBounds(offsets, i);
    }
    forall i | 0 < i < |blocks|
      ensures MinDx <= blocks[i].x - blocks[i - 1].x <= MaxDx
      ensures MinDy <= blocks[i].y - blocks[i - 1].y <= MaxDy
    {
      BlockAtNext(offsets, i - 1);
    }
    forall i, j | 0 <= i < j < |blocks|
      ensures blocks[i].x < blocks[j].x
    {
      BlockXIncreasing(offsets, i, j);
    }
  }

  /**
    One run of the section generator. Each iteration places a block at the
    current point, then advances it by that iteration's draws; the last pair
    of draws is made but never used.
   */
  method GenerateSection(offsets: seq<Offset>) returns (blocks: seq<Vec3>)
    requires |offsets| == SectionLength
    requires AllInRange(offsets)
    ensures |blocks| == SectionLength
    ensures forall i :: 0 <= i < |blocks| ==> blocks[i] == BlockAt(offsets, i)
    ensures WellShaped(blocks)
  {
    var x, y, z := Origin.x, Origin.y, Origin.z;
    blocks := [];
    var i := 0;
    while i < SectionLength
      invariant 0 <= i <= SectionLength
      invariant |blocks| == i
      invariant Vec3(x, y, z) == BlockAt(offsets, i)
      invariant forall k :: 0 <= k < i ==> blocks[k] == BlockAt(offsets, k)
    {
      blocks := blocks + [Vec3(x, y, z)];
      BlockAtNext(offsets, i);
      x := x + offsets[i].dx;
      y := y + offsets[i].dy;
      i := i + 1;
    }
    SectionShape(offsets, blocks);
  }
}
