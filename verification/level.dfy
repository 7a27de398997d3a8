/**
  The deterministic level layout of main.js: ground segments with pits and
  rivers (`_buildGround`), clouds (`_buildClouds`) and obstacles
  (`_buildObstacles`, `_makeObstacle`), with the drawing calls removed.

  Each builder owns one mulberry32 generator; here a generator is its infinite
  stream of draws, `rng(k)` being the value of the `k`-th call. The builders
  are methods that follow the source loops, counting the draws they consume;
  each is proved equal to a closed-form layout that says which draw decides
  which piece.
*/
module Level {
  import Mulberry

  /** The draws of one generator, in call order. */
  type Draws = nat -> real

  ghost predicate InUnit(rng: Draws)
  {
    forall k: nat :: 0.0 <= rng(k) < 1.0
  }

  /** `world.finishX`, the x of the finish and the length of the level. */
  const FinishX: int := 5600
  const SegmentWidth: int := 200

  /** `Math.ceil(n / d)` for a positive integer divisor. */
  function CeilDiv(n: int, d: int): (q: int)
    requires d > 0
    ensures (q - 1) * d < n <= q * d
  {
    -((-n) / d)
  }

  // ---------------------------------------------------------------- ground

  datatype HazardKind = Pit | River

  /** A ground segment `[x, x + 200)`, or a hazard entry of `hazardRects`. */
  datatype Segment = Ground(x: int) | Hazard(x1: int, x2: int, kind: HazardKind)

  /** The `gap` and `river` flags of one segment. */
  datatype Gap = Gap(gap: bool, river: bool)

  /** `total = Math.ceil((world.finishX + 900) / 200)`; the loop runs no
      iteration when it is not positive. */
  function SegmentCount(finishX: int): (n: nat)
    ensures n == 0 <==> finishX + 900 <= 0
    ensures n > 0 ==> (n - 1) * SegmentWidth < finishX + 900 <= n * SegmentWidth
  {
    var q := CeilDiv(finishX + 900, SegmentWidth);
    if q < 0 then 0 else q
  }

  /** The segment at `x` is far enough from both ends to be a hazard. */
  predicate IsMiddle(finishX: int, x: int)
  {
    !(x < 600) && !(x > finishX - 600)
  }

  /** The flags set by one draw `r`: a pit below 0.14, a river in [0.14, 0.23). */
  function Classify(r: real): (g: Gap)
    ensures g.gap <==> r < 0.23
    ensures g.river <==> 0.14 <= r < 0.23
    ensures g.river ==> g.gap
  {
    var gap := r < 0.14;
    if r >= 0.14 && r < 0.23 then Gap(true, true) else Gap(gap, false)
  }

  function MakeSegment(x: int, g: Gap): Segment
  {
    if !g.gap then Ground(x) else Hazard(x, x + SegmentWidth, if g.river then River else Pit)
  }

  /** Closed form of segment `i`: edges are ground, and middle segment `i`
      is decided by draw `i - 3` (segments 0, 1, 2 are the start area). */
  function SegmentAt(finishX: int, rng: Draws, i: nat): Segment
  {
    var x := i * SegmentWidth;
    if IsMiddle(finishX, x) then MakeSegment(x, Classify(rng(i - 3))) else Ground(x)
  }

  function GroundLayout(finishX: int, rng: Draws): (segs: seq<Segment>)
  {
    seq(SegmentCount(finishX), (i: nat) => SegmentAt(finishX, rng, i))
  }

  /** `_buildGround`: one segment per 200 px, a draw only for middle
      segments. */
  method BuildGround(finishX: int, rng: Draws) returns (segs: seq<Segment>)
    ensures segs == GroundLayout(finishX, rng)
  {
    var total := SegmentCount(finishX);
    segs := [];
    var next: nat := 0;
    var i: nat := 0;
    while i < total
      invariant i <= total && |segs| == i
      invariant forall j :: 0 <= j < i ==> segs[j] == SegmentAt(finishX, rng, j)
      invariant i <= 3 ==> next == 0
      invariant i > 3 && IsMiddle(finishX, (i - 1) * SegmentWidth) ==> next == i - 3
    {
      var x := i * SegmentWidth;
      var gap := Gap(false, false);
      if IsMiddle(finishX, x) {
        var r := rng(next);
        next := next + 1;
        gap := Classify(r);
      }
      segs := segs + [MakeSegment(x, gap)];
      i := i + 1;
    }
  }

  /** The shape of the ground: `ceil((finishX + 900) / 200)` segments at
      `x = 200 i`, every hazard 200 wide, no hazard within 600 px of either
      end, and a middle segment a pit iff its draw is below 0.14 and a river
      iff its draw is in [0.14, 0.23). */
  lemma GroundShape(finishX: int, rng: Draws, i: nat)
    requires i < |GroundLayout(finishX, rng)|
    ensures |GroundLayout(finishX, rng)| == SegmentCount(finishX)
    ensures var s := GroundLayout(finishX, rng)[i];
      && (s.Ground? ==> s.x == i * SegmentWidth)
      && (s.Hazard? ==> s.x1 == i * SegmentWidth && s.x2 == s.x1 + SegmentWidth)
      && (i * SegmentWidth < 600 || i * SegmentWidth > finishX - 600 ==> s.Ground?)
      && (IsMiddle(finishX, i * SegmentWidth) ==>
            && (s == Hazard(i * SegmentWidth, i * SegmentWidth + SegmentWidth, Pit) <==> rng(i - 3) < 0.14)
            && (s == Hazard(i * SegmentWidth, i * SegmentWidth + SegmentWidth, River) <==> 0.14 <= rng(i - 3) < 0.23)
            && (s == Ground(i * SegmentWidth) <==> rng(i - 3) >= 0.23))
  {
  }

  /** The level as shipped: 33 segments, hazards only at indices 3 to 25. */
  lemma ShippedGround(rng: Draws)
    ensures |GroundLayout(FinishX, rng)| == 33
    ensures forall i :: 0 <= i < 33 && GroundLayout(FinishX, rng)[i].Hazard? ==> 3 <= i <= 25
  {
  }

  // ---------------------------------------------------------------- clouds

  const CloudCount: nat := 26

  /** A cloud at `(x, y)` of size `w` x `h`; non-platform clouds get a thin
      40 x 6 collision body. */
  datatype Cloud = Cloud(x: int, y: int, w: int, h: int, platform: bool, bodyW: int, bodyH: int)

  /** Cloud `i` built from its three draws, in call order. */
  function MakeCloud(i: nat, r0: real, r1: real, r2: real): Cloud
  {
    var platform := r2 > 0.35;
    var w := if platform then 120 else 90;
    var h := if platform then 26 else 22;
    Cloud(800 + i * 190 + (r0 * 160.0).Floor, 190 + (r1 * 140.0).Floor, w, h, platform,
          if platform then w else 40, if platform then h else 6)
  }

  function CloudAt(rng: Draws, i: nat): Cloud
  {
    MakeCloud(i, rng(3 * i), rng(3 * i + 1), rng(3 * i + 2))
  }

  function CloudLayout(rng: Draws): seq<Cloud>
  {
    seq(CloudCount, (i: nat) => CloudAt(rng, i))
  }

  /** `_buildClouds`: three draws per cloud. */
  method BuildClouds(rng: Draws) returns (clouds: seq<Cloud>)
    ensures clouds == CloudLayout(rng)
  {
    clouds := [];
    var next: nat := 0;
    var i: nat := 0;
    while i < CloudCount
      invariant i <= CloudCount && |clouds| == i && next == 3 * i
      invariant forall j :: 0 <= j < i ==> clouds[j] == CloudAt(rng, j)
    {
      var r0 := rng(next);
      var r1 := rng(next + 1);
      var r2 := rng(next + 2);
      next := next + 3;
      clouds := clouds + [MakeCloud(i, r0, r1, r2)];
      i := i + 1;
    }
  }

  lemma FloorScaled(r: real, n: int)
    requires 0.0 <= r < 1.0 && n > 0
    ensures 0 <= (r * n as real).Floor <= n - 1
  {
    assert 0.0 <= r * n as real < n as real;
  }

  /** Exactly 26 clouds; cloud `i` has `x` in [800 + 190 i, 959 + 190 i] and
      `y` in [190, 329]; it is a platform iff its third draw exceeds 0.35, and
      platforms are 120 x 26, the others 90 x 22. */
  lemma CloudBounds(rng: Draws, i: nat)
    requires InUnit(rng)
    requires i < |CloudLayout(rng)|
    ensures |CloudLayout(rng)| == 26
    ensures var c := CloudLayout(rng)[i];
      && 800 + 190 * i <= c.x <= 959 + 190 * i
      && 190 <= c.y <= 329
      && (c.platform <==> rng(3 * i + 2) > 0.35)
      && (c.platform ==> c.w == 120 && c.h == 26)
      && (!c.platform ==> c.w == 90 && c.h == 22)
  {
    FloorScaled(rng(3 * i), 160);
    FloorScaled(rng(3 * i + 1), 140);
  }

  // ------------------------------------------------------------- obstacles

  datatype Kind = Grass | Flower

  datatype Obstacle = Obstacle(x: int, kind: Kind)

  /** The sensor rectangle of `_makeObstacle`, reduced to what the game
      tests: the kind and the x interval `[x - 12, x + 34]`. */
  datatype Sensor = Sensor(kind: Kind, x1: int, x2: int)

  function MakeSensor(o: Obstacle): Sensor
  {
    Sensor(o.kind, o.x - 12, o.x + 34)
  }

  /** The sensor of every obstacle of the layout, in `obstacleGroup` order. */
  function SensorsOf(obstacles: seq<Obstacle>): (sensors: seq<Sensor>)
    ensures |sensors| == |obstacles|
    ensures forall i :: 0 <= i < |sensors| ==>
      && sensors[i].kind == obstacles[i].kind
      && sensors[i].x1 == obstacles[i].x - 12
      && sensors[i].x2 == obstacles[i].x + 34
  {
    seq(|obstacles|, (i: int) requires 0 <= i < |obstacles| => MakeSensor(obstacles[i]))
  }

  const SprintCount: nat := 5

  /** The number of `x = 680 + 260 k` with `x < finishX - 260`. */
  function RegularCount(finishX: int): (n: nat)
    ensures forall k: nat :: 680 + 260 * k < finishX - 260 <==> k < n
  {
    if finishX - 940 <= 0 then 0
    else
      var q := CeilDiv(finishX - 940, 260);
      assert forall k: nat :: 680 + 260 * k < finishX - 260 <==> k < q by {
        forall k: nat ensures 680 + 260 * k < finishX - 260 <==> k < q {
          if k < q { assert 260 * k <= (q - 1) * 260; }
          else { assert 260 * k >= q * 260; }
        }
      }
      q
  }

  /** Regular obstacle `k`: kind from draw `2k` (grass below 0.55), offset
      from draw `2k + 1`. */
  function RegularAt(rng: Draws, k: nat): Obstacle
  {
    Obstacle(680 + 260 * k + (rng(2 * k + 1) * 90.0).Floor, if rng(2 * k) < 0.55 then Grass else Flower)
  }

  /** Sprint obstacle `i` before the finish: flowers at even `i`. */
  function SprintAt(finishX: int, i: nat): Obstacle
  {
    Obstacle(finishX - 760 + i * 130, if i % 2 == 0 then Flower else Grass)
  }

  function ObstacleLayout(finishX: int, rng: Draws): seq<Obstacle>
  {
    seq(RegularCount(finishX), (k: nat) => RegularAt(rng, k))
      + seq(SprintCount, (i: nat) => SprintAt(finishX, i))
  }

  /** `_buildObstacles`: two draws per regular obstacle (kind, then offset, in
      both branches), then five sprint obstacles without draws. */
  method BuildObstacles(finishX: int, rng: Draws) returns (obstacles: seq<Obstacle>)
    ensures obstacles == ObstacleLayout(finishX, rng)
  {
    obstacles := [];
    var next: nat := 0;
    var x := 680;
    while x < finishX - 260
      invariant x == 680 + 260 * |obstacles| && next == 2 * |obstacles|
      invariant |obstacles| <= RegularCount(finishX)
      invariant forall k :: 0 <= k < |obstacles| ==> obstacles[k] == RegularAt(rng, k)
      decreases finishX - x
    {
      var r := rng(next);
      next := next + 1;
      if r < 0.55 {
        obstacles := obstacles + [Obstacle(x + (rng(next) * 90.0).Floor, Grass)];
      } else {
        obstacles := obstacles + [Obstacle(x + (rng(next) * 90.0).Floor, Flower)];
      }
      next := next + 1;
      x := x + 260;
    }
    var regular := obstacles;
    var i := 0;
    while i < SprintCount
      invariant i <= SprintCount && |obstacles| == |regular| + i
      invariant obstacles[..|regular|] == regular
      invariant forall j :: 0 <= j < i ==> obstacles[|regular| + j] == SprintAt(finishX, j)
    {
      obstacles := obstacles + [Obstacle(finishX - 760 + i * 130, if i % 2 == 0 then Flower else Grass)];
      i := i + 1;
    }
  }

  /** Regular obstacle `k` lies in `[680 + 260 k, 769 + 260 k]` and is grass
      iff its first draw is below 0.55; the five sprint obstacles follow at
      `finishX - 760 + 130 i`, flowers at even `i`. */
  lemma ObstacleShape(finishX: int, rng: Draws, k: nat)
    requires InUnit(rng)
    requires k < |ObstacleLayout(finishX, rng)|
    ensures |ObstacleLayout(finishX, rng)| == RegularCount(finishX) + 5
    ensures var o := ObstacleLayout(finishX, rng)[k];
      if k < RegularCount(finishX) then
        && 680 + 260 * k <= o.x <= 769 + 260 * k
        && 680 + 260 * k < finishX - 260
        && (o.kind == Grass <==> rng(2 * k) < 0.55)
      else
        && o.x == finishX - 760 + 130 * (k - RegularCount(finishX))
        && (o.kind == Flower <==> (k - RegularCount(finishX)) % 2 == 0)
  {
    if k < RegularCount(finishX) {
      FloorScaled(rng(2 * k + 1), 90);
    }
  }

  /** Within each group the sensors are pairwise disjoint and ordered left to
      right: regular obstacles are 260 px apart with at most 89 px of jitter,
      sprint obstacles 130 px apart, and a sensor is 46 px wide. */
  lemma SensorsOrdered(finishX: int, rng: Draws, j: nat, k: nat)
    requires InUnit(rng)
    requires j < k < |ObstacleLayout(finishX, rng)|
    requires k < RegularCount(finishX) || j >= RegularCount(finishX)
    ensures var s := SensorsOf(ObstacleLayout(finishX, rng));
      s[j].x2 < s[k].x1
  {
    ObstacleShape(finishX, rng, j);
    ObstacleShape(finishX, rng, k);
  }

  /** The level as shipped has 18 regular and 5 sprint obstacles. */
  lemma ShippedObstacles(rng: Draws)
    ensures |ObstacleLayout(FinishX, rng)| == 23
  {
  }

  // ---------------------------------------------------------------- seeded

  /** The level as shipped, with the seeds of the three builders (ground
      42, clouds 7, obstacles 99): 33 segments, 26 clouds and 23 obstacles. */
  lemma ShippedLevel()
    ensures |GroundLayout(FinishX, Mulberry.Stream(42))| == 33
    ensures |CloudLayout(Mulberry.Stream(7))| == 26
    ensures |ObstacleLayout(FinishX, Mulberry.Stream(99))| == 23
  {
    ShippedGround(Mulberry.Stream(42));
    ShippedObstacles(Mulberry.Stream(99));
  }

  /** With seed 99, regular obstacles 16 and 17 land on sprint obstacles 0
      and 2: draws 33 and 35 give offsets 21 and 35, so their sensors
      `[4849, 4895]` and `[5123, 5169]` overlap the sprint sensors
      `[4828, 4874]` and `[5088, 5134]`, and one frame in the air over an
      overlap clears two sensors at once. */
  lemma ShippedSensorsOverlap()
    ensures var s := SensorsOf(ObstacleLayout(FinishX, Mulberry.Stream(99)));
      && |s| == 23
      && s[16] == Sensor(Grass, 4849, 4895) && s[18] == Sensor(Flower, 4828, 4874)
      && s[17] == Sensor(Flower, 5123, 5169) && s[20] == Sensor(Flower, 5088, 5134)
  {
    var layout := ObstacleLayout(FinishX, Mulberry.Stream(99));
    ShippedObstacles(Mulberry.Stream(99));
    ShippedEntries();
    assert MakeSensor(layout[16]) == Sensor(Grass, 4849, 4895);
    assert MakeSensor(layout[17]) == Sensor(Flower, 5123, 5169);
  }

  /** The four seed-99 obstacles whose sensors overlap. */
  lemma ShippedEntries()
    ensures var layout := ObstacleLayout(FinishX, Mulberry.Stream(99));
      && |layout| == 23
      && layout[16] == Obstacle(4861, Grass) && layout[17] == Obstacle(5135, Flower)
      && layout[18] == Obstacle(4840, Flower) && layout[20] == Obstacle(5100, Flower)
  {
    var rng := Mulberry.Stream(99);
    assert RegularCount(FinishX) == 18 by { assert 680 + 260 * 17 < FinishX - 260; }
    ShippedObstacles(rng);
    LayoutEntry(FinishX, rng, 16);
    LayoutEntry(FinishX, rng, 17);
    LayoutEntry(FinishX, rng, 18);
    LayoutEntry(FinishX, rng, 20);
    ShippedRegular16();
    ShippedRegular17();
  }

  lemma ShippedRegular16()
    ensures RegularAt(Mulberry.Stream(99), 16) == Obstacle(4861, Grass)
  {
    Mulberry.Seed99Draw32();
    Mulberry.Seed99Draw33();
  }

  lemma ShippedRegular17()
    ensures RegularAt(Mulberry.Stream(99), 17) == Obstacle(5135, Flower)
  {
    Mulberry.Seed99Draw34();
    Mulberry.Seed99Draw35();
  }

  /** Entry `k` of the obstacle layout: a regular obstacle below
      `RegularCount`, a sprint obstacle after. */
  lemma LayoutEntry(finishX: int, rng: Draws, k: nat)
    requires k < |ObstacleLayout(finishX, rng)|
    ensures ObstacleLayout(finishX, rng)[k] ==
      if k < RegularCount(finishX) then RegularAt(rng, k) else SprintAt(finishX, k - RegularCount(finishX))
  {
  }

  /** Every mulberry32 stream satisfies the hypotheses of the layout lemmas. */
  lemma MulberryInUnit(seed: int)
    ensures InUnit(Mulberry.Stream(seed))
  {
    forall k: nat ensures 0.0 <= Mulberry.Stream(seed)(k) < 1.0 {
      Mulberry.StreamInUnit(seed, k);
    }
  }
}
