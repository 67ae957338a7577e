/** The per-frame movement and collision step of the 2D ray caster, as
    functions of the held keys, the position and the view direction. */
module Movement {
  import opened GridMap
  import opened KeyState

  datatype Vec2 = Vec2(x: real, y: real)

  /** The step vector reversed, for S. */
  function Back(f: Vec2): Vec2
  {
    Vec2(-f.x, -f.y)
  }

  /** The step vector turned a quarter to the left, for A. */
  function LeftOf(f: Vec2): Vec2
  {
    Vec2(-f.y, f.x)
  }

  /** The step vector turned a quarter to the right, for D. */
  function RightOf(f: Vec2): Vec2
  {
    Vec2(f.y, -f.x)
  }

  /** The result of a collision test or of a whole step: the new position, or
      the first index read that lies outside `worldMap` (a read the program
      performs without any check). */
  datatype Outcome = Moved(pos: Vec2) | OutOfMap(index: int)

  /** `MOVESPEED`: distance covered per frame, in map cells. */
  const MoveSpeed: real := 0.02
  /** The factor applied when moving and strafing at once (close to 1/sqrt(2)). */
  const DiagonalScale: real := 0.70710678118

  const SourceStart: Vec2 := Vec2(22.0, 13.5)
  const InitialDir: Vec2 := Vec2(-1.0, 0.0)
  /** A start position in the middle of the open interior of the map. */
  const CenterStart: Vec2 := Vec2(2.5, 2.5)

  /** The step length of one frame. */
  function Multiplier(w: bool, s: bool, a: bool, d: bool): (m: real)
    ensures m == MoveSpeed * DiagonalScale <==> (w || s) && (a || d)
    ensures m == MoveSpeed <==> !((w || s) && (a || d))
  {
    if w || s then (if a || d then MoveSpeed * DiagonalScale else MoveSpeed)
    else MoveSpeed
  }

  /** Move along x by `dx` if the cell at the candidate x and the current y is
      empty. */
  function MoveX(world: seq<int>, p: Vec2, dx: real): (r: Outcome)
    ensures r.OutOfMap? <==> !InMap(world, MapIndex(p.x + dx, p.y))
    ensures r.OutOfMap? ==> r.index == MapIndex(p.x + dx, p.y)
    ensures r.Moved? ==> r.pos.y == p.y
    ensures r.Moved? && world[MapIndex(p.x + dx, p.y)] == 0 ==> r.pos.x == p.x + dx
    ensures r.Moved? && world[MapIndex(p.x + dx, p.y)] != 0 ==> r.pos == p
  {
    var i := MapIndex(p.x + dx, p.y);
    if !InMap(world, i) then OutOfMap(i)
    else if world[i] == 0 then Moved(Vec2(p.x + dx, p.y))
    else Moved(p)
  }

  /** Move along y by `dy` if the cell at the current x and the candidate y is
      empty. */
  function MoveY(world: seq<int>, p: Vec2, dy: real): (r: Outcome)
    ensures r.OutOfMap? <==> !InMap(world, MapIndex(p.x, p.y + dy))
    ensures r.OutOfMap? ==> r.index == MapIndex(p.x, p.y + dy)
    ensures r.Moved? ==> r.pos.x == p.x
    ensures r.Moved? && world[MapIndex(p.x, p.y + dy)] == 0 ==> r.pos.y == p.y + dy
    ensures r.Moved? && world[MapIndex(p.x, p.y + dy)] != 0 ==> r.pos == p
  {
    var i := MapIndex(p.x, p.y + dy);
    if !InMap(world, i) then OutOfMap(i)
    else if world[i] == 0 then Moved(Vec2(p.x, p.y + dy))
    else Moved(p)
  }

  /** The two tests of one key, x first; the y test sees the x just written. */
  function Slide(world: seq<int>, p: Vec2, dx: real, dy: real): (r: Outcome)
    ensures r.OutOfMap? ==> !InMap(world, r.index)
    ensures r.Moved? ==> (r.pos.x == p.x || r.pos.x == p.x + dx) && (r.pos.y == p.y || r.pos.y == p.y + dy)
  {
    match MoveX(world, p, dx)
    case OutOfMap(i) => OutOfMap(i)
    case Moved(q) => MoveY(world, q, dy)
  }

  /** The forward/backward branch for the step `f` (the direction times the
      step length): W wins over S. */
  function Forward(world: seq<int>, keys: seq<bool>, p: Vec2, f: Vec2): (r: Outcome)
    requires IsTable(keys)
    ensures !keys[KeyW] && !keys[KeyS] ==> r == Moved(p)
    ensures r.OutOfMap? ==> !InMap(world, r.index)
    ensures r.Moved? && keys[KeyW] ==>
              (r.pos.x == p.x || r.pos.x == p.x + f.x) && (r.pos.y == p.y || r.pos.y == p.y + f.y)
    ensures r.Moved? && !keys[KeyW] && keys[KeyS] ==>
              (r.pos.x == p.x || r.pos.x == p.x - f.x) && (r.pos.y == p.y || r.pos.y == p.y - f.y)
  {
    if keys[KeyW] then Slide(world, p, f.x, f.y)
    else if keys[KeyS] then Slide(world, p, Back(f).x, Back(f).y)
    else Moved(p)
  }

  /** The strafe branch, along `f` turned a quarter: A wins over D. */
  function Strafe(world: seq<int>, keys: seq<bool>, p: Vec2, f: Vec2): (r: Outcome)
    requires IsTable(keys)
    ensures !keys[KeyA] && !keys[KeyD] ==> r == Moved(p)
    ensures r.OutOfMap? ==> !InMap(world, r.index)
    ensures r.Moved? && keys[KeyA] ==>
              (r.pos.x == p.x || r.pos.x == p.x - f.y) && (r.pos.y == p.y || r.pos.y == p.y + f.x)
    ensures r.Moved? && !keys[KeyA] && keys[KeyD] ==>
              (r.pos.x == p.x || r.pos.x == p.x + f.y) && (r.pos.y == p.y || r.pos.y == p.y - f.x)
  {
    if keys[KeyA] then Slide(world, p, LeftOf(f).x, LeftOf(f).y)
    else if keys[KeyD] then Slide(world, p, RightOf(f).x, RightOf(f).y)
    else Moved(p)
  }

  /** The direction scaled by the frame's step length: for a direction in
      the unit box no component exceeds `MOVESPEED`. */
  function StepVector(keys: seq<bool>, dir: Vec2): (f: Vec2)
    requires IsTable(keys)
    ensures UnitBox(dir) ==> ShortVector(f)
  {
    var m := Multiplier(keys[KeyW], keys[KeyS], keys[KeyA], keys[KeyD]);
    if UnitBox(dir) then
      ShortStep(dir.x, m);
      ShortStep(dir.y, m);
      Vec2(dir.x * m, dir.y * m)
    else
      Vec2(dir.x * m, dir.y * m)
  }

  /** A step vector no component of which exceeds `MOVESPEED`. */
  predicate ShortVector(f: Vec2)
  {
    -MoveSpeed <= f.x <= MoveSpeed && -MoveSpeed <= f.y <= MoveSpeed
  }

  /** A unit-box component times either of the two step lengths is at most
      `MOVESPEED` in size. Both lengths are constants, so the products stay
      linear. */
  lemma ShortStep(a: real, m: real)
    requires -1.0 <= a <= 1.0 && (m == MoveSpeed || m == MoveSpeed * DiagonalScale)
    ensures -MoveSpeed <= a * m <= MoveSpeed
  {
    if m == MoveSpeed {
      assert a * m == a * 0.02;
    } else {
      assert a * m == a * 0.014142135623600;
    }
  }

  /** One frame of movement: the forward/backward branch, then the strafe
      branch from wherever the first one left the player. */
  function StepSpec(world: seq<int>, keys: seq<bool>, p: Vec2, dir: Vec2): (r: Outcome)
    requires IsTable(keys)
    ensures r.OutOfMap? ==> !InMap(world, r.index)
  {
    var f := StepVector(keys, dir);
    match Forward(world, keys, p, f)
    case OutOfMap(i) => OutOfMap(i)
    case Moved(q) => Strafe(world, keys, q, f)
  }

  /** A step that stays inside the map runs its W / S half to completion,
      and its A / D half starts where that half ended. */
  lemma StepHalves(world: seq<int>, keys: seq<bool>, p: Vec2, dir: Vec2)
    requires IsTable(keys) && StepSpec(world, keys, p, dir).Moved?
    ensures Forward(world, keys, p, StepVector(keys, dir)).Moved?
    ensures StepSpec(world, keys, p, dir)
            == Strafe(world, keys, Forward(world, keys, p, StepVector(keys, dir)).pos, StepVector(keys, dir))
  {
  }

  predicate NoMovementKey(keys: seq<bool>)
    requires IsTable(keys)
  {
    !keys[KeyW] && !keys[KeyS] && !keys[KeyA] && !keys[KeyD]
  }

  /** With none of W, S, A, D held nothing is read and the position stays. */
  lemma NoKeysNoMove(world: seq<int>, keys: seq<bool>, p: Vec2, dir: Vec2)
    requires IsTable(keys) && NoMovementKey(keys)
    ensures StepSpec(world, keys, p, dir) == Moved(p)
  {
  }

  /** With W held only the W branch runs: S makes no difference. */
  lemma ForwardWins(world: seq<int>, keys: seq<bool>, p: Vec2, dir: Vec2)
    requires IsTable(keys) && keys[KeyW]
    ensures StepSpec(world, keys, p, dir) == StepSpec(world, keys[KeyS := false], p, dir)
  {
    var k := keys[KeyS := false];
    assert k[KeyW] && k[KeyA] == keys[KeyA] && k[KeyD] == keys[KeyD];
    var f := StepVector(keys, dir);
    assert f == StepVector(k, dir);
    assert Forward(world, keys, p, f) == Forward(world, k, p, f);
    forall q: Vec2 ensures Strafe(world, keys, q, f) == Strafe(world, k, q, f) {
    }
  }

  /** With A held only the A branch runs: D makes no difference. */
  lemma LeftWins(world: seq<int>, keys: seq<bool>, p: Vec2, dir: Vec2)
    requires IsTable(keys) && keys[KeyA]
    ensures StepSpec(world, keys, p, dir) == StepSpec(world, keys[KeyD := false], p, dir)
  {
    var k := keys[KeyD := false];
    assert k[KeyA] && k[KeyW] == keys[KeyW] && k[KeyS] == keys[KeyS];
    var f := StepVector(keys, dir);
    assert f == StepVector(k, dir);
    assert Forward(world, keys, p, f) == Forward(world, k, p, f);
    forall q: Vec2 ensures Strafe(world, keys, q, f) == Strafe(world, k, q, f) {
    }
  }

  // ---------------------------------------------------------------------
  // The start position of the program and the map's bounds

  /** From the program's start position, moving with any of W, S, A, D reads
      outside the 75 entries of `worldMap`; with W held, index 86. */
  lemma SourceStartReadsOutside(keys: seq<bool>)
    requires IsTable(keys)
    ensures StepSpec(WorldMap, keys, SourceStart, InitialDir).Moved? <==> NoMovementKey(keys)
    ensures keys[KeyW] ==> StepSpec(WorldMap, keys, SourceStart, InitialDir) == OutOfMap(86)
  {
    assert |WorldMap| == MapSize;
    var f := StepVector(keys, InitialDir);
    var m := Multiplier(keys[KeyW], keys[KeyS], keys[KeyA], keys[KeyD]);
    assert f == Vec2(-1.0 * m, 0.0 * m);
    assert 0.0 < m < 0.5;
    StartForward(WorldMap, keys, f);
    if !keys[KeyW] && !keys[KeyS] {
      StartStrafe(WorldMap, keys, f);
    }
  }

  lemma StartForward(world: seq<int>, keys: seq<bool>, f: Vec2)
    requires |world| == MapSize && IsTable(keys)
    requires -0.5 < f.x < 0.0 && f.y == 0.0
    ensures keys[KeyW] ==> Forward(world, keys, SourceStart, f) == OutOfMap(86)
    ensures !keys[KeyW] && keys[KeyS] ==> Forward(world, keys, SourceStart, f) == OutOfMap(87)
    ensures !keys[KeyW] && !keys[KeyS] ==> Forward(world, keys, SourceStart, f) == Moved(SourceStart)
  {
    assert Trunc(13.5) == 13;
    if keys[KeyW] {
      assert Trunc(22.0 + f.x) == 21;
    } else if keys[KeyS] {
      assert Trunc(22.0 + -f.x) == 22;
    }
  }

  lemma StartStrafe(world: seq<int>, keys: seq<bool>, f: Vec2)
    requires |world| == MapSize && IsTable(keys)
    requires -0.5 < f.x < 0.0 && f.y == 0.0
    ensures keys[KeyA] || keys[KeyD] ==> Strafe(world, keys, SourceStart, f) == OutOfMap(87)
    ensures !keys[KeyA] && !keys[KeyD] ==> Strafe(world, keys, SourceStart, f) == Moved(SourceStart)
  {
    assert Trunc(13.5) == 13;
    if keys[KeyA] {
      assert Trunc(22.0 + -f.y) == 22;
    } else if keys[KeyD] {
      assert Trunc(22.0 + f.y) == 22;
    }
  }

  // ---------------------------------------------------------------------
  // Inside the open interior every read is in range

  /** The open 3x3 interior of the first layer, [1, 4) x [1, 4). */
  predicate InInterior(p: Vec2)
  {
    1.0 <= p.x < 4.0 && 1.0 <= p.y < 4.0
  }

  /** Both components of the direction lie in [-1, 1], as they do for every
      unit vector; the direction the program starts with is one. */
  predicate UnitBox(dir: Vec2)
  {
    -1.0 <= dir.x <= 1.0 && -1.0 <= dir.y <= 1.0
  }

  /** Where one coordinate ends up inside the interior: moved by `d` when the
      target stays in [1, 4), kept otherwise. */
  function Clip(c: real, d: real): real
  {
    if 1.0 <= c + d < 4.0 then c + d else c
  }

  lemma {:induction false} MoveXInside(world: seq<int>, p: Vec2, dx: real)
    requires Layout(world) && InInterior(p) && -1.0 <= dx <= 1.0
    ensures MoveX(world, p, dx) == Moved(Vec2(Clip(p.x, dx), p.y))
  {
    OpenExactlyInside(world, p.x + dx, p.y);
  }

  lemma {:induction false} MoveYInside(world: seq<int>, p: Vec2, dy: real)
    requires Layout(world) && InInterior(p) && -1.0 <= dy <= 1.0
    ensures MoveY(world, p, dy) == Moved(Vec2(p.x, Clip(p.y, dy)))
  {
    OpenExactlyInside(world, p.x, p.y + dy);
  }

  /** Inside the interior a key's two tests never leave the map, and each axis
      moves exactly when its own target stays inside: the walls stop the
      player one axis at a time, so the other may still slide. */
  lemma {:induction false} SlideInside(world: seq<int>, p: Vec2, dx: real, dy: real)
    requires Layout(world) && InInterior(p) && -1.0 <= dx <= 1.0 && -1.0 <= dy <= 1.0
    ensures Slide(world, p, dx, dy) == Moved(Vec2(Clip(p.x, dx), Clip(p.y, dy)))
    ensures InInterior(Slide(world, p, dx, dy).pos)
  {
    MoveXInside(world, p, dx);
    MoveYInside(world, Vec2(Clip(p.x, dx), p.y), dy);
  }

  predicate SmallStep(f: Vec2)
  {
    -1.0 <= f.x <= 1.0 && -1.0 <= f.y <= 1.0
  }

  lemma {:induction false} ForwardInside(world: seq<int>, keys: seq<bool>, p: Vec2, f: Vec2)
    requires Layout(world) && IsTable(keys) && InInterior(p) && SmallStep(f)
    ensures Forward(world, keys, p, f).Moved? && InInterior(Forward(world, keys, p, f).pos)
  {
    if keys[KeyW] {
      SlideInside(world, p, f.x, f.y);
    } else if keys[KeyS] {
      SlideInside(world, p, Back(f).x, Back(f).y);
    }
  }

  lemma {:induction false} StrafeInside(world: seq<int>, keys: seq<bool>, p: Vec2, f: Vec2)
    requires Layout(world) && IsTable(keys) && InInterior(p) && SmallStep(f)
    ensures Strafe(world, keys, p, f).Moved? && InInterior(Strafe(world, keys, p, f).pos)
  {
    if keys[KeyA] {
      SlideInside(world, p, LeftOf(f).x, LeftOf(f).y);
    } else if keys[KeyD] {
      SlideInside(world, p, RightOf(f).x, RightOf(f).y);
    }
  }

  /** A frame that starts in the interior, with a direction in the unit box,
      performs only in-range reads and ends in the interior again, whatever
      keys are held. */
  lemma {:induction false} StepKeepsInterior(world: seq<int>, keys: seq<bool>, p: Vec2, dir: Vec2)
    requires Layout(world) && IsTable(keys) && InInterior(p) && UnitBox(dir)
    ensures StepSpec(world, keys, p, dir).Moved?
    ensures InInterior(StepSpec(world, keys, p, dir).pos)
  {
    var f := StepVector(keys, dir);
    ForwardInside(world, keys, p, f);
    StrafeInside(world, keys, Forward(world, keys, p, f).pos, f);
  }

  // ---------------------------------------------------------------------
  // Order of the two tests

  /** A reading in which both tests of a key look at the position from before
      the key, instead of letting the y test see the new x. */
  function SimultaneousSlide(world: seq<int>, p: Vec2, dx: real, dy: real): Outcome
  {
    var i, j := MapIndex(p.x + dx, p.y), MapIndex(p.x, p.y + dy);
    if !InMap(world, i) then OutOfMap(i)
    else if !InMap(world, j) then OutOfMap(j)
    else Moved(Vec2(if world[i] == 0 then p.x + dx else p.x,
                    if world[j] == 0 then p.y + dy else p.y))
  }

  /** The order is observable: stepping out of the wall cell at column 0 into
      column 1, the y test sees the new column and lets y move; read against
      the old column it would not. */
  lemma SequentialOrderMatters()
    ensures Slide(WorldMap, Vec2(0.99, 1.5), 0.02, 0.02) == Moved(Vec2(1.01, 1.52))
    ensures SimultaneousSlide(WorldMap, Vec2(0.99, 1.5), 0.02, 0.02) == Moved(Vec2(1.01, 1.5))
  {
    assert Trunc(1.01) == 1 && Trunc(1.5) == 1 && Trunc(1.52) == 1 && Trunc(0.99) == 0;
    WorldMapLayout();
    assert WorldMap[6] == 0 && WorldMap[5] != 0;
  }

  /** Inside the interior the two readings agree: there the order of the tests
      cannot be seen. */
  lemma {:induction false} OrderInvisibleInside(p: Vec2, dx: real, dy: real)
    requires InInterior(p) && -1.0 <= dx <= 1.0 && -1.0 <= dy <= 1.0
    ensures Slide(WorldMap, p, dx, dy) == SimultaneousSlide(WorldMap, p, dx, dy)
  {
    WorldMapLayout();
    SlideInside(WorldMap, p, dx, dy);
    OpenExactlyInside(WorldMap, p.x + dx, p.y);
    OpenExactlyInside(WorldMap, p.x, p.y + dy);
  }

  // ---------------------------------------------------------------------
  // Diagonal speed

  function SqDist(p: Vec2, q: Vec2): real
  {
    (q.x - p.x) * (q.x - p.x) + (q.y - p.y) * (q.y - p.y)
  }

  /** At least 0.05 away from every wall of the interior. */
  predicate AwayFromWalls(p: Vec2)
  {
    1.05 <= p.x < 3.95 && 1.05 <= p.y < 3.95
  }

  lemma UnitComponents(dir: Vec2)
    requires dir.x * dir.x + dir.y * dir.y == 1.0
    ensures UnitBox(dir)
  {
    assert dir.x * dir.x <= 1.0 && dir.y * dir.y <= 1.0;
  }

  /** Where the held keys would take the player in open space, for the step
      vector `f`: the forward or backward part plus the strafe part. */
  function FreeDisplacement(keys: seq<bool>, f: Vec2): Vec2
    requires IsTable(keys)
  {
    var fwd, side := ForwardPart(keys, f), StrafePart(keys, f);
    Vec2(fwd.x + side.x, fwd.y + side.y)
  }

  lemma {:induction false} FreeSlide(world: seq<int>, p: Vec2, dx: real, dy: real)
    requires Layout(world) && 1.03 <= p.x < 3.97 && 1.03 <= p.y < 3.97
    requires -MoveSpeed <= dx <= MoveSpeed && -MoveSpeed <= dy <= MoveSpeed
    ensures Slide(world, p, dx, dy) == Moved(Vec2(p.x + dx, p.y + dy))
  {
    SlideInside(world, p, dx, dy);
  }

  function ForwardPart(keys: seq<bool>, f: Vec2): Vec2
    requires IsTable(keys)
  {
    if keys[KeyW] then f else if keys[KeyS] then Back(f) else Vec2(0.0, 0.0)
  }

  function StrafePart(keys: seq<bool>, f: Vec2): Vec2
    requires IsTable(keys)
  {
    if keys[KeyA] then LeftOf(f) else if keys[KeyD] then RightOf(f) else Vec2(0.0, 0.0)
  }

  lemma {:induction false} FreeForward(world: seq<int>, keys: seq<bool>, p: Vec2, f: Vec2)
    requires Layout(world) && IsTable(keys) && AwayFromWalls(p) && ShortVector(f)
    ensures Forward(world, keys, p, f) == Moved(Vec2(p.x + ForwardPart(keys, f).x, p.y + ForwardPart(keys, f).y))
  {
    if keys[KeyW] {
      assert ForwardPart(keys, f) == f;
      FreeSlide(world, p, f.x, f.y);
      assert Forward(world, keys, p, f) == Slide(world, p, f.x, f.y);
    } else if keys[KeyS] {
      var b := Back(f);
      assert ForwardPart(keys, f) == b;
      FreeSlide(world, p, b.x, b.y);
      assert Forward(world, keys, p, f) == Slide(world, p, b.x, b.y);
    }
  }

  lemma {:induction false} FreeStrafe(world: seq<int>, keys: seq<bool>, g: Vec2, f: Vec2)
    requires Layout(world) && IsTable(keys) && 1.03 <= g.x < 3.97 && 1.03 <= g.y < 3.97 && ShortVector(f)
    ensures Strafe(world, keys, g, f) == Moved(Vec2(g.x + StrafePart(keys, f).x, g.y + StrafePart(keys, f).y))
  {
    var s := StrafePart(keys, f);
    if keys[KeyA] {
      assert s == LeftOf(f);
      FreeSlide(world, g, s.x, s.y);
      assert Strafe(world, keys, g, f) == Slide(world, g, s.x, s.y);
    } else if keys[KeyD] {
      assert s == RightOf(f);
      FreeSlide(world, g, s.x, s.y);
      assert Strafe(world, keys, g, f) == Slide(world, g, s.x, s.y);
    }
  }

  /** Away from the walls nothing blocks: the frame moves the player by
      exactly the free displacement of the held keys. */
  lemma {:induction false} FreeStep(world: seq<int>, keys: seq<bool>, p: Vec2, dir: Vec2)
    requires Layout(world) && IsTable(keys) && AwayFromWalls(p) && UnitBox(dir)
    ensures StepSpec(world, keys, p, dir) ==
            Moved(Vec2(p.x + FreeDisplacement(keys, StepVector(keys, dir)).x,
                       p.y + FreeDisplacement(keys, StepVector(keys, dir)).y))
  {
    var f := StepVector(keys, dir);
    FreeForward(world, keys, p, f);
    var g := Vec2(p.x + ForwardPart(keys, f).x, p.y + ForwardPart(keys, f).y);
    FreeStrafe(world, keys, g, f);
  }

  lemma RotatedSum(a: real, b: real, m: real)
    requires a * a + b * b == 1.0
    ensures (a * m - b * m) * (a * m - b * m) + (b * m + a * m) * (b * m + a * m) == 2.0 * m * m
  {
    calc {
      (a * m - b * m) * (a * m - b * m) + (b * m + a * m) * (b * m + a * m);
      2.0 * (a * a + b * b) * (m * m);
    }
  }

  function SqLen(v: Vec2): real
  {
    v.x * v.x + v.y * v.y
  }

  /** In open space W alone moves by `MOVESPEED` along a unit direction. */
  lemma ForwardDisplacement(keys: seq<bool>, dir: Vec2)
    requires IsTable(keys) && keys[KeyW] && !keys[KeyA] && !keys[KeyD]
    requires dir.x * dir.x + dir.y * dir.y == 1.0
    ensures SqLen(FreeDisplacement(keys, StepVector(keys, dir))) == MoveSpeed * MoveSpeed
  {
    var m := MoveSpeed;
    var f := StepVector(keys, dir);
    assert f == Vec2(dir.x * m, dir.y * m);
    assert FreeDisplacement(keys, f) == Vec2(f.x + 0.0, f.y + 0.0);
    assert SqLen(f) == (dir.x * dir.x + dir.y * dir.y) * (m * m);
  }

  /** In open space W and A together move by `MOVESPEED * 0.70710678118`
      along both the direction and its quarter turn. */
  lemma DiagonalDisplacement(keys: seq<bool>, dir: Vec2)
    requires IsTable(keys) && keys[KeyW] && keys[KeyA]
    requires dir.x * dir.x + dir.y * dir.y == 1.0
    ensures SqLen(FreeDisplacement(keys, StepVector(keys, dir)))
            == 2.0 * DiagonalScale * DiagonalScale * MoveSpeed * MoveSpeed
  {
    var m := MoveSpeed * DiagonalScale;
    var f := StepVector(keys, dir);
    assert f == Vec2(dir.x * m, dir.y * m);
    var d := FreeDisplacement(keys, f);
    assert d == Vec2(f.x + -f.y, f.y + f.x);
    RotatedSum(dir.x, dir.y, m);
  }

  lemma ShiftDistance(p: Vec2, d: Vec2)
    ensures SqDist(p, Vec2(p.x + d.x, p.y + d.y)) == SqLen(d)
  {
    assert (p.x + d.x) - p.x == d.x && (p.y + d.y) - p.y == d.y;
  }

  /** Away from the walls, a frame with only W held moves by `MOVESPEED`
      along a unit direction. */
  lemma {:induction false} ForwardSpeed(keys: seq<bool>, p: Vec2, dir: Vec2)
    requires IsTable(keys) && keys[KeyW] && !keys[KeyA] && !keys[KeyD]
    requires AwayFromWalls(p) && dir.x * dir.x + dir.y * dir.y == 1.0
    ensures StepSpec(WorldMap, keys, p, dir).Moved?
    ensures SqDist(p, StepSpec(WorldMap, keys, p, dir).pos) == MoveSpeed * MoveSpeed
  {
    FreeStepOnWorldMap(keys, p, dir);
    var d := FreeDisplacement(keys, StepVector(keys, dir));
    ForwardDisplacement(keys, dir);
    ShiftDistance(p, d);
    var q := Vec2(p.x + d.x, p.y + d.y);
    assert StepSpec(WorldMap, keys, p, dir) == Moved(q);
    assert SqDist(p, q) == MoveSpeed * MoveSpeed;
  }

  /** `FreeStep` on the program's own map, for a unit direction. */
  lemma FreeStepOnWorldMap(keys: seq<bool>, p: Vec2, dir: Vec2)
    requires IsTable(keys) && AwayFromWalls(p) && dir.x * dir.x + dir.y * dir.y == 1.0
    ensures StepSpec(WorldMap, keys, p, dir) ==
            Moved(Vec2(p.x + FreeDisplacement(keys, StepVector(keys, dir)).x,
                       p.y + FreeDisplacement(keys, StepVector(keys, dir)).y))
  {
    UnitComponents(dir);
    WorldMapLayout();
    FreeStep(WorldMap, keys, p, dir);
  }

  /** Away from the walls, a frame with W and A held moves by almost exactly
      the same distance: the square of the distance is 2 * 0.70710678118^2,
      about 1 - 1.8e-11, times that of a W-only frame. */
  lemma {:induction false} DiagonalSpeed(keys: seq<bool>, p: Vec2, dir: Vec2)
    requires IsTable(keys) && keys[KeyW] && keys[KeyA]
    requires AwayFromWalls(p) && dir.x * dir.x + dir.y * dir.y == 1.0
    ensures StepSpec(WorldMap, keys, p, dir).Moved?
    ensures SqDist(p, StepSpec(WorldMap, keys, p, dir).pos)
            == 2.0 * DiagonalScale * DiagonalScale * MoveSpeed * MoveSpeed
    ensures 0.9999999999 * MoveSpeed * MoveSpeed < SqDist(p, StepSpec(WorldMap, keys, p, dir).pos)
                                                < MoveSpeed * MoveSpeed
  {
    FreeStepOnWorldMap(keys, p, dir);
    var d := FreeDisplacement(keys, StepVector(keys, dir));
    DiagonalDisplacement(keys, dir);
    ShiftDistance(p, d);
    var q := Vec2(p.x + d.x, p.y + d.y);
    assert StepSpec(WorldMap, keys, p, dir) == Moved(q);
    var k := 2.0 * DiagonalScale * DiagonalScale * MoveSpeed * MoveSpeed;
    assert SqDist(p, q) == k;
    DiagonalScaleBounds();
  }

  lemma DiagonalScaleBounds()
    ensures 0.9999999999 * MoveSpeed * MoveSpeed
            < 2.0 * DiagonalScale * DiagonalScale * MoveSpeed * MoveSpeed
            < MoveSpeed * MoveSpeed
  {
  }
}
