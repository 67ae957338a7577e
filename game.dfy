/** The game loop's state and the statements of `main` that update it: the
    event polling loop, the Escape check, the movement step and the clock. */
module Game {
  import opened GridMap
  import opened KeyState
  import opened Movement

  /** The frame time in seconds from two clock readings in milliseconds. */
  function FrameSeconds(previous: real, current: real): (r: real)
    ensures r * 1000.0 == current - previous
    ensures previous <= current ==> 0.0 <= r
  {
    (current - previous) / 1000.0
  }

  // ---------------------------------------------------------------------
  // The loop as a function of its inputs

  /** The state the game loop carries from one frame to the next. */
  datatype LoopState = LoopState(keys: seq<bool>, quit: bool, pos: Vec2, dir: Vec2,
                                 oldTime: real, time: real, frameTime: real)

  /** What one frame takes from outside the program: the polled events, the
      view direction once the mouse motion among them has rotated it, and the
      clock reading taken at the end of the frame. */
  datatype FrameInput = FrameInput(events: seq<Event>, dir: Vec2, ticks: nat)

  datatype FrameOutcome = Completed(state: LoopState) | Faulted(index: int)

  /** How a run of the loop ends: after `count` frames, with the state they
      left; or in frame number `frame`, at a read outside `worldMap`. */
  datatype LoopResult = Stopped(count: nat, state: LoopState) | ReadOutside(frame: nat, index: int)

  /** The state the program starts the loop in, with the player at `p`. */
  function InitialState(p: Vec2): LoopState
  {
    LoopState(seq(NumKeys, _ => false), false, p, InitialDir, 0.0, 0.0, 0.0)
  }

  /** One pass of the loop body: the events, the Escape check, the movement
      step and the timing, in that order. */
  function FrameSpec(world: seq<int>, s: LoopState, input: FrameInput): (r: FrameOutcome)
    requires IsTable(s.keys)
    ensures r.Completed? ==> IsTable(r.state.keys)
    ensures r.Faulted? ==> !InMap(world, r.index)
  {
    var keys := ApplyEvents(s.keys, input.events);
    var quit := s.quit || QuitRequest in input.events || keys[KeyEscape];
    match StepSpec(world, keys, s.pos, input.dir)
    case OutOfMap(i) => Faulted(i)
    case Moved(p) =>
      Completed(LoopState(keys, quit, p, input.dir, s.time, input.ticks as real,
                          FrameSeconds(s.time, input.ticks as real)))
  }

  /** A result `k` frames later in the input. */
  function Shift(r: LoopResult, k: nat): LoopResult
  {
    match r
    case Stopped(n, t) => Stopped(n + k, t)
    case ReadOutside(i, index) => ReadOutside(i + k, index)
  }

  /** `while (!quit)` over the given frames: the quit flag is checked before
      every frame, so the loop runs frames until one of them leaves it set or
      the input ends, unless a frame reads outside the map. */
  function RunFrom(world: seq<int>, s: LoopState, frames: seq<FrameInput>): (r: LoopResult)
    requires IsTable(s.keys)
    ensures r.Stopped? ==> r.count <= |frames| && IsTable(r.state.keys)
    ensures r.Stopped? && r.count < |frames| ==> r.state.quit
    ensures r.Stopped? && r.count == 0 ==> r.state == s
    ensures r.ReadOutside? ==> r.frame < |frames| && !InMap(world, r.index)
    decreases |frames|
  {
    if s.quit || frames == [] then Stopped(0, s)
    else
      match FrameSpec(world, s, frames[0])
      case Faulted(i) => ReadOutside(0, i)
      case Completed(t) => Shift(RunFrom(world, t, frames[1..]), 1)
  }

  /** From the open interior, frame `n` finds the quit flag clear, runs to
      its end, and the rest of the loop continues from the state it leaves. */
  lemma {:induction false} RunFromFrame(world: seq<int>, s: LoopState, frames: seq<FrameInput>, n: nat)
    requires IsTable(s.keys) && Layout(world) && InInterior(s.pos) && !s.quit
    requires n < |frames| && UnitBox(frames[n].dir)
    ensures FrameSpec(world, s, frames[n]).Completed?
    ensures Shift(RunFrom(world, s, frames[n..]), n)
            == Shift(RunFrom(world, FrameSpec(world, s, frames[n]).state, frames[n + 1..]), n + 1)
  {
    StepKeepsInterior(world, ApplyEvents(s.keys, frames[n].events), s.pos, frames[n].dir);
    assert frames[n..][0] == frames[n] && frames[n..][1..] == frames[n + 1..];
  }

  /** Once the quit flag is set or the input is used up, the loop has run
      exactly the frames before. */
  lemma {:induction false} RunDone(world: seq<int>, s: LoopState, frames: seq<FrameInput>, n: nat)
    requires IsTable(s.keys) && n <= |frames| && (n == |frames| || s.quit)
    ensures Shift(RunFrom(world, s, frames[n..]), n) == Stopped(n, s)
  {
    assert RunFrom(world, s, frames[n..]) == Stopped(0, s);
  }

  /** The loop runs exactly the first `n` frames: each shorter prefix runs
      to its end and leaves the quit flag clear, which is why the loop goes
      on to the next frame. */
  lemma {:induction false} RunStopsAtFirstQuit(world: seq<int>, s: LoopState, frames: seq<FrameInput>,
                                               n: nat, t: LoopState)
    requires IsTable(s.keys) && RunFrom(world, s, frames) == Stopped(n, t)
    ensures RunFrom(world, s, frames[..n]) == Stopped(n, t)
    ensures forall k :: 0 <= k < n ==>
              RunFrom(world, s, frames[..k]).Stopped? && RunFrom(world, s, frames[..k]).count == k &&
              !RunFrom(world, s, frames[..k]).state.quit
  {
    PrefixRuns(world, s, frames, n, t, n);
    forall k | 0 <= k < n
      ensures RunFrom(world, s, frames[..k]).Stopped? && RunFrom(world, s, frames[..k]).count == k &&
              !RunFrom(world, s, frames[..k]).state.quit
    {
      PrefixRuns(world, s, frames, n, t, k);
    }
  }

  /** The first `k` of the `n` frames a run performs, on their own. */
  lemma {:induction false} PrefixRuns(world: seq<int>, s: LoopState, frames: seq<FrameInput>,
                                      n: nat, t: LoopState, k: nat)
    requires IsTable(s.keys) && RunFrom(world, s, frames) == Stopped(n, t) && k <= n
    ensures k < n ==> RunFrom(world, s, frames[..k]).Stopped? && RunFrom(world, s, frames[..k]).count == k &&
                      !RunFrom(world, s, frames[..k]).state.quit
    ensures k == n ==> RunFrom(world, s, frames[..k]) == Stopped(n, t)
    decreases k
  {
    if k == 0 {
      assert frames[..0] == [];
      if 0 < n {
        RunFirstFrame(world, s, frames);
      }
    } else {
      RunFirstFrame(world, s, frames);
      RunPrefix(world, s, frames, k);
      PrefixRuns(world, FrameSpec(world, s, frames[0]).state, frames[1..], n - 1, t, k - 1);
    }
  }

  /** A run that stopped after at least one frame found the quit flag clear,
      completed its first frame and ran one frame fewer from there. */
  lemma {:induction false} RunFirstFrame(world: seq<int>, s: LoopState, frames: seq<FrameInput>)
    requires IsTable(s.keys) && RunFrom(world, s, frames).Stopped? && RunFrom(world, s, frames).count > 0
    ensures !s.quit && frames != [] && FrameSpec(world, s, frames[0]).Completed?
    ensures RunFrom(world, FrameSpec(world, s, frames[0]).state, frames[1..])
            == Stopped(RunFrom(world, s, frames).count - 1, RunFrom(world, s, frames).state)
  {
  }

  /** A prefix of `k` frames runs its first frame, then the next `k - 1`. */
  lemma {:induction false} RunPrefix(world: seq<int>, s: LoopState, frames: seq<FrameInput>, k: nat)
    requires IsTable(s.keys) && !s.quit && 0 < k <= |frames| && FrameSpec(world, s, frames[0]).Completed?
    ensures RunFrom(world, s, frames[..k])
            == Shift(RunFrom(world, FrameSpec(world, s, frames[0]).state, frames[1..][..k - 1]), 1)
  {
    assert frames[..k][0] == frames[0] && frames[..k][1..] == frames[1..][..k - 1];
  }

  /** From the open interior, with every direction in the unit box, the loop
      never reads outside the map and the player stays in the interior. */
  lemma {:induction false} SafeRunStops(world: seq<int>, s: LoopState, frames: seq<FrameInput>)
    requires IsTable(s.keys) && Layout(world) && InInterior(s.pos) && UnitBox(s.dir)
    requires forall i :: 0 <= i < |frames| ==> UnitBox(frames[i].dir)
    ensures RunFrom(world, s, frames).Stopped?
    ensures InInterior(RunFrom(world, s, frames).state.pos) && UnitBox(RunFrom(world, s, frames).state.dir)
    decreases |frames|
  {
    if !s.quit && frames != [] {
      var keys := ApplyEvents(s.keys, frames[0].events);
      StepKeepsInterior(world, keys, s.pos, frames[0].dir);
      var t := FrameSpec(world, s, frames[0]).state;
      assert t.pos == StepSpec(world, keys, s.pos, frames[0].dir).pos;
      SafeRunStops(world, t, frames[1..]);
    }
  }

  /** The program's own start, with W pressed in the first frame and the
      mouse still: the very first frame reads `worldMap[86]`. */
  lemma {:induction false} SourceStartFaults(frames: seq<FrameInput>)
    requires 0 < |frames| && frames[0].events == [KeyDown(KeyW)] && frames[0].dir == InitialDir
    ensures RunFrom(WorldMap, InitialState(SourceStart), frames) == ReadOutside(0, 86)
  {
    var s := InitialState(SourceStart);
    var events := frames[0].events;
    assert events[..0] == [];
    assert ApplyEvents(s.keys, events[..0]) == s.keys;
    assert events[|events| - 1] == KeyDown(KeyW);
    var keys := ApplyEvents(s.keys, events);
    assert keys == ApplyEvent(s.keys, KeyDown(KeyW));
    SourceStartReadsOutside(keys);
  }

  class RayCaster {
    var pos: Vec2
    var dir: Vec2
    /** `m_keys`: whether each key below code 128 is held. */
    const keys: array<bool>
    /** `worldMap`, the table every collision test reads. */
    const worldMap: seq<int>
    var quit: bool
    var time: real
    var oldTime: real
    var frameTime: real

    predicate Valid()
      reads this
    {
      keys.Length == NumKeys
    }

    /** The player is in the open interior and the direction in the unit box:
        from such a state every map read of a frame is in range. */
    ghost predicate Safe()
      reads this
    {
      Layout(worldMap) && InInterior(pos) && UnitBox(dir)
    }

    /** The fields the loop carries between frames, as a value. */
    function State(): LoopState
      reads this, keys
    {
      LoopState(keys[..], quit, pos, dir, oldTime, time, frameTime)
    }

    /** The start state as the program sets it up. */
    constructor FromSource()
      ensures Valid() && fresh(keys)
      ensures pos == SourceStart && dir == InitialDir && worldMap == WorldMap
      ensures forall k :: 0 <= k < NumKeys ==> !keys[k]
      ensures State() == InitialState(SourceStart)
      ensures !quit && time == 0.0 && oldTime == 0.0 && frameTime == 0.0
    {
      pos, dir := SourceStart, InitialDir;
      worldMap := WorldMap;
      keys := new bool[NumKeys](_ => false);
      quit := false;
      time, oldTime, frameTime := 0.0, 0.0, 0.0;
    }

    /** The start state with the player in the middle of the map. */
    constructor ()
      ensures Valid() && Safe() && fresh(keys)
      ensures pos == CenterStart && dir == InitialDir && worldMap == WorldMap
      ensures forall k :: 0 <= k < NumKeys ==> !keys[k]
      ensures State() == InitialState(CenterStart)
      ensures !quit && time == 0.0 && oldTime == 0.0 && frameTime == 0.0
    {
      pos, dir := CenterStart, InitialDir;
      worldMap := WorldMap;
      keys := new bool[NumKeys](_ => false);
      quit := false;
      time, oldTime, frameTime := 0.0, 0.0, 0.0;
      WorldMapLayout();
    }

    /** A key-down (`down`) or key-up event: codes of 128 or more are ignored. */
    method KeyEvent(code: nat, down: bool)
      requires Valid()
      modifies keys
      ensures keys[..] == SetKey(old(keys[..]), code, down)
    {
      if code < NumKeys {
        keys[code] := down;
      }
    }

    method HandleEvent(e: Event)
      requires Valid()
      modifies keys, this`quit
      ensures keys[..] == ApplyEvent(old(keys[..]), e)
      ensures quit == (old(quit) || e.QuitRequest?)
    {
      match e
      case KeyDown(code) => KeyEvent(code, true);
      case KeyUp(code) => KeyEvent(code, false);
      case QuitRequest => quit := true;
    }

    /** The `SDL_PollEvent` loop: the pending events, in arrival order. */
    method PollEvents(events: seq<Event>)
      requires Valid()
      modifies keys, this`quit
      ensures keys[..] == ApplyEvents(old(keys[..]), events)
      ensures quit == (old(quit) || QuitRequest in events)
    {
      var i := 0;
      while i < |events|
        invariant 0 <= i <= |events|
        invariant keys[..] == ApplyEvents(old(keys[..]), events[..i])
        invariant quit == (old(quit) || QuitRequest in events[..i])
      {
        HandleEvent(events[i]);
        assert events[..i + 1][..i] == events[..i];
        i := i + 1;
      }
      assert events[..i] == events;
    }

    /** A held Escape key ends the loop. */
    method CheckEscape()
      requires Valid()
      modifies this`quit
      ensures quit == (old(quit) || keys[KeyEscape])
    {
      if keys[KeyEscape] {
        quit := true;
      }
    }

    /** The movement and collision step, statement by statement: each test
        reads the position the previous statements left. Every read must lie
        inside `worldMap`, which the source does not check. */
    method Step()
      requires Valid()
      requires StepSpec(worldMap, keys[..], pos, dir).Moved?
      modifies this`pos
      ensures pos == StepSpec(worldMap, keys[..], old(pos), dir).pos
      ensures Layout(worldMap) && old(InInterior(pos)) && UnitBox(dir) ==> InInterior(pos)
    {
      ghost var start, ks := pos, keys[..];
      if Layout(worldMap) && InInterior(start) && UnitBox(dir) {
        StepKeepsInterior(worldMap, ks, start, dir);
      }
      var f := StepVectorOf();
      StepHalves(worldMap, ks, start, dir);
      ghost var fwd := Forward(worldMap, ks, start, f);
      MoveForwardBack(f);
      assert pos == fwd.pos;
      MoveSideways(f);
    }

    /** The direction scaled by the step length of the frame. */
    method StepVectorOf() returns (f: Vec2)
      requires Valid()
      ensures f == StepVector(keys[..], dir)
    {
      var multiplier := StepLength();
      f := Vec2(dir.x * multiplier, dir.y * multiplier);
    }

    /** The step length of the frame: `MOVESPEED`, scaled down when a
        forward or backward key and a strafe key are both held. */
    method StepLength() returns (multiplier: real)
      requires Valid()
      ensures multiplier == Multiplier(keys[KeyW], keys[KeyS], keys[KeyA], keys[KeyD])
    {
      multiplier := MoveSpeed;
      if keys[KeyW] || keys[KeyS] {
        if keys[KeyA] || keys[KeyD] {
          multiplier := multiplier * DiagonalScale;
        }
      }
    }

    /** The W / S half of the step for the step vector `f`, W first. */
    method MoveForwardBack(f: Vec2)
      requires Valid()
      requires Forward(worldMap, keys[..], pos, f).Moved?
      modifies this`pos
      ensures pos == Forward(worldMap, keys[..], old(pos), f).pos
    {
      if keys[KeyW] {
        CommitX(f.x);
        CommitY(f.y);
      } else if keys[KeyS] {
        var b := Back(f);
        CommitX(b.x);
        CommitY(b.y);
      }
    }

    /** The A / D half of the step, A first, starting where the first half
        left the player. */
    method MoveSideways(f: Vec2)
      requires Valid()
      requires Strafe(worldMap, keys[..], pos, f).Moved?
      modifies this`pos
      ensures pos == Strafe(worldMap, keys[..], old(pos), f).pos
    {
      if keys[KeyA] {
        var l := LeftOf(f);
        CommitX(l.x);
        CommitY(l.y);
      } else if keys[KeyD] {
        var r := RightOf(f);
        CommitX(r.x);
        CommitY(r.y);
      }
    }

    /** One x statement of the step: move x by `dx` when the cell at the
        candidate x and the current y is empty. */
    method CommitX(dx: real)
      requires MoveX(worldMap, pos, dx).Moved?
      modifies this`pos
      ensures pos == MoveX(worldMap, old(pos), dx).pos
    {
      if worldMap[MapIndex(pos.x + dx, pos.y)] == 0 {
        pos := Vec2(pos.x + dx, pos.y);
      }
    }

    /** One y statement of the step: move y by `dy` when the cell at the
        current x and the candidate y is empty. */
    method CommitY(dy: real)
      requires MoveY(worldMap, pos, dy).Moved?
      modifies this`pos
      ensures pos == MoveY(worldMap, old(pos), dy).pos
    {
      if worldMap[MapIndex(pos.x, pos.y + dy)] == 0 {
        pos := Vec2(pos.x, pos.y + dy);
      }
    }

    /** The timing statements at the end of a frame, with the reading of the
        millisecond clock passed in. */
    method Tick(ticks: nat)
      modifies this`oldTime, this`time, this`frameTime
      ensures oldTime == old(time) && time == ticks as real
      ensures frameTime == FrameSeconds(old(time), ticks as real)
    {
      oldTime := time;
      time := ticks as real;
      frameTime := (time - oldTime) / 1000.0;
    }

    /** One pass of the game loop, without the drawing. The mouse motion
        among the events leaves the view direction at `input.dir`. */
    method Frame(input: FrameInput)
      requires Valid()
      requires FrameSpec(worldMap, State(), input).Completed?
      modifies keys, this`quit, this`pos, this`dir, this`oldTime, this`time, this`frameTime
      ensures State() == FrameSpec(worldMap, old(State()), input).state
      ensures keys[..] == ApplyEvents(old(keys[..]), input.events)
      ensures quit == (old(quit) || QuitRequest in input.events || keys[KeyEscape])
      ensures pos == StepSpec(worldMap, keys[..], old(pos), input.dir).pos
      ensures old(Safe()) && UnitBox(input.dir) ==> Safe()
      ensures oldTime == old(time) && time == input.ticks as real
      ensures frameTime == FrameSeconds(old(time), input.ticks as real)
    {
      ghost var start := State();
      PollEvents(input.events);
      dir := input.dir;
      CheckEscape();
      Step();
      Tick(input.ticks);
      assert State() == FrameSpec(worldMap, start, input).state;
    }

    /** The game loop `while (!quit)`, over the inputs of the frames given;
        it stops before the first frame that finds the quit flag set. From a
        safe state no frame ever reads outside the map. */
    method Run(frames: seq<FrameInput>) returns (n: nat)
      requires Valid() && Safe()
      requires forall i :: 0 <= i < |frames| ==> UnitBox(frames[i].dir)
      modifies keys, this`quit, this`pos, this`dir, this`oldTime, this`time, this`frameTime
      ensures RunFrom(worldMap, old(State()), frames) == Stopped(n, State())
      ensures Valid() && Safe()
      ensures n <= |frames|
      ensures n < |frames| ==> quit
      ensures old(quit) ==> n == 0
      ensures 0 < n ==> time == frames[n - 1].ticks as real
    {
      n := 0;
      while n < |frames| && !quit
        invariant n <= |frames|
        invariant Valid() && Safe()
        invariant Shift(RunFrom(worldMap, State(), frames[n..]), n) == RunFrom(worldMap, old(State()), frames)
        invariant old(quit) ==> n == 0
        invariant 0 < n ==> time == frames[n - 1].ticks as real
        decreases |frames| - n
      {
        Advance(frames, n);
        n := n + 1;
      }
      RunDone(worldMap, State(), frames, n);
    }

    /** One turn of the loop from a safe state: frame `n` runs, and the rest
        of the loop continues from the state it leaves. */
    method Advance(frames: seq<FrameInput>, n: nat)
      requires Valid() && Safe() && !quit
      requires n < |frames| && UnitBox(frames[n].dir)
      modifies keys, this`quit, this`pos, this`dir, this`oldTime, this`time, this`frameTime
      ensures Valid() && Safe()
      ensures Shift(RunFrom(worldMap, State(), frames[n + 1..]), n + 1)
              == Shift(RunFrom(worldMap, old(State()), frames[n..]), n)
      ensures time == frames[n].ticks as real
    {
      RunFromFrame(worldMap, State(), frames, n);
      Frame(frames[n]);
    }
  }
}
