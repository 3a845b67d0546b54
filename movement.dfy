/**
 * The player controller of Movement.cs: the discrete part of its per-frame
 * policy (coyote time, buffered jumps, extra jumps, wall slide and wall jump,
 * fast-fall gravity, sprite flipping).  Engine sensors (ground and wall
 * overlap, the wall raycast), the clocks and the keys are inputs of each frame.
 * Forces and velocities are not modelled; only the vertical velocity the
 * gravity rule reads is an input.
 */
module PlayerMovement {

  /** The designer-tuned settings the controller reads but never writes. */
  datatype Settings = Settings(
    jumpCoyoteTime: real,
    jumpBufferTime: real,
    extraJumps: int,
    enableWallSlideAndJump: bool,
    wallSlideDurationSec: real,
    finiteWallJumps: int,
    gravityScale: real,
    fastFallingGravityMult: real)

  /** The controller's private fields; `gravity` is the rigid body's gravity scale. */
  datatype PlayerState = PlayerState(
    moveX: real,
    lastJumpTimestamp: real,
    isGrounded: bool,
    isJumping: bool,
    jumpsAmount: int,
    walljumpsAmount: int,
    lastWallJumpDirection: int,
    isTouchingWall: bool,
    isWallSliding: bool,
    timeElapsedSinceWallSlide: real,
    lastGroundedTime: real,
    gravity: real,
    flipX: bool)

  /** What the engine supplies to one `Update` call. */
  datatype FrameInput = FrameInput(
    deltaTime: real,
    axis: real,
    leftKey: bool,
    rightKey: bool,
    grounded: bool,
    touchingWall: bool,
    wallToRight: bool,
    jumpKeyDown: bool,
    velocityY: real)

  /** What the engine supplies to one `FixedUpdate` call. */
  datatype PhysicsInput = PhysicsInput(time: real, fixedDeltaTime: real, jumpKeyHeld: bool)

  /** One engine callback. */
  datatype Tick = Frame(frame: FrameInput) | Physics(physics: PhysicsInput)

  /** The state after `Awake` and `Start`: every field at its default, gravity set. */
  function Initial(cfg: Settings): PlayerState
  {
    PlayerState(0.0, 0.0, false, false, 0, 0, 0, false, false, 0.0, 0.0, cfg.gravityScale, false)
  }

  /** Horizontal input: the axis value, overridden by the left and then the right arrow. */
  function MoveInput(axis: real, leftKey: bool, rightKey: bool): (x: real)
    ensures rightKey ==> x == 1.0
    ensures leftKey && !rightKey ==> x == -1.0
    ensures !leftKey && !rightKey ==> x == axis
  {
    var x := axis;
    var x := if leftKey then -1.0 else x;
    if rightKey then 1.0 else x
  }

  /** How many jumps may happen between two landings. */
  function JumpLimit(cfg: Settings): nat
  {
    if cfg.extraJumps > 0 then cfg.extraJumps + 1 else 1
  }

  /**
   * Whether `FixedUpdate` may jump at time `now`: the buffer time has passed
   * since the last jump and, with extra jumps, the count is below the limit;
   * without them, coyote time remains and no jump is under way.
   */
  predicate CanJump(cfg: Settings, s: PlayerState, now: real): (r: bool)
    ensures r ==> now - s.lastJumpTimestamp >= cfg.jumpBufferTime
    ensures cfg.extraJumps > 0 ==> (r <==> now - s.lastJumpTimestamp >= cfg.jumpBufferTime && s.jumpsAmount < JumpLimit(cfg))
    ensures cfg.extraJumps <= 0 ==>
      (r <==> now - s.lastJumpTimestamp >= cfg.jumpBufferTime && s.lastGroundedTime > 0.0 && !s.isJumping)
  {
    var bufferTime := now - s.lastJumpTimestamp >= cfg.jumpBufferTime;
    if cfg.extraJumps > 0 then bufferTime && s.jumpsAmount < cfg.extraJumps + 1
    else bufferTime && s.lastGroundedTime > 0.0 && !s.isJumping
  }

  /** Whether `Update` may wall jump: only from a slide, and below a positive `finiteWallJumps`. */
  predicate CanWallJump(cfg: Settings, s: PlayerState): (r: bool)
    ensures r <==> s.isWallSliding && (cfg.finiteWallJumps > 0 ==> s.walljumpsAmount < cfg.finiteWallJumps)
  {
    if cfg.finiteWallJumps > 0 then s.isWallSliding && s.walljumpsAmount < cfg.finiteWallJumps
    else s.isWallSliding
  }

  /** The reset a grounded frame performs. */
  function Landed(cfg: Settings, s: PlayerState): PlayerState
  {
    s.(lastGroundedTime := cfg.jumpCoyoteTime, isJumping := false, jumpsAmount := 0,
       timeElapsedSinceWallSlide := 0.0, lastWallJumpDirection := 0, walljumpsAmount := 0)
  }

  function Jumped(s: PlayerState, now: real): PlayerState
  {
    s.(lastGroundedTime := 0.0, isJumping := true, lastJumpTimestamp := now,
       jumpsAmount := s.jumpsAmount + 1)
  }

  /** Direction of a wall jump: away from the wall the raycast found. */
  function WallJumpDirection(wallToRight: bool): int
  {
    if wallToRight then -1 else 1
  }

  /** True when `WallJump` actually jumps from the state `s`. */
  predicate WallJumpFires(s: PlayerState, wallToRight: bool)
  {
    s.isTouchingWall && !s.isGrounded && WallJumpDirection(wallToRight) != s.lastWallJumpDirection
  }

  function WallJumped(s: PlayerState, wallToRight: bool): (r: PlayerState)
    ensures !WallJumpFires(s, wallToRight) ==> r == s
    ensures WallJumpFires(s, wallToRight) ==>
      && r.walljumpsAmount == s.walljumpsAmount + 1
      && r.lastWallJumpDirection == WallJumpDirection(wallToRight) != s.lastWallJumpDirection
      && r.lastGroundedTime == 0.0 && r.timeElapsedSinceWallSlide == 0.0 && r.isJumping
      && r.jumpsAmount == s.jumpsAmount && r.lastJumpTimestamp == s.lastJumpTimestamp
      && r.flipX == (WallJumpDirection(wallToRight) > 0)
      && r.moveX == s.moveX && r.isGrounded == s.isGrounded && r.isTouchingWall == s.isTouchingWall
      && r.isWallSliding == s.isWallSliding && r.gravity == s.gravity
  {
    if s.isTouchingWall && !s.isGrounded then
      var direction := WallJumpDirection(wallToRight);
      if direction == s.lastWallJumpDirection then s
      else
        s.(lastWallJumpDirection := direction, flipX := direction > 0,
           lastGroundedTime := 0.0, timeElapsedSinceWallSlide := 0.0, isJumping := true,
           walljumpsAmount := s.walljumpsAmount + 1)
    else s
  }

  /** True when `WallSliding` keeps the player sliding this physics step. */
  predicate SlideContinues(cfg: Settings, s: PlayerState)
  {
    s.isTouchingWall && !s.isGrounded && s.timeElapsedSinceWallSlide <= cfg.wallSlideDurationSec
  }

  function Slid(cfg: Settings, s: PlayerState, fixedDeltaTime: real): PlayerState
  {
    if SlideContinues(cfg, s) then
      s.(isWallSliding := true,
         timeElapsedSinceWallSlide := s.timeElapsedSinceWallSlide + fixedDeltaTime,
         isJumping := false)
    else s.(isWallSliding := false)
  }

  /** The gravity scale `GravityScaling` gives the rigid body. */
  function GravityFor(cfg: Settings, velocityY: real, isWallSliding: bool): real
  {
    if velocityY < -0.3 && !isWallSliding then cfg.fastFallingGravityMult * cfg.gravityScale
    else cfg.gravityScale
  }

  /** The sprite's flipX after `Flip` with horizontal input `moveX`. */
  function Flipped(flipX: bool, moveX: real): bool
  {
    if moveX > 0.01 then true else if moveX < -0.01 then false else flipX
  }

  /** `Update` up to the ground check: time, input and the ground sensor. */
  function Sensed(s: PlayerState, f: FrameInput): PlayerState
  {
    s.(lastGroundedTime := s.lastGroundedTime - f.deltaTime,
       moveX := MoveInput(f.axis, f.leftKey, f.rightKey),
       isGrounded := f.grounded)
  }

  /** The wall sensor and the wall-jump trigger of `Update`. */
  function WallPhase(cfg: Settings, s: PlayerState, f: FrameInput): PlayerState
  {
    if cfg.enableWallSlideAndJump then
      var t := s.(isTouchingWall := f.touchingWall);
      if CanWallJump(cfg, t) && f.jumpKeyDown then WallJumped(t, f.wallToRight) else t
    else s
  }

  /** `Flip` and `GravityScaling`, the last two calls of `Update`. */
  function Presented(cfg: Settings, s: PlayerState, f: FrameInput): PlayerState
  {
    var t := s.(flipX := Flipped(s.flipX, s.moveX));
    t.(gravity := GravityFor(cfg, f.velocityY, t.isWallSliding))
  }

  /** Everything one `Update` call does to the controller's state. */
  function AfterUpdate(cfg: Settings, s: PlayerState, f: FrameInput): PlayerState
  {
    var s1 := Sensed(s, f);
    var s2 := if f.grounded then Landed(cfg, s1) else s1;
    Presented(cfg, WallPhase(cfg, s2, f), f)
  }

  /** Everything one `FixedUpdate` call does to the controller's state. */
  function AfterFixedUpdate(cfg: Settings, s: PlayerState, p: PhysicsInput): PlayerState
  {
    var s1 := if cfg.enableWallSlideAndJump then Slid(cfg, s, p.fixedDeltaTime) else s;
    if CanJump(cfg, s1, p.time) && p.jumpKeyHeld then Jumped(s1, p.time) else s1
  }

  function Step(cfg: Settings, s: PlayerState, t: Tick): PlayerState
  {
    match t
    case Frame(f) => AfterUpdate(cfg, s, f)
    case Physics(p) => AfterFixedUpdate(cfg, s, p)
  }

  /** The state after a sequence of engine callbacks. */
  function Run(cfg: Settings, s: PlayerState, ticks: seq<Tick>): PlayerState
    decreases |ticks|
  {
    if ticks == [] then s else Run(cfg, Step(cfg, s, ticks[0]), ticks[1..])
  }

  /** The time of the jump this callback performs, if it performs one. */
  function JumpAt(cfg: Settings, s: PlayerState, t: Tick): (r: seq<real>)
    ensures |r| <= 1
    ensures r != [] ==>
      && r[0] - s.lastJumpTimestamp >= cfg.jumpBufferTime
      && Step(cfg, s, t).lastJumpTimestamp == r[0]
      && Step(cfg, s, t).jumpsAmount == s.jumpsAmount + 1
    ensures r == [] ==> Step(cfg, s, t).lastJumpTimestamp == s.lastJumpTimestamp
    ensures r == [] && t.Physics? ==> Step(cfg, s, t).jumpsAmount == s.jumpsAmount
  {
    match t
    case Physics(p) =>
      var s1 := if cfg.enableWallSlideAndJump then Slid(cfg, s, p.fixedDeltaTime) else s;
      if CanJump(cfg, s1, p.time) && p.jumpKeyHeld then [p.time] else []
    case Frame(_) => []
  }

  /** The times at which `Jump` ran during the callbacks. */
  function JumpTimes(cfg: Settings, s: PlayerState, ticks: seq<Tick>): seq<real>
    decreases |ticks|
  {
    if ticks == [] then []
    else JumpAt(cfg, s, ticks[0]) + JumpTimes(cfg, Step(cfg, s, ticks[0]), ticks[1..])
  }

  /** The direction of the wall jump this callback performs, if it performs one. */
  function WallJumpAt(cfg: Settings, s: PlayerState, t: Tick): (r: seq<int>)
    ensures |r| <= 1
    ensures r != [] ==>
      && r[0] in {-1, 1}
      && Step(cfg, s, t).lastWallJumpDirection == r[0]
      && t.Frame?
      && (!t.frame.grounded ==> r[0] != s.lastWallJumpDirection)
    ensures r == [] && (t.Physics? || !t.frame.grounded) ==>
      Step(cfg, s, t).lastWallJumpDirection == s.lastWallJumpDirection
    ensures t.Physics? || !t.frame.grounded ==>
      Step(cfg, s, t).walljumpsAmount == s.walljumpsAmount + |r|
  {
    match t
    case Frame(f) =>
      var s1 := Sensed(s, f);
      var s2 := if f.grounded then Landed(cfg, s1) else s1;
      var w := s2.(isTouchingWall := f.touchingWall);
      if cfg.enableWallSlideAndJump && CanWallJump(cfg, w) && f.jumpKeyDown && WallJumpFires(w, f.wallToRight)
      then [WallJumpDirection(f.wallToRight)] else []
    case Physics(_) => []
  }

  /** The directions of the wall jumps that fired during the callbacks. */
  function WallJumpDirections(cfg: Settings, s: PlayerState, ticks: seq<Tick>): seq<int>
    decreases |ticks|
  {
    if ticks == [] then []
    else WallJumpAt(cfg, s, ticks[0]) + WallJumpDirections(cfg, Step(cfg, s, ticks[0]), ticks[1..])
  }

  /** No `Update` in the callbacks sees the ground. */
  predicate NoLanding(ticks: seq<Tick>)
  {
    forall i :: 0 <= i < |ticks| && ticks[i].Frame? ==> !ticks[i].frame.grounded
  }

  /** Frame times never run backwards (the engine's `Time.deltaTime` is not negative). */
  predicate ForwardTime(ticks: seq<Tick>)
  {
    forall i :: 0 <= i < |ticks| && ticks[i].Frame? ==> ticks[i].frame.deltaTime >= 0.0
  }

  /** The invariant the controller keeps between callbacks. */
  predicate Inv(cfg: Settings, s: PlayerState)
  {
    && 0 <= s.jumpsAmount <= JumpLimit(cfg)
    && (s.jumpsAmount > 0 ==> s.lastGroundedTime <= 0.0)
    && 0 <= s.walljumpsAmount
    && (cfg.finiteWallJumps > 0 ==> s.walljumpsAmount <= cfg.finiteWallJumps)
    && s.lastWallJumpDirection in {-1, 0, 1}
    && (s.walljumpsAmount == 0 <==> s.lastWallJumpDirection == 0)
    && (!cfg.enableWallSlideAndJump ==> !s.isWallSliding && s.walljumpsAmount == 0)
  }

  /** The element before position `i` of `xs`, with `previous` before the first. */
  function Before<T>(previous: T, xs: seq<T>, i: int): T
    requires 0 <= i <= |xs|
  {
    if i == 0 then previous else xs[i - 1]
  }

  /** Consecutive times are at least `gap` apart, the first one from `previous`. */
  predicate Spaced(previous: real, times: seq<real>, gap: real)
  {
    forall i :: 0 <= i < |times| ==> times[i] - Before(previous, times, i) >= gap
  }

  /** Every direction is 1 or -1 and differs from the one before it. */
  predicate Alternating(previous: int, directions: seq<int>)
  {
    forall i :: 0 <= i < |directions| ==>
      directions[i] in {-1, 1} && directions[i] != Before(previous, directions, i)
  }

  lemma InitialInv(cfg: Settings)
    ensures Inv(cfg, Initial(cfg))
    ensures CanJump(cfg, Initial(cfg), cfg.jumpBufferTime) <==> cfg.extraJumps > 0
  {
  }

  /** A grounded frame resets the jump and wall-jump bookkeeping, and no wall jump follows in it. */
  lemma GroundedFrameResets(cfg: Settings, s: PlayerState, f: FrameInput)
    requires f.grounded
    ensures var r := AfterUpdate(cfg, s, f);
      && r.isGrounded && r.lastGroundedTime == cfg.jumpCoyoteTime && !r.isJumping
      && r.jumpsAmount == 0 && r.timeElapsedSinceWallSlide == 0.0
      && r.lastWallJumpDirection == 0 && r.walljumpsAmount == 0
  {
  }

  /** `Jump` adds exactly one jump, clears the coyote time and stamps the time. */
  lemma JumpCountsOne(cfg: Settings, s: PlayerState, now: real)
    requires Inv(cfg, s) && CanJump(cfg, s, now)
    ensures var r := Jumped(s, now);
      && r.jumpsAmount == s.jumpsAmount + 1 <= JumpLimit(cfg)
      && r.lastJumpTimestamp == now && now - s.lastJumpTimestamp >= cfg.jumpBufferTime
      && (cfg.extraJumps <= 0 ==> forall later :: !CanJump(cfg, r, later))
  {
  }

  /**
   * A wall jump that fires in `Update` comes from a wall slide in the air with
   * the jump key down, below a positive `finiteWallJumps`, and adds one to the count.
   */
  lemma WallJumpNeedsSlide(cfg: Settings, s: PlayerState, f: FrameInput)
    requires WallJumpAt(cfg, s, Frame(f)) != []
    ensures cfg.enableWallSlideAndJump && f.jumpKeyDown && f.touchingWall && !f.grounded
    ensures s.isWallSliding
    ensures cfg.finiteWallJumps > 0 ==> s.walljumpsAmount < cfg.finiteWallJumps
    ensures AfterUpdate(cfg, s, f).walljumpsAmount == s.walljumpsAmount + 1
  {
  }

  /**
   * A jump is reachable with or without extra jumps: after a grounded frame
   * with positive coyote time, holding the key jumps once the buffer time has passed.
   */
  lemma GroundedJumpFires(cfg: Settings, s: PlayerState, f: FrameInput, p: PhysicsInput)
    requires f.grounded && cfg.jumpCoyoteTime > 0.0 && p.jumpKeyHeld
    requires p.time - s.lastJumpTimestamp >= cfg.jumpBufferTime
    ensures JumpAt(cfg, AfterUpdate(cfg, s, f), Physics(p)) == [p.time]
    ensures AfterFixedUpdate(cfg, AfterUpdate(cfg, s, f), p).jumpsAmount == 1
  {
  }

  /** Wall sliding holds after a physics step exactly when the slide conditions held. */
  lemma SlideIff(cfg: Settings, s: PlayerState, p: PhysicsInput)
    requires cfg.enableWallSlideAndJump
    ensures var r := AfterFixedUpdate(cfg, s, p);
      && (r.isWallSliding <==> s.isTouchingWall && !s.isGrounded && s.timeElapsedSinceWallSlide <= cfg.wallSlideDurationSec)
      && (r.isWallSliding ==> r.timeElapsedSinceWallSlide == s.timeElapsedSinceWallSlide + p.fixedDeltaTime)
  {
  }

  /** Fast-fall gravity applies exactly when falling faster than 0.3 and not wall sliding. */
  lemma GravityRule(cfg: Settings, s: PlayerState, f: FrameInput)
    ensures var r := AfterUpdate(cfg, s, f);
      && (f.velocityY < -0.3 && !r.isWallSliding ==> r.gravity == cfg.fastFallingGravityMult * cfg.gravityScale)
      && (!(f.velocityY < -0.3 && !r.isWallSliding) ==> r.gravity == cfg.gravityScale)
  {
  }

  lemma UpdatePreservesInv(cfg: Settings, s: PlayerState, f: FrameInput)
    requires Inv(cfg, s) && f.deltaTime >= 0.0
    ensures Inv(cfg, AfterUpdate(cfg, s, f))
  {
  }

  lemma FixedUpdatePreservesInv(cfg: Settings, s: PlayerState, p: PhysicsInput)
    requires Inv(cfg, s)
    ensures Inv(cfg, AfterFixedUpdate(cfg, s, p))
  {
  }

  lemma {:induction false} RunPreservesInv(cfg: Settings, s: PlayerState, ticks: seq<Tick>)
    requires Inv(cfg, s) && ForwardTime(ticks)
    ensures Inv(cfg, Run(cfg, s, ticks))
    decreases |ticks|
  {
    if ticks != [] {
      match ticks[0] {
        case Frame(f) => UpdatePreservesInv(cfg, s, f);
        case Physics(p) => FixedUpdatePreservesInv(cfg, s, p);
      }
      assert ForwardTime(ticks[1..]) by {
        forall i | 0 <= i < |ticks[1..]| && ticks[1..][i].Frame?
          ensures ticks[1..][i].frame.deltaTime >= 0.0
        {
          assert ticks[1..][i] == ticks[i + 1];
        }
      }
      RunPreservesInv(cfg, Step(cfg, s, ticks[0]), ticks[1..]);
    }
  }

  lemma NoLandingTail(ticks: seq<Tick>)
    requires ticks != [] && NoLanding(ticks)
    ensures NoLanding(ticks[1..])
    ensures ticks[0].Frame? ==> !ticks[0].frame.grounded
  {
    forall i | 0 <= i < |ticks[1..]| && ticks[1..][i].Frame?
      ensures !ticks[1..][i].frame.grounded
    {
      assert ticks[1..][i] == ticks[i + 1];
    }
  }

  lemma ForwardTimeTail(ticks: seq<Tick>)
    requires ticks != [] && ForwardTime(ticks)
    ensures ForwardTime(ticks[1..])
    ensures ticks[0].Frame? ==> ticks[0].frame.deltaTime >= 0.0
  {
    forall i | 0 <= i < |ticks[1..]| && ticks[1..][i].Frame?
      ensures ticks[1..][i].frame.deltaTime >= 0.0
    {
      assert ticks[1..][i] == ticks[i + 1];
    }
  }

  /** Without landing, the jump counter grows by exactly the number of jumps. */
  lemma {:induction false} JumpCounterCountsJumps(cfg: Settings, s: PlayerState, ticks: seq<Tick>)
    requires NoLanding(ticks)
    ensures Run(cfg, s, ticks).jumpsAmount == s.jumpsAmount + |JumpTimes(cfg, s, ticks)|
    decreases |ticks|
  {
    if ticks != [] {
      NoLandingTail(ticks);
      JumpCounterCountsJumps(cfg, Step(cfg, s, ticks[0]), ticks[1..]);
    }
  }

  /**
   * Between two landings at most `JumpLimit` jumps happen: `extraJumps + 1`
   * with extra jumps enabled, and a single one otherwise.
   */
  lemma JumpsBoundedWithoutLanding(cfg: Settings, s: PlayerState, ticks: seq<Tick>)
    requires Inv(cfg, s) && NoLanding(ticks) && ForwardTime(ticks)
    ensures s.jumpsAmount + |JumpTimes(cfg, s, ticks)| <= JumpLimit(cfg)
  {
    JumpCounterCountsJumps(cfg, s, ticks);
    RunPreservesInv(cfg, s, ticks);
  }

  /** Without extra jumps, a player who has jumped cannot jump again before landing. */
  lemma NoSecondGroundJump(cfg: Settings, s: PlayerState, ticks: seq<Tick>)
    requires cfg.extraJumps <= 0
    requires Inv(cfg, s) && s.jumpsAmount >= 1
    requires NoLanding(ticks) && ForwardTime(ticks)
    ensures JumpTimes(cfg, s, ticks) == []
  {
    JumpsBoundedWithoutLanding(cfg, s, ticks);
  }

  lemma SpacedPrepend(previous: real, here: seq<real>, rest: seq<real>, gap: real)
    requires |here| <= 1 && (here != [] ==> here[0] - previous >= gap)
    requires Spaced(if here == [] then previous else here[0], rest, gap)
    ensures Spaced(previous, here + rest, gap)
  {
    var all := here + rest;
    forall i | 0 <= i < |all|
      ensures all[i] - Before(previous, all, i) >= gap
    {
      if i >= |here| {
        var k := i - |here|;
        assert all[i] == rest[k];
        assert rest[k] - Before(if here == [] then previous else here[0], rest, k) >= gap;
        if k > 0 {
          assert all[i - 1] == rest[k - 1];
        } else if i > 0 {
          assert all[i - 1] == here[0];
        }
      }
    }
  }

  lemma AlternatingPrepend(previous: int, here: seq<int>, rest: seq<int>)
    requires |here| <= 1 && (here != [] ==> here[0] in {-1, 1} && here[0] != previous)
    requires Alternating(if here == [] then previous else here[0], rest)
    ensures Alternating(previous, here + rest)
  {
    var all := here + rest;
    forall i | 0 <= i < |all|
      ensures all[i] in {-1, 1} && all[i] != Before(previous, all, i)
    {
      if i >= |here| {
        var k := i - |here|;
        assert all[i] == rest[k];
        assert rest[k] in {-1, 1} && rest[k] != Before(if here == [] then previous else here[0], rest, k);
        if k > 0 {
          assert all[i - 1] == rest[k - 1];
        } else if i > 0 {
          assert all[i - 1] == here[0];
        }
      }
    }
  }

  /** Every jump comes at least `jumpBufferTime` after the one before it. */
  lemma {:induction false} JumpsRespectBuffer(cfg: Settings, s: PlayerState, ticks: seq<Tick>)
    ensures Spaced(s.lastJumpTimestamp, JumpTimes(cfg, s, ticks), cfg.jumpBufferTime)
    ensures var times := JumpTimes(cfg, s, ticks);
      Run(cfg, s, ticks).lastJumpTimestamp == if times == [] then s.lastJumpTimestamp else times[|times| - 1]
    decreases |ticks|
  {
    if ticks != [] {
      var s' := Step(cfg, s, ticks[0]);
      JumpsRespectBuffer(cfg, s', ticks[1..]);
      var here, rest := JumpAt(cfg, s, ticks[0]), JumpTimes(cfg, s', ticks[1..]);
      SpacedPrepend(s.lastJumpTimestamp, here, rest, cfg.jumpBufferTime);
      if rest != [] {
        assert (here + rest)[|here + rest| - 1] == rest[|rest| - 1];
      }
    }
  }

  /** Without landing, each wall jump leaves in the direction opposite to the previous one. */
  lemma {:induction false} WallJumpsAlternate(cfg: Settings, s: PlayerState, ticks: seq<Tick>)
    requires NoLanding(ticks)
    ensures Alternating(s.lastWallJumpDirection, WallJumpDirections(cfg, s, ticks))
    ensures var dirs := WallJumpDirections(cfg, s, ticks);
      Run(cfg, s, ticks).lastWallJumpDirection == if dirs == [] then s.lastWallJumpDirection else dirs[|dirs| - 1]
    decreases |ticks|
  {
    if ticks != [] {
      NoLandingTail(ticks);
      var s' := Step(cfg, s, ticks[0]);
      WallJumpsAlternate(cfg, s', ticks[1..]);
      var here, rest := WallJumpAt(cfg, s, ticks[0]), WallJumpDirections(cfg, s', ticks[1..]);
      AlternatingPrepend(s.lastWallJumpDirection, here, rest);
      if rest != [] {
        assert (here + rest)[|here + rest| - 1] == rest[|rest| - 1];
      }
    }
  }

  /** With wall jumps capped, at most `finiteWallJumps` of them happen between two landings. */
  lemma {:induction false} WallJumpsBoundedWithoutLanding(cfg: Settings, s: PlayerState, ticks: seq<Tick>)
    requires Inv(cfg, s) && NoLanding(ticks) && ForwardTime(ticks)
    ensures Run(cfg, s, ticks).walljumpsAmount == s.walljumpsAmount + |WallJumpDirections(cfg, s, ticks)|
    ensures cfg.finiteWallJumps > 0 ==> s.walljumpsAmount + |WallJumpDirections(cfg, s, ticks)| <= cfg.finiteWallJumps
    decreases |ticks|
  {
    if ticks != [] {
      NoLandingTail(ticks);
      ForwardTimeTail(ticks);
      var s' := Step(cfg, s, ticks[0]);
      match ticks[0] {
        case Frame(f) => UpdatePreservesInv(cfg, s, f);
        case Physics(p) => FixedUpdatePreservesInv(cfg, s, p);
      }
      WallJumpsBoundedWithoutLanding(cfg, s', ticks[1..]);
      RunPreservesInv(cfg, s', ticks[1..]);
    }
  }

  /** The component itself: its fields change in place, callback by callback. */
  class Movement {
    const settings: Settings

    var moveX: real
    var lastJumpTimestamp: real
    var isGrounded: bool
    var isJumping: bool
    var jumpsAmount: int
    var walljumpsAmount: int
    var lastWallJumpDirection: int
    var isTouchingWall: bool
    var isWallSliding: bool
    var timeElapsedSinceWallSlide: real
    var lastGroundedTime: real
    var gravity: real
    var flipX: bool

    function State(): PlayerState
      reads this
    {
      PlayerState(moveX, lastJumpTimestamp, isGrounded, isJumping, jumpsAmount, walljumpsAmount,
                  lastWallJumpDirection, isTouchingWall, isWallSliding, timeElapsedSinceWallSlide,
                  lastGroundedTime, gravity, flipX)
    }

    ghost predicate Valid()
      reads this
    {
      Inv(settings, State())
    }

    /** `Awake` and `Start`: fields at their defaults, the body's gravity scale set. */
    constructor (settings: Settings)
      ensures this.settings == settings && State() == Initial(settings) && Valid()
    {
      this.settings := settings;
      moveX, lastJumpTimestamp, isGrounded, isJumping := 0.0, 0.0, false, false;
      jumpsAmount, walljumpsAmount, lastWallJumpDirection := 0, 0, 0;
      isTouchingWall, isWallSliding, timeElapsedSinceWallSlide := false, false, 0.0;
      lastGroundedTime, flipX := 0.0, false;
      gravity := settings.gravityScale;
      new;
      InitialInv(settings);
    }

    method Update(f: FrameInput)
      requires Valid() && f.deltaTime >= 0.0
      modifies this
      ensures State() == AfterUpdate(settings, old(State()), f)
      ensures Valid()
    {
      ghost var before := State();
      Sense(f);
      if isGrounded {
        ResetOnGround();
      }
      WallCheck(f);
      ghost var walled := State();
      Flip();
      GravityScaling(f.velocityY);
      assert State() == Presented(settings, walled, f);
      UpdatePreservesInv(settings, before, f);
    }

    /** The start of `Update`: the coyote timer runs down, the inputs and the ground sensor are read. */
    method Sense(f: FrameInput)
      modifies this
      ensures State() == Sensed(old(State()), f)
    {
      lastGroundedTime := lastGroundedTime - f.deltaTime;
      CheckInputs(f.axis, f.leftKey, f.rightKey);
      isGrounded := f.grounded;
    }

    /** The block of `Update` that runs on a grounded frame. */
    method ResetOnGround()
      modifies this
      ensures State() == Landed(settings, old(State()))
    {
      // jump values
      lastGroundedTime := settings.jumpCoyoteTime;
      isJumping := false;
      jumpsAmount := 0;
      // wall slide values
      timeElapsedSinceWallSlide := 0.0;
      lastWallJumpDirection := 0;
      walljumpsAmount := 0;
    }

    /** The block of `Update` that senses the wall and triggers a wall jump. */
    method WallCheck(f: FrameInput)
      modifies this
      ensures State() == WallPhase(settings, old(State()), f)
    {
      if settings.enableWallSlideAndJump {
        isTouchingWall := f.touchingWall;
        if CanWallJump(settings, State()) && f.jumpKeyDown {
          WallJump(f.wallToRight);
        }
      }
    }

    method CheckInputs(axis: real, leftKey: bool, rightKey: bool)
      modifies this`moveX
      ensures moveX == MoveInput(axis, leftKey, rightKey)
    {
      moveX := 0.0;
      moveX := axis;
      if leftKey {
        moveX := -1.0;
      }
      if rightKey {
        moveX := 1.0;
      }
    }

    method FixedUpdate(p: PhysicsInput)
      requires Valid()
      modifies this
      ensures State() == AfterFixedUpdate(settings, old(State()), p)
      ensures Valid()
    {
      ghost var before := State();
      if settings.enableWallSlideAndJump {
        WallSliding(p.fixedDeltaTime);
      }
      if CanJump(settings, State(), p.time) && p.jumpKeyHeld {
        Jump(p.time);
      }
      FixedUpdatePreservesInv(settings, before, p);
    }

    method Jump(time: real)
      modifies this
      ensures State() == Jumped(old(State()), time)
    {
      lastGroundedTime := 0.0;
      isJumping := true;
      lastJumpTimestamp := time;
      jumpsAmount := jumpsAmount + 1;
    }

    method WallSliding(fixedDeltaTime: real)
      modifies this
      ensures State() == Slid(settings, old(State()), fixedDeltaTime)
    {
      if isTouchingWall && !isGrounded && timeElapsedSinceWallSlide <= settings.wallSlideDurationSec {
        isWallSliding := true;
        timeElapsedSinceWallSlide := timeElapsedSinceWallSlide + fixedDeltaTime;
        isJumping := false;
      } else {
        isWallSliding := false;
      }
    }

    method WallJump(wallToRight: bool)
      modifies this
      ensures State() == WallJumped(old(State()), wallToRight)
    {
      if isTouchingWall && !isGrounded {
        var direction := if wallToRight then -1 else 1;
        if direction == lastWallJumpDirection {
          return;
        }
        lastWallJumpDirection := direction;
        flipX := direction > 0;
        lastGroundedTime := 0.0;
        timeElapsedSinceWallSlide := 0.0;
        isJumping := true;
        walljumpsAmount := walljumpsAmount + 1;
      }
    }

    method GravityScaling(velocityY: real)
      modifies this
      ensures State() == old(State()).(gravity := GravityFor(settings, velocityY, isWallSliding))
    {
      if velocityY < -0.3 && !isWallSliding {
        gravity := settings.fastFallingGravityMult * settings.gravityScale;
      } else {
        gravity := settings.gravityScale;
      }
    }

    method Flip()
      modifies this
      ensures State() == old(State()).(flipX := Flipped(old(flipX), moveX))
    {
      if moveX > 0.01 {
        flipX := true;
      }
      if moveX < -0.01 {
        flipX := false;
      }
    }
  }
}
