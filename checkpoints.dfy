/**
 * CheckPointManager.cs and CheckPoint.cs: a single store of the last
 * checkpoint reached, which starts unset and is overwritten by every report,
 * and checkpoints that report themselves once, when the player comes close.
 * `Vector2.Distance` is an input of `Update`; the unset value
 * (`Vector2.negativeInfinity`) is a constructor of its own.
 */
module CheckPoints {

  datatype Vec2 = Vec2(x: real, y: real)

  /** A stored position: `Unset` is the negative-infinity sentinel. */
  datatype Point = Unset | At(v: Vec2)

  /** How close the player must come to acquire a checkpoint. */
  const CheckPointAcquiredDistance: real := 1.0

  /** The store after a series of reports: the last report wins, and none leaves it as it was. */
  function AfterReports(start: Point, reports: seq<Vec2>): Point
    decreases |reports|
  {
    if |reports| == 0 then start else AfterReports(At(reports[0]), reports[1..])
  }

  lemma {:induction false} LastReportWins(start: Point, reports: seq<Vec2>)
    ensures |reports| == 0 ==> AfterReports(start, reports) == start
    ensures |reports| > 0 ==> AfterReports(start, reports) == At(reports[|reports| - 1])
    decreases |reports|
  {
    if |reports| > 1 {
      LastReportWins(At(reports[0]), reports[1..]);
    }
  }

  /** The player's transform and, when it has one, its `Rigidbody2D` velocity. */
  class Player {
    var position: Point
    var velocity: Vec2
    const hasRigidbody: bool

    constructor (position: Vec2, velocity: Vec2, hasRigidbody: bool)
      ensures this.position == At(position) && this.velocity == velocity && this.hasRigidbody == hasRigidbody
    {
      this.position := At(position);
      this.velocity := velocity;
      this.hasRigidbody := hasRigidbody;
    }
  }

  /** The static `CheckPointManager`. */
  class CheckPointManager {
    var lastCheckPoint: Point

    /** The store starts at the unset sentinel. */
    constructor ()
      ensures lastCheckPoint == Unset
    {
      lastCheckPoint := Unset;
    }

    /** Stores `position` unconditionally. */
    method CheckPointReached(position: Vec2)
      modifies this
      ensures lastCheckPoint == At(position)
    {
      lastCheckPoint := At(position);
    }

    /** Zeroes the player's velocity when it has a rigidbody; otherwise only logs. */
    static method ResetPlayerVelocity(player: Player)
      modifies player
      ensures player.velocity == if player.hasRigidbody then Vec2(0.0, 0.0) else old(player.velocity)
      ensures player.position == old(player.position)
    {
      if player.hasRigidbody {
        player.velocity := Vec2(0.0, 0.0);
      }
    }

    /**
     * Moves the player to the stored checkpoint and stops it.  An unset store
     * requests a scene reload (`reloadRequested`), which takes effect later:
     * the move and the reset still happen.
     */
    method PlaceAtCheckPoint(player: Player) returns (reloadRequested: bool)
      modifies player
      ensures reloadRequested <==> lastCheckPoint == Unset
      ensures player.position == lastCheckPoint
      ensures player.velocity == if player.hasRigidbody then Vec2(0.0, 0.0) else old(player.velocity)
    {
      reloadRequested := lastCheckPoint == Unset;
      player.position := lastCheckPoint;
      ResetPlayerVelocity(player);
    }
  }

  /** Whether a frame at `distance` from the player activates a checkpoint. */
  predicate Triggers(activated: bool, distance: real)
  {
    !activated && distance <= CheckPointAcquiredDistance
  }

  /** The number of frames, over the player distances `distances`, that activate the checkpoint. */
  function Activations(activated: bool, distances: seq<real>): (n: nat)
    ensures n <= 1
    ensures activated ==> n == 0
    decreases |distances|
  {
    if |distances| == 0 then 0
    else
      (if Triggers(activated, distances[0]) then 1 else 0)
      + Activations(activated || Triggers(activated, distances[0]), distances[1..])
  }

  /** A fresh checkpoint activates exactly when some frame finds the player close enough. */
  lemma {:induction false} ActivatedIffClose(distances: seq<real>)
    ensures Activations(false, distances) == 1 <==>
      exists i :: 0 <= i < |distances| && distances[i] <= CheckPointAcquiredDistance
    decreases |distances|
  {
    if |distances| > 0 {
      ActivatedIffClose(distances[1..]);
      if distances[0] > CheckPointAcquiredDistance {
        if exists i :: 0 <= i < |distances| && distances[i] <= CheckPointAcquiredDistance {
          var i :| 0 <= i < |distances| && distances[i] <= CheckPointAcquiredDistance;
          assert distances[1..][i - 1] == distances[i];
        }
      }
    }
  }

  class CheckPoint {
    var isActivated: bool
    const position: Vec2
    const hasAnimator: bool
    /** The animator's `isActivated` parameter (meaningful only with an animator). */
    var animatorActivated: bool

    constructor (position: Vec2, hasAnimator: bool)
      ensures this.position == position && this.hasAnimator == hasAnimator
      ensures !isActivated && !animatorActivated
    {
      this.position, this.hasAnimator := position, hasAnimator;
      isActivated, animatorActivated := false, false;
    }

    /** `Start`: stores the player's position as the latest checkpoint. */
    method Start(manager: CheckPointManager, playerPosition: Vec2)
      modifies manager
      ensures manager.lastCheckPoint == At(playerPosition)
    {
      manager.CheckPointReached(playerPosition);
    }

    /** Latches, reports this checkpoint, and sets the animator flag when there is an animator. */
    method ActivateCheckPoint(manager: CheckPointManager)
      modifies this, manager
      ensures isActivated && manager.lastCheckPoint == At(position)
      ensures animatorActivated == if hasAnimator then true else old(animatorActivated)
    {
      isActivated := true;
      manager.CheckPointReached(position);
      if hasAnimator {
        animatorActivated := isActivated;
      }
    }

    /** One frame with the player at `distance`: activates when not yet activated and close enough. */
    method Update(manager: CheckPointManager, distance: real) returns (activated: bool)
      modifies this, manager
      ensures activated <==> Triggers(old(isActivated), distance)
      ensures activated == (Activations(old(isActivated), [distance]) == 1)
      ensures isActivated == (old(isActivated) || activated)
      ensures activated ==> manager.lastCheckPoint == At(position)
      ensures !activated ==> unchanged(this) && unchanged(manager)
    {
      activated := Triggers(isActivated, distance);
      if activated {
        ActivateCheckPoint(manager);
      }
    }
  }
}
