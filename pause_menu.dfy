/**
 * PauseMenu.cs: the Escape key toggles between playing and paused, keeping
 * the menu's `isPaused`, the pause UI's active flag and the global time
 * scale in step.
 */
module Pausing {

  /** The three values the pause menu writes. */
  datatype PauseState = PauseState(isPaused: bool, uiActive: bool, timeScale: real)

  /** The state after `Pause`. */
  function Paused(s: PauseState): PauseState
  {
    PauseState(true, true, 0.0)
  }

  /** The state after `Resume`. */
  function Resumed(s: PauseState): PauseState
  {
    PauseState(false, false, 1.0)
  }

  /** One frame of `Update` with the Escape key down or not. */
  function OnEscape(s: PauseState, escapeDown: bool): (r: PauseState)
    ensures !escapeDown ==> r == s
    ensures escapeDown ==> r.isPaused == !s.isPaused
    ensures escapeDown ==> Consistent(r)
  {
    if !escapeDown then s else if s.isPaused then Resumed(s) else Paused(s)
  }

  /** Paused exactly when the UI is up and time is stopped; running at normal speed otherwise. */
  predicate Consistent(s: PauseState)
  {
    (s.isPaused <==> s.uiActive) && s.timeScale == if s.isPaused then 0.0 else 1.0
  }

  /** From a consistent state, two presses of Escape restore it. */
  lemma TwoPressesRestore(s: PauseState)
    requires Consistent(s)
    ensures OnEscape(OnEscape(s, true), true) == s
  {
  }

  /** The state after a run of frames, each with Escape down or not. */
  function AfterFrames(s: PauseState, keys: seq<bool>): PauseState
    decreases |keys|
  {
    if |keys| == 0 then s else AfterFrames(OnEscape(s, keys[0]), keys[1..])
  }

  /** The number of frames with Escape down. */
  function Presses(keys: seq<bool>): nat
    decreases |keys|
  {
    if |keys| == 0 then 0 else (if keys[0] then 1 else 0) + Presses(keys[1..])
  }

  /**
   * Over any run of frames from a consistent state the three values stay
   * consistent, and the game is paused exactly when an odd number of presses
   * flipped the initial state.
   */
  lemma {:induction false} FramesKeepConsistent(s: PauseState, keys: seq<bool>)
    requires Consistent(s)
    ensures Consistent(AfterFrames(s, keys))
    ensures AfterFrames(s, keys).isPaused == (s.isPaused != (Presses(keys) % 2 == 1))
    decreases |keys|
  {
    if |keys| > 0 {
      FramesKeepConsistent(OnEscape(s, keys[0]), keys[1..]);
    }
  }

  /** A `GameObject`'s active flag. */
  class GameObject {
    var active: bool

    constructor (active: bool)
      ensures this.active == active
    {
      this.active := active;
    }
  }

  /** The global `Time` settings. */
  class TimeSettings {
    var timeScale: real

    constructor ()
      ensures timeScale == 1.0
    {
      timeScale := 1.0;
    }
  }

  class PauseMenu {
    const pauseUI: GameObject
    const time: TimeSettings
    var isPaused: bool

    constructor (pauseUI: GameObject, time: TimeSettings)
      ensures this.pauseUI == pauseUI && this.time == time && !isPaused
    {
      this.pauseUI, this.time := pauseUI, time;
      isPaused := false;
    }

    function State(): PauseState
      reads this, pauseUI, time
    {
      PauseState(isPaused, pauseUI.active, time.timeScale)
    }

    method Resume()
      modifies this, pauseUI, time
      ensures State() == Resumed(old(State()))
    {
      pauseUI.active := false;
      time.timeScale := 1.0;
      isPaused := false;
    }

    method Pause()
      modifies this, pauseUI, time
      ensures State() == Paused(old(State()))
    {
      pauseUI.active := true;
      time.timeScale := 0.0;
      isPaused := true;
    }

    /** One frame: Escape resumes a paused game and pauses a running one. */
    method Update(escapeDown: bool)
      modifies this, pauseUI, time
      ensures State() == OnEscape(old(State()), escapeDown)
    {
      if escapeDown {
        if isPaused {
          Resume();
        } else {
          Pause();
        }
      }
    }
  }
}
