/** The door of `src/gameobjects/door.js`: a one-shot latch that lets the
    player leave the room once, plus a debug visibility switch. */
module Door {
  import opened Js

  /** `targetScene` is the stage number the door leads to, or `null`. */
  datatype Door = Door(targetScene: Option<int>, isActivated: bool, visible: bool)

  /** The constructor: no latch set, hidden. */
  function NewDoor(targetScene: Option<int>): (d: Door)
    ensures d.targetScene == targetScene
    ensures !d.isActivated && !d.visible
  {
    Door(targetScene, false, false)
  }

  /** `activate()`: succeeds only if the latch is clear and the door leads
      somewhere; a success sets the latch. Returns the new door and whether
      it fired. */
  function Activate(d: Door): (r: (Door, bool))
    ensures r.1 <==> !d.isActivated && d.targetScene.Some?
    ensures r.1 ==> r.0 == d.(isActivated := true)
    ensures !r.1 ==> r.0 == d
  {
    if !d.isActivated && d.targetScene.Some? then (d.(isActivated := true), true) else (d, false)
  }

  /** `reset()`: clears the latch and nothing else. */
  function Reset(d: Door): (r: Door)
    ensures !r.isActivated
    ensures r.targetScene == d.targetScene && r.visible == d.visible
  {
    d.(isActivated := false)
  }

  /** `toggleDebugVisibility()`: flips visibility and nothing else. */
  function ToggleDebugVisibility(d: Door): (r: Door)
    ensures r.visible == !d.visible
    ensures r.targetScene == d.targetScene && r.isActivated == d.isActivated
  {
    d.(visible := !d.visible)
  }

  datatype DoorEvent = Enter | ResetLatch | Toggle

  /** Feeds a sequence of events to a door; returns the final door and how
      many `Enter` events made `activate()` return true. */
  function Run(d: Door, evs: seq<DoorEvent>): (Door, nat)
    decreases |evs|
  {
    if |evs| == 0 then (d, 0)
    else
      var (d', fired) :=
        match evs[0]
        case Enter => Activate(d)
        case ResetLatch => (Reset(d), false)
        case Toggle => (ToggleDebugVisibility(d), false);
      var (last, n) := Run(d', evs[1..]);
      (last, n + if fired then 1 else 0)
  }

  /** Between two resets the door opens at most once; a door that already
      fired does not fire again. */
  lemma {:induction false} ActivatesAtMostOnce(d: Door, evs: seq<DoorEvent>)
    requires forall i :: 0 <= i < |evs| ==> evs[i] != ResetLatch
    ensures Run(d, evs).1 <= 1
    ensures d.isActivated ==> Run(d, evs).1 == 0 && Run(d, evs).0.isActivated
    ensures Run(d, evs).1 == 1 ==> Run(d, evs).0.isActivated
    decreases |evs|
  {
    if |evs| > 0 {
      assert evs[0] != ResetLatch;
      var d' := if evs[0] == Enter then Activate(d).0 else ToggleDebugVisibility(d);
      ActivatesAtMostOnce(d', evs[1..]);
    }
  }

  /** A door with no target never opens and its latch stays as it was, whatever
      happens to it. */
  lemma {:induction false} NullTargetNeverOpens(d: Door, evs: seq<DoorEvent>)
    requires d.targetScene.None?
    ensures Run(d, evs).1 == 0
    ensures Run(d, evs).0.targetScene.None?
    ensures !d.isActivated ==> !Run(d, evs).0.isActivated
    decreases |evs|
  {
    if |evs| > 0 {
      var d' := match evs[0]
        case Enter => Activate(d).0
        case ResetLatch => Reset(d)
        case Toggle => ToggleDebugVisibility(d);
      NullTargetNeverOpens(d', evs[1..]);
    }
  }

  /** After `reset()`, the next `activate()` of a door with a target succeeds;
      in particular the first `activate()` of a new door with a target does. */
  lemma ResetRearms(d: Door, target: int)
    requires d.targetScene == Some(target)
    ensures Activate(Reset(d)).1
    ensures Activate(NewDoor(Some(target))).1
    ensures !Activate(Activate(d).0).1
  {
  }

  /** Two toggles restore the original door. */
  lemma ToggleTwice(d: Door)
    ensures ToggleDebugVisibility(ToggleDebugVisibility(d)) == d
  {
  }
}
