/** PauseHandler: a pause flag that switches a list of objects on or off
    and stops or restarts game time. */
module Pause {
  import opened Engine

  /** One entry of the serialized object list. */
  datatype ObjectReference = ObjectReference(go: GameObject, enableOnPause: bool, disableOnStart: bool)

  /** The flag SwitchObjectStates gives a referenced object: its
      enableOnPause value while paused, the opposite otherwise. */
  function TargetState(r: ObjectReference, pause: bool): bool
  {
    if pause then r.enableOnPause else !r.enableOnPause
  }

  /** The flag of `o` after SwitchObjectStates has walked `refs` in order,
      starting from `prior`: the reference that comes last decides. */
  function Switched(refs: seq<ObjectReference>, o: GameObject, pause: bool, prior: bool): bool
  {
    if refs == [] then prior
    else if refs[|refs| - 1].go == o then TargetState(refs[|refs| - 1], pause)
    else Switched(refs[..|refs| - 1], o, pause, prior)
  }

  predicate Referenced(refs: seq<ObjectReference>, o: GameObject)
  {
    exists i :: 0 <= i < |refs| && refs[i].go == o
  }

  /** The flag of `o` after Start, starting from `prior`. */
  predicate AfterStart(refs: seq<ObjectReference>, o: GameObject, prior: bool)
  {
    prior && !(exists i :: 0 <= i < |refs| && refs[i].go == o && refs[i].disableOnStart)
  }

  /** An object no reference names keeps its flag; one that some reference
      names ends with the flag of the last reference to it. */
  lemma {:induction false} SwitchedLastWins(refs: seq<ObjectReference>, o: GameObject, pause: bool, prior: bool)
    ensures !Referenced(refs, o) ==> Switched(refs, o, pause, prior) == prior
    ensures Referenced(refs, o) ==>
              exists i :: 0 <= i < |refs| && refs[i].go == o && Switched(refs, o, pause, prior) == TargetState(refs[i], pause) &&
                          forall j :: i < j < |refs| ==> refs[j].go != o
  {
    if refs != [] {
      var n := |refs| - 1;
      var front := refs[..n];
      SwitchedLastWins(front, o, pause, prior);
      if refs[n].go != o {
        if Referenced(refs, o) {
          var i :| 0 <= i < |refs| && refs[i].go == o;
          assert front[i].go == o;
          var k :| 0 <= k < |front| && front[k].go == o && Switched(front, o, pause, prior) == TargetState(front[k], pause) &&
                   forall j :: k < j < |front| ==> front[j].go != o;
          assert refs[k] == front[k];
          assert forall j :: k < j < |refs| ==> refs[j].go != o by {
            forall j | k < j < |refs|
              ensures refs[j].go != o
            {
              if j < n {
                assert refs[j] == front[j];
              }
            }
          }
        }
      }
    }
  }

  /** Once some reference names an object, its old flag no longer
      matters. */
  lemma {:induction false} SwitchedIgnoresPrior(refs: seq<ObjectReference>, o: GameObject, pause: bool, x: bool, y: bool)
    requires Referenced(refs, o)
    ensures Switched(refs, o, pause, x) == Switched(refs, o, pause, y)
  {
    var n := |refs| - 1;
    if refs[n].go != o {
      var i :| 0 <= i < |refs| && refs[i].go == o;
      assert refs[..n][i].go == o;
      SwitchedIgnoresPrior(refs[..n], o, pause, x, y);
    }
  }

  /** Switching to the same pause state twice is the same as once
      (ChangePauseState(p) is idempotent on every object). */
  lemma SwitchIdempotent(refs: seq<ObjectReference>, o: GameObject, pause: bool, prior: bool)
    ensures Switched(refs, o, pause, Switched(refs, o, pause, prior)) == Switched(refs, o, pause, prior)
  {
    SwitchedLastWins(refs, o, pause, prior);
    if Referenced(refs, o) {
      SwitchedIgnoresPrior(refs, o, pause, prior, Switched(refs, o, pause, prior));
    }
  }

  /** Pausing and unpausing give every referenced object opposite flags. */
  lemma {:induction false} PauseThenResumeOpposite(refs: seq<ObjectReference>, o: GameObject, x: bool, y: bool)
    requires Referenced(refs, o)
    ensures Switched(refs, o, false, x) == !Switched(refs, o, true, y)
  {
    var n := |refs| - 1;
    if refs[n].go != o {
      var i :| 0 <= i < |refs| && refs[i].go == o;
      assert refs[..n][i].go == o;
      PauseThenResumeOpposite(refs[..n], o, x, y);
    }
  }

  class PauseHandler {
    const objs: seq<ObjectReference>
    var isPaused: bool
    const time: EngineTime

    constructor (objs: seq<ObjectReference>, time: EngineTime)
      ensures this.objs == objs && this.time == time && !isPaused
    {
      this.objs := objs;
      this.time := time;
      isPaused := false;
    }

    /** IsPaused. */
    function IsPaused(): (r: bool)
      reads this
      ensures r == isPaused
    {
      isPaused
    }

    /** Start: every object with disableOnStart is switched off; nothing
        else changes. */
    method Start()
      modifies set r | r in objs :: r.go
      ensures forall r :: r in objs ==> r.go.activeSelf == AfterStart(objs, r.go, old(r.go.activeSelf))
    {
      var i := 0;
      while i < |objs|
        invariant 0 <= i <= |objs|
        invariant forall r :: r in objs ==> r.go.activeSelf == AfterStart(objs[..i], r.go, old(r.go.activeSelf))
      {
        var obj := objs[i];
        assert objs[..i + 1] == objs[..i] + [obj];
        if obj.disableOnStart {
          assert obj in objs;
          obj.go.SetActive(false);
        }
        i := i + 1;
      }
      assert objs[..i] == objs;
    }

    /** SwitchObjectStates: each referenced object gets its paused or
        unpaused flag, the last reference winning; time stops while paused
        and runs at normal speed otherwise. */
    method SwitchObjectStates(pause: bool)
      modifies (set r | r in objs :: r.go), time`timeScale
      ensures forall r :: r in objs ==> r.go.activeSelf == Switched(objs, r.go, pause, old(r.go.activeSelf))
      ensures time.timeScale == if pause then 0.0 else 1.0
    {
      var i := 0;
      while i < |objs|
        invariant 0 <= i <= |objs|
        invariant forall r :: r in objs ==> r.go.activeSelf == Switched(objs[..i], r.go, pause, old(r.go.activeSelf))
      {
        var obj := objs[i];
        assert objs[..i + 1][..i] == objs[..i];
        assert obj in objs;
        obj.go.SetActive(TargetState(obj, pause));
        i := i + 1;
      }
      assert objs[..i] == objs;
      if pause {
        time.timeScale := 0.0;
      } else {
        time.timeScale := 1.0;
      }
    }

    method ChangePauseState(pause: bool)
      modifies this`isPaused, (set r | r in objs :: r.go), time`timeScale
      ensures isPaused == pause
      ensures forall r :: r in objs ==> r.go.activeSelf == Switched(objs, r.go, pause, old(r.go.activeSelf))
      ensures time.timeScale == if pause then 0.0 else 1.0
    {
      isPaused := pause;
      SwitchObjectStates(pause);
    }

    /** The toggling overload: flips the flag, then switches to it. */
    method TogglePauseState()
      modifies this`isPaused, (set r | r in objs :: r.go), time`timeScale
      ensures isPaused == !old(isPaused)
      ensures forall r :: r in objs ==> r.go.activeSelf == Switched(objs, r.go, isPaused, old(r.go.activeSelf))
      ensures time.timeScale == if isPaused then 0.0 else 1.0
    {
      isPaused := !isPaused;
      SwitchObjectStates(isPaused);
    }
  }

  /** Toggling twice returns to the original pause flag and time scale, and
      leaves each referenced object with the flag the original state gives
      it, whatever the flags were before. */
  method ToggleTwiceScenario(handler: PauseHandler) returns (before: bool, after: bool)
    modifies handler`isPaused, (set r | r in handler.objs :: r.go), handler.time`timeScale
    ensures before == after
    ensures handler.time.timeScale == if after then 0.0 else 1.0
    ensures forall r :: r in handler.objs ==> r.go.activeSelf == Switched(handler.objs, r.go, before, false)
  {
    before := handler.isPaused;
    handler.TogglePauseState();
    label between:
    handler.TogglePauseState();
    after := handler.isPaused;
    forall r | r in handler.objs
      ensures r.go.activeSelf == Switched(handler.objs, r.go, before, false)
    {
      var i :| 0 <= i < |handler.objs| && handler.objs[i] == r;
      assert Referenced(handler.objs, r.go);
      SwitchedIgnoresPrior(handler.objs, r.go, before, false, old@between(r.go.activeSelf));
    }
  }
}
