/** The game manager of the die simulator as the object it is: one
    instance, advanced once per rendered frame (`Update`) and once per
    physics step (`FixedUpdate`), whose methods update its fields in the
    order the source does. Each method but the field-level helpers
    `RandomiseAngularVelocity` and `ReturnToStart` is proved to take the
    object from `old(State())` to the state the matching `RollModel`
    function computes, so every law proved there holds of the object. The engine side of the
    game (the two panels, the die's rigid body, the quit request), the
    tweens in flight and the effect counters are held as three record
    fields. */
module RollSequencer {
  import opened Oscillator
  import RollModel

  class GameManager {
    // Configuration (the Inspector fields the logic reads).
    const diePrefabCount: int  // diePrefabs.Length
    const dieXRotationBounds: Bounds
    const dieYRotationBounds: Bounds
    const dieZRotationBounds: Bounds
    const rotationIncrement: real
    const minMagnitude: real
    const settleWaitTime: real

    // Pre-throw state.
    var diePrefabIndex: int
    var dieRotation: Vec3
    var dieXRotationAscending: bool
    var dieYRotationAscending: bool
    var dieZRotationAscending: bool

    // Post-throw state.
    var waitingToSettle: bool
    var currentSettleWaitTime: real
    var cameraMoved: bool

    var canThrow: bool
    var throwing: bool
    var thrown: bool
    var canReset: bool

    // Engine effects.
    var scene: RollModel.Scene         // panels, die constraints and spin, quit request
    var tweens: RollModel.Tweens       // tweens started and not yet complete
    ghost var tally: RollModel.Tally   // counters of impulses, camera flights, spawns, ...

    function Cfg(): RollModel.Config {
      RollModel.Config(diePrefabCount, dieXRotationBounds, dieYRotationBounds, dieZRotationBounds,
                       rotationIncrement, minMagnitude, settleWaitTime)
    }

    /** The fields, read as a `RollModel.State`. */
    ghost function State(): RollModel.State
      reads this
    {
      RollModel.State(
        RollModel.PreThrow(diePrefabIndex, dieRotation, dieXRotationAscending,
                           dieYRotationAscending, dieZRotationAscending),
        RollModel.PostThrow(waitingToSettle, currentSettleWaitTime, cameraMoved),
        RollModel.Flags(canThrow, throwing, thrown, canReset),
        scene, tweens, tally)
    }

    ghost predicate Valid()
      reads this
    {
      RollModel.Valid(Cfg(), State())
    }

    /** `Start`: spawn the first prefab, draw the first angles, allow
        throwing. `diePrefabs[0]` must exist. */
    constructor (diePrefabCount: int, dieXRotationBounds: Bounds, dieYRotationBounds: Bounds,
                 dieZRotationBounds: Bounds, rotationIncrement: real, minMagnitude: real,
                 settleWaitTime: real, roll: Vec3)
      requires diePrefabCount > 0
      requires AllWithin(roll, dieXRotationBounds, dieYRotationBounds, dieZRotationBounds)
      ensures Cfg() == RollModel.Config(diePrefabCount, dieXRotationBounds, dieYRotationBounds,
                                        dieZRotationBounds, rotationIncrement, minMagnitude,
                                        settleWaitTime)
      ensures State() == RollModel.Start(Cfg(), roll)
      ensures settleWaitTime >= 0.0 ==> Valid() && RollModel.Phase(State()) == RollModel.Ready
    {
      this.diePrefabCount := diePrefabCount;
      this.dieXRotationBounds := dieXRotationBounds;
      this.dieYRotationBounds := dieYRotationBounds;
      this.dieZRotationBounds := dieZRotationBounds;
      this.rotationIncrement := rotationIncrement;
      this.minMagnitude := minMagnitude;
      this.settleWaitTime := settleWaitTime;
      diePrefabIndex := 0;
      dieRotation := Vec3(0.0, 0.0, 0.0);
      dieXRotationAscending, dieYRotationAscending, dieZRotationAscending := false, false, false;
      waitingToSettle, currentSettleWaitTime, cameraMoved := false, 0.0, false;
      canThrow, throwing, thrown, canReset := false, false, false, false;
      scene := RollModel.Scene(true, false, false, Vec3(0.0, 0.0, 0.0), false);
      tweens := RollModel.Tweens(false, false, 0);
      tally := RollModel.Tally(0, 0, 0, 0, 0);
      new;
      InstantiateDie();

      RandomiseAngularVelocity(roll.x, roll.y, roll.z);

      canThrow := true;
    }

    /** Replace the die by a fresh instance of the selected prefab. */
    method InstantiateDie()
      requires 0 <= diePrefabIndex < diePrefabCount  // diePrefabs[diePrefabIndex]
      modifies this
      ensures State() == RollModel.InstantiateDie(old(State()))
    {
      scene := scene.(constraintsFrozen := true);
      tally := tally.(spawnCount := tally.spawnCount + 1);
    }

    /** Take the three angles drawn by `Random.Range`, each within its
        bounds; nothing but `dieRotation` changes. */
    method RandomiseAngularVelocity(dieXRotation: real, dieYRotation: real, dieZRotation: real)
      requires Within(dieXRotation, dieXRotationBounds) && Within(dieYRotation, dieYRotationBounds) &&
               Within(dieZRotation, dieZRotationBounds)
      modifies this`dieRotation
      ensures dieRotation == Vec3(dieXRotation, dieYRotation, dieZRotation)
    {
      dieRotation := Vec3(dieXRotation, dieYRotation, dieZRotation);
    }

    /** One rendered frame, given the buttons pressed in it, its duration,
        the die's speed and the angles a reset would draw. */
    method Update(jump: bool, next: bool, previous: bool, quit: bool,
                  deltaTime: real, speed: real, roll: Vec3)
      requires Valid()
      requires RollModel.InputOk(Cfg(), RollModel.FrameInput(jump, next, previous, quit,
                                                             deltaTime, speed, roll))
      modifies this
      ensures State() == RollModel.Update(Cfg(), old(State()),
                                          RollModel.FrameInput(jump, next, previous, quit,
                                                               deltaTime, speed, roll))
      ensures Valid()
    {
      ghost var i := RollModel.FrameInput(jump, next, previous, quit, deltaTime, speed, roll);
      RollModel.UpdatePreservesValid(Cfg(), State(), i);

      if canThrow && quit {
        scene := scene.(quitRequested := true);  // Application.Quit()
      }

      if thrown {
        CheckDieIsAtRest(speed);
      } else if !throwing && !thrown {
        if canThrow {
          if jump {
            throwing := true;
            canThrow := false;
            tally := tally.(throwsBegun := tally.throwsBegun + 1);
            return;
          } else if next || previous {
            ChangeDie(next);
          }
        }

        CalculateRotation();
      }

      WaitForSettle(deltaTime);

      if canReset && jump {
        Reset(roll);
      }
    }

    /** The end of a frame: count the time the die has waited to settle,
        then start the camera's flight once that exceeds the wait. */
    method WaitForSettle(deltaTime: real)
      modifies this
      ensures State() == RollModel.WaitForSettle(Cfg(), old(State()), deltaTime)
    {
      if waitingToSettle && currentSettleWaitTime <= settleWaitTime {
        currentSettleWaitTime := currentSettleWaitTime + deltaTime;
      }

      if !cameraMoved && currentSettleWaitTime > settleWaitTime {
        MoveCamera();
      }
    }

    /** Step the selected prefab forward or back with wrap-around and
        respawn the die. */
    method ChangeDie(next: bool)
      requires diePrefabCount > 0
      modifies this
      ensures State() == RollModel.ChangeDie(Cfg(), old(State()), next)
    {
      diePrefabIndex := diePrefabIndex + (if next then 1 else -1);

      if diePrefabIndex >= diePrefabCount {
        diePrefabIndex := 0;
      } else if diePrefabIndex < 0 {
        diePrefabIndex := diePrefabCount - 1;
      }

      InstantiateDie();
    }

    /** One ping-pong step of each of the three angles. */
    method CalculateRotation()
      modifies this
      ensures State() == RollModel.CalculateRotation(Cfg(), old(State()))
    {
      var dieX := Advance(Axis(dieRotation.x, dieXRotationAscending), dieXRotationBounds,
                          rotationIncrement);
      var dieY := Advance(Axis(dieRotation.y, dieYRotationAscending), dieYRotationBounds,
                          rotationIncrement);
      var dieZ := Advance(Axis(dieRotation.z, dieZRotationAscending), dieZRotationBounds,
                          rotationIncrement);

      dieXRotationAscending := dieX.ascending;
      dieYRotationAscending := dieY.ascending;
      dieZRotationAscending := dieZ.ascending;
      dieRotation := Vec3(dieX.value, dieY.value, dieZ.value);
    }

    /** One physics step. */
    method FixedUpdate()
      requires Valid()
      modifies this
      ensures State() == RollModel.FixedUpdate(old(State()))
      ensures Valid()
    {
      RollModel.FixedUpdatePreservesValid(Cfg(), State());
      if !throwing {
        scene := scene.(angularVelocity := dieRotation);  // currentDie.angularVelocity
      } else if !thrown {
        Throw();
      }
    }

    /** Release the die and apply the throw impulse. */
    method Throw()
      modifies this
      ensures State() == RollModel.Throw(old(State()))
    {
      if thrown {
        return;
      }

      thrown := true;

      scene := scene.(preThrowVisible := false);

      scene := scene.(constraintsFrozen := false);
      tally := tally.(impulseCount := tally.impulseCount + 1);  // AddForce(throwVelocity)
    }

    /** `speed` is the magnitude of the die's velocity. */
    method CheckDieIsAtRest(speed: real)
      modifies this
      ensures State() == RollModel.CheckDieIsAtRest(Cfg(), old(State()), speed)
    {
      waitingToSettle := speed < minMagnitude;

      if !waitingToSettle {
        currentSettleWaitTime := 0.0;
      }
    }

    /** Start the camera's flight to the die (completed by `OnCameraAtDie`). */
    method MoveCamera()
      modifies this
      ensures State() == RollModel.MoveCamera(old(State()))
    {
      tweens := tweens.(cameraToDiePending := true);
      tally := tally.(cameraMoveCount := tally.cameraMoveCount + 1);

      cameraMoved := true;
    }

    /** Completion of the camera's flight to the die. */
    method OnCameraAtDie()
      requires Valid() && tweens.cameraToDiePending
      modifies this
      ensures State() == RollModel.OnCameraAtDie(old(State()))
      ensures Valid()
    {
      RollModel.OnCameraAtDieEnablesReset(Cfg(), State());
      tweens := tweens.(cameraToDiePending := false);
      scene := scene.(postThrowVisible := true);

      canReset := true;
    }

    /** Back to the pre-throw state (completed by `OnCameraHome` and
        `OnDieHome`); nothing happens unless the camera is at the die. */
    method Reset(roll: Vec3)
      requires AllWithin(roll, dieXRotationBounds, dieYRotationBounds, dieZRotationBounds)
      modifies this
      ensures State() == RollModel.Reset(old(State()), roll)
    {
      if !canReset {
        return;
      }

      ReturnToStart(roll);
    }

    /** The statements of `Reset` after its guard, in their order; they
        touch only the fields named here. */
    method ReturnToStart(roll: Vec3)
      requires AllWithin(roll, dieXRotationBounds, dieYRotationBounds, dieZRotationBounds)
      modifies this`canReset, this`scene, this`tweens, this`waitingToSettle,
               this`currentSettleWaitTime, this`dieRotation, this`throwing, this`thrown,
               this`cameraMoved, this`tally
      ensures !canReset && !throwing && !thrown
      ensures scene == old(scene).(postThrowVisible := false)
      ensures tweens == old(tweens).(cameraHomePending := true,
                                     dieHomePending := old(tweens).dieHomePending + 1)
      ensures !waitingToSettle && currentSettleWaitTime == 0.0 && !cameraMoved
      ensures dieRotation == roll
      ensures tally == old(tally).(resetCount := old(tally).resetCount + 1)
    {
      canReset := false;

      scene := scene.(postThrowVisible := false);

      tweens := tweens.(cameraHomePending := true);  // Tween(mainCamera, home)

      waitingToSettle := false;
      currentSettleWaitTime := 0.0;

      tweens := tweens.(dieHomePending := tweens.dieHomePending + 1);  // Tween(currentDie, start)

      RandomiseAngularVelocity(roll.x, roll.y, roll.z);

      throwing, thrown, cameraMoved := false, false, false;
      tally := tally.(resetCount := tally.resetCount + 1);
    }

    /** Completion of the camera's flight home. */
    method OnCameraHome()
      requires Valid() && tweens.cameraHomePending
      modifies this
      ensures State() == RollModel.OnCameraHome(old(State()))
      ensures Valid()
    {
      RollModel.OnCameraHomeEnablesThrow(Cfg(), State());
      tweens := tweens.(cameraHomePending := false);
      scene := scene.(preThrowVisible := true);

      canThrow := true;
    }

    /** Completion of one of the die's flights home. */
    method OnDieHome()
      requires Valid() && tweens.dieHomePending > 0
      modifies this
      ensures State() == RollModel.OnDieHome(old(State()))
      ensures Valid()
    {
      RollModel.OnDieHomeKeepsPhase(Cfg(), State());
      tweens := tweens.(dieHomePending := tweens.dieHomePending - 1);
      scene := scene.(constraintsFrozen := true);
    }
  }
}
