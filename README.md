# Die-roll sequencer of the dice simulator

The game has one piece of logic: the `GameManager` component. It sequences a
die roll through these phases:

- The die tumbles in place while the player picks a prefab with
  Next/Previous, or quits.
- Jump throws the die. The impulse is applied on the next physics step.
- The game waits until the die has been slower than a threshold for longer
  than a configured time.
- The camera flies to the die and the result panel appears.
- Jump again sends the camera and the die home.
- Throwing is re-enabled once the camera arrives home.

This project models that component and proves its sequencing laws. There are
five modules.

- `Oscillator` (`oscillator.dfy`) covers the idle tumble. It models three
  independent ping-pong angles: each moves by `rotationIncrement` per frame
  and turns once it reaches or passes either end of its bounds. The module
  proves the band each angle keeps: at most one increment outside its
  bounds, however many frames pass.
- `DieSelection` (`die_selection.dfy`) covers the wrap-around of the prefab
  index. It defines the modular step that `RollModel.ChangeDieCycles`
  proves the code's if-chain equal to, proves that Previous undoes Next,
  that k presses of either button move the selection k prefabs modulo the
  count, and that `count` presses of Next go all the way round.
- `Settle` (`settle.dfy`) covers rest detection: `CheckDieIsAtRest`
  followed by the settle-timer step of `Update`. It proves the bounds of
  the timer over any run of frames.
- `RollModel` (`roll_model.dfy`) holds the whole state as a value.
  - There is one function per method of the component and one per tween
    completion callback.
  - The phase function (`Ready`, `Returning`, `Throwing`, `Thrown`,
    `CameraToDie`, `ReadyToReset`) is defined here.
  - So is the invariant `Valid`, which every event keeps: a frame, a
    physics step, or the completion of a tween in flight.
  - It proves the laws of one frame, of the physics step, of the callbacks
    and of whole runs of events.
- `RollSequencer` (`game_manager.dfy`) holds the class `GameManager`.
  - Its fields are the component's state fields and its constants the
    configuration it reads.
  - Its methods change them in the order the source does, including the
    early `return` of the frame that begins a throw.
  - Each method but the field-level helpers `RandomiseAngularVelocity` and
    `ReturnToStart` is proved to move the object from `old(State())` to the
    state the matching `RollModel` function computes; those two state the
    new value of each field they may change.
  - `Update`, `FixedUpdate`, `OnCameraAtDie`, `OnCameraHome` and
    `OnDieHome` also keep `Valid()`.

Engine effects are held in three record fields of the class:

- `scene`: the two panels, whether the die's position is frozen, the last
  angular velocity handed to the rigid body, and the quit request.
- `tweens`: the tweens started and not yet complete.
- a ghost `tally`: counts of impulses, camera flights, spawns, throws begun
  and resets.

The engine's inputs become parameters of `Update`:

- the buttons pressed in the frame;
- `Time.deltaTime`;
- the die's speed;
- the three angles `Random.Range` would draw should the frame reset.

`Update` and `Reset` each delegate part of their body to a helper method that
is not in the source. This keeps each proof obligation small; the statement
order is unchanged.

- `GameManager.WaitForSettle` holds lines 111-115 of `Update`. It is called
  at the same point of the frame.
- `GameManager.ReturnToStart` holds the statements of `Reset` after its
  guard.

Behaviours of the code worth noting:

- `ChangeDie` respawns the die without redrawing the tumble angles (lines
  121-131).
- The camera moves only once the wait is strictly exceeded (line 114).
- A die at or above `minMagnitude` is not at rest (line 197), so with a
  threshold of 0.05 a die at 0.2 never settles (`Settle.ThreeFrameScenario`).

## Model

| member | source | states |
|---|---|---|
| Oscillator.Step | Assets/GameManager.cs:141-167 | one step of one axis keeps the band "ascending ⇒ value in [min-inc, max], descending ⇒ value in [min, max+inc]", the value lands within one increment of the bounds, and the direction changes only at or beyond a bound |
| Oscillator.Advance | Assets/GameManager.cs:137-167 | the statements for one axis (move by the increment, then flip the direction at or past either bound) compute `Step` |
| Oscillator.WithinIsBanded | Assets/GameManager.cs:77-81 | an angle drawn within its bounds is in the band whatever its direction flag, so the band holds after `Start` and after every reset |
| Oscillator.RunKeepsBand | Assets/GameManager.cs:141-167 | the band holds after any number of oscillation steps |
| Oscillator.RunStaysNearBounds | Assets/GameManager.cs:141-167 | an axis starting within [min, max] stays within [min - inc, max + inc] under any number of steps |
| Oscillator.OvershootExample | Assets/GameManager.cs:141-167 | the overshoot really happens: 4.5 ascending in [-5, 5] by 1 goes to 5.5 and turns, then comes back to 4.5 |
| DieSelection.Cycle | Assets/GameManager.cs:121-128 | the modular reference step always gives an index in [0, count-1] |
| DieSelection.CycleCases | Assets/GameManager.cs:123-128 | Next from the last index wraps to 0, Previous from 0 wraps to count-1, and otherwise the index moves by one |
| DieSelection.CycleInverse | Assets/GameManager.cs:121-128 | Previous undoes Next and Next undoes Previous |
| DieSelection.Presses | Assets/GameManager.cs:121-128 | any number of presses keeps the index in range |
| DieSelection.PressesAdvance | Assets/GameManager.cs:121-128 | k presses of Next move the selection k prefabs forward, modulo the count |
| DieSelection.PressesRetreat | Assets/GameManager.cs:121-128 | k presses of Previous move the selection k prefabs back, modulo the count |
| DieSelection.FullCycle | Assets/GameManager.cs:121-128 | `count` presses of Next return to the starting prefab |
| Settle.Frame | Assets/GameManager.cs:195-200 | together with the timer step of lines 111-112: the die waits exactly when it is slower than `minMagnitude`; a faster die zeroes the timer; the timer grows only while it had not passed the wait, by at most the frame's duration, so it ends at most one frame past the wait, and never goes below zero |
| Settle.RunBounded | Assets/GameManager.cs:111-112 | with frames at most `maxDelta` long, the timer stays in [0, settleWaitTime + maxDelta] over any run of frames |
| Settle.MovingDieRestartsTimer | Assets/GameManager.cs:195-200 | a run whose last frame sees the die at or above the threshold ends with the timer cleared and not waiting |
| Settle.ThreeFrameScenario | Assets/GameManager.cs:111-115 | with threshold 0.05, wait 0.4 and frames of 0.2, a slow die reaches exactly 0.4 after two frames (not yet settled) and is settled after three, while a die at speed 0.2 never accumulates time |
| RollModel.SequencedIsOnePhase | Assets/GameManager.cs:85-250 | the sequencing invariant pins the flags, the panels, the camera's tweens, and the settle timer where the phase fixes it (zero before the throw, within the wait while thrown) to exactly the combination of one phase, and no combination belongs to two phases; the die's flights home are left free |
| RollModel.InstantiateDie | Assets/GameManager.cs:62-73 | instantiating counts one spawn and leaves the new die's position frozen; nothing else changes |
| RollModel.Start | Assets/GameManager.cs:50-60 | `Start` selects prefab 0, takes the drawn angles, spawns once and starts no tween; with a usable configuration and angles in bounds the state is valid and in phase Ready |
| RollModel.ChangeDie | Assets/GameManager.cs:121-131 | changing the die alters only the index, respawns (one more spawn, position frozen) and does not redraw the angles or touch any flag |
| RollModel.ChangeDieCycles | Assets/GameManager.cs:121-128 | the if-chain of `ChangeDie` computes the same index as the modular step `Cycle` |
| RollModel.CalculateRotation | Assets/GameManager.cs:133-168 | one step keeps the oscillator band of all three axes and changes nothing but the angles and their direction flags |
| RollModel.RandomiseAngularVelocity | Assets/GameManager.cs:75-82 | the drawn angles become `dieRotation`; the direction flags, the selection and everything else stay as they are |
| RollModel.CheckDieIsAtRest | Assets/GameManager.cs:195-201 | the die is waiting to settle exactly when it is slower than `minMagnitude`; otherwise the timer is zeroed; nothing else changes |
| RollModel.MoveCamera | Assets/GameManager.cs:203-213 | starts the camera's flight to the die, counts it once and sets `cameraMoved`, leaving the timer, the flags, the panels, the other tweens and the other counters alone |
| RollModel.WaitForSettle | Assets/GameManager.cs:111-115 | the timer grows by the frame's duration exactly while the die waits and has not passed the wait; the camera's flight starts (counted once) exactly when it has not moved yet and the timer is now strictly past the wait; `waitingToSettle`, the flags, the scene, the tumble, the other tweens and counters are untouched |
| RollModel.QuitCheck | Assets/GameManager.cs:87-88 | quit ends up requested exactly when it already was or Quit was pressed while `canThrow` held; nothing else changes |
| RollModel.BeginsThrow | Assets/GameManager.cs:92-97 | a frame that begins a throw has Jump pressed in phase Ready |
| RollModel.BeginsThrowExactlyInReady | Assets/GameManager.cs:92-97 | under the sequencing laws, a frame begins a throw exactly when Jump is pressed in phase Ready |
| RollModel.BeginThrow | Assets/GameManager.cs:98-100 | the throw frame sets `throwing`, clears `canThrow`, counts the throw and changes nothing else before returning |
| RollModel.FrameBody | Assets/GameManager.cs:90-109 | the middle of a frame never changes the flags, the tweens or any counter but the spawns; a thrown die gets the rest check, a pending throw changes nothing, an idle die steps all three axes as `Step` does and keeps the timer |
| RollModel.ResetOnJump | Assets/GameManager.cs:117-118 | without Jump while `canReset` holds nothing changes; with it the reset is counted, `canReset` cleared and the new angles taken |
| RollModel.Update | Assets/GameManager.cs:85-119 | a frame never enables throwing, never applies an impulse, spawns at most once, and starts the camera's flight only if the camera had not moved |
| RollModel.Reset | Assets/GameManager.cs:225-250 | without `canReset` nothing changes. Otherwise it clears `canReset`, `throwing`, `thrown`, the settle timer and `cameraMoved`; hides the result panel and leaves the other scene fields alone; starts the camera's and the die's flights home, leaving the flight to the die as it was; redraws the angles; leaves `canThrow` unchanged |
| RollModel.Throw | Assets/GameManager.cs:182-193 | once thrown it does nothing; otherwise it sets `thrown`, applies exactly one impulse, hides the pre-throw panel and unfreezes the die; the tumble, the timer, the tweens and the other scene fields never change |
| RollModel.FixedUpdate | Assets/GameManager.cs:170-180 | a physics step sets `thrown` exactly when a throw is under way, changes no other flag, no tumble, timer, tween or counter but the impulses, hands an idle die `dieRotation` as its spin with the rest of the scene kept, and never touches the result panel or the quit request |
| RollModel.OnCameraAtDie | Assets/GameManager.cs:206-210 | the completion sets only `canReset`, shows the result panel and ends the flight to the die; every other field stays |
| RollModel.OnCameraHome | Assets/GameManager.cs:235-239 | the completion sets only `canThrow`, shows the pre-throw panel and ends the flight home; every other field stays |
| RollModel.OnDieHome | Assets/GameManager.cs:245 | one flight home fewer is in flight and the die's position is frozen; every other field stays |
| RollModel.UpdatePreservesValid | Assets/GameManager.cs:85-119 | every frame with a non-negative duration and in-bounds angles keeps the invariant: the index in range, the oscillator band, the timer not negative, the sequencing of the flags and panels, and the impulse and camera counters |
| RollModel.FrameBodyPreservesValid | Assets/GameManager.cs:90-109 | the rest check, the die change and the rotation step of a frame that does not begin a throw keep the invariant |
| RollModel.WaitForSettlePreservesValid | Assets/GameManager.cs:111-115 | the settle-timer step and the camera move keep the invariant |
| RollModel.ResetOnJumpPreservesValid | Assets/GameManager.cs:117-118 | the reset on Jump keeps the invariant, the oscillator band included |
| RollModel.UpdatePhase | Assets/GameManager.cs:85-119 | the phase a frame leads to: Jump throws from Ready and resets from ReadyToReset, a Thrown die moves to CameraToDie exactly when its timer has passed the wait, and every other phase stays where it is |
| RollModel.QuitOnlyWhenThrowAllowed | Assets/GameManager.cs:87-88 | after a frame, quit has been requested exactly when it already was, or Quit was pressed while `canThrow` held |
| RollModel.ThrowFrameReturnsEarly | Assets/GameManager.cs:92-100 | the frame in which Jump begins a throw sets `throwing`, clears `canThrow` and returns: no die change, no rotation step, no settle or camera update, no reset, no impulse |
| RollModel.IdleFrame | Assets/GameManager.cs:92-108 | with no throw under way, Next/Previous change the die only while `canThrow` holds, Next winning over Previous; the oscillation steps also while the camera is on its way home |
| RollModel.AirborneFrame | Assets/GameManager.cs:90-108 | once Jump has been pressed, and until the reset, the selected die and the angles stand still and nothing is spawned |
| RollModel.ThrownFrameTimer | Assets/GameManager.cs:90-112 | while thrown, a frame moves the settle timer exactly as `Settle.Frame` does |
| RollModel.CameraMovesOnSettle | Assets/GameManager.cs:114-115 | a frame starts the camera's flight to the die exactly when it ends the Thrown phase, and at most once |
| RollModel.SettledMovesCamera | Assets/GameManager.cs:111-115 | the frame that counts the wait past its limit moves the camera in that same frame |
| RollModel.FrameResets | Assets/GameManager.cs:117-118 | a frame resets exactly when Jump is pressed while `canReset` holds, and the reset takes the new angles and leads to phase Returning |
| RollModel.FixedUpdatePreservesValid | Assets/GameManager.cs:170-193 | the physics step keeps the invariant |
| RollModel.FixedUpdateThrows | Assets/GameManager.cs:170-193 | the physics step applies the impulse exactly when a throw is pending, moving Throwing to Thrown and releasing the die; an idle die is handed `dieRotation` as its angular velocity |
| RollModel.ThrownStaysPut | Assets/GameManager.cs:176-186 | once thrown, physics steps change nothing |
| RollModel.PhysicsStepsThrowOnce | Assets/GameManager.cs:176-192 | however many physics steps pass after Jump, the throw gets exactly one impulse |
| RollModel.OnCameraAtDieEnablesReset | Assets/GameManager.cs:206-210 | the camera's arrival at the die comes in phase CameraToDie, shows the result panel and enables the reset, keeping the invariant |
| RollModel.OnCameraHomeEnablesThrow | Assets/GameManager.cs:235-239 | the camera's arrival home comes in phase Returning, shows the pre-throw panel and re-enables throwing, keeping the invariant |
| RollModel.OnDieHomeKeepsPhase | Assets/GameManager.cs:245 | the die's arrival home refreezes its position and keeps the invariant and the phase, in every phase the model allows it (the model does not tie it to the camera's arrival home, which the source completes in the same tween update) |
| RollModel.ApplyPreservesValid | Assets/GameManager.cs:85-250 | every event the engine can deliver (a frame, a physics step, a pending tween's completion) keeps the invariant |
| RollModel.RunPreservesValid | Assets/GameManager.cs:85-250 | any sequence of such events keeps the invariant |
| RollModel.OneShotLaws | Assets/GameManager.cs:50-250 | from `Start`, whatever happens: every throw begun gets at most one impulse and only the one in flight can still lack it; the camera flies to the die at most once more than there were resets; the selected prefab is always valid |
| RollSequencer.GameManager.constructor | Assets/GameManager.cs:50-60 | `Start` on the object reaches `RollModel.Start`, so with a non-negative wait the object is valid and Ready |
| RollSequencer.GameManager.InstantiateDie | Assets/GameManager.cs:62-73 | the object reaches `RollModel.InstantiateDie`; the selected prefab must exist |
| RollSequencer.GameManager.RandomiseAngularVelocity | Assets/GameManager.cs:75-82 | takes three angles, each within its bounds, as `dieRotation`, and changes nothing else |
| RollSequencer.GameManager.Update | Assets/GameManager.cs:85-119 | a frame, in statement order and with the early return, reaches `RollModel.Update` and keeps `Valid()` |
| RollSequencer.GameManager.WaitForSettle | Assets/GameManager.cs:111-115 | the settle-timer step and the camera move reach `RollModel.WaitForSettle` |
| RollSequencer.GameManager.ChangeDie | Assets/GameManager.cs:121-131 | the object reaches `RollModel.ChangeDie` whatever the index was before |
| RollSequencer.GameManager.CalculateRotation | Assets/GameManager.cs:133-168 | the three axis steps reach `RollModel.CalculateRotation` |
| RollSequencer.GameManager.FixedUpdate | Assets/GameManager.cs:170-180 | the physics step reaches `RollModel.FixedUpdate` and keeps `Valid()` |
| RollSequencer.GameManager.Throw | Assets/GameManager.cs:182-193 | reaches `RollModel.Throw`: a no-op once thrown |
| RollSequencer.GameManager.CheckDieIsAtRest | Assets/GameManager.cs:195-201 | reaches `RollModel.CheckDieIsAtRest` for the given speed |
| RollSequencer.GameManager.MoveCamera | Assets/GameManager.cs:203-213 | starts the camera's flight, counts it and sets `cameraMoved` (`RollModel.MoveCamera`) |
| RollSequencer.GameManager.OnCameraAtDie | Assets/GameManager.cs:206-210 | the completion reaches `RollModel.OnCameraAtDie` and keeps `Valid()` |
| RollSequencer.GameManager.Reset | Assets/GameManager.cs:225-250 | reaches `RollModel.Reset`: a no-op without `canReset` |
| RollSequencer.GameManager.ReturnToStart | Assets/GameManager.cs:230-249 | sets exactly the fields `Reset` changes after its guard to their new values: flags cleared, timer zero, panel hidden, both flights home started, new angles |
| RollSequencer.GameManager.OnCameraHome | Assets/GameManager.cs:235-239 | the completion reaches `RollModel.OnCameraHome` and keeps `Valid()` |
| RollSequencer.GameManager.OnDieHome | Assets/GameManager.cs:245 | the completion reaches `RollModel.OnDieHome` and keeps `Valid()` |

## Left out

- Destroying the dice tagged "Die" and instantiating the prefab (lines
  64-72) are engine object management. A spawn is recorded only as
  `tally.spawnCount`, and the loop over the tagged dice is not modelled.
- Rigid-body physics is external:
  - The die's speed (`velocity.magnitude`) is an input of `Update`.
  - `angularVelocity` is recorded in `scene`.
  - The position constraints are recorded as one flag, `constraintsFrozen`.
  - `AddForce(throwVelocity)` is counted as `tally.impulseCount`; the force
    vector is not modelled.
- LeanTween animation and easing are a foreign library:
  - Not modelled: `Tween`, `moveX/Y/Z`, `rotate`, `setEase` (lines 215-223),
    the camera offsets and rotations, and the saved camera pose (lines
    52-53).
  - A started tween is recorded as pending in `tweens`.
  - Each completion is a method that requires its tween to be pending, since
    the library calls a completion once, after its tween was started.
  - The die's flights home are counted. The model does not track tween
    durations, so it lets a die flight home still be pending when the next
    roll begins.
- Tween durations and the shared timing of the flights home: the source
  starts the camera's and the die's flights home in the same `Reset` call
  with the same `cameraMoveDuration` (lines 234 and 244), so both complete in
  the same tween update, before the next throw can begin. The model lets the
  two completions come in either order and at any later point, so its
  `Valid` admits states (a die flight home pending in phase Thrown, say) the
  source never reaches; every law proved over `Valid` covers them too.
- `Random.Range` becomes three parameters, each required to lie within its
  bounds. This presumes each range has its lower bound at or below its
  upper one.
- `Application.Quit` becomes the `quitRequested` flag. Canvas `SetActive`
  becomes the two visibility flags. `Debug.Log` (line 135) is left out.
- `Input.GetButtonDown` and `Time.deltaTime` become parameters of `Update`.
  The frame's duration is required to be non-negative.
- Unity's `float`, `Vector3` and `float2` are modelled as exact `real`s.
  IEEE rounding is not modelled.
- The scene before `Start` is taken to have the pre-throw panel shown, the
  post-throw panel hidden and no tween in flight. The scene file is not
  part of this model.
- RollSequencer.GameManager.constructor: establishes `Valid()` only for a
  non-negative `settleWaitTime`. With a negative wait, the first idle frame
  would start the camera's flight before any throw, which the invariant
  rules out.
- RollModel.InstantiateDie: a spawned die is taken to start with its
  position frozen. Line 72 only instantiates the prefab, so the constraints
  are whatever the prefab asset holds, and the assets are not part of this
  model.
- RollSequencer.GameManager.constructor: requires at least one prefab
  (`ConfigOk` asks the same). With an empty array, `Start` throws at line
  71 and leaves `currentDie` null, so every later `FixedUpdate` fails at
  line 174. That error path is not modelled.
