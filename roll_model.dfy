/** The roll sequencer as a value: the state the game manager keeps, one
    function per operation on it, the invariant every operation keeps and
    the sequencing laws of a roll. The `GameManager` class is proved to
    follow these functions. */
module RollModel {
  import opened Oscillator
  import DieSelection
  import Settle

  /** The Inspector configuration the logic reads. */
  datatype Config = Config(
    diePrefabCount: int,  // diePrefabs.Length
    dieXRotationBounds: Bounds,
    dieYRotationBounds: Bounds,
    dieZRotationBounds: Bounds,
    rotationIncrement: real,
    minMagnitude: real,
    settleWaitTime: real)

  /** A usable configuration: at least one prefab, a wait that is not negative. */
  predicate ConfigOk(c: Config) {
    c.diePrefabCount > 0 && c.settleWaitTime >= 0.0
  }

  /** The "Pre-Throw" fields: the selected prefab and the idle oscillation. */
  datatype PreThrow = PreThrow(
    diePrefabIndex: int,
    dieRotation: Vec3,
    dieXRotationAscending: bool,
    dieYRotationAscending: bool,
    dieZRotationAscending: bool)

  /** The "Post-Throw" fields: the settle timer and the camera's one-shot flag. */
  datatype PostThrow = PostThrow(
    waitingToSettle: bool,
    currentSettleWaitTime: real,
    cameraMoved: bool)

  /** The four gates of the roll. */
  datatype Flags = Flags(canThrow: bool, throwing: bool, thrown: bool, canReset: bool)

  /** What the engine shows or holds: the two panels, the die's positional
      constraints, the last angular velocity handed to its rigid body, and
      whether the application was asked to quit. */
  datatype Scene = Scene(
    preThrowVisible: bool,
    postThrowVisible: bool,
    constraintsFrozen: bool,  // FreezePosition (true) or None (false)
    angularVelocity: Vec3,
    quitRequested: bool)

  /** Tweens started and not yet complete. */
  datatype Tweens = Tweens(
    cameraToDiePending: bool,  // the camera's flight to the die
    cameraHomePending: bool,   // the camera's flight home
    dieHomePending: nat)       // the die's flights home

  /** Counters of the effects the laws are about. */
  datatype Tally = Tally(
    impulseCount: nat,     // throw impulses applied
    cameraMoveCount: nat,  // camera flights to the die started
    spawnCount: nat,       // dice instantiated
    throwsBegun: nat,      // frames in which Jump began a throw
    resetCount: nat)       // resets performed

  datatype State = State(
    pre: PreThrow, post: PostThrow, flags: Flags, scene: Scene, tweens: Tweens, tally: Tally)

  /** What one rendered frame reads: the buttons pressed this frame, the
      frame's duration, the die's speed, and the three angles `Random.Range`
      would draw should the frame reset. */
  datatype FrameInput = FrameInput(
    jump: bool, next: bool, previous: bool, quit: bool,
    deltaTime: real, speed: real, roll: Vec3)

  /** The phases of a roll; a valid state is in exactly one. */
  datatype RollState =
    | Ready         // may throw, change die or quit
    | Returning     // reset done, camera on its way home
    | Throwing      // Jump pressed, impulse waits for the next physics step
    | Thrown        // impulse applied, waiting for the die to settle
    | CameraToDie   // settled, camera on its way to the die
    | ReadyToReset  // camera at the die, Jump resets

  function XAxis(s: State): Axis { Axis(s.pre.dieRotation.x, s.pre.dieXRotationAscending) }
  function YAxis(s: State): Axis { Axis(s.pre.dieRotation.y, s.pre.dieYRotationAscending) }
  function ZAxis(s: State): Axis { Axis(s.pre.dieRotation.z, s.pre.dieZRotationAscending) }

  function SettleTimer(s: State): Settle.Timer {
    Settle.Timer(s.post.waitingToSettle, s.post.currentSettleWaitTime)
  }

  predicate OscillationBanded(c: Config, s: State) {
    Banded(XAxis(s), c.dieXRotationBounds, c.rotationIncrement) &&
    Banded(YAxis(s), c.dieYRotationBounds, c.rotationIncrement) &&
    Banded(ZAxis(s), c.dieZRotationBounds, c.rotationIncrement)
  }

  // ---------------------------------------------------------------------
  // Phases and the invariant
  // ---------------------------------------------------------------------

  /** The phase the flags are in. */
  function Phase(s: State): RollState {
    if s.flags.canThrow then Ready
    else if !s.flags.throwing then Returning
    else if !s.flags.thrown then Throwing
    else if !s.post.cameraMoved then Thrown
    else if !s.flags.canReset then CameraToDie
    else ReadyToReset
  }

  /** How the flags, the timer, the panels and the tweens in flight
      constrain one another. */
  predicate Sequenced(c: Config, s: State) {
    var f := s.flags;
    (f.canThrow ==> !f.throwing) &&
    (f.thrown ==> f.throwing) &&
    (s.post.cameraMoved ==> f.thrown) &&
    (f.canReset ==> s.post.cameraMoved) &&
    (!f.thrown ==> !s.post.waitingToSettle && s.post.currentSettleWaitTime == 0.0) &&
    (f.thrown && !s.post.cameraMoved ==> s.post.currentSettleWaitTime <= c.settleWaitTime) &&
    (s.tweens.cameraToDiePending <==> s.post.cameraMoved && !f.canReset) &&
    (s.tweens.cameraHomePending <==> !f.canThrow && !f.throwing) &&
    (s.scene.preThrowVisible <==> f.canThrow || (f.throwing && !f.thrown)) &&
    (s.scene.postThrowVisible <==> f.canReset)
  }

  /** The object invariant: a usable configuration, a selectable die, the
      oscillator band, the sequencing of the flags, and the two one-shot
      laws as counters: every throw begun gets exactly one impulse, and the
      camera flies to the die once per reset interval. */
  predicate Valid(c: Config, s: State) {
    ConfigOk(c) &&
    0 <= s.pre.diePrefabIndex < c.diePrefabCount &&
    (c.rotationIncrement >= 0.0 ==> OscillationBanded(c, s)) &&
    s.post.currentSettleWaitTime >= 0.0 &&
    s.tally.throwsBegun ==
      s.tally.impulseCount + (if s.flags.throwing && !s.flags.thrown then 1 else 0) &&
    s.tally.cameraMoveCount == s.tally.resetCount + (if s.post.cameraMoved then 1 else 0) &&
    Sequenced(c, s)
  }

  /** The complete flag combination of each phase: the gates, the camera
      flag, the settle timer, the tweens in flight and the two panels. */
  predicate InPhase(c: Config, s: State, p: RollState) {
    var f, post, t, sc := s.flags, s.post, s.tweens, s.scene;
    match p
    case Ready =>
      f == Flags(true, false, false, false) && !post.cameraMoved &&
      !post.waitingToSettle && post.currentSettleWaitTime == 0.0 &&
      !t.cameraToDiePending && !t.cameraHomePending && sc.preThrowVisible && !sc.postThrowVisible
    case Returning =>
      f == Flags(false, false, false, false) && !post.cameraMoved &&
      !post.waitingToSettle && post.currentSettleWaitTime == 0.0 &&
      !t.cameraToDiePending && t.cameraHomePending && !sc.preThrowVisible && !sc.postThrowVisible
    case Throwing =>
      f == Flags(false, true, false, false) && !post.cameraMoved &&
      !post.waitingToSettle && post.currentSettleWaitTime == 0.0 &&
      !t.cameraToDiePending && !t.cameraHomePending && sc.preThrowVisible && !sc.postThrowVisible
    case Thrown =>
      f == Flags(false, true, true, false) && !post.cameraMoved &&
      post.currentSettleWaitTime <= c.settleWaitTime &&
      !t.cameraToDiePending && !t.cameraHomePending && !sc.preThrowVisible && !sc.postThrowVisible
    case CameraToDie =>
      f == Flags(false, true, true, false) && post.cameraMoved &&
      t.cameraToDiePending && !t.cameraHomePending && !sc.preThrowVisible && !sc.postThrowVisible
    case ReadyToReset =>
      f == Flags(false, true, true, true) && post.cameraMoved &&
      !t.cameraToDiePending && !t.cameraHomePending && !sc.preThrowVisible && sc.postThrowVisible
  }

  /** The sequencing laws pin the flags down to exactly the combination of
      the state's phase, and no flag combination belongs to two phases. */
  lemma SequencedIsOnePhase(c: Config, s: State, p: RollState)
    ensures Sequenced(c, s) ==> InPhase(c, s, Phase(s))
    ensures InPhase(c, s, p) ==> Sequenced(c, s) && p == Phase(s)
  {
  }

  // ---------------------------------------------------------------------
  // The operations, in the order of the source
  // ---------------------------------------------------------------------

  /** Replace the die by a fresh instance of the selected prefab, whose
      position starts frozen. */
  function InstantiateDie(s: State): (r: State)
    ensures r.tally.spawnCount == s.tally.spawnCount + 1 && r.scene.constraintsFrozen
    ensures r.pre == s.pre && r.post == s.post && r.flags == s.flags && r.tweens == s.tweens
    ensures r.scene == s.scene.(constraintsFrozen := true)
    ensures r.tally == s.tally.(spawnCount := r.tally.spawnCount)
  {
    s.(scene := s.scene.(constraintsFrozen := true),
       tally := s.tally.(spawnCount := s.tally.spawnCount + 1))
  }

  /** Take the three angles drawn within their bounds; the direction flags
      stay as they are. */
  function RandomiseAngularVelocity(s: State, roll: Vec3): (r: State)
    ensures r.pre.dieRotation == roll
    ensures r.pre.diePrefabIndex == s.pre.diePrefabIndex
    ensures r.pre.dieXRotationAscending == s.pre.dieXRotationAscending &&
            r.pre.dieYRotationAscending == s.pre.dieYRotationAscending &&
            r.pre.dieZRotationAscending == s.pre.dieZRotationAscending
    ensures r.post == s.post && r.flags == s.flags && r.scene == s.scene
    ensures r.tweens == s.tweens && r.tally == s.tally
  {
    s.(pre := s.pre.(dieRotation := roll))
  }

  /** `Start`: spawn the first prefab, draw the first angles, allow
      throwing. The scene starts with the pre-throw panel shown, the
      post-throw panel hidden. */
  function Start(c: Config, roll: Vec3): (r: State)
    ensures ConfigOk(c) && AllWithin(roll, c.dieXRotationBounds, c.dieYRotationBounds,
                                     c.dieZRotationBounds) ==>
      Valid(c, r) && Phase(r) == Ready
    ensures r.pre.diePrefabIndex == 0 && r.pre.dieRotation == roll && r.scene.constraintsFrozen
    ensures r.tally == Tally(0, 0, 1, 0, 0) && r.tweens == Tweens(false, false, 0)
  {
    var s := State(PreThrow(0, Vec3(0.0, 0.0, 0.0), false, false, false),
                   PostThrow(false, 0.0, false),
                   Flags(false, false, false, false),
                   Scene(true, false, false, Vec3(0.0, 0.0, 0.0), false),
                   Tweens(false, false, 0),
                   Tally(0, 0, 0, 0, 0));
    var s := RandomiseAngularVelocity(InstantiateDie(s), roll);
    s.(flags := s.flags.(canThrow := true))
  }

  /** Step the selected prefab forward or back with wrap-around and respawn
      the die; the oscillation is not redrawn. */
  function ChangeDie(c: Config, s: State, next: bool): (r: State)
    ensures r.pre == s.pre.(diePrefabIndex := r.pre.diePrefabIndex)
    ensures r.post == s.post && r.flags == s.flags && r.tweens == s.tweens
    ensures r.scene == s.scene.(constraintsFrozen := true)
    ensures r.tally == s.tally.(spawnCount := s.tally.spawnCount + 1)
  {
    var index := s.pre.diePrefabIndex + (if next then 1 else -1);
    var index' := if index >= c.diePrefabCount then 0
                  else if index < 0 then c.diePrefabCount - 1
                  else index;
    InstantiateDie(s.(pre := s.pre.(diePrefabIndex := index')))
  }

  /** The if-chain of `ChangeDie` agrees with the modular step. */
  lemma ChangeDieCycles(c: Config, s: State, next: bool)
    requires 0 <= s.pre.diePrefabIndex < c.diePrefabCount
    ensures ChangeDie(c, s, next).pre.diePrefabIndex ==
      DieSelection.Cycle(s.pre.diePrefabIndex, c.diePrefabCount, next)
  {
    DieSelection.CycleCases(s.pre.diePrefabIndex, c.diePrefabCount, next);
  }

  /** One ping-pong step of each of the three angles. */
  function CalculateRotation(c: Config, s: State): (r: State)
    ensures c.rotationIncrement >= 0.0 && OscillationBanded(c, s) ==> OscillationBanded(c, r)
    ensures r.pre.diePrefabIndex == s.pre.diePrefabIndex
    ensures r.post == s.post && r.flags == s.flags && r.scene == s.scene
    ensures r.tweens == s.tweens && r.tally == s.tally
  {
    var x := Step(XAxis(s), c.dieXRotationBounds, c.rotationIncrement);
    var y := Step(YAxis(s), c.dieYRotationBounds, c.rotationIncrement);
    var z := Step(ZAxis(s), c.dieZRotationBounds, c.rotationIncrement);
    s.(pre := s.pre.(dieXRotationAscending := x.ascending,
                     dieYRotationAscending := y.ascending,
                     dieZRotationAscending := z.ascending,
                     dieRotation := Vec3(x.value, y.value, z.value)))
  }

  /** The die is waiting to settle while it is slower than the threshold;
      otherwise the settle timer restarts. */
  function CheckDieIsAtRest(c: Config, s: State, speed: real): (r: State)
    ensures r.post.waitingToSettle <==> speed < c.minMagnitude
    ensures r.post.currentSettleWaitTime ==
      (if speed < c.minMagnitude then s.post.currentSettleWaitTime else 0.0)
    ensures r.post.cameraMoved == s.post.cameraMoved
    ensures r.pre == s.pre && r.flags == s.flags && r.scene == s.scene
    ensures r.tweens == s.tweens && r.tally == s.tally
  {
    var waiting := speed < c.minMagnitude;
    s.(post := s.post.(waitingToSettle := waiting,
                       currentSettleWaitTime :=
                         if waiting then s.post.currentSettleWaitTime else 0.0))
  }

  /** Start the camera's flight to the die. */
  function MoveCamera(s: State): (r: State)
    ensures r.post.cameraMoved && r.tweens.cameraToDiePending
    ensures r.tally.cameraMoveCount == s.tally.cameraMoveCount + 1
    ensures r.post.waitingToSettle == s.post.waitingToSettle &&
            r.post.currentSettleWaitTime == s.post.currentSettleWaitTime
    ensures r.pre == s.pre && r.flags == s.flags && r.scene == s.scene
    ensures r.tweens.cameraHomePending == s.tweens.cameraHomePending &&
            r.tweens.dieHomePending == s.tweens.dieHomePending
    ensures r.tally == s.tally.(cameraMoveCount := r.tally.cameraMoveCount)
  {
    s.(tweens := s.tweens.(cameraToDiePending := true),
       tally := s.tally.(cameraMoveCount := s.tally.cameraMoveCount + 1),
       post := s.post.(cameraMoved := true))
  }

  /** Lines 111-115 of `Update`: count the time the die has been waiting to
      settle, then move the camera once that exceeds the wait. */
  function WaitForSettle(c: Config, s: State, deltaTime: real): (r: State)
    ensures r.post.currentSettleWaitTime ==
      (if s.post.waitingToSettle && s.post.currentSettleWaitTime <= c.settleWaitTime
       then s.post.currentSettleWaitTime + deltaTime else s.post.currentSettleWaitTime)
    ensures r.tally.cameraMoveCount == s.tally.cameraMoveCount +
      (if !s.post.cameraMoved && r.post.currentSettleWaitTime > c.settleWaitTime then 1 else 0)
    ensures r.post.cameraMoved <==> s.post.cameraMoved || r.post.currentSettleWaitTime > c.settleWaitTime
    ensures r.pre == s.pre && r.flags == s.flags && r.scene == s.scene
    ensures r.post.waitingToSettle == s.post.waitingToSettle
    ensures r.tweens == (if r.post.cameraMoved && !s.post.cameraMoved
                         then s.tweens.(cameraToDiePending := true) else s.tweens)
    ensures r.tally == s.tally.(cameraMoveCount := r.tally.cameraMoveCount)
  {
    var s' := if s.post.waitingToSettle && s.post.currentSettleWaitTime <= c.settleWaitTime
              then s.(post := s.post.(currentSettleWaitTime :=
                                        s.post.currentSettleWaitTime + deltaTime))
              else s;
    if !s'.post.cameraMoved && s'.post.currentSettleWaitTime > c.settleWaitTime
    then MoveCamera(s') else s'
  }

  /** Go back to the pre-throw state, but only once the camera is at the
      die: hide the post-throw panel, send the camera and the die home,
      clear the settle timer and the one-shot flags, redraw the angles.
      Throwing stays disabled until the camera is home. */
  function Reset(s: State, roll: Vec3): (r: State)
    ensures !s.flags.canReset ==> r == s
    ensures s.flags.canReset ==>
      r.flags == s.flags.(canReset := false, throwing := false, thrown := false) &&
      r.post == PostThrow(false, 0.0, false) &&
      !r.scene.postThrowVisible && r.tweens.cameraHomePending &&
      r.pre == s.pre.(dieRotation := roll) &&
      r.tweens.dieHomePending == s.tweens.dieHomePending + 1 &&
      r.tally == s.tally.(resetCount := s.tally.resetCount + 1)
    ensures r.scene == s.scene.(postThrowVisible := r.scene.postThrowVisible)
    ensures r.tweens.cameraToDiePending == s.tweens.cameraToDiePending
  {
    if !s.flags.canReset then s
    else
      s.(flags := s.flags.(canReset := false, throwing := false, thrown := false),
         scene := s.scene.(postThrowVisible := false),
         tweens := s.tweens.(cameraHomePending := true,
                             dieHomePending := s.tweens.dieHomePending + 1),
         post := PostThrow(false, 0.0, false),
         pre := s.pre.(dieRotation := roll),
         tally := s.tally.(resetCount := s.tally.resetCount + 1))
  }

  /** Lines 87-88 of `Update`: Quit is honoured only while a throw is
      allowed. */
  function QuitCheck(s: State, quit: bool): (r: State)
    ensures r.scene.quitRequested <==> s.scene.quitRequested || (s.flags.canThrow && quit)
    ensures r == s.(scene := r.scene) && r.scene == s.scene.(quitRequested := r.scene.quitRequested)
  {
    if s.flags.canThrow && quit then s.(scene := s.scene.(quitRequested := true)) else s
  }

  /** Whether a frame begins a throw, and so returns at line 100. */
  predicate BeginsThrow(s: State, jump: bool): (b: bool)
    ensures b ==> jump && Phase(s) == Ready
  {
    !s.flags.thrown && !s.flags.throwing && s.flags.canThrow && jump
  }

  /** Under the sequencing laws, a frame begins a throw exactly when Jump
      is pressed in phase Ready. */
  lemma BeginsThrowExactlyInReady(c: Config, s: State, jump: bool)
    requires Sequenced(c, s)
    ensures BeginsThrow(s, jump) <==> jump && Phase(s) == Ready
  {
  }

  /** The state the frame that begins a throw returns with. */
  function BeginThrow(s: State): (r: State)
    ensures r.flags == s.flags.(throwing := true, canThrow := false)
    ensures r.tally == s.tally.(throwsBegun := s.tally.throwsBegun + 1)
    ensures r.pre == s.pre && r.post == s.post && r.scene == s.scene && r.tweens == s.tweens
  {
    s.(flags := s.flags.(throwing := true, canThrow := false),
       tally := s.tally.(throwsBegun := s.tally.throwsBegun + 1))
  }

  /** Lines 90-109 of `Update` on a frame that does not begin a throw:
      check the thrown die for rest, or choose the die and step the
      oscillation while no throw is under way. */
  function FrameBody(c: Config, s: State, i: FrameInput): (r: State)
    ensures r.flags == s.flags && r.tweens == s.tweens
    ensures r.tally == s.tally.(spawnCount := r.tally.spawnCount)
    ensures s.flags.thrown ==> r == CheckDieIsAtRest(c, s, i.speed)
    ensures s.flags.throwing && !s.flags.thrown ==> r == s
    ensures !s.flags.throwing && !s.flags.thrown ==>
      r.post == s.post &&
      XAxis(r) == Step(XAxis(s), c.dieXRotationBounds, c.rotationIncrement) &&
      YAxis(r) == Step(YAxis(s), c.dieYRotationBounds, c.rotationIncrement) &&
      ZAxis(r) == Step(ZAxis(s), c.dieZRotationBounds, c.rotationIncrement)
  {
    if s.flags.thrown then CheckDieIsAtRest(c, s, i.speed)
    else if !s.flags.throwing then
      CalculateRotation(c, if s.flags.canThrow && (i.next || i.previous)
                           then ChangeDie(c, s, i.next) else s)
    else s
  }

  /** Lines 117-118 of `Update`. */
  function ResetOnJump(s: State, i: FrameInput): (r: State)
    ensures !(s.flags.canReset && i.jump) ==> r == s
    ensures s.flags.canReset && i.jump ==>
      !r.flags.canReset && r.pre.dieRotation == i.roll &&
      r.tally.resetCount == s.tally.resetCount + 1
  {
    if s.flags.canReset && i.jump then Reset(s, i.roll) else s
  }

  /** One rendered frame: the quit check, then either the early return of
      a throw, or the frame body, the settle timer and the reset check. */
  function Update(c: Config, s: State, i: FrameInput): (r: State)
    ensures r.flags.canThrow ==> s.flags.canThrow
    ensures r.tally.impulseCount == s.tally.impulseCount
    ensures r.tally.spawnCount <= s.tally.spawnCount + 1
    ensures r.tweens.cameraToDiePending ==> s.tweens.cameraToDiePending || !s.post.cameraMoved
  {
    var q := QuitCheck(s, i.quit);
    if BeginsThrow(q, i.jump) then BeginThrow(q)
    else ResetOnJump(WaitForSettle(c, FrameBody(c, q, i), i.deltaTime), i)
  }

  /** Release the die and apply the throw impulse, unless already thrown. */
  function Throw(s: State): (r: State)
    ensures s.flags.thrown ==> r == s
    ensures !s.flags.thrown ==>
      r.flags == s.flags.(thrown := true) &&
      r.tally == s.tally.(impulseCount := s.tally.impulseCount + 1) &&
      !r.scene.preThrowVisible && !r.scene.constraintsFrozen
    ensures r.pre == s.pre && r.post == s.post && r.tweens == s.tweens
    ensures r.scene.postThrowVisible == s.scene.postThrowVisible &&
            r.scene.angularVelocity == s.scene.angularVelocity &&
            r.scene.quitRequested == s.scene.quitRequested
  {
    if s.flags.thrown then s
    else
      s.(flags := s.flags.(thrown := true),
         scene := s.scene.(preThrowVisible := false, constraintsFrozen := false),
         tally := s.tally.(impulseCount := s.tally.impulseCount + 1))
  }

  /** One physics step: spin the idle die, or apply the pending throw. */
  function FixedUpdate(s: State): (r: State)
    ensures r.flags == s.flags.(thrown := s.flags.thrown || s.flags.throwing)
    ensures r.pre == s.pre && r.post == s.post && r.tweens == s.tweens
    ensures r.tally == s.tally.(impulseCount := r.tally.impulseCount)
    ensures !s.flags.throwing ==> r.scene == s.scene.(angularVelocity := s.pre.dieRotation)
    ensures s.flags.throwing ==> r.scene.angularVelocity == s.scene.angularVelocity
    ensures r.scene.postThrowVisible == s.scene.postThrowVisible &&
            r.scene.quitRequested == s.scene.quitRequested
  {
    if !s.flags.throwing then s.(scene := s.scene.(angularVelocity := s.pre.dieRotation))
    else if !s.flags.thrown then Throw(s)
    else s
  }

  /** Completion of the camera's flight to the die. */
  function OnCameraAtDie(s: State): (r: State)
    ensures r.flags == s.flags.(canReset := true) && r.scene.postThrowVisible
    ensures r.scene == s.scene.(postThrowVisible := true)
    ensures r.tweens == s.tweens.(cameraToDiePending := false)
    ensures r.pre == s.pre && r.post == s.post && r.tally == s.tally
  {
    s.(tweens := s.tweens.(cameraToDiePending := false),
       scene := s.scene.(postThrowVisible := true),
       flags := s.flags.(canReset := true))
  }

  /** Completion of the camera's flight home. */
  function OnCameraHome(s: State): (r: State)
    ensures r.flags == s.flags.(canThrow := true) && r.scene.preThrowVisible
    ensures r.scene == s.scene.(preThrowVisible := true)
    ensures r.tweens == s.tweens.(cameraHomePending := false)
    ensures r.pre == s.pre && r.post == s.post && r.tally == s.tally
  {
    s.(tweens := s.tweens.(cameraHomePending := false),
       scene := s.scene.(preThrowVisible := true),
       flags := s.flags.(canThrow := true))
  }

  /** Completion of one of the die's flights home. */
  function OnDieHome(s: State): (r: State)
    requires s.tweens.dieHomePending > 0
    ensures r.tweens.dieHomePending == s.tweens.dieHomePending - 1 && r.scene.constraintsFrozen
    ensures r.flags == s.flags && r.pre == s.pre && r.post == s.post && r.tally == s.tally
    ensures r.scene == s.scene.(constraintsFrozen := true)
    ensures r.tweens == s.tweens.(dieHomePending := r.tweens.dieHomePending)
  {
    s.(tweens := s.tweens.(dieHomePending := s.tweens.dieHomePending - 1),
       scene := s.scene.(constraintsFrozen := true))
  }

  // ---------------------------------------------------------------------
  // Laws of one frame
  // ---------------------------------------------------------------------

  /** A frame input the engine can produce: a duration that is not
      negative and angles inside their bounds. */
  predicate InputOk(c: Config, i: FrameInput) {
    i.deltaTime >= 0.0 &&
    AllWithin(i.roll, c.dieXRotationBounds, c.dieYRotationBounds, c.dieZRotationBounds)
  }

  lemma UpdatePreservesValid(c: Config, s: State, i: FrameInput)
    requires Valid(c, s) && InputOk(c, i)
    ensures Valid(c, Update(c, s, i))
  {
    var q := QuitCheck(s, i.quit);
    assert Valid(c, q);
    if !BeginsThrow(q, i.jump) {
      var b := FrameBody(c, q, i);
      FrameBodyPreservesValid(c, q, i);
      var w := WaitForSettle(c, b, i.deltaTime);
      WaitForSettlePreservesValid(c, b, i.deltaTime);
      ResetOnJumpPreservesValid(c, w, i);
    }
  }

  lemma FrameBodyPreservesValid(c: Config, s: State, i: FrameInput)
    requires Valid(c, s) && !BeginsThrow(s, i.jump)
    ensures Valid(c, FrameBody(c, s, i))
  {
  }

  lemma WaitForSettlePreservesValid(c: Config, s: State, deltaTime: real)
    requires Valid(c, s) && deltaTime >= 0.0
    ensures Valid(c, WaitForSettle(c, s, deltaTime))
  {
  }

  lemma ResetOnJumpPreservesValid(c: Config, s: State, i: FrameInput)
    requires Valid(c, s) && InputOk(c, i)
    ensures Valid(c, ResetOnJump(s, i))
  {
    if s.flags.canReset && i.jump && c.rotationIncrement >= 0.0 {
      WithinIsBanded(i.roll.x, s.pre.dieXRotationAscending, c.dieXRotationBounds, c.rotationIncrement);
      WithinIsBanded(i.roll.y, s.pre.dieYRotationAscending, c.dieYRotationBounds, c.rotationIncrement);
      WithinIsBanded(i.roll.z, s.pre.dieZRotationAscending, c.dieZRotationBounds, c.rotationIncrement);
    }
  }

  /** The phase a frame leads to: Jump throws from Ready and resets from
      ReadyToReset, a settled die sends the camera, nothing else moves. */
  lemma UpdatePhase(c: Config, s: State, i: FrameInput)
    requires Valid(c, s)
    ensures var r := Update(c, s, i);
      match Phase(s)
      case Ready => Phase(r) == (if i.jump then Throwing else Ready)
      case Returning => Phase(r) == Returning
      case Throwing => Phase(r) == Throwing
      case Thrown =>
        Phase(r) == (if Settle.Settled(SettleTimer(r), c.settleWaitTime) then CameraToDie else Thrown)
      case CameraToDie => Phase(r) == CameraToDie
      case ReadyToReset => Phase(r) == (if i.jump then Returning else ReadyToReset)
  {
  }

  /** Quit is honoured only while a throw is allowed. */
  lemma QuitOnlyWhenThrowAllowed(c: Config, s: State, i: FrameInput)
    ensures Update(c, s, i).scene.quitRequested ==
      (s.scene.quitRequested || (s.flags.canThrow && i.quit))
  {
  }

  /** The frame that begins a throw returns at once: apart from the quit
      request it changes only the two throw flags. */
  lemma ThrowFrameReturnsEarly(c: Config, s: State, i: FrameInput)
    requires Valid(c, s) && Phase(s) == Ready && i.jump
    ensures Update(c, s, i) ==
      s.(flags := s.flags.(throwing := true, canThrow := false),
         scene := s.scene.(quitRequested := s.scene.quitRequested || i.quit),
         tally := s.tally.(throwsBegun := s.tally.throwsBegun + 1))
  {
  }

  /** Idle frames pick the die (Next winning over Previous, and only while a
      throw is allowed) and then step the oscillation, also while the
      camera is still on its way home. */
  lemma IdleFrame(c: Config, s: State, i: FrameInput)
    requires Valid(c, s) && !s.flags.throwing && !(s.flags.canThrow && i.jump)
    ensures var r := Update(c, s, i);
      var change := s.flags.canThrow && (i.next || i.previous);
      r.pre.diePrefabIndex ==
        (if change then DieSelection.Cycle(s.pre.diePrefabIndex, c.diePrefabCount, i.next)
         else s.pre.diePrefabIndex) &&
      r.tally.spawnCount == s.tally.spawnCount + (if change then 1 else 0) &&
      XAxis(r) == Step(XAxis(s), c.dieXRotationBounds, c.rotationIncrement) &&
      YAxis(r) == Step(YAxis(s), c.dieYRotationBounds, c.rotationIncrement) &&
      ZAxis(r) == Step(ZAxis(s), c.dieZRotationBounds, c.rotationIncrement)
  {
    var q := QuitCheck(s, i.quit);
    if q.flags.canThrow && (i.next || i.previous) {
      ChangeDieCycles(c, q, i.next);
    }
  }

  /** Once Jump has been pressed the selection and the oscillation stand
      still until the reset. */
  lemma AirborneFrame(c: Config, s: State, i: FrameInput)
    requires Valid(c, s) && s.flags.throwing && !(s.flags.canReset && i.jump)
    ensures var r := Update(c, s, i);
      r.pre == s.pre && r.tally.spawnCount == s.tally.spawnCount
  {
  }

  /** While the die is thrown the settle timer follows `Settle.Frame`. */
  lemma ThrownFrameTimer(c: Config, s: State, i: FrameInput)
    requires Valid(c, s) && s.flags.thrown && !(s.flags.canReset && i.jump)
    ensures SettleTimer(Update(c, s, i)) ==
      Settle.Frame(SettleTimer(s), Settle.Sample(i.speed, i.deltaTime), c.minMagnitude,
                   c.settleWaitTime)
  {
  }

  /** A frame starts the camera's flight to the die only when it ends the
      Thrown phase. */
  lemma CameraMovesOnSettle(c: Config, s: State, i: FrameInput)
    requires Valid(c, s)
    ensures var r := Update(c, s, i);
      r.tally.cameraMoveCount ==
        s.tally.cameraMoveCount + (if Phase(s) == Thrown && Phase(r) == CameraToDie then 1 else 0)
  {
    UpdatePhase(c, s, i);
  }

  /** The first frame that counts the wait past its limit moves the camera
      in the same frame. */
  lemma SettledMovesCamera(c: Config, s: State, i: FrameInput)
    requires Valid(c, s) && Phase(s) == Thrown
    requires Settle.Settled(Settle.Frame(SettleTimer(s), Settle.Sample(i.speed, i.deltaTime),
                                         c.minMagnitude, c.settleWaitTime), c.settleWaitTime)
    ensures Phase(Update(c, s, i)) == CameraToDie
  {
    ThrownFrameTimer(c, s, i);
    UpdatePhase(c, s, i);
  }

  /** A frame with Jump while the camera is at the die resets; otherwise no
      frame resets. */
  lemma FrameResets(c: Config, s: State, i: FrameInput)
    requires Valid(c, s)
    ensures var r := Update(c, s, i);
      r.tally.resetCount == s.tally.resetCount + (if s.flags.canReset && i.jump then 1 else 0) &&
      (s.flags.canReset && i.jump ==> r.pre.dieRotation == i.roll && Phase(r) == Returning)
  {
  }

  // ---------------------------------------------------------------------
  // Laws of the physics step and the tween callbacks
  // ---------------------------------------------------------------------

  lemma FixedUpdatePreservesValid(c: Config, s: State)
    requires Valid(c, s)
    ensures Valid(c, FixedUpdate(s))
  {
  }

  /** The physics step applies the impulse exactly when a throw is
      pending, and moves the roll from Throwing to Thrown. */
  lemma FixedUpdateThrows(c: Config, s: State)
    requires Valid(c, s)
    ensures var r := FixedUpdate(s);
      r.tally.impulseCount == s.tally.impulseCount + (if Phase(s) == Throwing then 1 else 0) &&
      Phase(r) == (if Phase(s) == Throwing then Thrown else Phase(s)) &&
      (Phase(s) == Throwing ==> !r.scene.preThrowVisible && !r.scene.constraintsFrozen) &&
      (!s.flags.throwing ==> r.scene.angularVelocity == s.pre.dieRotation)
  {
  }

  function PhysicsSteps(s: State, n: nat): State
    decreases n
  {
    if n == 0 then s else PhysicsSteps(FixedUpdate(s), n - 1)
  }

  /** Physics steps leave a thrown die's roll where it is. */
  lemma {:induction false} ThrownStaysPut(s: State, n: nat)
    requires s.flags.thrown && s.flags.throwing
    ensures PhysicsSteps(s, n) == s
    decreases n
  {
    if n > 0 {
      ThrownStaysPut(FixedUpdate(s), n - 1);
    }
  }

  /** However many physics steps pass, a single throw gets one impulse. */
  lemma PhysicsStepsThrowOnce(c: Config, s: State, n: nat)
    requires Valid(c, s) && Phase(s) == Throwing && n > 0
    ensures var r := PhysicsSteps(s, n);
      Valid(c, r) && r.tally.impulseCount == s.tally.impulseCount + 1 && Phase(r) == Thrown
  {
    FixedUpdateThrows(c, s);
    FixedUpdatePreservesValid(c, s);
    ThrownStaysPut(FixedUpdate(s), n - 1);
  }

  /** The camera's arrival at the die enables the reset. */
  lemma OnCameraAtDieEnablesReset(c: Config, s: State)
    requires Valid(c, s) && s.tweens.cameraToDiePending
    ensures Phase(s) == CameraToDie
    ensures Valid(c, OnCameraAtDie(s)) && Phase(OnCameraAtDie(s)) == ReadyToReset
  {
  }

  /** The camera's arrival home re-enables throwing. */
  lemma OnCameraHomeEnablesThrow(c: Config, s: State)
    requires Valid(c, s) && s.tweens.cameraHomePending
    ensures Phase(s) == Returning
    ensures Valid(c, OnCameraHome(s)) && Phase(OnCameraHome(s)) == Ready
  {
  }

  /** The die's arrival home freezes its position and keeps the phase. The
      model does not track tween durations, so it lets this completion come
      in any phase; the source completes it in the same tween update as the
      camera's arrival home. */
  lemma OnDieHomeKeepsPhase(c: Config, s: State)
    requires Valid(c, s) && s.tweens.dieHomePending > 0
    ensures Valid(c, OnDieHome(s)) && Phase(OnDieHome(s)) == Phase(s)
    ensures OnDieHome(s).scene.constraintsFrozen
  {
  }

  // ---------------------------------------------------------------------
  // Whole runs
  // ---------------------------------------------------------------------

  /** What can happen to the game manager: a rendered frame, a physics
      step, or the completion of one of the tweens it started. */
  datatype Event =
    | Frame(input: FrameInput)
    | PhysicsStep
    | CameraAtDie
    | CameraHome
    | DieHome

  /** A tween that is not in flight cannot complete. */
  function Apply(c: Config, s: State, e: Event): State {
    match e
    case Frame(i) => Update(c, s, i)
    case PhysicsStep => FixedUpdate(s)
    case CameraAtDie => if s.tweens.cameraToDiePending then OnCameraAtDie(s) else s
    case CameraHome => if s.tweens.cameraHomePending then OnCameraHome(s) else s
    case DieHome => if s.tweens.dieHomePending > 0 then OnDieHome(s) else s
  }

  function Run(c: Config, s: State, events: seq<Event>): State
    decreases |events|
  {
    if events == [] then s else Run(c, Apply(c, s, events[0]), events[1..])
  }

  predicate EventOk(c: Config, e: Event) {
    e.Frame? ==> InputOk(c, e.input)
  }

  lemma ApplyPreservesValid(c: Config, s: State, e: Event)
    requires Valid(c, s) && EventOk(c, e)
    ensures Valid(c, Apply(c, s, e))
  {
    match e
    case Frame(i) => UpdatePreservesValid(c, s, i);
    case PhysicsStep => FixedUpdatePreservesValid(c, s);
    case CameraAtDie =>
    case CameraHome =>
    case DieHome =>
  }

  lemma {:induction false} RunPreservesValid(c: Config, s: State, events: seq<Event>)
    requires Valid(c, s)
    requires forall k :: 0 <= k < |events| ==> EventOk(c, events[k])
    ensures Valid(c, Run(c, s, events))
    decreases |events|
  {
    if events != [] {
      assert EventOk(c, events[0]);
      ApplyPreservesValid(c, s, events[0]);
      forall k | 0 <= k < |events[1..]|
        ensures EventOk(c, events[1..][k])
      {
        assert events[1..][k] == events[k + 1];
      }
      RunPreservesValid(c, Apply(c, s, events[0]), events[1..]);
    }
  }

  /** From `Start`, whatever the player and the engine do: each begun throw
      gets at most one impulse and only the one in flight may still lack
      it, the camera flies to the die at most once more than the resets,
      and the selected die is always a valid prefab. */
  lemma OneShotLaws(c: Config, roll: Vec3, events: seq<Event>)
    requires ConfigOk(c)
    requires AllWithin(roll, c.dieXRotationBounds, c.dieYRotationBounds, c.dieZRotationBounds)
    requires forall k :: 0 <= k < |events| ==> EventOk(c, events[k])
    ensures var r := Run(c, Start(c, roll), events);
      r.tally.impulseCount <= r.tally.throwsBegun <= r.tally.impulseCount + 1 &&
      r.tally.cameraMoveCount <= r.tally.resetCount + 1 &&
      0 <= r.pre.diePrefabIndex < c.diePrefabCount
  {
    RunPreservesValid(c, Start(c, roll), events);
  }
}
