/**
 * The continuous-heading locomotion controller (`KeyboardControl`, and its
 * older copy `KeyboardController`), run once per animation frame.
 *
 * Each frame the held keys choose the action (Idle or Walking); a change
 * of action cross-fades the clips and switches the walk sound; while
 * walking, the model is aimed along the key direction and the candidate
 * position is committed only if it lies in the walkable region (soft
 * collision), the camera then moving by the same displacement.
 *
 * The displacement `(moveX, moveZ)` comes from camera trigonometry and is
 * an input here. The controller's observable state is the datatype
 * `Controller`; the functions over it specify the class's methods, and
 * the lemmas state what the frame loop guarantees.
 */
module KeyboardControl {
  import opened Utils
  import opened Regions

  /** Seconds for a clip to fade in or out. */
  const FadeDuration: real := 0.2

  /** The calls made on animation clips, in the order they were made. */
  datatype ClipCall =
    | Play(clip: Action)
    | FadeOut(clip: Action, duration: real)
    | ResetFadeInPlay(clip: Action, duration: real)

  // ---------------------------------------------------------------------------
  // Direction offset
  // ---------------------------------------------------------------------------

  /**
   * The angle between the camera's forward direction and the walk
   * direction, in eighths of a turn (one unit is pi/4 radians, positive to
   * the left). `w` takes precedence over `s`, and `a` over `d`.
   */
  function DirectionOffset(keys: set<string>): (eighths: int)
    ensures -3 <= eighths <= 4
  {
    if W in keys then
      (if A in keys then 1 else if D in keys then -1 else 0)
    else if S in keys then
      (if A in keys then 3 else if D in keys then -3 else 4)
    else if A in keys then 2
    else if D in keys then -2
    else 0
  }

  /** The forward component the keys ask for: `w` forward, else `s` back. */
  function Forward(keys: set<string>): int {
    if W in keys then 1 else if S in keys then -1 else 0
  }

  /** The leftward component the keys ask for: `a` left, else `d` right. */
  function Leftward(keys: set<string>): int {
    if A in keys then 1 else if D in keys then -1 else 0
  }

  /** The grid step (forward, leftward) that points along a heading of `eighths` eighths of a turn. */
  function CompassStep(eighths: int): (step: (int, int))
    requires -3 <= eighths <= 4
  {
    match eighths
    case 0 => (1, 0)
    case 1 => (1, 1)
    case 2 => (0, 1)
    case 3 => (-1, 1)
    case 4 => (-1, 0)
    case -1 => (1, -1)
    case -2 => (0, -1)
    case -3 => (-1, -1)
  }

  /**
   * The offset points the model exactly where the pressed keys point:
   * its grid step is (forward, leftward) of the keys, after `w` has
   * overruled `s` and `a` has overruled `d`. With no direction key the
   * offset is 0.
   */
  lemma OffsetPointsWhereKeysPoint(keys: set<string>)
    ensures (Forward(keys), Leftward(keys)) != (0, 0) ==>
      CompassStep(DirectionOffset(keys)) == (Forward(keys), Leftward(keys))
    ensures (Forward(keys), Leftward(keys)) == (0, 0) ==> DirectionOffset(keys) == 0
  {
  }

  /** The nine entries of the table. */
  lemma DirectionOffsetTable()
    ensures DirectionOffset({W}) == 0 && DirectionOffset({W, A}) == 1 && DirectionOffset({W, D}) == -1
    ensures DirectionOffset({S}) == 4 && DirectionOffset({S, A}) == 3 && DirectionOffset({S, D}) == -3
    ensures DirectionOffset({A}) == 2 && DirectionOffset({D}) == -2 && DirectionOffset({}) == 0
  {
    Utils.ConstantsAreDistinct();
  }

  /** `w` overrules `s` and `a` overrules `d`; keys other than the four are ignored. */
  lemma DirectionOffsetPrecedence(keys: set<string>)
    ensures W in keys ==> DirectionOffset(keys) == DirectionOffset(keys - {S})
    ensures A in keys ==> DirectionOffset(keys) == DirectionOffset(keys - {D})
    ensures DirectionOffset(keys) == DirectionOffset(keys * {W, A, S, D})
  {
    Utils.ConstantsAreDistinct();
  }

  // ---------------------------------------------------------------------------
  // The controller's state and one frame
  // ---------------------------------------------------------------------------

  /** The observable state of a controller. */
  datatype Controller = Controller(
    currentAction: Action,
    model: Vec3,
    camera: Vec3,
    cameraTarget: Vec3,
    orbitTarget: Vec3,
    facingOffset: int,        // the offset the model is being turned towards
    walkSoundPlaying: bool,
    clipCalls: seq<ClipCall>,
    mixerTime: real)          // total time the animation mixer has been advanced

  /** The inputs of one frame: time step, held keys, and the displacement the camera geometry gives. */
  datatype FrameInput = FrameInput(delta: real, keys: set<string>, moveX: real, moveZ: real)

  function NextAction(keys: set<string>): Action {
    if DirectionPressed(keys) then Walking else Idle
  }

  /** A clip call made through `?.`: skipped when the clip is missing. */
  function CallIfPresent(clips: set<Action>, clip: Action, call: ClipCall): seq<ClipCall> {
    if clip in clips then [call] else []
  }

  /** The point one unit above the model that the camera looks at. */
  function LookAtPoint(model: Vec3): Vec3 {
    Vec3(model.x, model.y + 1.0, model.z)
  }

  /** The state right after construction: the initial clip plays, and the camera target is set with a zero move. */
  function Initial(model: Vec3, camera: Vec3, clips: set<Action>, action: Action): Controller {
    Controller(action, model, camera, LookAtPoint(model), LookAtPoint(model), 0, false,
               CallIfPresent(clips, action, Play(action)), 0.0)
  }

  /** `changeAnimationIfNeeded`. */
  function CrossFade(c: Controller, next: Action, clips: set<Action>): Controller {
    if c.currentAction == next then c
    else c.(clipCalls := c.clipCalls
                         + CallIfPresent(clips, c.currentAction, FadeOut(c.currentAction, FadeDuration))
                         + CallIfPresent(clips, next, ResetFadeInPlay(next, FadeDuration)),
            walkSoundPlaying := next == Walking,
            currentAction := next)
  }

  /** `updateCameraTarget`. */
  function CameraFollowed(c: Controller, moveX: real, moveZ: real): Controller {
    c.(camera := Vec3(c.camera.x + moveX, c.camera.y, c.camera.z + moveZ),
       cameraTarget := LookAtPoint(c.model),
       orbitTarget := LookAtPoint(c.model))
  }

  /** The commit-or-reject part of `handleWalkingMovement`. */
  function WalkStep(c: Controller, keys: set<string>, moveX: real, moveZ: real, walkable: seq<seq<Vec3>>): Controller {
    var aimed := c.(facingOffset := DirectionOffset(keys));
    if InsideAny(c.model.x + moveX, c.model.z + moveZ, walkable) then
      CameraFollowed(aimed.(model := Vec3(c.model.x + moveX, c.model.y, c.model.z + moveZ)), moveX, moveZ)
    else aimed
  }

  /** `update`: one frame. */
  function Frame(c: Controller, input: FrameInput, clips: set<Action>, walkable: seq<seq<Vec3>>): Controller {
    var next := NextAction(input.keys);
    var faded := CrossFade(c, next, clips);
    var mixed := faded.(mixerTime := faded.mixerTime + input.delta);
    if next == Walking then WalkStep(mixed, input.keys, input.moveX, input.moveZ, walkable) else mixed
  }

  /** A sequence of frames. */
  function Run(c: Controller, inputs: seq<FrameInput>, clips: set<Action>, walkable: seq<seq<Vec3>>): Controller
    decreases |inputs|
  {
    if inputs == [] then c else Run(Frame(c, inputs[0], clips, walkable), inputs[1..], clips, walkable)
  }

  // ---------------------------------------------------------------------------
  // Properties of one frame
  // ---------------------------------------------------------------------------

  /** The action after a frame is Walking exactly when a direction key is held; the model moves only then. */
  lemma FrameWalksIffDirectionPressed(c: Controller, input: FrameInput, clips: set<Action>, walkable: seq<seq<Vec3>>)
    ensures Frame(c, input, clips, walkable).currentAction == Walking <==> DirectionPressed(input.keys)
    ensures !DirectionPressed(input.keys) ==>
      Frame(c, input, clips, walkable).model == c.model && Frame(c, input, clips, walkable).camera == c.camera
  {
  }

  /** Without a change of action, no clip is touched and the sound is left alone; cross-fading twice is cross-fading once. */
  lemma CrossFadeOnlyOnChange(c: Controller, next: Action, clips: set<Action>)
    ensures c.currentAction == next ==> CrossFade(c, next, clips) == c
    ensures CrossFade(CrossFade(c, next, clips), next, clips) == CrossFade(c, next, clips)
    ensures CrossFade(c, next, clips).currentAction == next
  {
  }

  function FadeIns(calls: seq<ClipCall>): nat {
    if calls == [] then 0 else (if calls[0].ResetFadeInPlay? then 1 else 0) + FadeIns(calls[1..])
  }

  function FadeOuts(calls: seq<ClipCall>): nat {
    if calls == [] then 0 else (if calls[0].FadeOut? then 1 else 0) + FadeOuts(calls[1..])
  }

  lemma {:induction false} FadeCountsOfConcat(a: seq<ClipCall>, b: seq<ClipCall>)
    ensures FadeIns(a + b) == FadeIns(a) + FadeIns(b)
    ensures FadeOuts(a + b) == FadeOuts(a) + FadeOuts(b)
  {
    if a != [] {
      assert (a + b)[1..] == a[1..] + b;
      FadeCountsOfConcat(a[1..], b);
    } else {
      assert a + b == b;
    }
  }

  /**
   * A change of action fades the old clip out once and the new one in
   * once (each skipped if that clip is missing), plays the walk sound
   * exactly when entering Walking, and touches nothing else.
   */
  lemma CrossFadeOnChange(c: Controller, next: Action, clips: set<Action>)
    requires c.currentAction != next
    ensures var r := CrossFade(c, next, clips);
      && FadeOuts(r.clipCalls) == FadeOuts(c.clipCalls) + (if c.currentAction in clips then 1 else 0)
      && FadeIns(r.clipCalls) == FadeIns(c.clipCalls) + (if next in clips then 1 else 0)
      && r.walkSoundPlaying == (next == Walking)
      && r.(clipCalls := c.clipCalls, walkSoundPlaying := c.walkSoundPlaying, currentAction := c.currentAction) == c
  {
    var fadeOut := CallIfPresent(clips, c.currentAction, FadeOut(c.currentAction, FadeDuration));
    var fadeIn := CallIfPresent(clips, next, ResetFadeInPlay(next, FadeDuration));
    FadeCountsOfConcat(c.clipCalls, fadeOut);
    FadeCountsOfConcat(c.clipCalls + fadeOut, fadeIn);
  }

  /**
   * Soft collision: when the candidate position is not walkable the frame
   * leaves the model and the camera where they were.
   */
  lemma RejectedMoveKeepsPositions(c: Controller, input: FrameInput, clips: set<Action>, walkable: seq<seq<Vec3>>)
    requires !InsideAny(c.model.x + input.moveX, c.model.z + input.moveZ, walkable)
    ensures Frame(c, input, clips, walkable).model == c.model
    ensures Frame(c, input, clips, walkable).camera == c.camera
    ensures Frame(c, input, clips, walkable).cameraTarget == c.cameraTarget
  {
  }

  /** A committed move shifts model and camera by the same displacement and re-aims the camera target. */
  lemma CommittedMoveShiftsModelAndCamera(c: Controller, input: FrameInput, clips: set<Action>, walkable: seq<seq<Vec3>>)
    requires DirectionPressed(input.keys)
    requires InsideAny(c.model.x + input.moveX, c.model.z + input.moveZ, walkable)
    ensures var r := Frame(c, input, clips, walkable);
      && r.model == Vec3(c.model.x + input.moveX, c.model.y, c.model.z + input.moveZ)
      && r.camera == Vec3(c.camera.x + input.moveX, c.camera.y, c.camera.z + input.moveZ)
      && r.cameraTarget == LookAtPoint(r.model)
      && r.orbitTarget == r.cameraTarget
      && r.facingOffset == DirectionOffset(input.keys)
  {
  }

  /** The camera looks one unit above the model, and the orbit controls look at the same point. */
  predicate CameraFollowsModel(c: Controller) {
    c.cameraTarget == LookAtPoint(c.model) && c.orbitTarget == c.cameraTarget
  }

  /** The walk sound only ever plays while walking. */
  predicate SoundOnlyWhileWalking(c: Controller) {
    c.walkSoundPlaying ==> c.currentAction == Walking
  }

  /**
   * Every frame keeps the camera-to-model offset in x and z and the
   * camera's height, keeps the camera following the model, and keeps
   * the walk sound off while idle.
   */
  lemma FrameKeepsInvariants(c: Controller, input: FrameInput, clips: set<Action>, walkable: seq<seq<Vec3>>)
    ensures var r := Frame(c, input, clips, walkable);
      && r.camera.x - r.model.x == c.camera.x - c.model.x
      && r.camera.z - r.model.z == c.camera.z - c.model.z
      && r.camera.y == c.camera.y
      && (CameraFollowsModel(c) ==> CameraFollowsModel(r))
      && (SoundOnlyWhileWalking(c) ==> SoundOnlyWhileWalking(r))
  {
  }

  /** Construction plays the initial clip if it exists and leaves the camera where it is. */
  lemma InitialState(model: Vec3, camera: Vec3, clips: set<Action>, action: Action)
    ensures var c := Initial(model, camera, clips, action);
      && c.camera == camera && c.model == model
      && CameraFollowsModel(c) && SoundOnlyWhileWalking(c)
      && c.clipCalls == (if action in clips then [Play(action)] else [])
  {
  }

  // ---------------------------------------------------------------------------
  // Properties of many frames
  // ---------------------------------------------------------------------------

  /** The number of frames whose key set changes the action, starting from action `a`. */
  function Transitions(a: Action, inputs: seq<FrameInput>): nat
    decreases |inputs|
  {
    if inputs == [] then 0
    else var next := NextAction(inputs[0].keys);
      (if next != a then 1 else 0) + Transitions(next, inputs[1..])
  }

  /**
   * With both clips present, a run of frames fades in exactly once and
   * fades out exactly once per Idle/Walking transition: never while the
   * held keys keep the action unchanged.
   */
  lemma {:induction false} FadesCountTransitions(c: Controller, inputs: seq<FrameInput>, walkable: seq<seq<Vec3>>)
    ensures var r := Run(c, inputs, {Idle, Walking}, walkable);
      && FadeIns(r.clipCalls) == FadeIns(c.clipCalls) + Transitions(c.currentAction, inputs)
      && FadeOuts(r.clipCalls) == FadeOuts(c.clipCalls) + Transitions(c.currentAction, inputs)
      && r.currentAction == (if inputs == [] then c.currentAction else NextAction(inputs[|inputs| - 1].keys))
    decreases |inputs|
  {
    if inputs != [] {
      var clips := {Idle, Walking};
      var next := NextAction(inputs[0].keys);
      var c1 := Frame(c, inputs[0], clips, walkable);
      assert c1.clipCalls == CrossFade(c, next, clips).clipCalls;
      assert c1.currentAction == next;
      if next != c.currentAction {
        CrossFadeOnChange(c, next, clips);
      }
      FadesCountTransitions(c1, inputs[1..], walkable);
      if |inputs| > 1 {
        assert inputs[1..][|inputs[1..]| - 1] == inputs[|inputs| - 1];
      }
    }
  }

  /** `n` copies of one frame input. */
  function Repeat(input: FrameInput, n: nat): (r: seq<FrameInput>)
    ensures |r| == n
  {
    if n == 0 then [] else [input] + Repeat(input, n - 1)
  }

  /**
   * Rejection is stable: however many frames repeat an input whose
   * candidate position is not walkable, model and camera stay put.
   */
  lemma {:induction false} RepeatedRejectionKeepsPositions(c: Controller, input: FrameInput, n: nat, clips: set<Action>, walkable: seq<seq<Vec3>>)
    requires !InsideAny(c.model.x + input.moveX, c.model.z + input.moveZ, walkable)
    ensures Run(c, Repeat(input, n), clips, walkable).model == c.model
    ensures Run(c, Repeat(input, n), clips, walkable).camera == c.camera
    decreases n
  {
    if n > 0 {
      var c1 := Frame(c, input, clips, walkable);
      RejectedMoveKeepsPositions(c, input, clips, walkable);
      assert Repeat(input, n)[0] == input && Repeat(input, n)[1..] == Repeat(input, n - 1);
      RepeatedRejectionKeepsPositions(c1, input, n - 1, clips, walkable);
    }
  }

  // ---------------------------------------------------------------------------
  // The controller object
  // ---------------------------------------------------------------------------

  class KeyboardControl {
    var currentAction: Action
    var modelPos: Vec3
    var cameraPos: Vec3
    var cameraTarget: Vec3
    var orbitTarget: Vec3
    var facingOffset: int
    var walkSoundPlaying: bool
    var clipCalls: seq<ClipCall>
    var mixerTime: real

    /** The clips the animations map holds. */
    const clips: set<Action>
    const walkableRegions: seq<seq<Vec3>>
    const interactiveRegions: seq<seq<Vec3>>
    const teleportRegions: seq<seq<Vec3>>

    function State(): Controller
      reads this
    {
      Controller(currentAction, modelPos, cameraPos, cameraTarget, orbitTarget,
                 facingOffset, walkSoundPlaying, clipCalls, mixerTime)
    }

    constructor (model: Vec3, camera: Vec3, animationClips: set<Action>, initialAction: Action,
                 walkable: seq<seq<Vec3>>, interactive: seq<seq<Vec3>>, teleport: seq<seq<Vec3>>)
      ensures State() == Initial(model, camera, animationClips, initialAction)
      ensures clips == animationClips && walkableRegions == walkable
      ensures interactiveRegions == interactive && teleportRegions == teleport
    {
      currentAction := initialAction;
      modelPos := model;
      cameraPos := camera;
      cameraTarget := Vec3(0.0, 0.0, 0.0);
      orbitTarget := Vec3(0.0, 0.0, 0.0);
      facingOffset := 0;
      walkSoundPlaying := false;
      mixerTime := 0.0;
      clips := animationClips;
      walkableRegions := walkable;
      interactiveRegions := interactive;
      teleportRegions := teleport;
      clipCalls := CallIfPresent(animationClips, initialAction, Play(initialAction));
      new;
      UpdateCameraTarget(0.0, 0.0);
      assert cameraPos == camera;
    }

    /** One frame. */
    method Update(delta: real, keys: set<string>, moveX: real, moveZ: real)
      modifies this
      ensures State() == Frame(old(State()), FrameInput(delta, keys, moveX, moveZ), clips, walkableRegions)
    {
      var nextAction := if DirectionPressed(keys) then Walking else Idle;
      ChangeAnimationIfNeeded(nextAction);
      mixerTime := mixerTime + delta;
      if nextAction == Walking {
        HandleWalkingMovement(keys, moveX, moveZ);
      }
    }

    method ChangeAnimationIfNeeded(nextAction: Action)
      modifies this
      ensures State() == CrossFade(old(State()), nextAction, clips)
    {
      if currentAction != nextAction {
        if currentAction in clips {
          clipCalls := clipCalls + [FadeOut(currentAction, FadeDuration)];
        }
        if nextAction in clips {
          clipCalls := clipCalls + [ResetFadeInPlay(nextAction, FadeDuration)];
        }
        walkSoundPlaying := nextAction == Walking;
        currentAction := nextAction;
      }
    }

    method IsModelInsideWalkableRegions(x: real, z: real) returns (inside: bool)
      ensures inside == InsideAny(x, z, walkableRegions)
      ensures walkableRegions == [] ==> !inside
    {
      inside := AnyPolygonContains(x, z, walkableRegions);
    }

    method IsModelInsideInteractiveRegions(x: real, z: real) returns (inside: bool)
      ensures inside == InsideAny(x, z, interactiveRegions)
      ensures interactiveRegions == [] ==> !inside
    {
      inside := AnyPolygonContains(x, z, interactiveRegions);
    }

    method IsModelInsideTeleportRegions(x: real, z: real) returns (inside: bool)
      ensures inside == InsideAny(x, z, teleportRegions)
      ensures teleportRegions == [] ==> !inside
    {
      inside := AnyPolygonContains(x, z, teleportRegions);
    }

    method HandleWalkingMovement(keys: set<string>, moveX: real, moveZ: real)
      modifies this
      ensures State() == WalkStep(old(State()), keys, moveX, moveZ, walkableRegions)
    {
      facingOffset := DirectionOffset(keys);
      var walkable := IsModelInsideWalkableRegions(modelPos.x + moveX, modelPos.z + moveZ);
      if walkable {
        modelPos := Vec3(modelPos.x + moveX, modelPos.y, modelPos.z + moveZ);
        UpdateCameraTarget(moveX, moveZ);
      }
    }

    method UpdateCameraTarget(moveX: real, moveZ: real)
      modifies this
      ensures State() == CameraFollowed(old(State()), moveX, moveZ)
    {
      cameraPos := Vec3(cameraPos.x + moveX, cameraPos.y, cameraPos.z + moveZ);
      cameraTarget := LookAtPoint(modelPos);
      orbitTarget := cameraTarget;
    }
  }
}
