/**
 * The discrete-compass avatar: a model whose heading is labelled with one
 * of the compass points, turns in quarter or half turns with a one-shot
 * animation, and
 * steps forward, all driven through a FIFO instruction queue that runs one
 * instruction at a time.
 *
 * Asynchrony is modelled as explicit steps. `ProcessInstructionQueue`
 * takes the next instruction and runs it up to its first `await`; the
 * step `Settled` stands in for that `await` resolving (the animation
 * `finished` event for a turn, the next microtask otherwise), runs the
 * instruction's continuation, clears the busy flag and starts the next
 * instruction. Whether the awaited instruction rejected is an input of
 * `Settled`.
 *
 * The pure functions over `AvatarState` specify the methods of the class
 * `Avatar`; `Valid` is the invariant every step keeps.
 */
module Avatar {
  import opened Wrappers
  import Utils
  import opened Raycasting

  // ---------------------------------------------------------------------------
  // Compass arithmetic
  // ---------------------------------------------------------------------------

  datatype Compass = N | E | W | S | NE | NW | SE | SW

  /** The heading is the string 'front' until the model has loaded, then a compass point. */
  datatype Heading = Front | Facing(dir: Compass)

  /** The angle table, in degrees clockwise from north. */
  function CompassAngle(c: Compass): int {
    match c
    case N => 0
    case E => 90
    case W => -90
    case S => 180
    case NE => 45
    case NW => -45
    case SE => 135
    case SW => -135
  }

  predicate IsCardinal(c: Compass) {
    c.N? || c.E? || c.W? || c.S?
  }

  /**
   * `findDirectionDifference`: the target's angle minus the current
   * heading's. A heading or target missing from the table makes the
   * source compute NaN, which is `None` here.
   */
  function DirectionDifference(heading: Heading, target: Option<Compass>): Option<int> {
    if heading.Facing? && target.Some? then Some(CompassAngle(target.value) - CompassAngle(heading.dir))
    else None
  }

  datatype Turn = TurnLeft | TurnRight | TurnBack

  /**
   * `findRequiredTurn`: the branch chain of the source, in its order,
   * including the second test for 90 (which can never fire). NaN fails
   * every comparison and gives no turn.
   */
  function RequiredTurn(difference: Option<int>): Option<Turn> {
    match difference
    case None => None
    case Some(d) =>
      if d == 0 then None
      else if d == 90 then Some(TurnRight)
      else if d == -90 then Some(TurnLeft)
      else if d == 90 then Some(TurnBack)
      else if d == 45 then Some(TurnRight)
      else if d == -45 then Some(TurnLeft)
      else if d == 135 then Some(TurnRight)
      else if d == -135 then Some(TurnLeft)
      else if d == 180 then Some(TurnBack)
      else if d == -180 then Some(TurnBack)
      else if d == 270 then Some(TurnLeft)
      else if d == -270 then Some(TurnRight)
      else None
  }

  function FindRequiredTurn(heading: Heading, target: Option<Compass>): Option<Turn> {
    RequiredTurn(DirectionDifference(heading, target))
  }

  /** How `turnTo` changes `rotation.y`, in quarter turns: left -pi/2, right +pi/2, back +pi. */
  function TurnQuarters(t: Turn): int {
    match t
    case TurnLeft => -1
    case TurnRight => 1
    case TurnBack => 2
  }

  /**
   * The compass label that the turn arithmetic gives a rotation of `q`
   * quarter turns past the rotation at load, where the label was N. Each
   * +pi/2 that `turnTo` adds for a right turn moves the label one step
   * clockwise through the angle table (N, E, S, W). This is a label, not
   * a world direction.
   */
  function QuarterHeading(q: int): (c: Compass)
    ensures IsCardinal(c)
  {
    match q % 4
    case 0 => N
    case 1 => E
    case 2 => S
    case 3 => W
  }

  /** The difference is antisymmetric, lies within -315..315, and is zero exactly for the same point. */
  lemma DirectionDifferenceProperties(a: Compass, b: Compass)
    ensures DirectionDifference(Facing(a), Some(b)).Some?
    ensures DirectionDifference(Facing(a), Some(b)).value == -DirectionDifference(Facing(b), Some(a)).value
    ensures -315 <= DirectionDifference(Facing(a), Some(b)).value <= 315
    ensures DirectionDifference(Facing(a), Some(b)).value == 0 <==> a == b
    ensures DirectionDifference(Front, Some(b)).None? && DirectionDifference(Facing(a), None).None?
  {
  }

  /**
   * Between cardinal points the required turn is absent exactly when
   * heading and target coincide, and otherwise it lands on the target:
   * the turn's quarter turns, at 90 degrees each, added to the heading's
   * angle give the target's angle modulo 360.
   */
  lemma RequiredTurnLandsOnTarget(a: Compass, b: Compass)
    requires IsCardinal(a) && IsCardinal(b)
    ensures FindRequiredTurn(Facing(a), Some(b)).None? <==> a == b
    ensures FindRequiredTurn(Facing(a), Some(b)).Some? ==>
      (CompassAngle(a) + 90 * TurnQuarters(FindRequiredTurn(Facing(a), Some(b)).value) - CompassAngle(b)) % 360 == 0
  {
  }

  /** In quarter turns: a rotation labelled `a`, changed by the required turn, is labelled `b`. */
  lemma RequiredTurnRotatesOntoTarget(q: int, a: Compass, b: Compass)
    requires QuarterHeading(q) == a && IsCardinal(b)
    requires FindRequiredTurn(Facing(a), Some(b)).Some?
    ensures QuarterHeading(q + TurnQuarters(FindRequiredTurn(Facing(a), Some(b)).value)) == b
  {
    var t := FindRequiredTurn(Facing(a), Some(b)).value;
    assert (q + TurnQuarters(t)) % 4 == (q % 4 + TurnQuarters(t) + 4) % 4;
  }

  /**
   * A half turn is asked for exactly when the difference is 180 or -180,
   * so the second branch testing 90 never returns `turnBack`; and only
   * the listed differences give a turn at all.
   */
  lemma DuplicateBranchIsUnreachable(difference: Option<int>)
    ensures RequiredTurn(difference) == Some(TurnBack) <==> difference == Some(180) || difference == Some(-180)
    ensures RequiredTurn(Some(90)) == Some(TurnRight)
    ensures RequiredTurn(difference).Some? ==>
      difference.Some? && difference.value in {90, -90, 45, -45, 135, -135, 180, -180, 270, -270}
  {
  }

  // ---------------------------------------------------------------------------
  // Keys
  // ---------------------------------------------------------------------------

  /** The direction a key asks for: w north, a west, s south, d east. */
  function KeyCompass(key: string): (target: Option<Compass>)
    ensures target.Some? ==> IsCardinal(target.value)
  {
    if key == Utils.W then Some(N)
    else if key == Utils.A then Some(W)
    else if key == Utils.S then Some(S)
    else if key == Utils.D then Some(E)
    else None
  }

  /** Of two opposing keys the second is dropped: `s` when `w` is held, `d` when `a` is held. */
  function NormaliseKeys(keys: set<string>): set<string> {
    var k := if Utils.W in keys && Utils.S in keys then keys - {Utils.S} else keys;
    if Utils.A in k && Utils.D in k then k - {Utils.D} else k
  }

  predicate NoOpposingKeys(keys: set<string>) {
    !(Utils.W in keys && Utils.S in keys) && !(Utils.A in keys && Utils.D in keys)
  }

  /** Normalising never leaves opposing keys, drops only `s` or `d`, and changes nothing when no pair is held. */
  lemma NormaliseKeysProperties(keys: set<string>)
    ensures NoOpposingKeys(NormaliseKeys(keys))
    ensures NormaliseKeys(keys) <= keys
    ensures keys - NormaliseKeys(keys) <= {Utils.S, Utils.D}
    ensures NoOpposingKeys(keys) ==> NormaliseKeys(keys) == keys
    ensures Utils.DirectionPressed(keys) <==> Utils.DirectionPressed(NormaliseKeys(keys))
  {
    Utils.ConstantsAreDistinct();
    Utils.DirectionPressedIsAnyOfWasd(keys);
    Utils.DirectionPressedIsAnyOfWasd(NormaliseKeys(keys));
  }

  /** The four movement keys map to the four cardinal points, one to one. */
  lemma KeyCompassTable()
    ensures KeyCompass(Utils.W) == Some(N) && KeyCompass(Utils.A) == Some(W)
    ensures KeyCompass(Utils.S) == Some(S) && KeyCompass(Utils.D) == Some(E)
    ensures KeyCompass("q").None?
  {
    Utils.ConstantsAreDistinct();
  }

  // ---------------------------------------------------------------------------
  // The avatar's state and its steps
  // ---------------------------------------------------------------------------

  /** What the instructions of the queue do; the source enqueues closures with exactly these bodies. */
  datatype Instruction =
    | TurnTo(turn: Turn, newDirection: Compass)   // play the turn, then face `newDirection`
    | StartWalking                                // walking sound on, idle clip off, walk clip on
    | TranslateForward                            // step forward if the step stays walkable and unobstructed
    | StopWalking                                 // walking sound off, walk clip off, idle clip on

  /**
   * What the three.js geometry reports at the moment a step is taken: the
   * ground displacement `translateZ(-speed)` gives the model in its
   * current orientation, and whether the raycaster sees an obstacle closer
   * than one unit.
   */
  datatype Surroundings = Surroundings(dx: real, dz: real, blocked: bool)

  datatype AvatarState = AvatarState(
    keysPressed: set<string>,
    heading: Heading,
    turning: bool,
    instructionQueue: seq<Instruction>,
    isProcessingQueue: bool,
    inFlight: Option<Instruction>,   // the instruction whose `await` is outstanding
    turnQuarters: int,               // what `turnTo` has added to `rotation.y`, in quarter turns
    walkRunning: bool,               // the walk clip is running (`isWalking`)
    soundPlaying: bool,
    loaded: bool,
    position: Point,                 // the model's ground position (x, z)
    errorsLogged: nat,               // instructions that rejected and were caught
    walkableRegion: seq<Point>)

  /** The state the constructor leaves: no keys, heading 'front', empty idle queue, nothing loaded. */
  function Initial(walkable: seq<Point>): AvatarState {
    AvatarState({}, Front, false, [], false, None, 0, false, false, false, Point(0.0, 0.0), 0, walkable)
  }

  /** The loader callback: the idle clip plays and the heading becomes north. */
  function Loaded(s: AvatarState, at: Point): AvatarState {
    s.(loaded := true, heading := Facing(N), turnQuarters := 0, walkRunning := false, position := at)
  }

  /** The instructions not yet finished, in order: the one in flight, then the queue. */
  function Pending(s: AvatarState): seq<Instruction> {
    (if s.inFlight.Some? then [s.inFlight.value] else []) + s.instructionQueue
  }

  /** The busy flag is set exactly while an instruction is in flight, and the queue only waits behind one. */
  predicate QueueShape(s: AvatarState) {
    (s.isProcessingQueue <==> s.inFlight.Some?)
    && (!s.isProcessingQueue ==> s.instructionQueue == [])
  }

  /** `translateAvatarZ`: commit the step only if it stays in the walkable region and nothing blocks it. */
  function Translated(s: AvatarState, env: Surroundings): AvatarState {
    var candidate := Point(s.position.x + env.dx, s.position.y + env.dz);
    if Inside(candidate, s.walkableRegion) && !env.blocked then s.(position := candidate) else s
  }

  /**
   * An instruction run up to its first `await`. Before the model has
   * loaded the actions table is null: a turn or a walk start throws
   * (caught when it settles), and the not-awaited calls inside a step or
   * a walk stop throw without effect.
   */
  function Begun(s: AvatarState, i: Instruction, env: Surroundings): AvatarState {
    match i
    case TurnTo(_, _) => if s.loaded then s.(walkRunning := false) else s
    case StartWalking => if s.loaded then s.(soundPlaying := true, walkRunning := true) else s.(soundPlaying := true)
    case TranslateForward => if s.loaded then Translated(s, env) else s
    case StopWalking => if s.loaded then s.(soundPlaying := false, walkRunning := false) else s.(soundPlaying := false)
  }

  /** `processInstructionQueue`: if idle and something waits, mark busy and run the front instruction. */
  function Processed(s: AvatarState, env: Surroundings): AvatarState {
    if s.isProcessingQueue || s.instructionQueue == [] then s
    else Begun(s.(isProcessingQueue := true, inFlight := Some(s.instructionQueue[0]),
                  instructionQueue := s.instructionQueue[1..]), s.instructionQueue[0], env)
  }

  /** `enqueueInstruction`: append, then try to process. */
  function Enqueued(s: AvatarState, i: Instruction, env: Surroundings): AvatarState {
    Processed(s.(instructionQueue := s.instructionQueue + [i]), env)
  }

  function EnqueuedAll(s: AvatarState, instructions: seq<Instruction>, env: Surroundings): AvatarState
    decreases |instructions|
  {
    if instructions == [] then s else EnqueuedAll(Enqueued(s, instructions[0], env), instructions[1..], env)
  }

  /** What runs after an instruction's `await` resolves: a turn updates the rotation, then the heading, and clears `turning`. */
  function Completed(s: AvatarState, i: Instruction): AvatarState {
    match i
    case TurnTo(t, d) => s.(turnQuarters := s.turnQuarters + TurnQuarters(t), heading := Facing(d), turning := false)
    case _ => s
  }

  /**
   * The in-flight instruction's `await` resolves (or rejects, when
   * `threw`): the continuation runs or the error is logged, the busy flag
   * is cleared, and the queue is processed again.
   */
  function Settled(s: AvatarState, threw: bool, env: Surroundings): AvatarState
    requires s.inFlight.Some?
  {
    Processed(AfterAwait(s, threw), env)
  }

  /** The state once the continuation has run (or the error is logged) and the busy flag is cleared. */
  function AfterAwait(s: AvatarState, threw: bool): AvatarState
    requires s.inFlight.Some?
  {
    var done := if threw then s.(errorsLogged := s.errorsLogged + 1) else Completed(s, s.inFlight.value);
    done.(isProcessingQueue := false, inFlight := None)
  }

  /**
   * The instructions a key press enqueues: a turn if one is needed and
   * none is under way; otherwise, if no turn is under way and a direction
   * is held, a walk start (unless already walking) and a step. Before the
   * model has loaded `isWalking` throws, so no walk is enqueued.
   */
  function KeyDownInstructions(s: AvatarState, key: string): seq<Instruction> {
    var keys := NormaliseKeys(s.keysPressed + {key});
    var target := KeyCompass(key);
    match FindRequiredTurn(s.heading, target)
    case Some(t) =>
      if !s.turning && target.Some? then [TurnTo(t, target.value)]
      else []
    case None => WalkInstructions(s.(keysPressed := keys))
  }

  /** With no turn under way and a direction held: a walk start unless the walk clip runs, then a step. */
  function WalkInstructions(s: AvatarState): seq<Instruction> {
    if !s.turning && Utils.DirectionPressed(s.keysPressed) && s.loaded then
      (if s.walkRunning then [] else [StartWalking]) + [TranslateForward]
    else []
  }

  /** `handleKeyDown`. */
  function AfterKeyDown(s: AvatarState, key: string, env: Surroundings): AvatarState {
    var add := KeyDownInstructions(s, key);
    var pressed := s.(keysPressed := NormaliseKeys(s.keysPressed + {key}),
                      turning := s.turning || (add != [] && add[0].TurnTo?));
    EnqueuedAll(pressed, add, env)
  }

  /** `handleKeyUp`: release the key; with no direction left held, enqueue a walk stop. */
  function AfterKeyUp(s: AvatarState, key: string, env: Surroundings): AvatarState {
    var released := s.(keysPressed := s.keysPressed - {key});
    if Utils.DirectionPressed(released.keysPressed) then released
    else Enqueued(released, StopWalking, env)
  }

  // ---------------------------------------------------------------------------
  // The queue: FIFO, one in flight, errors do not stop the drain
  // ---------------------------------------------------------------------------

  /** Running an instruction's first part leaves the queue, the keys, the heading and the turn state alone. */
  lemma BegunKeepsQueueAndHeading(s: AvatarState, i: Instruction, env: Surroundings)
    ensures var r := Begun(s, i, env);
      && r.instructionQueue == s.instructionQueue && r.isProcessingQueue == s.isProcessingQueue
      && r.inFlight == s.inFlight && r.keysPressed == s.keysPressed && r.heading == s.heading
      && r.turning == s.turning && r.turnQuarters == s.turnQuarters && r.loaded == s.loaded
      && r.errorsLogged == s.errorsLogged && r.walkableRegion == s.walkableRegion
  {
  }

  /**
   * Processing while busy, or with nothing queued, changes nothing;
   * otherwise the front instruction goes in flight. Either way the
   * pending instructions keep their order.
   */
  lemma ProcessingKeepsOrder(s: AvatarState, env: Surroundings)
    requires s.isProcessingQueue <==> s.inFlight.Some?
    ensures (s.isProcessingQueue || s.instructionQueue == []) ==> Processed(s, env) == s
    ensures !s.isProcessingQueue && s.instructionQueue != [] ==>
      Processed(s, env).inFlight == Some(s.instructionQueue[0]) && Processed(s, env).isProcessingQueue
    ensures !s.isProcessingQueue || QueueShape(s) ==> QueueShape(Processed(s, env))
    ensures Pending(Processed(s, env)) == Pending(s)
    ensures var r := Processed(s, env);
      && r.keysPressed == s.keysPressed && r.heading == s.heading && r.turning == s.turning
      && r.turnQuarters == s.turnQuarters && r.loaded == s.loaded
      && r.errorsLogged == s.errorsLogged && r.walkableRegion == s.walkableRegion
  {
    if !s.isProcessingQueue && s.instructionQueue != [] {
      var q := s.instructionQueue;
      BegunKeepsQueueAndHeading(s.(isProcessingQueue := true, inFlight := Some(q[0]), instructionQueue := q[1..]), q[0], env);
      assert [q[0]] + q[1..] == q;
    }
  }

  /** `enqueueInstruction` appends at the back: the pending instructions gain exactly `i`, last. */
  lemma EnqueueAppends(s: AvatarState, i: Instruction, env: Surroundings)
    requires QueueShape(s)
    ensures QueueShape(Enqueued(s, i, env))
    ensures Pending(Enqueued(s, i, env)) == Pending(s) + [i]
  {
    var s1 := s.(instructionQueue := s.instructionQueue + [i]);
    ProcessingKeepsOrder(s1, env);
    if !s.isProcessingQueue {
      assert s.instructionQueue == [] && s.inFlight.None?;
    }
  }

  lemma {:induction false} EnqueueAllAppends(s: AvatarState, instructions: seq<Instruction>, env: Surroundings)
    requires QueueShape(s)
    ensures QueueShape(EnqueuedAll(s, instructions, env))
    ensures Pending(EnqueuedAll(s, instructions, env)) == Pending(s) + instructions
    decreases |instructions|
  {
    if instructions != [] {
      EnqueueAppends(s, instructions[0], env);
      EnqueueAllAppends(Enqueued(s, instructions[0], env), instructions[1..], env);
      assert [instructions[0]] + instructions[1..] == instructions;
    }
  }

  /**
   * Settling takes the front pending instruction off, whether it rejected
   * or not; a rejection is logged once, and the next instruction starts.
   */
  lemma SettlePops(s: AvatarState, threw: bool, env: Surroundings)
    requires QueueShape(s) && s.inFlight.Some?
    ensures QueueShape(Settled(s, threw, env))
    ensures Pending(Settled(s, threw, env)) == Pending(s)[1..]
    ensures Settled(s, threw, env).errorsLogged == s.errorsLogged + (if threw then 1 else 0)
    ensures s.instructionQueue != [] ==> Settled(s, threw, env).inFlight == Some(s.instructionQueue[0])
  {
    var idle := AfterAwait(s, threw);
    assert idle.instructionQueue == s.instructionQueue;
    assert idle.errorsLogged == s.errorsLogged + (if threw then 1 else 0);
    assert Pending(idle) == s.instructionQueue == Pending(s)[1..];
    ProcessingKeepsOrder(idle, env);
  }

  /** Settle the in-flight instruction once per outcome, while one is in flight. */
  function SettleAll(s: AvatarState, outcomes: seq<bool>, env: Surroundings): AvatarState
    decreases |outcomes|
  {
    if outcomes == [] || s.inFlight.None? then s
    else SettleAll(Settled(s, outcomes[0], env), outcomes[1..], env)
  }

  /** The instructions in the order they settle. */
  function SettleOrder(s: AvatarState, outcomes: seq<bool>, env: Surroundings): seq<Instruction>
    decreases |outcomes|
  {
    if outcomes == [] || s.inFlight.None? then []
    else [s.inFlight.value] + SettleOrder(Settled(s, outcomes[0], env), outcomes[1..], env)
  }

  function CountTrue(bs: seq<bool>): nat {
    if bs == [] then 0 else (if bs[0] then 1 else 0) + CountTrue(bs[1..])
  }

  /**
   * Draining: with no new key events, the pending instructions settle in
   * exactly the order they were enqueued, each rejection is logged, none
   * stops the rest, and afterwards the queue is empty and idle.
   */
  lemma {:induction false} DrainRunsInOrder(s: AvatarState, outcomes: seq<bool>, env: Surroundings)
    requires QueueShape(s)
    requires |outcomes| >= |Pending(s)|
    ensures SettleOrder(s, outcomes, env) == Pending(s)
    ensures var r := SettleAll(s, outcomes, env);
      && !r.isProcessingQueue && r.inFlight.None? && r.instructionQueue == []
      && r.errorsLogged == s.errorsLogged + CountTrue(outcomes[..|Pending(s)|])
    decreases |outcomes|
  {
    if s.inFlight.None? {
      assert Pending(s) == [];
      assert outcomes[..0] == [];
    } else {
      SettlePops(s, outcomes[0], env);
      var s1 := Settled(s, outcomes[0], env);
      DrainRunsInOrder(s1, outcomes[1..], env);
      assert SettleOrder(s, outcomes, env) == [s.inFlight.value] + SettleOrder(s1, outcomes[1..], env);
      assert SettleAll(s, outcomes, env) == SettleAll(s1, outcomes[1..], env);
      assert [Pending(s)[0]] + Pending(s)[1..] == Pending(s);
      var n := |Pending(s)|;
      assert CountTrue(outcomes[..n]) == (if outcomes[0] then 1 else 0) + CountTrue(outcomes[1..][..n - 1]) by {
        assert outcomes[..n][1..] == outcomes[1..][..n - 1];
        assert outcomes[..n][0] == outcomes[0];
      }
    }
  }

  /** The scenario of an error in the middle: the failing first instruction does not keep the second from running. */
  lemma RejectionDoesNotStopDrain(s: AvatarState, env: Surroundings)
    requires QueueShape(s) && Pending(s) == [StopWalking, StartWalking]
    ensures SettleOrder(s, [true, false], env) == [StopWalking, StartWalking]
    ensures SettleAll(s, [true, false], env).errorsLogged == s.errorsLogged + 1
  {
    DrainRunsInOrder(s, [true, false], env);
    assert [true, false][..2] == [true, false];
    assert CountTrue([true, false]) == 1 by {
      assert [true, false][1..] == [false];
      assert [false][1..] == [];
    }
  }

  // ---------------------------------------------------------------------------
  // The invariant of the avatar
  // ---------------------------------------------------------------------------

  function TurnCount(p: seq<Instruction>): nat {
    if p == [] then 0 else (if p[0].TurnTo? then 1 else 0) + TurnCount(p[1..])
  }

  lemma {:induction false} TurnCountOfConcat(a: seq<Instruction>, b: seq<Instruction>)
    ensures TurnCount(a + b) == TurnCount(a) + TurnCount(b)
  {
    if a == [] {
      assert a + b == b;
    } else {
      assert (a + b)[1..] == a[1..] + b;
      TurnCountOfConcat(a[1..], b);
    }
  }

  lemma {:induction false} NoTurnCounted(p: seq<Instruction>)
    ensures TurnCount(p) == 0 <==> forall i | i in p :: !i.TurnTo?
  {
    if p != [] {
      NoTurnCounted(p[1..]);
      assert forall i | i in p :: i == p[0] || i in p[1..];
    }
  }

  /** A pending turn was computed from the current heading towards a cardinal point. */
  predicate TurnAgrees(heading: Heading, i: Instruction) {
    i.TurnTo? ==>
      heading.Facing? && IsCardinal(i.newDirection)
      && FindRequiredTurn(heading, Some(i.newDirection)) == Some(i.turn)
  }

  /**
   * The avatar's invariant:
   *  - the queue shape (one instruction in flight at most, waiting only behind it);
   *  - opposing keys are never both held;
   *  - the heading is 'front' until load, then the label `QuarterHeading` gives the rotation;
   *  - before load only walk stops can be pending;
   *  - at most one turn is pending, `turning` is set while it is, and it was
   *    computed from the current heading.
   */
  predicate Valid(s: AvatarState) {
    QueueShape(s) && Steady(s)
  }

  /** Everything in `Valid` but the queue shape. */
  predicate Steady(s: AvatarState) {
    NoOpposingKeys(s.keysPressed)
    && (s.loaded <==> s.heading.Facing?)
    && (s.heading.Facing? ==> s.heading.dir == QuarterHeading(s.turnQuarters))
    && (forall i | i in Pending(s) :: (!s.loaded ==> i == StopWalking) && TurnAgrees(s.heading, i))
    && TurnCount(Pending(s)) <= 1
    && (TurnCount(Pending(s)) == 1 ==> s.turning)
  }

  lemma InitialIsValid(walkable: seq<Point>)
    ensures Valid(Initial(walkable))
    ensures Pending(Initial(walkable)) == []
  {
  }

  lemma LoadKeepsValid(s: AvatarState, at: Point)
    requires Valid(s) && !s.loaded
    ensures Valid(Loaded(s, at))
    ensures Loaded(s, at).heading == Facing(N)
  {
    NoTurnCounted(Pending(s));
  }

  /** Processing restores the queue shape and leaves the rest of the invariant alone. */
  lemma ProcessedKeepsValid(s: AvatarState, env: Surroundings)
    requires (s.isProcessingQueue <==> s.inFlight.Some?) && (!s.isProcessingQueue || QueueShape(s))
    requires Steady(s)
    ensures Valid(Processed(s, env))
  {
    ProcessingKeepsOrder(s, env);
    if !s.isProcessingQueue && s.instructionQueue != [] {
      var q := s.instructionQueue;
      BegunKeepsQueueAndHeading(s.(isProcessingQueue := true, inFlight := Some(q[0]), instructionQueue := q[1..]), q[0], env);
    }
  }

  /** Enqueuing keeps the invariant when the instruction is allowed in the current state. */
  lemma EnqueueKeepsValid(s: AvatarState, i: Instruction, env: Surroundings)
    requires Valid(s)
    requires !s.loaded ==> i == StopWalking
    requires TurnAgrees(s.heading, i)
    requires i.TurnTo? ==> TurnCount(Pending(s)) == 0 && s.turning
    ensures Valid(Enqueued(s, i, env))
  {
    var s1 := s.(instructionQueue := s.instructionQueue + [i]);
    EnqueueAppends(s, i, env);
    TurnCountOfConcat(Pending(s), [i]);
    assert TurnCount([i]) == (if i.TurnTo? then 1 else 0);
    ProcessingKeepsOrder(s1, env);
    if !s1.isProcessingQueue && s1.instructionQueue != [] {
      var q := s1.instructionQueue;
      BegunKeepsQueueAndHeading(s1.(isProcessingQueue := true, inFlight := Some(q[0]), instructionQueue := q[1..]), q[0], env);
    }
  }

  /**
   * Settling keeps the invariant. A completed turn sets the heading to its
   * target and turns the rotation by the same amount, so heading and
   * rotation stay in step; a rejected turn leaves both as they were.
   */
  lemma SettleKeepsValid(s: AvatarState, threw: bool, env: Surroundings)
    requires Valid(s) && s.inFlight.Some?
    ensures Valid(Settled(s, threw, env))
  {
    var i := s.inFlight.value;
    var idle := if threw || !i.TurnTo? then SettleIdle(s, threw) else TurnSettleIdle(s);
    assert AfterAwait(s, threw) == idle;
    ProcessedKeepsValid(idle, env);
  }

  /** The state between a non-turn (or rejected) instruction settling and the next one starting. */
  function SettleIdle(s: AvatarState, threw: bool): (idle: AvatarState)
    requires Valid(s) && s.inFlight.Some?
    ensures !idle.isProcessingQueue && idle.inFlight.None? && Pending(idle) == s.instructionQueue
    ensures !threw && !s.inFlight.value.TurnTo? ==> Steady(idle)
    ensures threw ==> Steady(idle)
  {
    var q := s.instructionQueue;
    assert Pending(s) == [s.inFlight.value] + q;
    assert forall j | j in q :: j in Pending(s);
    TurnCountOfConcat([s.inFlight.value], q);
    var r := s.(errorsLogged := if threw then s.errorsLogged + 1 else s.errorsLogged,
                isProcessingQueue := false, inFlight := None);
    assert Pending(r) == q;
    r
  }

  /** The state between a turn completing and the next instruction starting. */
  function TurnSettleIdle(s: AvatarState): (idle: AvatarState)
    requires Valid(s) && s.inFlight.Some? && s.inFlight.value.TurnTo?
    ensures !idle.isProcessingQueue && idle.inFlight.None? && Pending(idle) == s.instructionQueue
    ensures Steady(idle)
  {
    var i := s.inFlight.value;
    var q := s.instructionQueue;
    assert Pending(s) == [i] + q;
    assert i in Pending(s);
    TurnCountOfConcat([i], q);
    assert TurnCount([i]) == 1;
    NoTurnCounted(q);
    RequiredTurnRotatesOntoTarget(s.turnQuarters, s.heading.dir, i.newDirection);
    var r := s.(turnQuarters := s.turnQuarters + TurnQuarters(i.turn), heading := Facing(i.newDirection),
                turning := false, isProcessingQueue := false, inFlight := None);
    assert Pending(r) == q;
    r
  }

  lemma {:induction false} EnqueueAllKeepsValid(s: AvatarState, instructions: seq<Instruction>, env: Surroundings)
    requires Valid(s)
    requires !s.loaded ==> instructions == []
    requires forall i | i in instructions :: !i.TurnTo?
    ensures Valid(EnqueuedAll(s, instructions, env))
    ensures EnqueuedAll(s, instructions, env).loaded == s.loaded
    decreases |instructions|
  {
    if instructions != [] {
      EnqueueKeepsValid(s, instructions[0], env);
      ProcessingKeepsOrder(s.(instructionQueue := s.instructionQueue + [instructions[0]]), env);
      var s1 := Enqueued(s, instructions[0], env);
      assert s1.loaded == s.loaded by {
        var t := s.(instructionQueue := s.instructionQueue + [instructions[0]]);
        if !t.isProcessingQueue && t.instructionQueue != [] {
          var q := t.instructionQueue;
          BegunKeepsQueueAndHeading(t.(isProcessingQueue := true, inFlight := Some(q[0]), instructionQueue := q[1..]), q[0], env);
        }
      }
      assert forall i | i in instructions[1..] :: i in instructions;
      EnqueueAllKeepsValid(s1, instructions[1..], env);
    }
  }

  /**
   * A key press keeps the invariant: the keys are normalised, a turn is
   * added only when none is pending, and nothing but a walk stop is
   * enqueued before load.
   */
  lemma KeyDownKeepsValid(s: AvatarState, key: string, env: Surroundings)
    requires Valid(s)
    ensures Valid(AfterKeyDown(s, key, env))
  {
    var add := KeyDownInstructions(s, key);
    var pressed := s.(keysPressed := NormaliseKeys(s.keysPressed + {key}),
                      turning := s.turning || (add != [] && add[0].TurnTo?));
    NormaliseKeysProperties(s.keysPressed + {key});
    assert Valid(pressed);
    if add != [] && add[0].TurnTo? {
      assert add == [add[0]];
      NoTurnCounted(Pending(s));
      assert s.heading.Facing?;
      EnqueueKeepsValid(pressed, add[0], env);
      assert EnqueuedAll(pressed, add, env) == Enqueued(pressed, add[0], env) by {
        assert add[1..] == [];
      }
    } else {
      assert forall i | i in add :: !i.TurnTo?;
      EnqueueAllKeepsValid(pressed, add, env);
    }
  }

  lemma KeyUpKeepsValid(s: AvatarState, key: string, env: Surroundings)
    requires Valid(s)
    ensures Valid(AfterKeyUp(s, key, env))
  {
    var released := s.(keysPressed := s.keysPressed - {key});
    assert Valid(released);
    if !Utils.DirectionPressed(released.keysPressed) {
      EnqueueKeepsValid(released, StopWalking, env);
    }
  }

  // ---------------------------------------------------------------------------
  // Key handling
  // ---------------------------------------------------------------------------

  /**
   * A key press enqueues exactly its instructions, at the back, and never
   * a turn together with a walk: either nothing, one turn (only when no
   * turn was under way, towards the key's direction, and then `turning`
   * is set), or a step preceded by a walk start only when the walk clip
   * was not running.
   */
  lemma KeyDownNeverTurnsAndWalks(s: AvatarState, key: string, env: Surroundings)
    requires QueueShape(s)
    ensures Pending(AfterKeyDown(s, key, env)) == Pending(s) + KeyDownInstructions(s, key)
    ensures var add := KeyDownInstructions(s, key);
      || add == []
      || (|add| == 1 && add[0].TurnTo?
          && !s.turning && AfterKeyDown(s, key, env).turning
          && KeyCompass(key) == Some(add[0].newDirection)
          && FindRequiredTurn(s.heading, KeyCompass(key)) == Some(add[0].turn))
      || (add == [TranslateForward] && s.walkRunning)
      || (add == [StartWalking, TranslateForward] && !s.walkRunning)
    ensures NoOpposingKeys(AfterKeyDown(s, key, env).keysPressed)
  {
    var add := KeyDownInstructions(s, key);
    var pressed := s.(keysPressed := NormaliseKeys(s.keysPressed + {key}),
                      turning := s.turning || (add != [] && add[0].TurnTo?));
    EnqueueAllAppends(pressed, add, env);
    NormaliseKeysProperties(s.keysPressed + {key});
    KeysSurviveProcessing(pressed, add, env);
  }

  /** Enqueuing never touches the keys or the `turning` flag. */
  lemma {:induction false} KeysSurviveProcessing(s: AvatarState, instructions: seq<Instruction>, env: Surroundings)
    ensures EnqueuedAll(s, instructions, env).keysPressed == s.keysPressed
    ensures EnqueuedAll(s, instructions, env).turning == s.turning
    decreases |instructions|
  {
    if instructions != [] {
      var t := s.(instructionQueue := s.instructionQueue + [instructions[0]]);
      if !t.isProcessingQueue && t.instructionQueue != [] {
        var q := t.instructionQueue;
        BegunKeepsQueueAndHeading(t.(isProcessingQueue := true, inFlight := Some(q[0]), instructionQueue := q[1..]), q[0], env);
      }
      KeysSurviveProcessing(Enqueued(s, instructions[0], env), instructions[1..], env);
    }
  }

  /**
   * Normalisation drops the key, not its turn: pressing `s` while `w` is
   * held leaves `s` unheld, yet the turn towards south is computed from
   * the pressed key and enqueued.
   */
  lemma OpposingKeyStillTurns(s: AvatarState, env: Surroundings)
    requires s.heading == Facing(N) && !s.turning && Utils.W in s.keysPressed
    ensures Utils.S !in AfterKeyDown(s, Utils.S, env).keysPressed
    ensures KeyDownInstructions(s, Utils.S) == [TurnTo(TurnBack, S)]
  {
    Utils.ConstantsAreDistinct();
    var add := KeyDownInstructions(s, Utils.S);
    KeysSurviveProcessing(s.(keysPressed := NormaliseKeys(s.keysPressed + {Utils.S}),
                             turning := s.turning || (add != [] && add[0].TurnTo?)), add, env);
  }

  /** While a turn is under way, key presses enqueue nothing at all. */
  lemma TurningBlocksKeyDown(s: AvatarState, key: string)
    requires s.turning
    ensures KeyDownInstructions(s, key) == []
  {
  }

  /** Before the model has loaded, key presses enqueue nothing: the heading has no angle and `isWalking` throws. */
  lemma UnloadedKeyDownEnqueuesNothing(s: AvatarState, key: string)
    requires !s.loaded && s.heading == Front
    ensures KeyDownInstructions(s, key) == []
  {
  }

  /**
   * A rejected turn skips its continuation, so `turning` stays set and
   * every later key press enqueues nothing.
   */
  lemma RejectedTurnBlocksLaterKeys(s: AvatarState, env: Surroundings, key: string)
    requires QueueShape(s) && s.inFlight.Some? && s.inFlight.value.TurnTo? && s.turning
    ensures Settled(s, true, env).turning
    ensures KeyDownInstructions(Settled(s, true, env), key) == []
  {
    var idle := s.(errorsLogged := s.errorsLogged + 1).(isProcessingQueue := false, inFlight := None);
    if idle.instructionQueue != [] {
      var q := idle.instructionQueue;
      BegunKeepsQueueAndHeading(idle.(isProcessingQueue := true, inFlight := Some(q[0]), instructionQueue := q[1..]), q[0], env);
    }
  }

  /** Releasing the last held direction enqueues a walk stop at the back; otherwise nothing is enqueued. */
  lemma KeyUpStopsWalking(s: AvatarState, key: string, env: Surroundings)
    requires QueueShape(s)
    ensures !Utils.DirectionPressed(s.keysPressed - {key}) ==>
      Pending(AfterKeyUp(s, key, env)) == Pending(s) + [StopWalking]
    ensures Utils.DirectionPressed(s.keysPressed - {key}) ==> Pending(AfterKeyUp(s, key, env)) == Pending(s)
    ensures key !in AfterKeyUp(s, key, env).keysPressed
  {
    var released := s.(keysPressed := s.keysPressed - {key});
    if !Utils.DirectionPressed(released.keysPressed) {
      EnqueueAppends(released, StopWalking, env);
      var t := released.(instructionQueue := released.instructionQueue + [StopWalking]);
      if !t.isProcessingQueue && t.instructionQueue != [] {
        var q := t.instructionQueue;
        BegunKeepsQueueAndHeading(t.(isProcessingQueue := true, inFlight := Some(q[0]), instructionQueue := q[1..]), q[0], env);
      }
    }
  }

  /**
   * A full turn from an idle, loaded avatar headed north: pressing `d`
   * starts a right turn at once, and when its animation finishes the
   * heading is east, the rotation a quarter turn further, and it may turn again.
   */
  lemma TurnScenario(s: AvatarState, env: Surroundings)
    requires Valid(s) && s.loaded && s.heading == Facing(N) && !s.turning && Pending(s) == []
    ensures var r := AfterKeyDown(s, Utils.D, env);
      && r.inFlight == Some(TurnTo(TurnRight, E)) && r.turning
      && Settled(r, false, env).heading == Facing(E)
      && Settled(r, false, env).turnQuarters == s.turnQuarters + 1
      && !Settled(r, false, env).turning
  {
    Utils.ConstantsAreDistinct();
    assert KeyDownInstructions(s, Utils.D) == [TurnTo(TurnRight, E)];
    KeyDownNeverTurnsAndWalks(s, Utils.D, env);
    var r := AfterKeyDown(s, Utils.D, env);
    KeyDownKeepsValid(s, Utils.D, env);
    assert Pending(r) == [TurnTo(TurnRight, E)];
    assert r.turnQuarters == s.turnQuarters by {
      BegunTurnKeepsRotation(s, key := Utils.D, env := env);
    }
    var idle := Completed(r, r.inFlight.value).(isProcessingQueue := false, inFlight := None);
    assert idle.instructionQueue == [];
  }

  /** Pressing a key never changes the rotation by itself; only a settled turn does. */
  lemma BegunTurnKeepsRotation(s: AvatarState, key: string, env: Surroundings)
    ensures AfterKeyDown(s, key, env).turnQuarters == s.turnQuarters
    ensures AfterKeyDown(s, key, env).heading == s.heading
  {
    var add := KeyDownInstructions(s, key);
    var pressed := s.(keysPressed := NormaliseKeys(s.keysPressed + {key}),
                      turning := s.turning || (add != [] && add[0].TurnTo?));
    HeadingSurvivesEnqueue(pressed, add, env);
  }

  lemma {:induction false} HeadingSurvivesEnqueue(s: AvatarState, instructions: seq<Instruction>, env: Surroundings)
    ensures EnqueuedAll(s, instructions, env).turnQuarters == s.turnQuarters
    ensures EnqueuedAll(s, instructions, env).heading == s.heading
    decreases |instructions|
  {
    if instructions != [] {
      var t := s.(instructionQueue := s.instructionQueue + [instructions[0]]);
      if !t.isProcessingQueue && t.instructionQueue != [] {
        var q := t.instructionQueue;
        BegunKeepsQueueAndHeading(t.(isProcessingQueue := true, inFlight := Some(q[0]), instructionQueue := q[1..]), q[0], env);
      }
      HeadingSurvivesEnqueue(Enqueued(s, instructions[0], env), instructions[1..], env);
    }
  }

  // ---------------------------------------------------------------------------
  // Stepping forward
  // ---------------------------------------------------------------------------

  /**
   * A step is committed exactly when the candidate position is in the
   * walkable region and unobstructed; otherwise the model stays put. So
   * an avatar inside the walkable region never leaves it by stepping.
   */
  lemma TranslateCommitsOnlyWalkableSteps(s: AvatarState, env: Surroundings)
    ensures var candidate := Point(s.position.x + env.dx, s.position.y + env.dz);
      Translated(s, env).position == (if Inside(candidate, s.walkableRegion) && !env.blocked then candidate else s.position)
    ensures Inside(s.position, s.walkableRegion) ==> Inside(Translated(s, env).position, s.walkableRegion)
    ensures env.blocked ==> Translated(s, env) == s
  {
  }

  /** The avatar stands in the walkable region. */
  predicate OnWalkableGround(s: AvatarState) {
    Inside(s.position, s.walkableRegion)
  }

  lemma ProcessedStaysWalkable(s: AvatarState, env: Surroundings)
    requires OnWalkableGround(s)
    ensures OnWalkableGround(Processed(s, env))
  {
  }

  /** Once on walkable ground, no key press takes the avatar off it. */
  lemma KeyDownStaysWalkable(s: AvatarState, key: string, env: Surroundings)
    requires OnWalkableGround(s)
    ensures OnWalkableGround(AfterKeyDown(s, key, env))
  {
    var add := KeyDownInstructions(s, key);
    var pressed := s.(keysPressed := NormaliseKeys(s.keysPressed + {key}),
                      turning := s.turning || (add != [] && add[0].TurnTo?));
    EnqueueAllStaysWalkable(pressed, add, env);
  }

  /** Nor does a key release. */
  lemma KeyUpStaysWalkable(s: AvatarState, key: string, env: Surroundings)
    requires OnWalkableGround(s)
    ensures OnWalkableGround(AfterKeyUp(s, key, env))
  {
    ProcessedStaysWalkable(s.(keysPressed := s.keysPressed - {key}, instructionQueue := s.instructionQueue + [StopWalking]), env);
  }

  /** Nor does an instruction settling, which may start the next step. */
  lemma SettleStaysWalkable(s: AvatarState, threw: bool, env: Surroundings)
    requires OnWalkableGround(s) && s.inFlight.Some?
    ensures OnWalkableGround(Settled(s, threw, env))
  {
    ProcessedStaysWalkable(AfterAwait(s, threw), env);
  }

  lemma {:induction false} EnqueueAllStaysWalkable(s: AvatarState, instructions: seq<Instruction>, env: Surroundings)
    requires OnWalkableGround(s)
    ensures OnWalkableGround(EnqueuedAll(s, instructions, env))
    decreases |instructions|
  {
    if instructions != [] {
      ProcessedStaysWalkable(s.(instructionQueue := s.instructionQueue + [instructions[0]]), env);
      EnqueueAllStaysWalkable(Enqueued(s, instructions[0], env), instructions[1..], env);
    }
  }

  /** Enqueuing one or two instructions, spelled out. */
  lemma EnqueuedAllShort(s: AvatarState, a: Instruction, b: Instruction, env: Surroundings)
    ensures EnqueuedAll(s, [], env) == s
    ensures EnqueuedAll(s, [a], env) == Enqueued(s, a, env)
    ensures EnqueuedAll(s, [b], env) == Enqueued(s, b, env)
    ensures EnqueuedAll(s, [a, b], env) == Enqueued(Enqueued(s, a, env), b, env)
  {
    assert [a][1..] == [];
    assert [a, b][1..] == [b];
    assert [b][1..] == [];
    assert EnqueuedAll(Enqueued(s, a, env), [b], env) == Enqueued(Enqueued(s, a, env), b, env);
  }

  /** The decision of `KeyDownInstructions`, branch by branch, in the terms `handleKeyDown` tests. */
  lemma KeyDownInstructionsCases(s: AvatarState, key: string)
    ensures var turn := FindRequiredTurn(s.heading, KeyCompass(key));
      turn.Some? ==> KeyCompass(key).Some?
    ensures var turn := FindRequiredTurn(s.heading, KeyCompass(key));
      turn.Some? && !s.turning ==> KeyDownInstructions(s, key) == [TurnTo(turn.value, KeyCompass(key).value)]
    ensures var turn := FindRequiredTurn(s.heading, KeyCompass(key));
      var keys := NormaliseKeys(s.keysPressed + {key});
      !(turn.Some? && !s.turning) ==>
        KeyDownInstructions(s, key) == WalkInstructions(s.(keysPressed := keys))
  {
  }

  /** `AfterKeyDown` in the two shapes the handler takes: a turn, or the walking half. */
  lemma AfterKeyDownCases(s: AvatarState, key: string, env: Surroundings)
    ensures var turn := FindRequiredTurn(s.heading, KeyCompass(key));
      var keys := NormaliseKeys(s.keysPressed + {key});
      && (turn.Some? ==> KeyCompass(key).Some?)
      && (turn.Some? && !s.turning ==>
            AfterKeyDown(s, key, env) == Enqueued(s.(keysPressed := keys, turning := true), TurnTo(turn.value, KeyCompass(key).value), env))
      && (!(turn.Some? && !s.turning) ==>
            AfterKeyDown(s, key, env) == EnqueuedAll(s.(keysPressed := keys), WalkInstructions(s.(keysPressed := keys)), env))
  {
    KeyDownInstructionsCases(s, key);
    var turn := FindRequiredTurn(s.heading, KeyCompass(key));
    var keys := NormaliseKeys(s.keysPressed + {key});
    if turn.Some? && !s.turning {
      var i := TurnTo(turn.value, KeyCompass(key).value);
      EnqueuedAllShort(s.(keysPressed := keys, turning := true), i, i, env);
    } else {
      var add := WalkInstructions(s.(keysPressed := keys));
      assert add == [] || !add[0].TurnTo?;
      assert s.(keysPressed := keys, turning := s.turning || (add != [] && add[0].TurnTo?)) == s.(keysPressed := keys);
    }
  }

  // ---------------------------------------------------------------------------
  // The avatar object
  // ---------------------------------------------------------------------------

  class Avatar {
    var keysPressed: set<string>
    var heading: Heading
    var turning: bool
    var instructionQueue: seq<Instruction>
    var isProcessingQueue: bool
    var inFlight: Option<Instruction>
    var turnQuarters: int
    var walkRunning: bool
    var soundPlaying: bool
    var loaded: bool
    var position: Point
    var errorsLogged: nat

    const walkableRegion: seq<Point>
    const interactiveRegion: seq<Point>

    function State(): AvatarState
      reads this
    {
      AvatarState(keysPressed, heading, turning, instructionQueue, isProcessingQueue, inFlight,
                  turnQuarters, walkRunning, soundPlaying, loaded, position, errorsLogged, walkableRegion)
    }

    constructor (walkable: seq<Point>, interactive: seq<Point>)
      ensures State() == Initial(walkable) && interactiveRegion == interactive
    {
      keysPressed := {};
      heading := Front;
      turning := false;
      instructionQueue := [];
      isProcessingQueue := false;
      inFlight := None;
      turnQuarters := 0;
      walkRunning := false;
      soundPlaying := false;
      loaded := false;
      position := Point(0.0, 0.0);
      errorsLogged := 0;
      walkableRegion := walkable;
      interactiveRegion := interactive;
    }

    /** The loader callback, with the loaded model standing at `at`. */
    method Load(at: Point)
      modifies this
      ensures State() == Loaded(old(State()), at)
    {
      position := at;
      walkRunning := false;   // the idle clip is the one playing
      loaded := true;
      heading := Facing(N);
      turnQuarters := 0;
    }

    method EnqueueInstruction(instruction: Instruction, env: Surroundings)
      modifies this
      ensures State() == Enqueued(old(State()), instruction, env)
    {
      instructionQueue := instructionQueue + [instruction];
      ProcessInstructionQueue(env);
    }

    method ProcessInstructionQueue(env: Surroundings)
      modifies this
      ensures State() == Processed(old(State()), env)
    {
      if isProcessingQueue || |instructionQueue| == 0 {
        return;
      }
      isProcessingQueue := true;
      var nextInstruction := instructionQueue[0];
      instructionQueue := instructionQueue[1..];
      inFlight := Some(nextInstruction);
      Begin(nextInstruction, env);
    }

    /** Run an instruction up to its first `await`. */
    method Begin(instruction: Instruction, env: Surroundings)
      modifies this
      ensures State() == Begun(old(State()), instruction, env)
    {
      match instruction {
        case TurnTo(t, _) =>
          if loaded {
            walkRunning := false;   // every other running clip is stopped
          }
        case StartWalking =>
          soundPlaying := true;
          ToggleWalking(true);
        case TranslateForward =>
          if loaded {
            TranslateAvatarZ(env);
          }
        case StopWalking =>
          soundPlaying := false;
          ToggleWalking(false);
      }
    }

    /** Swap the idle and walk clips; before load the actions table is null and the call throws first. */
    method ToggleWalking(state: bool)
      modifies this
      ensures State() == if old(loaded) then old(State()).(walkRunning := state) else old(State())
    {
      if !loaded {
        return;
      }
      walkRunning := state;
    }

    /** The in-flight instruction's `await` resolves, or rejects when `threw`. */
    method InstructionSettled(threw: bool, env: Surroundings)
      requires inFlight.Some?
      modifies this
      ensures State() == Settled(old(State()), threw, env)
    {
      Continue(threw);
      isProcessingQueue := false;
      inFlight := None;
      ProcessInstructionQueue(env);
    }

    /** What follows the `await`: the error is caught and logged, or the instruction's continuation runs. */
    method Continue(threw: bool)
      requires inFlight.Some?
      modifies this`errorsLogged, this`turnQuarters, this`heading, this`turning
      ensures State().(isProcessingQueue := false, inFlight := None) == AfterAwait(old(State()), threw)
      ensures isProcessingQueue == old(isProcessingQueue) && instructionQueue == old(instructionQueue)
    {
      var instruction := inFlight.value;
      if threw {
        errorsLogged := errorsLogged + 1;
      } else if instruction.TurnTo? {
        CompleteTurnTo(instruction.turn);
        heading := Facing(instruction.newDirection);
        turning := false;
      }
    }

    /** The rotation update `turnTo` makes once its animation has finished. */
    method CompleteTurnTo(direction: Turn)
      modifies this`turnQuarters
      ensures turnQuarters == old(turnQuarters) + TurnQuarters(direction)
    {
      match direction {
        case TurnLeft => turnQuarters := turnQuarters - 1;
        case TurnRight => turnQuarters := turnQuarters + 1;
        case TurnBack => turnQuarters := turnQuarters + 2;
      }
    }

    method TranslateAvatarZ(env: Surroundings)
      modifies this`position
      ensures State() == Translated(old(State()), env)
    {
      var candidate := Point(position.x + env.dx, position.y + env.dz);
      var _ := IsInTheInteractiveRegion();   // only logged
      var walkable := IsPointInsidePolygon(candidate, walkableRegion);
      if walkable {
        if env.blocked {
          return;
        }
        position := candidate;
      }
    }

    /** Before load the model is null, and reading its position throws a TypeError. */
    method IsInTheInteractiveRegion() returns (inside: Result<bool>)
      ensures !loaded ==> inside.Failure?
      ensures loaded ==> inside == Ok(Inside(position, interactiveRegion))
    {
      if !loaded {
        return Failure("TypeError: this.model is null");
      }
      var found := IsPointInsidePolygon(position, interactiveRegion);
      inside := Ok(found);
    }

    method HandleKeyDown(key: string, env: Surroundings)
      modifies this
      ensures State() == AfterKeyDown(old(State()), key, env)
    {
      AfterKeyDownCases(State(), key, env);
      PressKey(key);
      var newDirection := KeyCompass(key);
      var requiredTurn := FindRequiredTurn(heading, newDirection);
      if requiredTurn.Some? && !turning {
        turning := true;
        EnqueueInstruction(TurnTo(requiredTurn.value, newDirection.value), env);
        return;
      }
      EnqueueWalkIfFree(env);
    }

    /** Record the key as held; of two opposing keys, drop the second. */
    method PressKey(key: string)
      modifies this`keysPressed
      ensures keysPressed == NormaliseKeys(old(keysPressed) + {key})
    {
      keysPressed := keysPressed + {key};
      if Utils.W in keysPressed && Utils.S in keysPressed {
        keysPressed := keysPressed - {Utils.S};
      }
      if Utils.A in keysPressed && Utils.D in keysPressed {
        keysPressed := keysPressed - {Utils.D};
      }
    }

    /** The walking half of `handleKeyDown`. */
    method EnqueueWalkIfFree(env: Surroundings)
      modifies this
      ensures State() == EnqueuedAll(old(State()), WalkInstructions(old(State())), env)
    {
      EnqueuedAllShort(State(), StartWalking, TranslateForward, env);
      if !turning && Utils.DirectionPressed(keysPressed) {
        if !loaded {
          return;   // `isWalking` throws: the actions table is still null
        }
        if !walkRunning {
          EnqueueInstruction(StartWalking, env);
        }
        EnqueueInstruction(TranslateForward, env);
      }
    }

    method HandleKeyUp(key: string, env: Surroundings)
      modifies this
      ensures State() == AfterKeyUp(old(State()), key, env)
    {
      keysPressed := keysPressed - {key};
      if !Utils.DirectionPressed(keysPressed) {
        EnqueueInstruction(StopWalking, env);
      }
    }
  }
}
