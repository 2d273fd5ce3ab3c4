/** The player's movement and animation controller: input handlers that set
    mode flags, a per-frame tick that derives moving/running/speed and cancels
    click-to-move on arrival, the facing guard, the animation pass and the
    camera zoom. Engine readings (raycast hits, positions, distances, grounded
    state, the interpolated rotation) are parameters. */
module Controller {
  import opened Common
  import Animation

  /** The serialized tunables of the controller. */
  datatype Config = Config(
    walkSpeed: real,
    runSpeed: real,
    runOnClick: bool,
    targetThreshold: real,
    cameraScrollSpeed: real,
    cameraSizeMin: real,
    cameraSizeMax: real)

  /** The controller's mutable fields, as a value. */
  datatype Player = Player(
    movement: Vec3,         // currentMovement
    runPressed: bool,       // isRunPressed
    moving: bool,           // isMoving
    running: bool,          // isRunning
    dancing: bool,          // isDancing
    speed: real,
    movementPressed: bool,  // isMovementPressed
    target: Vec3,           // targetPosition
    clickToMove: bool,      // isClickToMove
    mousePressed: bool,
    facing: Rotation)       // transform.rotation

  /** What the engine reports during one movement tick. */
  datatype Reading = Reading(
    position: Vec3,            // transform.position
    raycast: Option<Vec3>,     // the hit point under the cursor, if any
    distance: real,            // distance from the player to the target at the arrival check
    grounded: bool)

  function Initial(facing: Rotation): Player {
    Player(Zero, false, false, false, false, 0.0, false, Zero, false, false, facing)
  }

  /** Entries of the 45-degree yaw matrix (cos 45 = sin 45), as the
      single-precision value the engine uses. */
  const Cos45: real := 0.70710677

  /** Rotate a screen-relative input by 45 degrees about the vertical axis so
      that it lines up with the isometric world grid. */
  function IsometricConversion(v: Vec3): (r: Vec3)
    ensures r.y == v.y
    ensures r.x == 0.0 && r.z == 0.0 <==> v.x == 0.0 && v.z == 0.0
  {
    Vec3(Cos45 * v.x + Cos45 * v.z, v.y, Cos45 * v.z - Cos45 * v.x)
  }

  // ---------------------------------------------------------------------------
  // Input handlers

  /** A directional-input event: cancels click-to-move and dancing, records
      the rotated input as the movement vector, and marks movement as pressed
      exactly when the input is nonzero. */
  function AfterMovementInput(p: Player, x: real, y: real): (r: Player)
    ensures !r.clickToMove && !r.dancing
    ensures r.movementPressed <==> x != 0.0 || y != 0.0
    ensures r.movement == Zero <==> x == 0.0 && y == 0.0
    ensures r.(clickToMove := p.clickToMove, dancing := p.dancing,
               movementPressed := p.movementPressed, movement := p.movement) == p
  {
    p.(clickToMove := false,
       dancing := false,
       movement := IsometricConversion(Vec3(x, 0.0, y)),
       movementPressed := x != 0.0 || y != 0.0)
  }

  /** Resolve the cursor against the world: a hit starts click-to-move toward
      the hit point held at the player's height and stops dancing; a miss
      changes nothing. */
  function AfterClickToMove(p: Player, hit: Option<Vec3>, position: Vec3): (r: Player)
    ensures hit.None? ==> r == p
    ensures hit.Some? ==> r.clickToMove && !r.dancing
    ensures hit.Some? ==> r.target == Vec3(hit.value.x, position.y, hit.value.z)
    ensures r.(clickToMove := p.clickToMove, dancing := p.dancing, target := p.target) == p
  {
    match hit
    case None => p
    case Some(point) =>
      p.(clickToMove := true,
         dancing := false,
         target := point.(y := point.y + (position.y - point.y)))
  }

  /** The click action is performed: the button is held, and the cursor is resolved. */
  function AfterClickPerformed(p: Player, hit: Option<Vec3>, position: Vec3): (r: Player)
    ensures r.mousePressed
    ensures hit.None? ==> r == p.(mousePressed := true)
    ensures hit.Some? ==> r.clickToMove && !r.dancing && r.target == Vec3(hit.value.x, position.y, hit.value.z)
  {
    AfterClickToMove(p.(mousePressed := true), hit, position)
  }

  /** The click action is released: only the held-button flag changes. */
  function AfterClickCanceled(p: Player): (r: Player)
    ensures !r.mousePressed && r.(mousePressed := p.mousePressed) == p
  {
    p.(mousePressed := false)
  }

  /** The run button changes: only the run-held flag changes, to the button value. */
  function AfterRun(p: Player, pressed: bool): (r: Player)
    ensures r.runPressed == pressed && r.(runPressed := p.runPressed) == p
  {
    p.(runPressed := pressed)
  }

  /** The dance action: only the dancing flag changes, and it becomes true. */
  function AfterDanceInput(p: Player): (r: Player)
    ensures r.dancing && r.(dancing := p.dancing) == p
  {
    p.(dancing := true)
  }

  /** The camera size after one scroll event: one step of the scroll speed,
      inward for a non-negative vertical scroll and outward for a negative
      one, clamped to the configured range. */
  function ZoomedSize(c: Config, size: real, scrollY: real): (r: real)
    ensures c.cameraSizeMin <= c.cameraSizeMax ==> c.cameraSizeMin <= r <= c.cameraSizeMax
    ensures r == Clamp(size - ScrollStep(c, scrollY), c.cameraSizeMin, c.cameraSizeMax)
  {
    var amountToScroll := (if scrollY >= 0.0 then 1.0 else -1.0) * c.cameraScrollSpeed;
    Clamp(size - amountToScroll, c.cameraSizeMin, c.cameraSizeMax)
  }

  // ---------------------------------------------------------------------------
  // Per-frame work

  /** The facing changes to the engine's interpolated rotation only while
      moving with a movement vector the engine does not take for zero. */
  function AfterRotation(p: Player, slerped: Rotation): (r: Player)
    ensures r.facing != p.facing ==> p.moving && !ApproxZero(p.movement)
    ensures p.moving && !ApproxZero(p.movement) ==> r.facing == slerped
    ensures r.(facing := p.facing) == p
  {
    if p.moving && !ApproxZero(p.movement) then p.(facing := slerped) else p
  }

  /** The movement tick. Moving, running and speed are derived from the flags
      held at the start of the tick; a held button re-resolves the cursor; then,
      while moving, click-to-move ends once the target is within the threshold,
      the movement vector heads for the target while click-to-move lasts, and
      its vertical part is dropped on the ground or pulled down in the air. */
  function AfterMovement(c: Config, p: Player, r: Reading): (q: Player)
    ensures q.moving == (p.clickToMove || p.movementPressed)
    ensures q.running == (p.runPressed || (p.clickToMove && c.runOnClick))
    ensures q.speed == if q.running then c.runSpeed else c.walkSpeed
    ensures q.clickToMove <==>
              (p.clickToMove || (p.mousePressed && r.raycast.Some?)) &&
              !(q.moving && r.distance <= c.targetThreshold)
    ensures q.dancing == (p.dancing && !(p.mousePressed && r.raycast.Some?))
    ensures !q.moving ==> q.movement == p.movement
    ensures q.runPressed == p.runPressed && q.movementPressed == p.movementPressed
    ensures q.mousePressed == p.mousePressed && q.facing == p.facing
  {
    var p1 := Flagged(c, p);
    var p2 := if p1.mousePressed then AfterClickToMove(p1, r.raycast, r.position) else p1;
    if !p2.moving then p2 else Steered(c, p2, r)
  }

  /** The flags, computed from the inputs before anything else. */
  function Flagged(c: Config, p: Player): Player {
    var moving := p.clickToMove || p.movementPressed;
    var running := p.runPressed || (p.clickToMove && c.runOnClick);
    var speed := if running || (p.clickToMove && c.runOnClick) then c.runSpeed else c.walkSpeed;
    p.(moving := moving, running := running, speed := speed)
  }

  /** The arrival check, the heading and the vertical adjustment of a moving frame. */
  function Steered(c: Config, p: Player, r: Reading): (q: Player)
    ensures q.clickToMove == (p.clickToMove && r.distance > c.targetThreshold)
    ensures q.clickToMove && r.distance > 0.00001 ==>
              q.movement.x * r.distance == p.target.x - r.position.x &&
              q.movement.z * r.distance == p.target.z - r.position.z
    ensures !q.clickToMove ==> q.movement.x == p.movement.x && q.movement.z == p.movement.z
    ensures r.grounded ==> q.movement.y == 0.0
    ensures !r.grounded && !q.clickToMove ==> q.movement.y == p.movement.y - 1.0
    ensures q == p.(clickToMove := q.clickToMove, movement := q.movement)
  {
    var clickToMove := if r.distance > c.targetThreshold then p.clickToMove else false;
    var heading := if clickToMove then Normalized(Sub(p.target, r.position), r.distance) else p.movement;
    var movement := if !r.grounded then heading.(y := heading.y - 1.0) else heading.(y := 0.0);
    p.(clickToMove := clickToMove, movement := movement)
  }

  // ---------------------------------------------------------------------------
  // Event sequences

  /** Everything that reaches the controller: the input callbacks and a frame.
      Zoom events act on the camera only and are modelled by `ZoomedSize`. */
  datatype Event =
    | MoveInput(x: real, y: real)
    | RunInput(pressed: bool)
    | ClickPerformed(hit: Option<Vec3>, position: Vec3)
    | ClickCanceled
    | DanceInput
    | Frame(slerped: Rotation, reading: Reading)

  /** A frame rotates, animates and moves; animating leaves these fields alone. */
  function Step(c: Config, p: Player, e: Event): Player {
    match e
    case MoveInput(x, y) => AfterMovementInput(p, x, y)
    case RunInput(pressed) => AfterRun(p, pressed)
    case ClickPerformed(hit, position) => AfterClickPerformed(p, hit, position)
    case ClickCanceled => AfterClickCanceled(p)
    case DanceInput => AfterDanceInput(p)
    case Frame(slerped, reading) => AfterMovement(c, AfterRotation(p, slerped), reading)
  }

  function Run(c: Config, p: Player, es: seq<Event>): Player
    decreases |es|
  {
    if es == [] then p else Run(c, Step(c, p, es[0]), es[1..])
  }

  /** An event that carries a raycast hit. */
  predicate CarriesHit(e: Event) {
    (e.ClickPerformed? && e.hit.Some?) || (e.Frame? && e.reading.raycast.Some?)
  }

  /** Once click-to-move is off, only a raycast hit turns it back on. */
  lemma {:induction false} ClickToMoveNeedsHit(c: Config, p: Player, es: seq<Event>)
    requires !p.clickToMove
    requires forall i :: 0 <= i < |es| ==> !CarriesHit(es[i])
    ensures !Run(c, p, es).clickToMove
    decreases |es|
  {
    if es != [] {
      assert !CarriesHit(es[0]);
      ClickToMoveNeedsHit(c, Step(c, p, es[0]), es[1..]);
    }
  }

  /** With run-on-click off and the run button never pressed, the player never
      runs and every frame moves at walking speed. */
  lemma {:induction false} WalksWithoutRunInput(c: Config, p: Player, es: seq<Event>)
    requires !c.runOnClick && !p.runPressed && !p.running
    requires forall i :: 0 <= i < |es| ==> es[i] != RunInput(true)
    ensures !Run(c, p, es).running && !Run(c, p, es).runPressed
    ensures es != [] && es[|es| - 1].Frame? ==> Run(c, p, es).speed == c.walkSpeed
    decreases |es|
  {
    if es != [] {
      assert es[0] != RunInput(true);
      var q := Step(c, p, es[0]);
      WalksWithoutRunInput(c, q, es[1..]);
      if |es| == 1 {
        assert es[1..] == [];
      } else {
        assert es[1..][|es[1..]| - 1] == es[|es| - 1];
      }
    }
  }

  /** A directional event cancels click-to-move at once: the very next frame is
      driven by the directional flag alone. */
  lemma MovementInputOverridesClick(c: Config, p: Player, x: real, y: real, slerped: Rotation, r: Reading)
    ensures var q := Step(c, AfterMovementInput(p, x, y), Frame(slerped, r));
            q.moving == (x != 0.0 || y != 0.0) &&
            q.running == p.runPressed &&
            (q.clickToMove <==> p.mousePressed && r.raycast.Some? && !(q.moving && r.distance <= c.targetThreshold))
  {
  }

  /** A zero directional input stops the player on the next frame and leaves
      its facing where it was. */
  lemma ZeroInputFreezesFacing(c: Config, p: Player, slerped: Rotation, r: Reading)
    ensures var q := Step(c, AfterMovementInput(p, 0.0, 0.0), Frame(slerped, r));
            !q.moving && q.facing == p.facing
  {
  }

  /** On the arrival frame the player still counts as moving (the flags were
      read before the check) and click-to-move ends; with no directional input
      and no held button, the following frame stops the player. */
  lemma ArrivalStopsNextFrame(c: Config, p: Player, s1: Rotation, r1: Reading, s2: Rotation, r2: Reading)
    requires p.clickToMove && !p.movementPressed && !p.mousePressed
    requires r1.distance <= c.targetThreshold
    ensures var q1 := Step(c, p, Frame(s1, r1));
            q1.moving && !q1.clickToMove &&
            !Step(c, q1, Frame(s2, r2)).moving
  {
  }

  /** A click does not clear the directional flag, so with a direction still
      held the player keeps moving after arriving, along the last heading
      toward the target rather than along the held direction. */
  lemma HeldDirectionKeepsClickHeading(c: Config, p: Player, s1: Rotation, r1: Reading, s2: Rotation, r2: Reading)
    requires p.clickToMove && p.movementPressed && !p.mousePressed
    requires r1.distance <= c.targetThreshold
    ensures var q1 := Step(c, p, Frame(s1, r1));
            var q2 := Step(c, q1, Frame(s2, r2));
            !q1.clickToMove && q2.moving &&
            q2.movement.x == p.movement.x && q2.movement.z == p.movement.z
  {
  }

  /** The signed size change of one scroll event (before clamping). */
  function ScrollStep(c: Config, scrollY: real): real {
    if scrollY >= 0.0 then c.cameraScrollSpeed else -c.cameraScrollSpeed
  }

  /** The camera size after scrolling the same way `n` times. */
  function ZoomRepeated(c: Config, size: real, scrollY: real, n: nat): real
  {
    if n == 0 then size else ZoomedSize(c, ZoomRepeated(c, size, scrollY, n - 1), scrollY)
  }

  /** The total signed change of `n` scroll events of `d` each. */
  function Scrolled(d: real, n: nat): real {
    if n == 0 then 0.0 else Scrolled(d, n - 1) + d
  }

  lemma {:induction false} ScrolledIsProduct(d: real, n: nat)
    ensures Scrolled(d, n) == (n as real) * d
    ensures d >= 0.0 ==> Scrolled(d, n) >= 0.0
    ensures d < 0.0 ==> Scrolled(d, n) <= 0.0
  {
    if n > 0 {
      ScrolledIsProduct(d, n - 1);
      assert (n as real) * d == ((n - 1) as real) * d + d;
    }
  }

  /** Scrolling the same way `n` times from a size inside the range is one
      clamp of the total scroll (`Scrolled`, which is `n` times the step). */
  lemma {:induction false} ZoomRepeatedIsOneClamp(c: Config, size: real, scrollY: real, n: nat)
    requires c.cameraSizeMin <= size <= c.cameraSizeMax
    ensures ZoomRepeated(c, size, scrollY, n) ==
            Clamp(size - Scrolled(ScrollStep(c, scrollY), n), c.cameraSizeMin, c.cameraSizeMax)
  {
    var d := ScrollStep(c, scrollY);
    if n > 0 {
      ZoomRepeatedIsOneClamp(c, size, scrollY, n - 1);
      ScrolledIsProduct(d, n - 1);
      ClampStep(size, Scrolled(d, n - 1), d, c.cameraSizeMin, c.cameraSizeMax);
    }
  }

  /** From inside the range, a step of `d` after a total of `m` scrolled the
      same way is one clamp of `m + d`. */
  lemma ClampStep(size: real, m: real, d: real, lo: real, hi: real)
    requires lo <= size <= hi
    requires d >= 0.0 ==> m >= 0.0
    requires d < 0.0 ==> m <= 0.0
    ensures Clamp(Clamp(size - m, lo, hi) - d, lo, hi) == Clamp(size - (m + d), lo, hi)
  {
  }

  // ---------------------------------------------------------------------------
  // The component

  /** The camera the controller zooms. */
  class Camera {
    var orthographicSize: real

    constructor (size: real)
      ensures orthographicSize == size
    {
      orthographicSize := size;
    }
  }

  class AnimationAndMovementController {
    const cfg: Config
    const mainCamera: Camera
    const animator: Animation.Animator

    var currentMovement: Vec3
    var isRunPressed: bool
    var isMoving: bool
    var isRunning: bool
    var isDancing: bool
    var speed: real
    var isMovementPressed: bool
    var targetPosition: Vec3
    var isClickToMove: bool
    var mousePressed: bool
    var facing: Rotation

    function State(): Player
      reads this
    {
      Player(currentMovement, isRunPressed, isMoving, isRunning, isDancing, speed,
             isMovementPressed, targetPosition, isClickToMove, mousePressed, facing)
    }

    constructor (cfg: Config, mainCamera: Camera, animator: Animation.Animator, facing: Rotation)
      ensures this.cfg == cfg && this.mainCamera == mainCamera && this.animator == animator
      ensures State() == Initial(facing)
    {
      this.cfg, this.mainCamera, this.animator := cfg, mainCamera, animator;
      currentMovement, isRunPressed := Zero, false;
      isMoving, isRunning, isDancing, speed := false, false, false, 0.0;
      isMovementPressed, targetPosition := false, Zero;
      isClickToMove, mousePressed := false, false;
      this.facing := facing;
    }

    method OnClickToMove(hit: Option<Vec3>, position: Vec3)
      modifies this
      ensures State() == AfterClickPerformed(old(State()), hit, position)
    {
      mousePressed := true;
      ClickToMove(hit, position);
    }

    method OnClickToMoveStop()
      modifies this
      ensures State() == AfterClickCanceled(old(State()))
    {
      mousePressed := false;
    }

    method ClickToMove(hit: Option<Vec3>, position: Vec3)
      modifies this
      ensures State() == AfterClickToMove(old(State()), hit, position)
    {
      if hit.Some? {
        isClickToMove := true;
        isDancing := false;
        targetPosition := hit.value;
        targetPosition := targetPosition.(y := targetPosition.y + (position.y - targetPosition.y));
      }
    }

    method OnMovementInput(x: real, y: real)
      modifies this
      ensures State() == AfterMovementInput(old(State()), x, y)
    {
      isClickToMove := false;
      isDancing := false;
      currentMovement := Vec3(x, 0.0, y);
      currentMovement := IsometricConversion(currentMovement);
      isMovementPressed := x != 0.0 || y != 0.0;
    }

    method OnRun(pressed: bool)
      modifies this
      ensures State() == AfterRun(old(State()), pressed)
    {
      isRunPressed := pressed;
    }

    method OnCameraZoom(scrollY: real)
      modifies mainCamera
      ensures mainCamera.orthographicSize == ZoomedSize(cfg, old(mainCamera.orthographicSize), scrollY)
    {
      var amountToScroll := if scrollY >= 0.0 then 1.0 else -1.0;
      amountToScroll := amountToScroll * cfg.cameraScrollSpeed;
      mainCamera.orthographicSize :=
        Clamp(mainCamera.orthographicSize - amountToScroll, cfg.cameraSizeMin, cfg.cameraSizeMax);
    }

    method OnDanceInput()
      modifies this
      ensures State() == AfterDanceInput(old(State()))
    {
      isDancing := true;
    }

    method HandleMovement(r: Reading)
      modifies this
      ensures State() == AfterMovement(cfg, old(State()), r)
    {
      isMoving := isClickToMove || isMovementPressed;
      isRunning := isRunPressed || (isClickToMove && cfg.runOnClick);
      speed := if isRunning || (isClickToMove && cfg.runOnClick) then cfg.runSpeed else cfg.walkSpeed;
      if mousePressed {
        ClickToMove(r.raycast, r.position);
      }
      if isMoving {
        Steer(r);
      }
    }

    /** The moving branch of `HandleMovement`: arrival check, heading, and the
        vertical adjustment. The character-controller move of
        currentMovement * dt * speed is external. */
    method Steer(r: Reading)
      modifies this
      ensures State() == Steered(cfg, old(State()), r)
    {
      isClickToMove := if r.distance > cfg.targetThreshold then isClickToMove else false;
      if isClickToMove {
        var direction := Sub(targetPosition, r.position);
        currentMovement := Normalized(direction, r.distance);
      }
      if !r.grounded {
        currentMovement := currentMovement.(y := currentMovement.y - 1.0);
      } else {
        currentMovement := currentMovement.(y := 0.0);
      }
    }

    method HandleRotation(slerped: Rotation)
      modifies this
      ensures State() == AfterRotation(old(State()), slerped)
    {
      if isMoving && !ApproxZero(currentMovement) {
        facing := slerped;
      }
    }

    method HandleAnimation()
      modifies animator
      ensures animator.Stored() == Animation.Synced(old(animator.Stored()), isMoving, isRunning, isDancing)
      ensures animator.walking == isMoving && animator.running == (isMoving && isRunning)
      ensures isMoving ==> !animator.dancing
      ensures animator.writes ==
              old(animator.writes) + Animation.SyncWrites(old(animator.Stored()), isMoving, isRunning, isDancing)
    {
      Animation.Sync(animator, isMoving, isRunning, isDancing);
    }

    /** One frame: rotate, animate, then move. */
    method Update(slerped: Rotation, r: Reading)
      modifies this, animator
      ensures State() == Step(cfg, old(State()), Frame(slerped, r))
      ensures animator.Stored() ==
              Animation.Synced(old(animator.Stored()), old(isMoving), old(isRunning), old(isDancing))
      ensures animator.writes == old(animator.writes) +
              Animation.SyncWrites(old(animator.Stored()), old(isMoving), old(isRunning), old(isDancing))
    {
      HandleRotation(slerped);
      HandleAnimation();
      HandleMovement(r);
    }
  }
}
