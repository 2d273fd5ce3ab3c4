/** The pet companion: an Idle/Seeking follower with a comfort zone, a tether,
    and a tolerance timer that warps it back to the player after too long out
    of bounds. The player's flags, the distance to the player and the frame
    time are parameters. */
module Companion {
  import opened Common
  import Animation

  /** The serialized tunables of the pet. */
  datatype PetConfig = PetConfig(
    comfortZone: real,
    tether: real,
    tetherTolerance: real,
    toleranceTimerLimit: real)

  /** What the pet reads of the player each frame. */
  datatype PlayerView = PlayerView(
    position: Vec3,
    isMoving: bool,
    isRunning: bool,
    isDancing: bool,
    speed: real)

  /** One frame's inputs: the distance to the player, the player, and the frame time. */
  datatype PetTick = PetTick(distance: real, player: PlayerView, dt: real)

  /** The navigation agent's settable state. */
  datatype Agent = Agent(speed: real, destination: Vec3, position: Vec3)

  /** The pet's mutable fields and its agent, as a value; `moving` is the
      Seeking state and `!moving` the Idle state. */
  datatype PetState = PetState(moving: bool, timer: real, agent: Agent)

  /** The pet's starting state: Idle with the timer at zero. */
  function Initial(agent: Agent): PetState {
    PetState(false, 0.0, agent)
  }

  /** Head for the player at the player's current speed; the agent's position
      is left to the pathfinder. */
  function AfterHandleMovement(a: Agent, v: PlayerView): (r: Agent)
    ensures r.speed == v.speed && r.destination == v.position
    ensures r.position == a.position
  {
    a.(speed := v.speed, destination := v.position)
  }

  /** The pet is out of bounds, or the player stands still. */
  predicate OutOfTolerance(c: PetConfig, distance: real, v: PlayerView) {
    distance >= c.tetherTolerance || !v.isMoving
  }

  /** The tolerance check: while out of tolerance the timer runs; when it
      reaches the limit the agent is warped onto the player and the timer
      starts again from zero. */
  function AfterTetherTolerance(c: PetConfig, s: PetState, distance: real, v: PlayerView, dt: real): (r: PetState)
    ensures !OutOfTolerance(c, distance, v) ==> r == s
    ensures OutOfTolerance(c, distance, v) && s.timer + dt < c.toleranceTimerLimit ==>
              r == s.(timer := s.timer + dt)
    ensures OutOfTolerance(c, distance, v) && s.timer + dt >= c.toleranceTimerLimit ==>
              r == s.(timer := 0.0, agent := s.agent.(position := v.position))
  {
    if distance >= c.tetherTolerance || !v.isMoving then
      var timer := s.timer + dt;
      if timer >= c.toleranceTimerLimit then
        s.(timer := 0.0, agent := s.agent.(position := v.position))
      else
        s.(timer := timer)
    else
      s
  }

  /** One follow step: a seeking pet inside the comfort zone goes idle (the
      timer is kept); otherwise it runs the tolerance check and re-targets the
      player. An idle pet starts seeking once beyond the tether. */
  function AfterCheckMovement(c: PetConfig, s: PetState, t: PetTick): (r: PetState)
    ensures r.moving <==> (if s.moving then t.distance > c.comfortZone else t.distance > c.tether)
  {
    if s.moving then
      if t.distance <= c.comfortZone then
        s.(moving := false)
      else
        var s1 := AfterTetherTolerance(c, s, t.distance, t.player, t.dt);
        s1.(agent := AfterHandleMovement(s1.agent, t.player))
    else if t.distance > c.tether then
      s.(moving := true, agent := AfterHandleMovement(s.agent, t.player))
    else
      s
  }

  /** The timer runs on this step: seeking, outside the comfort zone, out of tolerance. */
  predicate Accumulates(c: PetConfig, s: PetState, t: PetTick) {
    s.moving && t.distance > c.comfortZone && OutOfTolerance(c, t.distance, t.player)
  }

  /** The step warps the agent onto the player. */
  predicate Warps(c: PetConfig, s: PetState, t: PetTick) {
    Accumulates(c, s, t) && s.timer + t.dt >= c.toleranceTimerLimit
  }

  // ---------------------------------------------------------------------------
  // One step

  /** An idle pet within the tether changes nothing at all. */
  lemma IdleWithinTetherStays(c: PetConfig, s: PetState, t: PetTick)
    requires !s.moving && t.distance <= c.tether
    ensures AfterCheckMovement(c, s, t) == s
  {
  }

  /** Idle to Seeking happens only beyond the tether; on that step the agent is
      sent to the player at the player's speed and the timer does not run. */
  lemma IdleBeyondTetherSeeks(c: PetConfig, s: PetState, t: PetTick)
    requires !s.moving
    ensures AfterCheckMovement(c, s, t).moving <==> t.distance > c.tether
    ensures t.distance > c.tether ==>
              var r := AfterCheckMovement(c, s, t);
              r.agent == Agent(t.player.speed, t.player.position, s.agent.position) &&
              r.timer == s.timer
  {
  }

  /** A seeking pet inside the comfort zone goes idle; the timer is not reset
      and the agent is not touched. */
  lemma SeekingInComfortZoneStops(c: PetConfig, s: PetState, t: PetTick)
    requires s.moving && t.distance <= c.comfortZone
    ensures AfterCheckMovement(c, s, t) == s.(moving := false)
  {
  }

  /** A seeking pet outside the comfort zone keeps seeking and re-targets the
      player at the player's speed. */
  lemma SeekingOutsideComfortZoneFollows(c: PetConfig, s: PetState, t: PetTick)
    requires s.moving && t.distance > c.comfortZone
    ensures var r := AfterCheckMovement(c, s, t);
            r.moving && r.agent.speed == t.player.speed && r.agent.destination == t.player.position
  {
  }

  /** The timer grows by the frame time exactly on an accumulating step that
      does not reach the limit, resets to zero exactly on a warping step, and
      is otherwise unchanged. */
  lemma TimerRule(c: PetConfig, s: PetState, t: PetTick)
    ensures var r := AfterCheckMovement(c, s, t);
            r.timer == (if Warps(c, s, t) then 0.0
                        else if Accumulates(c, s, t) then s.timer + t.dt
                        else s.timer)
  {
  }

  /** The agent's position changes only by a warp, and a warp puts it on the player. */
  lemma WarpRule(c: PetConfig, s: PetState, t: PetTick)
    ensures var r := AfterCheckMovement(c, s, t);
            r.agent.position == (if Warps(c, s, t) then t.player.position else s.agent.position)
  {
  }

  /** With non-negative frame times and a positive limit, the timer stays in
      `[0, limit)` across a step. */
  lemma TimerStaysBelowLimit(c: PetConfig, s: PetState, t: PetTick)
    requires 0.0 < c.toleranceTimerLimit
    requires 0.0 <= s.timer < c.toleranceTimerLimit && 0.0 <= t.dt
    ensures 0.0 <= AfterCheckMovement(c, s, t).timer < c.toleranceTimerLimit
  {
  }

  // ---------------------------------------------------------------------------
  // Many steps

  function Run(c: PetConfig, s: PetState, ts: seq<PetTick>): PetState
    decreases |ts|
  {
    if ts == [] then s else Run(c, AfterCheckMovement(c, s, ts[0]), ts[1..])
  }

  /** Some step of the run warps the agent. */
  predicate WarpsDuring(c: PetConfig, s: PetState, ts: seq<PetTick>)
    decreases |ts|
  {
    ts != [] && (Warps(c, s, ts[0]) || WarpsDuring(c, AfterCheckMovement(c, s, ts[0]), ts[1..]))
  }

  function TotalTime(ts: seq<PetTick>): real
    decreases |ts|
  {
    if ts == [] then 0.0 else ts[0].dt + TotalTime(ts[1..])
  }

  /** A timer in `[0, limit)` stays there after every run of frames with
      non-negative frame times; the pet starts at zero, so this always holds. */
  lemma {:induction false} TimerBoundedAlways(c: PetConfig, s: PetState, ts: seq<PetTick>)
    requires 0.0 < c.toleranceTimerLimit
    requires 0.0 <= s.timer < c.toleranceTimerLimit
    requires forall i :: 0 <= i < |ts| ==> 0.0 <= ts[i].dt
    ensures 0.0 <= Run(c, s, ts).timer < c.toleranceTimerLimit
    decreases |ts|
  {
    if ts != [] {
      TimerStaysBelowLimit(c, s, ts[0]);
      TimerBoundedAlways(c, AfterCheckMovement(c, s, ts[0]), ts[1..]);
    }
  }

  /** A seeking pet kept out of tolerance and outside the comfort zone on every
      frame for at least the remaining timer time is warped onto the player
      during the run. */
  lemma {:induction false} OutOfBoundsLongEnoughWarps(c: PetConfig, s: PetState, ts: seq<PetTick>)
    requires s.moving && s.timer < c.toleranceTimerLimit
    requires forall i :: 0 <= i < |ts| ==>
               ts[i].distance > c.comfortZone && OutOfTolerance(c, ts[i].distance, ts[i].player)
    requires TotalTime(ts) >= c.toleranceTimerLimit - s.timer
    ensures WarpsDuring(c, s, ts)
    decreases |ts|
  {
    if ts != [] && !Warps(c, s, ts[0]) {
      var s1 := AfterCheckMovement(c, s, ts[0]);
      TimerRule(c, s, ts[0]);
      assert s1.moving && s1.timer == s.timer + ts[0].dt;
      OutOfBoundsLongEnoughWarps(c, s1, ts[1..]);
    }
  }

  /** A seeking pet that never warps during a run of out-of-tolerance frames
      has accumulated exactly their total time. */
  lemma {:induction false} TimerAccumulatesWithoutWarp(c: PetConfig, s: PetState, ts: seq<PetTick>)
    requires s.moving
    requires forall i :: 0 <= i < |ts| ==>
               ts[i].distance > c.comfortZone && OutOfTolerance(c, ts[i].distance, ts[i].player)
    requires !WarpsDuring(c, s, ts)
    ensures Run(c, s, ts).timer == s.timer + TotalTime(ts)
    ensures Run(c, s, ts).moving
    decreases |ts|
  {
    if ts != [] {
      var s1 := AfterCheckMovement(c, s, ts[0]);
      TimerRule(c, s, ts[0]);
      TimerAccumulatesWithoutWarp(c, s1, ts[1..]);
    }
  }

  // ---------------------------------------------------------------------------
  // The component

  /** The navigation agent the pet steers. */
  class NavMeshAgent {
    var speed: real
    var destination: Vec3
    var position: Vec3
    var stoppingDistance: real

    constructor (position: Vec3)
      ensures Value() == Agent(0.0, position, position)
    {
      speed, destination, this.position, stoppingDistance := 0.0, position, position, 0.0;
    }

    function Value(): Agent
      reads this
    {
      Agent(speed, destination, position)
    }

    /** Relocate at once, bypassing pathfinding. */
    method Warp(p: Vec3)
      modifies this
      ensures Value() == old(Value()).(position := p)
      ensures stoppingDistance == old(stoppingDistance)
    {
      position := p;
    }
  }

  class Pet {
    const cfg: PetConfig
    const agent: NavMeshAgent
    const petAnimator: Animation.Animator

    var isMoving: bool
    var toleranceTimer: real

    function State(): PetState
      reads this, agent
    {
      PetState(isMoving, toleranceTimer, agent.Value())
    }

    /** Set up, and make the agent stop at the comfort-zone distance. */
    constructor (cfg: PetConfig, agent: NavMeshAgent, petAnimator: Animation.Animator)
      modifies agent
      ensures this.cfg == cfg && this.agent == agent && this.petAnimator == petAnimator
      ensures State() == Initial(old(agent.Value()))
      ensures agent.stoppingDistance == cfg.comfortZone
    {
      this.cfg, this.agent, this.petAnimator := cfg, agent, petAnimator;
      isMoving, toleranceTimer := false, 0.0;
      new;
      agent.stoppingDistance := cfg.comfortZone;
    }

    method CheckMovement(t: PetTick)
      modifies this, agent
      ensures State() == AfterCheckMovement(cfg, old(State()), t)
      ensures agent.stoppingDistance == old(agent.stoppingDistance)
    {
      var distance := t.distance;
      if isMoving {
        if distance <= cfg.comfortZone {
          isMoving := false;
        } else {
          CheckTetherTolerance(distance, t.player, t.dt);
          HandleMovement(t.player);
        }
      } else if distance > cfg.tether {
        isMoving := true;
        HandleMovement(t.player);
      }
    }

    method CheckTetherTolerance(distance: real, v: PlayerView, dt: real)
      modifies this, agent
      ensures State() == AfterTetherTolerance(cfg, old(State()), distance, v, dt)
      ensures agent.stoppingDistance == old(agent.stoppingDistance)
    {
      if distance >= cfg.tetherTolerance || !v.isMoving {
        toleranceTimer := toleranceTimer + dt;
        if toleranceTimer >= cfg.toleranceTimerLimit {
          agent.Warp(v.position);
          toleranceTimer := 0.0;
        }
      }
    }

    method HandleMovement(v: PlayerView)
      modifies agent
      ensures agent.Value() == AfterHandleMovement(old(agent.Value()), v)
      ensures agent.stoppingDistance == old(agent.stoppingDistance)
    {
      agent.speed := v.speed;
      agent.destination := v.position;
    }

    /** Walk with the pet's own movement; run and dance with the player's flags. */
    method HandleAnimation(v: PlayerView)
      modifies petAnimator
      ensures petAnimator.Stored() ==
              Animation.Synced(old(petAnimator.Stored()), isMoving, v.isRunning, v.isDancing)
      ensures petAnimator.walking == isMoving && petAnimator.running == (isMoving && v.isRunning)
      ensures isMoving ==> !petAnimator.dancing
      ensures petAnimator.writes == old(petAnimator.writes) +
              Animation.SyncWrites(old(petAnimator.Stored()), isMoving, v.isRunning, v.isDancing)
    {
      Animation.Sync(petAnimator, isMoving, v.isRunning, v.isDancing);
    }

    /** One frame: follow, then animate. */
    method Update(t: PetTick)
      modifies this, agent, petAnimator
      ensures State() == AfterCheckMovement(cfg, old(State()), t)
      ensures agent.stoppingDistance == old(agent.stoppingDistance)
      ensures petAnimator.Stored() ==
              Animation.Synced(old(petAnimator.Stored()), isMoving, t.player.isRunning, t.player.isDancing)
      ensures petAnimator.writes == old(petAnimator.writes) +
              Animation.SyncWrites(old(petAnimator.Stored()), isMoving, t.player.isRunning, t.player.isDancing)
    {
      CheckMovement(t);
      HandleAnimation(t.player);
    }
  }
}
