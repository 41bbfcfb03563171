/**
 * The enemy as values: its fields, its action machine, and what each of its
 * operations, handlers and timer callbacks does to them.
 *
 * The bullets it fires and the sight probes it spawns are recorded as output
 * logs; the sign of a probe's horizontal velocity is all the facing filter
 * reads of it.
 */
module EnemySpec {
  import opened StateMachines
  import opened EnemyModel

  /** The methods the enemy registers with its machine. */
  datatype EnemyHook = IdleEnter | WalkEnter | WalkUpdate | FireEnter | FireUpdate | DeathEnter

  /** The two repeating timers set up at construction: the roam timer and the sight timer. */
  datatype Interval = RoamInterval | SightInterval

  /** A bullet fired at the player: its speed and its bounce budget. */
  datatype Shot = Shot(speed: int, bounces: nat)

  /**
   * What one tick reads: which sides of the body are blocked, whether there is
   * ground just ahead on each side, whether the fire cue is still playing, and
   * the two random draws setRandomState may consume.
   */
  datatype Senses = Senses(
    blockedLeft: bool, blockedRight: bool, groundLeft: bool, groundRight: bool,
    cuePlaying: bool, roll: EnemyIdleAction, flip: bool)

  const StartingHitpoints: int := 3
  const WalkSpeed: int := 80
  const SightTimeout: int := 1000
  const BulletSpeed: int := 300
  const BulletBounces: nat := 2

  /** Everything of the enemy but its machine. */
  datatype Body = Body(
    hitpoints: int, vx: int, vy: int, flipX: bool,
    wallRecently: bool, detected: bool, lastSeen: int, alive: bool, active: bool,
    intervals: seq<Interval>, shots: seq<Shot>, probes: seq<int>)

  datatype EnemyView = EnemyView(body: Body, machine: Machine<EnemyAction, EnemyHook>)

  function IdleState(): State<EnemyAction, EnemyHook> { State(EnemyAction.Idle, Some(IdleEnter), None, None) }
  function WalkState(): State<EnemyAction, EnemyHook> { State(EnemyAction.Walk, Some(WalkEnter), Some(WalkUpdate), None) }
  function FireState(): State<EnemyAction, EnemyHook> { State(Fire, Some(FireEnter), Some(FireUpdate), None) }
  function DeathState(): State<EnemyAction, EnemyHook> { State(Death, Some(DeathEnter), None, None) }

  /** The machine as registered, unthrottled, before its first transition. */
  function EnemyMachine(): Machine<EnemyAction, EnemyHook>
  {
    Register(Register(Register(Register(Fresh(0), IdleState()), WalkState()), FireState()), DeathState())
  }

  function EnemyTable(): map<EnemyAction, State<EnemyAction, EnemyHook>>
  {
    map[EnemyAction.Idle := IdleState(), EnemyAction.Walk := WalkState(), Fire := FireState(), Death := DeathState()]
  }

  predicate IsDead(e: EnemyView)
  {
    IsCurrent(e.machine, Death)
  }

  /**
   * The machine between operations, alive exactly while not in DEATH, both
   * timers registered while alive and none after, and the body enabled
   * exactly while alive.
   */
  ghost predicate Consistent(e: EnemyView)
  {
    && Settled(e.machine, EnemyTable(), 0)
    && (e.body.alive <==> !IsDead(e))
    && e.body.active == e.body.alive
    && e.body.intervals == (if e.body.alive then [RoamInterval, SightInterval] else [])
  }

  /** A settled enemy: consistent, with at least one hitpoint while alive. */
  ghost predicate Valid(e: EnemyView)
  {
    Consistent(e) && (e.body.alive ==> e.body.hitpoints >= 1)
  }

  /** The clock is not behind the last transition. */
  predicate Since(e: EnemyView, now: int)
  {
    e.machine.lastChange.Some? ==> e.machine.lastChange.value <= now
  }

  /** An enter handler (no state has an exit handler; animations are not modelled). */
  function Handle(b: Body, h: Option<EnemyHook>): Body
  {
    if h.None? then b
    else match h.value
      case IdleEnter => b.(vx := 0, vy := 0)
      case WalkEnter => b.(wallRecently := false)
      case FireEnter => b.(vx := 0, vy := 0)
      case DeathEnter => b.(alive := false, intervals := [])
      case _ => b
  }

  /** setState, with the enemy running the exit and enter handlers in between. */
  function SetAction(e: EnemyView, a: EnemyAction, now: int): EnemyView
  {
    var begun := e.(machine := Begin(e.machine, a, now));
    if Judge(e.machine, a, now) == Proceeds then CompleteAction(begun, a, ExitHook(e.machine), now) else begun
  }

  function CompleteAction(e: EnemyView, a: EnemyAction, exitHook: Option<EnemyHook>, now: int): EnemyView
    requires a in e.machine.states
  {
    var m := Switch(e.machine, a);
    e.(body := Handle(Handle(e.body, exitHook), m.states[a].onEnter), machine := Finish(m, now))
  }

  /** Flips the facing on a coin toss, unless a wall was touched recently. */
  function RandomFlip(e: EnemyView, flip: bool): EnemyView
  {
    if e.body.wallRecently || !flip then e else e.(body := e.body.(flipX := !e.body.flipX))
  }

  /** Outside WALK the facing may flip; then IDLE or WALK is requested, as drawn. */
  function SetRandomState(e: EnemyView, roll: EnemyIdleAction, flip: bool, now: int): EnemyView
  {
    var e1 := if !IsCurrent(e.machine, EnemyAction.Walk) then RandomFlip(e, flip) else e;
    SetAction(e1, roll.AsAction(), now)
  }

  /** Walking into a wall: face away from it, stop, and remember the wall. */
  function Bump(e: EnemyView, flipX: bool, now: int): EnemyView
  {
    var e1 := SetAction(e.(body := e.body.(flipX := flipX)), EnemyAction.Idle, now);
    e1.(body := e1.body.(wallRecently := true))
  }

  /** No ground just ahead in the facing direction: stop. */
  function PreventFromFalling(e: EnemyView, s: Senses, now: int): EnemyView
  {
    if (!s.groundLeft && e.body.flipX) || (!s.groundRight && !e.body.flipX) then SetAction(e, EnemyAction.Idle, now)
    else e
  }

  function OnWalkUpdate(e: EnemyView, s: Senses, now: int): EnemyView
  {
    var e1 := e.(body := e.body.(vx := if e.body.flipX then -WalkSpeed else WalkSpeed));
    var e2 := if s.blockedLeft then Bump(e1, false, now) else if s.blockedRight then Bump(e1, true, now) else e1;
    PreventFromFalling(e2, s, now)
  }

  /** One bullet at the player: speed 300, two bounces, whichever way the enemy faces. */
  function FireAtTarget(e: EnemyView): EnemyView
  {
    e.(body := e.body.(shots := e.body.shots + [Shot(BulletSpeed, BulletBounces)]))
  }

  /** The target has not been seen for more than a second. */
  predicate TargetLost(b: Body, now: int)
  {
    now - b.lastSeen > SightTimeout
  }

  function OnFireUpdate(e: EnemyView, s: Senses, now: int): EnemyView
  {
    var e1 := if !s.cuePlaying && e.body.detected then FireAtTarget(e) else e;
    if TargetLost(e1.body, now) then SetRandomState(e1.(body := e1.body.(detected := false)), s.roll, s.flip, now)
    else e1
  }

  function RunHook(e: EnemyView, h: EnemyHook, s: Senses, now: int): EnemyView
  {
    match h
    case WalkUpdate => OnWalkUpdate(e, s, now)
    case FireUpdate => OnFireUpdate(e, s, now)
    case _ => e
  }

  /** update on the machine: a queued request, or the current update handler. */
  function UpdateMachine(e: EnemyView, s: Senses, delta: int, now: int): EnemyView
  {
    var started := e.(machine := StartUpdate(e.machine, delta, now));
    match TickOf(e.machine, delta, now)
    case Dequeued(a, verdict, exitHook) =>
      if verdict == Proceeds then CompleteAction(started, a, exitHook, now) else started
    case Ran(h) => RunHook(started, h, s, now)
    case Skipped => started
  }

  /** The per-frame update: the machine ticks only while the enemy is alive. */
  function Update(e: EnemyView, s: Senses, delta: int, now: int): EnemyView
  {
    if e.body.alive then UpdateMachine(e, s, delta, now) else e
  }

  /** A sight probe reached the player. */
  function PlayerDetected(e: EnemyView, now: int): EnemyView
  {
    if e.body.alive then SetAction(e.(body := e.body.(detected := true, lastSeen := now)), Fire, now)
    else e
  }

  function Die(e: EnemyView, now: int): EnemyView
  {
    var e1 := SetAction(e, Death, now);
    e1.(body := e1.body.(active := false))
  }

  /** No death guard: hitpoints drop on every hit, and a hit below one hitpoint calls die. */
  function Hit(e: EnemyView, damage: int, now: int): EnemyView
  {
    var e1 := e.(body := e.body.(hitpoints := e.body.hitpoints - damage));
    if e1.body.hitpoints < 1 then Die(e1, now) else e1
  }

  /** The roam timer's callback: a new random state unless a target is detected. */
  function Roam(e: EnemyView, roll: EnemyIdleAction, flip: bool, now: int): EnemyView
  {
    if !e.body.detected then SetRandomState(e, roll, flip, now) else e
  }

  /** The enemy faces the way a probe with this horizontal velocity would travel. */
  predicate Faces(flipX: bool, vx: int)
  {
    (flipX && vx <= 0) || (!flipX && vx >= 0)
  }

  /** createSightInstanceAtTarget: a probe is spawned only in the direction the enemy faces. */
  function SpawnProbe(e: EnemyView, vx: int): EnemyView
  {
    if Faces(e.body.flipX, vx) then e.(body := e.body.(probes := e.body.probes + [vx])) else e
  }

  /** The sight timer's callback: a probe towards the top and one towards the bottom of the player. */
  function Sight(e: EnemyView, top: int, bottom: int): EnemyView
  {
    SpawnProbe(SpawnProbe(e, top), bottom)
  }

  /** The enemy as the constructor leaves it: timers set, machine registered and in IDLE, facing left. */
  function Initial(now: int): EnemyView
  {
    var b := Body(StartingHitpoints, 0, 0, false, false, false, 0, true, true, [RoamInterval, SightInterval], [], []);
    var e := SetAction(EnemyView(b, EnemyMachine()), EnemyAction.Idle, now);
    e.(body := e.body.(flipX := true))
  }

  // ---------------------------------------------------------------------------
  // Reference definitions of the walking rules

  /** In WALK: a blocked side or a ledge ahead stops the enemy; otherwise it keeps walking. */
  function WalkNext(s: Senses, flipX: bool): EnemyAction
  {
    if s.blockedLeft || s.blockedRight then EnemyAction.Idle
    else if (!s.groundLeft && flipX) || (!s.groundRight && !flipX) then EnemyAction.Idle
    else EnemyAction.Walk
  }

  /** In WALK: a blocked side turns the enemy away from it. */
  function WalkFacing(s: Senses, flipX: bool): bool
  {
    if s.blockedLeft then false else if s.blockedRight then true else flipX
  }

  /** The velocity a walking enemy facing this way is given. */
  function WalkVelocity(flipX: bool): int
  {
    if flipX then -WalkSpeed else WalkSpeed
  }

  // ---------------------------------------------------------------------------
  // Properties

  lemma RegisteredTable()
    ensures EnemyMachine() == Fresh<EnemyAction, EnemyHook>(0).(states := EnemyTable())
  {
  }

  /**
   * setState on a settled enemy: a request that does not proceed changes
   * nothing; one that proceeds moves the machine, stamps the time and runs
   * the target's enter handler on the body.
   */
  lemma SetActionEffect(e: EnemyView, a: EnemyAction, now: int)
    requires Consistent(e) && (a == Death || (Valid(e) && !IsDead(e)))
    ensures var r := SetAction(e, a, now);
      && (Since(e, now) ==> Since(r, now))
      && (Judge(e.machine, a, now) != Proceeds ==> r == e)
      && (Judge(e.machine, a, now) == Proceeds ==>
            && r.body == Handle(e.body, EnemyTable()[a].onEnter)
            && CurrentName(r.machine) == Some(a)
            && Settled(r.machine, EnemyTable(), 0))
      && (a != Death ==> Valid(r))
  {
  }

  /** The fields no handler of the enemy touches. */
  predicate SameUntouched(b: Body, b': Body)
  {
    && b'.hitpoints == b.hitpoints && b'.flipX == b.flipX && b'.detected == b.detected
    && b'.lastSeen == b.lastSeen && b'.active == b.active && b'.shots == b.shots && b'.probes == b.probes
  }

  /** setState touches only the velocity, the wall flag, the alive flag and the timers. */
  lemma SetActionFrame(e: EnemyView, a: EnemyAction, now: int)
    ensures SameUntouched(e.body, SetAction(e, a, now).body)
  {
    if Judge(e.machine, a, now) == Proceeds {
      var b1 := Handle(e.body, ExitHook(e.machine));
      HandleFrame(e.body, ExitHook(e.machine));
      HandleFrame(b1, e.machine.states[a].onEnter);
      assert SetAction(e, a, now).body == Handle(b1, e.machine.states[a].onEnter);
    }
  }

  lemma HandleFrame(b: Body, h: Option<EnemyHook>)
    ensures SameUntouched(b, Handle(b, h))
  {
  }

  /** In a settled enemy whose clock has not gone back, requests are refused only for the current state. */
  lemma NeverThrottled(e: EnemyView, a: EnemyAction, now: int)
    requires Valid(e) && Since(e, now)
    ensures Judge(e.machine, a, now) == Proceeds <==> !IsCurrent(e.machine, a)
  {
  }

  lemma InitialEnemy(now: int)
    ensures var e := Initial(now);
      && Valid(e) && Since(e, now)
      && CurrentName(e.machine) == Some(EnemyAction.Idle)
      && e.body == Body(StartingHitpoints, 0, 0, true, false, false, 0, true, true, [RoamInterval, SightInterval], [], [])
  {
    RegisteredTable();
  }

  /** die: the enemy is in DEATH, no longer alive, its body disabled and both timers cleared. */
  lemma DieEffect(e: EnemyView, now: int)
    requires Consistent(e) && Since(e, now)
    ensures var r := Die(e, now);
      && Valid(r) && IsDead(r) && Since(r, now)
      && r.body == e.body.(alive := false, active := false, intervals := [])
  {
    SetActionEffect(e, Death, now);
  }

  /**
   * A hit always costs hitpoints, even after death; the enemy is dead
   * afterwards exactly when it was dead before or is left below one hitpoint.
   */
  lemma HitEffect(e: EnemyView, damage: int, now: int)
    requires Valid(e) && Since(e, now)
    ensures var r := Hit(e, damage, now);
      && Valid(r) && Since(r, now)
      && r.body.hitpoints == e.body.hitpoints - damage
      && (IsDead(r) <==> IsDead(e) || e.body.hitpoints - damage < 1)
      && (e.body.hitpoints - damage >= 1 ==> r == e.(body := e.body.(hitpoints := e.body.hitpoints - damage)))
  {
    DieEffect(e.(body := e.body.(hitpoints := e.body.hitpoints - damage)), now);
  }

  /** A hit on a dead enemy changes its hitpoints and nothing else. */
  lemma HitAfterDeath(e: EnemyView, damage: int, now: int)
    requires Valid(e) && IsDead(e)
    ensures Hit(e, damage, now) == e.(body := e.body.(hitpoints := e.body.hitpoints - damage))
  {
  }

  /**
   * A probe reaching a living enemy: the target is detected, the sighting is
   * stamped, and the enemy is in FIRE; a dead enemy ignores it.
   */
  lemma DetectionEffect(e: EnemyView, now: int)
    requires Valid(e) && Since(e, now)
    ensures var r := PlayerDetected(e, now);
      && Valid(r) && Since(r, now)
      && (IsDead(e) ==> r == e)
      && (!IsDead(e) ==>
            && CurrentName(r.machine) == Some(Fire)
            && r.body.detected && r.body.lastSeen == now
            && r.body.shots == e.body.shots && r.body.hitpoints == e.body.hitpoints)
  {
    if !IsDead(e) {
      SetActionEffect(e.(body := e.body.(detected := true, lastSeen := now)), Fire, now);
    }
  }

  /**
   * setRandomState on a living enemy: the drawn state is current afterwards,
   * and the facing flips exactly when the enemy was not walking, touched no
   * wall recently and the coin says so.
   */
  lemma RandomStateEffect(e: EnemyView, roll: EnemyIdleAction, flip: bool, now: int)
    requires Valid(e) && Since(e, now) && !IsDead(e)
    ensures var r := SetRandomState(e, roll, flip, now);
      && Valid(r) && Since(r, now)
      && CurrentName(r.machine) == Some(roll.AsAction())
      && r.body.flipX == (e.body.flipX != (flip && !IsCurrent(e.machine, EnemyAction.Walk) && !e.body.wallRecently))
      && r.body.detected == e.body.detected && r.body.shots == e.body.shots
      && r.body.hitpoints == e.body.hitpoints && r.body.lastSeen == e.body.lastSeen
  {
    var e1 := if !IsCurrent(e.machine, EnemyAction.Walk) then RandomFlip(e, flip) else e;
    RandomFlipKeepsValid(e, flip);
    SetActionEffect(e1, roll.AsAction(), now);
    SetActionFrame(e1, roll.AsAction(), now);
  }

  lemma RandomFlipKeepsValid(e: EnemyView, flip: bool)
    requires Valid(e)
    ensures var r := RandomFlip(e, flip);
      Valid(r) && r.machine == e.machine && r.body == e.body.(flipX := r.body.flipX)
      && r.body.flipX == (e.body.flipX != (flip && !e.body.wallRecently))
  {
  }

  /** The roam timer re-rolls the state only while no target is detected. */
  lemma RoamEffect(e: EnemyView, roll: EnemyIdleAction, flip: bool, now: int)
    requires Valid(e) && Since(e, now) && !IsDead(e)
    ensures var r := Roam(e, roll, flip, now);
      && Valid(r) && Since(r, now)
      && (e.body.detected ==> r == e)
      && (!e.body.detected ==> CurrentName(r.machine) == Some(roll.AsAction()))
  {
    RandomStateEffect(e, roll, flip, now);
  }

  /** Stopping in front of a wall or a ledge, from WALK. */
  lemma StopEffect(e: EnemyView, now: int)
    requires Valid(e) && Since(e, now) && IsCurrent(e.machine, EnemyAction.Walk)
    ensures var r := SetAction(e, EnemyAction.Idle, now);
      && Valid(r) && Since(r, now) && IsCurrent(r.machine, EnemyAction.Idle)
      && r.body == e.body.(vx := 0, vy := 0)
  {
    SetActionEffect(e, EnemyAction.Idle, now);
  }

  /** WALK's update handler: the state follows WalkNext, the facing WalkFacing, and the velocity the facing. */
  lemma WalkHandler(e: EnemyView, s: Senses, now: int)
    requires Valid(e) && Since(e, now) && IsCurrent(e.machine, EnemyAction.Walk)
    ensures var r := OnWalkUpdate(e, s, now);
      && Valid(r) && Since(r, now)
      && CurrentName(r.machine) == Some(WalkNext(s, e.body.flipX))
      && r.body == e.body.(
           flipX := WalkFacing(s, e.body.flipX),
           wallRecently := e.body.wallRecently || s.blockedLeft || s.blockedRight,
           vx := if WalkNext(s, e.body.flipX) == EnemyAction.Idle then 0 else WalkVelocity(e.body.flipX),
           vy := if WalkNext(s, e.body.flipX) == EnemyAction.Idle then 0 else e.body.vy)
  {
    var e1 := e.(body := e.body.(vx := WalkVelocity(e.body.flipX)));
    if s.blockedLeft || s.blockedRight {
      var e2 := e1.(body := e1.body.(flipX := WalkFacing(s, e.body.flipX)));
      StopEffect(e2, now);
      var e3 := SetAction(e2, EnemyAction.Idle, now);
      assert Bump(e1, WalkFacing(s, e.body.flipX), now) == e3.(body := e3.body.(wallRecently := true));
    } else if (!s.groundLeft && e.body.flipX) || (!s.groundRight && !e.body.flipX) {
      StopEffect(e1, now);
    }
  }

  /**
   * FIRE's update handler: one bullet when the cue is done and a target is
   * detected; after a second without a sighting, detection is dropped and the
   * roam state is re-rolled.
   */
  lemma FireHandler(e: EnemyView, s: Senses, now: int)
    requires Valid(e) && Since(e, now) && IsCurrent(e.machine, Fire)
    ensures var r := OnFireUpdate(e, s, now);
      && Valid(r) && Since(r, now)
      && r.body.shots == e.body.shots + (if !s.cuePlaying && e.body.detected then [Shot(BulletSpeed, BulletBounces)] else [])
      && r.body.detected == (e.body.detected && !TargetLost(e.body, now))
      && CurrentName(r.machine) == Some(if TargetLost(e.body, now) then s.roll.AsAction() else Fire)
  {
    var e1 := if !s.cuePlaying && e.body.detected then FireAtTarget(e) else e;
    if TargetLost(e1.body, now) {
      RandomStateEffect(e1.(body := e1.body.(detected := false)), s.roll, s.flip, now);
    }
  }

  /** The machine's own part of a tick on a settled enemy: it logs the update handler, then runs it. */
  lemma TickShape(e: EnemyView, s: Senses, delta: int, now: int)
    requires Valid(e)
    ensures var h := e.machine.current.value.onUpdate;
      var t := e.(machine := StartUpdate(e.machine, delta, now));
      && Valid(t) && t.body == e.body
      && (Since(e, now) ==> Since(t, now))
      && CurrentName(t.machine) == CurrentName(e.machine)
      && (h.Some? ==> UpdateMachine(e, s, delta, now) == RunHook(t, h.value, s, now))
      && (h.None? ==> UpdateMachine(e, s, delta, now) == t)
  {
  }

  /** A tick in WALK. */
  lemma WalkTick(e: EnemyView, s: Senses, delta: int, now: int)
    requires Valid(e) && Since(e, now) && IsCurrent(e.machine, EnemyAction.Walk)
    ensures var r := Update(e, s, delta, now);
      && Valid(r)
      && CurrentName(r.machine) == Some(WalkNext(s, e.body.flipX))
      && r.body.flipX == WalkFacing(s, e.body.flipX)
      && r.body.vx == (if WalkNext(s, e.body.flipX) == EnemyAction.Idle then 0 else WalkVelocity(e.body.flipX))
  {
    TickShape(e, s, delta, now);
    WalkHandler(e.(machine := StartUpdate(e.machine, delta, now)), s, now);
  }

  /** A tick in FIRE. */
  lemma FireTick(e: EnemyView, s: Senses, delta: int, now: int)
    requires Valid(e) && Since(e, now) && IsCurrent(e.machine, Fire)
    ensures var r := Update(e, s, delta, now);
      && Valid(r)
      && r.body.shots == e.body.shots + (if !s.cuePlaying && e.body.detected then [Shot(BulletSpeed, BulletBounces)] else [])
      && CurrentName(r.machine) == Some(if TargetLost(e.body, now) then s.roll.AsAction() else Fire)
  {
    TickShape(e, s, delta, now);
    FireHandler(e.(machine := StartUpdate(e.machine, delta, now)), s, now);
  }

  /** IDLE has no update handler: a tick changes nothing but the machine's log. */
  lemma IdleTick(e: EnemyView, s: Senses, delta: int, now: int)
    requires Valid(e) && IsCurrent(e.machine, EnemyAction.Idle)
    ensures var r := Update(e, s, delta, now);
      Valid(r) && r.body == e.body && r.machine == e.machine
  {
  }

  /**
   * The sight timer appends to the probe log a subsequence of [top, bottom]
   * holding exactly the probes that travel the way the enemy faces, one per
   * such probe; nothing else changes.
   */
  lemma SightEffect(e: EnemyView, top: int, bottom: int)
    ensures var r := Sight(e, top, bottom);
      var n := |e.body.probes|;
      && r.machine == e.machine
      && r.body == e.body.(probes := r.body.probes)
      && n <= |r.body.probes| && r.body.probes[..n] == e.body.probes
      && var added := r.body.probes[n..];
      && (added == [] || added == [top] || added == [bottom] || added == [top, bottom])
      && |added| == (if Faces(e.body.flipX, top) then 1 else 0) + (if Faces(e.body.flipX, bottom) then 1 else 0)
      && (Faces(e.body.flipX, top) ==> top in added)
      && (Faces(e.body.flipX, bottom) ==> bottom in added)
      && (forall i :: 0 <= i < |added| ==> Faces(e.body.flipX, added[i]))
  {
  }

  /** The operations the host can apply to an enemy; the timers fire only while registered. */
  datatype Op =
    | Tick(s: Senses, delta: int)
    | Detected
    | Damage(amount: int)
    | Kill
    | RoamTimer(roll: EnemyIdleAction, flip: bool)
    | SightTimer(top: int, bottom: int)

  function Step(e: EnemyView, op: Op, now: int): EnemyView
  {
    match op
    case Tick(s, delta) => Update(e, s, delta, now)
    case Detected => PlayerDetected(e, now)
    case Damage(amount) => Hit(e, amount, now)
    case Kill => Die(e, now)
    case RoamTimer(roll, flip) => if RoamInterval in e.body.intervals then Roam(e, roll, flip, now) else e
    case SightTimer(top, bottom) => if SightInterval in e.body.intervals then Sight(e, top, bottom) else e
  }

  /** Operations at non-decreasing times. */
  function Apply(e: EnemyView, ops: seq<Op>, times: seq<int>): EnemyView
    requires |ops| == |times|
    decreases |ops|
  {
    if ops == [] then e else Apply(Step(e, ops[0], times[0]), ops[1..], times[1..])
  }

  predicate Ascending(times: seq<int>)
  {
    forall i, j :: 0 <= i < j < |times| ==> times[i] <= times[j]
  }

  /** A dead enemy ignores every operation but a hit, which only lowers its hitpoints. */
  lemma DeadStep(e: EnemyView, op: Op, now: int)
    requires Valid(e) && IsDead(e)
    ensures var r := Step(e, op, now);
      r == e.(body := e.body.(hitpoints := r.body.hitpoints))
  {
  }

  /** Every operation keeps a settled enemy settled. */
  lemma StepKeepsValid(e: EnemyView, op: Op, now: int)
    requires Valid(e) && Since(e, now)
    ensures Valid(Step(e, op, now)) && Since(Step(e, op, now), now)
  {
    match op {
      case Tick(s, delta) =>
        if e.body.alive {
          TickShape(e, s, delta, now);
          var t := e.(machine := StartUpdate(e.machine, delta, now));
          if IsCurrent(e.machine, EnemyAction.Walk) {
            WalkHandler(t, s, now);
          } else if IsCurrent(e.machine, Fire) {
            FireHandler(t, s, now);
          }
        }
      case Detected => DetectionEffect(e, now);
      case Damage(amount) => HitEffect(e, amount, now);
      case Kill => DieEffect(e, now);
      case RoamTimer(roll, flip) =>
        if e.body.alive {
          RoamEffect(e, roll, flip, now);
        }
      case SightTimer(top, bottom) =>
    }
  }

  /** Operations at non-decreasing times keep the enemy settled. */
  lemma {:induction false} ApplyKeepsValid(e: EnemyView, ops: seq<Op>, times: seq<int>)
    requires Valid(e) && |ops| == |times| && Ascending(times)
    requires |times| > 0 ==> Since(e, times[0])
    ensures Valid(Apply(e, ops, times))
    decreases |ops|
  {
    if ops != [] {
      StepKeepsValid(e, ops[0], times[0]);
      if |ops| > 1 {
        assert times[0] <= times[1];
      }
      ApplyKeepsValid(Step(e, ops[0], times[0]), ops[1..], times[1..]);
    }
  }

  /** Death is final: after any operations a dead enemy is still dead, with the same machine and only its hitpoints changed. */
  lemma {:induction false} DeathIsFinal(e: EnemyView, ops: seq<Op>, times: seq<int>)
    requires Valid(e) && IsDead(e) && |ops| == |times|
    ensures var r := Apply(e, ops, times);
      r == e.(body := e.body.(hitpoints := r.body.hitpoints))
    decreases |ops|
  {
    if ops != [] {
      DeadStep(e, ops[0], times[0]);
      DeathIsFinal(Step(e, ops[0], times[0]), ops[1..], times[1..]);
    }
  }
}

/** The enemy object: its fields, its machine, and the logs of what it spawns. */
module EnemyActor {
  import opened StateMachines
  import opened EnemyModel
  import opened EnemySpec

  /** The machine as the enemy's constructor builds it. */
  method NewMachine() returns (m: StateMachine<EnemyAction, EnemyHook>)
    ensures fresh(m) && m.View() == EnemyMachine()
  {
    m := new StateMachine<EnemyAction, EnemyHook>(0);
    m := m.AddState(IdleState());
    m := m.AddState(WalkState());
    m := m.AddState(FireState());
    m := m.AddState(DeathState());
  }

  class Enemy {
    var hitpoints: int
    var vx: int
    var vy: int
    var flipX: bool
    var wallRecently: bool
    var detected: bool
    var lastSeen: int
    var alive: bool
    var active: bool
    var intervals: seq<Interval>
    var shots: seq<Shot>
    var probes: seq<int>
    const machine: StateMachine<EnemyAction, EnemyHook>

    function View(): EnemyView
      reads this, machine
    {
      EnemyView(
        Body(hitpoints, vx, vy, flipX, wallRecently, detected, lastSeen, alive, active, intervals, shots, probes),
        machine.View())
    }

    constructor (now: int)
      ensures fresh(machine)
      ensures View() == Initial(now)
    {
      var m := NewMachine();
      hitpoints, vx, vy, flipX := StartingHitpoints, 0, 0, false;
      wallRecently, detected, lastSeen, alive, active := false, false, 0, true, true;
      intervals, shots, probes := [RoamInterval, SightInterval], [], [];
      machine := m;
      new;
      SetAction(EnemyAction.Idle, now);
      flipX := true;
    }

    /** Runs an enter handler. */
    method Dispatch(h: Option<EnemyHook>)
      modifies this
      ensures View() == old(View()).(body := Handle(old(View()).body, h))
    {
      if h.Some? {
        match h.value
        case IdleEnter => vx, vy := 0, 0;
        case WalkEnter => wallRecently := false;
        case FireEnter => vx, vy := 0, 0;
        case DeathEnter =>
          alive := false;
          DestroyRunningIntervals();
        case _ =>
      }
    }

    /** Both timers are cleared and the list of handles emptied. */
    method DestroyRunningIntervals()
      modifies this
      ensures View() == old(View()).(body := old(View()).body.(intervals := []))
    {
      intervals := [];
    }

    method SetAction(a: EnemyAction, now: int)
      modifies this, machine
      ensures View() == EnemySpec.SetAction(old(View()), a, now)
    {
      var verdict, exitHook := machine.BeginSetState(a, now);
      if verdict == Proceeds {
        CompleteAction(a, exitHook, now);
      }
    }

    method CompleteAction(a: EnemyAction, exitHook: Option<EnemyHook>, now: int)
      requires a in machine.states
      modifies this, machine
      ensures View() == EnemySpec.CompleteAction(old(View()), a, exitHook, now)
    {
      Dispatch(exitHook);
      var enterHook := machine.EnterState(a);
      Dispatch(enterHook);
      machine.EndSetState(now);
    }

    method SetRandomFlipX(flip: bool)
      modifies this
      ensures View() == EnemySpec.RandomFlip(old(View()), flip)
    {
      if wallRecently {
        return;
      }
      if flip {
        flipX := !flipX;
      }
    }

    method SetRandomState(roll: EnemyIdleAction, flip: bool, now: int)
      modifies this, machine
      ensures View() == EnemySpec.SetRandomState(old(View()), roll, flip, now)
    {
      if !machine.IsCurrentState(EnemyAction.Walk) {
        SetRandomFlipX(flip);
      }
      SetAction(roll.AsAction(), now);
    }

    method PreventFromFalling(s: Senses, now: int)
      modifies this, machine
      ensures View() == EnemySpec.PreventFromFalling(old(View()), s, now)
    {
      if (!s.groundLeft && flipX) || (!s.groundRight && !flipX) {
        SetAction(EnemyAction.Idle, now);
      }
    }

    method OnWalkUpdate(s: Senses, now: int)
      modifies this, machine
      ensures View() == EnemySpec.OnWalkUpdate(old(View()), s, now)
    {
      vx := if flipX then -WalkSpeed else WalkSpeed;
      ghost var e1 := View();
      if s.blockedLeft {
        Bump(false, now);
      } else if s.blockedRight {
        Bump(true, now);
      }
      assert View() == (if s.blockedLeft then EnemySpec.Bump(e1, false, now)
        else if s.blockedRight then EnemySpec.Bump(e1, true, now) else e1);
      PreventFromFalling(s, now);
    }

    /** A blocked side: face away from it, request IDLE, remember the wall. */
    method Bump(newFlipX: bool, now: int)
      modifies this, machine
      ensures View() == EnemySpec.Bump(old(View()), newFlipX, now)
    {
      flipX := newFlipX;
      SetAction(EnemyAction.Idle, now);
      wallRecently := true;
    }

    method FireAtTarget()
      modifies this
      ensures View() == EnemySpec.FireAtTarget(old(View()))
    {
      shots := shots + [Shot(BulletSpeed, BulletBounces)];
    }

    method OnFireUpdate(s: Senses, now: int)
      modifies this, machine
      ensures View() == EnemySpec.OnFireUpdate(old(View()), s, now)
    {
      if !s.cuePlaying && detected {
        FireAtTarget();
      }
      if now - lastSeen > SightTimeout {
        detected := false;
        SetRandomState(s.roll, s.flip, now);
      }
    }

    method RunHook(h: EnemyHook, s: Senses, now: int)
      modifies this, machine
      ensures View() == EnemySpec.RunHook(old(View()), h, s, now)
    {
      match h
      case WalkUpdate => OnWalkUpdate(s, now);
      case FireUpdate => OnFireUpdate(s, now);
      case _ =>
    }

    /** The per-frame update: the machine ticks only while alive, dispatching what it hands out. */
    method Update(s: Senses, delta: int, now: int)
      modifies this, machine
      ensures View() == EnemySpec.Update(old(View()), s, delta, now)
    {
      if alive {
        var tick := machine.Update(delta, now);
        match tick
        case Dequeued(a, verdict, exitHook) =>
          if verdict == Proceeds {
            CompleteAction(a, exitHook, now);
          }
        case Ran(h) => RunHook(h, s, now);
        case Skipped =>
      }
    }

    method PlayerDetected(now: int)
      modifies this, machine
      ensures View() == EnemySpec.PlayerDetected(old(View()), now)
    {
      if alive {
        detected := true;
        lastSeen := now;
        SetAction(Fire, now);
      }
    }

    method Hit(damage: int, now: int)
      modifies this, machine
      ensures View() == EnemySpec.Hit(old(View()), damage, now)
    {
      hitpoints := hitpoints - damage;
      if hitpoints < 1 {
        Die(now);
      }
    }

    method Die(now: int)
      modifies this, machine
      ensures View() == EnemySpec.Die(old(View()), now)
    {
      SetAction(Death, now);
      active := false;
    }

    /** The roam timer's callback. */
    method RoamTick(roll: EnemyIdleAction, flip: bool, now: int)
      modifies this, machine
      ensures View() == EnemySpec.Roam(old(View()), roll, flip, now)
    {
      if !detected {
        SetRandomState(roll, flip, now);
      }
    }

    method CreateSightInstanceAtTarget(probeVx: int)
      modifies this
      ensures View() == EnemySpec.SpawnProbe(old(View()), probeVx)
    {
      if (flipX && probeVx <= 0) || (!flipX && probeVx >= 0) {
        probes := probes + [probeVx];
      }
    }

    /** The sight timer's callback. */
    method SightTick(top: int, bottom: int)
      modifies this
      ensures View() == EnemySpec.Sight(old(View()), top, bottom)
    {
      CreateSightInstanceAtTarget(top);
      CreateSightInstanceAtTarget(bottom);
    }
  }
}
