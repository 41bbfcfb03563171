/**
 * The earlier enemy, an older copy of the enemy with its own sight probe:
 * no hitpoints and no hit, an IDLE update handler that does nothing, an aim
 * angle stored at each sighting and used for every shot, and a death handler
 * that cancels its timers but keeps their handles.
 *
 * The aim angle is a value the host computes with trigonometry; here it is an
 * opaque integer supplied with each sighting. The walking rules, the sensor
 * record and the facing filter are those of the enemy.
 */
module EarlyEnemySpec {
  import opened StateMachines
  import opened EnemyModel
  import E = EnemySpec

  datatype EarlyHook = IdleEnter | IdleUpdate | WalkEnter | WalkUpdate | FireEnter | FireUpdate | DeathEnter

  /**
   * One shot, recorded by the arguments of the velocity computation behind it:
   * the base speed and the stored aim angle. The bullet object built from that
   * velocity does not fly along the aim: its constructor takes an angle and a
   * flip flag where the call passes the velocity's two components, and it
   * collides with platforms only, so the shot never reaches the player.
   */
  datatype RifleShot = RifleShot(baseSpeed: int, aimArg: int)

  /** The base speed handed to the velocity computation. */
  const RifleSpeed: int := 700

  /**
   * Everything of the earlier enemy but its machine. `intervals` holds the
   * timer handles, `live` the timers that still fire.
   */
  datatype Body = Body(
    vx: int, vy: int, flipX: bool, wallRecently: bool,
    detected: bool, lastSeen: int, aim: Option<int>, alive: bool, active: bool,
    intervals: seq<E.Interval>, live: set<E.Interval>, shots: seq<RifleShot>, probes: seq<int>)

  datatype EarlyView = EarlyView(body: Body, machine: Machine<EnemyAction, EarlyHook>)

  function IdleState(): State<EnemyAction, EarlyHook> { State(EnemyAction.Idle, Some(IdleEnter), Some(IdleUpdate), None) }
  function WalkState(): State<EnemyAction, EarlyHook> { State(EnemyAction.Walk, Some(WalkEnter), Some(WalkUpdate), None) }
  function FireState(): State<EnemyAction, EarlyHook> { State(Fire, Some(FireEnter), Some(FireUpdate), None) }
  function DeathState(): State<EnemyAction, EarlyHook> { State(Death, Some(DeathEnter), None, None) }

  function EarlyMachine(): Machine<EnemyAction, EarlyHook>
  {
    Register(Register(Register(Register(Fresh(0), IdleState()), WalkState()), FireState()), DeathState())
  }

  function EarlyTable(): map<EnemyAction, State<EnemyAction, EarlyHook>>
  {
    map[EnemyAction.Idle := IdleState(), EnemyAction.Walk := WalkState(), Fire := FireState(), Death := DeathState()]
  }

  function BothTimers(): seq<E.Interval>
  {
    [E.RoamInterval, E.SightInterval]
  }

  predicate IsDead(e: EarlyView)
  {
    IsCurrent(e.machine, Death)
  }

  /**
   * A settled earlier enemy: the machine between operations, alive exactly
   * while not in DEATH, the body enabled exactly while alive, both handles
   * kept for ever but the timers live only while alive, and an aim angle
   * stored whenever a target is detected.
   */
  ghost predicate Valid(e: EarlyView)
  {
    && Settled(e.machine, EarlyTable(), 0)
    && (e.body.alive <==> !IsDead(e))
    && e.body.active == e.body.alive
    && e.body.intervals == BothTimers()
    && e.body.live == (if e.body.alive then {E.RoamInterval, E.SightInterval} else {})
    && (e.body.detected ==> e.body.aim.Some?)
  }

  predicate Since(e: EarlyView, now: int)
  {
    e.machine.lastChange.Some? ==> e.machine.lastChange.value <= now
  }

  /** An enter handler; the death handler cancels every timer but leaves the handles in place. */
  function Handle(b: Body, h: Option<EarlyHook>): Body
  {
    if h.None? then b
    else match h.value
      case IdleEnter => b.(vx := 0, vy := 0)
      case WalkEnter => b.(wallRecently := false)
      case FireEnter => b.(vx := 0, vy := 0)
      case DeathEnter => b.(alive := false, live := b.live - set i | i in b.intervals)
      case _ => b
  }

  function SetAction(e: EarlyView, a: EnemyAction, now: int): EarlyView
  {
    var begun := e.(machine := Begin(e.machine, a, now));
    if Judge(e.machine, a, now) == Proceeds then CompleteAction(begun, a, ExitHook(e.machine), now) else begun
  }

  function CompleteAction(e: EarlyView, a: EnemyAction, exitHook: Option<EarlyHook>, now: int): EarlyView
    requires a in e.machine.states
  {
    var m := Switch(e.machine, a);
    e.(body := Handle(Handle(e.body, exitHook), m.states[a].onEnter), machine := Finish(m, now))
  }

  function RandomFlip(e: EarlyView, flip: bool): EarlyView
  {
    if e.body.wallRecently || !flip then e else e.(body := e.body.(flipX := !e.body.flipX))
  }

  function SetRandomState(e: EarlyView, roll: EnemyIdleAction, flip: bool, now: int): EarlyView
  {
    var e1 := if !IsCurrent(e.machine, EnemyAction.Walk) then RandomFlip(e, flip) else e;
    SetAction(e1, roll.AsAction(), now)
  }

  function Bump(e: EarlyView, flipX: bool, now: int): EarlyView
  {
    var e1 := SetAction(e.(body := e.body.(flipX := flipX)), EnemyAction.Idle, now);
    e1.(body := e1.body.(wallRecently := true))
  }

  function PreventFromFalling(e: EarlyView, s: E.Senses, now: int): EarlyView
  {
    if (!s.groundLeft && e.body.flipX) || (!s.groundRight && !e.body.flipX) then SetAction(e, EnemyAction.Idle, now)
    else e
  }

  function OnWalkUpdate(e: EarlyView, s: E.Senses, now: int): EarlyView
  {
    var e1 := e.(body := e.body.(vx := if e.body.flipX then -E.WalkSpeed else E.WalkSpeed));
    var e2 := if s.blockedLeft then Bump(e1, false, now) else if s.blockedRight then Bump(e1, true, now) else e1;
    PreventFromFalling(e2, s, now)
  }

  /** One shot computed from the stored aim angle, the same whichever way the enemy faces. */
  function FireAtTarget(e: EarlyView): EarlyView
    requires e.body.aim.Some?
  {
    e.(body := e.body.(shots := e.body.shots + [RifleShot(RifleSpeed, e.body.aim.value)]))
  }

  predicate TargetLost(b: Body, now: int)
  {
    now - b.lastSeen > E.SightTimeout
  }

  function OnFireUpdate(e: EarlyView, s: E.Senses, now: int): EarlyView
  {
    var e1 := if !s.cuePlaying && e.body.detected && e.body.aim.Some? then FireAtTarget(e) else e;
    if TargetLost(e1.body, now) then SetRandomState(e1.(body := e1.body.(detected := false)), s.roll, s.flip, now)
    else e1
  }

  /** IDLE's update handler is empty. */
  function RunHook(e: EarlyView, h: EarlyHook, s: E.Senses, now: int): EarlyView
  {
    match h
    case WalkUpdate => OnWalkUpdate(e, s, now)
    case FireUpdate => OnFireUpdate(e, s, now)
    case _ => e
  }

  function UpdateMachine(e: EarlyView, s: E.Senses, delta: int, now: int): EarlyView
  {
    var started := e.(machine := StartUpdate(e.machine, delta, now));
    match TickOf(e.machine, delta, now)
    case Dequeued(a, verdict, exitHook) =>
      if verdict == Proceeds then CompleteAction(started, a, exitHook, now) else started
    case Ran(h) => RunHook(started, h, s, now)
    case Skipped => started
  }

  function Update(e: EarlyView, s: E.Senses, delta: int, now: int): EarlyView
  {
    if e.body.alive then UpdateMachine(e, s, delta, now) else e
  }

  /** A probe reached the player, whose direction from the enemy is `angle`. */
  function PlayerDetected(e: EarlyView, angle: int, now: int): EarlyView
  {
    if e.body.alive then SetAction(e.(body := e.body.(detected := true, lastSeen := now, aim := Some(angle))), Fire, now)
    else e
  }

  function Die(e: EarlyView, now: int): EarlyView
  {
    var e1 := SetAction(e, Death, now);
    e1.(body := e1.body.(active := false))
  }

  function Roam(e: EarlyView, roll: EnemyIdleAction, flip: bool, now: int): EarlyView
  {
    if !e.body.detected then SetRandomState(e, roll, flip, now) else e
  }

  function SpawnProbe(e: EarlyView, vx: int): EarlyView
  {
    if E.Faces(e.body.flipX, vx) then e.(body := e.body.(probes := e.body.probes + [vx])) else e
  }

  function Sight(e: EarlyView, top: int, bottom: int): EarlyView
  {
    SpawnProbe(SpawnProbe(e, top), bottom)
  }

  function Initial(now: int): EarlyView
  {
    var b := Body(0, 0, false, false, false, 0, None, true, true, BothTimers(), {E.RoamInterval, E.SightInterval}, [], []);
    var e := SetAction(EarlyView(b, EarlyMachine()), EnemyAction.Idle, now);
    e.(body := e.body.(flipX := true))
  }

  // ---------------------------------------------------------------------------
  // Properties

  lemma RegisteredTable()
    ensures EarlyMachine() == Fresh<EnemyAction, EarlyHook>(0).(states := EarlyTable())
  {
  }

  lemma SetActionEffect(e: EarlyView, a: EnemyAction, now: int)
    requires Valid(e) && (a == Death || !IsDead(e))
    ensures var r := SetAction(e, a, now);
      && (Since(e, now) ==> Since(r, now))
      && (Judge(e.machine, a, now) != Proceeds ==> r == e)
      && (Judge(e.machine, a, now) == Proceeds ==>
            && r.body == Handle(e.body, EarlyTable()[a].onEnter)
            && CurrentName(r.machine) == Some(a)
            && Settled(r.machine, EarlyTable(), 0))
      && (a != Death ==> Valid(r))
  {
  }

  /** The fields no handler of the earlier enemy touches. */
  predicate SameUntouched(b: Body, b': Body)
  {
    && b'.flipX == b.flipX && b'.detected == b.detected && b'.lastSeen == b.lastSeen && b'.aim == b.aim
    && b'.active == b.active && b'.intervals == b.intervals && b'.shots == b.shots && b'.probes == b.probes
  }

  lemma HandleFrame(b: Body, h: Option<EarlyHook>)
    ensures SameUntouched(b, Handle(b, h))
  {
    if h.Some? && h.value == DeathEnter {
      assert Handle(b, h) == b.(alive := false, live := b.live - set i | i in b.intervals);
    }
  }

  /** setState touches only the velocity, the wall flag, the alive flag and the live timers. */
  lemma SetActionFrame(e: EarlyView, a: EnemyAction, now: int)
    ensures SameUntouched(e.body, SetAction(e, a, now).body)
  {
    if Judge(e.machine, a, now) == Proceeds {
      var b1 := Handle(e.body, ExitHook(e.machine));
      HandleFrame(e.body, ExitHook(e.machine));
      HandleFrame(b1, e.machine.states[a].onEnter);
      assert SetAction(e, a, now).body == Handle(b1, e.machine.states[a].onEnter);
    }
  }

  lemma InitialEarlyEnemy(now: int)
    ensures var e := Initial(now);
      && Valid(e) && Since(e, now)
      && CurrentName(e.machine) == Some(EnemyAction.Idle)
      && e.body == Body(0, 0, true, false, false, 0, None, true, true, BothTimers(), {E.RoamInterval, E.SightInterval}, [], [])
  {
    RegisteredTable();
  }

  /** die: in DEATH, no longer alive, body disabled, every timer cancelled, the handles still held. */
  lemma DieEffect(e: EarlyView, now: int)
    requires Valid(e) && Since(e, now)
    ensures var r := Die(e, now);
      && Valid(r) && IsDead(r) && Since(r, now)
      && r.body == e.body.(alive := false, active := false, live := {})
      && r.body.intervals == BothTimers()
  {
    SetActionEffect(e, Death, now);
  }

  /** A sighting stores the aim angle, stamps the time and puts a living enemy in FIRE; a dead one ignores it. */
  lemma DetectionEffect(e: EarlyView, angle: int, now: int)
    requires Valid(e) && Since(e, now)
    ensures var r := PlayerDetected(e, angle, now);
      && Valid(r) && Since(r, now)
      && (IsDead(e) ==> r == e)
      && (!IsDead(e) ==>
            && CurrentName(r.machine) == Some(Fire)
            && r.body.detected && r.body.lastSeen == now && r.body.aim == Some(angle)
            && r.body.shots == e.body.shots)
  {
    if !IsDead(e) {
      var e1 := e.(body := e.body.(detected := true, lastSeen := now, aim := Some(angle)));
      SetActionEffect(e1, Fire, now);
      SetActionFrame(e1, Fire, now);
    }
  }

  lemma RandomFlipEffect(e: EarlyView, flip: bool)
    requires Valid(e)
    ensures var r := RandomFlip(e, flip);
      && Valid(r) && r.machine == e.machine && r.body == e.body.(flipX := r.body.flipX)
      && r.body.flipX == (e.body.flipX != (flip && !e.body.wallRecently))
  {
  }

  /** setRandomState on a living enemy: the drawn state is current, the facing flipped only outside WALK and away from walls. */
  lemma RandomStateEffect(e: EarlyView, roll: EnemyIdleAction, flip: bool, now: int)
    requires Valid(e) && Since(e, now) && !IsDead(e)
    ensures var r := SetRandomState(e, roll, flip, now);
      && Valid(r) && Since(r, now)
      && CurrentName(r.machine) == Some(roll.AsAction())
      && r.body.flipX == (e.body.flipX != (flip && !IsCurrent(e.machine, EnemyAction.Walk) && !e.body.wallRecently))
      && r.body.detected == e.body.detected && r.body.shots == e.body.shots && r.body.aim == e.body.aim
  {
    var e1 := if !IsCurrent(e.machine, EnemyAction.Walk) then RandomFlip(e, flip) else e;
    RandomFlipEffect(e, flip);
    SetActionEffect(e1, roll.AsAction(), now);
    SetActionFrame(e1, roll.AsAction(), now);
  }

  lemma StopEffect(e: EarlyView, now: int)
    requires Valid(e) && Since(e, now) && IsCurrent(e.machine, EnemyAction.Walk)
    ensures var r := SetAction(e, EnemyAction.Idle, now);
      && Valid(r) && Since(r, now) && IsCurrent(r.machine, EnemyAction.Idle)
      && r.body == e.body.(vx := 0, vy := 0)
  {
    SetActionEffect(e, EnemyAction.Idle, now);
  }

  /** WALK follows the same rules as in the enemy: its WalkNext, WalkFacing and WalkVelocity. */
  lemma WalkHandler(e: EarlyView, s: E.Senses, now: int)
    requires Valid(e) && Since(e, now) && IsCurrent(e.machine, EnemyAction.Walk)
    ensures var r := OnWalkUpdate(e, s, now);
      && Valid(r) && Since(r, now)
      && CurrentName(r.machine) == Some(E.WalkNext(s, e.body.flipX))
      && r.body == e.body.(
           flipX := E.WalkFacing(s, e.body.flipX),
           wallRecently := e.body.wallRecently || s.blockedLeft || s.blockedRight,
           vx := if E.WalkNext(s, e.body.flipX) == EnemyAction.Idle then 0 else E.WalkVelocity(e.body.flipX),
           vy := if E.WalkNext(s, e.body.flipX) == EnemyAction.Idle then 0 else e.body.vy)
  {
    var e1 := e.(body := e.body.(vx := E.WalkVelocity(e.body.flipX)));
    if s.blockedLeft || s.blockedRight {
      var e2 := e1.(body := e1.body.(flipX := E.WalkFacing(s, e.body.flipX)));
      StopEffect(e2, now);
      var e3 := SetAction(e2, EnemyAction.Idle, now);
      assert Bump(e1, E.WalkFacing(s, e.body.flipX), now) == e3.(body := e3.body.(wallRecently := true));
    } else if (!s.groundLeft && e.body.flipX) || (!s.groundRight && !e.body.flipX) {
      StopEffect(e1, now);
    }
  }

  /** FIRE: one shot from base speed 700 and the angle stored at the last sighting; after a second unseen, roam again. */
  lemma FireHandler(e: EarlyView, s: E.Senses, now: int)
    requires Valid(e) && Since(e, now) && IsCurrent(e.machine, Fire)
    ensures var r := OnFireUpdate(e, s, now);
      && Valid(r) && Since(r, now)
      && r.body.shots == e.body.shots
           + (if !s.cuePlaying && e.body.detected then [RifleShot(RifleSpeed, e.body.aim.value)] else [])
      && r.body.detected == (e.body.detected && !TargetLost(e.body, now))
      && CurrentName(r.machine) == Some(if TargetLost(e.body, now) then s.roll.AsAction() else Fire)
  {
    var e1 := if !s.cuePlaying && e.body.detected && e.body.aim.Some? then FireAtTarget(e) else e;
    if TargetLost(e1.body, now) {
      RandomStateEffect(e1.(body := e1.body.(detected := false)), s.roll, s.flip, now);
    }
  }

  lemma TickShape(e: EarlyView, s: E.Senses, delta: int, now: int)
    requires Valid(e)
    ensures var h := e.machine.current.value.onUpdate;
      var t := e.(machine := StartUpdate(e.machine, delta, now));
      && Valid(t) && t.body == e.body
      && (Since(e, now) ==> Since(t, now))
      && CurrentName(t.machine) == CurrentName(e.machine)
      && (h.Some? ==> UpdateMachine(e, s, delta, now) == RunHook(t, h.value, s, now))
      && (h.None? ==> UpdateMachine(e, s, delta, now) == t)
  {
  }

  /** IDLE's update handler runs and does nothing: only the machine's log grows. */
  lemma IdleTick(e: EarlyView, s: E.Senses, delta: int, now: int)
    requires Valid(e) && IsCurrent(e.machine, EnemyAction.Idle)
    ensures var r := Update(e, s, delta, now);
      && Valid(r) && r.body == e.body
      && r.machine == e.machine.(trace := e.machine.trace + [Updated(IdleUpdate, delta)])
  {
  }

  /**
   * The sight timer appends to the probe log a subsequence of [top, bottom]
   * holding exactly the probes that travel the way the enemy faces, one per
   * such probe; nothing else changes.
   */
  lemma SightEffect(e: EarlyView, top: int, bottom: int)
    ensures var r := Sight(e, top, bottom);
      var n := |e.body.probes|;
      && r.machine == e.machine
      && r.body == e.body.(probes := r.body.probes)
      && n <= |r.body.probes| && r.body.probes[..n] == e.body.probes
      && var added := r.body.probes[n..];
      && (added == [] || added == [top] || added == [bottom] || added == [top, bottom])
      && |added| == (if E.Faces(e.body.flipX, top) then 1 else 0) + (if E.Faces(e.body.flipX, bottom) then 1 else 0)
      && (E.Faces(e.body.flipX, top) ==> top in added)
      && (E.Faces(e.body.flipX, bottom) ==> bottom in added)
      && (forall i :: 0 <= i < |added| ==> E.Faces(e.body.flipX, added[i]))
  {
  }

  datatype Op =
    | Tick(s: E.Senses, delta: int)
    | Detected(angle: int)
    | Kill
    | RoamTimer(roll: EnemyIdleAction, flip: bool)
    | SightTimer(top: int, bottom: int)

  /** One operation; a timer fires only while it is live. */
  function Step(e: EarlyView, op: Op, now: int): EarlyView
  {
    match op
    case Tick(s, delta) => Update(e, s, delta, now)
    case Detected(angle) => PlayerDetected(e, angle, now)
    case Kill => Die(e, now)
    case RoamTimer(roll, flip) => if E.RoamInterval in e.body.live then Roam(e, roll, flip, now) else e
    case SightTimer(top, bottom) => if E.SightInterval in e.body.live then Sight(e, top, bottom) else e
  }

  function Apply(e: EarlyView, ops: seq<Op>, times: seq<int>): EarlyView
    requires |ops| == |times|
    decreases |ops|
  {
    if ops == [] then e else Apply(Step(e, ops[0], times[0]), ops[1..], times[1..])
  }

  /** A dead earlier enemy ignores every operation. */
  lemma DeadStep(e: EarlyView, op: Op, now: int)
    requires Valid(e) && IsDead(e)
    ensures Step(e, op, now) == e
  {
  }

  lemma StepKeepsValid(e: EarlyView, op: Op, now: int)
    requires Valid(e) && Since(e, now)
    ensures Valid(Step(e, op, now)) && Since(Step(e, op, now), now)
  {
    match op {
      case Tick(s, delta) =>
        if e.body.alive {
          TickShape(e, s, delta, now);
          var t := e.(machine := StartUpdate(e.machine, delta, now));
          if IsCurrent(e.machine, EnemyAction.Walk) {
            WalkHandler(t, s, now);
          } else if IsCurrent(e.machine, Fire) {
            FireHandler(t, s, now);
          }
        }
      case Detected(angle) => DetectionEffect(e, angle, now);
      case Kill => DieEffect(e, now);
      case RoamTimer(roll, flip) =>
        if e.body.alive {
          RandomStateEffect(e, roll, flip, now);
        }
      case SightTimer(top, bottom) =>
    }
  }

  /** Operations at non-decreasing times keep the earlier enemy settled. */
  lemma {:induction false} ApplyKeepsValid(e: EarlyView, ops: seq<Op>, times: seq<int>)
    requires Valid(e) && |ops| == |times| && E.Ascending(times)
    requires |times| > 0 ==> Since(e, times[0])
    ensures Valid(Apply(e, ops, times))
    decreases |ops|
  {
    if ops != [] {
      StepKeepsValid(e, ops[0], times[0]);
      if |ops| > 1 {
        assert times[0] <= times[1];
      }
      ApplyKeepsValid(Step(e, ops[0], times[0]), ops[1..], times[1..]);
    }
  }

  /** Death is final: nothing changes a dead earlier enemy any more. */
  lemma {:induction false} DeathIsFinal(e: EarlyView, ops: seq<Op>, times: seq<int>)
    requires Valid(e) && IsDead(e) && |ops| == |times|
    ensures Apply(e, ops, times) == e
    decreases |ops|
  {
    if ops != [] {
      DeadStep(e, ops[0], times[0]);
      DeathIsFinal(e, ops[1..], times[1..]);
    }
  }
}
/** The earlier enemy object and its inline sight probe. */
module EarlyEnemyActor {
  import opened StateMachines
  import opened EnemyModel
  import opened EarlyEnemySpec
  import E = EnemySpec
  import Probes

  /** The machine as the earlier enemy's constructor builds it. */
  method NewMachine() returns (m: StateMachine<EnemyAction, EarlyHook>)
    ensures fresh(m) && m.View() == EarlyMachine()
  {
    m := new StateMachine<EnemyAction, EarlyHook>(0);
    m := m.AddState(IdleState());
    m := m.AddState(WalkState());
    m := m.AddState(FireState());
    m := m.AddState(DeathState());
  }

  class EarlyEnemy {
    var vx: int
    var vy: int
    var flipX: bool
    var wallRecently: bool
    var detected: bool
    var lastSeen: int
    var aim: Option<int>
    var alive: bool
    var active: bool
    var intervals: seq<E.Interval>
    var live: set<E.Interval>
    var shots: seq<RifleShot>
    var probes: seq<int>
    const machine: StateMachine<EnemyAction, EarlyHook>

    function View(): EarlyView
      reads this, machine
    {
      EarlyView(
        Body(vx, vy, flipX, wallRecently, detected, lastSeen, aim, alive, active, intervals, live, shots, probes),
        machine.View())
    }

    constructor (now: int)
      ensures fresh(machine)
      ensures View() == Initial(now)
    {
      var m := NewMachine();
      vx, vy, flipX, wallRecently := 0, 0, false, false;
      detected, lastSeen, aim, alive, active := false, 0, None, true, true;
      intervals, live, shots, probes := BothTimers(), {E.RoamInterval, E.SightInterval}, [], [];
      machine := m;
      new;
      SetAction(EnemyAction.Idle, now);
      flipX := true;
    }

    /** Runs an enter handler. */
    method Dispatch(h: Option<EarlyHook>)
      modifies this
      ensures View() == old(View()).(body := Handle(old(View()).body, h))
    {
      if h.Some? {
        match h.value
        case IdleEnter => vx, vy := 0, 0;
        case WalkEnter => wallRecently := false;
        case FireEnter => vx, vy := 0, 0;
        case DeathEnter =>
          alive := false;
          live := live - set i | i in intervals;
        case _ =>
      }
    }

    method SetAction(a: EnemyAction, now: int)
      modifies this, machine
      ensures View() == EarlyEnemySpec.SetAction(old(View()), a, now)
    {
      var verdict, exitHook := machine.BeginSetState(a, now);
      if verdict == Proceeds {
        CompleteAction(a, exitHook, now);
      }
    }

    method CompleteAction(a: EnemyAction, exitHook: Option<EarlyHook>, now: int)
      requires a in machine.states
      modifies this, machine
      ensures View() == EarlyEnemySpec.CompleteAction(old(View()), a, exitHook, now)
    {
      Dispatch(exitHook);
      var enterHook := machine.EnterState(a);
      Dispatch(enterHook);
      machine.EndSetState(now);
    }

    method SetRandomFlipX(flip: bool)
      modifies this
      ensures View() == EarlyEnemySpec.RandomFlip(old(View()), flip)
    {
      if wallRecently {
        return;
      }
      if flip {
        flipX := !flipX;
      }
    }

    method SetRandomState(roll: EnemyIdleAction, flip: bool, now: int)
      modifies this, machine
      ensures View() == EarlyEnemySpec.SetRandomState(old(View()), roll, flip, now)
    {
      if !machine.IsCurrentState(EnemyAction.Walk) {
        SetRandomFlipX(flip);
      }
      SetAction(roll.AsAction(), now);
    }

    method PreventFromFalling(s: E.Senses, now: int)
      modifies this, machine
      ensures View() == EarlyEnemySpec.PreventFromFalling(old(View()), s, now)
    {
      if (!s.groundLeft && flipX) || (!s.groundRight && !flipX) {
        SetAction(EnemyAction.Idle, now);
      }
    }

    method OnWalkUpdate(s: E.Senses, now: int)
      modifies this, machine
      ensures View() == EarlyEnemySpec.OnWalkUpdate(old(View()), s, now)
    {
      vx := if flipX then -E.WalkSpeed else E.WalkSpeed;
      ghost var e1 := View();
      if s.blockedLeft {
        Bump(false, now);
      } else if s.blockedRight {
        Bump(true, now);
      }
      assert View() == (if s.blockedLeft then EarlyEnemySpec.Bump(e1, false, now)
        else if s.blockedRight then EarlyEnemySpec.Bump(e1, true, now) else e1);
      PreventFromFalling(s, now);
    }

    /** A blocked side: face away from it, request IDLE, remember the wall. */
    method Bump(newFlipX: bool, now: int)
      modifies this, machine
      ensures View() == EarlyEnemySpec.Bump(old(View()), newFlipX, now)
    {
      flipX := newFlipX;
      SetAction(EnemyAction.Idle, now);
      wallRecently := true;
    }

    method FireAtTarget()
      requires aim.Some?
      modifies this
      ensures View() == EarlyEnemySpec.FireAtTarget(old(View()))
    {
      shots := shots + [RifleShot(RifleSpeed, aim.value)];
    }

    method OnFireUpdate(s: E.Senses, now: int)
      modifies this, machine
      ensures View() == EarlyEnemySpec.OnFireUpdate(old(View()), s, now)
    {
      if !s.cuePlaying && detected && aim.Some? {
        FireAtTarget();
      }
      if now - lastSeen > E.SightTimeout {
        detected := false;
        SetRandomState(s.roll, s.flip, now);
      }
    }

    method RunHook(h: EarlyHook, s: E.Senses, now: int)
      modifies this, machine
      ensures View() == EarlyEnemySpec.RunHook(old(View()), h, s, now)
    {
      match h
      case WalkUpdate => OnWalkUpdate(s, now);
      case FireUpdate => OnFireUpdate(s, now);
      case _ =>
    }

    /** The per-frame update: the machine ticks only while alive, dispatching what it hands out. */
    method Update(s: E.Senses, delta: int, now: int)
      modifies this, machine
      ensures View() == EarlyEnemySpec.Update(old(View()), s, delta, now)
    {
      if alive {
        var tick := machine.Update(delta, now);
        match tick
        case Dequeued(a, verdict, exitHook) =>
          if verdict == Proceeds {
            CompleteAction(a, exitHook, now);
          }
        case Ran(h) => RunHook(h, s, now);
        case Skipped =>
      }
    }

    method PlayerDetected(angle: int, now: int)
      modifies this, machine
      ensures View() == EarlyEnemySpec.PlayerDetected(old(View()), angle, now)
    {
      if alive {
        detected := true;
        lastSeen := now;
        aim := Some(angle);
        SetAction(Fire, now);
      }
    }

    method Die(now: int)
      modifies this, machine
      ensures View() == EarlyEnemySpec.Die(old(View()), now)
    {
      SetAction(Death, now);
      active := false;
    }

    /** The roam timer's callback. */
    method RoamTick(roll: EnemyIdleAction, flip: bool, now: int)
      modifies this, machine
      ensures View() == EarlyEnemySpec.Roam(old(View()), roll, flip, now)
    {
      if !detected {
        SetRandomState(roll, flip, now);
      }
    }

    method CreateSightInstanceAtTarget(probeVx: int)
      modifies this
      ensures View() == EarlyEnemySpec.SpawnProbe(old(View()), probeVx)
    {
      if (flipX && probeVx <= 0) || (!flipX && probeVx >= 0) {
        probes := probes + [probeVx];
      }
    }

    /** The sight timer's callback. */
    method SightTick(top: int, bottom: int)
      modifies this
      ensures View() == EarlyEnemySpec.Sight(old(View()), top, bottom)
    {
      CreateSightInstanceAtTarget(top);
      CreateSightInstanceAtTarget(bottom);
    }
  }

  /** The earlier enemy's inline probe: the same lifecycle, relaying the aim angle with the sighting. */
  class EarlySightInstance {
    const owner: EarlyEnemy
    const vx: int
    const vy: int
    var active: bool
    var notified: nat

    function View(): Probes.Probe
      reads this
    {
      Probes.Probe(vx, vy, active, notified)
    }

    constructor (vx: int, vy: int, owner: EarlyEnemy)
      ensures this.owner == owner
      ensures View() == Probes.Spawn(vx, vy)
    {
      this.owner := owner;
      this.vx, this.vy := vx, vy;
      active, notified := true, 0;
    }

    /** The player overlap: the owner is told, with the angle towards the player, then the probe is destroyed. */
    method PlayerDetected(angle: int, now: int)
      modifies this, owner, owner.machine
      ensures View() == Probes.React(old(View()), Probes.PlayerOverlap)
      ensures owner.View() == EarlyEnemySpec.PlayerDetected(old(owner.View()), angle, now)
    {
      owner.PlayerDetected(angle, now);
      notified := notified + 1;
      active := false;
    }

    method PlatformHit()
      modifies this
      ensures View() == Probes.React(old(View()), Probes.PlatformContact)
    {
      active := false;
    }

    method Expire()
      modifies this
      ensures View() == Probes.React(old(View()), Probes.Expired)
    {
      active := false;
    }
  }
}
