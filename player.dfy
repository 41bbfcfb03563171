/**
 * The player as values: its fields, its two machines, and what each of its
 * operations and handlers does to them.
 */
module PlayerSpec {
  import opened StateMachines
  import opened PlayerModel

  /** The methods the player registers with its locomotion machine. */
  datatype ActionHook =
    | IdleEnter | IdleUpdate | RunEnter | RunUpdate | KickEnter | JumpEnter | JumpUpdate
    | FallUpdate | DeathEnter | DeathUpdate

  /** The methods the player registers with its wielding machine. */
  datatype WieldingHook = NothingEnter | NothingUpdate | RifleEnter | RifleUpdate

  /** What one tick reads: the cursor keys, the Q key, and whether the body rests on the floor. */
  datatype Controls = Controls(left: bool, right: bool, up: bool, shift: bool, toggle: bool, onFloor: bool)

  const StartingHitpoints: int := 10
  const WieldingThrottle: int := 400
  const RunSpeed: int := 300
  const JumpVelocity: int := -750
  const IdleFallSpeed: int := 100
  const RunFallSpeed: int := 50

  /**
   * Everything of the player but its machines: hitpoints, the physics body's
   * velocity, facing and enabled flag, and the scene's game-over flag.
   */
  datatype Body = Body(hitpoints: int, vx: int, vy: int, flipX: bool, active: bool, gameOver: bool)

  datatype PlayerView = PlayerView(
    body: Body, loco: Machine<PlayerAction, ActionHook>, wield: Machine<PlayerWielding, WieldingHook>)

  function IdleState(): State<PlayerAction, ActionHook> { State(Idle, Some(IdleEnter), Some(IdleUpdate), None) }
  function RunState(): State<PlayerAction, ActionHook> { State(Run, Some(RunEnter), Some(RunUpdate), None) }
  function KickState(): State<PlayerAction, ActionHook> { State(Kick, Some(KickEnter), None, None) }
  function JumpState(): State<PlayerAction, ActionHook> { State(Jump, Some(JumpEnter), Some(JumpUpdate), None) }
  function FallState(): State<PlayerAction, ActionHook> { State(Fall, None, Some(FallUpdate), None) }
  function DeathState(): State<PlayerAction, ActionHook> { State(Death, Some(DeathEnter), Some(DeathUpdate), None) }
  function NothingState(): State<PlayerWielding, WieldingHook> { State(Nothing, Some(NothingEnter), Some(NothingUpdate), None) }
  function RifleState(): State<PlayerWielding, WieldingHook> { State(Rifle, Some(RifleEnter), Some(RifleUpdate), None) }

  /** The locomotion machine as registered, unthrottled, before its first transition. */
  function LocomotionMachine(): Machine<PlayerAction, ActionHook>
  {
    Register(Register(Register(Register(Register(Register(
      Fresh(0), IdleState()), RunState()), KickState()), JumpState()), FallState()), DeathState())
  }

  /** The wielding machine as registered, with its 400 ms throttle, before its first transition. */
  function WieldingMachine(): Machine<PlayerWielding, WieldingHook>
  {
    Register(Register(Fresh(WieldingThrottle), NothingState()), RifleState())
  }

  function LocomotionTable(): map<PlayerAction, State<PlayerAction, ActionHook>>
  {
    map[Idle := IdleState(), Run := RunState(), Kick := KickState(),
        Jump := JumpState(), Fall := FallState(), Death := DeathState()]
  }

  function WieldingTable(): map<PlayerWielding, State<PlayerWielding, WieldingHook>>
  {
    map[Nothing := NothingState(), Rifle := RifleState()]
  }

  ghost predicate Valid(p: PlayerView)
  {
    Settled(p.loco, LocomotionTable(), 0) && Settled(p.wield, WieldingTable(), WieldingThrottle)
  }

  /** The clock is not behind the last transition of either machine. */
  predicate Since(p: PlayerView, now: int)
  {
    && (p.loco.lastChange.Some? ==> p.loco.lastChange.value <= now)
    && (p.wield.lastChange.Some? ==> p.wield.lastChange.value <= now)
  }

  predicate IsDead(p: PlayerView)
  {
    IsCurrent(p.loco, Death)
  }

  /**
   * An enter or exit handler of the locomotion machine: only the velocity
   * changes (animations are not modelled). The wielding machine's enter
   * handlers only play animations, so they leave the body alone.
   */
  function Handle(b: Body, h: Option<ActionHook>): Body
  {
    if h.None? then b
    else match h.value
      case IdleEnter => b.(vx := 0)
      case KickEnter => b.(vx := 0)
      case JumpEnter => b.(vy := JumpVelocity)
      case _ => b
  }

  /** setState on the locomotion machine, with the player running the exit and enter handlers in between. */
  function SetAction(p: PlayerView, a: PlayerAction, now: int): PlayerView
  {
    var begun := p.(loco := Begin(p.loco, a, now));
    if Judge(p.loco, a, now) == Proceeds then CompleteAction(begun, a, ExitHook(p.loco), now) else begun
  }

  /** The rest of a locomotion transition once begun: exit handler, switch, enter handler, timestamp. */
  function CompleteAction(p: PlayerView, a: PlayerAction, exitHook: Option<ActionHook>, now: int): PlayerView
    requires a in p.loco.states
  {
    var m := Switch(p.loco, a);
    p.(body := Handle(Handle(p.body, exitHook), m.states[a].onEnter), loco := Finish(m, now))
  }

  /** setState on the wielding machine. */
  function SetWielding(p: PlayerView, w: PlayerWielding, now: int): PlayerView
  {
    var begun := p.(wield := Begin(p.wield, w, now));
    if Judge(p.wield, w, now) == Proceeds then CompleteWielding(begun, w, now) else begun
  }

  function CompleteWielding(p: PlayerView, w: PlayerWielding, now: int): PlayerView
    requires w in p.wield.states
  {
    p.(wield := Finish(Switch(p.wield, w), now))
  }

  /** Sets the horizontal velocity and the facing. */
  function Steer(p: PlayerView, vx: int, flipX: bool): PlayerView
  {
    p.(body := p.body.(vx := vx, flipX := flipX))
  }

  /** The second half of IDLE's and RUN's update handlers: jump when up is held on the floor, else fall when falling fast enough. */
  function TakeOff(p: PlayerView, c: Controls, fallSpeed: int, now: int): PlayerView
  {
    if c.up && c.onFloor then SetAction(p, Jump, now)
    else if p.body.vy > fallSpeed && !c.onFloor then SetAction(p, Fall, now)
    else p
  }

  function OnIdleUpdate(p: PlayerView, c: Controls, now: int): PlayerView
  {
    var p1 :=
      if c.left || c.right then SetAction(p, Run, now)
      else if c.shift then SetAction(p, Kick, now)
      else p;
    TakeOff(p1, c, IdleFallSpeed, now)
  }

  function OnRunUpdate(p: PlayerView, c: Controls, now: int): PlayerView
  {
    var p1 :=
      if c.left then Steer(p, -RunSpeed, true)
      else if c.right then Steer(p, RunSpeed, false)
      else if c.shift then SetAction(p, Kick, now)
      else SetAction(p, Idle, now);
    TakeOff(p1, c, RunFallSpeed, now)
  }

  /** The update handler of both JUMP and FALL (they differ only in the animation frame shown). */
  function OnAirborneUpdate(p: PlayerView, c: Controls, now: int): PlayerView
  {
    var p1 :=
      if c.onFloor then (if c.left || c.right then SetAction(p, Run, now) else SetAction(p, Idle, now))
      else p;
    if c.left then Steer(p1, -RunSpeed, true)
    else if c.right then Steer(p1, RunSpeed, false)
    else p1.(body := p1.body.(vx := 0))
  }

  /** Once dead and on the floor, the body is disabled. */
  function OnDeathUpdate(p: PlayerView, c: Controls): PlayerView
  {
    if IsCurrent(p.loco, Death) && c.onFloor then p.(body := p.body.(active := false)) else p
  }

  /** The update handler of each wielding state: Q held requests the other state. */
  function OnWieldingUpdate(p: PlayerView, c: Controls, other: PlayerWielding, now: int): PlayerView
  {
    if c.toggle then SetWielding(p, other, now) else p
  }

  function RunActionUpdate(p: PlayerView, h: ActionHook, c: Controls, now: int): PlayerView
  {
    match h
    case IdleUpdate => OnIdleUpdate(p, c, now)
    case RunUpdate => OnRunUpdate(p, c, now)
    case JumpUpdate => OnAirborneUpdate(p, c, now)
    case FallUpdate => OnAirborneUpdate(p, c, now)
    case DeathUpdate => OnDeathUpdate(p, c)
    case _ => p
  }

  function RunWieldingUpdate(p: PlayerView, h: WieldingHook, c: Controls, now: int): PlayerView
  {
    match h
    case NothingUpdate => OnWieldingUpdate(p, c, Rifle, now)
    case RifleUpdate => OnWieldingUpdate(p, c, Nothing, now)
    case _ => p
  }

  /** update on the locomotion machine: a queued request, or the current update handler. */
  function UpdateLocomotion(p: PlayerView, c: Controls, delta: int, now: int): PlayerView
  {
    var started := p.(loco := StartUpdate(p.loco, delta, now));
    match TickOf(p.loco, delta, now)
    case Dequeued(a, verdict, exitHook) =>
      if verdict == Proceeds then CompleteAction(started, a, exitHook, now) else started
    case Ran(h) => RunActionUpdate(started, h, c, now)
    case Skipped => started
  }

  /** update on the wielding machine. */
  function UpdateWielding(p: PlayerView, c: Controls, delta: int, now: int): PlayerView
  {
    var started := p.(wield := StartUpdate(p.wield, delta, now));
    match TickOf(p.wield, delta, now)
    case Dequeued(w, verdict, _) =>
      if verdict == Proceeds then CompleteWielding(started, w, now) else started
    case Ran(h) => RunWieldingUpdate(started, h, c, now)
    case Skipped => started
  }

  /** The player's per-frame update: both machines, every frame, with no death check. */
  function Update(p: PlayerView, c: Controls, delta: int, now: int): PlayerView
  {
    UpdateWielding(UpdateLocomotion(p, c, delta, now), c, delta, now)
  }

  function Die(p: PlayerView, now: int): PlayerView
  {
    var p1 := SetWielding(SetAction(p, Death, now), Nothing, now);
    p1.(body := p1.body.(gameOver := true))
  }

  function Hit(p: PlayerView, damage: int, now: int): PlayerView
  {
    if IsDead(p) then p
    else
      var p1 := p.(body := p.body.(hitpoints := p.body.hitpoints - damage));
      if p1.body.hitpoints < 1 then Die(p1, now) else p1
  }

  /**
   * The host's physics step between ticks: gravity (the 800 downward
   * acceleration set at construction) and collisions leave the body with a new
   * velocity. A disabled body does not move.
   */
  function Integrate(p: PlayerView, vx: int, vy: int): PlayerView
  {
    if p.body.active then p.(body := p.body.(vx := vx, vy := vy)) else p
  }

  /** The listener for the end of the kick animation. */
  function KickComplete(p: PlayerView, now: int): PlayerView
  {
    SetAction(p, Idle, now)
  }

  /** The player as the constructor leaves it. */
  function Initial(now: int, gameOver: bool): PlayerView
  {
    var p := PlayerView(Body(StartingHitpoints, 0, 0, false, true, gameOver), LocomotionMachine(), WieldingMachine());
    SetWielding(SetAction(p, Idle, now), Nothing, now)
  }

  // ---------------------------------------------------------------------------
  // Reference definitions of the input rules

  function HorizontalSpeed(c: Controls): int
  {
    if c.left then -RunSpeed else if c.right then RunSpeed else 0
  }

  function Facing(c: Controls, flipX: bool): bool
  {
    if c.left then true else if c.right then false else flipX
  }

  /** In IDLE: a jump or a fall wins over run or kick; otherwise run, kick, or stay. */
  function IdleNext(c: Controls, vy: int): PlayerAction
  {
    if c.up && c.onFloor then Jump
    else if vy > IdleFallSpeed && !c.onFloor then Fall
    else if c.left || c.right then Run
    else if c.shift then Kick
    else Idle
  }

  /** In RUN: as in IDLE, with the lower fall threshold and IDLE when nothing is held. */
  function RunNext(c: Controls, vy: int): PlayerAction
  {
    if c.up && c.onFloor then Jump
    else if vy > RunFallSpeed && !c.onFloor then Fall
    else if c.left || c.right then Run
    else if c.shift then Kick
    else Idle
  }

  /** In JUMP or FALL: landing ends the flight. */
  function LandingNext(c: Controls, airborne: PlayerAction): PlayerAction
  {
    if !c.onFloor then airborne else if c.left || c.right then Run else Idle
  }

  // ---------------------------------------------------------------------------
  // Properties

  lemma RegisteredTables()
    ensures LocomotionMachine() == Fresh<PlayerAction, ActionHook>(0).(states := LocomotionTable())
    ensures WieldingMachine() == Fresh<PlayerWielding, WieldingHook>(WieldingThrottle).(states := WieldingTable())
  {
  }

  /**
   * setState on the locomotion machine of a settled player: a request that
   * does not proceed changes nothing; one that proceeds moves the machine,
   * stamps the time and runs the target's enter handler on the body. The
   * wielding machine is not touched.
   */
  lemma SetActionEffect(p: PlayerView, a: PlayerAction, now: int)
    requires Valid(p)
    ensures var r := SetAction(p, a, now);
      && Valid(r) && r.wield == p.wield
      && (Since(p, now) ==> Since(r, now))
      && (Judge(p.loco, a, now) != Proceeds ==> r == p)
      && (Judge(p.loco, a, now) == Proceeds ==>
            && r.body == Handle(p.body, LocomotionTable()[a].onEnter)
            && CurrentName(r.loco) == Some(a)
            && r.loco.lastChange == Some(now))
  {
  }

  /** The same for the wielding machine. */
  lemma SetWieldingEffect(p: PlayerView, w: PlayerWielding, now: int)
    requires Valid(p)
    ensures var r := SetWielding(p, w, now);
      && Valid(r) && r.loco == p.loco && r.body == p.body
      && (Since(p, now) ==> Since(r, now))
      && (Judge(p.wield, w, now) != Proceeds ==> r == p)
      && (Judge(p.wield, w, now) == Proceeds ==> CurrentName(r.wield) == Some(w) && r.wield.lastChange == Some(now))
  {
  }

  /** In a settled player whose clock has not gone back, locomotion requests are refused only for the current state. */
  lemma LocomotionNeverThrottled(p: PlayerView, a: PlayerAction, now: int)
    requires Valid(p) && Since(p, now)
    ensures Judge(p.loco, a, now) == Proceeds <==> !IsCurrent(p.loco, a)
  {
  }

  lemma InitialPlayer(now: int, gameOver: bool)
    ensures var p := Initial(now, gameOver);
      && Valid(p) && Since(p, now) && DeathEndsGame(p)
      && CurrentName(p.loco) == Some(Idle)
      && CurrentName(p.wield) == Some(Nothing)
      && p.body == Body(StartingHitpoints, 0, 0, false, true, gameOver)
  {
    RegisteredTables();
    var p0 := PlayerView(Body(StartingHitpoints, 0, 0, false, true, gameOver), LocomotionMachine(), WieldingMachine());
    var p1 := SetAction(p0, Idle, now);
    assert p1.loco.current == Some(IdleState());
    assert p1.wield == WieldingMachine();
  }

  lemma HitWhileDeadChangesNothing(p: PlayerView, damage: int, now: int)
    requires IsDead(p)
    ensures Hit(p, damage, now) == p
  {
  }

  function HitAll(p: PlayerView, damages: seq<int>, now: int): PlayerView
    decreases |damages|
  {
    if damages == [] then p else HitAll(Hit(p, damages[0], now), damages[1..], now)
  }

  /** Death is absorbing for hits: any number of hits after death leave the player exactly as it was. */
  lemma {:induction false} HitsWhileDeadChangeNothing(p: PlayerView, damages: seq<int>, now: int)
    requires IsDead(p)
    ensures HitAll(p, damages, now) == p
    decreases |damages|
  {
    if damages != [] {
      HitWhileDeadChangesNothing(p, damages[0], now);
      HitsWhileDeadChangeNothing(p, damages[1..], now);
    }
  }

  /** A hit that leaves at least one hitpoint only lowers hitpoints. */
  lemma NonLethalHit(p: PlayerView, damage: int, now: int)
    requires !IsDead(p) && p.body.hitpoints - damage >= 1
    ensures Hit(p, damage, now) == p.(body := p.body.(hitpoints := p.body.hitpoints - damage))
  {
  }

  /** die on a living, settled player: dead, game over, the rifle put away unless the 400 ms throttle blocks it. */
  lemma DieEffect(p: PlayerView, now: int)
    requires Valid(p) && Since(p, now) && !IsDead(p)
    ensures var r := Die(p, now);
      && Valid(r) && IsDead(r)
      && r.body == p.body.(gameOver := true)
      && (IsCurrent(r.wield, Nothing) <==> IsCurrent(p.wield, Nothing) || !InThrottleWindow(p.wield, now))
  {
    SetActionEffect(p, Death, now);
    SetWieldingEffect(SetAction(p, Death, now), Nothing, now);
  }

  /**
   * A lethal hit: hitpoints drop by the damage, the player is dead, the game is
   * over, and the rifle is put away unless the 400 ms wielding throttle blocks it.
   */
  lemma LethalHit(p: PlayerView, damage: int, now: int)
    requires Valid(p) && Since(p, now) && !IsDead(p)
    requires p.body.hitpoints - damage < 1
    ensures var r := Hit(p, damage, now);
      && Valid(r)
      && r.body.hitpoints == p.body.hitpoints - damage
      && IsDead(r) && r.body.gameOver
      && (IsCurrent(r.wield, Nothing) <==> IsCurrent(p.wield, Nothing) || !InThrottleWindow(p.wield, now))
  {
    DieEffect(p.(body := p.body.(hitpoints := p.body.hitpoints - damage)), now);
  }

  /** The locomotion machine's own part of a tick on a settled player: it logs the update handler, then runs it. */
  lemma LocomotionTickShape(p: PlayerView, c: Controls, delta: int, now: int)
    requires Valid(p)
    ensures var h := p.loco.current.value.onUpdate;
      var s := p.(loco := StartUpdate(p.loco, delta, now));
      && Valid(s) && s.body == p.body && s.wield == p.wield
      && (Since(p, now) ==> Since(s, now))
      && CurrentName(s.loco) == CurrentName(p.loco)
      && (h.Some? ==> UpdateLocomotion(p, c, delta, now) == RunActionUpdate(s, h.value, c, now))
      && (h.None? ==> UpdateLocomotion(p, c, delta, now) == s)
  {
  }

  /** The wielding machine's tick touches neither the locomotion machine nor the body. */
  lemma WieldingTickKeepsBody(p: PlayerView, c: Controls, delta: int, now: int)
    requires Valid(p)
    ensures var r := UpdateWielding(p, c, delta, now);
      && Valid(r) && r.loco == p.loco && r.body == p.body
  {
    var s := p.(wield := StartUpdate(p.wield, delta, now));
    SetWieldingEffect(s, Rifle, now);
    SetWieldingEffect(s, Nothing, now);
  }

  /**
   * Q held toggles the weapon, at most once per 400 ms: the wielding state
   * changes exactly when Q is held and the throttle window has passed. Nothing
   * checks for death, so this holds for a dead player too.
   */
  lemma WieldingToggle(p: PlayerView, c: Controls, delta: int, now: int)
    requires Valid(p)
    ensures var r := UpdateWielding(p, c, delta, now);
      && Valid(r) && r.loco == p.loco && r.body == p.body
      && (CurrentName(r.wield) != CurrentName(p.wield) <==> c.toggle && !InThrottleWindow(p.wield, now))
  {
    var s := p.(wield := StartUpdate(p.wield, delta, now));
    SetWieldingEffect(s, Rifle, now);
    SetWieldingEffect(s, Nothing, now);
  }

  /** Outside the air, TakeOff jumps when up is held on the floor, and otherwise falls when falling fast enough. */
  lemma TakeOffEffect(p: PlayerView, c: Controls, fallSpeed: int, now: int)
    requires Valid(p) && Since(p, now)
    requires !IsCurrent(p.loco, Jump) && !IsCurrent(p.loco, Fall)
    ensures var r := TakeOff(p, c, fallSpeed, now);
      && Valid(r) && Since(r, now) && r.wield == p.wield
      && CurrentName(r.loco) ==
           (if c.up && c.onFloor then Some(Jump)
            else if p.body.vy > fallSpeed && !c.onFloor then Some(Fall)
            else CurrentName(p.loco))
      && r.body == p.body.(vy := if c.up && c.onFloor then JumpVelocity else p.body.vy)
  {
    if c.up && c.onFloor {
      SetActionEffect(p, Jump, now);
    } else if p.body.vy > fallSpeed && !c.onFloor {
      SetActionEffect(p, Fall, now);
    }
  }

  /** IDLE's update handler: the later request of the tick wins, so the state follows IdleNext. */
  lemma IdleHandler(p: PlayerView, c: Controls, now: int)
    requires Valid(p) && Since(p, now)
    requires IsCurrent(p.loco, Idle)
    ensures var r := OnIdleUpdate(p, c, now);
      && Valid(r) && r.wield == p.wield
      && CurrentName(r.loco) == Some(IdleNext(c, p.body.vy))
      && r.body == p.body.(
           vx := if !(c.left || c.right) && c.shift then 0 else p.body.vx,
           vy := if IdleNext(c, p.body.vy) == Jump then JumpVelocity else p.body.vy)
  {
    var p1 :=
      if c.left || c.right then SetAction(p, Run, now)
      else if c.shift then SetAction(p, Kick, now)
      else p;
    if c.left || c.right {
      SetActionEffect(p, Run, now);
    } else if c.shift {
      SetActionEffect(p, Kick, now);
    }
    assert p1.body == p.body.(vx := if !(c.left || c.right) && c.shift then 0 else p.body.vx);
    assert CurrentName(p1.loco) == Some(if c.left || c.right then Run else if c.shift then Kick else Idle);
    TakeOffEffect(p1, c, IdleFallSpeed, now);
  }

  /** RUN's update handler: velocity follows the arrows (zero once they are released) and the state follows RunNext. */
  lemma RunHandler(p: PlayerView, c: Controls, now: int)
    requires Valid(p) && Since(p, now)
    requires IsCurrent(p.loco, Run)
    ensures var r := OnRunUpdate(p, c, now);
      && Valid(r) && r.wield == p.wield
      && CurrentName(r.loco) == Some(RunNext(c, p.body.vy))
      && r.body == p.body.(
           vx := HorizontalSpeed(c), flipX := Facing(c, p.body.flipX),
           vy := if RunNext(c, p.body.vy) == Jump then JumpVelocity else p.body.vy)
  {
    var p1 :=
      if c.left then Steer(p, -RunSpeed, true)
      else if c.right then Steer(p, RunSpeed, false)
      else if c.shift then SetAction(p, Kick, now)
      else SetAction(p, Idle, now);
    if c.left || c.right {
      assert Valid(p1) && p1.loco == p.loco && p1.wield == p.wield;
    } else if c.shift {
      SetActionEffect(p, Kick, now);
    } else {
      SetActionEffect(p, Idle, now);
    }
    assert p1.body == p.body.(vx := HorizontalSpeed(c), flipX := Facing(c, p.body.flipX));
    assert CurrentName(p1.loco) == Some(if c.left || c.right then Run else if c.shift then Kick else Idle);
    TakeOffEffect(p1, c, RunFallSpeed, now);
  }

  /** JUMP's and FALL's update handler: landing ends the flight; velocity follows the arrows either way. */
  lemma AirborneHandler(p: PlayerView, c: Controls, now: int, airborne: PlayerAction)
    requires Valid(p) && Since(p, now)
    requires airborne == Jump || airborne == Fall
    requires IsCurrent(p.loco, airborne)
    ensures var r := OnAirborneUpdate(p, c, now);
      && Valid(r) && r.wield == p.wield
      && CurrentName(r.loco) == Some(LandingNext(c, airborne))
      && r.body == p.body.(vx := HorizontalSpeed(c), flipX := Facing(c, p.body.flipX))
  {
    if c.onFloor && (c.left || c.right) {
      SetActionEffect(p, Run, now);
    } else if c.onFloor {
      SetActionEffect(p, Idle, now);
    }
  }

  /** A tick in IDLE: the locomotion state follows IdleNext, and the weapon does not touch the body. */
  lemma IdleTick(p: PlayerView, c: Controls, delta: int, now: int)
    requires Valid(p) && Since(p, now)
    requires IsCurrent(p.loco, Idle)
    ensures var r := Update(p, c, delta, now);
      && Valid(r)
      && CurrentName(r.loco) == Some(IdleNext(c, p.body.vy))
      && r.body == p.body.(
           vx := if !(c.left || c.right) && c.shift then 0 else p.body.vx,
           vy := if IdleNext(c, p.body.vy) == Jump then JumpVelocity else p.body.vy)
  {
    LocomotionTickShape(p, c, delta, now);
    IdleHandler(p.(loco := StartUpdate(p.loco, delta, now)), c, now);
    WieldingTickKeepsBody(UpdateLocomotion(p, c, delta, now), c, delta, now);
  }

  /** A tick in RUN: the state follows RunNext and the horizontal velocity follows the arrows. */
  lemma RunTick(p: PlayerView, c: Controls, delta: int, now: int)
    requires Valid(p) && Since(p, now)
    requires IsCurrent(p.loco, Run)
    ensures var r := Update(p, c, delta, now);
      && Valid(r)
      && CurrentName(r.loco) == Some(RunNext(c, p.body.vy))
      && r.body == p.body.(
           vx := HorizontalSpeed(c), flipX := Facing(c, p.body.flipX),
           vy := if RunNext(c, p.body.vy) == Jump then JumpVelocity else p.body.vy)
  {
    LocomotionTickShape(p, c, delta, now);
    RunHandler(p.(loco := StartUpdate(p.loco, delta, now)), c, now);
    WieldingTickKeepsBody(UpdateLocomotion(p, c, delta, now), c, delta, now);
  }

  /** A tick in JUMP or FALL: landing ends the flight and the horizontal velocity follows the arrows. */
  lemma AirborneTick(p: PlayerView, c: Controls, delta: int, now: int, airborne: PlayerAction)
    requires Valid(p) && Since(p, now)
    requires airborne == Jump || airborne == Fall
    requires IsCurrent(p.loco, airborne)
    ensures var r := Update(p, c, delta, now);
      && Valid(r)
      && CurrentName(r.loco) == Some(LandingNext(c, airborne))
      && r.body == p.body.(vx := HorizontalSpeed(c), flipX := Facing(c, p.body.flipX))
  {
    LocomotionTickShape(p, c, delta, now);
    AirborneHandler(p.(loco := StartUpdate(p.loco, delta, now)), c, now, airborne);
    WieldingTickKeepsBody(UpdateLocomotion(p, c, delta, now), c, delta, now);
  }

  /** KICK has no update handler: a tick leaves the locomotion state and the body alone. */
  lemma KickTick(p: PlayerView, c: Controls, delta: int, now: int)
    requires Valid(p)
    requires IsCurrent(p.loco, Kick)
    ensures var r := Update(p, c, delta, now);
      Valid(r) && CurrentName(r.loco) == Some(Kick) && r.body == p.body
  {
    LocomotionTickShape(p, c, delta, now);
    WieldingTickKeepsBody(UpdateLocomotion(p, c, delta, now), c, delta, now);
  }

  /** The end of the kick animation returns the player to IDLE, standing still. */
  lemma KickCompleteReturnsToIdle(p: PlayerView, now: int)
    requires Valid(p) && Since(p, now)
    requires IsCurrent(p.loco, Kick)
    ensures var r := KickComplete(p, now);
      Valid(r) && CurrentName(r.loco) == Some(Idle) && r.body == p.body.(vx := 0) && r.wield == p.wield
  {
    SetActionEffect(p, Idle, now);
  }

  /** Dead and on the floor, a tick disables the body; the player stays dead and nothing else moves. */
  lemma DeadTick(p: PlayerView, c: Controls, delta: int, now: int)
    requires Valid(p) && IsDead(p)
    ensures var r := Update(p, c, delta, now);
      && Valid(r) && IsDead(r)
      && r.body == p.body.(active := p.body.active && !c.onFloor)
  {
    LocomotionTickShape(p, c, delta, now);
    WieldingTickKeepsBody(UpdateLocomotion(p, c, delta, now), c, delta, now);
  }

  /**
   * The operations the host can apply to a player. KickDone is the end of the
   * kick animation, which plays only while KICK is the current state: leaving
   * KICK plays another animation, so the event cannot arrive in another state.
   * Physics is the host's integration of the body between ticks.
   */
  datatype Op = Tick(c: Controls, delta: int) | Damage(amount: int) | Kill | KickDone | Physics(vx: int, vy: int)

  function Step(p: PlayerView, op: Op, now: int): PlayerView
  {
    match op
    case Tick(c, delta) => Update(p, c, delta, now)
    case Damage(amount) => Hit(p, amount, now)
    case Kill => Die(p, now)
    case KickDone => if IsCurrent(p.loco, Kick) then KickComplete(p, now) else p
    case Physics(vx, vy) => Integrate(p, vx, vy)
  }

  function Apply(p: PlayerView, ops: seq<Op>, times: seq<int>): PlayerView
    requires |ops| == |times|
    decreases |ops|
  {
    if ops == [] then p else Apply(Step(p, ops[0], times[0]), ops[1..], times[1..])
  }

  lemma DieKeepsValid(p: PlayerView, now: int)
    requires Valid(p)
    ensures Valid(Die(p, now))
  {
    SetActionEffect(p, Death, now);
    SetWieldingEffect(SetAction(p, Death, now), Nothing, now);
  }

  lemma TakeOffKeepsValid(p: PlayerView, c: Controls, fallSpeed: int, now: int)
    requires Valid(p)
    ensures Valid(TakeOff(p, c, fallSpeed, now))
  {
    SetActionEffect(p, Jump, now);
    SetActionEffect(p, Fall, now);
  }

  lemma HandlerKeepsValid(p: PlayerView, h: ActionHook, c: Controls, now: int)
    requires Valid(p)
    ensures Valid(RunActionUpdate(p, h, c, now))
  {
    match h {
      case IdleUpdate =>
        if c.left || c.right {
          SetActionEffect(p, Run, now);
          TakeOffKeepsValid(SetAction(p, Run, now), c, IdleFallSpeed, now);
        } else if c.shift {
          SetActionEffect(p, Kick, now);
          TakeOffKeepsValid(SetAction(p, Kick, now), c, IdleFallSpeed, now);
        } else {
          TakeOffKeepsValid(p, c, IdleFallSpeed, now);
        }
      case RunUpdate =>
        if c.left {
          TakeOffKeepsValid(Steer(p, -RunSpeed, true), c, RunFallSpeed, now);
        } else if c.right {
          TakeOffKeepsValid(Steer(p, RunSpeed, false), c, RunFallSpeed, now);
        } else if c.shift {
          SetActionEffect(p, Kick, now);
          TakeOffKeepsValid(SetAction(p, Kick, now), c, RunFallSpeed, now);
        } else {
          SetActionEffect(p, Idle, now);
          TakeOffKeepsValid(SetAction(p, Idle, now), c, RunFallSpeed, now);
        }
      case JumpUpdate =>
        SetActionEffect(p, Run, now);
        SetActionEffect(p, Idle, now);
      case FallUpdate =>
        SetActionEffect(p, Run, now);
        SetActionEffect(p, Idle, now);
      case _ =>
    }
  }

  lemma StepKeepsValid(p: PlayerView, op: Op, now: int)
    requires Valid(p)
    ensures Valid(Step(p, op, now))
  {
    match op {
      case Tick(c, delta) =>
        LocomotionTickShape(p, c, delta, now);
        if p.loco.current.value.onUpdate.Some? {
          HandlerKeepsValid(p.(loco := StartUpdate(p.loco, delta, now)), p.loco.current.value.onUpdate.value, c, now);
        }
        WieldingTickKeepsBody(UpdateLocomotion(p, c, delta, now), c, delta, now);
      case Damage(amount) =>
        if !IsDead(p) && p.body.hitpoints - amount < 1 {
          DieKeepsValid(p.(body := p.body.(hitpoints := p.body.hitpoints - amount)), now);
        }
      case Kill =>
        DieKeepsValid(p, now);
      case KickDone =>
        SetActionEffect(p, Idle, now);
      case Physics(vx, vy) =>
    }
  }

  /**
   * Walking off a ledge: once the host's physics reports the new player falling
   * faster than 100 off the floor, the next tick with no key held enters FALL.
   */
  lemma LedgeFall(now: int, gameOver: bool, vy: int)
    requires vy > IdleFallSpeed
    ensures var c := Controls(false, false, false, false, false, false);
      var r := Apply(Initial(now, gameOver), [Physics(0, vy), Tick(c, 16)], [now, now]);
      CurrentName(r.loco) == Some(Fall) && r.body.vy == vy
  {
    var c := Controls(false, false, false, false, false, false);
    InitialPlayer(now, gameOver);
    var p1 := Integrate(Initial(now, gameOver), 0, vy);
    IdleTick(p1, c, 16, now);
    var ops := [Physics(0, vy), Tick(c, 16)];
    assert Apply(Initial(now, gameOver), ops, [now, now]) == Apply(p1, ops[1..], [now]);
    assert Apply(p1, ops[1..], [now]) == Update(p1, c, 16, now);
  }

  /** Once dead, the game is over: `die` is the only way into DEATH and it sets the flag. */
  predicate DeathEndsGame(p: PlayerView)
  {
    IsDead(p) ==> p.body.gameOver
  }

  /** A locomotion request other than DEATH neither kills the player nor touches the game-over flag. */
  lemma SetActionSpares(p: PlayerView, a: PlayerAction, now: int)
    requires Valid(p) && a != Death
    ensures var r := SetAction(p, a, now);
      r.body.gameOver == p.body.gameOver && (IsDead(r) ==> IsDead(p))
  {
    SetActionEffect(p, a, now);
  }

  lemma TakeOffSpares(p: PlayerView, c: Controls, fallSpeed: int, now: int)
    requires Valid(p)
    ensures var r := TakeOff(p, c, fallSpeed, now);
      Valid(r) && r.body.gameOver == p.body.gameOver && (IsDead(r) ==> IsDead(p))
  {
    TakeOffKeepsValid(p, c, fallSpeed, now);
    SetActionSpares(p, Jump, now);
    SetActionSpares(p, Fall, now);
  }

  /** No locomotion update handler requests DEATH or touches the game-over flag. */
  lemma HandlerSpares(p: PlayerView, h: ActionHook, c: Controls, now: int)
    requires Valid(p)
    ensures var r := RunActionUpdate(p, h, c, now);
      r.body.gameOver == p.body.gameOver && (IsDead(r) ==> IsDead(p))
  {
    match h {
      case IdleUpdate =>
        if c.left || c.right {
          SetActionSpares(p, Run, now);
          SetActionEffect(p, Run, now);
          TakeOffSpares(SetAction(p, Run, now), c, IdleFallSpeed, now);
        } else if c.shift {
          SetActionSpares(p, Kick, now);
          SetActionEffect(p, Kick, now);
          TakeOffSpares(SetAction(p, Kick, now), c, IdleFallSpeed, now);
        } else {
          TakeOffSpares(p, c, IdleFallSpeed, now);
        }
      case RunUpdate =>
        if c.left {
          TakeOffSpares(Steer(p, -RunSpeed, true), c, RunFallSpeed, now);
        } else if c.right {
          TakeOffSpares(Steer(p, RunSpeed, false), c, RunFallSpeed, now);
        } else if c.shift {
          SetActionSpares(p, Kick, now);
          SetActionEffect(p, Kick, now);
          TakeOffSpares(SetAction(p, Kick, now), c, RunFallSpeed, now);
        } else {
          SetActionSpares(p, Idle, now);
          SetActionEffect(p, Idle, now);
          TakeOffSpares(SetAction(p, Idle, now), c, RunFallSpeed, now);
        }
      case JumpUpdate =>
        SetActionSpares(p, Run, now);
        SetActionSpares(p, Idle, now);
      case FallUpdate =>
        SetActionSpares(p, Run, now);
        SetActionSpares(p, Idle, now);
      case _ =>
    }
  }

  /** A tick never kills a living player, keeps a dead one dead, and leaves the game-over flag alone. */
  lemma TickSpares(p: PlayerView, c: Controls, delta: int, now: int)
    requires Valid(p)
    ensures var r := Update(p, c, delta, now);
      r.body.gameOver == p.body.gameOver && (IsDead(r) <==> IsDead(p))
  {
    LocomotionTickShape(p, c, delta, now);
    var s := p.(loco := StartUpdate(p.loco, delta, now));
    if p.loco.current.value.onUpdate.Some? {
      HandlerSpares(s, p.loco.current.value.onUpdate.value, c, now);
      HandlerKeepsValid(s, p.loco.current.value.onUpdate.value, c, now);
    }
    WieldingTickKeepsBody(UpdateLocomotion(p, c, delta, now), c, delta, now);
    if IsDead(p) {
      DeadTick(p, c, delta, now);
    }
  }

  /** Every operation keeps the player's game over once it is dead. */
  lemma StepEndsGameOnDeath(p: PlayerView, op: Op, now: int)
    requires Valid(p) && DeathEndsGame(p)
    ensures DeathEndsGame(Step(p, op, now))
  {
    match op {
      case Tick(c, delta) =>
        TickSpares(p, c, delta, now);
      case Damage(amount) =>
      case Kill =>
      case KickDone =>
        SetActionSpares(p, Idle, now);
      case Physics(vx, vy) =>
    }
  }

  lemma {:induction false} ApplyEndsGameOnDeath(p: PlayerView, ops: seq<Op>, times: seq<int>)
    requires Valid(p) && DeathEndsGame(p) && |ops| == |times|
    ensures Valid(Apply(p, ops, times)) && DeathEndsGame(Apply(p, ops, times))
    decreases |ops|
  {
    if ops != [] {
      StepKeepsValid(p, ops[0], times[0]);
      StepEndsGameOnDeath(p, ops[0], times[0]);
      ApplyEndsGameOnDeath(Step(p, ops[0], times[0]), ops[1..], times[1..]);
    }
  }

  /**
   * Death is final for the player's locomotion: after it, no operation leaves
   * DEATH, the body keeps its hitpoints and facing and can only be disabled,
   * and the game stays over. The body keeps falling until it is disabled, and
   * then does not move at all; besides that only the wielding machine moves.
   */
  lemma {:induction false} DeathIsFinal(p: PlayerView, ops: seq<Op>, times: seq<int>)
    requires Valid(p) && DeathEndsGame(p) && IsDead(p) && |ops| == |times|
    ensures var r := Apply(p, ops, times);
      && Valid(r) && IsDead(r) && r.loco.current == p.loco.current
      && r.body == p.body.(active := r.body.active, vx := r.body.vx, vy := r.body.vy)
      && (r.body.active ==> p.body.active) && (!p.body.active ==> r.body == p.body)
      && r.body.hitpoints == p.body.hitpoints && r.body.gameOver
    decreases |ops|
  {
    if ops != [] {
      var p1 := Step(p, ops[0], times[0]);
      StepKeepsValid(p, ops[0], times[0]);
      StepEndsGameOnDeath(p, ops[0], times[0]);
      match ops[0] {
        case Tick(c, delta) =>
          DeadTick(p, c, delta, times[0]);
        case Damage(amount) =>
        case Kill =>
          SetActionEffect(p, Death, times[0]);
          SetWieldingEffect(SetAction(p, Death, times[0]), Nothing, times[0]);
        case KickDone =>
        case Physics(vx, vy) =>
      }
      DeathIsFinal(p1, ops[1..], times[1..]);
    }
  }

  /** Every sequence of operations keeps both machines settled and registered as at construction. */
  lemma {:induction false} ApplyKeepsValid(p: PlayerView, ops: seq<Op>, times: seq<int>)
    requires Valid(p) && |ops| == |times|
    ensures Valid(Apply(p, ops, times))
    decreases |ops|
  {
    if ops != [] {
      StepKeepsValid(p, ops[0], times[0]);
      ApplyKeepsValid(Step(p, ops[0], times[0]), ops[1..], times[1..]);
    }
  }
}

/** The player object: its fields, its two machines and the scene it reports game over to. */
module PlayerActor {
  import opened StateMachines
  import opened PlayerModel
  import opened MainScene
  import opened PlayerSpec

  /** The locomotion machine as the player's constructor builds it. */
  method NewLocomotion() returns (l: StateMachine<PlayerAction, ActionHook>)
    ensures fresh(l) && l.View() == LocomotionMachine()
  {
    l := new StateMachine<PlayerAction, ActionHook>(0);
    l := l.AddState(IdleState());
    l := l.AddState(RunState());
    l := l.AddState(KickState());
    l := l.AddState(JumpState());
    l := l.AddState(FallState());
    l := l.AddState(DeathState());
  }

  /** The wielding machine as the player's constructor builds it. */
  method NewWielding() returns (w: StateMachine<PlayerWielding, WieldingHook>)
    ensures fresh(w) && w.View() == WieldingMachine()
  {
    w := new StateMachine<PlayerWielding, WieldingHook>(WieldingThrottle);
    w := w.AddState(NothingState());
    w := w.AddState(RifleState());
  }

  class Player {
    var hitpoints: int
    var vx: int
    var vy: int
    var flipX: bool
    var active: bool
    const scene: Scene
    const loco: StateMachine<PlayerAction, ActionHook>
    const wield: StateMachine<PlayerWielding, WieldingHook>

    function View(): PlayerView
      reads this, scene, loco, wield
    {
      PlayerView(Body(hitpoints, vx, vy, flipX, active, scene.isGameOver), loco.View(), wield.View())
    }

    constructor (scene: Scene, now: int)
      ensures fresh(loco) && fresh(wield) && this.scene == scene
      ensures View() == Initial(now, scene.isGameOver)
    {
      var l := NewLocomotion();
      var w := NewWielding();
      this.scene := scene;
      loco, wield := l, w;
      hitpoints, vx, vy, flipX, active := StartingHitpoints, 0, 0, false, true;
      new;
      ghost var p0 := View();
      assert p0 == PlayerView(Body(StartingHitpoints, 0, 0, false, true, scene.isGameOver), LocomotionMachine(), WieldingMachine());
      SetAction(Idle, now);
      assert View() == PlayerSpec.SetAction(p0, Idle, now);
      SetWielding(Nothing, now);
    }

    /** Runs an enter or exit handler. */
    method Dispatch(h: Option<ActionHook>)
      modifies this
      ensures View() == old(View()).(body := Handle(old(View()).body, h))
    {
      if h.Some? {
        match h.value
        case IdleEnter => vx := 0;
        case KickEnter => vx := 0;
        case JumpEnter => vy := JumpVelocity;
        case _ =>
      }
    }

    /** setState on the locomotion machine, running the handlers it hands out. */
    method SetAction(a: PlayerAction, now: int)
      modifies this, loco
      ensures View() == PlayerSpec.SetAction(old(View()), a, now)
    {
      var verdict, exitHook := loco.BeginSetState(a, now);
      if verdict == Proceeds {
        CompleteAction(a, exitHook, now);
      }
    }

    method CompleteAction(a: PlayerAction, exitHook: Option<ActionHook>, now: int)
      requires a in loco.states
      modifies this, loco
      ensures View() == PlayerSpec.CompleteAction(old(View()), a, exitHook, now)
    {
      Dispatch(exitHook);
      var enterHook := loco.EnterState(a);
      Dispatch(enterHook);
      loco.EndSetState(now);
    }

    /** setState on the wielding machine. */
    method SetWielding(w: PlayerWielding, now: int)
      modifies wield
      ensures View() == PlayerSpec.SetWielding(old(View()), w, now)
    {
      var verdict, _ := wield.BeginSetState(w, now);
      if verdict == Proceeds {
        CompleteWielding(w, now);
      }
    }

    /** The wielding states have no exit handlers, and their enter handlers only play animations. */
    method CompleteWielding(w: PlayerWielding, now: int)
      requires w in wield.states
      modifies wield
      ensures View() == PlayerSpec.CompleteWielding(old(View()), w, now)
    {
      var _ := wield.EnterState(w);
      wield.EndSetState(now);
    }

    method TakeOff(c: Controls, fallSpeed: int, now: int)
      modifies this, loco
      ensures View() == PlayerSpec.TakeOff(old(View()), c, fallSpeed, now)
    {
      if c.up && c.onFloor {
        SetAction(Jump, now);
      } else if vy > fallSpeed && !c.onFloor {
        SetAction(Fall, now);
      }
    }

    method OnIdleUpdate(c: Controls, now: int)
      modifies this, loco
      ensures View() == PlayerSpec.OnIdleUpdate(old(View()), c, now)
    {
      if c.left || c.right {
        SetAction(Run, now);
      } else if c.shift {
        SetAction(Kick, now);
      }
      TakeOff(c, IdleFallSpeed, now);
    }

    method OnRunUpdate(c: Controls, now: int)
      modifies this, loco
      ensures View() == PlayerSpec.OnRunUpdate(old(View()), c, now)
    {
      if c.left {
        vx, flipX := -RunSpeed, true;
      } else if c.right {
        vx, flipX := RunSpeed, false;
      } else if c.shift {
        SetAction(Kick, now);
      } else {
        SetAction(Idle, now);
      }
      TakeOff(c, RunFallSpeed, now);
    }

    method OnAirborneUpdate(c: Controls, now: int)
      modifies this, loco
      ensures View() == PlayerSpec.OnAirborneUpdate(old(View()), c, now)
    {
      if c.onFloor {
        if c.left || c.right {
          SetAction(Run, now);
        } else {
          SetAction(Idle, now);
        }
      }
      if c.left {
        vx, flipX := -RunSpeed, true;
      } else if c.right {
        vx, flipX := RunSpeed, false;
      } else {
        vx := 0;
      }
    }

    method RunActionUpdate(h: ActionHook, c: Controls, now: int)
      modifies this, loco
      ensures View() == PlayerSpec.RunActionUpdate(old(View()), h, c, now)
    {
      match h
      case IdleUpdate => OnIdleUpdate(c, now);
      case RunUpdate => OnRunUpdate(c, now);
      case JumpUpdate => OnAirborneUpdate(c, now);
      case FallUpdate => OnAirborneUpdate(c, now);
      case DeathUpdate =>
        if loco.IsCurrentState(Death) && c.onFloor {
          active := false;
        }
      case _ =>
    }

    method RunWieldingUpdate(h: WieldingHook, c: Controls, now: int)
      modifies wield
      ensures View() == PlayerSpec.RunWieldingUpdate(old(View()), h, c, now)
    {
      match h
      case NothingUpdate =>
        if c.toggle {
          SetWielding(Rifle, now);
        }
      case RifleUpdate =>
        if c.toggle {
          SetWielding(Nothing, now);
        }
      case _ =>
    }

    /** update on the locomotion machine, dispatching what it hands out. */
    method UpdateLocomotion(c: Controls, delta: int, now: int)
      modifies this, loco, wield
      ensures View() == PlayerSpec.UpdateLocomotion(old(View()), c, delta, now)
    {
      var tick := loco.Update(delta, now);
      match tick
      case Dequeued(a, verdict, exitHook) =>
        if verdict == Proceeds {
          CompleteAction(a, exitHook, now);
        }
      case Ran(h) => RunActionUpdate(h, c, now);
      case Skipped =>
    }

    /** update on the wielding machine. */
    method UpdateWielding(c: Controls, delta: int, now: int)
      modifies this, loco, wield
      ensures View() == PlayerSpec.UpdateWielding(old(View()), c, delta, now)
    {
      var tick := wield.Update(delta, now);
      match tick
      case Dequeued(w, verdict, _) =>
        if verdict == Proceeds {
          CompleteWielding(w, now);
        }
      case Ran(h) => RunWieldingUpdate(h, c, now);
      case Skipped =>
    }

    /** The per-frame update: the locomotion machine, then the wielding machine. */
    method Update(c: Controls, delta: int, now: int)
      modifies this, loco, wield
      ensures View() == PlayerSpec.Update(old(View()), c, delta, now)
    {
      UpdateLocomotion(c, delta, now);
      UpdateWielding(c, delta, now);
    }

    method Die(now: int)
      modifies this, loco, wield, scene
      ensures View() == PlayerSpec.Die(old(View()), now)
    {
      SetAction(Death, now);
      SetWielding(Nothing, now);
      scene.isGameOver := true;
    }

    method Hit(damage: int, now: int)
      modifies this, loco, wield, scene
      ensures View() == PlayerSpec.Hit(old(View()), damage, now)
    {
      if loco.IsCurrentState(Death) {
        return;
      }
      hitpoints := hitpoints - damage;
      if hitpoints < 1 {
        Die(now);
      }
    }

    /** The host's physics step: a disabled body keeps its velocity. */
    method Integrate(newVx: int, newVy: int)
      modifies this
      ensures View() == PlayerSpec.Integrate(old(View()), newVx, newVy)
    {
      if active {
        vx, vy := newVx, newVy;
      }
    }

    /** The listener for the end of the kick animation. */
    method KickAnimationComplete(now: int)
      modifies this, loco
      ensures View() == KickComplete(old(View()), now)
    {
      SetAction(Idle, now);
    }
  }
}
