/**
 * The generic state machine that every actor of the game runs.
 *
 * A machine holds named states, each with optional enter, update and exit
 * handlers, a nullable current state, a throttle window, a re-entrancy guard,
 * a FIFO queue of deferred requests and the time of the last transition.
 *
 * Handlers are identifiers of type H: the machine never runs them itself, it
 * hands them to its owner, which dispatches them. A transition is therefore
 * split into three steps (begin, enter, end); the owner runs the exit handler
 * after the first and the enter handler after the second. A handler that asks
 * for a transition while these steps are in progress meets the guard and is
 * queued, exactly as a re-entrant call is.
 *
 * State names are values of type K. The game keys states by strings, and
 * every name an actor uses is a member of one of its string enums; each actor
 * instantiates K with that enum, whose members have pairwise distinct strings.
 *
 * The clock is the explicit parameter `now`; the stateChanged emitter is the
 * event trace, which also records every handler handed out, in order.
 */
module StateMachines {

  datatype Option<T> = None | Some(value: T)

  /** One registered state: its name and its optional handlers. */
  datatype State<K, H> = State(name: K, onEnter: Option<H>, onUpdate: Option<H>, onExit: Option<H>)

  /** What the machine reports, in the order it happens. */
  datatype Event<K, H> =
    | Changed(name: K)             // the stateChanged notification
    | Exited(exitHook: H)          // the old state's exit handler is run
    | Entered(enterHook: H)        // the new state's enter handler is run
    | Updated(updateHook: H, delta: int)

  /** How a transition request is disposed of. */
  datatype Verdict = Unknown | AlreadyCurrent | Throttled | Deferred | Proceeds

  /** What `update` did before handing control back to the owner. */
  datatype Tick<K, H> =
    | Dequeued(name: K, verdict: Verdict, exitHook: Option<H>)
    | Ran(hook: H)
    | Skipped

  /** The value of a machine. */
  datatype Machine<K(==), H> = Machine(
    states: map<K, State<K, H>>,
    current: Option<State<K, H>>,
    throttleTime: int,
    changing: bool,
    queue: seq<K>,
    lastChange: Option<int>,
    trace: seq<Event<K, H>>)

  /** A new machine: no states, no current state, nothing queued, never changed. */
  function Fresh<K(==), H>(throttleTime: int): Machine<K, H>
  {
    Machine(map[], None, throttleTime, false, [], None, [])
  }

  /** Every state is registered under its own name and the current state's name is registered. */
  ghost predicate WellFormed<K, H>(m: Machine<K, H>)
  {
    && (forall n :: n in m.states ==> m.states[n].name == n)
    && (m.current.Some? ==> m.current.value.name in m.states)
  }

  function CurrentName<K(==), H>(m: Machine<K, H>): Option<K>
  {
    if m.current.Some? then Some(m.current.value.name) else None
  }

  predicate IsCurrent<K(==), H>(m: Machine<K, H>, name: K)
  {
    m.current.Some? && m.current.value.name == name
  }

  /**
   * The last transition happened less than throttleTime ago. Before the first
   * transition the elapsed time is undefined and the comparison fails.
   */
  predicate InThrottleWindow<K(==), H>(m: Machine<K, H>, now: int)
  {
    m.lastChange.Some? && now - m.lastChange.value < m.throttleTime
  }

  /** The order of the checks in setState: registration, same name or throttle, then the guard. */
  function Judge<K(==), H>(m: Machine<K, H>, name: K, now: int): Verdict
  {
    if name !in m.states then Unknown
    else if IsCurrent(m, name) then AlreadyCurrent
    else if InThrottleWindow(m, now) then Throttled
    else if m.changing then Deferred
    else Proceeds
  }

  function Register<K(==), H>(m: Machine<K, H>, s: State<K, H>): Machine<K, H>
  {
    m.(states := m.states[s.name := s])
  }

  function ExitHook<K(==), H>(m: Machine<K, H>): Option<H>
  {
    if m.current.Some? then m.current.value.onExit else None
  }

  function ExitEvents<K(==), H>(h: Option<H>): seq<Event<K, H>>
  {
    if h.Some? then [Exited(h.value)] else []
  }

  function EnterEvents<K(==), H>(h: Option<H>): seq<Event<K, H>>
  {
    if h.Some? then [Entered(h.value)] else []
  }

  /** setState up to the point where the old state's exit handler runs. */
  function Begin<K(==), H>(m: Machine<K, H>, name: K, now: int): Machine<K, H>
  {
    match Judge(m, name, now)
    case Deferred => m.(queue := m.queue + [name])
    case Proceeds => m.(changing := true, trace := m.trace + [Changed(name)] + ExitEvents(ExitHook(m)))
    case _ => m
  }

  /** The switch to the new state, up to the point where its enter handler runs. */
  function Switch<K(==), H>(m: Machine<K, H>, name: K): Machine<K, H>
    requires name in m.states
  {
    m.(current := Some(m.states[name]), trace := m.trace + EnterEvents(m.states[name].onEnter))
  }

  /** The end of a transition: the time is recorded and the guard is released. */
  function Finish<K(==), H>(m: Machine<K, H>, now: int): Machine<K, H>
  {
    m.(lastChange := Some(now), changing := false)
  }

  /** The whole of setState, when the handlers it hands out leave the machine alone. */
  function SetState<K, H>(m: Machine<K, H>, name: K, now: int): Machine<K, H>
  {
    if Judge(m, name, now) == Proceeds then Finish(Switch(Begin(m, name, now), name), now)
    else Begin(m, name, now)
  }

  function TickOf<K(==), H>(m: Machine<K, H>, delta: int, now: int): Tick<K, H>
  {
    if |m.queue| > 0 then
      var rest := m.(queue := m.queue[1..]);
      Dequeued(m.queue[0], Judge(rest, m.queue[0], now), ExitHook(rest))
    else if m.current.Some? && m.current.value.onUpdate.Some? then Ran(m.current.value.onUpdate.value)
    else Skipped
  }

  /** update up to the point where it hands a handler to the owner. */
  function StartUpdate<K(==), H>(m: Machine<K, H>, delta: int, now: int): Machine<K, H>
  {
    if |m.queue| > 0 then Begin(m.(queue := m.queue[1..]), m.queue[0], now)
    else if m.current.Some? && m.current.value.onUpdate.Some? then
      m.(trace := m.trace + [Updated(m.current.value.onUpdate.value, delta)])
    else m
  }

  /** The whole of update, when the handlers it hands out leave the machine alone. */
  function Update<K(==), H>(m: Machine<K, H>, delta: int, now: int): Machine<K, H>
  {
    if |m.queue| > 0 then SetState(m.(queue := m.queue[1..]), m.queue[0], now)
    else StartUpdate(m, delta, now)
  }

  /** n calls of update at time now, with handlers that leave the machine alone. */
  function UpdateTimes<K(==), H>(m: Machine<K, H>, n: nat, now: int): Machine<K, H>
    decreases n
  {
    if n == 0 then m else UpdateTimes(Update(m, 0, now), n - 1, now)
  }

  /** Requests made one after the other at time now, with handlers that leave the machine alone. */
  function Requests<K(==), H>(m: Machine<K, H>, names: seq<K>, now: int): Machine<K, H>
    decreases |names|
  {
    if names == [] then m else Requests(SetState(m, names[0], now), names[1..], now)
  }

  /**
   * A machine between two operations of its owner: registered with exactly
   * the given table, not mid-transition, nothing queued, a registered state
   * current.
   */
  ghost predicate Settled<K, H>(m: Machine<K, H>, table: map<K, State<K, H>>, throttle: int)
  {
    && m.states == table && m.throttleTime == throttle
    && !m.changing && m.queue == []
    && m.current.Some? && m.current.value.name in table && table[m.current.value.name] == m.current.value
  }

  // ---------------------------------------------------------------------------
  // Properties of the specification

  lemma AddStateRegisters<K, H>(m: Machine<K, H>, s: State<K, H>)
    requires WellFormed(m)
    ensures var r := Register(m, s);
      && r.states.Keys == m.states.Keys + {s.name}
      && r.states[s.name] == s
      && (forall n :: n in m.states && n != s.name ==> r.states[n] == m.states[n])
      && r.(states := m.states) == m
      && WellFormed(r)
  {
  }

  lemma FreshHasNoCurrentName<K, H>(throttleTime: int, defs: seq<State<K, H>>)
    ensures CurrentName(RegisterAll(Fresh<K, H>(throttleTime), defs)) == None
    ensures WellFormed(RegisterAll(Fresh<K, H>(throttleTime), defs))
  {
    RegisterAllKeepsCurrent(Fresh<K, H>(throttleTime), defs);
  }

  function RegisterAll<K(==), H>(m: Machine<K, H>, defs: seq<State<K, H>>): Machine<K, H>
    decreases |defs|
  {
    if defs == [] then m else RegisterAll(Register(m, defs[0]), defs[1..])
  }

  lemma {:induction false} RegisterAllKeepsCurrent<K, H>(m: Machine<K, H>, defs: seq<State<K, H>>)
    requires WellFormed(m)
    ensures RegisterAll(m, defs).current == m.current
    ensures RegisterAll(m, defs).(states := m.states) == m
    ensures WellFormed(RegisterAll(m, defs))
    decreases |defs|
  {
    if defs != [] {
      AddStateRegisters(m, defs[0]);
      RegisterAllKeepsCurrent(Register(m, defs[0]), defs[1..]);
    }
  }

  lemma UnknownNameChangesNothing<K, H>(m: Machine<K, H>, name: K, now: int)
    requires name !in m.states
    ensures SetState(m, name, now) == m
    ensures Begin(m, name, now) == m
  {
  }

  lemma SameNameOrThrottleChangesNothing<K, H>(m: Machine<K, H>, name: K, now: int)
    requires name in m.states
    requires IsCurrent(m, name) || InThrottleWindow(m, now)
    ensures SetState(m, name, now) == m
  {
  }

  lemma FirstTransitionAlwaysPasses<K, H>(m: Machine<K, H>, name: K, now: int)
    requires WellFormed(m)
    requires m.lastChange.None? && !m.changing
    requires name in m.states && !IsCurrent(m, name)
    ensures Judge(m, name, now) == Proceeds
    ensures CurrentName(SetState(m, name, now)) == Some(name)
  {
  }

  /** With no throttle and a clock that does not run backwards, only the same-name rule applies. */
  lemma ZeroThrottleNeverThrottles<K, H>(m: Machine<K, H>, now: int)
    requires m.throttleTime == 0
    requires m.lastChange.Some? ==> m.lastChange.value <= now
    ensures !InThrottleWindow(m, now)
  {
  }

  lemma RequestDuringTransitionIsQueued<K, H>(m: Machine<K, H>, name: K, now: int)
    requires m.changing
    requires name in m.states && !IsCurrent(m, name) && !InThrottleWindow(m, now)
    ensures Begin(m, name, now) == m.(queue := m.queue + [name])
  {
  }

  /** A transition emits stateChanged, then hands out the exit handler, switches, then the enter handler. */
  lemma TransitionOrder<K, H>(m: Machine<K, H>, name: K, now: int)
    requires Judge(m, name, now) == Proceeds
    ensures var r := SetState(m, name, now);
      && r.trace == m.trace + [Changed(name)] + ExitEvents(ExitHook(m)) + EnterEvents(m.states[name].onEnter)
      && r.current == Some(m.states[name])
      && r.lastChange == Some(now)
      && !r.changing
      && r.queue == m.queue
      && r.states == m.states
  {
  }

  /** Requests issued while the guard is held are queued in order, each after its own checks. */
  function Admitted<K(==), H>(m: Machine<K, H>, names: seq<K>, now: int): seq<K>
    decreases |names|
  {
    if names == [] then []
    else if Judge(m, names[0], now) == Deferred then [names[0]] + Admitted(m, names[1..], now)
    else Admitted(m, names[1..], now)
  }

  lemma {:induction false} GuardedRequestsQueue<K, H>(m: Machine<K, H>, names: seq<K>, now: int)
    requires m.changing
    ensures Requests(m, names, now) == m.(queue := m.queue + Admitted(m, names, now))
    decreases |names|
  {
    if names != [] {
      var m1 := SetState(m, names[0], now);
      assert m1 == m.(queue := m.queue + Admitted(m, names[..1], now));
      GuardedRequestsQueue(m1, names[1..], now);
      assert Admitted(m1, names[1..], now) == Admitted(m, names[1..], now) by {
        AdmittedIgnoresQueue(m, m1, names[1..], now);
      }
      assert m.queue + Admitted(m, names, now) == m.queue + Admitted(m, names[..1], now) + Admitted(m, names[1..], now);
    }
  }

  lemma {:induction false} AdmittedIgnoresQueue<K, H>(m: Machine<K, H>, m': Machine<K, H>, names: seq<K>, now: int)
    requires m' == m.(queue := m'.queue)
    ensures Admitted(m', names, now) == Admitted(m, names, now)
    decreases |names|
  {
    if names != [] {
      AdmittedIgnoresQueue(m, m', names[1..], now);
    }
  }

  /**
   * While something is queued, update drains exactly one request and runs no
   * update handler. The dequeued name is judged again: it is dropped when it
   * is unknown, already current or inside the throttle window; otherwise the
   * machine switches to its registered state and stamps the time.
   */
  lemma UpdateDrainsOne<K, H>(m: Machine<K, H>, delta: int, now: int)
    requires |m.queue| > 0 && !m.changing
    ensures Update(m, delta, now).queue == m.queue[1..]
    ensures !Update(m, delta, now).changing
    ensures forall e :: e in Update(m, delta, now).trace[|m.trace|..] ==> !e.Updated?
    ensures m.queue[0] !in m.states || IsCurrent(m, m.queue[0]) || InThrottleWindow(m, now) ==>
      Update(m, delta, now) == m.(queue := m.queue[1..])
    ensures m.queue[0] in m.states && !IsCurrent(m, m.queue[0]) && !InThrottleWindow(m, now) ==>
      Update(m, delta, now).current == Some(m.states[m.queue[0]]) && Update(m, delta, now).lastChange == Some(now)
  {
  }

  /** With nothing queued, update hands out the current state's update handler, if there is one. */
  lemma UpdateRunsHandler<K, H>(m: Machine<K, H>, delta: int, now: int)
    requires |m.queue| == 0
    ensures m.current.Some? && m.current.value.onUpdate.Some? ==>
      Update(m, delta, now) == m.(trace := m.trace + [Updated(m.current.value.onUpdate.value, delta)])
    ensures !(m.current.Some? && m.current.value.onUpdate.Some?) ==> Update(m, delta, now) == m
  {
  }

  /** Queued requests are drained one per update, front first. */
  lemma {:induction false} DrainOnePerTick<K, H>(m: Machine<K, H>, n: nat, now: int)
    requires !m.changing
    requires n <= |m.queue|
    ensures UpdateTimes(m, n, now).queue == m.queue[n..]
    ensures !UpdateTimes(m, n, now).changing
    decreases n
  {
    if n > 0 {
      UpdateDrainsOne(m, 0, now);
      DrainOnePerTick(Update(m, 0, now), n - 1, now);
      assert m.queue[1..][n - 1..] == m.queue[n..];
    }
  }

  /** A request made from an enter handler is not applied at once but on the next update. */
  lemma RequestFromEnterAppliesOnNextUpdate<K, H>(m: Machine<K, H>, a: K, b: K, t0: int, t1: int)
    requires WellFormed(m)
    requires !m.changing && |m.queue| == 0
    requires Judge(m, a, t0) == Proceeds
    requires b in m.states && a != b
    requires t1 - t0 >= m.throttleTime
    ensures var entering := Switch(Begin(m, a, t0), a);
      var afterEnter := Begin(entering, b, t0);
      var done := Finish(afterEnter, t0);
      && CurrentName(done) == Some(a)
      && done.queue == [b]
      && CurrentName(Update(done, 0, t1)) == Some(b)
  {
  }

  /** Two requests closer together than the throttle window: only the first takes effect. */
  lemma ThrottleKeepsFirst<K, H>(m: Machine<K, H>, a: K, b: K, t1: int, t2: int)
    requires WellFormed(m)
    requires Judge(m, a, t1) == Proceeds
    requires b in m.states && a != b
    requires 0 <= t2 - t1 < m.throttleTime
    ensures CurrentName(SetState(SetState(m, a, t1), b, t2)) == Some(a)
  {
  }

  /** Every operation of the machine keeps it well formed. */
  lemma OperationsKeepWellFormed<K, H>(m: Machine<K, H>, name: K, s: State<K, H>, delta: int, now: int)
    requires WellFormed(m)
    ensures WellFormed(Register(m, s))
    ensures WellFormed(Begin(m, name, now))
    ensures name in m.states ==> WellFormed(Switch(m, name))
    ensures WellFormed(Finish(m, now))
    ensures WellFormed(SetState(m, name, now))
    ensures WellFormed(StartUpdate(m, delta, now))
  {
  }

  // ---------------------------------------------------------------------------
  // The machine as a mutable object

  class StateMachine<K(==), H> {
    var states: map<K, State<K, H>>
    var current: Option<State<K, H>>
    const throttleTime: int
    var changing: bool
    var queue: seq<K>
    var lastChange: Option<int>
    var trace: seq<Event<K, H>>

    function View(): Machine<K, H>
      reads this
    {
      Machine(states, current, throttleTime, changing, queue, lastChange, trace)
    }

    constructor (throttleTime: int := 0)
      ensures View() == Fresh(throttleTime)
    {
      this.throttleTime := throttleTime;
      states, current, changing, queue, lastChange, trace := map[], None, false, [], None, [];
    }

    /** Registers (or overwrites) a state under its name; returns the machine itself for chaining. */
    method AddState(s: State<K, H>) returns (self: StateMachine<K, H>)
      modifies this
      ensures self == this
      ensures View() == Register(old(View()), s)
    {
      states := states[s.name := s];
      self := this;
    }

    function CurrentStateName(): (r: Option<K>)
      reads this
      ensures r == CurrentName(View())
    {
      if current.Some? then Some(current.value.name) else None
    }

    function IsCurrentState(name: K): (r: bool)
      reads this
      ensures r == IsCurrent(View(), name)
    {
      current.Some? && current.value.name == name
    }

    /**
     * setState, first step: the checks, then either nothing, a queued request,
     * or the start of a transition (guard taken, stateChanged emitted) with the
     * old state's exit handler handed to the caller.
     */
    method BeginSetState(name: K, now: int) returns (verdict: Verdict, exitHook: Option<H>)
      modifies this
      ensures verdict == Judge(old(View()), name, now)
      ensures exitHook == ExitHook(old(View()))
      ensures View() == Begin(old(View()), name, now)
    {
      exitHook := if current.Some? then current.value.onExit else None;
      if name !in states {
        verdict := Unknown;
      } else if IsCurrentState(name) {
        verdict := AlreadyCurrent;
      } else if lastChange.Some? && now - lastChange.value < throttleTime {
        verdict := Throttled;
      } else if changing {
        verdict := Deferred;
        queue := queue + [name];
      } else {
        verdict := Proceeds;
        changing := true;
        trace := trace + [Changed(name)] + ExitEvents(exitHook);
      }
    }

    /** setState, second step: the switch; the new state's enter handler is handed to the caller. */
    method EnterState(name: K) returns (enterHook: Option<H>)
      requires name in states
      modifies this
      ensures enterHook == old(states)[name].onEnter
      ensures View() == Switch(old(View()), name)
    {
      current := Some(states[name]);
      enterHook := states[name].onEnter;
      trace := trace + EnterEvents(enterHook);
    }

    /** setState, last step: the timestamp and the release of the guard. */
    method EndSetState(now: int)
      modifies this
      ensures View() == Finish(old(View()), now)
    {
      lastChange := Some(now);
      changing := false;
    }

    /**
     * update: with something queued, the first request is removed and passed
     * through the first step of setState again; otherwise the current state's
     * update handler is handed to the caller.
     */
    method Update(delta: int, now: int) returns (tick: Tick<K, H>)
      modifies this
      ensures tick == TickOf(old(View()), delta, now)
      ensures View() == StartUpdate(old(View()), delta, now)
    {
      if |queue| > 0 {
        var name := queue[0];
        queue := queue[1..];
        var verdict, exitHook := BeginSetState(name, now);
        tick := Dequeued(name, verdict, exitHook);
      } else if current.Some? && current.value.onUpdate.Some? {
        tick := Ran(current.value.onUpdate.value);
        trace := trace + [Updated(current.value.onUpdate.value, delta)];
      } else {
        tick := Skipped;
      }
    }
  }
}
