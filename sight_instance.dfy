/**
 * The lifecycle of a sight probe: an invisible projectile an enemy fires
 * towards the player. It flies at a fixed velocity with gravity cancelled,
 * and ends in one of three ways: it reaches the player (the owner is told,
 * then the probe is destroyed), it touches a platform, or its 360 ms range
 * runs out. The host delivers these callbacks only while the probe exists.
 */
module Probes {

  /** The three callbacks a probe registers. */
  datatype Contact = PlayerOverlap | PlatformContact | Expired

  /** Milliseconds after which a probe destroys itself: the range of the sight. */
  const SightRange: int := 360

  /** A probe: its velocity, whether it still exists, and how often it has told its owner. */
  datatype Probe = Probe(vx: int, vy: int, active: bool, notified: nat)

  function Spawn(vx: int, vy: int): Probe
  {
    Probe(vx, vy, true, 0)
  }

  /** One callback: only the player overlap tells the owner; each ends by destroying the probe. */
  function React(p: Probe, c: Contact): Probe
  {
    match c
    case PlayerOverlap => p.(notified := p.notified + 1, active := false)
    case PlatformContact => p.(active := false)
    case Expired => p.(active := false)
  }

  /** The host calls a probe back only while it exists. */
  function Deliver(p: Probe, c: Contact): Probe
  {
    if p.active then React(p, c) else p
  }

  function Run(p: Probe, cs: seq<Contact>): Probe
    decreases |cs|
  {
    if cs == [] then p else Run(Deliver(p, cs[0]), cs[1..])
  }

  /** Each callback destroys the probe, tells the owner only on a player overlap, and never changes the velocity. */
  lemma ReactEffect(p: Probe, c: Contact)
    ensures var r := React(p, c);
      && !r.active && r.vx == p.vx && r.vy == p.vy
      && r.notified == p.notified + (if c == PlayerOverlap then 1 else 0)
  {
  }

  /** A destroyed probe ignores whatever follows. */
  lemma {:induction false} DestroyedStaysDestroyed(p: Probe, cs: seq<Contact>)
    requires !p.active
    ensures Run(p, cs) == p
    decreases |cs|
  {
    if cs != [] {
      DestroyedStaysDestroyed(p, cs[1..]);
    }
  }

  /**
   * Whatever callbacks arrive, only the first one counts: a new probe tells
   * its owner at most once, exactly when the first callback is the player
   * overlap, and keeps its velocity throughout.
   */
  lemma FirstContactDecides(vx: int, vy: int, cs: seq<Contact>)
    ensures var r := Run(Spawn(vx, vy), cs);
      && r.vx == vx && r.vy == vy
      && r.active == (cs == [])
      && r.notified == (if cs != [] && cs[0] == PlayerOverlap then 1 else 0)
      && r.notified <= 1
  {
    if cs != [] {
      ReactEffect(Spawn(vx, vy), cs[0]);
      DestroyedStaysDestroyed(React(Spawn(vx, vy), cs[0]), cs[1..]);
    }
  }
}

/** The probe object of the enemy: it holds its owner and relays a sighting to it. */
module SightInstances {
  import opened Probes
  import EnemySpec
  import EnemyActor

  class SightInstance {
    const owner: EnemyActor.Enemy
    const vx: int
    const vy: int
    var active: bool
    var notified: nat

    function View(): Probe
      reads this
    {
      Probe(vx, vy, active, notified)
    }

    constructor (vx: int, vy: int, owner: EnemyActor.Enemy)
      ensures this.owner == owner
      ensures View() == Spawn(vx, vy)
    {
      this.owner := owner;
      this.vx, this.vy := vx, vy;
      active, notified := true, 0;
    }

    /** The player overlap: the owner is told of the sighting, then the probe is destroyed. */
    method PlayerDetected(now: int)
      modifies this, owner, owner.machine
      ensures View() == React(old(View()), PlayerOverlap)
      ensures owner.View() == EnemySpec.PlayerDetected(old(owner.View()), now)
    {
      owner.PlayerDetected(now);
      notified := notified + 1;
      active := false;
    }

    /** A platform contact destroys the probe without telling anyone. */
    method PlatformHit()
      modifies this
      ensures View() == React(old(View()), PlatformContact)
    {
      active := false;
    }

    /** The range timer, SightRange ms after construction. */
    method Expire()
      modifies this
      ensures View() == React(old(View()), Expired)
    {
      active := false;
    }
  }
}
