/**
 * The enemy's bullet: it flies at the velocity and rotation it was given,
 * bounces off platforms while its bounce budget lasts, and ends on the
 * platform contact that finds the budget spent, on its target, or at once
 * when it is spawned inside a tile. The host delivers contacts only while the
 * bullet's body is enabled.
 */
module BulletSpec {
  import EnemySpec

  const DefaultFrame: string := "Bullet_5"
  const DefaultBounces: int := 0
  /** What a bullet takes from whatever it strikes. */
  const TargetDamage: int := 1

  /**
   * A bullet: velocity, rotation and texture frame as constructed, the bounces
   * it has left, whether bounce physics is on, and whether its body is enabled.
   * The budget is an integer, as the constructor argument is.
   */
  datatype BulletView = BulletView(
    vx: int, vy: int, rotation: int, frame: string,
    bouncesRemaining: int, bouncy: bool, active: bool)

  datatype Contact = Platform | Target

  /** A new bullet: disabled at once inside a tile; bounce physics on exactly for a non-zero budget. */
  function Spawn(vx: int, vy: int, rotation: int, inTile: bool, frame: string, bounces: int): BulletView
  {
    BulletView(vx, vy, rotation, frame, bounces, bounces != 0, !inTile)
  }

  /** A platform contact spends one bounce, or ends the bullet once none is left. */
  function PlatformHit(b: BulletView): BulletView
  {
    if b.bouncesRemaining > 0 then b.(bouncesRemaining := b.bouncesRemaining - 1) else b.(active := false)
  }

  /** The target contact ends the bullet whatever budget is left (the target takes TargetDamage). */
  function TargetHit(b: BulletView): BulletView
  {
    b.(active := false)
  }

  function Deliver(b: BulletView, c: Contact): BulletView
  {
    if !b.active then b
    else match c
      case Platform => PlatformHit(b)
      case Target => TargetHit(b)
  }

  function Run(b: BulletView, cs: seq<Contact>): BulletView
    decreases |cs|
  {
    if cs == [] then b else Run(Deliver(b, cs[0]), cs[1..])
  }

  function Platforms(k: nat): (cs: seq<Contact>)
    ensures |cs| == k && forall i :: 0 <= i < k ==> cs[i] == Platform
  {
    if k == 0 then [] else [Platform] + Platforms(k - 1)
  }

  // ---------------------------------------------------------------------------
  // Properties

  /** The budget equals the bounces argument (0 by default); a tile at the spawn point ends the bullet at once. */
  lemma SpawnEffect(vx: int, vy: int, rotation: int, inTile: bool, frame: string, bounces: int)
    ensures var b := Spawn(vx, vy, rotation, inTile, frame, bounces);
      && b.bouncesRemaining == bounces
      && (b.bouncy <==> bounces != 0)
      && (b.active <==> !inTile)
      && (!inTile && bounces == DefaultBounces ==> PlatformHit(b) == b.(active := false))
  {
  }

  /** Velocity, rotation, frame and bounce physics never change after construction. */
  lemma {:induction false} FlightFixed(b: BulletView, cs: seq<Contact>)
    ensures var r := Run(b, cs);
      r.vx == b.vx && r.vy == b.vy && r.rotation == b.rotation && r.frame == b.frame && r.bouncy == b.bouncy
    decreases |cs|
  {
    if cs != [] {
      FlightFixed(Deliver(b, cs[0]), cs[1..]);
    }
  }

  /** Once some contacts have ended the bullet, whatever follows them changes nothing. */
  lemma {:induction false} EndedStaysEnded(b: BulletView, before: seq<Contact>, after: seq<Contact>)
    requires !Run(b, before).active
    ensures Run(b, before + after) == Run(b, before)
    decreases |before| + |after|
  {
    if before != [] {
      assert (before + after)[1..] == before[1..] + after;
      EndedStaysEnded(Deliver(b, before[0]), before[1..], after);
    } else if after != [] {
      assert before + after == after && before + after[1..] == after[1..];
      EndedStaysEnded(b, [], after[1..]);
    }
  }

  /**
   * k platform contacts on a live bullet with budget n: it survives exactly the
   * first n of them (none if n is not positive) and ends on the next; a
   * non-negative budget never goes below zero.
   */
  lemma {:induction false} BounceBudget(b: BulletView, k: nat)
    requires b.active
    ensures var r := Run(b, Platforms(k));
      && (r.active <==> k == 0 || k <= b.bouncesRemaining)
      && r.bouncesRemaining == (if b.bouncesRemaining <= 0 || k <= b.bouncesRemaining then b.bouncesRemaining - (if b.bouncesRemaining > 0 then k else 0) else 0)
      && (b.bouncesRemaining >= 0 ==> r.bouncesRemaining >= 0)
    decreases k
  {
    if k > 0 {
      assert Platforms(k)[1..] == Platforms(k - 1);
      var b1 := PlatformHit(b);
      if b.bouncesRemaining > 0 {
        BounceBudget(b1, k - 1);
      } else {
        EndedStaysEnded(b, [Platform], Platforms(k - 1));
      }
    }
  }

  /** With the enemy's two bounces the third platform contact is the last. */
  lemma TwoBouncesThenGone(vx: int, vy: int, rotation: int, frame: string)
    ensures var b := Spawn(vx, vy, rotation, false, frame, 2);
      && Run(b, Platforms(2)).active
      && !Run(b, Platforms(3)).active
  {
    var b := Spawn(vx, vy, rotation, false, frame, 2);
    BounceBudget(b, 2);
    BounceBudget(b, 3);
  }

  /** A target contact ends a live bullet at once, whatever budget is left. */
  lemma TargetEndsFlight(b: BulletView, cs: seq<Contact>)
    requires b.active
    ensures Run(b, [Target] + cs) == b.(active := false)
  {
    EndedStaysEnded(b, [Target], cs);
  }

  /** k bullets striking an enemy one after the other. */
  function Struck(e: EnemySpec.EnemyView, k: nat, now: int): EnemySpec.EnemyView
    decreases k
  {
    if k == 0 then e else Struck(EnemySpec.Hit(e, TargetDamage, now), k - 1, now)
  }

  /**
   * Each bullet costs a settled enemy one hitpoint: after k bullets it has lost
   * k hitpoints, and it is dead exactly when it was already dead or k reached
   * its hitpoints; a new enemy dies on the third.
   */
  lemma {:induction false} BulletsWearDownEnemy(e: EnemySpec.EnemyView, k: nat, now: int)
    requires EnemySpec.Valid(e) && EnemySpec.Since(e, now)
    ensures var r := Struck(e, k, now);
      && EnemySpec.Valid(r)
      && r.body.hitpoints == e.body.hitpoints - k
      && (EnemySpec.IsDead(r) <==> EnemySpec.IsDead(e) || k >= e.body.hitpoints)
    decreases k
  {
    if k > 0 {
      var e1 := EnemySpec.Hit(e, TargetDamage, now);
      EnemySpec.HitEffect(e, TargetDamage, now);
      BulletsWearDownEnemy(e1, k - 1, now);
      var r := Struck(e1, k - 1, now);
      assert Struck(e, k, now) == r;
      assert EnemySpec.IsDead(r) <==> EnemySpec.IsDead(e) || e.body.hitpoints - 1 < 1 || k - 1 >= e.body.hitpoints - 1;
    }
  }

  lemma ThirdBulletKillsNewEnemy(now: int)
    ensures !EnemySpec.IsDead(Struck(EnemySpec.Initial(now), 2, now))
    ensures EnemySpec.IsDead(Struck(EnemySpec.Initial(now), 3, now))
  {
    EnemySpec.InitialEnemy(now);
    BulletsWearDownEnemy(EnemySpec.Initial(now), 2, now);
    BulletsWearDownEnemy(EnemySpec.Initial(now), 3, now);
  }
}

/** The bullet object; its target is the player or one of the enemies. */
module BulletActor {
  import opened BulletSpec
  import EnemySpec
  import EnemyActor
  import PlayerSpec
  import PlayerActor

  class Bullet {
    const vx: int
    const vy: int
    const rotation: int
    const frame: string
    var bouncesRemaining: int
    var bouncy: bool
    var active: bool

    function View(): BulletView
      reads this
    {
      BulletView(vx, vy, rotation, frame, bouncesRemaining, bouncy, active)
    }

    /** `inTile` is whether the tile map has a tile at the spawn point. */
    constructor (vx: int, vy: int, rotation: int, inTile: bool, frame: string := DefaultFrame, bounces: int := DefaultBounces)
      ensures View() == Spawn(vx, vy, rotation, inTile, frame, bounces)
    {
      this.vx, this.vy, this.rotation, this.frame := vx, vy, rotation, frame;
      bouncesRemaining := bounces;
      active := true;
      bouncy := false;
      new;
      if inTile {
        DestroyBullet();
      }
      if bouncesRemaining != 0 {
        bouncy := true;
      }
    }

    method DestroyBullet()
      modifies this
      ensures View() == old(View()).(active := false)
    {
      active := false;
    }

    method PlatformHit()
      modifies this
      ensures View() == BulletSpec.PlatformHit(old(View()))
    {
      if bouncesRemaining > 0 {
        bouncesRemaining := bouncesRemaining - 1;
      } else {
        DestroyBullet();
      }
    }

    /** The target contact when the target is an enemy. */
    method HitEnemy(target: EnemyActor.Enemy, now: int)
      modifies this, target, target.machine
      ensures View() == TargetHit(old(View()))
      ensures target.View() == EnemySpec.Hit(old(target.View()), TargetDamage, now)
    {
      target.Hit(TargetDamage, now);
      active := false;
    }

    /** The target contact when the target is the player. */
    method HitPlayer(target: PlayerActor.Player, now: int)
      modifies this, target, target.loco, target.wield, target.scene
      ensures View() == TargetHit(old(View()))
      ensures target.View() == PlayerSpec.Hit(old(target.View()), TargetDamage, now)
    {
      target.Hit(TargetDamage, now);
      active := false;
    }
  }
}
