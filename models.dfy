/** The player's state names: the values of the locomotion and wielding enums. */
module PlayerModel {

  datatype PlayerAction = Idle | Run | Jump | Fall | Kick | Death
  {
    function Name(): string
    {
      match this
      case Idle => "idle"
      case Run => "run"
      case Jump => "jump"
      case Fall => "fall"
      case Kick => "kick"
      case Death => "death"
    }
  }

  datatype PlayerWielding = Nothing | Rifle
  {
    function Name(): string
    {
      match this
      case Nothing => "nothing"
      case Rifle => "rifle"
    }
  }

  /** Distinct enum members have distinct names, so a name identifies its state. */
  lemma NamesIdentifyStates(a: PlayerAction, b: PlayerAction, x: PlayerWielding, y: PlayerWielding)
    ensures a.Name() == b.Name() <==> a == b
    ensures x.Name() == y.Name() <==> x == y
    ensures a.Name() != x.Name()
  {
  }
}

/** The enemy's state names: the values of the action enum and of its idle-behaviour subset. */
module EnemyModel {

  datatype EnemyAction = Idle | Walk | Death | Fire
  {
    function Name(): string
    {
      match this
      case Idle => "Idle"
      case Walk => "Walk"
      case Death => "Death"
      case Fire => "Fire"
    }
  }

  /** The two states the roaming randomizer chooses between. */
  datatype EnemyIdleAction = Idle | Walk
  {
    function Name(): string
    {
      match this
      case Idle => "Idle"
      case Walk => "Walk"
    }

    function AsAction(): EnemyAction
    {
      match this
      case Idle => EnemyAction.Idle
      case Walk => EnemyAction.Walk
    }
  }

  /** Each idle-behaviour name is the name of the action state it stands for, and of no other. */
  lemma IdleNamesAreActionNames(i: EnemyIdleAction, a: EnemyAction)
    ensures i.Name() == i.AsAction().Name()
    ensures i.Name() == a.Name() <==> a == i.AsAction()
    ensures a.Name() == EnemyAction.Death.Name() <==> a == EnemyAction.Death
  {
  }
}

/** The scene state the actors touch: the game-over flag the host polls. */
module MainScene {

  class Scene {
    var isGameOver: bool

    constructor ()
      ensures !isGameOver
    {
      isGameOver := false;
    }
  }
}
