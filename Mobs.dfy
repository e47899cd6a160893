/** Creatures with a health pool. `ChangeHealth` adds a signed amount, caps the result at
    the maximum, and reports death when the uncapped result is at or below 0. Health is
    a float in the engine and an exact real here. */
module Mobs {
  import opened Glm
  import ModelLoading

  /** The health after adding `amount`: capped above at `maxHealth`, not below. */
  function HealthAfter(health: real, amount: real, maxHealth: real): real {
    if health + amount > maxHealth then maxHealth else health + amount
  }

  /** Death is reported when the sum was not capped and is at or below 0. */
  predicate DeathReported(health: real, amount: real, maxHealth: real) {
    !(health + amount > maxHealth) && health + amount <= 0.0
  }

  /** The new health is the smaller of the sum and the maximum. */
  lemma HealthIsCappedSum(health: real, amount: real, maxHealth: real)
    ensures HealthAfter(health, amount, maxHealth) <= maxHealth
    ensures HealthAfter(health, amount, maxHealth) <= health + amount
    ensures HealthAfter(health, amount, maxHealth) == maxHealth
         || HealthAfter(health, amount, maxHealth) == health + amount
  {
  }

  /** There is no lower cap: damage can drive health below 0. */
  lemma HealthCanGoNegative()
    ensures HealthAfter(10.0, -25.0, 100.0) == -15.0
  {
  }

  /** Death is reported exactly when the new health is at or below 0 and was not capped. */
  lemma DeathReportedExactly(health: real, amount: real, maxHealth: real)
    ensures DeathReported(health, amount, maxHealth)
        <==> HealthAfter(health, amount, maxHealth) <= 0.0 && health + amount <= maxHealth
  {
  }

  class Mob {
    var position: Vec3
    var maxHealth: real
    var health: real
    var passive: bool
    var yaw: real
    var model: ModelLoading.Model?

    /** `Mob::Mob`: the shared model and the position are stored and the yaw starts at 0.
        The engine leaves the health fields and `passive` uninitialised; here they take
        Dafny's default values. */
    constructor(model: ModelLoading.Model?, position: Vec3)
      ensures this.model == model && this.position == position && yaw == 0.0
    {
      this.model := model;
      this.position := position;
      yaw := 0.0;
    }

    /** `Mob::ChangeHealth`; the result says whether "dead" is reported. */
    method ChangeHealth(amount: real) returns (died: bool)
      modifies this`health
      ensures health == HealthAfter(old(health), amount, maxHealth)
      ensures died <==> DeathReported(old(health), amount, maxHealth)
    {
      died := false;
      health := health + amount;
      if health > maxHealth {
        health := maxHealth;
      } else if health <= 0.0 {
        died := true;
      }
    }
  }
}
