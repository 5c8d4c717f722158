/**
 * The health arithmetic of `Creature` in src/game.ts: every change of health
 * goes through `setHealth`, which clamps into [0, maxHealth].
 */
module Resources {

  /** The fields of a Creature: its health and its maximum. */
  datatype Vitals = Vitals(health: int, maxHealth: int)

  /** `Math.max(0, Math.min(health, maxHealth))`. */
  function Clamp(health: int, maxHealth: int): (r: int)
    ensures maxHealth >= 0 ==> 0 <= r <= maxHealth
    ensures 0 <= health <= maxHealth ==> r == health
    ensures maxHealth >= 0 && health >= maxHealth ==> r == maxHealth
    ensures health <= 0 ==> r == 0
  {
    if health < maxHealth then (if health < 0 then 0 else health)
    else (if maxHealth < 0 then 0 else maxHealth)
  }

  /** `setHealth`: the maximum is kept, the new health is the clamped value. */
  function SetHealth(v: Vitals, health: int): (r: Vitals)
    ensures r.maxHealth == v.maxHealth
    ensures v.maxHealth >= 0 ==> 0 <= r.health <= v.maxHealth
    ensures 0 <= health <= v.maxHealth ==> r.health == health
  {
    Vitals(Clamp(health, v.maxHealth), v.maxHealth)
  }

  /** `modifyHealth`: only goes through `setHealth`. */
  function ModifyHealth(v: Vitals, amount: int): Vitals
  {
    SetHealth(v, v.health + amount)
  }

  /** `damage`: only goes through `modifyHealth` with the negated amount. */
  function Damage(v: Vitals, amount: int): Vitals
  {
    ModifyHealth(v, -amount)
  }

  /** The creature invariant: health lies within [0, maxHealth]. */
  ghost predicate InRange(v: Vitals)
  {
    0 <= v.health <= v.maxHealth
  }

  /** One call on a creature's health. */
  datatype HealthCall = ModifyBy(delta: int) | DamageBy(amount: int) | SetTo(value: int)

  function Apply(v: Vitals, call: HealthCall): Vitals
  {
    match call
    case ModifyBy(d) => ModifyHealth(v, d)
    case DamageBy(n) => Damage(v, n)
    case SetTo(h) => SetHealth(v, h)
  }

  /** The creature after a sequence of health calls, in order. */
  function ApplyAll(v: Vitals, calls: seq<HealthCall>): Vitals
    decreases |calls|
  {
    if calls == [] then v else ApplyAll(Apply(v, calls[0]), calls[1..])
  }

  /**
   * Whatever the sign or size of the amounts, any sequence of health calls on
   * a creature that starts in range leaves it in range, with its maximum kept.
   */
  lemma {:induction false} CallsKeepHealthInRange(v: Vitals, calls: seq<HealthCall>)
    requires InRange(v)
    ensures InRange(ApplyAll(v, calls))
    ensures ApplyAll(v, calls).maxHealth == v.maxHealth
    decreases |calls|
  {
    if calls != [] {
      CallsKeepHealthInRange(Apply(v, calls[0]), calls[1..]);
    }
  }

  /** Damage of n and healing of -n are the same call, and damage never raises health when n >= 0. */
  lemma DamageLowersHealth(v: Vitals, n: int)
    requires InRange(v) && n >= 0
    ensures Damage(v, n).health == (if v.health - n < 0 then 0 else v.health - n)
    ensures Damage(v, n) == ModifyHealth(v, -n)
  {
  }
}
