/**
 * HealthComponent of engine/components.py (engine/components/health_component.py
 * holds the same class): hit points floored at 0 by damage and capped at the
 * maximum by healing, a countdown of invulnerability, and three optional
 * callbacks.
 *
 * A callback is modelled by whether it is set; the calls the component makes
 * are recorded, in order, as Signals.
 */
module HealthComponents {

  /** A call to one of the callbacks, with the arguments it receives. */
  datatype Signal = DamageTaken(amount: real) | HealthChanged(current: real, maximum: real) | Death

  /** The health take_damage leaves: max(0, current - amount). */
  function Damaged(current: real, amount: real): (r: real)
    ensures 0.0 <= r
    ensures r == 0.0 <==> current - amount <= 0.0
    ensures 0.0 < r ==> r == current - amount
    ensures 0.0 <= amount && 0.0 <= current ==> r <= current
  {
    if current - amount < 0.0 then 0.0 else current - amount
  }

  /** The health heal leaves: min(maximum, current + amount). */
  function Healed(current: real, amount: real, maximum: real): (r: real)
    ensures r <= maximum
    ensures r == maximum <==> maximum <= current + amount
    ensures r < maximum ==> r == current + amount
    ensures 0.0 <= amount && current <= maximum ==> current <= r
  {
    if maximum < current + amount then maximum else current + amount
  }

  /** Health in [0, maximum] stays there under damage and healing by non-negative amounts. */
  lemma InRangeKept(current: real, amount: real, maximum: real)
    requires 0.0 <= current <= maximum && 0.0 <= amount
    ensures 0.0 <= Damaged(current, amount) <= maximum
    ensures 0.0 <= Healed(current, amount, maximum) <= maximum
  {
  }

  /** Damage that does not reach 0 is fully undone by healing the same amount. */
  lemma HealUndoesDamage(current: real, amount: real, maximum: real)
    requires current <= maximum && 0.0 <= amount < current
    ensures Healed(Damaged(current, amount), amount, maximum) == current
  {
  }

  /** The calls take_damage makes once the new health is known: damage, change, then death at 0. */
  function DamageSignals(amount: real, health: real, maximum: real, onDamageTaken: bool, onHealthChanged: bool, onDeath: bool)
    : seq<Signal>
  {
    (if onDamageTaken then [DamageTaken(amount)] else [])
    + (if onHealthChanged then [HealthChanged(health, maximum)] else [])
    + (if health <= 0.0 && onDeath then [Death] else [])
  }

  /** Each callback that is set runs once; on_death runs exactly when the health is down to 0. */
  lemma DamageSignalsRun(amount: real, health: real, maximum: real, onDamageTaken: bool, onHealthChanged: bool, onDeath: bool)
    ensures var r := DamageSignals(amount, health, maximum, onDamageTaken, onHealthChanged, onDeath);
      (Death in r <==> onDeath && health <= 0.0)
      && (DamageTaken(amount) in r <==> onDamageTaken)
      && (HealthChanged(health, maximum) in r <==> onHealthChanged)
      && |r| <= 3
  {
  }

  /** health_percentage: the share of the maximum, or 0 for a maximum that is not positive. */
  function Percentage(current: real, maximum: real): (r: real)
    ensures maximum <= 0.0 ==> r == 0.0
    ensures 0.0 < maximum ==> r * maximum == current
    ensures 0.0 < maximum && 0.0 <= current <= maximum ==> 0.0 <= r <= 1.0
  {
    if 0.0 < maximum then
      var q := current / maximum;
      assert q * maximum == current;
      assert (1.0 - q) * maximum == maximum - current;
      q
    else 0.0
  }

  /** One update of the invulnerability countdown: (still invulnerable, time left). */
  function Countdown(invulnerable: bool, time: real, dt: real): (r: (bool, real))
    ensures !invulnerable ==> r == (false, time)
    ensures invulnerable ==> r.1 == time - dt && (r.0 <==> 0.0 < time - dt)
  {
    if invulnerable then
      (0.0 < time - dt, time - dt)
    else (false, time)
  }

  /** The countdown over a run of updates. */
  function Countdowns(invulnerable: bool, time: real, dts: seq<real>): (bool, real)
    decreases |dts|
  {
    if dts == [] then (invulnerable, time)
    else
      var c := Countdown(invulnerable, time, dts[0]);
      Countdowns(c.0, c.1, dts[1..])
  }

  /** Once the invulnerability has expired, no further update restores it. */
  lemma {:induction false} ExpiredStaysOff(time: real, dts: seq<real>)
    ensures !Countdowns(false, time, dts).0
    decreases |dts|
  {
    if dts != [] {
      assert Countdowns(false, time, dts) == Countdowns(false, time, dts[1..]);
      ExpiredStaysOff(time, dts[1..]);
    }
  }

  /**
   * Invulnerability that lasts `time` ends within |dts| updates when every
   * step is at least d > 0 and the steps together cover the time.
   */
  lemma {:induction false} InvulnerabilityExpires(time: real, dts: seq<real>, d: real)
    requires 0.0 < d && 0 < |dts| && time <= |dts| as real * d
    requires forall i :: 0 <= i < |dts| ==> d <= dts[i]
    ensures !Countdowns(true, time, dts).0
    decreases |dts|
  {
    var c := Countdown(true, time, dts[0]);
    assert Countdowns(true, time, dts) == Countdowns(c.0, c.1, dts[1..]);
    if !c.0 {
      ExpiredStaysOff(c.1, dts[1..]);
    } else {
      assert d <= dts[0];
      assert 0 < |dts[1..]|;
      forall i | 0 <= i < |dts[1..]|
        ensures d <= dts[1..][i]
      {
        assert dts[1..][i] == dts[i + 1];
      }
      InvulnerabilityExpires(c.1, dts[1..], d);
    }
  }

  class HealthComponent {
    var maxHealth: real
    var currentHealth: real
    var invulnerable: bool
    var invulnerabilityTime: real
    var onDamageTaken: bool
    var onHealthChanged: bool
    var onDeath: bool
    var signals: seq<Signal>

    /** HealthComponent(max_health): full health, vulnerable, no callbacks. */
    constructor (maxHealth: real)
      ensures this.maxHealth == maxHealth && currentHealth == maxHealth
      ensures !invulnerable && invulnerabilityTime == 0.0
      ensures !onDamageTaken && !onHealthChanged && !onDeath && signals == []
    {
      this.maxHealth := maxHealth;
      currentHealth := maxHealth;
      invulnerable, invulnerabilityTime := false, 0.0;
      onDamageTaken, onHealthChanged, onDeath := false, false, false;
      signals := [];
    }

    /** take_damage: nothing while invulnerable; otherwise the health drops, floored at 0, and the callbacks run. */
    method TakeDamage(amount: real)
      modifies this
      ensures old(invulnerable) ==> unchanged(this)
      ensures !old(invulnerable) ==> currentHealth == Damaged(old(currentHealth), amount)
      ensures !old(invulnerable) ==>
        signals == old(signals) + DamageSignals(amount, currentHealth, maxHealth, onDamageTaken, onHealthChanged, onDeath)
      ensures !old(invulnerable) ==> (IsAlive() <==> amount < old(currentHealth))
      ensures maxHealth == old(maxHealth) && invulnerable == old(invulnerable) && invulnerabilityTime == old(invulnerabilityTime)
      ensures onDamageTaken == old(onDamageTaken) && onHealthChanged == old(onHealthChanged) && onDeath == old(onDeath)
    {
      if invulnerable {
        return;
      }
      currentHealth := currentHealth - amount;
      currentHealth := if currentHealth < 0.0 then 0.0 else currentHealth;
      if onDamageTaken {
        signals := signals + [DamageTaken(amount)];
      }
      if onHealthChanged {
        signals := signals + [HealthChanged(currentHealth, maxHealth)];
      }
      if currentHealth <= 0.0 && onDeath {
        signals := signals + [Death];
      }
    }

    /** heal: the health rises by the amount, capped at the maximum, and on_health_changed runs. */
    method Heal(amount: real)
      modifies this
      ensures currentHealth == Healed(old(currentHealth), amount, maxHealth)
      ensures signals == old(signals) + if onHealthChanged then [HealthChanged(currentHealth, maxHealth)] else []
      ensures maxHealth == old(maxHealth) && invulnerable == old(invulnerable) && invulnerabilityTime == old(invulnerabilityTime)
      ensures onDamageTaken == old(onDamageTaken) && onHealthChanged == old(onHealthChanged) && onDeath == old(onDeath)
    {
      currentHealth := currentHealth + amount;
      currentHealth := if maxHealth < currentHealth then maxHealth else currentHealth;
      if onHealthChanged {
        signals := signals + [HealthChanged(currentHealth, maxHealth)];
      }
    }

    /** set_invulnerable: invulnerable for the given time, whatever was left of an earlier one. */
    method SetInvulnerable(duration: real)
      modifies this
      ensures invulnerable && invulnerabilityTime == duration
      ensures maxHealth == old(maxHealth) && currentHealth == old(currentHealth) && signals == old(signals)
      ensures onDamageTaken == old(onDamageTaken) && onHealthChanged == old(onHealthChanged) && onDeath == old(onDeath)
    {
      invulnerable := true;
      invulnerabilityTime := duration;
    }

    /** update: the countdown runs while invulnerable and switches invulnerability off at 0. */
    method Update(dt: real)
      modifies this
      ensures (invulnerable, invulnerabilityTime) == Countdown(old(invulnerable), old(invulnerabilityTime), dt)
      ensures maxHealth == old(maxHealth) && currentHealth == old(currentHealth) && signals == old(signals)
      ensures onDamageTaken == old(onDamageTaken) && onHealthChanged == old(onHealthChanged) && onDeath == old(onDeath)
    {
      if invulnerable {
        invulnerabilityTime := invulnerabilityTime - dt;
        if invulnerabilityTime <= 0.0 {
          invulnerable := false;
        }
      }
    }

    /** health_percentage of the current state. */
    function HealthPercentage(): (r: real)
      reads this
      ensures r == Percentage(currentHealth, maxHealth)
    {
      if 0.0 < maxHealth then currentHealth / maxHealth else 0.0
    }

    /** is_alive: health above 0. */
    function IsAlive(): (r: bool)
      reads this
      ensures 0.0 < maxHealth ==> (r <==> 0.0 < HealthPercentage())
      ensures !r && 0.0 <= currentHealth ==> currentHealth == 0.0
    {
      0.0 < currentHealth
    }
  }
}
