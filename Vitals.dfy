/** The player's vitals and progression (PlayerStats): health, the integer
    stamina a level-up refills, the infection meter that ticks health away,
    experience and levels, and the one-way dead and won flags. */
module Vitals {
  import opened Numeric

  type Positive = n: int | n > 0 witness 1

  /** The values a level-up changes. */
  datatype Progress = Progress(level: int, experience: int, experienceToNext: int,
                               maxHealth: int, currentHealth: int,
                               maxStamina: int, currentStamina: int,
                               currentDamage: int)

  /** The seven player values the save systems persist. */
  datatype StatsRecord = StatsRecord(level: int, experience: int, experienceToNext: int,
                                     currentHealth: int, maxHealth: int,
                                     currentInfection: int, currentDamage: int)

  /** The persisted player values of a new game: level 1, no experience, a
      threshold of 100, full health of 100, no infection, damage 20. */
  const NewGameStats := StatsRecord(1, 0, 100, 100, 100, 0, 20)

  /** The object a possibly missing PlayerStats lookup found, as a frame. */
  function StatsFrame(s: PlayerStats?): set<PlayerStats>
  {
    if s == null then {} else {s}
  }

  /** Attack damage at a level: the base damage grown by 5% per level above 1. */
  function LevelDamage(baseDamage: int, level: int): (r: int)
    ensures level == 1 ==> r == baseDamage
    ensures baseDamage as real * (1.0 + (level - 1) as real * 0.05) - 0.5 <= r as real
            <= baseDamage as real * (1.0 + (level - 1) as real * 0.05) + 0.5
  {
    RoundIntegral(baseDamage);
    RoundToInt(baseDamage as real * (1.0 + (level - 1) as real * 0.05))
  }

  /** One level-up: next level, the threshold's worth of experience spent, a
      threshold 20% higher, maxima 5% higher and refilled, damage recomputed
      from the base damage and the new level. */
  function LevelUpStep(p: Progress, baseDamage: int): (r: Progress)
    ensures r.level == p.level + 1
    ensures r.experience + p.experienceToNext == p.experience
    ensures p.experienceToNext as real * 1.2 - 0.5 <= r.experienceToNext as real
                                               <= p.experienceToNext as real * 1.2 + 0.5
    ensures p.maxHealth as real * 1.05 - 0.5 <= r.maxHealth as real <= p.maxHealth as real * 1.05 + 0.5
    ensures p.maxStamina as real * 1.05 - 0.5 <= r.maxStamina as real <= p.maxStamina as real * 1.05 + 0.5
    ensures r.currentHealth == r.maxHealth && r.currentStamina == r.maxStamina
    ensures r.currentDamage == LevelDamage(baseDamage, r.level)
  {
    var maxHealth := RoundToInt(p.maxHealth as real * 1.05);
    var maxStamina := RoundToInt(p.maxStamina as real * 1.05);
    Progress(p.level + 1, p.experience - p.experienceToNext,
             RoundToInt(p.experienceToNext as real * 1.2),
             maxHealth, maxHealth, maxStamina, maxStamina,
             LevelDamage(baseDamage, p.level + 1))
  }

  /** AddExperience followed by CheckLevelUp: the experience is added, then at
      most one level-up happens, exactly when the threshold is reached. */
  function GainExperience(p: Progress, amount: int, baseDamage: int): (r: Progress)
    ensures r.level == p.level || r.level == p.level + 1
    ensures r.level == p.level + 1 <==> p.experience + amount >= p.experienceToNext
    ensures r.level == p.level ==> r == p.(experience := p.experience + amount)
  {
    var gained := p.(experience := p.experience + amount);
    if gained.experience >= gained.experienceToNext then LevelUpStep(gained, baseDamage) else gained
  }

  /** A reward worth more than two thresholds still levels up only once and
      leaves the rest of the experience unspent. */
  lemma SingleLevelUpPerReward(p: Progress, amount: int, baseDamage: int)
    requires p.experienceToNext > 0
    requires p.experience + amount >= 2 * p.experienceToNext
    ensures GainExperience(p, amount, baseDamage).level == p.level + 1
    ensures GainExperience(p, amount, baseDamage).experience >= p.experienceToNext
  {
  }

  /** Level 1 with 150 experience against a threshold of 100 becomes level 2
      with 50 experience, a threshold of 120, 105 maximum health and damage 21. */
  lemma LevelUpExample()
    ensures GainExperience(Progress(1, 0, 100, 100, 100, 100, 100, 20), 150, 20)
            == Progress(2, 50, 120, 105, 105, 105, 105, 21)
  {
    var p := Progress(1, 150, 100, 100, 100, 100, 100, 20);
    assert (100 as real * 1.2).Floor == 120;
    assert (100 as real * 1.05).Floor == 105;
    assert (20 as real * (1.0 + (2 - 1) as real * 0.05)).Floor == 21;
  }

  /** The damage after a level-up does not depend on the damage before it. */
  lemma DamageFromBaseOnly(p: Progress, q: Progress, baseDamage: int)
    requires q == p.(currentDamage := q.currentDamage)
    ensures LevelUpStep(p, baseDamage) == LevelUpStep(q, baseDamage)
  {
  }

  /** The fraction of the meter that is filled (`infectionPercent`): the
      number that, scaled by the meter's capacity, gives the infection. */
  function InfectionPercent(infection: int, maxInfection: Positive): (p: real)
    ensures p * maxInfection as real == infection as real
  {
    infection as real / maxInfection as real
  }

  /** A meter within bounds is filled to a fraction in [0, 1], and a full one
      to exactly 1. */
  lemma {:induction false} PercentBetween(infection: int, maxInfection: Positive)
    requires 0 <= infection <= maxInfection
    ensures 0.0 <= InfectionPercent(infection, maxInfection) <= 1.0
    ensures infection == maxInfection ==> InfectionPercent(infection, maxInfection) == 1.0
  {
    var p, m := InfectionPercent(infection, maxInfection), maxInfection as real;
    assert -p * m == -(p * m);
    assert (p - 1.0) * m == p * m - m;
    assert (1.0 - p) * m == m - p * m;
    if p < 0.0 {
      ProductPositive(-p, m);
    }
    if p > 1.0 {
      ProductPositive(p - 1.0, m);
    }
    if infection == maxInfection && p < 1.0 {
      ProductPositive(1.0 - p, m);
    }
  }

  /** A fuller meter is a larger fraction. */
  lemma {:induction false} PercentIncreasing(i: int, j: int, maxInfection: Positive)
    requires i < j
    ensures InfectionPercent(i, maxInfection) < InfectionPercent(j, maxInfection)
  {
    var pi, pj, m := InfectionPercent(i, maxInfection), InfectionPercent(j, maxInfection), maxInfection as real;
    assert (pi - pj) * m == pi * m - pj * m;
    if pj - pi <= 0.0 {
      ProductNonNegative(pi - pj, m);
    }
  }

  /** Time between infection ticks at filled fraction `p`: the base rate
      shortened by up to 80%. */
  function InfectionInterval(p: real, rate: real): real
  {
    rate * (1.0 - p * 0.8)
  }

  /** Damage of one infection tick at filled fraction `p`: the per-tick damage
      grown by up to 200%. */
  function InfectionTickDamage(p: real, baseDamagePerTick: int): (r: int)
    ensures p == 0.0 ==> r == baseDamagePerTick
    ensures p == 1.0 ==> r == 3 * baseDamagePerTick
  {
    var x := baseDamagePerTick as real * (1.0 + p * 2.0);
    RoundIntegral(baseDamagePerTick);
    RoundIntegral(3 * baseDamagePerTick);
    assert p == 0.0 ==> x == baseDamagePerTick as real;
    assert p == 1.0 ==> x == (3 * baseDamagePerTick) as real;
    RoundToInt(x)
  }

  /** A larger fraction means a strictly shorter interval between ticks. */
  lemma {:induction false} IntervalShrinks(p: real, q: real, rate: real)
    requires p < q
    requires rate > 0.0
    ensures InfectionInterval(q, rate) < InfectionInterval(p, rate)
  {
    assert InfectionInterval(p, rate) - InfectionInterval(q, rate) == rate * ((q - p) * 0.8);
    ProductPositive(rate, (q - p) * 0.8);
  }

  /** More infection means strictly shorter intervals between ticks. */
  lemma MoreInfectionTicksSooner(i: int, j: int, maxInfection: Positive, rate: real)
    requires i < j
    requires rate > 0.0
    ensures InfectionInterval(InfectionPercent(j, maxInfection), rate)
            < InfectionInterval(InfectionPercent(i, maxInfection), rate)
  {
    PercentIncreasing(i, j, maxInfection);
    IntervalShrinks(InfectionPercent(i, maxInfection), InfectionPercent(j, maxInfection), rate);
  }

  /** A full meter ticks at a fifth of the base interval. */
  lemma IntervalAtFullInfection(maxInfection: Positive, rate: real)
    ensures InfectionInterval(InfectionPercent(maxInfection, maxInfection), rate) == 0.2 * rate
  {
    PercentBetween(maxInfection, maxInfection);
  }

  /** Scaling a non-negative base by the tick factor at a fraction in [0, 1]
      lands between one and three times the base. */
  lemma TickFactorBetween(base: int, p: real)
    requires base >= 0 && 0.0 <= p <= 1.0
    ensures base as real <= base as real * (1.0 + p * 2.0) <= (3 * base) as real
  {
    var b := base as real;
    assert b * (1.0 + p * 2.0) == b + 2.0 * (b * p);
    assert b * (1.0 - p) == b - b * p;
    ProductNonNegative(b, p);
    ProductNonNegative(b, 1.0 - p);
  }

  /** A tick on a meter within bounds deals between one and three times the
      per-tick damage. */
  lemma {:induction false} TickDamageBounds(p: real, baseDamagePerTick: int)
    requires 0.0 <= p <= 1.0
    requires baseDamagePerTick >= 0
    ensures baseDamagePerTick <= InfectionTickDamage(p, baseDamagePerTick) <= 3 * baseDamagePerTick
  {
    TickFactorBetween(baseDamagePerTick, p);
    RoundBetween(baseDamagePerTick as real * (1.0 + p * 2.0), baseDamagePerTick, 3 * baseDamagePerTick);
  }

  class PlayerStats {
    var level: int
    var experience: int
    var experienceToNext: int
    var maxHealth: int
    var currentHealth: int
    var maxStamina: int
    var currentStamina: int
    const maxInfection: Positive
    var currentInfection: int
    const infectionDamageRate: real
    const baseDamagePerTick: int
    const baseDamage: int
    var currentDamage: int
    var isDead: bool
    var gameWon: bool
    var lastInfectionDamage: real
    /** Set when Die starts the restart-after-delay coroutine. */
    var restartScheduled: bool

    /** The field initialisers (Inspector values as defaults) followed by Start,
        which fills health and stamina and sets damage to the base damage. */
    constructor (maxHealth: int := 100, maxStamina: int := 100, maxInfection: Positive := 100,
                 infectionDamageRate: real := 1.0, baseDamagePerTick: int := 1, baseDamage: int := 20)
      ensures CurrentProgress() == Progress(1, 0, 100, maxHealth, maxHealth, maxStamina, maxStamina, baseDamage)
      ensures this.maxInfection == maxInfection && this.infectionDamageRate == infectionDamageRate
      ensures this.baseDamagePerTick == baseDamagePerTick && this.baseDamage == baseDamage
      ensures currentInfection == 0 && !isDead && !gameWon && !restartScheduled
      ensures lastInfectionDamage == 0.0
      ensures maxHealth == 100 && baseDamage == 20 ==> Record() == NewGameStats
    {
      level, experience, experienceToNext := 1, 0, 100;
      this.maxHealth, currentHealth := maxHealth, maxHealth;
      this.maxStamina, currentStamina := maxStamina, maxStamina;
      this.maxInfection, currentInfection := maxInfection, 0;
      this.infectionDamageRate, this.baseDamagePerTick := infectionDamageRate, baseDamagePerTick;
      this.baseDamage, currentDamage := baseDamage, baseDamage;
      isDead, gameWon, lastInfectionDamage, restartScheduled := false, false, 0.0, false;
    }

    function CurrentProgress(): Progress
      reads this
    {
      Progress(level, experience, experienceToNext, maxHealth, currentHealth,
               maxStamina, currentStamina, currentDamage)
    }

    /** The values SaveSystem and GameDataManager persist. */
    function Record(): StatsRecord
      reads this
    {
      StatsRecord(level, experience, experienceToNext, currentHealth, maxHealth,
                  currentInfection, currentDamage)
    }

    /** True when an infection tick is due at time `now`: a full meter ticks
        after a fifth of the base interval, an empty one after all of it. */
    predicate TickDue(now: real)
      reads this
      ensures currentInfection == maxInfection ==>
                (TickDue(now) <==> now >= lastInfectionDamage + 0.2 * infectionDamageRate)
      ensures currentInfection == 0 ==> (TickDue(now) <==> now >= lastInfectionDamage + infectionDamageRate)
    {
      now >= lastInfectionDamage
             + InfectionInterval(InfectionPercent(currentInfection, maxInfection), infectionDamageRate)
    }

    /** Per-frame update: nothing once dead or won, otherwise an infection tick
        when the meter is above zero. */
    method Update(now: real)
      modifies this`currentHealth, this`lastInfectionDamage, this`isDead, this`restartScheduled
      ensures old(isDead || gameWon || currentInfection <= 0 || !TickDue(now)) ==>
                currentHealth == old(currentHealth) && lastInfectionDamage == old(lastInfectionDamage)
                && isDead == old(isDead) && restartScheduled == old(restartScheduled)
      ensures old(!isDead && !gameWon && currentInfection > 0 && TickDue(now)) ==>
                var hit := old(currentHealth)
                           - InfectionTickDamage(InfectionPercent(currentInfection, maxInfection), baseDamagePerTick);
                lastInfectionDamage == now
                && currentHealth == (if hit <= 0 then 0 else hit)
                && isDead == (hit <= 0) && restartScheduled == (old(restartScheduled) || hit <= 0)
    {
      if isDead || gameWon {
        return;
      }
      if currentInfection > 0 {
        ProcessInfection(now);
      }
    }

    /** Marks the player as won; damage and infection ticks stop from then on. */
    method OnGameWon()
      modifies this`gameWon
      ensures gameWon
    {
      gameWon := true;
    }

    /** One infection check: when the interval since the last tick has passed,
        stamp the time and deal the tick damage, dying at zero health. */
    method ProcessInfection(now: real)
      modifies this`currentHealth, this`lastInfectionDamage, this`isDead, this`restartScheduled
      ensures !old(TickDue(now)) ==>
                currentHealth == old(currentHealth) && lastInfectionDamage == old(lastInfectionDamage)
                && isDead == old(isDead) && restartScheduled == old(restartScheduled)
      ensures old(TickDue(now)) ==>
                var hit := old(currentHealth)
                           - InfectionTickDamage(InfectionPercent(currentInfection, maxInfection), baseDamagePerTick);
                lastInfectionDamage == now
                && currentHealth == (if hit <= 0 then 0 else hit)
                && isDead == (old(isDead) || hit <= 0)
                && restartScheduled == (old(restartScheduled) || (hit <= 0 && !old(isDead)))
      ensures old(TickDue(now)) ==> currentHealth >= 0
    {
      var infectionPercent := InfectionPercent(currentInfection, maxInfection);
      var damageInterval := InfectionInterval(infectionPercent, infectionDamageRate);
      if now >= lastInfectionDamage + damageInterval {
        lastInfectionDamage := now;
        var damageAmount := InfectionTickDamage(infectionPercent, baseDamagePerTick);
        currentHealth := currentHealth - damageAmount;
        if currentHealth <= 0 {
          currentHealth := 0;
          Die();
        }
      }
    }

    /** Raises the meter, clamped to [0, maxInfection]. */
    method AddInfection(amount: int)
      modifies this`currentInfection
      ensures 0 <= currentInfection <= maxInfection
      ensures currentInfection == Clamp(old(currentInfection) + amount, 0, maxInfection)
    {
      currentInfection := Clamp(currentInfection + amount, 0, maxInfection);
    }

    /** Lowers the meter, clamped to [0, maxInfection]. */
    method ReduceInfection(amount: int)
      modifies this`currentInfection
      ensures 0 <= currentInfection <= maxInfection
      ensures currentInfection == Clamp(old(currentInfection) - amount, 0, maxInfection)
      ensures amount == old(currentInfection) ==> currentInfection == 0
    {
      currentInfection := Clamp(currentInfection - amount, 0, maxInfection);
    }

    /** Direct damage: ignored once dead or won; otherwise health drops by the
        damage, and a result at or below zero is stored as zero and kills. */
    method TakeDamage(damage: int)
      modifies this`currentHealth, this`isDead, this`restartScheduled
      ensures old(isDead || gameWon) ==>
                currentHealth == old(currentHealth) && isDead == old(isDead)
                && restartScheduled == old(restartScheduled)
      ensures old(!isDead && !gameWon) ==>
                var hit := old(currentHealth) - damage;
                currentHealth == (if hit <= 0 then 0 else hit) && currentHealth >= 0
                && isDead == (hit <= 0) && restartScheduled == (old(restartScheduled) || hit <= 0)
    {
      if isDead || gameWon {
        return;
      }
      currentHealth := currentHealth - damage;
      if currentHealth <= 0 {
        currentHealth := 0;
        Die();
      }
    }

    /** Heals up to maxHealth; the dead flag is not consulted. */
    method Heal(amount: int)
      modifies this`currentHealth
      ensures currentHealth == Min(old(currentHealth) + amount, maxHealth)
      ensures currentHealth <= maxHealth
      ensures amount >= 0 && old(currentHealth) <= maxHealth ==> old(currentHealth) <= currentHealth
    {
      currentHealth := Min(currentHealth + amount, maxHealth);
    }

    /** Adds experience, then checks once for a level-up. */
    method AddExperience(amount: int)
      modifies this`experience, this`level, this`experienceToNext, this`maxHealth,
               this`currentHealth, this`maxStamina, this`currentStamina, this`currentDamage
      ensures CurrentProgress() == GainExperience(old(CurrentProgress()), amount, baseDamage)
    {
      experience := experience + amount;
      CheckLevelUp();
    }

    /** A single level-up when the threshold is reached (an `if`, not a loop). */
    method CheckLevelUp()
      modifies this`experience, this`level, this`experienceToNext, this`maxHealth,
               this`currentHealth, this`maxStamina, this`currentStamina, this`currentDamage
      ensures old(experience >= experienceToNext) ==> CurrentProgress() == LevelUpStep(old(CurrentProgress()), baseDamage)
      ensures old(experience < experienceToNext) ==> CurrentProgress() == old(CurrentProgress())
    {
      if experience >= experienceToNext {
        LevelUp();
      }
    }

    method LevelUp()
      modifies this`experience, this`level, this`experienceToNext, this`maxHealth,
               this`currentHealth, this`maxStamina, this`currentStamina, this`currentDamage
      ensures CurrentProgress() == LevelUpStep(old(CurrentProgress()), baseDamage)
    {
      level := level + 1;
      experience := experience - experienceToNext;
      experienceToNext := RoundToInt(experienceToNext as real * 1.2);
      maxHealth := RoundToInt(maxHealth as real * 1.05);
      currentHealth := maxHealth;
      maxStamina := RoundToInt(maxStamina as real * 1.05);
      currentStamina := maxStamina;
      currentDamage := LevelDamage(baseDamage, level);
    }

    /** Enters the dead state once; a second call changes nothing. */
    method Die()
      modifies this`isDead, this`restartScheduled
      ensures isDead
      ensures restartScheduled == (old(restartScheduled) || !old(isDead))
    {
      if isDead {
        return;
      }
      isDead := true;
      restartScheduled := true;
    }
  }
}
