/**
 * The two gauges of the simulated office worker, stress (0..100) and boss
 * alert (0..5), and the clamped arithmetic with which every update of them is
 * written: `max(0, x - n)` going down and `min(MAX, x + n)` going up.
 */
module Gauges {
  const StressIncreaseIntervalSec: int := 60
  const MaxStressLevel: int := 100
  const StressIncreaseAmount: int := 1
  const MaxBossAlertLevel: int := 5
  const BossPenaltyDelaySec: nat := 20
  const HighStressThreshold: int := 80
  const HighAlertThreshold: int := MaxBossAlertLevel - 1

  // Effects of the four surprise events of a tool call.
  const ChickenBeerRelief: int := 50
  const LeaveWorkAlertRise: int := 2
  const GoodDinnerRelief: int := 40
  const GoodDinnerAlertDrop: int := 1
  const BadDinnerStressRise: int := 30
  const BadDinnerAlertRise: int := 1

  datatype Gauges = Gauges(stress: int, bossAlert: int)

  /** The invariant every locked update keeps. */
  predicate InBounds(g: Gauges) {
    0 <= g.stress <= MaxStressLevel && 0 <= g.bossAlert <= MaxBossAlertLevel
  }

  function Max(a: int, b: int): int { if a >= b then a else b }

  function Min(a: int, b: int): int { if a <= b then a else b }

  /** `max(0, level - amount)`: lowers by exactly `amount`, or bottoms out at 0. */
  function Lower(level: int, amount: int): (r: int)
    requires 0 <= level && 0 <= amount
    ensures 0 <= r <= level
    ensures r == 0 <==> amount >= level
    ensures r != 0 ==> level - r == amount
  {
    Max(0, level - amount)
  }

  /** `min(cap, level + amount)`: raises by exactly `amount`, or tops out at `cap`. */
  function Raise(level: int, amount: int, cap: int): (r: int)
    requires level <= cap && 0 <= amount
    ensures level <= r <= cap
    ensures r == cap <==> level + amount >= cap
    ensures r != cap ==> r - level == amount
  {
    Min(cap, level + amount)
  }

  datatype Event = ChickenBeer | LeaveWork | GoodDinner | BadDinner

  /**
   * The effect of one surprise event on the gauges. Each event moves each
   * gauge in its own direction, by its own amount unless a bound stops it,
   * and chicken_beer leaves boss alert alone.
   */
  function ApplyEvent(g: Gauges, e: Event): (r: Gauges)
    requires InBounds(g)
    ensures InBounds(r)
    ensures e == ChickenBeer ==>
      r.bossAlert == g.bossAlert && r.stress <= g.stress &&
      (r.stress == 0 <==> g.stress <= ChickenBeerRelief) &&
      (r.stress != 0 ==> g.stress - r.stress == ChickenBeerRelief)
    ensures e == LeaveWork ==>
      r.stress == 0 && g.bossAlert <= r.bossAlert &&
      (r.bossAlert == MaxBossAlertLevel <==> g.bossAlert + LeaveWorkAlertRise >= MaxBossAlertLevel) &&
      (r.bossAlert != MaxBossAlertLevel ==> r.bossAlert - g.bossAlert == LeaveWorkAlertRise)
    ensures e == GoodDinner ==>
      r.stress <= g.stress &&
      (r.stress == 0 <==> g.stress <= GoodDinnerRelief) &&
      (r.stress != 0 ==> g.stress - r.stress == GoodDinnerRelief) &&
      r.bossAlert <= g.bossAlert &&
      (r.bossAlert == 0 <==> g.bossAlert <= GoodDinnerAlertDrop) &&
      (r.bossAlert != 0 ==> g.bossAlert - r.bossAlert == GoodDinnerAlertDrop)
    ensures e == BadDinner ==>
      g.stress <= r.stress &&
      (r.stress == MaxStressLevel <==> g.stress + BadDinnerStressRise >= MaxStressLevel) &&
      (r.stress != MaxStressLevel ==> r.stress - g.stress == BadDinnerStressRise) &&
      g.bossAlert <= r.bossAlert &&
      (r.bossAlert == MaxBossAlertLevel <==> g.bossAlert + BadDinnerAlertRise >= MaxBossAlertLevel) &&
      (r.bossAlert != MaxBossAlertLevel ==> r.bossAlert - g.bossAlert == BadDinnerAlertRise)
  {
    match e
    case ChickenBeer => Gauges(Lower(g.stress, ChickenBeerRelief), g.bossAlert)
    case LeaveWork => Gauges(0, Raise(g.bossAlert, LeaveWorkAlertRise, MaxBossAlertLevel))
    case GoodDinner => Gauges(Lower(g.stress, GoodDinnerRelief), Lower(g.bossAlert, GoodDinnerAlertDrop))
    case BadDinner =>
      Gauges(Raise(g.stress, BadDinnerStressRise, MaxStressLevel), Raise(g.bossAlert, BadDinnerAlertRise, MaxBossAlertLevel))
  }
}
