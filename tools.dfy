/**
 * The tool registry, the random draws of one tool call, and the locked
 * update block of `execute_tool` as a function of the gauges on entry.
 */
module Tools {
  import opened Wrappers
  import opened Gauges

  // Success chances, as percentages of the uniform draw in [0, 1).
  const BasicSuccessPct: int := 90
  const AdvancedSuccessPct: int := 70
  const RandomEventPct: int := 15
  const GoodDinnerPct: int := 50

  const FailureReductionMin: int := 0
  const FailureReductionMax: int := 5
  const BasicReductionMin: int := 10
  const BasicReductionMax: int := 40
  const AdvancedReductionMin: int := 30
  const AdvancedReductionMax: int := 80

  datatype Tier = Basic | Advanced

  /** A registry entry; only its "level" key matters to the gauges. */
  datatype ToolConfig = ToolConfig(level: Option<string>)

  const Registry: map<string, ToolConfig> := map[
    "take_a_break" := ToolConfig(Some("basic")),
    "watch_netflix" := ToolConfig(Some("basic")),
    "show_meme" := ToolConfig(Some("basic")),
    "deep_thinking" := ToolConfig(Some("advanced")),
    "email_organizing" := ToolConfig(Some("advanced")),
    "bathroom_break" := ToolConfig(Some("advanced")),
    "coffee_mission" := ToolConfig(Some("advanced")),
    "urgent_call" := ToolConfig(Some("advanced")),
    "chicken_and_beer" := ToolConfig(Some("advanced")),
    "leave_work_now" := ToolConfig(Some("advanced")),
    "company_dinner" := ToolConfig(Some("advanced"))
  ]

  /** The tier of a tool: a missing level counts as basic, and only "advanced" is advanced. */
  function TierOf(cfg: ToolConfig): (t: Tier)
    ensures cfg.level == None ==> t == Basic
    ensures t == Advanced <==> cfg.level == Some("advanced")
  {
    match cfg.level
    case None => Basic
    case Some(level) => if level == "advanced" then Advanced else Basic
  }

  /** A uniform draw from [0, 1), scaled to a whole percentage. */
  type Percent = x: int | 0 <= x < 100

  datatype EventKind = ChickenBeerEvent | LeaveWorkEvent | CompanyDinnerEvent

  /**
   * Everything one tool call draws at random: the success draw, the
   * reduction draw, the alertness draw, whether an event happens, which one,
   * and whether a company dinner goes well.
   */
  datatype Draws = Draws(
    successRoll: Percent,
    reductionRoll: nat,
    alertRoll: Percent,
    eventRoll: Percent,
    eventPick: EventKind,
    dinnerRoll: Percent)

  function SuccessPct(t: Tier): int {
    if t == Advanced then AdvancedSuccessPct else BasicSuccessPct
  }

  /** The inclusive range the stress reduction is drawn from. */
  function ReductionRange(t: Tier, succeeded: bool): (int, int) {
    if !succeeded then (FailureReductionMin, FailureReductionMax)
    else if t == Advanced then (AdvancedReductionMin, AdvancedReductionMax)
    else (BasicReductionMin, BasicReductionMax)
  }

  /** `random.randint(lo, hi)` driven by an arbitrary natural number. */
  function RandInt(lo: int, hi: int, roll: nat): (r: int)
    requires lo <= hi
    ensures lo <= r <= hi
  {
    lo + roll % (hi - lo + 1)
  }

  /** Every value of the range is drawn by some roll, so no outcome is lost. */
  lemma RandIntReachesAll(lo: int, hi: int, k: int)
    requires lo <= k <= hi
    ensures RandInt(lo, hi, k - lo) == k
  {
  }

  /** The event a call's draws select, if any. */
  function EventOf(d: Draws): (e: Option<Event>)
    ensures e.Some? <==> d.eventRoll < RandomEventPct
  {
    if d.eventRoll < RandomEventPct then
      match d.eventPick
      case ChickenBeerEvent => Some(ChickenBeer)
      case LeaveWorkEvent => Some(LeaveWork)
      case CompanyDinnerEvent => if d.dinnerRoll < GoodDinnerPct then Some(GoodDinner) else Some(BadDinner)
    else None
  }

  /** Every surprise event happens for some draws: none of the four is dead code. */
  lemma EventOfReachesAll(e: Event)
    ensures exists d: Draws :: EventOf(d) == Some(e)
  {
    match e
    case ChickenBeer => assert EventOf(Draws(0, 0, 0, 0, ChickenBeerEvent, 0)) == Some(e);
    case LeaveWork => assert EventOf(Draws(0, 0, 0, 0, LeaveWorkEvent, 0)) == Some(e);
    case GoodDinner => assert EventOf(Draws(0, 0, 0, 0, CompanyDinnerEvent, 0)) == Some(e);
    case BadDinner => assert EventOf(Draws(0, 0, 0, 0, CompanyDinnerEvent, GoodDinnerPct)) == Some(e);
  }

  /** What the locked block of one tool call decides and leaves behind. */
  datatype Outcome = Outcome(
    penalty: bool,
    succeeded: bool,
    reduction: int,
    alertIncreased: bool,
    beforeEvent: Gauges,
    event: Option<Event>,
    after: Gauges)

  /**
   * The locked block of `execute_tool`: penalty check on entry, success draw,
   * stress reduction, alertness draw, then at most one event.
   */
  function LockedUpdate(g: Gauges, t: Tier, alertnessPct: int, d: Draws): (o: Outcome)
    requires InBounds(g)
    ensures InBounds(o.beforeEvent) && InBounds(o.after)
    ensures o.penalty <==> g.bossAlert == MaxBossAlertLevel
    ensures o.succeeded <==> d.successRoll < SuccessPct(t)
    ensures ReductionRange(t, o.succeeded).0 <= o.reduction <= ReductionRange(t, o.succeeded).1
    ensures o.beforeEvent.stress <= g.stress
    ensures o.beforeEvent.stress == 0 <==> o.reduction >= g.stress
    ensures o.beforeEvent.stress != 0 ==> g.stress - o.beforeEvent.stress == o.reduction
    ensures o.alertIncreased <==> d.alertRoll < alertnessPct && g.bossAlert < MaxBossAlertLevel
    ensures o.beforeEvent.bossAlert == if o.alertIncreased then g.bossAlert + 1 else g.bossAlert
    ensures o.event == EventOf(d)
    ensures o.after == if o.event.Some? then ApplyEvent(o.beforeEvent, o.event.value) else o.beforeEvent
  {
    var penalty := g.bossAlert == MaxBossAlertLevel;
    var succeeded := d.successRoll < SuccessPct(t);
    var (lo, hi) := ReductionRange(t, succeeded);
    var reduction := RandInt(lo, hi, d.reductionRoll);
    var increased := d.alertRoll < alertnessPct && g.bossAlert < MaxBossAlertLevel;
    var mid := Gauges(Lower(g.stress, reduction), if increased then g.bossAlert + 1 else g.bossAlert);
    var event := EventOf(d);
    var after := if event.Some? then ApplyEvent(mid, event.value) else mid;
    Outcome(penalty, succeeded, reduction, increased, mid, event, after)
  }

  datatype SummaryKey = Default | HighStress | HighAlert

  /** The summary table a successful call picks from; alert takes precedence over stress. */
  function SummaryKeyFor(g: Gauges): (k: SummaryKey)
    ensures k == HighAlert <==> g.bossAlert >= HighAlertThreshold
    ensures k == HighStress <==> g.bossAlert < HighAlertThreshold && g.stress >= HighStressThreshold
    ensures k == Default <==> g.bossAlert < HighAlertThreshold && g.stress < HighStressThreshold
  {
    if g.bossAlert >= HighAlertThreshold then HighAlert
    else if g.stress >= HighStressThreshold then HighStress
    else Default
  }

  datatype Summary = Success(key: SummaryKey) | Failure

  /** The parts of a tool call's response text other than the flavor and summary strings. */
  datatype Report = Report(
    summary: Summary,
    stress: int,
    bossAlert: int,
    event: Option<Event>,
    penaltyDelaySec: Option<nat>)

  function ReportOf(o: Outcome): (r: Report)
    ensures r.summary.Success? <==> o.succeeded
    ensures r.summary.Success? ==> r.summary.key == SummaryKeyFor(o.after)
    ensures r.stress == o.after.stress && r.bossAlert == o.after.bossAlert
    ensures r.event == o.event
    ensures r.penaltyDelaySec.Some? <==> o.penalty
    ensures r.penaltyDelaySec.Some? ==> r.penaltyDelaySec.value == BossPenaltyDelaySec
  {
    Report(
      if o.succeeded then Success(SummaryKeyFor(o.after)) else Failure,
      o.after.stress,
      o.after.bossAlert,
      o.event,
      if o.penalty then Some(BossPenaltyDelaySec) else None)
  }
}
