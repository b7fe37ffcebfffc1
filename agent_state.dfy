/**
 * `AgentState`: the two gauges, the configured alertness and cooldown, and
 * the two timestamps of the background loops. Every block the source runs
 * under its lock is one method here; time is whole seconds.
 */
module Agent {
  import opened Wrappers
  import opened Gauges
  import opened Tools
  import opened Protocol

  /** A gauge under a background loop: its level, its timer, and how often the loop has moved it. */
  datatype TickState = TickState(level: int, last: int, count: nat)

  /** One wake-up of the stress updater, as `StressTick` performs it. */
  function StressStep(t: TickState, now: int): TickState {
    if now - t.last >= StressIncreaseIntervalSec then
      if t.level < MaxStressLevel then TickState(Min(MaxStressLevel, t.level + StressIncreaseAmount), now, t.count + 1)
      else TickState(t.level, now, t.count)
    else t
  }

  /**
   * The stress updater over its wake-up times. Stress rises by exactly the
   * number of increments, stays in bounds, and the timer moves on by at
   * least one interval per increment.
   */
  function StressUpdates(t: TickState, wakeTimes: seq<int>): (r: TickState)
    requires 0 <= t.level <= MaxStressLevel
    ensures 0 <= r.level <= MaxStressLevel
    ensures t.count <= r.count && r.level == t.level + (r.count - t.count) * StressIncreaseAmount
    ensures t.last <= r.last && (r.count - t.count) * StressIncreaseIntervalSec <= r.last - t.last
    decreases |wakeTimes|
  {
    if wakeTimes == [] then t else StressUpdates(StressStep(t, wakeTimes[0]), wakeTimes[1..])
  }

  lemma MulSucc(n: int, c: int)
    ensures (n + 1) * c == n * c + c
  {
  }

  /** One wake-up of the boss-alert cooldown, as `CooldownTick` performs it. */
  function CooldownStep(t: TickState, cooldown: int, now: int): TickState {
    if now - t.last >= cooldown then
      if t.level > 0 then TickState(Max(0, t.level - 1), now, t.count + 1)
      else TickState(t.level, now, t.count)
    else t
  }

  /**
   * The boss-alert cooldown over its wake-up times. Boss alert falls by
   * exactly the number of decrements and stays in bounds; with a
   * non-negative cooldown the timer never moves back and moves on by at
   * least one cooldown per decrement.
   */
  function CooldownUpdates(t: TickState, cooldown: int, wakeTimes: seq<int>): (r: TickState)
    requires 0 <= t.level <= MaxBossAlertLevel
    ensures 0 <= r.level <= MaxBossAlertLevel
    ensures t.count <= r.count && r.level == t.level - (r.count - t.count)
    ensures cooldown >= 0 ==> t.last <= r.last && (r.count - t.count) * cooldown <= r.last - t.last
    decreases |wakeTimes|
  {
    if wakeTimes == [] then t
    else
      var next := CooldownStep(t, cooldown, wakeTimes[0]);
      var r := CooldownUpdates(next, cooldown, wakeTimes[1..]);
      MulSucc(r.count - next.count, cooldown);
      r
  }

  class AgentState {
    var stress: int
    var bossAlert: int
    var alertnessPct: int
    var cooldownSec: int
    var lastStressUpdate: int
    var lastCooldown: int

    predicate Valid()
      reads this
    {
      InBounds(Gauges(stress, bossAlert))
    }

    function Current(): Gauges
      reads this
    {
      Gauges(stress, bossAlert)
    }

    /** Both gauges start at 0 and both timers start now. */
    constructor (bossAlertness: int, bossAlertnessCooldown: int, now: int)
      ensures Valid()
      ensures stress == 0 && bossAlert == 0
      ensures alertnessPct == bossAlertness && cooldownSec == bossAlertnessCooldown
      ensures lastStressUpdate == now && lastCooldown == now
    {
      stress := 0;
      bossAlert := 0;
      alertnessPct := bossAlertness;
      cooldownSec := bossAlertnessCooldown;
      lastStressUpdate := now;
      lastCooldown := now;
    }

    /**
     * `execute_tool`: rejects an unknown name without touching the gauges,
     * otherwise runs the locked block and builds the response from it. None
     * is the `MarkupError` raised while printing the rejection of a name
     * that breaks rich's markup.
     */
    method ExecuteTool(toolName: string, printable: bool, d: Draws) returns (response: Option<Envelope>)
      requires Valid()
      modifies this`stress, this`bossAlert
      ensures Valid()
      ensures toolName !in Registry ==> Current() == old(Current())
      ensures toolName !in Registry && printable ==> response == Some(FormatResponse(UnknownTool(toolName)))
      ensures var h := ToolCall(old(Current()), alertnessPct, toolName, printable, d);
        Current() == h.gauges && (response.Some? <==> h.reply.Some?) &&
        (h.reply.Some? ==> response.value == FormatResponse(h.reply.value))
    {
      if toolName !in Registry {
        if !printable {
          return None;
        }
        return Some(FormatResponse(UnknownTool(toolName)));
      }
      var tier := TierOf(Registry[toolName]);
      var outcome := LockedBlock(tier, d);
      response := Some(FormatResponse(ToolResult(ReportOf(outcome))));
    }

    /**
     * The block `execute_tool` runs under the lock, step by step: penalty
     * check, success draw, stress reduction, alertness draw, surprise event.
     */
    method LockedBlock(tier: Tier, d: Draws) returns (outcome: Outcome)
      requires Valid()
      modifies this`stress, this`bossAlert
      ensures Valid()
      ensures outcome == LockedUpdate(old(Current()), tier, alertnessPct, d)
      ensures Current() == outcome.after
    {
      var penalty := false;
      var succeeded := true;
      var increased := false;

      if bossAlert == MaxBossAlertLevel {
        penalty := true;
      }
      // `random.random() > success_rate` fails the call.
      if d.successRoll >= SuccessPct(tier) {
        succeeded := false;
      }
      var (lo, hi) := ReductionRange(tier, succeeded);
      var reduction := RandInt(lo, hi, d.reductionRoll);
      stress := Max(0, stress - reduction);

      if d.alertRoll < alertnessPct {
        if bossAlert < MaxBossAlertLevel {
          bossAlert := bossAlert + 1;
          increased := true;
        }
      }
      var beforeEvent := Current();
      var event := SurpriseEvent(d);
      outcome := Outcome(penalty, succeeded, reduction, increased, beforeEvent, event, Current());
    }

    /** The last step of the locked block: at most one surprise event. */
    method SurpriseEvent(d: Draws) returns (event: Option<Event>)
      requires Valid()
      modifies this`stress, this`bossAlert
      ensures Valid()
      ensures event == EventOf(d)
      ensures Current() == if event.Some? then ApplyEvent(old(Current()), event.value) else old(Current())
    {
      event := None;
      if d.eventRoll < RandomEventPct {
        match d.eventPick
        case ChickenBeerEvent =>
          event := Some(ChickenBeer);
          stress := Max(0, stress - ChickenBeerRelief);
        case LeaveWorkEvent =>
          event := Some(LeaveWork);
          stress := 0;
          bossAlert := Min(MaxBossAlertLevel, bossAlert + LeaveWorkAlertRise);
        case CompanyDinnerEvent =>
          if d.dinnerRoll < GoodDinnerPct {
            event := Some(GoodDinner);
            stress := Max(0, stress - GoodDinnerRelief);
            bossAlert := Max(0, bossAlert - GoodDinnerAlertDrop);
          } else {
            event := Some(BadDinner);
            stress := Min(MaxStressLevel, stress + BadDinnerStressRise);
            bossAlert := Min(MaxBossAlertLevel, bossAlert + BadDinnerAlertRise);
          }
      }
    }

    /**
     * One wake-up of the stress updater: once a full interval has passed,
     * stress rises by one unless it is already at its maximum, and the timer
     * restarts either way. Boss alert is outside the frame.
     */
    method StressTick(now: int) returns (changed: bool)
      requires Valid()
      modifies this`stress, this`lastStressUpdate
      ensures Valid()
      ensures changed <==> now - old(lastStressUpdate) >= StressIncreaseIntervalSec && old(stress) < MaxStressLevel
      ensures stress == if changed then old(stress) + StressIncreaseAmount else old(stress)
      ensures lastStressUpdate == if now - old(lastStressUpdate) >= StressIncreaseIntervalSec then now else old(lastStressUpdate)
    {
      changed := false;
      var secondsPassed := now - lastStressUpdate;
      if secondsPassed >= StressIncreaseIntervalSec {
        if stress < MaxStressLevel {
          stress := Min(MaxStressLevel, stress + StressIncreaseAmount);
          changed := true;
        }
        lastStressUpdate := now;
      }
    }

    /**
     * One wake-up of the boss-alert cooldown: once the configured cooldown
     * has passed, boss alert drops by one unless it is already 0, and the
     * timer restarts either way. Stress is outside the frame.
     */
    method CooldownTick(now: int) returns (changed: bool)
      requires Valid()
      modifies this`bossAlert, this`lastCooldown
      ensures Valid()
      ensures changed <==> now - old(lastCooldown) >= cooldownSec && old(bossAlert) > 0
      ensures bossAlert == if changed then old(bossAlert) - 1 else old(bossAlert)
      ensures lastCooldown == if now - old(lastCooldown) >= cooldownSec then now else old(lastCooldown)
    {
      changed := false;
      var secondsPassed := now - lastCooldown;
      if secondsPassed >= cooldownSec {
        if bossAlert > 0 {
          bossAlert := Max(0, bossAlert - 1);
          changed := true;
        }
        lastCooldown := now;
      }
    }

    /**
     * The stress updater's `while True` loop over its first `|wakeTimes|`
     * wake-ups: the new stress and timer, and the number of increments, are
     * those of `StressUpdates`.
     */
    method RunStressUpdater(wakeTimes: seq<int>) returns (increments: nat)
      requires Valid()
      modifies this`stress, this`lastStressUpdate
      ensures Valid()
      ensures TickState(stress, lastStressUpdate, increments) ==
        StressUpdates(TickState(old(stress), old(lastStressUpdate), 0), wakeTimes)
      ensures stress == old(stress) + increments * StressIncreaseAmount
      ensures increments * StressIncreaseIntervalSec <= lastStressUpdate - old(lastStressUpdate)
    {
      ghost var whole := StressUpdates(TickState(stress, lastStressUpdate, 0), wakeTimes);
      increments := 0;
      var i := 0;
      assert wakeTimes[0..] == wakeTimes;
      while i < |wakeTimes|
        invariant 0 <= i <= |wakeTimes|
        invariant Valid()
        invariant whole == StressUpdates(TickState(stress, lastStressUpdate, increments), wakeTimes[i..])
      {
        assert wakeTimes[i..][1..] == wakeTimes[i + 1..];
        var changed := StressTick(wakeTimes[i]);
        if changed {
          increments := increments + 1;
        }
        i := i + 1;
      }
    }

    /**
     * The cooldown's `while True` loop over its first `|wakeTimes|` wake-ups:
     * the new boss alert and timer, and the number of decrements, are those
     * of `CooldownUpdates`.
     */
    method RunBossCooldown(wakeTimes: seq<int>) returns (decrements: nat)
      requires Valid()
      modifies this`bossAlert, this`lastCooldown
      ensures Valid()
      ensures TickState(bossAlert, lastCooldown, decrements) ==
        CooldownUpdates(TickState(old(bossAlert), old(lastCooldown), 0), cooldownSec, wakeTimes)
      ensures bossAlert == old(bossAlert) - decrements
      ensures cooldownSec >= 0 ==> decrements * cooldownSec <= lastCooldown - old(lastCooldown)
    {
      ghost var whole := CooldownUpdates(TickState(bossAlert, lastCooldown, 0), cooldownSec, wakeTimes);
      decrements := 0;
      var i := 0;
      assert wakeTimes[0..] == wakeTimes;
      while i < |wakeTimes|
        invariant 0 <= i <= |wakeTimes|
        invariant Valid()
        invariant whole == CooldownUpdates(TickState(bossAlert, lastCooldown, decrements), cooldownSec, wakeTimes[i..])
      {
        assert wakeTimes[i..][1..] == wakeTimes[i + 1..];
        var changed := CooldownTick(wakeTimes[i]);
        if changed {
          decrements := decrements + 1;
        }
        i := i + 1;
      }
    }

    /** The body of the loop for a line that gets a response: an error, or a tool call. */
    method HandleLine(req: Request, d: Draws) returns (response: Option<Envelope>)
      requires Valid() && (Dispatch(req).Reply? || Dispatch(req).Run?)
      modifies this`stress, this`bossAlert
      ensures Valid()
      ensures var h := Respond(old(Current()), alertnessPct, req, d);
        Current() == h.gauges && (response.Some? <==> h.reply.Some?) &&
        (h.reply.Some? ==> response.value == FormatResponse(h.reply.value))
    {
      var action := Dispatch(req);
      if action.Reply? {
        response := Some(FormatResponse(action.message));
      } else {
        response := ExecuteTool(action.name, action.printable, d);
      }
    }

    /**
     * The loop of `main` over the lines of standard input, `draws[i]` being
     * the random draws of the i-th line: one response per line until a
     * shutdown, an uncaught exception, or the end of input.
     */
    method Serve(requests: seq<Request>, draws: seq<Draws>) returns (outputs: seq<Envelope>, end: End)
      requires Valid() && |draws| == |requests|
      modifies this`stress, this`bossAlert
      ensures Valid()
      ensures ServeSpec(old(Current()), alertnessPct, requests, draws) == Served(Current(), outputs, end)
    {
      ghost var whole := ServeSpec(Current(), alertnessPct, requests, draws);
      outputs := [];
      var i := 0;
      assert requests[0..] == requests && draws[0..] == draws;
      while i < |requests|
        invariant 0 <= i <= |requests|
        invariant Valid()
        invariant var rest := ServeSpec(Current(), alertnessPct, requests[i..], draws[i..]);
          whole == Served(rest.gauges, outputs + rest.outputs, rest.end)
      {
        ServeUnfold(Current(), alertnessPct, requests, draws, i);
        var action := Dispatch(requests[i]);
        if action == Stop {
          end := ShutdownRequested;
          return;
        } else if action == Crash {
          end := Crashed;
          return;
        }
        ghost var previous := outputs;
        var response := HandleLine(requests[i], draws[i]);
        if response.None? {
          end := Crashed;
          return;
        }
        outputs := outputs + [response.value];
        ghost var rest := ServeSpec(Current(), alertnessPct, requests[i + 1..], draws[i + 1..]);
        assert previous + ([response.value] + rest.outputs) == outputs + rest.outputs;
        i := i + 1;
      }
      ServeUnfold(Current(), alertnessPct, requests, draws, i);
      end := EndOfInput;
    }
  }
}
