# ChillMCP agent state, modelled in Dafny

ChillMCP is a joke stdio "server": each line of standard input names a
break-time tool for a simulated office worker, and the server answers with
one JSON envelope. Behind it sits `AgentState`, a small state machine over
two clamped integer gauges, stress (0..100) and boss alert (0..5). Three kinds
of atomic step change them: a tool call (`execute_tool`'s locked block), the
stress updater's tick (+1 per 60 seconds) and the boss-alert cooldown's tick
(-1 per configured cooldown). This project models that state machine, the
request loop around it and the start-up argument checks, and proves:

- the gauge bounds survive every tool call, for every combination of random
  draws, and every tick;
- each step of the locked block: the penalty flag (boss alert at 5 on entry,
  judged before anything changes), the tier- and outcome-dependent stress
  reduction, the alertness draw (+1 only below 5), and the four surprise
  events, each moving each gauge its own way;
- unknown tools, missing methods and lines that are not JSON leave the gauges
  alone and get an error envelope, except that an unknown name or a non-JSON
  line whose echo in the error message breaks rich's markup raises instead
  and ends the loop; a shutdown ends the loop without a response; every line
  before the one that ends the loop (a shutdown, an uncaught exception, or the
  end of input) gets exactly one envelope with one text item, and no line
  after it gets any;
- the background loops leave exactly the gauge, timer and count of the tick
  rule folded over their wake-up times; the gauge moves by exactly that count,
  the timer moves on by at least one interval per move, and the other gauge is
  never touched;
- the summary key puts boss alert before stress.

Randomness is made explicit. A `Draws` value holds each draw of one call:
`random.random()` compared with a probability p becomes a whole-percent roll
in 0..99 compared with 100·p (same probabilities), `random.randint(lo, hi)`
becomes `lo + roll % (hi - lo + 1)` for any natural `roll` (every value of the
range is reachable), and `random.choice` of the event becomes an `EventKind`.
Time is whole seconds: the ticks take the current time, and the background
loops take the list of their wake-up times. Every `with self.lock:` block is
one method of the `AgentState` class; a JSON line is an abstract `Request`.

Files: `wrappers.dfy` (Option, Result), `gauges.dfy` (constants, clamped
arithmetic, events), `tools.dfy` (registry, draws, the locked block as a
function, summary key), `protocol.dfy` (requests, envelope, dispatch, the
request loop as a function), `agent_state.dfy` (the `AgentState` class),
`cli.dfy` (argument checks and the whole run).

Behaviour of main.py worth knowing, which the model follows:

- The surprise events are chicken_beer, leave_work and a good or bad company
  dinner, and a tool call can fail (90% / 70% success for basic / advanced
  tools, failure reducing stress by 0..5).
- From stress 0 and boss alert 0, a basic tool is guaranteed to leave stress
  at 0 and boss alert at 0 or 1 only when no bad dinner or leave_work fires:
  a bad dinner leaves stress at 30, and leave_work can take boss alert to 3.
  `FreshBasicCall` therefore excludes those two events; chicken_beer and a
  good dinner keep the bound.
- A line that is valid JSON but not an object (`5`, `[1]`) makes `.get` raise
  an exception that nothing catches, so the loop and the process end there
  without a response (`Crash`, exit status 1). A truthy unhashable "method"
  value (a list, an object) ends it the same way. A falsy "method" value (`""`,
  `0`, `null`) is reported as a missing method. A truthy non-string value is
  rejected as an unknown tool.
- Both error messages that echo user text go through rich's `console.print`
  as markup: the unknown-tool message at main.py:441 and the JSON error at
  main.py:605. A closing tag in the echoed text that matches no open tag
  (the line `[/x]`, or `{"method": "[/x]"}`) makes rich raise `MarkupError`,
  which nothing catches, so the loop ends there without a response and the
  process exits with status 1. Rich's markup parser is not modelled: the
  echoed text carries a `printable` flag saying whether rich accepts it.

## Model

| member | source | states |
|---|---|---|
| `Gauges.Lower` | main.py:474 | `max(0, level - amount)` never rises and never goes below 0; it is 0 exactly when the amount reaches the level, and otherwise lowers by exactly the amount |
| `Gauges.Raise` | main.py:493 | `min(cap, level + amount)` stays within [level, cap]; it is the cap exactly when the sum reaches it, and otherwise raises by exactly the amount |
| `Gauges.ApplyEvent` | main.py:483-504 | each event keeps both gauges in bounds: chicken_beer lowers stress by 50, reaching 0 exactly when stress was at most 50, and keeps boss alert; leave_work sets stress to 0 and raises boss alert by 2, reaching 5 exactly when the sum reaches it; a good dinner lowers stress by 40 and boss alert by 1, each reaching 0 exactly when the drop covers it; a bad dinner raises stress by 30 and boss alert by 1, each reaching its maximum exactly when the sum reaches it |
| `Tools.TierOf` | main.py:444-445 | a tool without a level is basic, and only the level "advanced" makes it advanced |
| `Tools.RandInt` | main.py:468-473 | the reduction drawn lies in the inclusive range for the tier and outcome |
| `Tools.RandIntReachesAll` | main.py:468-473 | every value of a `randint` range is drawn by some roll |
| `Tools.EventOf` | main.py:483-495 | an event happens exactly when the event roll is below 15% |
| `Tools.EventOfReachesAll` | main.py:483-504 | each of chicken_beer, leave_work, a good dinner and a bad dinner is selected by some draws |
| `Tools.LockedUpdate` | main.py:456-508 | from gauges in bounds, every combination of draws leaves them in bounds; penalty iff boss alert was 5 on entry; success iff the success roll is below 90% (basic) or 70% (advanced); the reduction lies in [10,40], [30,80] or [0,5]; stress then falls by exactly the reduction, or to 0 exactly when the reduction reaches it; boss alert rises by one iff the alertness draw hits and it was below 5; at most one event, applied last |
| `Tools.SummaryKeyFor` | main.py:521-527 | high_alert iff boss alert >= 4; high_stress iff boss alert < 4 and stress >= 80; default otherwise |
| `Tools.ReportOf` | main.py:521-558 | the response carries a success summary keyed on the final gauges exactly when the call succeeded, the final gauges, the event, and the 20-second penalty notice exactly when the penalty flag is set |
| `Protocol.FormatResponse` | main.py:568-569 | the envelope holds exactly one item, of type "text", from which the message reads back unchanged |
| `Protocol.LookupTier` | main.py:439-445 | a tier is found exactly for the names the registry holds |
| `Protocol.ToolCall` | main.py:439-508 | a registered name leaves exactly the gauges of `LockedUpdate` for its tier and reports that outcome; an unknown name leaves the gauges unchanged and gets the unknown-tool error, or no response at all exactly when its echo breaks rich's markup; a registered name keeps the gauges in bounds, reports the gauges it leaves, and reports the penalty exactly when boss alert was 5 on entry |
| `Protocol.Dispatch` | main.py:589-606 | shutdown iff the method is the string "shutdown"; a tool run iff it is another non-empty string; the missing-method error iff the method is absent, null, empty or falsy; the unknown-tool error for a truthy hashable non-string method; the JSON error for a line that does not parse and prints; an uncaught exception iff the value is not an object, the method is unhashable and truthy, or the unparsed line breaks rich's markup |
| `Protocol.ServeSpec` | main.py:586-610 | the gauges stay in bounds through any sequence of lines; at the end of input every line got one response, after a shutdown or an exception fewer lines did |
| `Protocol.ServeWritesEnvelopes` | main.py:606-609 | every response the loop writes is an envelope with one text item |
| `Protocol.RejectedRequestsKeepGauges` | main.py:589-606 | a sequence of lines none of which names a registered tool leaves stress and boss alert unchanged |
| `Protocol.ShutdownEndsLoop` | main.py:593-595 | when line k is the first to end the loop and it is a shutdown, exactly k responses are written and the loop ends by shutdown |
| `Protocol.LineEnd` | main.py:589-605 | a line ends the loop by shutdown iff it is the shutdown request, and by an exception iff dispatching it raises or it names an unknown tool whose rejection cannot be printed; never as end of input |
| `Protocol.NoLineEndsLoop` | main.py:586-610 | when no line ends the loop, it runs to the end of input and writes exactly one response per line |
| `Protocol.LoopEndsAt` | main.py:586-610 | when line k is the first to end the loop, by shutdown or by an exception, exactly k responses are written and the loop ends the way line k ends it |
| `Protocol.MalformedLineContinues` | main.py:603-609 | a line that is not JSON and whose echo prints gets the JSON error, the gauges stay, and the following lines are served as if it had not been there |
| `Protocol.UnprintableLineCrashes` | main.py:603-605 | a line that is not JSON and whose echo breaks rich's markup ends the loop with no response and the gauges unchanged |
| `Protocol.UnprintableNameCrashes` | main.py:439-441 | an unknown tool name whose echo breaks rich's markup ends the loop with no response and the gauges unchanged |
| `Protocol.FreshBasicCall` | main.py:462-504 | from stress 0 and boss alert 0, a basic tool leaves stress at 0 and boss alert at 0 or 1 unless a bad dinner or leave_work fires |
| `Protocol.ToolCallAlertSwing` | main.py:477-504 | one tool call raises boss alert by at most 3 and lowers it by at most 1 |
| `Agent.AgentState.constructor` | main.py:374-382 | both gauges start at 0, both timers start at the given time, and the configured alertness and cooldown are kept |
| `Agent.AgentState.ExecuteTool` | main.py:437-565 | keeps the gauges in bounds and leaves exactly the gauges and response of `ToolCall`, no response when printing the rejection raises; an unknown name changes nothing |
| `Agent.AgentState.LockedBlock` | main.py:456-508 | the locked block, run step by step on the fields, keeps the gauges in bounds and produces exactly the outcome of `LockedUpdate` on the gauges it found |
| `Agent.AgentState.SurpriseEvent` | main.py:482-504 | applies to the fields exactly the event `EventOf` selects, and nothing when no event happens |
| `Agent.AgentState.HandleLine` | main.py:596-605 | a line that neither stops nor crashes in dispatch gets the error envelope without a gauge change, or runs the named tool, leaving exactly what `Respond` gives |
| `Agent.AgentState.StressTick` | main.py:398-408 | stress rises by exactly 1 iff a full 60 seconds have passed and it was below 100; the timer restarts whenever 60 seconds have passed, even at 100; boss alert is outside the frame |
| `Agent.AgentState.CooldownTick` | main.py:420-430 | boss alert falls by exactly 1 iff the cooldown has passed and it was above 0; the timer restarts whenever the cooldown has passed; stress is outside the frame |
| `Agent.StressUpdates` | main.py:394-408 | the stress tick folded over any wake-up times keeps stress in bounds, raises it by exactly the number of increments, never moves the timer back, and moves it by at least 60 seconds per increment |
| `Agent.CooldownUpdates` | main.py:416-430 | the cooldown tick folded over any wake-up times keeps boss alert in bounds and lowers it by exactly the number of decrements; with a non-negative cooldown the timer never moves back and moves by at least one cooldown per decrement |
| `Agent.AgentState.RunStressUpdater` | main.py:393-408 | the loop over any wake-up times leaves exactly the stress, timer and increment count of `StressUpdates` on the old state |
| `Agent.AgentState.RunBossCooldown` | main.py:415-430 | the loop over any wake-up times leaves exactly the boss alert, timer and decrement count of `CooldownUpdates` on the old state |
| `Agent.AgentState.Serve` | main.py:584-610 | the loop over the input lines leaves exactly the gauges, responses and end of `ServeSpec` |
| `Cli.ValidateArgs` | main.py:639-645 | accepted iff the alertness is within 0..100 and the cooldown is at least 1; an out-of-range alertness is reported first |
| `Cli.RunServer` | main.py:623-655 | invalid arguments exit with status 1 and no response; otherwise the loop runs from stress 0 and boss alert 0 and the exit status is nonzero exactly when an exception ended it |

## Left out

- Presentation on standard error: banner, ASCII animations, status panels, colours and every message printed there. The `boss_alert_increased` flag only chooses such a message; it is kept in `Outcome.alertIncreased`.
- The flavor, summary and failure text tables and the `random.choice` among their strings: a tool keeps only its level, and a response carries the summary key (or failure), the final gauges, the event and the penalty notice instead of text.
- Message strings in general: errors are the constructors `UnknownTool`, `MissingMethod` and `BadJson`; the `line.strip()` in the JSON error is not modelled (the raw line is carried).
- JSON parsing and printing, standard input and output: a line is an abstract `Request`, a response an `Envelope` value.
- Threads and the lock: each locked block is one atomic method; interleavings of the background loops with the request loop are not modelled, and `Serve` runs without ticks in between.
- `time.sleep`, the animation and penalty delays themselves, and the float `total_seconds()`: time is whole seconds passed in as integers.
- Floating-point probabilities: each comparison with `random.random()` is a whole-percent roll; the boundary case of a draw exactly equal to the probability is not distinguished.
- `KeyboardInterrupt` and `BrokenPipeError` handling at the top level, and argparse's own parsing (only its range checks are kept).
- Agent.CooldownUpdates: the spacing bound between decrements is stated only for a non-negative cooldown; the start-up checks guarantee at least one second.
