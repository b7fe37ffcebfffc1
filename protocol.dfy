/**
 * One line of standard input as a request, the response envelope written
 * back, the dispatch on the request's "method" field, and the request loop
 * as a function of the gauges, the lines and the draws of each line.
 */
module Protocol {
  import opened Wrappers
  import opened Gauges
  import opened Tools

  /**
   * The value of the "method" field of a request object. For a string,
   * `printable` says whether rich's markup parser accepts the unknown-tool
   * error line `[bold red]...[/bold red]` with the name inside it; a closing
   * tag that matches no open tag, as in the name "[/x]", makes
   * `console.print` raise `MarkupError`.
   */
  datatype MethodField =
    | Absent                                            // missing, or JSON null
    | Text(name: string, printable: bool)
    | NonText(truthy: bool, hashable: bool, shown: string)

  /**
   * A line of input, as far as `json.loads` and `.get("method")` see it. For
   * a line that is not JSON, `printable` says whether rich's markup parser
   * accepts the error line `[red]...[/red]` that echoes it.
   */
  datatype Request =
    | Malformed(line: string, printable: bool)          // json.loads raises JSONDecodeError
    | NotAnObject                                       // valid JSON without a `.get` method
    | Object(field: MethodField)

  /** The shutdown request, `{"method": "shutdown"}`. */
  predicate IsShutdown(req: Request) {
    req.Object? && req.field.Text? && req.field.name == "shutdown"
  }

  datatype Message =
    | ToolResult(report: Report)
    | UnknownTool(name: string)
    | MissingMethod
    | BadJson(line: string)

  datatype ContentItem = ContentItem(kind: string, text: Message)

  /** `{"content": [{"type": ..., "text": ...}]}` */
  datatype Envelope = Envelope(content: seq<ContentItem>)

  /** `_format_mcp_response`: one text item carrying the message. */
  function FormatResponse(m: Message): (e: Envelope)
    ensures |e.content| == 1 && e.content[0].kind == "text"
    ensures MessageOf(e) == Some(m)
  {
    Envelope([ContentItem("text", m)])
  }

  /** Reads the message back out of a well-shaped envelope. */
  function MessageOf(e: Envelope): Option<Message> {
    if |e.content| == 1 && e.content[0].kind == "text" then Some(e.content[0].text) else None
  }

  /** The tier of a registered tool, or None for a name the registry does not hold. */
  function LookupTier(name: string): (t: Option<Tier>)
    ensures t.Some? <==> name in Registry
    ensures t.Some? ==> t.value == TierOf(Registry[name])
  {
    if name in Registry then Some(TierOf(Registry[name])) else None
  }

  /** The gauges a line leaves, and its response; None when an exception ends the loop first. */
  datatype Handled = Handled(gauges: Gauges, reply: Option<Message>)

  /**
   * `execute_tool` as a function: an unknown name is rejected without
   * touching the gauges, and printing that rejection raises when the name
   * breaks rich's markup; a registered one runs the locked update and
   * reports the gauges it leaves.
   */
  function ToolCall(g: Gauges, alertnessPct: int, name: string, printable: bool, d: Draws): (h: Handled)
    requires InBounds(g)
    ensures InBounds(h.gauges)
    ensures name !in Registry ==> h.gauges == g
    ensures h.reply.None? <==> name !in Registry && !printable
    ensures name !in Registry && printable ==> h.reply == Some(UnknownTool(name))
    ensures name in Registry ==> h.reply.Some? && h.reply.value.ToolResult?
    ensures name in Registry ==>
      var o := LockedUpdate(g, TierOf(Registry[name]), alertnessPct, d);
      h == Handled(o.after, Some(ToolResult(ReportOf(o))))
    ensures name in Registry ==>
      h.reply.value.report.stress == h.gauges.stress && h.reply.value.report.bossAlert == h.gauges.bossAlert
    ensures name in Registry ==>
      (h.reply.value.report.penaltyDelaySec.Some? <==> g.bossAlert == MaxBossAlertLevel)
  {
    match LookupTier(name)
    case None => Handled(g, if printable then Some(UnknownTool(name)) else None)
    case Some(t) =>
      var o := LockedUpdate(g, t, alertnessPct, d);
      Handled(o.after, Some(ToolResult(ReportOf(o))))
  }

  datatype Action = Stop | Reply(message: Message) | Run(name: string, printable: bool) | Crash

  /**
   * What the request loop does with one line. A non-object JSON value, an
   * unhashable "method" value and a non-JSON line whose echo breaks rich's
   * markup raise exceptions nothing catches, so the loop ends there; a falsy
   * "method" is reported as missing; a truthy non-string value is never a
   * registry key, so `execute_tool` rejects it as unknown (its text, a JSON
   * number or `true`, holds no markup).
   */
  function Dispatch(req: Request): (a: Action)
    ensures a == Stop <==> IsShutdown(req)
    ensures a == Crash <==>
      req == NotAnObject || (req.Malformed? && !req.printable) ||
      (req.Object? && req.field.NonText? && req.field.truthy && !req.field.hashable)
    ensures a.Run? <==> req.Object? && req.field.Text? && req.field.name != "shutdown" && req.field.name != ""
    ensures a.Run? ==> a.name == req.field.name && a.printable == req.field.printable
    ensures a == Reply(MissingMethod) <==>
      req.Object? && (req.field.Absent? || (req.field.Text? && req.field.name == "") || (req.field.NonText? && !req.field.truthy))
    ensures req.Malformed? && req.printable ==> a == Reply(BadJson(req.line))
    ensures req.Object? && req.field.NonText? && req.field.truthy && req.field.hashable ==>
      a == Reply(UnknownTool(req.field.shown))
  {
    match req
    case Malformed(line, printable) => if printable then Reply(BadJson(line)) else Crash
    case NotAnObject => Crash
    case Object(Absent) => Reply(MissingMethod)
    case Object(Text(name, printable)) =>
      if name == "shutdown" then Stop
      else if name != "" then Run(name, printable)
      else Reply(MissingMethod)
    case Object(NonText(truthy, hashable, shown)) =>
      if !truthy then Reply(MissingMethod)
      else if !hashable then Crash
      else Reply(UnknownTool(shown))
  }

  datatype End = EndOfInput | ShutdownRequested | Crashed

  /**
   * How one line ends the loop, if it does: the shutdown request, an
   * exception raised while dispatching it, or one raised while `execute_tool`
   * prints its rejection of an unknown name.
   */
  function LineEnd(req: Request): (e: Option<End>)
    ensures e == Some(ShutdownRequested) <==> IsShutdown(req)
    ensures e == Some(Crashed) <==>
      Dispatch(req) == Crash || (Dispatch(req).Run? && Dispatch(req).name !in Registry && !Dispatch(req).printable)
    ensures e != Some(EndOfInput)
  {
    match Dispatch(req)
    case Stop => Some(ShutdownRequested)
    case Crash => Some(Crashed)
    case Run(name, printable) => if name !in Registry && !printable then Some(Crashed) else None
    case Reply(_) => None
  }

  /** What a line that is neither a shutdown nor a dispatch crash leaves: the gauges, and a response unless one is raised. */
  function Respond(g: Gauges, alertnessPct: int, req: Request, d: Draws): (h: Handled)
    requires InBounds(g) && (Dispatch(req).Reply? || Dispatch(req).Run?)
    ensures InBounds(h.gauges)
    ensures h.reply.None? <==> LineEnd(req).Some?
    ensures Dispatch(req).Reply? ==> h == Handled(g, Some(Dispatch(req).message))
    ensures Dispatch(req).Run? ==> h == ToolCall(g, alertnessPct, Dispatch(req).name, Dispatch(req).printable, d)
  {
    match Dispatch(req)
    case Reply(m) => Handled(g, Some(m))
    case Run(name, printable) => ToolCall(g, alertnessPct, name, printable, d)
  }

  datatype Served = Served(gauges: Gauges, outputs: seq<Envelope>, end: End)

  /**
   * The request loop over the remaining lines of input, `draws[i]` being the
   * random draws the i-th line's tool call would use. Every line before the
   * one that ends the loop gets exactly one response.
   */
  function ServeSpec(g: Gauges, alertnessPct: int, reqs: seq<Request>, draws: seq<Draws>): (r: Served)
    requires InBounds(g) && |draws| == |reqs|
    ensures InBounds(r.gauges)
    ensures r.end == EndOfInput ==> |r.outputs| == |reqs|
    ensures r.end != EndOfInput ==> |r.outputs| < |reqs|
    decreases |reqs|
  {
    if reqs == [] then Served(g, [], EndOfInput)
    else if Dispatch(reqs[0]) == Stop then Served(g, [], ShutdownRequested)
    else if Dispatch(reqs[0]) == Crash then Served(g, [], Crashed)
    else
      var h := Respond(g, alertnessPct, reqs[0], draws[0]);
      if h.reply.None? then Served(h.gauges, [], Crashed)
      else
        var rest := ServeSpec(h.gauges, alertnessPct, reqs[1..], draws[1..]);
        Served(rest.gauges, [FormatResponse(h.reply.value)] + rest.outputs, rest.end)
  }

  /** One turn of the loop, from line i on: stop, crash, or one response and the lines after it. */
  lemma ServeUnfold(g: Gauges, alertnessPct: int, reqs: seq<Request>, draws: seq<Draws>, i: nat)
    requires InBounds(g) && |draws| == |reqs| && i <= |reqs|
    ensures i == |reqs| ==> ServeSpec(g, alertnessPct, reqs[i..], draws[i..]) == Served(g, [], EndOfInput)
    ensures i < |reqs| && Dispatch(reqs[i]) == Stop ==>
      ServeSpec(g, alertnessPct, reqs[i..], draws[i..]) == Served(g, [], ShutdownRequested)
    ensures i < |reqs| && Dispatch(reqs[i]) == Crash ==>
      ServeSpec(g, alertnessPct, reqs[i..], draws[i..]) == Served(g, [], Crashed)
    ensures i < |reqs| && (Dispatch(reqs[i]).Reply? || Dispatch(reqs[i]).Run?) ==>
      var h := Respond(g, alertnessPct, reqs[i], draws[i]);
      h.reply.None? ==> ServeSpec(g, alertnessPct, reqs[i..], draws[i..]) == Served(h.gauges, [], Crashed)
    ensures i < |reqs| && (Dispatch(reqs[i]).Reply? || Dispatch(reqs[i]).Run?) ==>
      var h := Respond(g, alertnessPct, reqs[i], draws[i]);
      var rest := ServeSpec(h.gauges, alertnessPct, reqs[i + 1..], draws[i + 1..]);
      h.reply.Some? ==>
      ServeSpec(g, alertnessPct, reqs[i..], draws[i..]) == Served(rest.gauges, [FormatResponse(h.reply.value)] + rest.outputs, rest.end)
  {
  }

  /** Each response is one text item, as `_format_mcp_response` builds it. */
  predicate AllWellFormed(outputs: seq<Envelope>) {
    forall i :: 0 <= i < |outputs| ==> MessageOf(outputs[i]).Some?
  }

  /** Every response the loop writes is an envelope with exactly one text item. */
  lemma {:induction false} ServeWritesEnvelopes(g: Gauges, alertnessPct: int, reqs: seq<Request>, draws: seq<Draws>)
    requires InBounds(g) && |draws| == |reqs|
    ensures AllWellFormed(ServeSpec(g, alertnessPct, reqs, draws).outputs)
    decreases |reqs|
  {
    if reqs != [] && Dispatch(reqs[0]) != Stop && Dispatch(reqs[0]) != Crash {
      var h := Respond(g, alertnessPct, reqs[0], draws[0]);
      if h.reply.Some? {
        ServeWritesEnvelopes(h.gauges, alertnessPct, reqs[1..], draws[1..]);
        FirstWellFormed(FormatResponse(h.reply.value), ServeSpec(h.gauges, alertnessPct, reqs[1..], draws[1..]).outputs);
      }
    }
  }

  lemma FirstWellFormed(e: Envelope, rest: seq<Envelope>)
    requires MessageOf(e).Some? && AllWellFormed(rest)
    ensures AllWellFormed([e] + rest)
  {
  }

  /** A line that can reach the gauges: a registered tool name. */
  predicate RunsTool(req: Request) {
    Dispatch(req).Run? && Dispatch(req).name in Registry
  }

  /** Unknown tools, missing methods and malformed lines never change the gauges. */
  lemma {:induction false} RejectedRequestsKeepGauges(g: Gauges, alertnessPct: int, reqs: seq<Request>, draws: seq<Draws>)
    requires InBounds(g) && |draws| == |reqs|
    requires forall i :: 0 <= i < |reqs| ==> !RunsTool(reqs[i])
    ensures ServeSpec(g, alertnessPct, reqs, draws).gauges == g
    decreases |reqs|
  {
    if reqs != [] {
      assert !RunsTool(reqs[0]);
      var rest := reqs[1..];
      assert forall i :: 0 <= i < |rest| ==> !RunsTool(rest[i]) by {
        forall i | 0 <= i < |rest| ensures !RunsTool(rest[i]) {
          assert rest[i] == reqs[i + 1];
        }
      }
      RejectedRequestsKeepGauges(g, alertnessPct, rest, draws[1..]);
    }
  }

  /**
   * The loop ends at the first line that ends it, however it does: every
   * line before it gets one response, it and the lines after it get none.
   */
  lemma {:induction false} LoopEndsAt(g: Gauges, alertnessPct: int, reqs: seq<Request>, draws: seq<Draws>, k: nat)
    requires InBounds(g) && |draws| == |reqs|
    requires k < |reqs| && LineEnd(reqs[k]).Some?
    requires forall i :: 0 <= i < k ==> LineEnd(reqs[i]).None?
    ensures ServeSpec(g, alertnessPct, reqs, draws).end == LineEnd(reqs[k]).value
    ensures |ServeSpec(g, alertnessPct, reqs, draws).outputs| == k
    decreases k
  {
    if k > 0 {
      assert LineEnd(reqs[0]).None?;
      var rest := reqs[1..];
      assert forall i :: 0 <= i < k - 1 ==> LineEnd(rest[i]).None? by {
        forall i | 0 <= i < k - 1 ensures LineEnd(rest[i]).None? {
          assert rest[i] == reqs[i + 1];
        }
      }
      var h := Respond(g, alertnessPct, reqs[0], draws[0]);
      LoopEndsAt(h.gauges, alertnessPct, rest, draws[1..], k - 1);
    }
  }

  /** When no line ends the loop, it runs to the end of input and every line gets one response. */
  lemma {:induction false} NoLineEndsLoop(g: Gauges, alertnessPct: int, reqs: seq<Request>, draws: seq<Draws>)
    requires InBounds(g) && |draws| == |reqs|
    requires forall i :: 0 <= i < |reqs| ==> LineEnd(reqs[i]).None?
    ensures ServeSpec(g, alertnessPct, reqs, draws).end == EndOfInput
    ensures |ServeSpec(g, alertnessPct, reqs, draws).outputs| == |reqs|
    decreases |reqs|
  {
    if reqs != [] {
      assert LineEnd(reqs[0]).None?;
      var rest := reqs[1..];
      assert forall i :: 0 <= i < |rest| ==> LineEnd(rest[i]).None? by {
        forall i | 0 <= i < |rest| ensures LineEnd(rest[i]).None? {
          assert rest[i] == reqs[i + 1];
        }
      }
      var h := Respond(g, alertnessPct, reqs[0], draws[0]);
      NoLineEndsLoop(h.gauges, alertnessPct, rest, draws[1..]);
    }
  }

  /** Every line before a shutdown gets one response; the shutdown line gets none and ends the loop. */
  lemma ShutdownEndsLoop(g: Gauges, alertnessPct: int, reqs: seq<Request>, draws: seq<Draws>, k: nat)
    requires InBounds(g) && |draws| == |reqs|
    requires k < |reqs| && IsShutdown(reqs[k])
    requires forall i :: 0 <= i < k ==> LineEnd(reqs[i]).None?
    ensures ServeSpec(g, alertnessPct, reqs, draws).end == ShutdownRequested
    ensures |ServeSpec(g, alertnessPct, reqs, draws).outputs| == k
  {
    LoopEndsAt(g, alertnessPct, reqs, draws, k);
  }

  /** A line that is not JSON but prints gets one error response, the gauges stay, and the loop goes on. */
  lemma MalformedLineContinues(g: Gauges, alertnessPct: int, line: string, d: Draws, reqs: seq<Request>, draws: seq<Draws>)
    requires InBounds(g) && |draws| == |reqs|
    ensures var rest := ServeSpec(g, alertnessPct, reqs, draws);
      ServeSpec(g, alertnessPct, [Malformed(line, true)] + reqs, [d] + draws) ==
      Served(rest.gauges, [FormatResponse(BadJson(line))] + rest.outputs, rest.end)
  {
  }

  /** A non-JSON line whose echo breaks rich's markup ends the loop with no response and the gauges as they were. */
  lemma UnprintableLineCrashes(g: Gauges, alertnessPct: int, line: string, d: Draws, reqs: seq<Request>, draws: seq<Draws>)
    requires InBounds(g) && |draws| == |reqs|
    ensures ServeSpec(g, alertnessPct, [Malformed(line, false)] + reqs, [d] + draws) == Served(g, [], Crashed)
  {
  }

  /** So does an unknown tool name that breaks rich's markup, raised while `execute_tool` prints its rejection. */
  lemma UnprintableNameCrashes(g: Gauges, alertnessPct: int, name: string, d: Draws, reqs: seq<Request>, draws: seq<Draws>)
    requires InBounds(g) && |draws| == |reqs|
    requires name !in Registry && name != "" && name != "shutdown"
    ensures ServeSpec(g, alertnessPct, [Object(Text(name, false))] + reqs, [d] + draws) == Served(g, [], Crashed)
  {
  }

  /**
   * From stress 0 and boss alert 0, a basic tool leaves stress at 0 and boss
   * alert at 0 or 1 unless a bad dinner or leave_work fires: a bad dinner
   * leaves stress at 30, leave_work can take boss alert to 3.
   */
  lemma FreshBasicCall(name: string, printable: bool, alertnessPct: int, d: Draws)
    requires name in Registry && TierOf(Registry[name]) == Basic
    requires EventOf(d) != Some(BadDinner) && EventOf(d) != Some(LeaveWork)
    ensures var h := ToolCall(Gauges(0, 0), alertnessPct, name, printable, d);
      h.gauges.stress == 0 && (h.gauges.bossAlert == 0 || h.gauges.bossAlert == 1)
  {
  }

  /** In one tool call boss alert rises by at most three (one draw, then leave_work) and falls by at most one. */
  lemma ToolCallAlertSwing(g: Gauges, alertnessPct: int, name: string, printable: bool, d: Draws)
    requires InBounds(g)
    ensures var h := ToolCall(g, alertnessPct, name, printable, d);
      g.bossAlert - GoodDinnerAlertDrop <= h.gauges.bossAlert <= g.bossAlert + 1 + LeaveWorkAlertRise
  {
  }
}
