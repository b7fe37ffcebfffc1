/**
 * Start-up: the range checks on the two command-line arguments, then the
 * server run from fresh gauges to the end of the request loop.
 */
module Cli {
  import opened Wrappers
  import opened Gauges
  import opened Tools
  import opened Protocol
  import opened Agent

  datatype Config = Config(bossAlertness: int, bossAlertnessCooldown: int)

  datatype ArgError = AlertnessOutOfRange(value: int) | CooldownTooShort(value: int)

  /** The alertness must be a percentage and the cooldown at least one second; alertness is checked first. */
  function ValidateArgs(bossAlertness: int, bossAlertnessCooldown: int): (r: Result<Config, ArgError>)
    ensures r.Ok? <==> 0 <= bossAlertness <= 100 && bossAlertnessCooldown >= 1
    ensures r.Ok? ==> r.value == Config(bossAlertness, bossAlertnessCooldown)
    ensures !(0 <= bossAlertness <= 100) ==> r == Err(AlertnessOutOfRange(bossAlertness))
    ensures 0 <= bossAlertness <= 100 && bossAlertnessCooldown < 1 ==> r == Err(CooldownTooShort(bossAlertnessCooldown))
  {
    if !(0 <= bossAlertness <= 100) then Err(AlertnessOutOfRange(bossAlertness))
    else if bossAlertnessCooldown < 1 then Err(CooldownTooShort(bossAlertnessCooldown))
    else Ok(Config(bossAlertness, bossAlertnessCooldown))
  }

  /**
   * The whole process: invalid arguments exit with status 1 before any
   * response; otherwise the request loop runs from stress 0 and boss alert
   * 0, and only an uncaught exception makes the exit status nonzero.
   */
  method RunServer(bossAlertness: int, bossAlertnessCooldown: int, now: int, requests: seq<Request>, draws: seq<Draws>)
    returns (exitStatus: int, outputs: seq<Envelope>)
    requires |draws| == |requests|
    ensures ValidateArgs(bossAlertness, bossAlertnessCooldown).Err? ==> exitStatus == 1 && outputs == []
    ensures ValidateArgs(bossAlertness, bossAlertnessCooldown).Ok? ==>
      var served := ServeSpec(Gauges(0, 0), bossAlertness, requests, draws);
      outputs == served.outputs && (exitStatus == 0 <==> served.end != Crashed)
    ensures exitStatus == 0 || exitStatus == 1
  {
    match ValidateArgs(bossAlertness, bossAlertnessCooldown) {
      case Err(_) =>
        return 1, [];
      case Ok(config) =>
        var state := new AgentState(config.bossAlertness, config.bossAlertnessCooldown, now);
        var end;
        outputs, end := state.Serve(requests, draws);
        exitStatus := if end == Crashed then 1 else 0;
    }
  }
}
