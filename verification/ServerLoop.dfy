/**
 The straight-line parts of the shutdown: what the supervisor does once its select has chosen, under the read lock that
 keeps the running flags fixed, and the select loop of `run`.
 */
module ServerLoop {
  import opened Text
  import opened Shutdown

  /** How a call of `Shutdown` ends: its error, if any, and the time it takes. */
  datatype Answer = Answer(error: Option<Error>, duration: nat)

  /** A call of `Shutdown` on one of the servers, with the times of its start and end. */
  datatype Call = Call(which: Which, from: int, to: int)

  function Pause(delay: int): nat {
    if delay > 0 then delay else 0
  }

  predicate TellsHealth(branch: Branch, running: bool) {
    branch != OnHealth && running
  }

  predicate TellsApi(branch: Branch, running: bool) {
    branch != OnApi && running
  }

  function AppendCall(calls: seq<Call>, made: bool, call: Call): seq<Call> {
    if made then calls + [call] else calls
  }

  /** The report, the shutdowns made so far, each with its times, and the time at the end. */
  datatype Ending = Ending(errors: seq<Error>, calls: seq<Call>, now: int)

  /** What is left of the shutdown once the select has chosen, when nothing else takes time. */
  function Supervised(branch: Branch, received: Option<Error>, hcRunning: bool, srvRunning: bool, delay: int,
                      calls: seq<Call>, start: int,
                      health: Answer, api: Answer): Ending {
    var tellsHealth, tellsApi := TellsHealth(branch, hcRunning), TellsApi(branch, srvRunning);
    var mid := start + (if tellsHealth then health.duration else 0);
    var end := mid + (if tellsApi then Pause(delay) + api.duration else 0);
    Ending(Report(branch, received, if tellsHealth then health.error else None, if tellsApi then api.error else None),
           AppendCall(AppendCall(calls, tellsHealth, Call(Health, start, mid)), tellsApi,
                      Call(Api, mid + Pause(delay), end)),
           end)
  }

  class HttpServers {
    const shutdownDelay: int
    var srvRunning: bool
    var hcRunning: bool
    var now: int
    var calls: seq<Call>

    constructor (shutdownDelay: int, now: int)
      ensures this.shutdownDelay == shutdownDelay && this.now == now
      ensures !srvRunning && !hcRunning && calls == []
    {
      this.shutdownDelay, this.now := shutdownDelay, now;
      srvRunning, hcRunning, calls := false, false, [];
    }

    method HcShutdown(answer: Answer) returns (error: Option<Error>)
      modifies this`now, this`calls
      ensures error == answer.error
      ensures now == old(now) + answer.duration
      ensures calls == old(calls) + [Call(Health, old(now), now)]
    {
      var start := now;
      now := now + answer.duration;
      calls := calls + [Call(Health, start, now)];
      return answer.error;
    }

    method ApiShutdown(answer: Answer) returns (error: Option<Error>)
      modifies this`now, this`calls
      ensures error == answer.error
      ensures now == old(now) + Pause(shutdownDelay) + answer.duration
      ensures calls == old(calls) + [Call(Api, old(now) + Pause(shutdownDelay), now)]
    {
      if shutdownDelay > 0 {
        now := now + shutdownDelay;
      }
      var start := now;
      now := now + answer.duration;
      calls := calls + [Call(Api, start, now)];
      return answer.error;
    }

    /** The chosen branch, from the read lock to the report. */
    method Supervise(branch: Branch, received: Option<Error>, health: Answer, api: Answer) returns (errors: seq<Error>)
      requires branch == OnContext ==> received.None?
      modifies this`now, this`calls
      ensures Ending(errors, calls, now) ==
              Supervised(branch, received, hcRunning, srvRunning, shutdownDelay, old(calls), old(now), health, api)
    {
      errors := AppendError([], received);
      match branch {
        case OnContext =>
          if hcRunning {
            var error := HcShutdown(health);
            errors := AppendError(errors, error);
          }
          if srvRunning {
            var error := ApiShutdown(api);
            errors := AppendError(errors, error);
          }
          errors := AppendError(errors, Some(ContextCanceled));
        case OnApi =>
          if hcRunning {
            var error := HcShutdown(health);
            errors := AppendError(errors, error);
          }
        case OnHealth =>
          if srvRunning {
            var error := ApiShutdown(api);
            errors := AppendError(errors, error);
          }
      }
    }
  }

  /** What the select of `run` chooses. */
  datatype MainEvent = Signalled | Reported(errors: seq<Error>)

  /** What `run` returns on the first report; without one it is still waiting. */
  function LoopResult(isSignal: bool, events: seq<MainEvent>): Option<seq<Error>>
    decreases |events|
  {
    if events == [] then
      None
    else
      match events[0]
      case Signalled => LoopResult(true, events[1..])
      case Reported(errors) => Some(Verdict(isSignal, errors, if isSignal then Some(ContextCanceled) else None))
  }

  /** The loop of `run`. */
  method RunLoop(events: seq<MainEvent>) returns (result: Option<seq<Error>>)
    ensures result == LoopResult(false, events)
  {
    var isSignal, context := false, None;
    for i := 0 to |events|
      invariant context == if isSignal then Some(ContextCanceled) else None
      invariant LoopResult(false, events) == LoopResult(isSignal, events[i..])
    {
      match events[i] {
        case Signalled =>
          isSignal := true;
          context := Some(ContextCanceled);
        case Reported(errors) =>
          if !isSignal || |errors| != 1 || Some(errors[0]) != context {
            return Some(errors);
          }
          return Some([]);
      }
    }
    return None;
  }
}
