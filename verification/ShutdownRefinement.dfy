/**
 The methods of the shutdown do what the protocol does: the supervisor while nobody interrupts it, the loop of `run` in
 every run.
 */
module ShutdownRefinement {
  import opened Text
  import opened Paths
  import opened Shutdown
  import opened ShutdownSafety
  import opened ServerLoop

  /** The supervisor's steps at the health check server, from its check on. */
  function HealthSteps(s: State, health: Answer): seq<Action> {
    if s.sup.branch == OnHealth then
      []
    else if s.health.running then
      [Supervise(s.now), ShutdownReturns(health.error, s.now + health.duration)]
    else
      [Supervise(s.now)]
  }

  /** The supervisor's steps at the API server, from its check on. */
  function ApiSteps(s: State, api: Answer): seq<Action> {
    if s.sup.branch == OnApi then
      []
    else
      [Supervise(s.now)] + (if s.api.running then SleepSteps(s, api) else [])
  }

  function SleepSteps(s: State, api: Answer): seq<Action> {
    var issued := s.now + Pause(s.delay);
    [Supervise(issued), ShutdownReturns(api.error, issued + api.duration)]
  }

  function HealthDone(s: State, health: Answer): State {
    var tells := TellsHealth(s.sup.branch, s.health.running);
    if tells then
      var end := s.now + health.duration;
      s.(now := end,
         sup := s.sup.(pc := AfterHealth(s.sup.branch), healthIssued := Some(s.now), healthDone := Some(end),
                       healthError := health.error, errors := AppendError(s.sup.errors, health.error)))
    else
      s.(sup := s.sup.(pc := if s.sup.branch == OnHealth then CheckApi else AfterHealth(s.sup.branch)))
  }

  lemma HealthRefines(s: State, health: Answer) returns (run: seq<State>)
    requires s.sup.pc == if s.sup.branch == OnHealth then CheckApi else CheckHealth
    ensures IsPath(Next, run, HealthSteps(s, health))
    ensures run[0] == s && run[|run| - 1] == HealthDone(s, health)
  {
    run := [s];
    if s.sup.branch != OnHealth {
      var checked := Step(s, Supervise(s.now));
      run := [s, checked];
      if s.health.running {
        run := [s, checked, Step(checked, ShutdownReturns(health.error, s.now + health.duration))];
      }
    }
  }

  function ApiDone(s: State, api: Answer): State {
    if TellsApi(s.sup.branch, s.api.running) then SleepDone(s, api) else s.(sup := s.sup.(pc := Releasing))
  }

  function SleepDone(s: State, api: Answer): State {
    var issued := s.now + Pause(s.delay);
    s.(now := issued + api.duration,
       sup := s.sup.(pc := Releasing, apiIssued := Some(issued), apiError := api.error,
                     errors := AppendError(s.sup.errors, api.error)))
  }

  lemma ApiRefines(s: State, api: Answer) returns (run: seq<State>)
    requires s.sup.pc == if s.sup.branch == OnApi then Releasing else CheckApi
    ensures IsPath(Next, run, ApiSteps(s, api))
    ensures run[0] == s && run[|run| - 1] == ApiDone(s, api)
  {
    run := [s];
    if s.sup.branch != OnApi {
      var checked := CheckApiStep(s, api);
      run := [s, checked];
      if s.api.running {
        var rest := SleepRefines(checked, api);
        run := Continue(Next, run, [Supervise(s.now)], rest, SleepSteps(s, api));
      }
    }
  }

  lemma CheckApiStep(s: State, api: Answer) returns (checked: State)
    requires s.sup.pc.CheckApi?
    ensures IsPath(Next, [s, checked], [Supervise(s.now)])
    ensures if s.api.running then
              checked.sup.pc == Sleeping(checked.now)
              && SleepSteps(checked, api) == SleepSteps(s, api) && SleepDone(checked, api) == SleepDone(s, api)
            else
              checked == s.(sup := s.sup.(pc := Releasing))
  {
    checked := Step(s, Supervise(s.now));
  }

  lemma SleepRefines(s: State, api: Answer) returns (run: seq<State>)
    requires s.sup.pc == Sleeping(s.now)
    ensures IsPath(Next, run, SleepSteps(s, api)) && run[0] == s && run[2] == SleepDone(s, api)
  {
    var issued := s.now + Pause(s.delay);
    var told := Step(s, Supervise(issued));
    run := [s, told, Step(told, ShutdownReturns(api.error, issued + api.duration))];
  }

  /** The shutdowns in the supervisor's history, the one of the API server having ended at `end`. */
  function CallsOf(sup: Supervisor, end: int): seq<Call> {
    var first := if sup.healthIssued.Some? && sup.healthDone.Some?
                 then [Call(Health, sup.healthIssued.value, sup.healthDone.value)] else [];
    if sup.apiIssued.Some? then first + [Call(Api, sup.apiIssued.value, end)] else first
  }

  function LockedState(s: State): State {
    s.(sup := s.sup.(pc := if s.sup.branch == OnHealth then CheckApi else CheckHealth), lock := s.lock.(reader := true))
  }

  /** From the choice of the branch to the report, with nobody interrupting. */
  function SupervisorSteps(s: State, health: Answer, api: Answer): seq<Action> {
    var checked := HealthDone(LockedState(s), health);
    var end := ApiDone(checked, api).now;
    [Supervise(s.now)] + HealthSteps(LockedState(s), health) + ApiSteps(checked, api) + [Supervise(end), Supervise(end)]
  }

  lemma Locked(s: State)
    requires s.sup.pc.Locking? && s.lock.writer.None?
    ensures IsPath(Next, [s, LockedState(s)], [Supervise(s.now)])
  {
  }

  lemma Reports(s: State) returns (run: seq<State>)
    requires s.sup.pc.Releasing? && s.outbox.None?
    ensures IsPath(Next, run, [Supervise(s.now), Supervise(s.now)]) && run[0] == s
    ensures run[2].sup == s.sup.(pc := Finished) && run[2].now == s.now
    ensures run[2].outbox == Some(WithContextError(s.sup.branch, s.sup.errors))
  {
    var released := Step(s, Supervise(s.now));
    run := [s, released, Step(released, Supervise(s.now))];
  }

  /** The supervisor has chosen, and nothing but the received error lies behind it. */
  ghost predicate FreshChoice(s: State) {
    && s.sup.pc.Locking? && s.outbox.None?
    && s.sup.errors == AppendError([], s.sup.received)
    && s.sup.healthIssued.None? && s.sup.healthDone.None? && s.sup.apiIssued.None?
    && (s.sup.branch == OnContext ==> s.sup.received.None?)
  }

  lemma ChoiceIsFresh(s: State)
    requires Inv(s) && s.sup.pc.Locking?
    ensures FreshChoice(s)
  {
  }

  /** The supervisor's errors before its report, against the method's result. */
  lemma ErrorsAgree(s: State, health: Answer, api: Answer)
    requires FreshChoice(s)
    ensures var end := ApiDone(HealthDone(LockedState(s), health), api);
            var ending := Supervised(s.sup.branch, s.sup.received, s.health.running, s.api.running, s.delay, [], s.now,
                                     health, api);
            WithContextError(end.sup.branch, end.sup.errors) == ending.errors
  {
  }

  /** The same for the shutdowns and the clock. */
  lemma CallsAgree(s: State, health: Answer, api: Answer)
    requires FreshChoice(s)
    ensures var end := ApiDone(HealthDone(LockedState(s), health), api);
            var ending := Supervised(s.sup.branch, s.sup.received, s.health.running, s.api.running, s.delay, [], s.now,
                                     health, api);
            end.now == ending.now && CallsOf(end.sup, end.now) == ending.calls
  {
  }

  lemma PathOfSupervisor(s: State, health: Answer, api: Answer) returns (run: seq<State>)
    requires s.sup.pc.Locking? && s.lock.writer.None? && s.outbox.None?
    ensures IsPath(Next, run, SupervisorSteps(s, health, api)) && run[0] == s
    ensures var before, end := ApiDone(HealthDone(LockedState(s), health), api), run[|run| - 1];
            && end.sup == before.sup.(pc := Finished) && end.now == before.now
            && end.outbox == Some(WithContextError(before.sup.branch, before.sup.errors))
  {
    var checked := HealthDone(LockedState(s), health);
    var before := ApiDone(checked, api);
    var start := [Supervise(s.now)] + HealthSteps(LockedState(s), health);
    run := PathToCheck(s, health);
    var rest := ApiRefines(checked, api);
    run := Continue(Next, run, start, rest, ApiSteps(checked, api));
    rest := Reports(before);
    run := Continue(Next, run, start + ApiSteps(checked, api), rest, [Supervise(before.now), Supervise(before.now)]);
  }

  lemma PathToCheck(s: State, health: Answer) returns (run: seq<State>)
    requires s.sup.pc.Locking? && s.lock.writer.None?
    ensures IsPath(Next, run, [Supervise(s.now)] + HealthSteps(LockedState(s), health)) && run[0] == s
    ensures run[|run| - 1] == HealthDone(LockedState(s), health)
  {
    Locked(s);
    run := HealthRefines(LockedState(s), health);
    run := Continue(Next, [s, LockedState(s)], [Supervise(s.now)], run, HealthSteps(LockedState(s), health));
  }

  /**
   From a reachable state in which it has chosen and can lock, the supervisor can go to its report without interruption,
   and then its report, its shutdowns with their times and the clock are those of the method.
   */
  lemma SuperviseRefines(s: State, health: Answer, api: Answer) returns (run: seq<State>)
    requires Inv(s) && s.sup.pc.Locking? && s.lock.writer.None?
    ensures IsPath(Next, run, SupervisorSteps(s, health, api)) && run[0] == s
    ensures var end := run[|run| - 1];
            var ending := Supervised(s.sup.branch, s.sup.received, s.health.running, s.api.running, s.delay, [], s.now,
                                     health, api);
            && end.sup.pc.Finished? && end.outbox == Some(ending.errors)
            && end.now == ending.now && CallsOf(end.sup, end.now) == ending.calls
  {
    ChoiceIsFresh(s);
    ErrorsAgree(s, health, api);
    CallsAgree(s, health, api);
    run := PathOfSupervisor(s, health, api);
  }

  /** What the loop of `run` sees of an action. */
  function Seen(s: State, a: Action): seq<MainEvent> {
    match a
    case Signal(_) => [Signalled]
    case Receive(_) => if s.outbox.Some? then [Reported(s.outbox.value)] else []
    case _ => []
  }

  /** What the loop of `run` sees of the first `i` actions. */
  function MainEvents(run: seq<State>, actions: seq<Action>, i: nat): seq<MainEvent>
    requires i <= |actions| < |run|
  {
    if i == 0 then [] else MainEvents(run, actions, i - 1) + Seen(run[i - 1], actions[i - 1])
  }

  lemma {:induction false} LoopGoesOn(isSignal: bool, events: seq<MainEvent>, event: MainEvent)
    requires forall k :: 0 <= k < |events| ==> events[k].Signalled?
    ensures LoopResult(isSignal, events).None?
    ensures LoopResult(isSignal, events + [event]) == LoopResult(isSignal || events != [], [event])
    decreases |events|
  {
    if events == [] {
      assert events + [event] == [event];
    } else {
      assert (events + [event])[0] == Signalled && (events + [event])[1..] == events[1..] + [event];
      assert events[0].Signalled?;
      LoopGoesOn(true, events[1..], event);
    }
  }

  /** `run` has the result of its loop over these events, or has had nothing but signals. */
  ghost predicate LoopAt(s: State, events: seq<MainEvent>) {
    && s.verdict == LoopResult(false, events)
    && (s.verdict.None? ==> s.isSignal == (events != []) && forall k :: 0 <= k < |events| ==> events[k].Signalled?)
  }

  lemma LoopStep(s: State, a: Action, events: seq<MainEvent>)
    requires Enabled(s, a) && LoopAt(s, events) && (s.canceled <==> s.isSignal) && (s.verdict.Some? ==> s.outbox.None?)
    ensures LoopAt(Step(s, a), events + Seen(s, a))
  {
    if a.Signal? || a.Receive? {
      LoopGoesOn(false, events, Seen(s, a)[0]);
    } else {
      MainWaits(s, a);
      assert events + [] == events;
    }
  }

  lemma MainWaits(s: State, a: Action)
    requires Enabled(s, a) && !a.Signal? && !a.Receive?
    ensures Step(s, a).verdict == s.verdict && Step(s, a).isSignal == s.isSignal
  {
  }

  /** In every run, whatever else happens in between, `run` has the result of its loop over what it has seen so far. */
  lemma {:induction false} RunLoopRefines(run: seq<State>, actions: seq<Action>, delay: int, healthEnabled: bool,
                                          i: nat)
    requires IsRun(run, actions, delay, healthEnabled) && i < |run|
    ensures LoopAt(run[i], MainEvents(run, actions, i))
  {
    if i == 0 {
    } else {
      RunLoopRefines(run, actions, delay, healthEnabled, i - 1);
      RunKeeps(run, actions, delay, healthEnabled, i - 1);
      LoopStep(run[i - 1], actions[i - 1], MainEvents(run, actions, i - 1));
    }
  }
}
