/** The token service object does what the protocol does when no other goroutine takes a step in between. */
module TokenRefinement {
  import opened Text
  import opened Paths
  import opened TokenModel
  import P = TokenProtocol
  import S = TokenService

  function Items(cache: map<string, P.Line>): map<string, Item> {
    map key | key in cache :: cache[key].item
  }

  /** The steps of one update by goroutine `p`: up to the answer, and from there on. */
  function UpdateSteps(p: nat, answer: S.Answer): seq<P.Action> {
    FetchActions(p, answer) + FinishActions(p, answer)
  }

  function FetchActions(p: nat, answer: S.Answer): seq<P.Action> {
    [P.ReadClock(p), P.Enter(p), P.Tick(answer.delay), P.Answer(p, answer.outcome)]
  }

  function FinishActions(p: nat, answer: S.Answer): seq<P.Action> {
    if answer.outcome.Ok? then [P.Store(p), P.Close(p)] else [P.Close(p)]
  }

  /** The steps up to the answer: a fetch of `p` has been made and answered, nothing else has changed. */
  lemma FetchSteps(s: P.State, p: nat, answer: S.Answer) returns (run: seq<P.State>)
    requires p in s.procs && s.procs[p].phase.Updating? && s.procs[p].key !in s.flights
    ensures IsPath(P.Next, run, FetchActions(p, answer)) && run[0] == s
    ensures var t, proc := |s.fetches|, s.procs[p];
            run[4] == s.(now := s.now + answer.delay,
                     flights := s.flights[proc.key := t],
                     fetches := s.fetches + [P.Fetch(proc.args, proc.key, s.now, p, Some(answer.outcome), false)],
                     procs := s.procs[p := proc.(phase := if answer.outcome.Ok? then P.Storing(t) else P.Closing(t))])
  {
    var s1 := P.Step(s, P.ReadClock(p));
    var s2 := P.Step(s1, P.Enter(p));
    var s3 := P.Step(s2, P.Tick(answer.delay));
    run := [s, s1, s2, s3, P.Step(s3, P.Answer(p, answer.outcome))];
  }

  lemma StoreStep(s: P.State, p: nat) returns (s1: P.State)
    requires p in s.procs && s.procs[p].phase.Storing? && s.procs[p].phase.ticket < |s.fetches|
    requires s.fetches[s.procs[p].phase.ticket].outcome.Some? && s.fetches[s.procs[p].phase.ticket].outcome.value.Ok?
    ensures P.Enabled(s, P.Store(p)) && s1 == P.Step(s, P.Store(p))
    ensures var t, proc := s.procs[p].phase.ticket, s.procs[p];
            var item := NewItem(s.fetches[t].outcome.value.token, proc.args, s.fetches[t].readAt, s.now);
            && s1.now == s.now && s1.flights == s.flights && s1.fetches == s.fetches
            && s1.procs == s.procs[p := proc.(phase := P.Closing(t))]
            && Items(s1.cache) == Items(s.cache)[proc.key := item]
  {
    s1 := P.Step(s, P.Store(p));
  }

  lemma CloseStep(s: P.State, p: nat) returns (s1: P.State)
    requires p in s.procs && s.procs[p].phase.Closing? && s.procs[p].phase.ticket < |s.fetches|
    requires s.fetches[s.procs[p].phase.ticket].outcome.Some?
    ensures P.Enabled(s, P.Close(p)) && s1 == P.Step(s, P.Close(p))
    ensures var t, proc := s.procs[p].phase.ticket, s.procs[p];
            && s1.now == s.now && s1.cache == s.cache && s1.flights == s.flights - {proc.key}
            && s1.procs == s.procs[p := proc.(phase := P.Done(t, s.fetches[t].outcome.value))]
            && |s1.fetches| == |s.fetches| && s1.fetches[t].outcome == s.fetches[t].outcome
  {
    s1 := P.Step(s, P.Close(p));
  }

  /** The steps from the answer on. */
  lemma FinishSteps(s: P.State, p: nat, ok: bool) returns (rest: seq<P.State>)
    requires p in s.procs && (if ok then s.procs[p].phase.Storing? else s.procs[p].phase.Closing?)
    requires s.procs[p].phase.ticket < |s.fetches| && s.fetches[s.procs[p].phase.ticket].outcome.Some?
    requires ok ==> s.fetches[s.procs[p].phase.ticket].outcome.value.Ok?
    ensures IsPath(P.Next, rest, if ok then [P.Store(p), P.Close(p)] else [P.Close(p)]) && rest[0] == s
    ensures var t, proc, end := s.procs[p].phase.ticket, s.procs[p], rest[|rest| - 1];
            && end.now == s.now && end.flights == s.flights - {proc.key}
            && end.procs == s.procs[p := proc.(phase := P.Done(t, s.fetches[t].outcome.value))]
            && |end.fetches| == |s.fetches| && end.fetches[t].outcome == s.fetches[t].outcome
            && Items(end.cache) == if !ok then Items(s.cache) else
                 Items(s.cache)[proc.key := NewItem(s.fetches[t].outcome.value.token, proc.args, s.fetches[t].readAt,
                                                    s.now)]
  {
    if ok {
      var s1 := StoreStep(s, p);
      var s2 := CloseStep(s1, p);
      rest := [s, s1, s2];
    } else {
      var s1 := CloseStep(s, p);
      rest := [s, s1];
    }
  }

  /** An undisturbed update can take all its steps, and changes clock and cache as the object's update does. */
  lemma UpdateRefines(s: P.State, p: nat, answer: S.Answer, sent: seq<Args>) returns (run: seq<P.State>)
    requires p in s.procs && s.procs[p].phase.Updating? && s.procs[p].key !in s.flights
    ensures IsPath(P.Next, run, UpdateSteps(p, answer)) && run[0] == s
    ensures var end := run[|run| - 1];
            var w := S.Update(S.World(s.now, Items(s.cache), sent), s.procs[p].key, s.procs[p].args, answer);
            && end.now == w.now
            && Items(end.cache) == w.cache
            && end.flights == s.flights
            && end.procs == s.procs[p := s.procs[p].(phase := P.Done(|s.fetches|, answer.outcome))]
            && |end.fetches| == |s.fetches| + 1 && end.fetches[|s.fetches|].outcome == Some(answer.outcome)
  {
    run := FetchSteps(s, p, answer);
    var rest := FinishSteps(run[4], p, answer.outcome.Ok?);
    run := Continue(P.Next, run, FetchActions(p, answer), rest, FinishActions(p, answer));
  }

  /** How long the retry loop sleeps after a failure; a negative interval is no pause. */
  function Pause(config: S.Config): nat {
    if config.retryInterval > 0 then config.retryInterval else 0
  }

  /** The steps of an undisturbed update with retries: pauses after failures, tries again while attempts are left. */
  function RetrySteps(p: nat, pause: nat, answers: seq<S.Answer>): seq<P.Action>
    requires answers != []
    decreases |answers|, 1
  {
    UpdateSteps(p, answers[0]) + if answers[0].outcome.Ok? then [] else AfterFailure(p, pause, answers[1..])
  }

  function AfterFailure(p: nat, pause: nat, answers: seq<S.Answer>): seq<P.Action>
    decreases |answers|, 2
  {
    if answers == [] then [P.Tick(pause)] else [P.Tick(pause), P.Retry(p)] + RetrySteps(p, pause, answers)
  }

  /** A state and a world agree on clock and cache, `p` has finished and no new flight is open. */
  ghost predicate Ends(end: P.State, w: S.World, p: nat, flights: map<string, nat>) {
    && end.now == w.now
    && Items(end.cache) == w.cache
    && end.flights == flights
    && p in end.procs && end.procs[p].phase.Done?
  }

  /**
   An undisturbed refresher at a key can take all the steps of its retries, and ends as the object's retry loop does.
   */
  lemma {:induction false} RetryRefines(s: P.State, p: nat, config: S.Config, answers: seq<S.Answer>, sent: seq<Args>)
      returns (run: seq<P.State>)
    requires p in s.procs && s.procs[p].phase.Updating? && s.procs[p].key !in s.flights
    requires |answers| == s.procs[p].retries + 1
    ensures IsPath(P.Next, run, RetrySteps(p, Pause(config), answers)) && run[0] == s
    ensures var w := S.World(s.now, Items(s.cache), sent);
            Ends(run[|run| - 1], S.Retry(w, config, s.procs[p].key, s.procs[p].args, answers).0, p, s.flights)
    decreases |answers|, 1
  {
    var w := S.Update(S.World(s.now, Items(s.cache), sent), s.procs[p].key, s.procs[p].args, answers[0]);
    run := UpdateRefines(s, p, answers[0], sent);
    if answers[0].outcome.Err? {
      var rest := AfterFailureRefines(run[|run| - 1], p, config, answers[1..], w.sent);
      run := Continue(P.Next, run, UpdateSteps(p, answers[0]), rest, AfterFailure(p, Pause(config), answers[1..]));
    }
  }

  /** The same from the failure of an attempt on. */
  lemma {:induction false} AfterFailureRefines(s: P.State, p: nat, config: S.Config, answers: seq<S.Answer>,
                                               sent: seq<Args>)
      returns (run: seq<P.State>)
    requires p in s.procs && s.procs[p].phase.Done? && s.procs[p].phase.outcome.Err?
    requires s.procs[p].key !in s.flights
    requires |answers| == s.procs[p].retries
    ensures IsPath(P.Next, run, AfterFailure(p, Pause(config), answers)) && run[0] == s
    ensures var w := S.Sleep(S.World(s.now, Items(s.cache), sent), config.retryInterval);
            Ends(run[|run| - 1], S.Retry(w, config, s.procs[p].key, s.procs[p].args, answers).0, p, s.flights)
    decreases |answers|, 2
  {
    var pause := Pause(config);
    if answers == [] {
      run := [s, P.Step(s, P.Tick(pause))];
    } else {
      run := PauseSteps(s, p, pause);
      var rest := RetryRefines(run[2], p, config, answers, sent);
      run := Continue(P.Next, run, [P.Tick(pause), P.Retry(p)], rest, RetrySteps(p, pause, answers));
    }
  }

  lemma PauseSteps(s: P.State, p: nat, pause: nat) returns (run: seq<P.State>)
    requires p in s.procs && s.procs[p].phase.Done? && s.procs[p].phase.outcome.Err? && s.procs[p].retries > 0
    ensures IsPath(P.Next, run, [P.Tick(pause), P.Retry(p)]) && run[0] == s
    ensures run[2] == s.(now := s.now + pause,
                         procs := s.procs[p := s.procs[p].(retries := s.procs[p].retries - 1, phase := P.Updating)])
  {
    var rested := P.Step(s, P.Tick(pause));
    run := [s, rested, P.Step(rested, P.Retry(p))];
  }

  /** An undisturbed visit of a readable entry can take all its steps, and ends as the object's visit does. */
  lemma VisitRefines(s: P.State, p: nat, key: string, config: S.Config, answers: seq<S.Answer>, sent: seq<Args>)
      returns (run: seq<P.State>)
    requires p !in s.procs && key in s.cache && Readable(s.cache[key].item.deadline, s.now)
    requires RefreshArgs(key, s.cache[key].item).Key() !in s.flights && |answers| == config.maxRetry + 1
    ensures IsPath(P.Next, run, [P.Visit(p, key, config.maxRetry)] + RetrySteps(p, Pause(config), answers))
    ensures run[0] == s
    ensures var w := S.World(s.now, Items(s.cache), sent);
            Ends(run[|run| - 1], S.Visit(w, config, key, answers).0, p, s.flights)
  {
    var visiting := P.Step(s, P.Visit(p, key, config.maxRetry));
    var rest := RetryRefines(visiting, p, config, answers, sent);
    run := Continue(P.Next, [s, visiting], [P.Visit(p, key, config.maxRetry)], rest,
                    RetrySteps(p, Pause(config), answers));
  }

  /** The steps of an undisturbed call: the look-up, and an update unless that finds a readable entry. */
  function CallSteps(p: nat, hit: bool, answer: S.Answer): seq<P.Action> {
    [P.Look(p)] + (if hit then [] else UpdateSteps(p, answer))
  }

  /** An undisturbed call can take all its steps, changes clock and cache and returns what the object's call does. */
  lemma CallRefines(s: P.State, p: nat, answer: S.Answer, sent: seq<Args>) returns (run: seq<P.State>)
    requires p in s.procs && s.procs[p].phase.Looking? && s.procs[p].key !in s.flights
    ensures var key := s.procs[p].key;
            var hit := key in s.cache && Readable(s.cache[key].item.deadline, s.now);
            && IsPath(P.Next, run, CallSteps(p, hit, answer)) && run[0] == s
            && var end := run[|run| - 1];
               && p in end.procs && end.procs == s.procs[p := s.procs[p].(phase := end.procs[p].phase)]
               && (hit ==> end.cache == s.cache && end.now == s.now && end.fetches == s.fetches
                           && end.procs[p].phase == P.Done(s.cache[key].ticket, Ok(s.cache[key].item.token)))
               && (!hit ==> var w := S.Update(S.World(s.now, Items(s.cache), sent), key, s.procs[p].args, answer);
                            end.now == w.now && Items(end.cache) == w.cache
                            && |end.fetches| == |s.fetches| + 1
                            && end.procs[p].phase == P.Done(|s.fetches|, answer.outcome))
  {
    var looked := P.Step(s, P.Look(p));
    run := [s, looked];
    if looked.procs[p].phase.Updating? {
      var rest := UpdateRefines(looked, p, answer, sent);
      run := Continue(P.Next, run, [P.Look(p)], rest, UpdateSteps(p, answer));
    }
  }
}
