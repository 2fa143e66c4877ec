/** The certificate service object does what the step system does when nobody else takes a step in between. */
module CertRefinement {
  import opened Text
  import opened Paths
  import opened SvcCert
  import opened CertSafety

  /** A refresh led by `r`, from entering the group on. */
  function RefreshSteps(r: nat, answer: Answer): seq<Action> {
    [Enter(r), Action.Tick(answer.delay), Finish(r, answer.outcome), Close(r)]
  }

  function Stored(cache: CertCache, margin: int, outcome: Outcome): CertCache {
    if outcome.Issued? then NewCache(outcome.cert, margin) else cache
  }

  /** An undisturbed refresh can take all its steps, and stores what the object's refresh does. */
  lemma RefreshRefines(s: State, r: nat, answer: Answer) returns (run: seq<State>)
    requires r in s.requests && s.requests[r].Entering? && s.flight.None?
    ensures IsPath(Next, run, RefreshSteps(r, answer)) && run[0] == s
    ensures var end, t, phase := run[4], |s.refreshes|, s.requests[r];
      && end.now == s.now + answer.delay && end.margin == s.margin && end.flight.None?
      && end.cache == Stored(s.cache, s.margin, answer.outcome)
      && |end.refreshes| == t + 1 && end.refreshes[t].outcome == Some(answer.outcome)
      && r in end.requests
      && end.requests[r] == (
           if phase.entry.None? then Updated(t)
           else match answer.outcome
                case Issued(cert) => Answered(phase.entry.value, phase.checked, Some(t), FromRefresh(cert), end.now)
                case Refused(_) => Rechecking(phase.entry.value, phase.checked, t))
  {
    var s1 := Step(s, Enter(r));
    var s2 := Step(s1, Action.Tick(answer.delay));
    var s3 := Step(s2, Finish(r, answer.outcome));
    run := [s, s1, s2, s3, Step(s3, Close(r))];
  }

  /** A refresh of the updater always asks for a certificate, whatever the cache holds. */
  lemma UpdateRefines(s: State, r: nat, answer: Answer) returns (run: seq<State>)
    requires r !in s.requests && s.flight.None?
    ensures IsPath(Next, run, [BeginUpdate(r)] + RefreshSteps(r, answer)) && run[0] == s
    ensures var end := run[|run| - 1];
      && end.now == s.now + answer.delay && end.cache == Stored(s.cache, s.margin, answer.outcome)
      && r in end.requests && end.requests[r] == Updated(|s.refreshes|)
  {
    var begun := Step(s, BeginUpdate(r));
    var rest := RefreshRefines(begun, r, answer);
    run := Continue(Next, [s, begun], [BeginUpdate(r)], rest, RefreshSteps(r, answer));
  }

  /** The steps of a request up to its first check, and those of a second check. */
  function CheckSteps(r: nat, delay: nat): seq<Action> {
    [Begin(r), Load(r), Action.Tick(delay), Check(r)]
  }

  function RecheckSteps(r: nat, delay: nat, outcome: Outcome): seq<Action> {
    if outcome.Refused? then [Action.Tick(delay), Recheck(r)] else []
  }

  lemma CheckRefines(s: State, r: nat, delay: nat) returns (run: seq<State>)
    requires r !in s.requests
    ensures IsPath(Next, run, CheckSteps(r, delay)) && run[0] == s
    ensures run[4] == s.(now := s.now + delay, requests := s.requests[r := AfterCheck(s.cache, s.now + delay)])
  {
    var s1 := Step(s, Begin(r));
    var s2 := Step(s1, Load(r));
    var s3 := Step(s2, Action.Tick(delay));
    run := [s, s1, s2, s3, Step(s3, Check(r))];
  }

  lemma RecheckRefines(s: State, r: nat, delay: nat, outcome: Outcome) returns (run: seq<State>)
    requires r in s.requests && (if outcome.Issued? then s.requests[r].Answered? else s.requests[r].Rechecking?)
    requires outcome.Refused? ==>
               HasOutcome(s, s.requests[r].ticket) && s.refreshes[s.requests[r].ticket].outcome == Some(outcome)
    ensures IsPath(Next, run, RecheckSteps(r, delay, outcome)) && run[0] == s
    ensures var end, phase := run[|run| - 1], s.requests[r];
      && end.cache == s.cache && r in end.requests
      && end.now == s.now + (if outcome.Refused? then delay else 0)
      && end.requests[r] == (
           if outcome.Issued? then phase
           else Answered(phase.loaded, phase.checked, Some(phase.ticket),
                         if StillServes(phase.loaded, s.margin, end.now) then Fallback(phase.loaded.cert.value)
                         else Failed(outcome.error),
                         end.now))
  {
    run := [s];
    if outcome.Refused? {
      var later := Step(s, Action.Tick(delay));
      run := [s, later, Step(later, Recheck(r))];
    }
  }

  /**
   An undisturbed request takes the load and the check and, only outside the first zone, a refresh and, if that is
   refused, the second check; cache, clock and answer are then those of the object's request.
   */
  lemma RequestRefines(s: State, r: nat, first: nat, answer: Answer, second: nat) returns (run: seq<State>)
    requires r !in s.requests && s.flight.None?
    ensures var refreshes := NeedsRefresh(s.cache, s.now + first);
      IsPath(Next, run,
             CheckSteps(r, first)
             + (if refreshes then RefreshSteps(r, answer) + RecheckSteps(r, second, answer.outcome) else []))
    ensures run[0] == s
    ensures var end, checked := run[|run| - 1], s.now + first;
      && r in end.requests && end.requests[r].Answered?
      && end.requests[r].served == Serve(s.cache, s.margin, checked, answer.outcome, checked + answer.delay + second)
      && end.cache == if NeedsRefresh(s.cache, checked) then Stored(s.cache, s.margin, answer.outcome) else s.cache
  {
    run := CheckRefines(s, r, first);
    if NeedsRefresh(s.cache, s.now + first) {
      var refreshed := RefreshRefines(run[4], r, answer);
      var rechecked := RecheckRefines(refreshed[4], r, second, answer.outcome);
      var rest := Continue(Next, refreshed, RefreshSteps(r, answer), rechecked,
                           RecheckSteps(r, second, answer.outcome));
      run := Continue(Next, run, CheckSteps(r, first), rest,
                      RefreshSteps(r, answer) + RecheckSteps(r, second, answer.outcome));
    }
  }
}
