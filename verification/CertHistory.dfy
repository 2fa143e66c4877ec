/** What a request for the certificate has done and when, by the actions of the run, and which refresh it has joined. */
module CertHistory {
  import opened Text
  import opened SvcCert
  import opened CertSafety

  /** The entry a request works with is the cache as it was when the request loaded it. */
  ghost predicate HasLoaded(run: seq<State>, actions: seq<Action>, i: nat, r: nat, loaded: CertCache)
    requires i <= |actions| < |run|
  {
    exists k :: 0 <= k < i && actions[k] == Load(r) && run[k].cache == loaded
  }

  ghost predicate HasChecked(run: seq<State>, actions: seq<Action>, i: nat, r: nat, checked: int)
    requires i <= |actions| < |run|
  {
    exists k :: 0 <= k < i && actions[k] == Check(r) && run[k].now == checked
  }

  predicate IsOpen(s: State, ticket: nat) {
    ticket < |s.refreshes| && !s.refreshes[ticket].closed
  }

  /** The refresh of this ticket was open when the request entered the group. */
  ghost predicate HasEntered(run: seq<State>, actions: seq<Action>, i: nat, r: nat, ticket: nat)
    requires i <= |actions| < |run|
  {
    exists k :: 0 <= k < i && actions[k] == Enter(r) && IsOpen(run[k + 1], ticket)
  }

  /** An action that can answer the request. */
  predicate MayAnswer(a: Action, r: nat) {
    a == Check(r) || a == Close(r) || a == Wake(r) || a == Recheck(r)
  }

  ghost predicate HasEnded(run: seq<State>, actions: seq<Action>, i: nat, r: nat, at: int)
    requires i <= |actions| < |run|
  {
    exists k :: 0 <= k < i && MayAnswer(actions[k], r) && run[k].now == at
  }

  ghost predicate EntryFrom(run: seq<State>, actions: seq<Action>, i: nat, r: nat, entry: Option<CertCache>,
                            checked: int)
    requires i <= |actions| < |run|
  {
    entry.Some? ==> HasLoaded(run, actions, i, r, entry.value) && HasChecked(run, actions, i, r, checked)
  }

  /** What a request holds is what it has loaded, checked, entered and been answered. */
  ghost predicate HistoryOf(run: seq<State>, actions: seq<Action>, i: nat, r: nat, phase: Phase)
    requires i <= |actions| < |run|
  {
    match phase
    case Loading => true
    case Checking(loaded) => HasLoaded(run, actions, i, r, loaded)
    case Entering(entry, checked) => EntryFrom(run, actions, i, r, entry, checked)
    case Leading(entry, checked, t) =>
      EntryFrom(run, actions, i, r, entry, checked) && HasEntered(run, actions, i, r, t)
    case Closing(entry, checked, t) =>
      EntryFrom(run, actions, i, r, entry, checked) && HasEntered(run, actions, i, r, t)
    case Joining(entry, checked, t) =>
      EntryFrom(run, actions, i, r, entry, checked) && HasEntered(run, actions, i, r, t)
    case Rechecking(loaded, checked, t) =>
      EntryFrom(run, actions, i, r, Some(loaded), checked) && HasEntered(run, actions, i, r, t)
    case Answered(loaded, checked, refreshed, _, at) =>
      && EntryFrom(run, actions, i, r, Some(loaded), checked) && HasEnded(run, actions, i, r, at)
      && (refreshed.Some? ==> HasEntered(run, actions, i, r, refreshed.value))
    case Updated(t) => HasEntered(run, actions, i, r, t)
  }

  lemma HistoryGrows(run: seq<State>, actions: seq<Action>, i: nat, r: nat, phase: Phase)
    requires i < |actions| < |run| && HistoryOf(run, actions, i, r, phase)
    ensures HistoryOf(run, actions, i + 1, r, phase)
  {
  }

  /** Whoever enters the group leads a refresh of its own or joins the one that is open. */
  lemma EntersOpenRefresh(s: State, r: nat)
    requires Inv(s) && Enabled(s, Enter(r))
    ensures var phase := EnterGroup(s, r).requests[r];
      && (phase.Leading? || phase.Joining?) && phase.entry == s.requests[r].entry
           && phase.checked == s.requests[r].checked
      && IsOpen(EnterGroup(s, r), phase.ticket)
  {
  }

  lemma OthersUnmoved(s: State, a: Action, r: nat)
    requires Enabled(s, a) && r in Step(s, a).requests && (a.Tick? || a.r != r)
    ensures r in s.requests && s.requests[r] == Step(s, a).requests[r]
  {
  }

  /** The first steps of a request. */
  lemma BeginsWithHistory(run: seq<State>, actions: seq<Action>, i: nat)
    requires i < |actions| < |run| && Enabled(run[i], actions[i]) && run[i + 1] == Step(run[i], actions[i])
             && Inv(run[i])
    requires var a := actions[i]; a.Begin? || a.BeginUpdate? || a.Load? || a.Check? || a.Enter?
    requires var r := actions[i].r; r in run[i].requests ==> HistoryOf(run, actions, i, r, run[i].requests[r])
    ensures var r := actions[i].r; r in run[i + 1].requests && HistoryOf(run, actions, i + 1, r, run[i + 1].requests[r])
  {
    var r := actions[i].r;
    if r in run[i].requests {
      HistoryGrows(run, actions, i, r, run[i].requests[r]);
    }
    if actions[i].Enter? {
      EntersOpenRefresh(run[i], r);
    }
  }

  /** The later ones. */
  lemma EndsWithHistory(run: seq<State>, actions: seq<Action>, i: nat)
    requires i < |actions| < |run| && Enabled(run[i], actions[i]) && run[i + 1] == Step(run[i], actions[i])
    requires var a := actions[i]; a.Finish? || a.Close? || a.Wake? || a.Recheck?
    requires var r := actions[i].r; r in run[i].requests ==> HistoryOf(run, actions, i, r, run[i].requests[r])
    ensures var r := actions[i].r; r in run[i + 1].requests && HistoryOf(run, actions, i + 1, r, run[i + 1].requests[r])
  {
    HistoryGrows(run, actions, i, actions[i].r, run[i].requests[actions[i].r]);
  }

  lemma {:induction false} RunHistory(run: seq<State>, actions: seq<Action>, margin: int, i: nat, r: nat)
    requires IsRun(run, actions, margin) && i < |run| && r in run[i].requests
    ensures HistoryOf(run, actions, i, r, run[i].requests[r])
    decreases i
  {
    assert i > 0;
    var m := i - 1;
    var a := actions[m];
    assert Enabled(run[m], a) && run[i] == Step(run[m], a);
    if r in run[m].requests {
      RunHistory(run, actions, margin, m, r);
    }
    if a.Tick? || a.r != r {
      OthersUnmoved(run[m], a, r);
      HistoryGrows(run, actions, m, r, run[m].requests[r]);
    } else if a.Finish? || a.Close? || a.Wake? || a.Recheck? {
      EndsWithHistory(run, actions, m);
    } else {
      RunKeeps(run, actions, margin, m);
      BeginsWithHistory(run, actions, m);
    }
  }

  /** The outcome of a refresh is what its leader's closure returned. */
  ghost predicate HasFinished(actions: seq<Action>, i: nat, leader: nat, outcome: Outcome) {
    exists k :: 0 <= k < i <= |actions| && actions[k] == Finish(leader, outcome)
  }

  lemma OutcomeOfStep(s: State, a: Action, t: nat)
    requires Inv(s) && Enabled(s, a) && t < |Step(s, a).refreshes| && Step(s, a).refreshes[t].outcome.Some?
    ensures t < |s.refreshes| && Step(s, a).refreshes[t].leader == s.refreshes[t].leader
    ensures var outcome := Step(s, a).refreshes[t].outcome;
            outcome == s.refreshes[t].outcome || a == Finish(s.refreshes[t].leader, outcome.value)
  {
    if a.Finish? {
      assert PhaseOk(s, a.r, s.requests[a.r]);
    }
  }

  lemma {:induction false} RunOutcomes(run: seq<State>, actions: seq<Action>, margin: int, i: nat, t: nat)
    requires IsRun(run, actions, margin) && i < |run| && t < |run[i].refreshes| && run[i].refreshes[t].outcome.Some?
    ensures HasFinished(actions, i, run[i].refreshes[t].leader, run[i].refreshes[t].outcome.value)
    decreases i
  {
    assert i > 0;
    var m := i - 1;
    assert run[i] == Step(run[m], actions[m]);
    RunKeeps(run, actions, margin, m);
    OutcomeOfStep(run[m], actions[m], t);
    if run[m].refreshes[t].outcome == run[i].refreshes[t].outcome {
      RunOutcomes(run, actions, margin, m, t);
    }
  }

  /**
   In every run a request works with the cache of the moment it loaded it, checks it at the time of its check and is
   answered at the time recorded; if it asked for a refresh, the one it got was open when it entered the group, and the
   outcome is what that one's closure returned.
   */
  lemma AnswerFromActions(run: seq<State>, actions: seq<Action>, margin: int, i: nat, r: nat)
    requires IsRun(run, actions, margin) && i < |run| && r in run[i].requests && run[i].requests[r].Answered?
    ensures var request := run[i].requests[r];
      && HasLoaded(run, actions, i, r, request.loaded) && HasChecked(run, actions, i, r, request.checked)
      && HasEnded(run, actions, i, r, request.at)
      && (request.refreshed.Some? ==>
            && HasOutcome(run[i], request.refreshed.value)
            && HasEntered(run, actions, i, r, request.refreshed.value)
            && var refresh := run[i].refreshes[request.refreshed.value];
               HasFinished(actions, i, refresh.leader, refresh.outcome.value))
  {
    RunHistory(run, actions, margin, i, r);
    var request := run[i].requests[r];
    ZonesInEveryRun(run, actions, margin, i, r);
    if request.refreshed.Some? {
      RunOutcomes(run, actions, margin, i, request.refreshed.value);
    }
  }

  /** In every run whoever enters the group gets a refresh that is open at that moment. */
  lemma EnterJoinsOpenRefresh(run: seq<State>, actions: seq<Action>, margin: int, e: nat)
    requires IsRun(run, actions, margin) && e < |actions| && actions[e].Enter?
    ensures var r, s := actions[e].r, run[e + 1];
      r in s.requests && (s.requests[r].Leading? || s.requests[r].Joining?) && IsOpen(s, s.requests[r].ticket)
  {
    assert run[e + 1] == Step(run[e], actions[e]);
    RunKeeps(run, actions, margin, e);
    EntersOpenRefresh(run[e], actions[e].r);
  }

  predicate IsDone(phase: Phase) {
    phase.Answered? || phase.Updated?
  }

  /** The next step of a request that is not done; its refresh is about to return `outcome`. */
  function NextAction(phase: Phase, r: nat, outcome: Outcome): Action
    requires !IsDone(phase)
  {
    match phase
    case Loading => Load(r)
    case Checking(_) => Check(r)
    case Entering(_, _) => Enter(r)
    case Leading(_, _, _) => Finish(r, outcome)
    case Closing(_, _, _) => Close(r)
    case Joining(_, _, _) => Wake(r)
    case Rechecking(_, _, _) => Recheck(r)
  }

  lemma CanAct(s: State, r: nat, outcome: Outcome)
    requires Inv(s) && r in s.requests && !IsDone(s.requests[r])
    requires s.requests[r].Joining? ==> s.flight != Some(s.requests[r].ticket)
    ensures Enabled(s, NextAction(s.requests[r], r, outcome))
  {
    assert PhaseOk(s, r, s.requests[r]);
  }

  /** Nobody is stuck: every request can take its step, or waits for the open refresh, whose leader can take his. */
  lemma NeverStuck(run: seq<State>, actions: seq<Action>, margin: int, i: nat, r: nat, outcome: Outcome)
    requires IsRun(run, actions, margin) && i < |run| && r in run[i].requests && !IsDone(run[i].requests[r])
    ensures var s := run[i];
      || Enabled(s, NextAction(s.requests[r], r, outcome))
      || (s.requests[r].Joining? && s.requests[r].ticket < |s.refreshes| &&
          var q := s.refreshes[s.requests[r].ticket].leader;
          q in s.requests && InFlight(s.requests[q]) && Enabled(s, NextAction(s.requests[q], q, outcome)))
  {
    RunKeeps(run, actions, margin, i);
    var s := run[i];
    if s.requests[r].Joining? && s.flight == Some(s.requests[r].ticket) {
      CanAct(s, s.refreshes[s.flight.value].leader, outcome);
    } else {
      CanAct(s, r, outcome);
    }
  }
}
