/**
 Requests for the service certificate under concurrency: any interleaving with other requests and the updater, all of
 which refresh through one flight.
 */
module CertSafety {
  import opened Text
  import opened SvcCert

  /** One run of the closure given to `group.Do`, by the goroutine that leads it. */
  datatype Refresh = Refresh(leader: nat, outcome: Option<Outcome>, closed: bool)

  /** A request for the certificate, or a refresh of the updater, which has loaded nothing. */
  datatype Phase =
    | Loading
    | Checking(loaded: CertCache)
    | Entering(entry: Option<CertCache>, checked: int)              // before group.Do
    | Leading(entry: Option<CertCache>, checked: int, ticket: nat)  // runs the closure
    | Closing(entry: Option<CertCache>, checked: int, ticket: nat)  // the closure has returned
    | Joining(entry: Option<CertCache>, checked: int, ticket: nat)  // waits for the closure of another
    | Rechecking(loaded: CertCache, checked: int, ticket: nat)
    | Answered(loaded: CertCache, checked: int, refreshed: Option<nat>, served: Served, at: int)
    | Updated(ticket: nat)

  /** `flight` is the refresh under way; a ticket is a place in `refreshes`. */
  datatype State = State(
    now: int,
    margin: int,
    cache: CertCache,
    flight: Option<nat>,
    refreshes: seq<Refresh>,
    requests: map<nat, Phase>)

  datatype Action =
    | Tick(delay: nat)
    | Begin(r: nat)
    | BeginUpdate(r: nat)
    | Load(r: nat)
    | Check(r: nat)
    | Enter(r: nat)
    | Finish(r: nat, outcome: Outcome) // the closure stores an issued certificate and returns
    | Close(r: nat)                    // the flight ends
    | Wake(r: nat)                     // a goroutine that joined gets the outcome
    | Recheck(r: nat)

  /** The goroutine holds the ticket of a refresh that has an outcome. */
  predicate HasOutcome(s: State, ticket: nat) {
    ticket < |s.refreshes| && s.refreshes[ticket].outcome.Some?
  }

  predicate Enabled(s: State, a: Action) {
    match a
    case Tick(_) => true
    case Begin(r) => r !in s.requests
    case BeginUpdate(r) => r !in s.requests
    case Load(r) => r in s.requests && s.requests[r].Loading?
    case Check(r) => r in s.requests && s.requests[r].Checking?
    case Enter(r) => r in s.requests && s.requests[r].Entering?
    case Finish(r, _) => r in s.requests && s.requests[r].Leading? && s.requests[r].ticket < |s.refreshes|
    case Close(r) => r in s.requests && s.requests[r].Closing? && HasOutcome(s, s.requests[r].ticket)
    case Wake(r) =>
      r in s.requests && s.requests[r].Joining? && HasOutcome(s, s.requests[r].ticket)
          && s.refreshes[s.requests[r].ticket].closed
    case Recheck(r) => r in s.requests && s.requests[r].Rechecking? && HasOutcome(s, s.requests[r].ticket)
                       && s.refreshes[s.requests[r].ticket].outcome.value.Refused?
  }

  function SetPhase(s: State, r: nat, phase: Phase): State {
    s.(requests := s.requests[r := phase])
  }

  function EnterGroup(s: State, r: nat): State
    requires Enabled(s, Enter(r))
  {
    var entry, checked := s.requests[r].entry, s.requests[r].checked;
    if s.flight.Some? then
      SetPhase(s, r, Joining(entry, checked, s.flight.value))
    else
      SetPhase(s, r, Leading(entry, checked, |s.refreshes|)).(
        flight := Some(|s.refreshes|), refreshes := s.refreshes + [Refresh(r, None, false)])
  }

  function FinishRefresh(s: State, r: nat, outcome: Outcome): State
    requires Enabled(s, Finish(r, outcome))
  {
    var phase := s.requests[r];
    SetPhase(s, r, Closing(phase.entry, phase.checked, phase.ticket)).(
      refreshes := s.refreshes[phase.ticket := s.refreshes[phase.ticket].(outcome := Some(outcome))],
      cache := if outcome.Issued? then NewCache(outcome.cert, s.margin) else s.cache)
  }

  /** What the goroutine does with the result of `group.Do`. */
  function WithResult(s: State, entry: Option<CertCache>, checked: int, ticket: nat): Phase
    requires HasOutcome(s, ticket)
  {
    if entry.None? then
      Updated(ticket)
    else
      match s.refreshes[ticket].outcome.value
      case Issued(cert) => Answered(entry.value, checked, Some(ticket), FromRefresh(cert), s.now)
      case Refused(_) => Rechecking(entry.value, checked, ticket)
  }

  function CloseFlight(s: State, r: nat): State
    requires Enabled(s, Close(r))
  {
    var phase := s.requests[r];
    SetPhase(s, r, WithResult(s, phase.entry, phase.checked, phase.ticket)).(
      flight := None, refreshes := s.refreshes[phase.ticket := s.refreshes[phase.ticket].(closed := true)])
  }

  /** The first check, and the second, after a refused refresh. */
  function AfterCheck(loaded: CertCache, now: int): Phase {
    if NeedsRefresh(loaded, now) then
      Entering(Some(loaded), now)
    else
      Answered(loaded, now, None, FromCache(loaded.cert.value), now)
  }

  function AfterRecheck(s: State, loaded: CertCache, checked: int, ticket: nat): Phase
    requires HasOutcome(s, ticket) && s.refreshes[ticket].outcome.value.Refused?
  {
    Answered(loaded, checked, Some(ticket),
             if StillServes(loaded, s.margin, s.now) then Fallback(loaded.cert.value)
             else Failed(s.refreshes[ticket].outcome.value.error),
             s.now)
  }

  function Step(s: State, a: Action): State
    requires Enabled(s, a)
  {
    match a
    case Tick(delay) => s.(now := s.now + delay)
    case Begin(r) => SetPhase(s, r, Loading)
    case BeginUpdate(r) => SetPhase(s, r, Entering(None, s.now))
    case Load(r) => SetPhase(s, r, Checking(s.cache))
    case Check(r) => SetPhase(s, r, AfterCheck(s.requests[r].loaded, s.now))
    case Enter(r) => EnterGroup(s, r)
    case Finish(r, outcome) => FinishRefresh(s, r, outcome)
    case Close(r) => CloseFlight(s, r)
    case Wake(r) => SetPhase(s, r, WithResult(s, s.requests[r].entry, s.requests[r].checked, s.requests[r].ticket))
    case Recheck(r) =>
      SetPhase(s, r, AfterRecheck(s, s.requests[r].loaded, s.requests[r].checked, s.requests[r].ticket))
  }

  predicate Next(s: State, a: Action, s': State) {
    Enabled(s, a) && s' == Step(s, a)
  }

  ghost predicate IsRun(run: seq<State>, actions: seq<Action>, margin: int) {
    && |run| == |actions| + 1
    && run[0] == State(run[0].now, margin, CertCache(None, run[0].now), None, [], map[])
    && forall i :: 0 <= i < |actions| ==> Enabled(run[i], actions[i]) && run[i + 1] == Step(run[i], actions[i])
  }

  /** The certificate of the last refresh that got one. */
  function LastIssued(refreshes: seq<Refresh>): Option<Cert> {
    if refreshes == [] then
      None
    else
      match refreshes[|refreshes| - 1].outcome
      case Some(Issued(cert)) => Some(cert)
      case _ => LastIssued(refreshes[..|refreshes| - 1])
  }

  predicate InFlight(phase: Phase) {
    phase.Leading? || phase.Closing?
  }

  /** A request that refreshes has found its entry outside the first zone; the updater has found nothing. */
  ghost predicate EntryOk(entry: Option<CertCache>, checked: int, now: int, margin: int) {
    checked <= now && (entry.Some? ==> Consistent(entry.value, margin) && NeedsRefresh(entry.value, checked))
  }

  ghost predicate PhaseOk(s: State, r: nat, phase: Phase) {
    match phase
    case Loading => true
    case Checking(loaded) => Consistent(loaded, s.margin)
    case Entering(entry, checked) => EntryOk(entry, checked, s.now, s.margin)
    case Leading(entry, checked, t) =>
      EntryOk(entry, checked, s.now, s.margin) && s.flight == Some(t) && t < |s.refreshes|
          && s.refreshes[t] == Refresh(r, None, false)
    case Closing(entry, checked, t) =>
      EntryOk(entry, checked, s.now, s.margin) && s.flight == Some(t) && HasOutcome(s, t) && s.refreshes[t].leader == r
    case Joining(entry, checked, t) => EntryOk(entry, checked, s.now, s.margin) && t < |s.refreshes|
    case Rechecking(loaded, checked, t) =>
      EntryOk(Some(loaded), checked, s.now, s.margin) && HasOutcome(s, t) && s.refreshes[t].outcome.value.Refused?
    case Answered(loaded, checked, refreshed, served, at) =>
      && Consistent(loaded, s.margin) && checked <= at <= s.now
      && (refreshed.Some? <==> NeedsRefresh(loaded, checked))
      && (refreshed.None? ==> served == FromCache(loaded.cert.value) && at == checked)
      && (refreshed.Some? ==>
            && HasOutcome(s, refreshed.value)
            && served == Serve(loaded, s.margin, checked, s.refreshes[refreshed.value].outcome.value, at))
    case Updated(t) => HasOutcome(s, t)
  }

  ghost predicate PhasesOk(s: State) {
    forall r :: r in s.requests ==> PhaseOk(s, r, s.requests[r])
  }

  /** The refresh under way is the last; all before have ended with an outcome. */
  ghost predicate FlightOk(s: State) {
    && (s.flight.Some? ==>
          s.flight.value == |s.refreshes| - 1 && !s.refreshes[s.flight.value].closed
          && var leader := s.refreshes[s.flight.value].leader;
             leader in s.requests && InFlight(s.requests[leader]) && s.requests[leader].ticket == s.flight.value)
    && (forall t :: 0 <= t < |s.refreshes| && s.flight != Some(t) ==>
        s.refreshes[t].closed && s.refreshes[t].outcome.Some?)
  }

  ghost predicate CacheOk(s: State) {
    Consistent(s.cache, s.margin) && s.cache.cert == LastIssued(s.refreshes)
  }

  ghost predicate Inv(s: State) {
    CacheOk(s) && FlightOk(s) && PhasesOk(s)
  }

  /** The goroutine taking the step. */
  lemma OwnPhaseKept(s: State, a: Action)
    requires Inv(s) && Enabled(s, a) && !a.Tick?
    ensures a.r in Step(s, a).requests && PhaseOk(Step(s, a), a.r, Step(s, a).requests[a.r])
  {
  }

  lemma OtherPhaseKept(s: State, a: Action, r: nat)
    requires Inv(s) && Enabled(s, a) && r in s.requests && (!a.Tick? ==> r != a.r)
    ensures r in Step(s, a).requests && PhaseOk(Step(s, a), r, s.requests[r]) && Step(s, a).requests[r] == s.requests[r]
  {
    if a.Enter? || a.Finish? || a.Close? {
      OtherPhaseInFlight(s, a, r);
    }
  }

  lemma OtherPhaseInFlight(s: State, a: Action, r: nat)
    requires Inv(s) && Enabled(s, a) && r in s.requests && (a.Enter? || a.Finish? || a.Close?) && r != a.r
    ensures r in Step(s, a).requests && PhaseOk(Step(s, a), r, s.requests[r]) && Step(s, a).requests[r] == s.requests[r]
  {
  }

  lemma PhasesKept(s: State, a: Action)
    requires Inv(s) && Enabled(s, a)
    ensures PhasesOk(Step(s, a))
  {
    var s' := Step(s, a);
    forall r | r in s'.requests ensures PhaseOk(s', r, s'.requests[r]) {
      if !a.Tick? && r == a.r {
        OwnPhaseKept(s, a);
      } else {
        OtherPhaseKept(s, a, r);
      }
    }
  }

  lemma FlightKept(s: State, a: Action)
    requires Inv(s) && Enabled(s, a)
    ensures FlightOk(Step(s, a))
  {
  }

  lemma {:induction false} SameOutcomesSameIssued(refreshes: seq<Refresh>, others: seq<Refresh>)
    requires |refreshes| == |others|
    requires forall t :: 0 <= t < |refreshes| ==> refreshes[t].outcome == others[t].outcome
    ensures LastIssued(refreshes) == LastIssued(others)
  {
    if refreshes == [] {
    } else {
      SameOutcomesSameIssued(refreshes[..|refreshes| - 1], others[..|others| - 1]);
    }
  }

  lemma CacheKept(s: State, a: Action)
    requires Inv(s) && Enabled(s, a)
    ensures CacheOk(Step(s, a))
  {
    var s' := Step(s, a);
    match a
    case Close(r) => SameOutcomesSameIssued(s.refreshes, s'.refreshes);
    case Enter(r) =>
      if s.flight.None? {
        assert s'.refreshes[..|s.refreshes|] == s.refreshes;
      }
    case Finish(r, outcome) =>
      var n := |s.refreshes| - 1;
      assert PhaseOk(s, r, s.requests[r]);
      assert s.requests[r].ticket == n;
      assert s'.refreshes[..n] == s.refreshes[..n];
    case _ =>
  }

  lemma StepKeeps(s: State, a: Action)
    requires Inv(s) && Enabled(s, a)
    ensures Inv(Step(s, a)) && Step(s, a).margin == s.margin
  {
    PhasesKept(s, a);
    FlightKept(s, a);
    CacheKept(s, a);
  }

  lemma {:induction false} RunKeeps(run: seq<State>, actions: seq<Action>, margin: int, i: nat)
    requires IsRun(run, actions, margin) && i < |run|
    ensures Inv(run[i]) && run[i].margin == margin
  {
    if i == 0 {
    } else {
      RunKeeps(run, actions, margin, i - 1);
      StepKeeps(run[i - 1], actions[i - 1]);
    }
  }

  /** In every run at most one goroutine at a time is inside the closure of a refresh. */
  lemma OneRefreshAtATime(run: seq<State>, actions: seq<Action>, margin: int, i: nat, r: nat, q: nat)
    requires IsRun(run, actions, margin) && i < |run|
    requires r in run[i].requests && InFlight(run[i].requests[r]) && q in run[i].requests
             && InFlight(run[i].requests[q])
    ensures r == q
  {
    RunKeeps(run, actions, margin, i);
    assert PhaseOk(run[i], r, run[i].requests[r]) && PhaseOk(run[i], q, run[i].requests[q]);
  }

  /** The outcome of the refresh a request has waited for, if it has asked for one. */
  function OutcomeFor(s: State, refreshed: Option<nat>): Option<Outcome>
    requires refreshed.Some? ==> refreshed.value < |s.refreshes|
  {
    if refreshed.Some? then s.refreshes[refreshed.value].outcome else None
  }

  /**
   In every run a request enters the refresh exactly when the entry it loaded was outside the first zone at its check,
   and its answer is that of the zone, for the outcome of that refresh, whoever led it.
   */
  lemma ZonesInEveryRun(run: seq<State>, actions: seq<Action>, margin: int, i: nat, r: nat)
    requires IsRun(run, actions, margin) && i < |run|
    requires r in run[i].requests && run[i].requests[r].Answered?
    ensures var request := run[i].requests[r];
      && (request.refreshed.Some? <==> !InFirstZone(request.loaded, margin, request.checked))
      && (request.refreshed.Some? ==> HasOutcome(run[i], request.refreshed.value))
      && ByZone(request.served, request.loaded, margin, request.checked, OutcomeFor(run[i], request.refreshed),
                request.at)
  {
    RunKeeps(run, actions, margin, i);
    var request := run[i].requests[r];
    assert PhaseOk(run[i], r, request);
    if request.refreshed.Some? {
      Zones(request.loaded, margin, request.checked, run[i].refreshes[request.refreshed.value].outcome.value,
            request.at);
    }
  }

  /** With a margin that is not negative, no run serves a certificate from the cache past its end. */
  lemma NoExpiredCertServed(run: seq<State>, actions: seq<Action>, margin: nat, i: nat, r: nat)
    requires IsRun(run, actions, margin) && i < |run|
    requires r in run[i].requests && run[i].requests[r].Answered?
    requires run[i].requests[r].served.FromCache? || run[i].requests[r].served.Fallback?
    ensures run[i].requests[r].at <= run[i].requests[r].served.cert.notAfter
  {
    RunKeeps(run, actions, margin, i);
    ZonesInEveryRun(run, actions, margin, i, r);
    assert PhaseOk(run[i], r, run[i].requests[r]);
  }

  /** In every run the cache holds the certificate of the last refresh that got one. */
  lemma CacheIsLastIssued(run: seq<State>, actions: seq<Action>, margin: int, i: nat)
    requires IsRun(run, actions, margin) && i < |run|
    ensures run[i].cache.cert == LastIssued(run[i].refreshes)
  {
    RunKeeps(run, actions, margin, i);
  }
}
