/**
 Retries, errors and requests of refreshers in every run, however they interleave with callers and with each other.
 */
module TokenRefresh {
  import opened Requests
  import opened TokenModel
  import opened TokenProtocol
  import opened TokenSafety
  import S = TokenService

  /** What the action, leading to `s`, gives to goroutine `p` as the outcome of an update it has led or joined. */
  function Given(a: Action, s: State, p: nat): seq<Outcome> {
    if (a.Close? || a.Wake?) && a.p == p && p in s.procs && s.procs[p].phase.Done? then
      [s.procs[p].phase.outcome]
    else
      []
  }

  /** The outcomes given to `p` between the moments `i` and `j`. */
  function Results(run: seq<State>, actions: seq<Action>, i: nat, j: nat, p: nat): seq<Outcome>
    requires i <= j <= |actions| < |run|
  {
    if i == j then [] else Results(run, actions, i, j - 1, p) + Given(actions[j - 1], run[j], p)
  }

  /** The updates `p` has begun between the moments `i` and `j`. */
  function Attempts(actions: seq<Action>, i: nat, j: nat, p: nat): nat
    requires i <= j <= |actions|
  {
    if i == j then 0 else Attempts(actions, i, j - 1, p) + (if actions[j - 1] == ReadClock(p) then 1 else 0)
  }

  ghost predicate AllFailed(results: seq<Outcome>) {
    forall k :: 0 <= k < |results| ==> results[k].Err?
  }

  /** Where a refresher that began with `r` retries is, with these results after so many attempts. */
  ghost predicate Progress(proc: Proc, results: seq<Outcome>, attempts: nat, r: nat) {
    var n := |results|;
    match proc.phase
    case Looking => false
    case Updating => AllFailed(results) && attempts == n && proc.retries + n == r
    case Done(_, outcome) =>
      n > 0 && results[n - 1] == outcome && AllFailed(results[..n - 1]) && attempts == n && proc.retries + n == r + 1
    case _ => AllFailed(results) && attempts == n + 1 && proc.retries + n == r
  }

  predicate UnderWay(phase: Phase) {
    !phase.Looking? && !phase.Updating? && !phase.Done?
  }

  /** The steps between the beginning of an attempt and its outcome, and those of others. */
  lemma StaysUnderWay(s: State, a: Action, p: nat)
    requires Enabled(s, a) && p in s.procs && !s.procs[p].phase.Looking?
    requires a != ReadClock(p) && a != Retry(p) && Given(a, Step(s, a), p) == []
    ensures p in Step(s, a).procs
    ensures var proc, proc' := s.procs[p], Step(s, a).procs[p];
            if UnderWay(proc.phase) then UnderWay(proc'.phase) && proc'.retries == proc.retries else proc' == proc
  {
  }

  lemma GetsOutcome(s: State, a: Action, p: nat)
    requires Enabled(s, a) && p in s.procs && Given(a, Step(s, a), p) != []
    ensures p in Step(s, a).procs && UnderWay(s.procs[p].phase) && a != ReadClock(p)
    ensures Ticketed(s, p) && s.fetches[s.procs[p].phase.ticket].outcome.Some?
    ensures Step(s, a).procs[p] == s.procs[p].(phase := Result(s, p))
            && Given(a, Step(s, a), p) == [Result(s, p).outcome]
  {
  }

  lemma ProgressKept(s: State, a: Action, p: nat, results: seq<Outcome>, attempts: nat, r: nat)
    requires Enabled(s, a) && p in s.procs && Progress(s.procs[p], results, attempts, r)
    ensures p in Step(s, a).procs
    ensures Progress(Step(s, a).procs[p], results + Given(a, Step(s, a), p),
                     attempts + (if a == ReadClock(p) then 1 else 0), r)
  {
    if Given(a, Step(s, a), p) != [] {
      GetsOutcome(s, a, p);
      assert (results + Given(a, Step(s, a), p))[..|results|] == results;
    } else {
      assert results + Given(a, Step(s, a), p) == results;
      if a == Retry(p) {
        AllHaveFailed(results);
      } else if a != ReadClock(p) {
        StaysUnderWay(s, a, p);
      }
    }
  }

  lemma AllHaveFailed(results: seq<Outcome>)
    requires results != [] && AllFailed(results[..|results| - 1]) && results[|results| - 1].Err?
    ensures AllFailed(results)
  {
    assert results == results[..|results| - 1] + [results[|results| - 1]];
  }

  lemma VisitProgress(s: State, a: Action)
    requires Enabled(s, a) && a.Visit?
    ensures a.p in Step(s, a).procs && Progress(Step(s, a).procs[a.p], [], 0, a.retries)
  {
  }

  /** The progress at the moment `j` of the refresher begun at the visit `v`. */
  ghost predicate ProgressAt(run: seq<State>, actions: seq<Action>, v: nat, j: nat)
    requires IsRun(run, actions) && v < j < |run| && actions[v].Visit?
  {
    var p := actions[v].p;
    && p in run[j].procs
    && Progress(run[j].procs[p], Results(run, actions, v + 1, j, p), Attempts(actions, v + 1, j, p), actions[v].retries)
  }

  lemma {:induction false} RunProgress(run: seq<State>, actions: seq<Action>, v: nat, j: nat)
    requires IsRun(run, actions) && v < j < |run| && actions[v].Visit?
    ensures ProgressAt(run, actions, v, j)
    decreases j
  {
    if j == v + 1 {
      FirstProgress(run, actions, v);
    } else {
      var m := j - 1;
      RunProgress(run, actions, v, m);
      StepProgress(run, actions, v, m);
    }
  }

  lemma FirstProgress(run: seq<State>, actions: seq<Action>, v: nat)
    requires IsRun(run, actions) && v < |actions| && actions[v].Visit?
    ensures ProgressAt(run, actions, v, v + 1)
  {
    assert run[v + 1] == Step(run[v], actions[v]);
    VisitProgress(run[v], actions[v]);
  }

  lemma StepProgress(run: seq<State>, actions: seq<Action>, v: nat, j: nat)
    requires IsRun(run, actions) && v < j < |actions| && actions[v].Visit? && ProgressAt(run, actions, v, j)
    ensures ProgressAt(run, actions, v, j + 1)
  {
    var p := actions[v].p;
    var results, attempts := Results(run, actions, v + 1, j, p), Attempts(actions, v + 1, j, p);
    assert run[j + 1] == Step(run[j], actions[j]);
    ProgressKept(run[j], actions[j], p, results, attempts, actions[v].retries);
    assert Results(run, actions, v + 1, j + 1, p) == results + Given(actions[j], run[j + 1], p);
  }

  /** The errors a refresher reports: those before its first success. */
  function Reported(results: seq<Outcome>): seq<string>
  {
    if results == [] || results[0].Ok? then [] else [results[0].error] + Reported(results[1..])
  }

  lemma {:induction false} ReportedErrors(results: seq<Outcome>)
    requires results != [] ==> AllFailed(results[..|results| - 1])
    ensures var errors := Reported(results);
      && |errors| == (if AllFailed(results) then |results| else |results| - 1)
      && forall k :: 0 <= k < |errors| ==> results[k] == Err(errors[k])
  {
    if |results| > 1 {
      assert results[0] == results[..|results| - 1][0];
    }
    if results == [] || results[0].Ok? {
    } else {
      var rest := results[1..];
      assert rest != [] ==> results[..|results| - 1][1..] == rest[..|rest| - 1];
      ReportedErrors(rest);
      assert forall k :: 1 <= k < |results| ==> results[k] == rest[k - 1];
    }
  }

  /**
   From its visit on, in every run, a refresher with `r` retries makes at most r+1 attempts, led or joined; each but
   the one under way has given it an outcome, only the last a success, and it reports the errors of all before. Once it
   stops without a success it has made all r+1 attempts and reported all their errors.
   */
  lemma RetriesAndErrors(run: seq<State>, actions: seq<Action>, v: nat, j: nat)
    requires IsRun(run, actions) && v < j < |run| && actions[v].Visit?
    ensures actions[v].p in run[j].procs
    ensures var p, r := actions[v].p, actions[v].retries;
      var proc, results := run[j].procs[p], Results(run, actions, v + 1, j, p);
      var errors, attempts := Reported(results), Attempts(actions, v + 1, j, p);
      && attempts <= r + 1
      && |results| == (if UnderWay(proc.phase) then attempts - 1 else attempts)
      && |errors| == (if proc.phase.Done? && proc.phase.outcome.Ok? then |results| - 1 else |results|)
      && (forall k :: 0 <= k < |errors| ==> results[k] == Err(errors[k]))
      && (proc.phase.Done? ==> results != [] && results[|results| - 1] == proc.phase.outcome)
      && (proc.phase.Done? && proc.phase.outcome.Err? && proc.retries == 0 ==> attempts == |errors| == r + 1)
  {
    RunProgress(run, actions, v, j);
    var p := actions[v].p;
    var results := Results(run, actions, v + 1, j, p);
    if AllFailed(results) {
      assert results != [] ==> AllFailed(results[..|results| - 1]);
    }
    ReportedErrors(results);
    if run[j].procs[p].phase.Done? && run[j].procs[p].phase.outcome.Err? {
      AllHaveFailed(results);
    }
  }

  /**
   What a refresher is given is what it has as its outcome at that moment, and so the outcome of a fetch for its key.
   */
  lemma {:induction false} ResultsAreOutcomes(run: seq<State>, actions: seq<Action>, i: nat, j: nat, p: nat, k: nat)
      returns (m: nat)
    requires IsRun(run, actions) && i <= j < |run| && k < |Results(run, actions, i, j, p)|
    ensures i < m <= j && p in run[m].procs && run[m].procs[p].phase.Done?
    ensures run[m].procs[p].phase.outcome == Results(run, actions, i, j, p)[k]
  {
    m := j;
    if i == j {
    } else {
      var before := Results(run, actions, i, j - 1, p);
      assert run[j] == Step(run[j - 1], actions[j - 1]);
      if k < |before| {
        m := ResultsAreOutcomes(run, actions, i, j - 1, p, k);
      } else {
        GetsOutcome(run[j - 1], actions[j - 1], p);
      }
    }
  }

  /** The errors reported so far by the refresher begun at the visit `v`. */
  ghost function ErrorsOf(run: seq<State>, actions: seq<Action>, v: nat, j: nat): seq<string>
    requires IsRun(run, actions) && v < j < |run| && actions[v].Visit?
  {
    Reported(Results(run, actions, v + 1, j, actions[v].p))
  }

  /** A visit before the moment `j`, with `r` retries, of one of the keys. */
  predicate IsVisit(actions: seq<Action>, v: nat, j: nat, keys: set<string>, r: nat) {
    v < j <= |actions| && actions[v].Visit? && actions[v].key in keys && actions[v].retries == r
  }

  /** The visits of a pass, of distinct keys; `visited` are the keys and `errors` what each has reported so far. */
  ghost predicate IsPass(run: seq<State>, actions: seq<Action>, visits: seq<nat>, j: nat, keys: set<string>, r: nat,
                         visited: seq<string>, errors: seq<seq<string>>)
    requires IsRun(run, actions) && j < |run|
  {
    && |visits| == |visited| == |errors| && S.Distinct(visited)
    && forall k :: 0 <= k < |visits| ==>
         IsVisit(actions, visits[k], j, keys, r)
         && visited[k] == actions[visits[k]].key && errors[k] == ErrorsOf(run, actions, visits[k], j)
  }

  /**
   The errors of a pass fit into a channel with room for r+1 at each key, however the visits overlap, in every run.
   */
  lemma PassErrorsFit(run: seq<State>, actions: seq<Action>, visits: seq<nat>, j: nat, keys: set<string>, r: nat,
                      visited: seq<string>, errors: seq<seq<string>>)
    requires IsRun(run, actions) && j < |run| && IsPass(run, actions, visits, j, keys, r, visited, errors)
    ensures |S.Concat(errors)| <= |keys| * (r + 1)
  {
    forall k | 0 <= k < |visited| ensures |errors[k]| <= if visited[k] in keys then r + 1 else 0 {
      assert IsVisit(actions, visits[k], j, keys, r);
      RetriesAndErrors(run, actions, visits[k], j);
    }
    S.ErrorsFit(keys, visited, errors, r + 1);
    S.RoomIsProduct(|keys|, r + 1);
  }

  /** A fetch is for the arguments of the goroutine that leads it. */
  ghost predicate LeadersAsk(s: State) {
    forall t :: 0 <= t < |s.fetches| ==>
      s.fetches[t].leader in s.procs && s.procs[s.fetches[t].leader].args == s.fetches[t].args
  }

  lemma LeadersAskKept(s: State, a: Action, t: nat)
    requires Inv(s) && LeadersAsk(s) && Enabled(s, a) && t < |Step(s, a).fetches|
    ensures var s' := Step(s, a);
      s'.fetches[t].leader in s'.procs && s'.procs[s'.fetches[t].leader].args == s'.fetches[t].args
  {
    if t < |s.fetches| {
      FetchKept(s, a, t);
      ProcStays(s, a, s.fetches[t].leader);
      ProcArgsKept(s, a);
    } else {
      NewFetchIsOwn(s, a, t);
    }
  }

  lemma NewFetchIsOwn(s: State, a: Action, t: nat)
    requires Enabled(s, a) && |s.fetches| <= t < |Step(s, a).fetches|
    ensures var s' := Step(s, a);
      s'.fetches[t].leader in s'.procs && s'.procs[s'.fetches[t].leader].args == s'.fetches[t].args
  {
  }

  lemma {:induction false} RunLeadersAsk(run: seq<State>, actions: seq<Action>, i: nat)
    requires IsRun(run, actions) && i < |run|
    ensures LeadersAsk(run[i])
  {
    if i == 0 {
    } else {
      var m := i - 1;
      assert run[i] == Step(run[m], actions[m]);
      RunLeadersAsk(run, actions, m);
      RunKeeps(run, actions, m);
      forall t | 0 <= t < |run[i].fetches|
        ensures run[i].fetches[t].leader in run[i].procs
        ensures run[i].procs[run[i].fetches[t].leader].args == run[i].fetches[t].args
      {
        LeadersAskKept(run[m], actions[m], t);
      }
    }
  }

  /**
   In every run with clean callers, whatever they store meanwhile, every request a refresher sends is for the call
   stored under the key it visited with the roles sorted, and differs from the request for that call at most in their
   order.
   */
  lemma RequestsRepeatStoredCall(run: seq<State>, actions: seq<Action>, v: nat, j: nat, t: nat, expiry: int)
    requires IsRun(run, actions) && CleanCalls(actions) && v < j < |run| && actions[v].Visit?
    requires t < |run[j].fetches| && run[j].fetches[t].leader == actions[v].p
    ensures var stored, asked := run[v].cache[actions[v].key].item.args, run[j].fetches[t].args;
      asked == Canonical(stored) && SameUpToOrder(CreateRequest(asked, expiry), CreateRequest(stored, expiry))
  {
    RunLeadersAsk(run, actions, j);
    RefreshStaysAtItsKey(run, actions, v, j);
    RunKeeps(run, actions, v);
    RunKeys(run, actions, v);
    var line := run[v].cache[actions[v].key];
    assert LineOk(run[v].fetches, run[v].now, actions[v].key, line);
    RefreshRepeatsRequest(line.item, expiry);
  }
}
