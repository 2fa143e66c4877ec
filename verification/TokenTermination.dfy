/** No call and no refresh takes steps for ever: a measure over all goroutines and the retries they have left. */
module TokenTermination {
  import opened TokenModel
  import opened TokenProtocol
  import TokenSafety

  function Rank(phase: Phase): nat {
    match phase
    case Looking => 6
    case Updating => 5
    case Entering(_) => 4
    case Fetching(_) => 3
    case Storing(_) => 2
    case Closing(_) => 1
    case Waiting(_) => 1
    case Done(_, _) => 0
  }

  /** The steps a goroutine has left; an attempt takes at most six, counting the decision to make it. */
  function Left(proc: Proc): nat {
    Rank(proc.phase) + 6 * proc.retries
  }

  ghost function Measure(procs: map<nat, Proc>): nat {
    if procs == map[] then
      0
    else
      var p :| p in procs;
      Left(procs[p]) + Measure(procs - {p})
  }

  /** Which goroutine is counted first does not matter. */
  lemma {:induction false} MeasureWithout(procs: map<nat, Proc>, p: nat)
    requires p in procs
    ensures Measure(procs) == Left(procs[p]) + Measure(procs - {p})
    decreases |procs|
  {
    var q :| q in procs && Measure(procs) == Left(procs[q]) + Measure(procs - {q});
    if q != p {
      MeasureWithout(procs - {q}, p);
      MeasureWithout(procs - {p}, q);
      assert procs - {q} - {p} == procs - {p} - {q};
    }
  }

  /** One goroutine moves or starts. */
  lemma MeasureUpdate(procs: map<nat, Proc>, p: nat, proc: Proc)
    ensures Measure(procs[p := proc]) == Measure(procs) + Left(proc) - (if p in procs then Left(procs[p]) else 0)
  {
    MeasureWithout(procs[p := proc], p);
    assert procs[p := proc] - {p} == procs - {p};
    if p in procs {
      MeasureWithout(procs, p);
    } else {
      assert procs - {p} == procs;
    }
  }

  /** Up to the clock, the cache and the world outside: not a step of a goroutine that is under way. */
  predicate External(a: Action) {
    a.Tick? || a.Purge? || a.Call? || a.Visit?
  }

  lemma MovesOne(s: State, a: Action)
    requires Enabled(s, a) && !External(a)
    ensures a.p in s.procs && a.p in Step(s, a).procs
    ensures Step(s, a).procs == s.procs[a.p := Step(s, a).procs[a.p]]
    ensures Left(Step(s, a).procs[a.p]) < Left(s.procs[a.p])
  {
  }

  /** What a call or a visit adds to the steps to be taken. */
  function Cost(a: Action): nat {
    if a.Call? then 6 else if a.Visit? then 5 + 6 * a.retries else 0
  }

  lemma StepDecreases(s: State, a: Action)
    requires Enabled(s, a)
    ensures if External(a) then Measure(Step(s, a).procs) == Measure(s.procs) + Cost(a)
            else Measure(Step(s, a).procs) < Measure(s.procs)
  {
    if !External(a) {
      MovesOne(s, a);
      MeasureUpdate(s.procs, a.p, Step(s, a).procs[a.p]);
    } else if a.Call? || a.Visit? {
      MeasureUpdate(s.procs, a.p, Step(s, a).procs[a.p]);
    }
  }

  function OwnSteps(actions: seq<Action>): nat {
    if actions == [] then
      0
    else
      OwnSteps(actions[..|actions| - 1]) + (if External(actions[|actions| - 1]) then 0 else 1)
  }

  function TotalCost(actions: seq<Action>): nat {
    if actions == [] then 0 else TotalCost(actions[..|actions| - 1]) + Cost(actions[|actions| - 1])
  }

  lemma {:induction false} MeasureBoundsSteps(run: seq<State>, actions: seq<Action>, i: nat)
    requires IsRun(run, actions) && i < |run|
    ensures OwnSteps(actions[..i]) + Measure(run[i].procs) <= TotalCost(actions[..i])
  {
    if i > 0 {
      MeasureBoundsSteps(run, actions, i - 1);
      StepDecreases(run[i - 1], actions[i - 1]);
      assert actions[..i][..i - 1] == actions[..i - 1];
    } else {
      assert actions[..i] == [];
    }
  }

  /** In every run a call takes at most six steps, and a visit with `r` retries at most 5 + 6r, all taken together. */
  lemma StepsAreBounded(run: seq<State>, actions: seq<Action>)
    requires IsRun(run, actions)
    ensures OwnSteps(actions) <= TotalCost(actions)
  {
    MeasureBoundsSteps(run, actions, |actions|);
    assert actions[..|actions|] == actions;
  }

  /** When no goroutine can move, each has its outcome, a refresher a token or no attempt left. */
  lemma QuietIsDone(run: seq<State>, actions: seq<Action>, i: nat, p: nat)
    requires IsRun(run, actions) && i < |run| && p in run[i].procs
    requires forall a :: Enabled(run[i], a) ==> External(a)
    ensures var proc := run[i].procs[p];
            proc.phase.Done? && (proc.phase.outcome.Ok? || proc.retries == 0)
  {
    var s := run[i];
    if !s.procs[p].phase.Done? {
      TokenSafety.NeverStuck(run, actions, i, p, Err(""));
    }
    assert !External(Retry(p)) && !Enabled(s, Retry(p));
  }
}
