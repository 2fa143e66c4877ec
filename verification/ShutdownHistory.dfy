/** Where the result of a run comes from: each error and each time in the supervisor's history is that of an action. */
module ShutdownHistory {
  import opened Text
  import opened Shutdown
  import opened ShutdownSafety

  /** Among the first `i` actions `ListenAndServe` of this server has returned this error. */
  ghost predicate HasFailed(actions: seq<Action>, i: nat, which: Which, error: Error) {
    exists k :: 0 <= k < i <= |actions| && IsFailure(actions[k], which, error)
  }

  predicate IsFailure(a: Action, which: Which, error: Error) {
    a.ListenReturns? && a.which == which && a.error == error
  }

  ghost predicate HasChosen(actions: seq<Action>, i: nat, branch: Branch, at: int) {
    exists k :: 0 <= k < i <= |actions| && actions[k] == Select(branch, at)
  }

  /** In this state the action tells the server to shut down, or is the answer of its shutdown. */
  predicate Tells(s: State, a: Action, which: Which) {
    a.Supervise? && if which == Api then s.sup.pc.Sleeping? else s.sup.pc.CheckHealth? && s.health.running
  }

  predicate Answers(s: State, a: Action, which: Which, error: Option<Error>) {
    a.ShutdownReturns? && a.answer == error && if which == Api then s.sup.pc.StoppingApi? else s.sup.pc.StoppingHealth?
  }

  ghost predicate WasTold(run: seq<State>, actions: seq<Action>, i: nat, which: Which, at: int)
    requires i <= |actions| < |run|
  {
    exists k :: 0 <= k < i && actions[k].at == at && Tells(run[k], actions[k], which)
  }

  ghost predicate HasAnswered(run: seq<State>, actions: seq<Action>, i: nat, which: Which, error: Option<Error>)
    requires i <= |actions| < |run|
  {
    exists k :: 0 <= k < i && Answers(run[k], actions[k], which, error)
  }

  ghost predicate HasAnsweredAt(run: seq<State>, actions: seq<Action>, i: nat, which: Which, error: Option<Error>,
                                at: int)
    requires i <= |actions| < |run|
  {
    exists k :: 0 <= k < i && actions[k].at == at && Answers(run[k], actions[k], which, error)
  }

  /** What a server is about to send, or has sent, is the error it failed with. */
  ghost predicate SentOk(server: Server, which: Which, actions: seq<Action>, i: nat) {
    && (server.pc.Sending? ==> HasFailed(actions, i, which, server.pc.error))
    && (server.box.Some? ==> HasFailed(actions, i, which, server.box.value))
  }

  function ServerOf(branch: Branch): Which {
    if branch == OnApi then Api else Health
  }

  ghost predicate ChoiceOk(sup: Supervisor, actions: seq<Action>, i: nat) {
    && (HasBranch(sup.pc) ==> HasChosen(actions, i, sup.branch, sup.branchAt))
    && (sup.received.Some? ==> HasBranch(sup.pc) && HasFailed(actions, i, ServerOf(sup.branch), sup.received.value))
  }

  ghost predicate HealthOk(run: seq<State>, actions: seq<Action>, i: nat)
    requires i <= |actions| < |run|
  {
    var sup := run[i].sup;
    && (sup.healthIssued.Some? ==> WasTold(run, actions, i, Health, sup.healthIssued.value))
    && (sup.healthDone.Some? ==> HasAnsweredAt(run, actions, i, Health, sup.healthError, sup.healthDone.value))
    && (sup.healthDone.None? ==> sup.healthError.None?)
    && (sup.healthDone.Some? ==> sup.healthIssued.Some?)
  }

  ghost predicate ApiOk(run: seq<State>, actions: seq<Action>, i: nat)
    requires i <= |actions| < |run|
  {
    var sup := run[i].sup;
    && (sup.apiIssued.Some? ==> WasTold(run, actions, i, Api, sup.apiIssued.value))
    && (sup.apiIssued.Some? && PastApi(sup.pc) ==> HasAnswered(run, actions, i, Api, sup.apiError))
    && (sup.apiIssued.None? ==> sup.apiError.None?)
  }

  lemma FailedBefore(actions: seq<Action>, i: nat, which: Which, error: Error)
    requires i < |actions|
    ensures HasFailed(actions, i, which, error) || IsFailure(actions[i], which, error)
            ==> HasFailed(actions, i + 1, which, error)
  {
  }

  /** What a step may do to what a server sends. */
  lemma ServerSends(s: State, a: Action, which: Which)
    requires Enabled(s, a)
    ensures var server, server' := Get(s, which), Get(Step(s, a), which);
      && (server'.pc.Sending? ==>
            server'.pc == server.pc || IsFailure(a, which, server'.pc.error))
      && (server'.box.Some? ==>
            server'.box == server.box || (server.pc.Sending? && server'.box == Some(server.pc.error)))
  {
    if a.Advance? {
      AdvanceSends(s.(now := a.at), a.which, which);
    } else if !a.ListenReturns? {
      OthersSendNothing(s, a, which);
    }
  }

  lemma AdvanceSends(s: State, mover: Which, which: Which)
    requires CanAdvance(s, mover)
    ensures var server, server' := Get(s, which), Get(AdvanceServer(s, mover), which);
      && (server'.pc.Sending? ==> server'.pc == server.pc)
      && (server'.box.Some? ==>
            server'.box == server.box || (server.pc.Sending? && server'.box == Some(server.pc.error)))
  {
    NextSends(Get(s, mover), mover, s.lock, s.pending);
  }

  lemma NextSends(server: Server, which: Which, lock: Lock, pending: int)
    ensures var server' := NextServer(server, which, lock, pending).0;
      && (server'.pc.Sending? ==> server' == server)
      && (server'.box == server.box || (server.pc.Sending? && server'.box == Some(server.pc.error)))
  {
  }

  lemma OthersSendNothing(s: State, a: Action, which: Which)
    requires Enabled(s, a) && !a.Advance? && !a.ListenReturns?
    ensures Get(Step(s, a), which).pc == Get(s, which).pc
    ensures Get(Step(s, a), which).box.Some? ==> Get(Step(s, a), which).box == Get(s, which).box
  {
  }

  lemma {:induction false} RunSent(run: seq<State>, actions: seq<Action>, delay: int, healthEnabled: bool, i: nat,
                                   which: Which)
    requires IsRun(run, actions, delay, healthEnabled) && i < |run|
    ensures SentOk(Get(run[i], which), which, actions, i)
    decreases i
  {
    if i == 0 {
    } else {
      var m := i - 1;
      assert run[i] == Step(run[m], actions[m]);
      RunSent(run, actions, delay, healthEnabled, m, which);
      ServerSends(run[m], actions[m], which);
      var server, server' := Get(run[m], which), Get(run[i], which);
      if server'.pc.Sending? {
        FailedBefore(actions, m, which, server'.pc.error);
      }
      if server'.box.Some? {
        FailedBefore(actions, m, which, server'.box.value);
      }
    }
  }

  /** What a step may do to the supervisor's choice. */
  lemma StepChooses(s: State, a: Action)
    requires Inv(s) && Enabled(s, a)
    ensures var sup, sup' := s.sup, Step(s, a).sup;
      if a.Select? then
        && a == Select(sup'.branch, sup'.branchAt) && HasBranch(sup'.pc)
        && (sup'.received.Some? ==>
              sup'.branch != OnContext && Get(s, ServerOf(sup'.branch)).box == sup'.received)
      else
        && sup'.branch == sup.branch && sup'.branchAt == sup.branchAt && sup'.received == sup.received
        && HasBranch(sup'.pc) == HasBranch(sup.pc)
  {
    if a.Supervise? {
      NextSupervisorKeepsHistory(s.sup, s.health.running, s.api.running, a.at);
    } else if a.Select? {
      SelectChooses(s, a);
    }
  }

  lemma SelectChooses(s: State, a: Action)
    requires Inv(s) && Enabled(s, a) && a.Select?
    ensures var sup' := Step(s, a).sup;
      && a == Select(sup'.branch, sup'.branchAt) && HasBranch(sup'.pc)
      && (sup'.received.Some? ==>
            sup'.branch != OnContext && Get(s, ServerOf(sup'.branch)).box == sup'.received)
  {
  }

  lemma {:induction false} RunChoice(run: seq<State>, actions: seq<Action>, delay: int, healthEnabled: bool, i: nat)
    requires IsRun(run, actions, delay, healthEnabled) && i < |run|
    ensures ChoiceOk(run[i].sup, actions, i)
    decreases i
  {
    if i == 0 {
    } else {
      var m := i - 1;
      assert run[i] == Step(run[m], actions[m]);
      RunChoice(run, actions, delay, healthEnabled, m);
      RunKeeps(run, actions, delay, healthEnabled, m);
      StepChooses(run[m], actions[m]);
      var sup := run[i].sup;
      RunSent(run, actions, delay, healthEnabled, m, ServerOf(sup.branch));
      if sup.received.Some? {
        FailedBefore(actions, m, ServerOf(sup.branch), sup.received.value);
      }
    }
  }

  /** What a step may do to the history of the health check server's shutdown. */
  lemma StepHealth(s: State, a: Action)
    requires Inv(s) && Enabled(s, a)
    ensures var sup, sup' := s.sup, Step(s, a).sup;
      && (sup'.healthIssued == sup.healthIssued || (Tells(s, a, Health) && sup'.healthIssued == Some(a.at)))
      && ((sup'.healthDone == sup.healthDone && sup'.healthError == sup.healthError)
          || (Answers(s, a, Health, sup'.healthError) && sup'.healthDone == Some(a.at) && sup'.healthIssued.Some?))
  {
  }

  lemma {:induction false} RunHealth(run: seq<State>, actions: seq<Action>, delay: int, healthEnabled: bool, i: nat)
    requires IsRun(run, actions, delay, healthEnabled) && i < |run|
    ensures HealthOk(run, actions, i)
    decreases i
  {
    if i == 0 {
    } else {
      var m := i - 1;
      assert run[i] == Step(run[m], actions[m]);
      RunHealth(run, actions, delay, healthEnabled, m);
      RunKeeps(run, actions, delay, healthEnabled, m);
      StepHealth(run[m], actions[m]);
    }
  }

  /** What a step may do to the history of the API server's shutdown. */
  lemma StepApi(s: State, a: Action)
    requires Inv(s) && Enabled(s, a)
    ensures var sup, sup' := s.sup, Step(s, a).sup;
      && (if sup'.apiIssued == sup.apiIssued then true else Tells(s, a, Api) && sup'.apiIssued == Some(a.at))
      && (sup'.apiError == sup.apiError || Answers(s, a, Api, sup'.apiError))
      && (sup'.apiIssued.Some? && PastApi(sup'.pc) ==> PastApi(sup.pc) || Answers(s, a, Api, sup'.apiError))
      && (sup'.apiIssued.None? ==> sup'.apiError == sup.apiError)
  {
  }

  lemma {:induction false} RunApi(run: seq<State>, actions: seq<Action>, delay: int, healthEnabled: bool, i: nat)
    requires IsRun(run, actions, delay, healthEnabled) && i < |run|
    ensures ApiOk(run, actions, i)
    decreases i
  {
    if i == 0 {
    } else {
      var m := i - 1;
      assert run[i] == Step(run[m], actions[m]);
      RunApi(run, actions, delay, healthEnabled, m);
      RunKeeps(run, actions, delay, healthEnabled, m);
      StepApi(run[m], actions[m]);
    }
  }

  function Listed(error: Option<Error>): seq<Error> {
    if error.Some? then [error.value] else []
  }

  /** What the history says of a server's shutdown: told and answered with this error, or never told. */
  ghost predicate ShutDownAs(run: seq<State>, actions: seq<Action>, i: nat, which: Which, told: bool,
                             error: Option<Error>)
    requires i <= |actions| < |run|
  {
    if told then
      (exists at :: WasTold(run, actions, i, which, at)) && HasAnswered(run, actions, i, which, error)
    else
      error == None
  }

  /**
   The result of a run, through its actions: the error with which the server of the chosen branch failed, then those
   with which the shutdowns were answered, then, in the context branch, that of the context; only this last one alone
   is success.
   */
  lemma ResultFromActions(run: seq<State>, actions: seq<Action>, delay: int, healthEnabled: bool, i: nat)
    requires IsRun(run, actions, delay, healthEnabled) && i < |run| && run[i].verdict.Some?
    ensures var sup := run[i].sup;
      && HasChosen(actions, i, sup.branch, sup.branchAt)
      && (sup.branch == OnApi ==> sup.received.Some? && HasFailed(actions, i, Api, sup.received.value))
      && (sup.branch == OnHealth ==> sup.received.Some? && HasFailed(actions, i, Health, sup.received.value))
      && (sup.branch == OnContext ==> sup.received.None?)
      && ShutDownAs(run, actions, i, Health, sup.healthIssued.Some?, sup.healthError)
      && ShutDownAs(run, actions, i, Api, sup.apiIssued.Some?, sup.apiError)
    ensures var s, sup := run[i], run[i].sup;
      && s.delivered == [Listed(sup.received) + Listed(sup.healthError) + Listed(sup.apiError)
                         + (if sup.branch == OnContext then [ContextCanceled] else [])]
      && s.verdict.value == (if sup.branch == OnContext && sup.healthError.None? && sup.apiError.None? then []
                             else s.delivered[0])
  {
    ChoiceOfResult(run, actions, delay, healthEnabled, i);
    ShutdownsOfResult(run, actions, delay, healthEnabled, i);
    ErrorsOfResult(run, actions, delay, healthEnabled, i);
  }

  lemma ChoiceOfResult(run: seq<State>, actions: seq<Action>, delay: int, healthEnabled: bool, i: nat)
    requires IsRun(run, actions, delay, healthEnabled) && i < |run| && run[i].verdict.Some?
    ensures var sup := run[i].sup;
      && HasChosen(actions, i, sup.branch, sup.branchAt)
      && (sup.received.Some? <==> sup.branch != OnContext)
      && (sup.received.Some? ==> HasFailed(actions, i, ServerOf(sup.branch), sup.received.value))
  {
    RunKeeps(run, actions, delay, healthEnabled, i);
    RunChoice(run, actions, delay, healthEnabled, i);
  }

  lemma ShutdownsOfResult(run: seq<State>, actions: seq<Action>, delay: int, healthEnabled: bool, i: nat)
    requires IsRun(run, actions, delay, healthEnabled) && i < |run| && run[i].verdict.Some?
    ensures var sup := run[i].sup;
      && ShutDownAs(run, actions, i, Health, sup.healthIssued.Some?, sup.healthError)
      && ShutDownAs(run, actions, i, Api, sup.apiIssued.Some?, sup.apiError)
  {
    RunKeeps(run, actions, delay, healthEnabled, i);
    RunHealth(run, actions, delay, healthEnabled, i);
    RunApi(run, actions, delay, healthEnabled, i);
    var sup := run[i].sup;
    if sup.healthIssued.Some? {
      assert HasAnsweredAt(run, actions, i, Health, sup.healthError, sup.healthDone.value);
    }
  }

  lemma ErrorsOfResult(run: seq<State>, actions: seq<Action>, delay: int, healthEnabled: bool, i: nat)
    requires IsRun(run, actions, delay, healthEnabled) && i < |run| && run[i].verdict.Some?
    ensures var s, sup := run[i], run[i].sup;
      && s.delivered == [Listed(sup.received) + Listed(sup.healthError) + Listed(sup.apiError)
                         + (if sup.branch == OnContext then [ContextCanceled] else [])]
      && s.verdict.value == (if sup.branch == OnContext && sup.healthError.None? && sup.apiError.None? then []
                             else s.delivered[0])
  {
    VerdictOfRun(run, actions, delay, healthEnabled, i);
    ReportListed(run[i].sup.branch, run[i].sup.received, run[i].sup.healthError, run[i].sup.apiError);
  }

  lemma ReportListed(branch: Branch, received: Option<Error>, health: Option<Error>, api: Option<Error>)
    ensures Report(branch, received, health, api) ==
            Listed(received) + Listed(health) + Listed(api) + (if branch == OnContext then [ContextCanceled] else [])
  {
  }

  lemma {:induction false} HealthStaysIssued(run: seq<State>, actions: seq<Action>, delay: int, healthEnabled: bool,
                                             i: nat, j: nat)
    requires IsRun(run, actions, delay, healthEnabled) && i <= j < |run| && run[i].sup.healthIssued.Some?
    ensures run[j].sup.healthIssued.Some?
    decreases j
  {
    if i == j {
    } else {
      var m := j - 1;
      HealthStaysIssued(run, actions, delay, healthEnabled, i, m);
      RunKeeps(run, actions, delay, healthEnabled, m);
      assert run[j] == Step(run[m], actions[m]);
      StepHealth(run[m], actions[m]);
    }
  }

  lemma TellsIssues(s: State, a: Action)
    requires Enabled(s, a)
    ensures Tells(s, a, Health) ==> Step(s, a).sup.healthIssued == Some(a.at)
    ensures Tells(s, a, Api) ==> Step(s, a).sup.apiIssued == Some(a.at)
  {
  }

  /** The choice of a branch no later than `latest`, before the action `k`. */
  ghost predicate ChosenBy(actions: seq<Action>, k: nat, latest: int)
    requires k <= |actions|
  {
    exists c :: 0 <= c < k && actions[c].Select? && actions[c].at <= latest
  }

  ghost predicate HealthAnsweredBy(run: seq<State>, actions: seq<Action>, k: nat, latest: int)
    requires k <= |actions| < |run|
  {
    exists a :: 0 <= a < k && actions[a].ShutdownReturns? && run[a].sup.pc.StoppingHealth? && actions[a].at <= latest
  }

  /**
   In every run the API server is told to shut down the full delay after the choice of the branch and, if the health
   check server has been told, the full delay after that one's shutdown has returned.
   */
  lemma ApiIsToldLast(run: seq<State>, actions: seq<Action>, delay: int, healthEnabled: bool, k: nat, h: nat)
    requires IsRun(run, actions, delay, healthEnabled) && h < k < |actions| && Tells(run[k], actions[k], Api)
    ensures ChosenBy(actions, k, actions[k].at - delay)
    ensures Tells(run[h], actions[h], Health) ==> HealthAnsweredBy(run, actions, k, actions[k].at - delay)
  {
    var i := k + 1;
    assert run[i] == Step(run[k], actions[k]);
    TellsIssues(run[k], actions[k]);
    ShutdownOrder(run, actions, delay, healthEnabled, i);
    RunChoice(run, actions, delay, healthEnabled, i);
    RunKeeps(run, actions, delay, healthEnabled, i);
    var sup := run[i].sup;
    assert HasChosen(actions, i, sup.branch, sup.branchAt);
    if Tells(run[h], actions[h], Health) {
      HealthDoneAt(run, actions, delay, healthEnabled, h, i);
      assert HasAnsweredAt(run, actions, i, Health, sup.healthError, sup.healthDone.value);
    }
  }

  lemma HealthDoneAt(run: seq<State>, actions: seq<Action>, delay: int, healthEnabled: bool, h: nat, i: nat)
    requires IsRun(run, actions, delay, healthEnabled) && h < i < |run| && Tells(run[h], actions[h], Health)
    requires run[i].sup.apiIssued.Some?
    ensures var sup := run[i].sup;
      && sup.healthIssued.Some? && sup.healthDone.Some?
      && HasAnsweredAt(run, actions, i, Health, sup.healthError, sup.healthDone.value)
  {
    assert run[h + 1] == Step(run[h], actions[h]);
    TellsIssues(run[h], actions[h]);
    HealthStaysIssued(run, actions, delay, healthEnabled, h + 1, i);
    ShutdownOrder(run, actions, delay, healthEnabled, i);
    RunHealth(run, actions, delay, healthEnabled, i);
  }
}
