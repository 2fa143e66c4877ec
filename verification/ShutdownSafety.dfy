/** What holds in every run of the shutdown protocol. */
module ShutdownSafety {
  import opened Text
  import opened Shutdown

  predicate HasAnnounced(pc: ServerPc) {
    pc.Waiting? || HoldsLock(pc)
  }

  predicate HoldsLock(pc: ServerPc) {
    pc.Flagging? || pc.Unlocking?
  }

  predicate InLock(pc: ServerPc) {
    pc.Announcing? || HasAnnounced(pc)
  }

  /** Before `wg.Done`. */
  predicate Starting(pc: ServerPc) {
    pc.Signalling? || (InLock(pc) && pc.up)
  }

  /** ListenAndServe has returned. */
  predicate Returned(pc: ServerPc) {
    pc.Sending? || HasSent(pc)
  }

  predicate HasSent(pc: ServerPc) {
    pc.Closing? || HasClosed(pc)
  }

  predicate HasClosed(pc: ServerPc) {
    pc.Exited? || (InLock(pc) && !pc.up)
  }

  predicate Flagged(pc: ServerPc) {
    pc.Signalling? || pc.Listening? || pc.Sending? || pc.Closing? || (pc.Unlocking? && pc.up)
    || (InLock(pc) && !pc.up && !pc.Unlocking?)
  }

  /** A server goroutine between its own place, the lock and its channel. */
  ghost predicate ServerOk(server: Server, which: Which, lock: Lock, consumed: bool) {
    && (HasAnnounced(server.pc) <==> lock.writer == Some(which))
    && (lock.writer == Some(which) ==> (HoldsLock(server.pc) <==> lock.granted))
    && (server.running <==> Flagged(server.pc))
    && (server.closed <==> HasClosed(server.pc))
    && (server.pc.Sending? ==> server.pc.error != ContextCanceled)
    && (server.box.Some? ==> server.box.value != ContextCanceled)
    && (server.box.Some? <==> HasSent(server.pc) && !consumed)
    && (consumed ==> HasSent(server.pc))
  }

  predicate HasBranch(pc: SupervisorPc) {
    !pc.WaitingGroup? && !pc.Selecting?
  }

  /** The supervisor has received from the channel of this server. */
  predicate Consumed(sup: Supervisor, which: Which) {
    HasBranch(sup.pc) && sup.branch == (if which == Api then OnApi else OnHealth)
  }

  predicate Reads(pc: SupervisorPc) {
    pc.CheckHealth? || pc.StoppingHealth? || pc.CheckApi? || pc.Sleeping? || pc.StoppingApi? || pc.Releasing?
  }

  function Count(pc: ServerPc): int {
    if Starting(pc) then 1 else 0
  }

  ghost predicate LockOk(lock: Lock, pc: SupervisorPc) {
    && (lock.reader <==> Reads(pc))
    && !(lock.reader && lock.granted)
    && (lock.granted ==> lock.writer.Some?)
  }

  ghost predicate GroupOk(s: State) {
    && s.pending == Count(s.api.pc) + Count(s.health.pc)
    && (!s.sup.pc.WaitingGroup? ==> s.pending == 0)
    && !s.api.pc.Absent?
  }

  /** The server has returned from listening, or has been told to shut down, or is not enabled. */
  predicate Covered(s: State, which: Which) {
    var server := Get(s, which);
    server.pc.Absent? || Returned(server.pc)
    || (if which == Api then s.sup.apiIssued.Some? else s.sup.healthIssued.Some?)
  }

  predicate PastHealth(pc: SupervisorPc) {
    pc.StoppingHealth? || pc.CheckApi? || pc.Sleeping? || pc.StoppingApi? || PastApi(pc)
  }

  predicate PastApi(pc: SupervisorPc) {
    pc.Releasing? || pc.Reporting? || pc.Finished?
  }

  ghost predicate CoverOk(s: State) {
    && (PastHealth(s.sup.pc) && s.sup.branch != OnHealth ==> Covered(s, Health))
    && (PastApi(s.sup.pc) ==> Covered(s, Api))
    && (Consumed(s.sup, Health) ==> Returned(s.health.pc))
    && (Consumed(s.sup, Api) ==> Returned(s.api.pc))
    && (HasBranch(s.sup.pc) && s.sup.branch == OnContext ==> s.canceled)
    && (s.canceled <==> s.isSignal)
  }

  /** The supervisor's errors are those of its history, and each part of its history fits its place. */
  ghost predicate ErrorsOk(sup: Supervisor) {
    && sup.errors == Collect(sup.received, sup.healthError, sup.apiError)
    && (sup.received.Some? <==> HasBranch(sup.pc) && sup.branch != OnContext)
    && (sup.received.Some? ==> sup.received.value != ContextCanceled)
    && (sup.branch == OnHealth && HasBranch(sup.pc) ==> !sup.pc.CheckHealth? && !sup.pc.StoppingHealth?)
    && (sup.branch == OnApi && HasBranch(sup.pc) ==> !sup.pc.CheckApi? && !sup.pc.Sleeping? && !sup.pc.StoppingApi?)
    && (sup.healthError.Some? ==> sup.healthDone.Some?)
    && (sup.apiError.Some? ==> PastApi(sup.pc))
  }

  /** What has been reported, and what `run` made of it. */
  ghost predicate ReportOk(s: State) {
    var sup := s.sup;
    var report := Report(sup.branch, sup.received, sup.healthError, sup.apiError);
    if sup.pc.Finished? then
      && s.delivered == [report]
      && (s.verdict.None? ==> s.outbox == Some(report))
      && (s.verdict.Some? ==> s.outbox.None?)
      && (s.verdict.Some? ==> s.verdict.value == if sup.branch == OnContext && |report| == 1 then [] else report)
    else
      s.delivered == [] && s.outbox.None? && s.verdict.None?
  }

  /** The times of the shutdowns. */
  ghost predicate TimesOk(sup: Supervisor, now: int, delay: int) {
    && (HasBranch(sup.pc) ==> sup.branchAt <= now)
    && (sup.healthIssued.Some? ==> PastHealth(sup.pc) && sup.branch != OnHealth)
    && (sup.pc.StoppingHealth? ==> sup.healthIssued.Some?)
    && (sup.healthIssued.Some? && !sup.pc.StoppingHealth? ==> sup.healthDone.Some?)
    && (sup.healthDone.Some? ==>
          PastHealth(sup.pc) && !sup.pc.StoppingHealth? && sup.branchAt <= sup.healthDone.value <= now)
    && (sup.pc.Sleeping? ==> AfterBoth(sup, sup.pc.since, 0) && sup.pc.since <= now)
    && (sup.apiIssued.Some? ==> sup.pc.StoppingApi? || PastApi(sup.pc))
    && (sup.pc.StoppingApi? ==> sup.apiIssued.Some?)
    && (sup.apiIssued.Some? ==> AfterBoth(sup, sup.apiIssued.value, delay) && AfterBoth(sup, sup.apiIssued.value, 0))
  }

  /** The time comes `delay` after the choice of the branch and after the health check server was shut down. */
  predicate AfterBoth(sup: Supervisor, time: int, delay: int) {
    sup.branchAt + delay <= time && (sup.healthDone.Some? ==> sup.healthDone.value + delay <= time)
  }

  ghost predicate Inv(s: State) {
    && ServerOk(s.api, Api, s.lock, Consumed(s.sup, Api))
    && ServerOk(s.health, Health, s.lock, Consumed(s.sup, Health))
    && LockOk(s.lock, s.sup.pc)
    && GroupOk(s)
    && CoverOk(s)
    && ErrorsOk(s.sup)
    && ReportOk(s)
    && TimesOk(s.sup, s.now, s.delay)
  }

  predicate MayAdvance(server: Server, lock: Lock) {
    && (server.pc.Announcing? ==> lock.writer.None?)
    && (server.pc.Waiting? ==> !lock.reader)
    && (server.pc.Sending? ==> server.box.None? && !server.closed)
    && !server.pc.Listening? && !server.pc.Exited? && !server.pc.Absent?
  }

  function Other(which: Which): Which {
    if which == Api then Health else Api
  }

  /** What a step of the server goroutine may do to its variables, the lock and the wait group. */
  ghost predicate ServerStep(server: Server, server': Server, which: Which, lock: Lock, lock': Lock, done: int,
                             consumed: bool) {
    && ServerOk(server', which, lock', consumed)
    && lock'.reader == lock.reader
    && (lock'.granted ==> lock'.writer.Some? && (lock.granted || !lock.reader))
    && (lock' == lock || (lock'.writer != Some(Other(which)) && lock.writer != Some(Other(which))))
    && done == Count(server.pc) - Count(server'.pc) >= 0
    && (Returned(server.pc) <==> Returned(server'.pc))
    && !server.pc.Absent? && !server'.pc.Absent?
  }

  lemma NextServerOk(server: Server, which: Which, lock: Lock, pending: int, consumed: bool)
    requires ServerOk(server, which, lock, consumed) && (lock.granted ==> lock.writer.Some?)
    requires MayAdvance(server, lock)
    ensures var (server', lock', _) := NextServer(server, which, lock, pending);
            ServerOk(server', which, lock', consumed)
  {
  }

  lemma NextServerLock(server: Server, which: Which, lock: Lock, pending: int, consumed: bool)
    requires ServerOk(server, which, lock, consumed) && (lock.granted ==> lock.writer.Some?)
    requires MayAdvance(server, lock)
    ensures var (server', lock', pending') := NextServer(server, which, lock, pending);
      && lock'.reader == lock.reader
      && (lock'.granted ==> lock'.writer.Some? && (lock.granted || !lock.reader))
      && (lock' == lock || (lock'.writer != Some(Other(which)) && lock.writer != Some(Other(which))))
  {
  }

  lemma NextServerKeeps(server: Server, which: Which, lock: Lock, pending: int, consumed: bool)
    requires ServerOk(server, which, lock, consumed) && (lock.granted ==> lock.writer.Some?)
    requires MayAdvance(server, lock)
    ensures var (server', lock', pending') := NextServer(server, which, lock, pending);
            ServerStep(server, server', which, lock, lock', pending - pending', consumed)
  {
    NextServerOk(server, which, lock, pending, consumed);
    NextServerLock(server, which, lock, pending, consumed);
  }

  lemma ServerStepKeeps(s: State, which: Which, server: Server, lock: Lock, pending: int)
    requires Inv(s)
    requires ServerStep(Get(s, which), server, which, s.lock, lock, s.pending - pending, Consumed(s.sup, which))
    ensures Inv(Put(s, which, server).(lock := lock, pending := pending))
  {
  }

  lemma AdvanceServerKeeps(s: State, which: Which)
    requires Inv(s) && CanAdvance(s, which)
    ensures Inv(AdvanceServer(s, which))
  {
    NextServerKeeps(Get(s, which), which, s.lock, s.pending, Consumed(s.sup, which));
    var (server, lock, pending) := NextServer(Get(s, which), which, s.lock, s.pending);
    ServerStepKeeps(s, which, server, lock, pending);
  }

  lemma AdvanceKeeps(s: State, which: Which, at: int)
    requires Inv(s) && Enabled(s, Advance(which, at))
    ensures Inv(Step(s, Advance(which, at)))
  {
    LaterKeeps(s, at);
    AdvanceServerKeeps(s.(now := at), which);
    assert Step(s, Advance(which, at)) == AdvanceServer(s.(now := at), which);
  }

  lemma ListenReturnsKeeps(s: State, which: Which, error: Error, at: int)
    requires Inv(s) && Enabled(s, ListenReturns(which, error, at))
    ensures Inv(Step(s, ListenReturns(which, error, at)))
  {
  }

  lemma SelectKeeps(s: State, branch: Branch, at: int)
    requires Inv(s) && Enabled(s, Select(branch, at))
    ensures Inv(Step(s, Select(branch, at)))
  {
  }

  lemma NextSupervisorKeepsHistory(sup: Supervisor, healthRunning: bool, apiRunning: bool, now: int)
    ensures var sup' := NextSupervisor(sup, healthRunning, apiRunning, now);
      && sup' == sup.(pc := sup'.pc, healthIssued := sup'.healthIssued, apiIssued := sup'.apiIssued)
      && (HasBranch(sup'.pc) == HasBranch(sup.pc))
      && (PastApi(sup.pc) ==> PastApi(sup'.pc))
  {
  }

  lemma NextSupervisorErrors(sup: Supervisor, healthRunning: bool, apiRunning: bool, now: int, delay: int)
    requires ErrorsOk(sup) && TimesOk(sup, now, delay)
    ensures var sup' := NextSupervisor(sup, healthRunning, apiRunning, now);
      && ErrorsOk(sup')
      && sup' == sup.(pc := sup'.pc, healthIssued := sup'.healthIssued, apiIssued := sup'.apiIssued)
      && HasBranch(sup'.pc) == HasBranch(sup.pc)
  {
    NextSupervisorKeepsHistory(sup, healthRunning, apiRunning, now);
  }

  lemma NextSupervisorTimes(sup: Supervisor, healthRunning: bool, apiRunning: bool, now: int, delay: int)
    requires ErrorsOk(sup) && TimesOk(sup, now, delay)
    requires sup.pc.Sleeping? ==> now >= sup.pc.since + delay
    ensures TimesOk(NextSupervisor(sup, healthRunning, apiRunning, now), now, delay)
  {
  }

  /** When it passes a server by, the supervisor leaves it told to shut down, returned, or never enabled. */
  lemma SuperviseCovers(s: State)
    requires Inv(s) && CanSupervise(s, s.now)
    ensures CoverOk(SuperviseStep(s))
  {
  }

  lemma SuperviseKeepsLock(s: State)
    requires Inv(s) && CanSupervise(s, s.now)
    ensures LockOk(SuperviseStep(s).lock, SuperviseStep(s).sup.pc)
    ensures GroupOk(SuperviseStep(s))
  {
  }

  lemma SuperviseKeepsServers(s: State)
    requires Inv(s) && CanSupervise(s, s.now)
    ensures var s' := SuperviseStep(s);
      && ServerOk(s'.api, Api, s'.lock, Consumed(s'.sup, Api))
      && ServerOk(s'.health, Health, s'.lock, Consumed(s'.sup, Health))
  {
  }

  lemma LaterKeeps(s: State, at: int)
    requires Inv(s) && at >= s.now
    ensures Inv(s.(now := at))
  {
  }

  lemma SuperviseKeepsReport(s: State)
    requires Inv(s) && CanSupervise(s, s.now)
    ensures ReportOk(SuperviseStep(s))
  {
  }

  lemma SuperviseStepKeeps(s: State)
    requires Inv(s) && CanSupervise(s, s.now)
    ensures Inv(SuperviseStep(s))
  {
    NextSupervisorErrors(s.sup, s.health.running, s.api.running, s.now, s.delay);
    NextSupervisorTimes(s.sup, s.health.running, s.api.running, s.now, s.delay);
    SuperviseCovers(s);
    SuperviseKeepsLock(s);
    SuperviseKeepsReport(s);
    SuperviseKeepsServers(s);
  }

  lemma SuperviseKeeps(s: State, at: int)
    requires Inv(s) && Enabled(s, Supervise(at))
    ensures Inv(Step(s, Supervise(at)))
  {
    LaterKeeps(s, at);
    SuperviseStepKeeps(s.(now := at));
    assert Step(s, Supervise(at)) == SuperviseStep(s.(now := at));
  }

  lemma ShutdownReturnsKeeps(s: State, answer: Option<Error>, at: int)
    requires Inv(s) && Enabled(s, ShutdownReturns(answer, at))
    ensures Inv(Step(s, ShutdownReturns(answer, at)))
  {
  }

  lemma MainKeeps(s: State, a: Action)
    requires Inv(s) && Enabled(s, a) && (a.Signal? || a.Receive?)
    ensures Inv(Step(s, a))
  {
  }

  lemma StepKeeps(s: State, a: Action)
    requires Inv(s) && Enabled(s, a)
    ensures Inv(Step(s, a))
  {
    match a
    case Advance(which, at) => AdvanceKeeps(s, which, at);
    case ListenReturns(which, error, at) => ListenReturnsKeeps(s, which, error, at);
    case Select(branch, at) => SelectKeeps(s, branch, at);
    case Supervise(at) => SuperviseKeeps(s, at);
    case ShutdownReturns(answer, at) => ShutdownReturnsKeeps(s, answer, at);
    case _ => MainKeeps(s, a);
  }

  lemma {:induction false} RunKeeps(run: seq<State>, actions: seq<Action>, delay: int, healthEnabled: bool, i: nat)
    requires IsRun(run, actions, delay, healthEnabled) && i < |run|
    ensures Inv(run[i])
  {
    if i == 0 {
    } else {
      RunKeeps(run, actions, delay, healthEnabled, i - 1);
      StepKeeps(run[i - 1], actions[i - 1]);
    }
  }

  /** Once the report is sent, every enabled server has returned from listening or has been told to shut down. */
  lemma ReportCoversServers(run: seq<State>, actions: seq<Action>, delay: int, healthEnabled: bool, i: nat)
    requires IsRun(run, actions, delay, healthEnabled) && i < |run| && run[i].delivered != []
    ensures Covered(run[i], Api) && Covered(run[i], Health)
  {
    RunKeeps(run, actions, delay, healthEnabled, i);
  }

  /** At most one report is ever sent, and only after the context ended or a server returned. */
  lemma OneReport(run: seq<State>, actions: seq<Action>, delay: int, healthEnabled: bool, i: nat)
    requires IsRun(run, actions, delay, healthEnabled) && i < |run|
    ensures |run[i].delivered| <= 1
    ensures run[i].delivered != [] ==> run[i].canceled || Returned(run[i].api.pc) || Returned(run[i].health.pc)
  {
    RunKeeps(run, actions, delay, healthEnabled, i);
  }

  /** No send on any of the three channels blocks. */
  lemma SendsNeverBlock(run: seq<State>, actions: seq<Action>, delay: int, healthEnabled: bool, i: nat)
    requires IsRun(run, actions, delay, healthEnabled) && i < |run|
    ensures run[i].api.pc.Sending? ==> Enabled(run[i], Advance(Api, run[i].now))
    ensures run[i].health.pc.Sending? ==> Enabled(run[i], Advance(Health, run[i].now))
    ensures run[i].sup.pc.Reporting? ==> Enabled(run[i], Supervise(run[i].now))
  {
    RunKeeps(run, actions, delay, healthEnabled, i);
  }

  /** A step that is not up to the environment: neither a signal nor a server that stops listening. */
  predicate Internal(a: Action) {
    !a.Signal? && !a.ListenReturns?
  }

  predicate IsSupervisors(a: Action) {
    a.Supervise? || a.ShutdownReturns?
  }

  ghost predicate CanMove(s: State, kind: Action -> bool) {
    exists a :: Enabled(s, a) && kind(a)
  }

  lemma SupervisorMoves(s: State)
    requires Inv(s) && s.lock.reader
    ensures CanMove(s, IsSupervisors)
  {
    var at := if s.sup.pc.Sleeping? && s.sup.pc.since + s.delay > s.now then s.sup.pc.since + s.delay else s.now;
    if s.sup.pc.StoppingHealth? || s.sup.pc.StoppingApi? {
      assert Enabled(s, ShutdownReturns(None, at));
    } else {
      assert Enabled(s, Supervise(at));
    }
  }

  /** While it holds the read lock, the supervisor waits for no other goroutine. */
  lemma ReaderNeverWaits(run: seq<State>, actions: seq<Action>, delay: int, healthEnabled: bool, i: nat)
    requires IsRun(run, actions, delay, healthEnabled) && i < |run| && run[i].lock.reader
    ensures CanMove(run[i], IsSupervisors)
  {
    RunKeeps(run, actions, delay, healthEnabled, i);
    SupervisorMoves(run[i]);
  }

  /** A goroutine that has announced itself at the lock moves on when nobody reads. */
  lemma WriterMoves(s: State)
    requires Inv(s) && !s.lock.reader && s.lock.writer.Some?
    ensures Enabled(s, Advance(s.lock.writer.value, s.now))
  {
  }

  lemma StarterMoves(s: State, which: Which)
    requires Inv(s) && !s.lock.reader && s.lock.writer.None? && Starting(Get(s, which).pc)
    ensures Enabled(s, Advance(which, s.now))
  {
  }

  lemma SelectorMoves(s: State)
    requires Inv(s) && s.sup.pc.Selecting? && (s.canceled || Returned(s.api.pc) || Returned(s.health.pc))
    ensures CanMove(s, Internal)
  {
    if s.canceled {
      assert Enabled(s, Select(OnContext, s.now));
    } else if s.api.pc.Sending? {
      assert Enabled(s, Advance(Api, s.now));
    } else if s.health.pc.Sending? {
      assert Enabled(s, Advance(Health, s.now));
    } else if Returned(s.api.pc) {
      assert Enabled(s, Select(OnApi, s.now));
    } else {
      assert Enabled(s, Select(OnHealth, s.now));
    }
  }

  /** No deadlock: once the context ended or a server returned, some goroutine can move until `run` has its result. */
  lemma NeverStuck(run: seq<State>, actions: seq<Action>, delay: int, healthEnabled: bool, i: nat)
    requires IsRun(run, actions, delay, healthEnabled) && i < |run|
    requires run[i].canceled || Returned(run[i].api.pc) || Returned(run[i].health.pc)
    requires run[i].verdict.None?
    ensures CanMove(run[i], Internal)
  {
    RunKeeps(run, actions, delay, healthEnabled, i);
    var s := run[i];
    if s.lock.reader {
      SupervisorMoves(s);
    } else if s.sup.pc.Finished? {
      assert Enabled(s, Receive(s.now));
    } else if s.sup.pc.Reporting? {
      assert Enabled(s, Supervise(s.now));
    } else if s.sup.pc.Selecting? {
      SelectorMoves(s);
    } else if s.lock.writer.Some? {
      WriterMoves(s);
    } else if s.sup.pc.WaitingGroup? && s.pending > 0 {
      StarterMoves(s, if Starting(s.api.pc) then Api else Health);
    } else {
      assert Enabled(s, Supervise(s.now));
    }
  }

  /**
   Exactly one result: when the context has ended or a server has returned and no goroutine can move any more, one
   report has been sent and `run` has its result.
   */
  lemma ReportedAtRest(run: seq<State>, actions: seq<Action>, delay: int, healthEnabled: bool, i: nat)
    requires IsRun(run, actions, delay, healthEnabled) && i < |run|
    requires run[i].canceled || Returned(run[i].api.pc) || Returned(run[i].health.pc)
    requires !CanMove(run[i], Internal)
    ensures |run[i].delivered| == 1 && run[i].verdict.Some?
  {
    RunKeeps(run, actions, delay, healthEnabled, i);
    if run[i].verdict.None? {
      NeverStuck(run, actions, delay, healthEnabled, i);
    }
  }

  function ServerRank(pc: ServerPc): nat {
    match pc
    case Announcing(up) => if up then 12 else 4
    case Waiting(up) => if up then 11 else 3
    case Flagging(up) => if up then 10 else 2
    case Unlocking(up) => if up then 9 else 1
    case Signalling => 8
    case Listening => 7
    case Sending(_) => 6
    case Closing => 5
    case Exited => 0
    case Absent => 0
  }

  function SupervisorRank(pc: SupervisorPc): nat {
    match pc
    case WaitingGroup => 10
    case Selecting => 9
    case Locking => 8
    case CheckHealth => 7
    case StoppingHealth => 6
    case CheckApi => 5
    case Sleeping(_) => 4
    case StoppingApi => 3
    case Releasing => 2
    case Reporting => 1
    case Finished => 0
  }

  /** The steps that are left, over all goroutines. */
  function Measure(s: State): nat {
    ServerRank(s.api.pc) + ServerRank(s.health.pc) + SupervisorRank(s.sup.pc) + (if s.verdict.None? then 1 else 0)
  }

  lemma NextServerDecreases(server: Server, which: Which, lock: Lock, pending: int)
    requires MayAdvance(server, lock)
    ensures ServerRank(NextServer(server, which, lock, pending).0.pc) < ServerRank(server.pc)
  {
  }

  lemma NextSupervisorDecreases(s: State, at: int)
    requires CanSupervise(s, at)
    ensures SupervisorRank(NextSupervisor(s.sup, s.health.running, s.api.running, at).pc) < SupervisorRank(s.sup.pc)
  {
  }

  lemma AdvanceDecreases(s: State, which: Which)
    requires CanAdvance(s, which)
    ensures Measure(AdvanceServer(s, which)) < Measure(s)
  {
    NextServerDecreases(Get(s, which), which, s.lock, s.pending);
    var server := NextServer(Get(s, which), which, s.lock, s.pending).0;
    assert Get(AdvanceServer(s, which), which) == server;
    assert Get(AdvanceServer(s, which), Other(which)) == Get(s, Other(which));
  }

  lemma StepDecreases(s: State, a: Action)
    requires Enabled(s, a)
    ensures if a.Signal? then Measure(Step(s, a)) == Measure(s) else Measure(Step(s, a)) < Measure(s)
  {
    match a
    case Advance(which, at) => AdvanceDecreases(s.(now := at), which);
    case Supervise(at) => NextSupervisorDecreases(s, at);
    case _ => OutsideDecreases(s, a);
  }

  lemma OutsideDecreases(s: State, a: Action)
    requires Enabled(s, a) && !a.Advance? && !a.Supervise?
    ensures if a.Signal? then Measure(Step(s, a)) == Measure(s) else Measure(Step(s, a)) < Measure(s)
  {
  }

  function StepsBesidesSignals(actions: seq<Action>): nat {
    if actions == [] then
      0
    else
      StepsBesidesSignals(actions[..|actions| - 1]) + (if actions[|actions| - 1].Signal? then 0 else 1)
  }

  lemma {:induction false} MeasureBoundsSteps(run: seq<State>, actions: seq<Action>, delay: int, healthEnabled: bool,
                                              i: nat)
    requires IsRun(run, actions, delay, healthEnabled) && i < |run|
    ensures StepsBesidesSignals(actions[..i]) + Measure(run[i]) <= Measure(run[0])
  {
    if i > 0 {
      MeasureBoundsSteps(run, actions, delay, healthEnabled, i - 1);
      StepDecreases(run[i - 1], actions[i - 1]);
      assert actions[..i][..i - 1] == actions[..i - 1];
    } else {
      assert actions[..i] == [];
    }
  }

  lemma StartMeasure(now: int, delay: int, healthEnabled: bool)
    ensures Measure(Start(now, delay, healthEnabled)) <= 35
  {
  }

  /** The protocol terminates: signals apart, no run takes more than 35 steps. */
  lemma RunsAreShort(run: seq<State>, actions: seq<Action>, delay: int, healthEnabled: bool)
    requires IsRun(run, actions, delay, healthEnabled)
    ensures StepsBesidesSignals(actions) <= 35
  {
    MeasureBoundsSteps(run, actions, delay, healthEnabled, |actions|);
    StartMeasure(run[0].now, delay, healthEnabled);
    assert actions[..|actions|] == actions;
  }

  /**
   `run` succeeds exactly when the supervisor took the context branch, which only a signal opens, and every shutdown
   went well; otherwise it returns the supervisor's report, of one to three errors.
   */
  lemma VerdictOfRun(run: seq<State>, actions: seq<Action>, delay: int, healthEnabled: bool, i: nat)
    requires IsRun(run, actions, delay, healthEnabled) && i < |run| && run[i].verdict.Some?
    ensures var s := run[i];
      && (s.verdict.value == [] <==> s.sup.branch == OnContext && s.sup.healthError.None? && s.sup.apiError.None?)
      && (s.verdict.value == [] ==> s.isSignal)
      && (s.verdict.value != [] ==> s.delivered == [s.verdict.value] && 1 <= |s.verdict.value| <= 3)
      && s.delivered == [Report(s.sup.branch, s.sup.received, s.sup.healthError, s.sup.apiError)]
  {
    RunKeeps(run, actions, delay, healthEnabled, i);
  }

  /** The health check server is shut down before the API server is told to, and that only after the full delay. */
  lemma ShutdownOrder(run: seq<State>, actions: seq<Action>, delay: int, healthEnabled: bool, i: nat)
    requires IsRun(run, actions, delay, healthEnabled) && i < |run|
    requires run[i].sup.apiIssued.Some?
    ensures var sup := run[i].sup; var issued := sup.apiIssued.value;
      && issued >= sup.branchAt + delay
      && (sup.healthIssued.Some? ==>
            sup.healthDone.Some? && issued >= sup.healthDone.value && issued >= sup.healthDone.value + delay)
  {
    RunKeeps(run, actions, delay, healthEnabled, i);
    DelayKept(run, actions, delay, healthEnabled, i);
  }

  lemma {:induction false} DelayKept(run: seq<State>, actions: seq<Action>, delay: int, healthEnabled: bool, i: nat)
    requires IsRun(run, actions, delay, healthEnabled) && i < |run|
    ensures run[i].delay == delay
  {
    if i == 0 {
    } else {
      DelayKept(run, actions, delay, healthEnabled, i - 1);
      assert run[i] == Step(run[i - 1], actions[i - 1]);
    }
  }
}
