/**
 The two-server shutdown protocol: the goroutines of the API and the health check server, the supervisor with its
 three-way select, and the loop of `run` that turns the supervisor's report into the result of the process.
 */
module Shutdown {
  import opened Text

  datatype Error = ContextCanceled | Failure(text: string)

  datatype Which = Api | Health

  /** The branch of the supervisor's select. */
  datatype Branch = OnContext | OnApi | OnHealth

  /** What the supervisor reports: the received error, then those of the shutdowns, then that of the context. */
  function Report(branch: Branch, received: Option<Error>, health: Option<Error>, api: Option<Error>): seq<Error> {
    WithContextError(branch, Collect(received, health, api))
  }

  /** In the branch of the context, its error comes last. */
  function WithContextError(branch: Branch, errors: seq<Error>): seq<Error> {
    if branch == OnContext then AppendError(errors, Some(ContextCanceled)) else errors
  }

  function Collect(received: Option<Error>, health: Option<Error>, api: Option<Error>): seq<Error> {
    AppendError(AppendError(AppendError([], received), health), api)
  }

  function AppendError(errors: seq<Error>, error: Option<Error>): seq<Error> {
    if error.Some? then errors + [error.value] else errors
  }

  /** What `run` returns on a report, given the context's error at that time. */
  function Verdict(isSignal: bool, errors: seq<Error>, context: Option<Error>): seq<Error> {
    if !isSignal || |errors| != 1 || Some(errors[0]) != context then errors else []
  }

  /**
   The places of a server goroutine. It sets its running flag under the write lock before it listens (`up`) and clears
   it after. `Absent` is the health check server when it is not enabled.
   */
  datatype ServerPc =
    | Announcing(up: bool) | Waiting(up: bool) | Flagging(up: bool) | Unlocking(up: bool)
    | Signalling
    | Listening
    | Sending(error: Error)
    | Closing
    | Exited
    | Absent

  /** A server goroutine, its running flag and its channel of capacity one. */
  datatype Server = Server(pc: ServerPc, running: bool, box: Option<Error>, closed: bool)

  /** The RW lock: the writer that has announced itself, whether it holds the lock, whether the supervisor reads. */
  datatype Lock = Lock(writer: Option<Which>, granted: bool, reader: bool)

  datatype SupervisorPc =
    | WaitingGroup | Selecting | Locking
    | CheckHealth | StoppingHealth | CheckApi | Sleeping(since: int) | StoppingApi
    | Releasing | Reporting | Finished

  /** The supervisor, its variable `errors` and the history of its branch and shutdowns. */
  datatype Supervisor = Supervisor(
    pc: SupervisorPc,
    errors: seq<Error>,
    branch: Branch,
    branchAt: int,
    received: Option<Error>,
    healthError: Option<Error>,
    apiError: Option<Error>,
    healthIssued: Option<int>,
    healthDone: Option<int>,
    apiIssued: Option<int>)

  /** `outbox` is the buffer of the result channel, `delivered` all that was ever sent on it. */
  datatype State = State(
    now: int,
    delay: int,
    api: Server,
    health: Server,
    lock: Lock,
    pending: int,
    sup: Supervisor,
    outbox: Option<seq<Error>>,
    delivered: seq<seq<Error>>,
    canceled: bool,
    isSignal: bool,
    verdict: Option<seq<Error>>)

  /** An atomic step and the time at which it is taken. */
  datatype Action =
    | Signal(at: int)                                    // the process is signalled; `run` cancels the context
    | Advance(which: Which, at: int)                     // next step of a server goroutine
    | ListenReturns(which: Which, error: Error, at: int) // ListenAndServe returns
    | Select(branch: Branch, at: int)
    | Supervise(at: int)                                 // next step of the supervisor
    | ShutdownReturns(answer: Option<Error>, at: int)
    | Receive(at: int)                                   // `run` receives the report

  function NewServer(enabled: bool): Server {
    Server(if enabled then Announcing(true) else Absent, false, None, false)
  }

  function Start(now: int, delay: int, healthEnabled: bool): State {
    State(now, delay, NewServer(true), NewServer(healthEnabled), Lock(None, false, false),
          if healthEnabled then 2 else 1,
          Supervisor(WaitingGroup, [], OnContext, now, None, None, None, None, None, None),
          None, [], false, false, None)
  }

  function Get(s: State, which: Which): Server {
    if which == Api then s.api else s.health
  }

  function Put(s: State, which: Which, server: Server): State {
    if which == Api then s.(api := server) else s.(health := server)
  }

  function Goto(s: State, which: Which, pc: ServerPc): State {
    Put(s, which, Get(s, which).(pc := pc))
  }

  predicate CanAdvance(s: State, which: Which) {
    var server := Get(s, which);
    match server.pc
    case Announcing(_) => s.lock.writer.None?
    case Waiting(_) => !s.lock.reader
    case Sending(_) => server.box.None? && !server.closed
    case _ => !server.pc.Listening? && !server.pc.Exited? && !server.pc.Absent?
  }

  /** The goroutine's next step, on its own variables, the lock and the wait group. */
  function NextServer(server: Server, which: Which, lock: Lock, pending: int): (Server, Lock, int) {
    match server.pc
    case Announcing(up) => (server.(pc := Waiting(up)), lock.(writer := Some(which)), pending)
    case Waiting(up) => (server.(pc := Flagging(up)), lock.(granted := true), pending)
    case Flagging(up) => (server.(pc := Unlocking(up), running := up), lock, pending)
    case Unlocking(up) =>
      (server.(pc := if up then Signalling else Exited), lock.(writer := None, granted := false), pending)
    case Signalling => (server.(pc := Listening), lock, pending - 1)
    case Sending(error) => (server.(pc := Closing, box := Some(error)), lock, pending)
    case Closing => (server.(pc := Announcing(false), closed := true), lock, pending)
    case _ => (server, lock, pending)
  }

  function AdvanceServer(s: State, which: Which): State {
    var (server, lock, pending) := NextServer(Get(s, which), which, s.lock, s.pending);
    Put(s, which, server).(lock := lock, pending := pending)
  }

  predicate CanSelect(s: State, branch: Branch) {
    s.sup.pc.Selecting? &&
    match branch
    case OnContext => s.canceled
    case OnApi => s.api.box.Some? || s.api.closed
    case OnHealth => !s.health.pc.Absent? && (s.health.box.Some? || s.health.closed)
  }

  function SelectBranch(s: State, branch: Branch): State {
    var chosen := s.sup.(pc := Locking, branch := branch, branchAt := s.now);
    match branch
    case OnContext => s.(sup := chosen)
    case OnApi =>
      s.(api := s.api.(box := None),
         sup := chosen.(received := s.api.box, errors := AppendError(s.sup.errors, s.api.box)))
    case OnHealth =>
      s.(health := s.health.(box := None),
         sup := chosen.(received := s.health.box, errors := AppendError(s.sup.errors, s.health.box)))
  }

  predicate CanSupervise(s: State, at: int) {
    match s.sup.pc
    case WaitingGroup => s.pending == 0
    case Locking => s.lock.writer.None?
    case CheckHealth => true
    case CheckApi => true
    case Sleeping(since) => at >= since + s.delay
    case Releasing => true
    case Reporting => s.outbox.None?
    case _ => false
  }

  function AfterHealth(branch: Branch): SupervisorPc {
    if branch == OnContext then CheckApi else Releasing
  }

  /** The supervisor's next step, on its own variables; the running flags are read under the read lock. */
  function NextSupervisor(sup: Supervisor, healthRunning: bool, apiRunning: bool, now: int): Supervisor {
    match sup.pc
    case WaitingGroup => sup.(pc := Selecting)
    case Locking => sup.(pc := if sup.branch == OnHealth then CheckApi else CheckHealth)
    case CheckHealth =>
      if healthRunning then
        sup.(pc := StoppingHealth, healthIssued := Some(now))
      else
        sup.(pc := AfterHealth(sup.branch))
    case CheckApi => sup.(pc := if apiRunning then Sleeping(now) else Releasing)
    case Sleeping(_) => sup.(pc := StoppingApi, apiIssued := Some(now))
    case Releasing => sup.(pc := Reporting)
    case Reporting => sup.(pc := Finished)
    case _ => sup
  }

  function SuperviseStep(s: State): State {
    var report := WithContextError(s.sup.branch, s.sup.errors);
    s.(sup := NextSupervisor(s.sup, s.health.running, s.api.running, s.now),
       lock := s.lock.(reader := s.sup.pc.Locking? || (s.lock.reader && !s.sup.pc.Releasing?)),
       outbox := if s.sup.pc.Reporting? then Some(report) else s.outbox,
       delivered := if s.sup.pc.Reporting? then s.delivered + [report] else s.delivered)
  }

  function FinishShutdown(s: State, error: Option<Error>): State {
    if s.sup.pc.StoppingHealth? then
      s.(sup := s.sup.(pc := AfterHealth(s.sup.branch), healthError := error, healthDone := Some(s.now),
                       errors := AppendError(s.sup.errors, error)))
    else
      s.(sup := s.sup.(pc := Releasing, apiError := error, errors := AppendError(s.sup.errors, error)))
  }

  /** `Err` of the context. */
  function ContextError(s: State): Option<Error> {
    if s.canceled then Some(ContextCanceled) else None
  }

  predicate Enabled(s: State, a: Action) {
    a.at >= s.now &&
    match a
    case Signal(_) => s.verdict.None?
    case Advance(which, _) => CanAdvance(s, which)
    case ListenReturns(which, error, _) => Get(s, which).pc.Listening? && error != ContextCanceled
    case Select(branch, _) => CanSelect(s, branch)
    case Supervise(at) => CanSupervise(s, at)
    case ShutdownReturns(_, _) => s.sup.pc.StoppingHealth? || s.sup.pc.StoppingApi?
    case Receive(_) => s.outbox.Some? && s.verdict.None?
  }

  function Step(s0: State, a: Action): State
    requires Enabled(s0, a)
  {
    var s := s0.(now := a.at);
    match a
    case Signal(_) => s.(isSignal := true, canceled := true)
    case Advance(which, _) => AdvanceServer(s, which)
    case ListenReturns(which, error, _) => Goto(s, which, Sending(error))
    case Select(branch, _) => SelectBranch(s, branch)
    case Supervise(_) => SuperviseStep(s)
    case ShutdownReturns(error, _) => FinishShutdown(s, error)
    case Receive(_) => s.(outbox := None, verdict := Some(Verdict(s.isSignal, s.outbox.value, ContextError(s))))
  }

  predicate Next(s: State, a: Action, s': State) {
    Enabled(s, a) && s' == Step(s, a)
  }

  ghost predicate IsRun(run: seq<State>, actions: seq<Action>, delay: int, healthEnabled: bool) {
    && |run| == |actions| + 1
    && run[0] == Start(run[0].now, delay, healthEnabled)
    && forall i :: 0 <= i < |actions| ==> Enabled(run[i], actions[i]) && run[i + 1] == Step(run[i], actions[i])
  }
}
