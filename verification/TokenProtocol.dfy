/**
 The token cache under concurrency: callers, refreshers, the flight table of `singleflight`, the cache and the clock.
 A step is one atomic action of one goroutine; a run is any interleaving of such steps.
 */
module TokenProtocol {
  import opened Text
  import opened TokenModel

  /** A cache line; the ticket of the fetch it came from and the time of the store are history. */
  datatype Line = Line(item: Item, ticket: nat, storedAt: int)

  /** One run of the closure given to `group.Do`. Its ticket is its place in the order in which fetches start. */
  datatype Fetch = Fetch(args: Args, key: string, readAt: int, leader: nat, outcome: Option<Outcome>, closed: bool)

  datatype Phase =
    | Looking                 // before the look-up in the cache
    | Updating                // before the update reads the clock
    | Entering(readAt: int)   // before group.Do
    | Fetching(ticket: nat)   // leads a flight, waits for Athenz
    | Storing(ticket: nat)    // leads a flight, has a token to store
    | Closing(ticket: nat)    // leads a flight, the closure has returned
    | Waiting(ticket: nat)    // joined the flight of another
    | Done(ticket: nat, outcome: Outcome) // returns the outcome, which comes from this fetch

  /** A goroutine and its key: a caller, or the refresher at one key with the attempts it has left after this one. */
  datatype Proc = Proc(args: Args, key: string, retries: nat, phase: Phase)

  datatype Write = Write(key: string, ticket: nat)

  datatype State = State(
    now: int,
    cache: map<string, Line>,
    flights: map<string, nat>,
    fetches: seq<Fetch>,
    procs: map<nat, Proc>,
    writes: seq<Write>)

  datatype Action =
    | Tick(delay: nat)
    | Purge(key: string)                       // removal of an expired entry
    | Call(p: nat, args: Args)                 // getRoleToken, getAccessToken
    | Visit(p: nat, key: string, retries: nat) // the refresh pass reaches a key
    | Look(p: nat)
    | ReadClock(p: nat)
    | Enter(p: nat)                            // group.Do
    | Answer(p: nat, outcome: Outcome)         // Athenz answers the leader
    | Store(p: nat)                            // SetWithExpire
    | Close(p: nat)                            // the flight leaves the table
    | Wake(p: nat)                             // a joiner gets the leader's result
    | Retry(p: nat)

  ghost predicate Initial(s: State) {
    s == State(s.now, map[], map[], [], map[], [])
  }

  predicate Leads(phase: Phase) { phase.Fetching? || phase.Storing? || phase.Closing? }

  predicate Ticketed(s: State, p: nat) {
    p in s.procs && (Leads(s.procs[p].phase) || s.procs[p].phase.Waiting? || s.procs[p].phase.Done?)
    && s.procs[p].phase.ticket < |s.fetches|
  }

  predicate Enabled(s: State, a: Action) {
    match a
    case Tick(_) => true
    case Purge(key) => key in s.cache && !Readable(s.cache[key].item.deadline, s.now)
    case Call(p, _) => p !in s.procs
    case Visit(p, key, _) => p !in s.procs && key in s.cache && Readable(s.cache[key].item.deadline, s.now)
    case Look(p) => p in s.procs && s.procs[p].phase.Looking?
    case ReadClock(p) => p in s.procs && s.procs[p].phase.Updating?
    case Enter(p) => p in s.procs && s.procs[p].phase.Entering?
    case Answer(p, _) => Ticketed(s, p) && s.procs[p].phase.Fetching?
    case Store(p) =>
      Ticketed(s, p) && s.procs[p].phase.Storing?
      && s.fetches[s.procs[p].phase.ticket].outcome.Some? && s.fetches[s.procs[p].phase.ticket].outcome.value.Ok?
    case Close(p) =>
      Ticketed(s, p) && s.procs[p].phase.Closing? && s.fetches[s.procs[p].phase.ticket].outcome.Some?
    case Wake(p) =>
      Ticketed(s, p) && s.procs[p].phase.Waiting?
      && s.fetches[s.procs[p].phase.ticket].closed && s.fetches[s.procs[p].phase.ticket].outcome.Some?
    case Retry(p) => p in s.procs && s.procs[p].phase.Done? && s.procs[p].phase.outcome.Err? && s.procs[p].retries > 0
  }

  function SetPhase(s: State, p: nat, phase: Phase): State
    requires p in s.procs
  {
    s.(procs := s.procs[p := s.procs[p].(phase := phase)])
  }

  function LookUp(s: State, p: nat): State
    requires p in s.procs
  {
    var key := s.procs[p].key;
    if key in s.cache && Readable(s.cache[key].item.deadline, s.now) then
      var line := s.cache[key];
      SetPhase(s, p, Done(line.ticket, Ok(line.item.token)))
    else
      SetPhase(s, p, Updating)
  }

  /** Joins the flight of the key or, without one, starts a fetch. */
  function EnterGroup(s: State, p: nat): State
    requires p in s.procs && s.procs[p].phase.Entering?
  {
    var proc := s.procs[p];
    var key := proc.key;
    if key in s.flights then
      SetPhase(s, p, Waiting(s.flights[key]))
    else
      var ticket := |s.fetches|;
      SetPhase(s, p, Fetching(ticket)).(
        flights := s.flights[key := ticket],
        fetches := s.fetches + [Fetch(proc.args, key, proc.phase.readAt, p, None, false)])
  }

  function AnswerFetch(s: State, p: nat, outcome: Outcome): State
    requires Ticketed(s, p)
  {
    var ticket := s.procs[p].phase.ticket;
    SetPhase(s, p, if outcome.Ok? then Storing(ticket) else Closing(ticket)).(
      fetches := s.fetches[ticket := s.fetches[ticket].(outcome := Some(outcome))])
  }

  function StoreToken(s: State, p: nat): State
    requires Enabled(s, Store(p))
  {
    var ticket := s.procs[p].phase.ticket;
    var args, key := s.procs[p].args, s.procs[p].key;
    var item := NewItem(s.fetches[ticket].outcome.value.token, args, s.fetches[ticket].readAt, s.now);
    SetPhase(s, p, Closing(ticket)).(
      cache := s.cache[key := Line(item, ticket, s.now)],
      writes := s.writes + [Write(key, ticket)])
  }

  /** The outcome of the flight, as `group.Do` gives it to its leader and to those who joined. */
  function Result(s: State, p: nat): Phase
    requires Ticketed(s, p) && s.fetches[s.procs[p].phase.ticket].outcome.Some?
  {
    var ticket := s.procs[p].phase.ticket;
    Done(ticket, s.fetches[ticket].outcome.value)
  }

  function CloseFlight(s: State, p: nat): State
    requires Enabled(s, Close(p))
  {
    var ticket := s.procs[p].phase.ticket;
    SetPhase(s, p, Result(s, p)).(
      flights := s.flights - {s.procs[p].key},
      fetches := s.fetches[ticket := s.fetches[ticket].(closed := true)])
  }

  function Step(s: State, a: Action): State
    requires Enabled(s, a)
  {
    match a
    case Tick(delay) => s.(now := s.now + delay)
    case Purge(key) => s.(cache := s.cache - {key})
    case Call(p, args) => s.(procs := s.procs[p := Proc(args, args.Key(), 0, Looking)])
    case Visit(p, key, retries) =>
      var args := RefreshArgs(key, s.cache[key].item);
      s.(procs := s.procs[p := Proc(args, args.Key(), retries, Updating)])
    case Look(p) => LookUp(s, p)
    case ReadClock(p) => SetPhase(s, p, Entering(s.now))
    case Enter(p) => EnterGroup(s, p)
    case Answer(p, outcome) => AnswerFetch(s, p, outcome)
    case Store(p) => StoreToken(s, p)
    case Close(p) => CloseFlight(s, p)
    case Wake(p) => SetPhase(s, p, Result(s, p))
    case Retry(p) => s.(procs := s.procs[p := s.procs[p].(retries := s.procs[p].retries - 1, phase := Updating)])
  }

  predicate Next(s: State, a: Action, s': State) {
    Enabled(s, a) && s' == Step(s, a)
  }

  ghost predicate IsRun(run: seq<State>, actions: seq<Action>) {
    && |run| == |actions| + 1
    && Initial(run[0])
    && forall i :: 0 <= i < |actions| ==> Enabled(run[i], actions[i]) && run[i + 1] == Step(run[i], actions[i])
  }
}
