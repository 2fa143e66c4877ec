/** Safety of the token cache protocol over every run. */
module TokenSafety {
  import opened Text
  import opened CacheKey
  import opened Requests
  import opened TokenModel
  import opened TokenProtocol

  /** What the phase of goroutine `p` says about the fetch it holds a ticket of. */
  ghost predicate ProcOk(fetches: seq<Fetch>, now: int, p: nat, proc: Proc) {
    match proc.phase
    case Looking => true
    case Updating => true
    case Entering(readAt) => readAt <= now
    case Fetching(t) => LeaderOk(fetches, p, proc, t) && fetches[t].outcome.None?
    case Storing(t) => LeaderOk(fetches, p, proc, t) && fetches[t].outcome.Some? && fetches[t].outcome.value.Ok?
    case Closing(t) => LeaderOk(fetches, p, proc, t) && fetches[t].outcome.Some?
    case Waiting(t) => t < |fetches| && fetches[t].key == proc.key
    case Done(t, outcome) => t < |fetches| && fetches[t].key == proc.key && fetches[t].outcome == Some(outcome)
  }

  ghost predicate LeaderOk(fetches: seq<Fetch>, p: nat, proc: Proc, t: nat) {
    t < |fetches| && fetches[t].leader == p && fetches[t].args == proc.args && fetches[t].key == proc.key
        && !fetches[t].closed
  }

  ghost predicate ProcsOk(s: State) {
    forall p :: p in s.procs ==> ProcOk(s.fetches, s.now, p, s.procs[p])
  }

  /** The flight table holds exactly the open fetches, at most one for a key. */
  ghost predicate FlightsOk(s: State) {
    && (forall k :: k in s.flights ==>
          s.flights[k] < |s.fetches| && !s.fetches[s.flights[k]].closed && s.fetches[s.flights[k]].key == k)
    && (forall t :: 0 <= t < |s.fetches| && !s.fetches[t].closed ==>
          s.fetches[t].key in s.flights && s.flights[s.fetches[t].key] == t)
  }

  ghost predicate FetchesOk(s: State) {
    forall t :: 0 <= t < |s.fetches| ==>
      && s.fetches[t].readAt <= s.now
      && (s.fetches[t].closed ==> s.fetches[t].outcome.Some?)
      && (!s.fetches[t].closed ==>
            s.fetches[t].leader in s.procs && Leads(s.procs[s.fetches[t].leader].phase)
            && s.procs[s.fetches[t].leader].phase.ticket == t)
  }

  /** A fetch starts only after every earlier fetch for its key has been closed. */
  ghost predicate InOrder(s: State) {
    forall t, u :: 0 <= t < u < |s.fetches| && s.fetches[t].key == s.fetches[u].key ==> s.fetches[t].closed
  }

  ghost predicate LineOk(fetches: seq<Fetch>, now: int, k: string, line: Line) {
    && line.ticket < |fetches|
    && var fetch := fetches[line.ticket];
       && fetch.outcome == Some(Ok(line.item.token))
       && line.item == NewItem(line.item.token, fetch.args, fetch.readAt, line.storedAt)
       && fetch.key == k
       && fetch.readAt <= line.storedAt <= now
  }

  ghost predicate CacheOk(s: State) {
    forall k :: k in s.cache ==> LineOk(s.fetches, s.now, k, s.cache[k])
  }

  ghost predicate Written(s: State, t: nat) {
    t < |s.fetches| && (s.fetches[t].closed ||
      (s.fetches[t].leader in s.procs && s.procs[s.fetches[t].leader].phase == Closing(t)))
  }

  /** The stores for a key happen in the order in which their fetches started, and the cache holds the last. */
  ghost predicate WritesOk(s: State) {
    && (forall i :: 0 <= i < |s.writes| ==>
          Written(s, s.writes[i].ticket) && s.fetches[s.writes[i].ticket].key == s.writes[i].key)
    && (forall i, j :: 0 <= i < j < |s.writes| && s.writes[i].key == s.writes[j].key ==>
        s.writes[i].ticket < s.writes[j].ticket)
    && (forall i :: 0 <= i < |s.writes| && s.writes[i].key in s.cache ==>
        s.writes[i].ticket <= s.cache[s.writes[i].key].ticket)
    && (forall k :: k in s.cache ==> Write(k, s.cache[k].ticket) in s.writes)
  }

  ghost predicate Inv(s: State) {
    ProcsOk(s) && FlightsOk(s) && FetchesOk(s) && InOrder(s) && CacheOk(s) && WritesOk(s)
  }

  /** A step that changes no leader and touches nothing but one goroutine. */
  lemma FollowerKeeps(s: State, p: nat, proc: Proc)
    requires Inv(s)
    requires p in s.procs ==> !Leads(s.procs[p].phase)
    requires !Leads(proc.phase) && ProcOk(s.fetches, s.now, p, proc)
    ensures Inv(s.(procs := s.procs[p := proc]))
  {
    var s' := s.(procs := s.procs[p := proc]);
    assert ProcsOk(s');
    assert FetchesOk(s');
    assert WritesOk(s') by {
      forall t | Written(s, t) ensures Written(s', t) {}
    }
  }

  lemma LeadKeepsProcs(s: State, p: nat)
    requires Inv(s) && Enabled(s, Enter(p)) && s.procs[p].key !in s.flights
    ensures ProcsOk(EnterGroup(s, p))
  {
  }

  lemma LeadKeepsTable(s: State, p: nat)
    requires Inv(s) && Enabled(s, Enter(p)) && s.procs[p].key !in s.flights
    ensures FlightsOk(EnterGroup(s, p))
  {
  }

  lemma LeadKeepsFetches(s: State, p: nat)
    requires Inv(s) && Enabled(s, Enter(p)) && s.procs[p].key !in s.flights
    ensures FetchesOk(EnterGroup(s, p))
  {
  }

  lemma LeadKeepsLog(s: State, p: nat)
    requires Inv(s) && Enabled(s, Enter(p)) && s.procs[p].key !in s.flights
    ensures InOrder(EnterGroup(s, p)) && CacheOk(EnterGroup(s, p))
  {
  }

  lemma LeadKeepsWrites(s: State, p: nat)
    requires Inv(s) && Enabled(s, Enter(p)) && s.procs[p].key !in s.flights
    ensures WritesOk(EnterGroup(s, p))
  {
  }

  lemma LeadKeeps(s: State, p: nat)
    requires Inv(s) && Enabled(s, Enter(p)) && s.procs[p].key !in s.flights
    ensures Inv(EnterGroup(s, p))
  {
    LeadKeepsProcs(s, p);
    LeadKeepsTable(s, p);
    LeadKeepsFetches(s, p);
    LeadKeepsLog(s, p);
    LeadKeepsWrites(s, p);
  }

  lemma AnswerKeepsProcs(s: State, p: nat, outcome: Outcome)
    requires Inv(s) && Enabled(s, Answer(p, outcome))
    ensures ProcsOk(AnswerFetch(s, p, outcome))
  {
  }

  lemma AnswerKeepsTable(s: State, p: nat, outcome: Outcome)
    requires Inv(s) && Enabled(s, Answer(p, outcome))
    ensures FlightsOk(AnswerFetch(s, p, outcome)) && FetchesOk(AnswerFetch(s, p, outcome))
  {
  }

  lemma AnswerKeepsLog(s: State, p: nat, outcome: Outcome)
    requires Inv(s) && Enabled(s, Answer(p, outcome))
    ensures InOrder(AnswerFetch(s, p, outcome)) && CacheOk(AnswerFetch(s, p, outcome))
  {
  }

  lemma AnswerKeepsWrites(s: State, p: nat, outcome: Outcome)
    requires Inv(s) && Enabled(s, Answer(p, outcome))
    ensures WritesOk(AnswerFetch(s, p, outcome))
  {
  }

  lemma AnswerKeeps(s: State, p: nat, outcome: Outcome)
    requires Inv(s) && Enabled(s, Answer(p, outcome))
    ensures Inv(AnswerFetch(s, p, outcome))
  {
    AnswerKeepsProcs(s, p, outcome);
    AnswerKeepsTable(s, p, outcome);
    AnswerKeepsLog(s, p, outcome);
    AnswerKeepsWrites(s, p, outcome);
  }

  lemma StoreKeepsProcs(s: State, p: nat)
    requires Inv(s) && Enabled(s, Store(p))
    ensures ProcsOk(StoreToken(s, p))
  {
  }

  lemma StoreKeepsTable(s: State, p: nat)
    requires Inv(s) && Enabled(s, Store(p))
    ensures FlightsOk(StoreToken(s, p)) && FetchesOk(StoreToken(s, p))
  {
  }

  lemma StoreKeepsLog(s: State, p: nat)
    requires Inv(s) && Enabled(s, Store(p))
    ensures InOrder(StoreToken(s, p)) && CacheOk(StoreToken(s, p))
  {
  }

  /** The token about to be stored comes from a later fetch than every token stored under its key before. */
  lemma StoreIsLatest(s: State, p: nat)
    requires Inv(s) && Enabled(s, Store(p))
    ensures forall i :: 0 <= i < |s.writes| && s.writes[i].key == s.procs[p].key ==>
            s.writes[i].ticket < s.procs[p].phase.ticket
  {
    var ticket := s.procs[p].phase.ticket;
    forall i | 0 <= i < |s.writes| && s.writes[i].key == s.procs[p].key ensures s.writes[i].ticket < ticket {
      assert Written(s, s.writes[i].ticket);
    }
  }

  lemma StoreKeepsWritten(s: State, p: nat)
    requires Inv(s) && Enabled(s, Store(p))
    ensures forall t :: Written(s, t) ==> Written(StoreToken(s, p), t)
    ensures Written(StoreToken(s, p), s.procs[p].phase.ticket)
  {
  }

  lemma StoreKeepsWrites(s: State, p: nat)
    requires Inv(s) && Enabled(s, Store(p))
    ensures WritesOk(StoreToken(s, p))
  {
    WritesStayInOrder(s, p);
    StoreKeepsWritten(s, p);
    LinesAreWritten(s, p);
  }

  lemma WritesStayInOrder(s: State, p: nat)
    requires Inv(s) && Enabled(s, Store(p))
    ensures var s' := StoreToken(s, p);
      && (forall i, j :: 0 <= i < j < |s'.writes| && s'.writes[i].key == s'.writes[j].key ==>
            s'.writes[i].ticket < s'.writes[j].ticket)
      && (forall i :: 0 <= i < |s'.writes| && s'.writes[i].key in s'.cache ==>
            s'.writes[i].ticket <= s'.cache[s'.writes[i].key].ticket)
  {
    StoreIsLatest(s, p);
  }

  lemma LinesAreWritten(s: State, p: nat)
    requires Inv(s) && Enabled(s, Store(p))
    ensures var s' := StoreToken(s, p); forall k :: k in s'.cache ==> Write(k, s'.cache[k].ticket) in s'.writes
  {
    var s' := StoreToken(s, p);
    assert s'.writes[|s.writes|] in s'.writes;
    assert forall w :: w in s.writes ==> w in s'.writes;
  }

  lemma StoreKeeps(s: State, p: nat)
    requires Inv(s) && Enabled(s, Store(p))
    ensures Inv(StoreToken(s, p))
  {
    StoreKeepsProcs(s, p);
    StoreKeepsTable(s, p);
    StoreKeepsLog(s, p);
    StoreKeepsWrites(s, p);
  }

  lemma CloseKeepsProcs(s: State, p: nat)
    requires Inv(s) && Enabled(s, Close(p))
    ensures ProcsOk(CloseFlight(s, p))
  {
  }

  lemma CloseKeepsTable(s: State, p: nat)
    requires Inv(s) && Enabled(s, Close(p))
    ensures FlightsOk(CloseFlight(s, p)) && FetchesOk(CloseFlight(s, p))
  {
  }

  lemma CloseKeepsLog(s: State, p: nat)
    requires Inv(s) && Enabled(s, Close(p))
    ensures InOrder(CloseFlight(s, p)) && CacheOk(CloseFlight(s, p))
  {
  }

  lemma CloseKeepsWrites(s: State, p: nat)
    requires Inv(s) && Enabled(s, Close(p))
    ensures WritesOk(CloseFlight(s, p))
  {
  }

  lemma CloseKeeps(s: State, p: nat)
    requires Inv(s) && Enabled(s, Close(p))
    ensures Inv(CloseFlight(s, p))
  {
    CloseKeepsProcs(s, p);
    CloseKeepsTable(s, p);
    CloseKeepsLog(s, p);
    CloseKeepsWrites(s, p);
  }

  lemma TickKeeps(s: State, delay: nat)
    requires Inv(s)
    ensures Inv(s.(now := s.now + delay))
  {
  }

  lemma PurgeKeeps(s: State, key: string)
    requires Inv(s)
    ensures Inv(s.(cache := s.cache - {key}))
  {
  }

  predicate ByClock(a: Action) { a.Tick? || a.Purge? }

  predicate ByNewcomer(a: Action) { a.Call? || a.Visit? }

  predicate ByLeader(s: State, a: Action)
    requires Enabled(s, a)
  {
    a.Answer? || a.Store? || a.Close? || (a.Enter? && s.procs[a.p].key !in s.flights)
  }

  lemma ClockStepKeeps(s: State, a: Action)
    requires Inv(s) && Enabled(s, a) && ByClock(a)
    ensures Inv(Step(s, a))
  {
    match a
    case Tick(delay) => TickKeeps(s, delay);
    case Purge(key) => PurgeKeeps(s, key);
  }

  lemma LeaderStepKeeps(s: State, a: Action)
    requires Inv(s) && Enabled(s, a) && ByLeader(s, a)
    ensures Inv(Step(s, a))
  {
    match a
    case Answer(p, outcome) => AnswerKeeps(s, p, outcome);
    case Store(p) => StoreKeeps(s, p);
    case Close(p) => CloseKeeps(s, p);
    case Enter(p) => LeadKeeps(s, p);
  }

  lemma SpawnKeeps(s: State, a: Action)
    requires Inv(s) && Enabled(s, a) && ByNewcomer(a)
    ensures Inv(Step(s, a))
  {
    FollowerKeeps(s, a.p, Step(s, a).procs[a.p]);
  }

  /** The other steps of a goroutine move nobody but itself. */
  lemma FollowerStep(s: State, a: Action)
    requires Inv(s) && Enabled(s, a) && !ByClock(a) && !ByNewcomer(a) && !ByLeader(s, a)
    ensures var s' := Step(s, a);
      && a.p in s.procs && a.p in s'.procs
      && s' == s.(procs := s.procs[a.p := s'.procs[a.p]])
      && !Leads(s.procs[a.p].phase) && !Leads(s'.procs[a.p].phase)
      && ProcOk(s.fetches, s.now, a.p, s'.procs[a.p])
  {
  }

  lemma FollowerStepKeeps(s: State, a: Action)
    requires Inv(s) && Enabled(s, a) && !ByClock(a) && !ByNewcomer(a) && !ByLeader(s, a)
    ensures Inv(Step(s, a))
  {
    FollowerStep(s, a);
    FollowerKeeps(s, a.p, Step(s, a).procs[a.p]);
  }

  lemma StepKeeps(s: State, a: Action)
    requires Inv(s) && Enabled(s, a)
    ensures Inv(Step(s, a))
  {
    if ByClock(a) {
      ClockStepKeeps(s, a);
    } else if ByNewcomer(a) {
      SpawnKeeps(s, a);
    } else if ByLeader(s, a) {
      LeaderStepKeeps(s, a);
    } else {
      FollowerStepKeeps(s, a);
    }
  }

  /** Over every run, at every moment, the invariant holds. */
  lemma {:induction false} RunKeeps(run: seq<State>, actions: seq<Action>, i: nat)
    requires IsRun(run, actions) && i < |run|
    ensures Inv(run[i])
  {
    if i == 0 {
    } else {
      RunKeeps(run, actions, i - 1);
      StepKeeps(run[i - 1], actions[i - 1]);
    }
  }

  predicate Leading(s: State, p: nat, key: string) {
    p in s.procs && Leads(s.procs[p].phase) && s.procs[p].key == key
  }

  /** At most one goroutine at a time runs a fetch for a key, whatever callers and refreshers do. */
  lemma OneFetchPerKey(run: seq<State>, actions: seq<Action>, i: nat, p: nat, q: nat, key: string)
    requires IsRun(run, actions) && i < |run|
    requires Leading(run[i], p, key) && Leading(run[i], q, key)
    ensures p == q
  {
    RunKeeps(run, actions, i);
    var s := run[i];
    assert ProcOk(s.fetches, s.now, p, s.procs[p]) && ProcOk(s.fetches, s.now, q, s.procs[q]);
  }

  /** The stores for a key are made in the order in which their fetches started. */
  lemma StoresInFetchOrder(run: seq<State>, actions: seq<Action>, i: nat, j: nat, k: nat)
    requires IsRun(run, actions) && i < |run|
    requires j < k < |run[i].writes| && run[i].writes[j].key == run[i].writes[k].key
    ensures run[i].writes[j].ticket < run[i].writes[k].ticket < |run[i].fetches|
    ensures run[i].fetches[run[i].writes[j].ticket].closed
  {
    RunKeeps(run, actions, i);
    var s := run[i];
    assert Written(s, s.writes[j].ticket) && Written(s, s.writes[k].ticket);
  }

  lemma {:induction false} WritesGrow(run: seq<State>, actions: seq<Action>, i: nat, j: nat)
    requires IsRun(run, actions) && i <= j < |run|
    ensures run[i].writes <= run[j].writes
  {
    if i == j {
    } else {
      WritesGrow(run, actions, i, j - 1);
      assert run[j] == Step(run[j - 1], actions[j - 1]);
    }
  }

  /** A cached token is never replaced by one from an earlier fetch, not even after the entry expired in between. */
  lemma CacheNeverGoesBack(run: seq<State>, actions: seq<Action>, i: nat, j: nat, key: string)
    requires IsRun(run, actions) && i <= j < |run|
    requires key in run[i].cache && key in run[j].cache
    ensures run[i].cache[key].ticket <= run[j].cache[key].ticket
  {
    RunKeeps(run, actions, i);
    RunKeeps(run, actions, j);
    WritesGrow(run, actions, i, j);
    var w :| 0 <= w < |run[i].writes| && run[i].writes[w] == Write(key, run[i].cache[key].ticket);
    assert run[j].writes[w] == run[i].writes[w];
  }

  /** The step a goroutine that is not done wants to take; Athenz is about to answer with `outcome`. */
  function NextAction(proc: Proc, p: nat, outcome: Outcome): Action
    requires !proc.phase.Done?
  {
    match proc.phase
    case Looking => Look(p)
    case Updating => ReadClock(p)
    case Entering(_) => Enter(p)
    case Fetching(_) => Answer(p, outcome)
    case Storing(_) => Store(p)
    case Closing(_) => Close(p)
    case Waiting(_) => Wake(p)
  }

  lemma CanAct(s: State, p: nat, outcome: Outcome)
    requires Inv(s) && p in s.procs && !s.procs[p].phase.Done? && !s.procs[p].phase.Waiting?
    ensures Enabled(s, NextAction(s.procs[p], p, outcome))
  {
    assert ProcOk(s.fetches, s.now, p, s.procs[p]);
  }

  /** Nobody is stuck: every goroutine can take its step, or waits for an open flight whose leader can take his. */
  lemma NeverStuck(run: seq<State>, actions: seq<Action>, i: nat, p: nat, outcome: Outcome)
    requires IsRun(run, actions) && i < |run|
    requires p in run[i].procs && !run[i].procs[p].phase.Done?
    ensures var s := run[i];
      || Enabled(s, NextAction(s.procs[p], p, outcome))
      || (s.procs[p].phase.Waiting? && s.procs[p].phase.ticket < |s.fetches| &&
          var q := s.fetches[s.procs[p].phase.ticket].leader;
          Leading(s, q, s.procs[p].key) && Enabled(s, NextAction(s.procs[q], q, outcome)))
  {
    RunKeeps(run, actions, i);
    var s := run[i];
    if s.procs[p].phase.Waiting? {
      assert ProcOk(s.fetches, s.now, p, s.procs[p]);
      var t := s.procs[p].phase.ticket;
      if !s.fetches[t].closed {
        assert ProcOk(s.fetches, s.now, s.fetches[t].leader, s.procs[s.fetches[t].leader]);
        CanAct(s, s.fetches[t].leader, outcome);
      }
    } else {
      CanAct(s, p, outcome);
    }
  }

  /** The outcome of a fetch, once there, never changes: what a goroutine is given is what its ticket stands for. */
  lemma {:induction false} OutcomesAreFinal(run: seq<State>, actions: seq<Action>, i: nat, j: nat, t: nat)
    requires IsRun(run, actions) && i <= j < |run|
    requires t < |run[i].fetches| && run[i].fetches[t].outcome.Some?
    ensures t < |run[j].fetches| && run[j].fetches[t].outcome == run[i].fetches[t].outcome
  {
    if i == j {
    } else {
      OutcomesAreFinal(run, actions, i, j - 1, t);
      RunKeeps(run, actions, j - 1);
      FetchKept(run[j - 1], actions[j - 1], t);
    }
  }

  /** The keys goroutines and fetches carry are those of their arguments. */
  ghost predicate KeysOk(s: State) {
    && (forall p :: p in s.procs ==> s.procs[p].key == s.procs[p].args.Key())
    && (forall t :: 0 <= t < |s.fetches| ==> s.fetches[t].key == s.fetches[t].args.Key())
  }

  ghost predicate CleanOk(s: State) {
    && (forall p :: p in s.procs ==> s.procs[p].args.IsClean())
    && (forall t :: 0 <= t < |s.fetches| ==> s.fetches[t].args.IsClean())
  }

  predicate CleanOr(args: Args, x: Args) { args.IsClean() || args == x }

  /** All goroutines and fetches are for clean arguments or for `x`. */
  ghost predicate CleanBut(s: State, x: Args) {
    && (forall p :: p in s.procs ==> CleanOr(s.procs[p].args, x))
    && (forall t :: 0 <= t < |s.fetches| ==> CleanOr(s.fetches[t].args, x))
  }

  /** No caller passes a domain or role that holds the separator of the key. */
  ghost predicate CleanCalls(actions: seq<Action>) {
    forall i :: 0 <= i < |actions| && actions[i].Call? ==> actions[i].args.IsClean()
  }

  /** All calls are clean or for `x`. */
  ghost predicate CleanCallsBut(actions: seq<Action>, x: Args) {
    forall i :: 0 <= i < |actions| && actions[i].Call? ==> CleanOr(actions[i].args, x)
  }

  /** A step gives arguments only to a new goroutine, and a new fetch those of its leader. */
  lemma ArgsKept(s: State, a: Action)
    requires Enabled(s, a)
    ensures var s' := Step(s, a);
      && (forall p :: p in s'.procs && !((a.Call? || a.Visit?) && p == a.p) ==>
            p in s.procs && s'.procs[p].args == s.procs[p].args && s'.procs[p].key == s.procs[p].key)
      && (forall t :: 0 <= t < |s'.fetches| && t < |s.fetches| ==>
            s'.fetches[t].args == s.fetches[t].args && s'.fetches[t].key == s.fetches[t].key)
      && (forall t :: |s.fetches| <= t < |s'.fetches| ==>
            a.Enter? && a.p in s.procs && s'.fetches[t].args == s.procs[a.p].args
                && s'.fetches[t].key == s.procs[a.p].key)
  {
    ProcArgsKept(s, a);
  }

  lemma ProcArgsKept(s: State, a: Action)
    requires Enabled(s, a)
    ensures var s' := Step(s, a);
      forall p :: p in s'.procs && !((a.Call? || a.Visit?) && p == a.p) ==>
        p in s.procs && s'.procs[p].args == s.procs[p].args && s'.procs[p].key == s.procs[p].key
  {
  }

  lemma KeysKept(s: State, a: Action)
    requires KeysOk(s) && Enabled(s, a)
    ensures KeysOk(Step(s, a))
  {
    ArgsKept(s, a);
    if a.Call? || a.Visit? {
      assert Step(s, a).procs[a.p].key == Step(s, a).procs[a.p].args.Key();
    }
  }

  lemma VisitKeepsKey(s: State, p: nat, key: string, retries: nat)
    requires Inv(s) && KeysOk(s) && CleanOk(s) && Enabled(s, Visit(p, key, retries))
    ensures var args := RefreshArgs(key, s.cache[key].item);
            args.IsClean() && args.Key() == key && args == Canonical(s.cache[key].item.args)
  {
    var item := s.cache[key].item;
    assert LineOk(s.fetches, s.now, key, s.cache[key]);
    RefreshRepeatsRequest(item, 0);
  }

  /** What a refresh asks for is clean, whatever lies in the cache. */
  lemma VisitIsClean(s: State, p: nat, key: string, retries: nat)
    requires Inv(s) && KeysOk(s) && Enabled(s, Visit(p, key, retries))
    ensures RefreshArgs(key, s.cache[key].item).IsClean()
  {
    assert LineOk(s.fetches, s.now, key, s.cache[key]);
    var args := s.fetches[s.cache[key].ticket].args;
    EncodeForm(args.domain, args.role, args.principal);
    assert key[|args.domain|] == KEY_SEPARATOR;
    DecodeForm(key);
  }

  lemma ProcKeptClean(s: State, a: Action, x: Args, p: nat)
    requires Inv(s) && KeysOk(s) && CleanBut(s, x) && Enabled(s, a) && p in Step(s, a).procs
    requires a.Call? ==> CleanOr(a.args, x)
    ensures CleanOr(Step(s, a).procs[p].args, x)
  {
    ArgsKept(s, a);
    if a.Visit? && a.p == p {
      VisitIsClean(s, p, a.key, a.retries);
    }
  }

  lemma FetchKeptClean(s: State, a: Action, x: Args, t: nat)
    requires CleanBut(s, x) && Enabled(s, a) && t < |Step(s, a).fetches|
    ensures CleanOr(Step(s, a).fetches[t].args, x)
  {
    ArgsKept(s, a);
  }

  lemma {:induction false} RunCleanBut(run: seq<State>, actions: seq<Action>, x: Args, i: nat)
    requires IsRun(run, actions) && CleanCallsBut(actions, x) && i < |run|
    ensures CleanBut(run[i], x)
  {
    if i == 0 {
    } else {
      var s, a := run[i - 1], actions[i - 1];
      RunCleanBut(run, actions, x, i - 1);
      RunKeeps(run, actions, i - 1);
      RunOwnKeys(run, actions, i - 1);
      forall p | p in run[i].procs ensures CleanOr(run[i].procs[p].args, x) {
        ProcKeptClean(s, a, x, p);
      }
      forall t | 0 <= t < |run[i].fetches| ensures CleanOr(run[i].fetches[t].args, x) {
        FetchKeptClean(s, a, x, t);
      }
    }
  }

  lemma {:induction false} RunOwnKeys(run: seq<State>, actions: seq<Action>, i: nat)
    requires IsRun(run, actions) && i < |run|
    ensures KeysOk(run[i])
  {
    if i == 0 {
    } else {
      RunOwnKeys(run, actions, i - 1);
      KeysKept(run[i - 1], actions[i - 1]);
    }
  }

  lemma RunKeys(run: seq<State>, actions: seq<Action>, i: nat)
    requires IsRun(run, actions) && i < |run|
    ensures KeysOk(run[i])
    ensures CleanCalls(actions) ==> CleanOk(run[i])
  {
    RunOwnKeys(run, actions, i);
    if CleanCalls(actions) {
      var clean := Args("", "", "", AccessBounds(0));
      assert clean.IsClean();
      RunCleanBut(run, actions, clean, i);
    }
  }

  /** Every cache entry lies under the key of the call that fetched it. */
  lemma EntriesUnderTheirKeys(run: seq<State>, actions: seq<Action>, i: nat, key: string)
    requires IsRun(run, actions) && i < |run| && key in run[i].cache
    ensures run[i].cache[key].item.args.Key() == key
  {
    RunKeeps(run, actions, i);
    RunKeys(run, actions, i);
    assert LineOk(run[i].fetches, run[i].now, key, run[i].cache[key]);
  }

  /** What a step may do to a fetch: only Athenz' answer to its leader gives it an outcome. */
  lemma FetchKept(s: State, a: Action, t: nat)
    requires Inv(s) && Enabled(s, a) && t < |s.fetches|
    ensures var fetch := s.fetches[t];
      && t < |Step(s, a).fetches|
      && var fetch' := Step(s, a).fetches[t];
         && fetch'.args == fetch.args && fetch'.leader == fetch.leader
         && (fetch.outcome.Some? ==> fetch'.outcome == fetch.outcome)
         && (fetch.outcome.None? && fetch'.outcome.Some? ==>
               a == Answer(fetch.leader, fetch'.outcome.value) && Asks(s, fetch.leader, t, fetch.args))
  {
    if a.Answer? {
      assert ProcOk(s.fetches, s.now, a.p, s.procs[a.p]);
    }
  }

  /** The goroutine has sent the request of this fetch, for these arguments, and waits for the answer. */
  ghost predicate Asks(s: State, p: nat, t: nat, args: Args) {
    p in s.procs && s.procs[p].phase == Fetching(t) && s.procs[p].args == args
  }

  lemma {:induction false} AnsweredAt(run: seq<State>, actions: seq<Action>, i: nat, t: nat) returns (k: nat)
    requires IsRun(run, actions) && i < |run|
    requires t < |run[i].fetches| && run[i].fetches[t].outcome.Some?
    ensures var fetch := run[i].fetches[t];
      k < i && actions[k] == Answer(fetch.leader, fetch.outcome.value) && Asks(run[k], fetch.leader, t, fetch.args)
  {
    assert i > 0;
    k := i - 1;
    assert run[i] == Step(run[k], actions[k]);
    RunKeeps(run, actions, k);
    AnsweredIsOld(run[k], actions[k], t);
    FetchKept(run[k], actions[k], t);
    if run[k].fetches[t].outcome.Some? {
      k := AnsweredAt(run, actions, k, t);
    }
  }

  lemma AnsweredIsOld(s: State, a: Action, t: nat)
    requires Enabled(s, a) && t < |Step(s, a).fetches| && Step(s, a).fetches[t].outcome.Some?
    ensures t < |s.fetches|
  {
  }

  /**
   What a finished goroutine returns, from the cache or from a flight led by itself or another, is what Athenz answered
   earlier in the run to the fetch of its ticket, which was made for its own key; with clean callers that fetch asked
   for the same domain, the same principal and the same roles.
   */
  lemma OutcomesAreGenuine(run: seq<State>, actions: seq<Action>, i: nat, p: nat)
    requires IsRun(run, actions) && i < |run|
    requires p in run[i].procs && run[i].procs[p].phase.Done?
    ensures var s, proc := run[i], run[i].procs[p];
      && proc.phase.ticket < |s.fetches|
      && var fetch := s.fetches[proc.phase.ticket];
         && fetch.outcome == Some(proc.phase.outcome)
         && fetch.args.Key() == proc.args.Key()
         && (CleanCalls(actions) ==> SameToken(fetch.args, proc.args))
         && exists k :: 0 <= k < i && actions[k] == Answer(fetch.leader, proc.phase.outcome)
                        && Asks(run[k], fetch.leader, proc.phase.ticket, fetch.args)
  {
    RunKeeps(run, actions, i);
    RunKeys(run, actions, i);
    var s, proc := run[i], run[i].procs[p];
    assert ProcOk(s.fetches, s.now, p, proc);
    if CleanCalls(actions) {
      SameKeySameToken(s.fetches[proc.phase.ticket].args, proc.args);
    }
    var k := AnsweredAt(run, actions, i, proc.phase.ticket);
  }

  lemma {:induction false} ArgsStay(run: seq<State>, actions: seq<Action>, i: nat, j: nat, p: nat)
    requires IsRun(run, actions) && i <= j < |run| && p in run[i].procs
    ensures p in run[j].procs && run[j].procs[p].args == run[i].procs[p].args
            && run[j].procs[p].key == run[i].procs[p].key
  {
    if i == j {
    } else {
      ArgsStay(run, actions, i, j - 1, p);
      ProcStays(run[j - 1], actions[j - 1], p);
      ArgsKept(run[j - 1], actions[j - 1]);
    }
  }

  lemma ProcStays(s: State, a: Action, p: nat)
    requires Enabled(s, a) && p in s.procs
    ensures p in Step(s, a).procs && !((a.Call? || a.Visit?) && p == a.p)
  {
  }

  /**
   From its visit to the end of the run a refresher with clean callers works under the key it visited, for the call
   stored there with its roles sorted and its bounds.
   */
  lemma RefreshStaysAtItsKey(run: seq<State>, actions: seq<Action>, i: nat, j: nat)
    requires IsRun(run, actions) && CleanCalls(actions)
    requires i < j < |run| && actions[i].Visit?
    ensures actions[i].p in run[j].procs
    ensures run[j].procs[actions[i].p].key == actions[i].key
    ensures run[j].procs[actions[i].p].args == Canonical(run[i].cache[actions[i].key].item.args)
  {
    RunKeeps(run, actions, i);
    RunKeys(run, actions, i);
    VisitKeepsKey(run[i], actions[i].p, actions[i].key, actions[i].retries);
    ArgsStay(run, actions, i + 1, j, actions[i].p);
  }

  /** One of the first `i` actions is a call under this key with these bounds. */
  ghost predicate Asked(actions: seq<Action>, i: nat, key: string, bounds: Bounds) {
    exists k :: 0 <= k < i <= |actions| && actions[k].Call? && actions[k].args.Key() == key
        && actions[k].args.bounds == bounds
  }

  ghost predicate KeyAsked(actions: seq<Action>, i: nat, key: string) {
    exists k :: 0 <= k < i <= |actions| && actions[k].Call? && actions[k].args.Key() == key
  }

  ghost predicate AllAsked(s: State, actions: seq<Action>, i: nat) {
    && (forall p :: p in s.procs ==> Asked(actions, i, s.procs[p].key, s.procs[p].args.bounds))
    && (forall t :: 0 <= t < |s.fetches| ==> Asked(actions, i, s.fetches[t].key, s.fetches[t].args.bounds))
  }

  lemma AskedBefore(actions: seq<Action>, i: nat, key: string, bounds: Bounds)
    requires i < |actions| && Asked(actions, i, key, bounds)
    ensures Asked(actions, i + 1, key, bounds)
  {
  }

  lemma LinesAsked(s: State, actions: seq<Action>, i: nat)
    requires Inv(s) && AllAsked(s, actions, i)
    ensures forall key :: key in s.cache ==> Asked(actions, i, key, s.cache[key].item.args.bounds)
  {
    forall key | key in s.cache ensures Asked(actions, i, key, s.cache[key].item.args.bounds) {
      assert LineOk(s.fetches, s.now, key, s.cache[key]);
      assert Asked(actions, i, s.fetches[s.cache[key].ticket].key, s.fetches[s.cache[key].ticket].args.bounds);
    }
  }

  /** A goroutine that a step starts, or leaves, works for the bounds of a call under its key. */
  lemma ProcAsked(s: State, actions: seq<Action>, i: nat, p: nat)
    requires Inv(s) && KeysOk(s) && CleanOk(s) && AllAsked(s, actions, i)
    requires i < |actions| && Enabled(s, actions[i]) && p in Step(s, actions[i]).procs
    ensures var proc := Step(s, actions[i]).procs[p]; Asked(actions, i + 1, proc.key, proc.args.bounds)
  {
    var a := actions[i];
    if a.Call? && a.p == p {
      assert Step(s, a).procs[p].args == a.args;
    } else if a.Visit? && a.p == p {
      VisitKeepsKey(s, p, a.key, a.retries);
      LinesAsked(s, actions, i);
      AskedBefore(actions, i, a.key, s.cache[a.key].item.args.bounds);
    } else {
      ArgsKept(s, a);
      AskedBefore(actions, i, s.procs[p].key, s.procs[p].args.bounds);
    }
  }

  lemma FetchAsked(s: State, actions: seq<Action>, i: nat, t: nat)
    requires AllAsked(s, actions, i)
    requires i < |actions| && Enabled(s, actions[i]) && t < |Step(s, actions[i]).fetches|
    ensures var fetch := Step(s, actions[i]).fetches[t]; Asked(actions, i + 1, fetch.key, fetch.args.bounds)
  {
    ArgsKept(s, actions[i]);
    var fetch := Step(s, actions[i]).fetches[t];
    assert Asked(actions, i, fetch.key, fetch.args.bounds);
    AskedBefore(actions, i, fetch.key, fetch.args.bounds);
  }

  lemma {:induction false} RunAsked(run: seq<State>, actions: seq<Action>, i: nat)
    requires IsRun(run, actions) && CleanCalls(actions) && i < |run|
    ensures AllAsked(run[i], actions, i)
  {
    if i == 0 {
    } else {
      var m := i - 1;
      assert run[i] == Step(run[m], actions[m]);
      RunAsked(run, actions, m);
      RunKeeps(run, actions, m);
      RunKeys(run, actions, m);
      AllStayAsked(run[m], actions, m);
    }
  }

  lemma AllStayAsked(s: State, actions: seq<Action>, i: nat)
    requires Inv(s) && KeysOk(s) && CleanOk(s) && AllAsked(s, actions, i) && i < |actions| && Enabled(s, actions[i])
    ensures AllAsked(Step(s, actions[i]), actions, i + 1)
  {
    var s' := Step(s, actions[i]);
    forall p | p in s'.procs ensures Asked(actions, i + 1, s'.procs[p].key, s'.procs[p].args.bounds) {
      ProcAsked(s, actions, i, p);
    }
    forall t | 0 <= t < |s'.fetches| ensures Asked(actions, i + 1, s'.fetches[t].key, s'.fetches[t].args.bounds) {
      FetchAsked(s, actions, i, t);
    }
  }

  /**
   Refreshes, however many and however they interleave, add no key and no bounds: with clean callers each store is under
   the key of an earlier call, and each entry has the bounds of an earlier call under its key.
   */
  lemma RefreshAddsNothing(run: seq<State>, actions: seq<Action>, i: nat)
    requires IsRun(run, actions) && CleanCalls(actions) && i < |run|
    ensures forall w :: 0 <= w < |run[i].writes| ==> KeyAsked(actions, i, run[i].writes[w].key)
    ensures forall key :: key in run[i].cache ==> Asked(actions, i, key, run[i].cache[key].item.args.bounds)
  {
    RunKeeps(run, actions, i);
    RunAsked(run, actions, i);
    LinesAsked(run[i], actions, i);
    var s := run[i];
    forall w | 0 <= w < |s.writes| ensures KeyAsked(actions, i, s.writes[w].key) {
      var t := s.writes[w].ticket;
      assert Written(s, t);
      assert Asked(actions, i, s.fetches[t].key, s.fetches[t].args.bounds);
    }
  }

  /**
   Every token stored in this run came within a minute, with more than a minute left when its leader read the clock.
   */
  ghost predicate Timely(run: seq<State>, actions: seq<Action>)
    requires IsRun(run, actions)
  {
    forall i :: 0 <= i < |actions| && actions[i].Store? ==> TimelyStore(run[i], actions[i].p)
  }

  ghost predicate TimelyStore(s: State, p: nat)
    requires Enabled(s, Store(p))
  {
    var fetch := s.fetches[s.procs[p].phase.ticket];
    s.now - fetch.readAt <= 60_000_000_000
    && fetch.outcome.value.token.expiry * 1_000_000_000 > fetch.readAt + 60_000_000_000
  }

  /** No entry outlives its token. */
  ghost predicate Fresh(s: State) {
    forall k :: k in s.cache ==>
      var item := s.cache[k].item; item.deadline.Some? && item.deadline.value <= item.token.expiry * SECOND
  }

  lemma FreshKept(s: State, a: Action)
    requires Inv(s) && Fresh(s) && Enabled(s, a)
    requires a.Store? ==> TimelyStore(s, a.p)
    ensures Fresh(Step(s, a))
  {
    if !a.Store? {
      CacheOnlyShrinks(s, a);
    }
  }

  lemma CacheOnlyShrinks(s: State, a: Action)
    requires Enabled(s, a) && !a.Store?
    ensures forall key :: key in Step(s, a).cache ==> key in s.cache && Step(s, a).cache[key] == s.cache[key]
  {
  }

  lemma {:induction false} RunFresh(run: seq<State>, actions: seq<Action>, i: nat)
    requires IsRun(run, actions) && Timely(run, actions) && i < |run|
    ensures Fresh(run[i])
  {
    if i == 0 {
    } else {
      RunFresh(run, actions, i - 1);
      RunKeeps(run, actions, i - 1);
      FreshKept(run[i - 1], actions[i - 1]);
    }
  }

  /** In a timely run a goroutine that finds a token in the cache does so no later than the role token's expiry. */
  lemma NoExpiredTokenIsServed(run: seq<State>, actions: seq<Action>, i: nat)
    requires IsRun(run, actions) && Timely(run, actions) && i < |actions| && actions[i].Look?
    requires run[i + 1].procs[actions[i].p].phase.Done?
    ensures var outcome := run[i + 1].procs[actions[i].p].phase.outcome;
            outcome.Ok? && run[i].now <= outcome.token.expiry * 1_000_000_000
  {
    RunFresh(run, actions, i);
    assert run[i + 1] == Step(run[i], actions[i]);
    LookServesLine(run[i], actions[i].p);
  }

  lemma LookServesLine(s: State, p: nat)
    requires Enabled(s, Look(p)) && p in LookUp(s, p).procs && LookUp(s, p).procs[p].phase.Done?
    ensures var key := s.procs[p].key;
      && key in s.cache && Readable(s.cache[key].item.deadline, s.now)
      && LookUp(s, p).procs[p].phase == Done(s.cache[key].ticket, Ok(s.cache[key].item.token))
  {
  }
}
