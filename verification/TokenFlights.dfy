/** Which flight an attempt joins, what it gets from it and when: from reading the clock to the result, in every run. */
module TokenFlights {
  import opened Text
  import opened TokenModel
  import opened TokenProtocol
  import opened TokenSafety

  /** The goroutine leads the flight of this ticket, or waits for it. */
  predicate Holds(s: State, p: nat, ticket: nat) {
    p in s.procs && (Leads(s.procs[p].phase) || s.procs[p].phase.Waiting?) && s.procs[p].phase.ticket == ticket
  }

  predicate Reads(s: State, p: nat, readAt: int) {
    p in s.procs && s.procs[p].phase == Entering(readAt)
  }

  /**
   Whoever enters the group gets a flight of its own key that is open at that moment: one it has just opened, for the
   time it read from the clock, or the one in the flight table.
   */
  lemma EnterJoinsOpenFlight(run: seq<State>, actions: seq<Action>, e: nat)
    requires IsRun(run, actions) && e < |actions| && actions[e].Enter?
    ensures var p, s := actions[e].p, run[e + 1];
      && p in s.procs && (s.procs[p].phase.Fetching? || s.procs[p].phase.Waiting?)
      && var t := s.procs[p].phase.ticket;
         && t < |s.fetches| && s.fetches[t].key == s.procs[p].key && !s.fetches[t].closed
         && (s.procs[p].phase.Fetching? ==>
               t == |run[e].fetches| && s.fetches[t].leader == p && Reads(run[e], p, s.fetches[t].readAt))
         && (s.procs[p].phase.Waiting? ==> t < |run[e].fetches| && !run[e].fetches[t].closed)
  {
    RunKeeps(run, actions, e);
    assert run[e + 1] == Step(run[e], actions[e]);
    EnterGets(run[e], actions[e].p);
  }

  lemma EnterGets(s: State, p: nat)
    requires Inv(s) && Enabled(s, Enter(p))
    ensures var s' := EnterGroup(s, p);
      && p in s'.procs && (s'.procs[p].phase.Fetching? || s'.procs[p].phase.Waiting?)
      && var t := s'.procs[p].phase.ticket;
         && t < |s'.fetches| && s'.fetches[t].key == s'.procs[p].key && !s'.fetches[t].closed
         && (s'.procs[p].phase.Fetching? ==>
               t == |s.fetches| && s'.fetches[t].leader == p && Reads(s, p, s'.fetches[t].readAt))
         && (s'.procs[p].phase.Waiting? ==> t < |s.fetches| && !s.fetches[t].closed)
  {
  }

  /** A ticket is got by entering the group only. */
  lemma HeldBefore(s: State, a: Action, p: nat, ticket: nat)
    requires Enabled(s, a) && Holds(Step(s, a), p, ticket) && a != Enter(p)
    ensures Holds(s, p, ticket) && Step(s, a).procs[p].phase.Waiting? == s.procs[p].phase.Waiting?
  {
  }

  lemma ReadBefore(s: State, a: Action, p: nat, readAt: int)
    requires Enabled(s, a) && Reads(Step(s, a), p, readAt)
    ensures if a == ReadClock(p) then s.now == readAt else Reads(s, p, readAt)
  {
  }

  /** The entry into the group of a goroutine that holds a ticket, which it has held ever since. */
  lemma {:induction false} EntryOf(run: seq<State>, actions: seq<Action>, i: nat, p: nat, ticket: nat) returns (e: nat)
    requires IsRun(run, actions) && i < |run| && Holds(run[i], p, ticket)
    ensures e < i && actions[e] == Enter(p)
    ensures forall k :: e < k <= i ==>
              Holds(run[k], p, ticket) && run[k].procs[p].phase.Waiting? == run[i].procs[p].phase.Waiting?
    decreases i
  {
    assert i > 0;
    e := i - 1;
    assert run[i] == Step(run[e], actions[e]);
    if actions[e] != Enter(p) {
      HeldBefore(run[e], actions[e], p, ticket);
      e := EntryOf(run, actions, e, p, ticket);
    }
  }

  /** The clock reading of a goroutine about to enter the group. */
  lemma {:induction false} ReadingOf(run: seq<State>, actions: seq<Action>, i: nat, p: nat, readAt: int)
      returns (c: nat)
    requires IsRun(run, actions) && i < |run| && Reads(run[i], p, readAt)
    ensures c < i && actions[c] == ReadClock(p) && run[c].now == readAt
    ensures forall k :: c < k <= i ==> Reads(run[k], p, readAt)
    decreases i
  {
    assert i > 0;
    c := i - 1;
    assert run[i] == Step(run[c], actions[c]);
    ReadBefore(run[c], actions[c], p, readAt);
    if actions[c] != ReadClock(p) {
      c := ReadingOf(run, actions, c, p, readAt);
    }
  }

  /** The goroutine has read the clock, entered the group and held the ticket of one flight since. */
  ghost predicate Attempt(run: seq<State>, actions: seq<Action>, c: nat, e: nat, w: nat, p: nat, ticket: nat)
    requires |run| == |actions| + 1
  {
    && c < e < w < |actions| && actions[c] == ReadClock(p) && actions[e] == Enter(p)
    && (forall k :: c < k <= e ==> Reads(run[k], p, run[c].now))
    && forall k :: e < k <= w ==> Holds(run[k], p, ticket)
  }

  /** The fetch was open at this moment and for this key. */
  predicate OpenFor(s: State, ticket: nat, key: string) {
    ticket < |s.fetches| && s.fetches[ticket].key == key && !s.fetches[ticket].closed
  }

  /**
   Every result of a flight is that of a fetch for the goroutine's own key that was open when, in this attempt, it
   entered the group; whoever led it read the clock before in the same attempt, and that is the time the fetch counts
   from.
   */
  lemma ResultOfOpenFlight(run: seq<State>, actions: seq<Action>, w: nat) returns (c: nat, e: nat, ticket: nat)
    requires IsRun(run, actions) && w < |actions| && (actions[w].Close? || actions[w].Wake?)
    ensures var p := actions[w].p;
      && Attempt(run, actions, c, e, w, p, ticket)
      && p in run[w].procs && OpenFor(run[e + 1], ticket, run[w].procs[p].key)
      && p in run[w + 1].procs && run[w + 1].procs[p].phase.Done? && run[w + 1].procs[p].phase.ticket == ticket
      && ticket < |run[w].fetches| && run[w].fetches[ticket].outcome == Some(run[w + 1].procs[p].phase.outcome)
      && (actions[w].Close? ==> run[w].fetches[ticket].leader == p && run[w].fetches[ticket].readAt == run[c].now)
      && (actions[w].Wake? ==> run[w].fetches[ticket].closed)
  {
    var p := actions[w].p;
    assert run[w + 1] == Step(run[w], actions[w]);
    ResultHeld(run[w], actions[w]);
    ticket := run[w].procs[p].phase.ticket;
    e := EntryOf(run, actions, w, p, ticket);
    var readAt := EntryReads(run, actions, e);
    c := ReadingOf(run, actions, e, p, readAt);
    EnterJoinsOpenFlight(run, actions, e);
    ArgsStay(run, actions, e + 1, w, p);
    if actions[w].Close? {
      RunKeeps(run, actions, w);
      assert ProcOk(run[w].fetches, run[w].now, p, run[w].procs[p]);
      FetchStays(run, actions, e + 1, w, ticket);
    }
  }

  lemma EntryReads(run: seq<State>, actions: seq<Action>, e: nat) returns (readAt: int)
    requires IsRun(run, actions) && e < |actions| && actions[e].Enter?
    ensures Reads(run[e], actions[e].p, readAt)
  {
    assert Enabled(run[e], actions[e]);
    readAt := run[e].procs[actions[e].p].phase.readAt;
  }

  lemma ResultHeld(s: State, a: Action)
    requires Enabled(s, a) && (a.Close? || a.Wake?)
    ensures a.p in s.procs && Holds(s, a.p, s.procs[a.p].phase.ticket) && s.procs[a.p].phase.ticket < |s.fetches|
    ensures a.Close? <==> !s.procs[a.p].phase.Waiting?
    ensures var t, s' := s.procs[a.p].phase.ticket, Step(s, a);
      && a.p in s'.procs && s'.procs[a.p].phase.Done? && s'.procs[a.p].phase.ticket == t
      && s.fetches[t].outcome == Some(s'.procs[a.p].phase.outcome)
    ensures a.Wake? ==> s.fetches[s.procs[a.p].phase.ticket].closed
  {
  }

  lemma {:induction false} FetchStays(run: seq<State>, actions: seq<Action>, i: nat, j: nat, t: nat)
    requires IsRun(run, actions) && i <= j < |run| && t < |run[i].fetches|
    ensures t < |run[j].fetches| && run[j].fetches[t].readAt == run[i].fetches[t].readAt
    ensures run[j].fetches[t].leader == run[i].fetches[t].leader
  {
    if i == j {
    } else {
      var m := j - 1;
      FetchStays(run, actions, i, m, t);
      assert run[j] == Step(run[m], actions[m]);
      FetchTimesKept(run[m], actions[m], t);
    }
  }

  lemma FetchTimesKept(s: State, a: Action, t: nat)
    requires Enabled(s, a) && t < |s.fetches|
    ensures t < |Step(s, a).fetches| && Step(s, a).fetches[t].readAt == s.fetches[t].readAt
    ensures Step(s, a).fetches[t].leader == s.fetches[t].leader
    ensures Step(s, a).fetches[t].closed ==>
            s.fetches[t].closed || (a.Close? && Holds(s, a.p, t) && !s.procs[a.p].phase.Waiting?)
  {
  }

  lemma {:induction false} ClockGoesOn(run: seq<State>, actions: seq<Action>, i: nat, j: nat)
    requires IsRun(run, actions) && i <= j < |run|
    ensures run[i].now <= run[j].now
  {
    if i == j {
    } else {
      ClockGoesOn(run, actions, i, j - 1);
      assert run[j] == Step(run[j - 1], actions[j - 1]);
    }
  }

  /** A flight that was open and no longer is has been closed by its leader in between. */
  lemma {:induction false} ClosedBetween(run: seq<State>, actions: seq<Action>, i: nat, j: nat, t: nat) returns (k: nat)
    requires IsRun(run, actions) && i <= j < |run| && t < |run[i].fetches| && !run[i].fetches[t].closed
    requires t < |run[j].fetches| && run[j].fetches[t].closed
    ensures i <= k < j && actions[k].Close? && Holds(run[k], actions[k].p, t)
    ensures t < |run[k].fetches| && !run[k].procs[actions[k].p].phase.Waiting?
    decreases j
  {
    assert i < j;
    k := j - 1;
    FetchStays(run, actions, i, k, t);
    assert run[j] == Step(run[k], actions[k]);
    FetchTimesKept(run[k], actions[k], t);
    if run[k].fetches[t].closed {
      k := ClosedBetween(run, actions, i, k, t);
    }
  }

  /**
   No flight takes longer than `flight` from its leader's clock reading, and its token has a minute left from then on.
   */
  ghost predicate PromptFlight(s: State, ticket: nat, flight: int)
    requires ticket < |s.fetches|
  {
    var fetch := s.fetches[ticket];
    && s.now <= fetch.readAt + flight
    && (fetch.outcome.Some? && fetch.outcome.value.Ok? ==>
          fetch.outcome.value.token.expiry * 1_000_000_000 > fetch.readAt + 60_000_000_000)
  }

  /**
   Tokens are stored, and flights closed, within `flight`; whoever joins one has its result within `wait` of entering.
   */
  ghost predicate Prompt(run: seq<State>, actions: seq<Action>, flight: int, wait: int)
    requires IsRun(run, actions)
  {
    && (forall k :: 0 <= k < |actions| && (actions[k].Store? || actions[k].Close?) ==>
          Enabled(run[k], actions[k]) && PromptFlight(run[k], run[k].procs[actions[k].p].phase.ticket, flight))
    && forall c: nat, e: nat, w: nat, p: nat, t: nat ::
         Attempt(run, actions, c, e, w, p, t) && actions[w] == Wake(p) ==> run[w].now <= run[e].now + wait
  }

  lemma PromptIsTimely(run: seq<State>, actions: seq<Action>, flight: int, wait: int)
    requires IsRun(run, actions) && Prompt(run, actions, flight, wait) && flight <= 60_000_000_000
    ensures Timely(run, actions)
  {
    forall k | 0 <= k < |actions| && actions[k].Store? ensures TimelyStore(run[k], actions[k].p) {
      assert PromptFlight(run[k], run[k].procs[actions[k].p].phase.ticket, flight);
    }
  }

  /** The token a flight gives to its leader or to one who joined it has not expired. */
  lemma FlightTokenIsFresh(run: seq<State>, actions: seq<Action>, flight: int, wait: nat, w: nat)
    requires IsRun(run, actions) && Prompt(run, actions, flight, wait) && flight + wait <= 60_000_000_000
    requires w < |actions| && (actions[w].Close? || actions[w].Wake?)
    requires actions[w].p in run[w + 1].procs && run[w + 1].procs[actions[w].p].phase.Done?
    ensures var outcome := run[w + 1].procs[actions[w].p].phase.outcome;
            outcome.Ok? ==> run[w].now <= outcome.token.expiry * 1_000_000_000
  {
    var p := actions[w].p;
    var c, e, t := ResultOfOpenFlight(run, actions, w);
    if actions[w].Close? {
      ResultHeld(run[w], actions[w]);
      assert run[w + 1] == Step(run[w], actions[w]);
      assert PromptFlight(run[w], run[w].procs[p].phase.ticket, flight);
    } else {
      var k := ClosedBetween(run, actions, e + 1, w, t);
      assert PromptFlight(run[k], run[k].procs[actions[k].p].phase.ticket, flight);
      FetchStays(run, actions, e + 1, k, t);
      FetchStays(run, actions, k, w, t);
      RunKeeps(run, actions, k);
      assert ProcOk(run[k].fetches, run[k].now, actions[k].p, run[k].procs[actions[k].p]);
      OutcomesAreFinal(run, actions, k, w, t);
      ClockGoesOn(run, actions, e, k);
      assert Attempt(run, actions, c, e, w, p, t);
    }
  }

  /**
   In a prompt run nobody is handed an expired role token, be it from the cache, from a flight it leads or from one it
   has joined.
   */
  lemma NoExpiredTokenIsHandedOut(run: seq<State>, actions: seq<Action>, flight: int, wait: nat, i: nat, p: nat)
    requires IsRun(run, actions) && Prompt(run, actions, flight, wait) && flight + wait <= 60_000_000_000
    requires i < |actions| && p in run[i + 1].procs && run[i + 1].procs[p].phase.Done?
    requires p in run[i].procs ==> !run[i].procs[p].phase.Done?
    ensures var outcome := run[i + 1].procs[p].phase.outcome;
            outcome.Ok? ==> run[i].now <= outcome.token.expiry * 1_000_000_000
  {
    assert run[i + 1] == Step(run[i], actions[i]);
    BecomesDone(run[i], actions[i], p);
    if actions[i].Look? {
      PromptIsTimely(run, actions, flight, wait);
      NoExpiredTokenIsServed(run, actions, i);
    } else {
      FlightTokenIsFresh(run, actions, flight, wait, i);
    }
  }

  lemma BecomesDone(s: State, a: Action, p: nat)
    requires Enabled(s, a) && p in Step(s, a).procs && Step(s, a).procs[p].phase.Done?
    requires p in s.procs ==> !s.procs[p].phase.Done?
    ensures (a.Look? || a.Close? || a.Wake?) && a.p == p
  {
  }
}
