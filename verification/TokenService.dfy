/**
 The token services as objects: look-up, update, retry, the refresh pass and the updater loop, one goroutine at a time.
 What Athenz answers, how long it takes and in which order the cache is visited are parameters.
 */
module TokenService {
  import opened Text
  import opened CacheKey
  import opened Requests
  import opened TokenModel

  /** The outcome of one fetch and the time it takes. */
  datatype Answer = Answer(outcome: Outcome, delay: nat)

  datatype Config = Config(maxRetry: nat, retryInterval: int)

  /** The clock, the cache and the calls for which a request has been sent so far. */
  datatype World = World(now: int, cache: map<string, Item>, sent: seq<Args>)

  /** What the updater writes to its channel. */
  datatype Output = RefreshError(error: string) | ContextError

  /** What others do meanwhile: time passes, entries expire, other calls send requests and store tokens. */
  datatype Gap = Gap(delay: nat, purged: set<string>, stored: map<string, Item>, sent: seq<Args>)

  /**
   One turn of a refresh pass: what others do before it, its key, and what Athenz would answer to the attempts there.
   */
  datatype Turn = Turn(gap: Gap, key: string, answers: seq<Answer>)

  /**
   What the updater's select chooses: a tick, after a gap and with the turns of its pass, or the end of the context.
   */
  datatype Event = Tick(gap: Gap, turns: seq<Turn>) | Cancelled

  /** `time.Sleep`: a negative duration returns at once. */
  function Sleep(w: World, duration: int): World {
    if duration > 0 then w.(now := w.now + duration) else w
  }

  /** One update under the key of its arguments. */
  function Update(w: World, key: string, args: Args, answer: Answer): World {
    var later := w.now + answer.delay;
    World(later,
          if answer.outcome.Ok?
          then w.cache[key := NewItem(answer.outcome.token, args, w.now, later)]
          else w.cache,
          w.sent + [args])
  }

  /** Attempts until the first success; at most as many as there are answers. */
  function Retry(w: World, config: Config, key: string, args: Args, answers: seq<Answer>): (World, seq<string>)
    decreases |answers|
  {
    if answers == [] then
      (w, [])
    else
      var updated := Update(w, key, args, answers[0]);
      if answers[0].outcome.Ok? then
        (updated, [])
      else
        var (end, errors) := Retry(Sleep(updated, config.retryInterval), config, key, args, answers[1..]);
        (end, [answers[0].outcome.error] + errors)
  }

  /** The visit of one key by the refresh pass, which skips entries past their deadline. */
  function Visit(w: World, config: Config, key: string, answers: seq<Answer>): (World, seq<string>) {
    if key in w.cache && Readable(w.cache[key].deadline, w.now) then
      var args := RefreshArgs(key, w.cache[key]);
      Retry(w, config, args.Key(), args, answers)
    else
      (w, [])
  }

  function Others(w: World, gap: Gap): World {
    World(w.now + gap.delay, w.cache - gap.purged + gap.stored, w.sent + gap.sent)
  }

  function Refresh(w: World, config: Config, turns: seq<Turn>): (World, seq<string>)
    decreases |turns|
  {
    if turns == [] then
      (w, [])
    else
      var (next, errors) := Visit(Others(w, turns[0].gap), config, turns[0].key, turns[0].answers);
      var (end, rest) := Refresh(next, config, turns[1..]);
      (end, errors + rest)
  }

  /** The errors of the passes up to the end of the context, in order. */
  function PassErrors(w: World, config: Config, events: seq<Event>): (World, seq<string>)
    decreases |events|
  {
    if events == [] || events[0].Cancelled? then
      (w, [])
    else
      var (next, errors) := Refresh(Others(w, events[0].gap), config, events[0].turns);
      var (end, rest) := PassErrors(next, config, events[1..]);
      (end, errors + rest)
  }

  /** An answer for every attempt. */
  predicate Answered(turns: seq<Turn>, config: Config) {
    forall i :: 0 <= i < |turns| ==> |turns[i].answers| == config.maxRetry + 1
  }

  function Forward(errors: seq<string>): seq<Output> {
    seq(|errors|, i requires 0 <= i < |errors| => RefreshError(errors[i]))
  }

  class Service {
    const config: Config
    var now: int
    var cache: map<string, Item>
    var sent: seq<Args>

    function View(): World
      reads this
    {
      World(now, cache, sent)
    }

    constructor (config: Config, now: int)
      ensures this.config == config && View() == World(now, map[], [])
    {
      this.config := config;
      this.now, this.cache, this.sent := now, map[], [];
    }

    method GetCache(args: Args) returns (token: Option<Token>)
      ensures token.Some? <==> args.Key() in cache && Readable(cache[args.Key()].deadline, now)
      ensures token.Some? ==> token.value == cache[args.Key()].token
    {
      var key := args.Key();
      if key in cache && Readable(cache[key].deadline, now) {
        return Some(cache[key].token);
      }
      return None;
    }

    method UpdateToken(args: Args, answer: Answer) returns (outcome: Outcome)
      modifies this
      ensures View() == Update(old(View()), args.Key(), args, answer)
      ensures outcome == answer.outcome
    {
      var key := args.Key();
      var readAt := now;
      sent := sent + [args];
      now := now + answer.delay;
      if answer.outcome.Ok? {
        cache := cache[key := NewItem(answer.outcome.token, args, readAt, now)];
      }
      return answer.outcome;
    }

    method GetToken(args: Args, answer: Answer) returns (outcome: Outcome)
      modifies this
      ensures var w := old(View()); var key := args.Key();
              if key in w.cache && Readable(w.cache[key].deadline, w.now)
              then View() == w && outcome == Ok(w.cache[key].token)
              else View() == Update(w, key, args, answer) && outcome == answer.outcome
    {
      var token := GetCache(args);
      if token.None? {
        outcome := UpdateToken(args, answer);
      } else {
        outcome := Ok(token.value);
      }
    }

    method UpdateTokenWithRetry(args: Args, answers: seq<Answer>) returns (errors: seq<string>)
      requires |answers| == config.maxRetry + 1
      modifies this
      ensures (View(), errors) == Retry(old(View()), config, args.Key(), args, answers)
    {
      ghost var whole := Retry(View(), config, args.Key(), args, answers);
      errors := [];
      for i := 0 to config.maxRetry + 1
        invariant var (end, rest) := Retry(View(), config, args.Key(), args, answers[i..]);
                  whole.0 == end && whole.1 == errors + rest
      {
        assert answers[i..][0] == answers[i] && answers[i..][1..] == answers[i + 1..];
        var outcome := UpdateToken(args, answers[i]);
        if outcome.Ok? {
          break;
        }
        errors := errors + [outcome.error];
        if config.retryInterval > 0 {
          now := now + config.retryInterval;
        }
        Associative(errors[..|errors| - 1], [outcome.error],
                    Retry(View(), config, args.Key(), args, answers[i + 1..]).1);
      }
      assert errors + [] == errors;
    }

    /** What the refresh pass does at one key. */
    method VisitKey(key: string, answers: seq<Answer>) returns (errors: seq<string>)
      requires |answers| == config.maxRetry + 1
      modifies this
      ensures (View(), errors) == Visit(old(View()), config, key, answers)
    {
      errors := [];
      if key in cache && Readable(cache[key].deadline, now) {
        var (domain, role, principal) := Decode(key);
        var args := Args(domain, role, principal, cache[key].args.bounds);
        assert args == RefreshArgs(key, cache[key]);
        errors := UpdateTokenWithRetry(args, answers);
      }
    }

    /** The part of the environment. */
    method Interfere(gap: Gap)
      modifies this
      ensures View() == Others(old(View()), gap)
    {
      now, cache, sent := now + gap.delay, cache - gap.purged + gap.stored, sent + gap.sent;
    }

    method RefreshTokenCache(turns: seq<Turn>) returns (errors: seq<string>)
      requires Answered(turns, config)
      modifies this
      ensures (View(), errors) == Refresh(old(View()), config, turns)
    {
      ghost var whole := Refresh(View(), config, turns);
      errors := [];
      for i := 0 to |turns|
        invariant var (end, rest) := Refresh(View(), config, turns[i..]); whole.0 == end && whole.1 == errors + rest
      {
        Interfere(turns[i].gap);
        assert turns[i..][0] == turns[i] && turns[i..][1..] == turns[i + 1..];
        var failed := VisitKey(turns[i].key, turns[i].answers);
        Associative(errors, failed, Refresh(View(), config, turns[i + 1..]).1);
        errors := errors + failed;
      }
      assert errors + [] == errors;
    }

    /** The updater's loop; `closed` tells whether it has ended and closed its channel. */
    method StartUpdater(events: seq<Event>) returns (out: seq<Output>, closed: bool)
      requires forall i :: 0 <= i < |events| && events[i].Tick? ==> Answered(events[i].turns, config)
      modifies this
      ensures closed <==> Cancelled in events
      ensures var (end, errors) := PassErrors(old(View()), config, events);
              && View() == end
              && |out| == |errors| + (if closed then 1 else 0)
              && (forall i :: 0 <= i < |errors| ==> out[i] == RefreshError(errors[i]))
              && (closed ==> out[|errors|] == ContextError)
    {
      out, closed := [], false;
      ghost var whole := PassErrors(View(), config, events);
      ghost var sofar: seq<string> := [];
      for i := 0 to |events|
        invariant !closed && forall k :: 0 <= k < i ==> events[k].Tick?
        invariant out == Forward(sofar)
        invariant var (end, rest) := PassErrors(View(), config, events[i..]); whole.0 == end && whole.1 == sofar + rest
      {
        if events[i].Cancelled? {
          assert sofar + [] == sofar;
          return out + [ContextError], true;
        }
        assert events[i..][1..] == events[i + 1..];
        Interfere(events[i].gap);
        var errors := RefreshTokenCache(events[i].turns);
        ForwardAppend(sofar, errors);
        Associative(sofar, errors, PassErrors(View(), config, events[i + 1..]).1);
        out := out + Forward(errors);
        sofar := sofar + errors;
      }
      assert sofar + [] == sofar;
    }
  }

  lemma Associative(a: seq<string>, b: seq<string>, c: seq<string>)
    ensures (a + b) + c == a + (b + c)
  {
  }

  lemma ForwardAppend(errors: seq<string>, others: seq<string>)
    ensures Forward(errors + others) == Forward(errors) + Forward(others)
  {
  }

  function Copies(args: Args, n: nat): seq<Args> {
    seq(n, _ => args)
  }

  /** The requests sent by an update with retries: one for each error and one for the success, if any. */
  function Attempts(errors: seq<string>, answers: seq<Answer>): nat {
    if |errors| < |answers| then |errors| + 1 else |errors|
  }

  /** What an update with retries may do: stop at the first success, which alone touches the cache. */
  ghost predicate Retried(w: World, end: World, errors: seq<string>, key: string, args: Args, answers: seq<Answer>) {
    && |errors| <= |answers|
    && (forall i :: 0 <= i < |errors| ==> answers[i].outcome == Err(errors[i]))
    && end.sent == w.sent + Copies(args, Attempts(errors, answers))
    && (|errors| == |answers| ==> end.cache == w.cache)
    && (|errors| < |answers| ==>
          var last := answers[|errors|];
          && last.outcome.Ok?
          && end.cache == w.cache[key := NewItem(last.outcome.token, args, end.now - last.delay, end.now)])
  }

  /**
   The retry loop stops at the first success, which alone touches the cache, and reports the errors before it; it sends
   the same call every time.
   */
  lemma {:induction false} RetryEffect(w: World, config: Config, key: string, args: Args, answers: seq<Answer>)
    ensures var (end, errors) := Retry(w, config, key, args, answers); Retried(w, end, errors, key, args, answers)
    decreases |answers|
  {
    if answers != [] && answers[0].outcome.Err? {
      var next := Sleep(Update(w, key, args, answers[0]), config.retryInterval);
      RetryEffect(next, config, key, args, answers[1..]);
      var (end, errors) := Retry(w, config, key, args, answers);
      var (end', rest) := Retry(next, config, key, args, answers[1..]);
      assert end == end' && errors == [answers[0].outcome.error] + rest;
      assert next.sent == w.sent + [args];
      assert [args] + Copies(args, Attempts(rest, answers[1..])) == Copies(args, Attempts(errors, answers));
    }
  }

  function TotalDelay(answers: seq<Answer>): nat {
    if answers == [] then 0 else answers[0].delay + TotalDelay(answers[1..])
  }

  /** The clock moves by the answers' delays and, for every failure, by the pause; a negative interval is none. */
  lemma {:induction false} RetryPauses(w: World, config: Config, key: string, args: Args, answers: seq<Answer>)
    ensures var (end, errors) := Retry(w, config, key, args, answers);
            && Attempts(errors, answers) <= |answers|
            && end.now == w.now + TotalDelay(answers[..Attempts(errors, answers)])
                          + |errors| * (if config.retryInterval > 0 then config.retryInterval else 0)
    decreases |answers|
  {
    if answers == [] {
    } else {
      var next := Sleep(Update(w, key, args, answers[0]), config.retryInterval);
      var errors, rest := Retry(w, config, key, args, answers).1, Retry(next, config, key, args, answers[1..]).1;
      var pause := if config.retryInterval > 0 then config.retryInterval else 0;
      if answers[0].outcome.Err? {
        RetryPauses(next, config, key, args, answers[1..]);
        assert |errors| == |rest| + 1;
        assert |errors| * pause == pause + |rest| * pause;
      }
      DelayOfPrefix(answers, Attempts(errors, answers));
    }
  }

  lemma DelayOfPrefix(answers: seq<Answer>, n: nat)
    requires answers != [] && 0 < n <= |answers|
    ensures TotalDelay(answers[..n]) == answers[0].delay + TotalDelay(answers[1..][..n - 1])
  {
    assert answers[..n][1..] == answers[1..][..n - 1];
  }

  ghost predicate AllRefreshable(cache: map<string, Item>) {
    forall key :: key in cache ==> Refreshable(key)
  }

  /** The two caches have the same keys, with the same expiry bounds under each. */
  ghost predicate SameKeysAndBounds(cache: map<string, Item>, other: map<string, Item>) {
    cache.Keys == other.Keys && forall key :: key in cache ==> cache[key].args.bounds == other[key].args.bounds
  }

  /**
   One turn of a pass: at a readable entry `n` requests, all for the decoded key with the stored bounds; else nothing.
   */
  ghost predicate Visited(w: World, end: World, config: Config, turn: Turn, errors: seq<string>, n: nat) {
    if turn.key in w.cache && Readable(w.cache[turn.key].deadline, w.now) then
      && Retried(w, end, errors, turn.key, RefreshArgs(turn.key, w.cache[turn.key]), turn.answers)
      && n == Attempts(errors, turn.answers) && 1 <= n <= config.maxRetry + 1
    else
      end == w && errors == [] && n == 0
  }

  /**
   The worlds at the beginning and, from the first turn on, at the end of each turn; its errors and number of requests.
   */
  datatype Pass = Pass(begins: seq<World>, ends: seq<World>, errors: seq<seq<string>>, counts: seq<nat>)

  ghost predicate IsPass(config: Config, turns: seq<Turn>, pass: Pass) {
    && HasLength(pass, |turns|)
    && (forall i :: 0 <= i < |turns| ==> BeginsAt(turns, pass, i))
    && forall i :: 0 <= i < |turns| ==> VisitedAt(config, turns, pass, i)
  }

  predicate HasLength(pass: Pass, n: nat) {
    |pass.begins| == |pass.errors| == |pass.counts| == n && |pass.ends| == n + 1
  }

  /** The turn begins after what others have done, and adds or removes no key and changes no bounds. */
  ghost predicate BeginsAt(turns: seq<Turn>, pass: Pass, i: nat)
    requires HasLength(pass, |turns|) && i < |turns|
  {
    && pass.begins[i] == Others(pass.ends[i], turns[i].gap)
    && SameKeysAndBounds(pass.begins[i].cache, pass.ends[i + 1].cache)
  }

  ghost predicate VisitedAt(config: Config, turns: seq<Turn>, pass: Pass, i: nat)
    requires HasLength(pass, |turns|) && i < |turns|
  {
    Visited(pass.begins[i], pass.ends[i + 1], config, turns[i], pass.errors[i], pass.counts[i])
  }

  function Concat(parts: seq<seq<string>>): seq<string> {
    if parts == [] then [] else parts[0] + Concat(parts[1..])
  }

  /** The calls sent in a turn: those of others before it, then `n` times what is to be repeated at its key. */
  ghost function TurnCalls(turn: Turn, begin: World, n: nat): seq<Args> {
    turn.gap.sent + (if turn.key in begin.cache then Copies(RefreshArgs(turn.key, begin.cache[turn.key]), n) else [])
  }

  ghost function Calls(turns: seq<Turn>, begins: seq<World>, counts: seq<nat>): seq<Args>
    requires |turns| == |begins| == |counts|
  {
    if turns == [] then [] else TurnCalls(turns[0], begins[0], counts[0]) + Calls(turns[1..], begins[1..], counts[1..])
  }

  /** The keys that are left when others purge and store, and nobody else does. */
  ghost function LeftByOthers(keys: set<string>, turns: seq<Turn>): set<string>
    decreases |turns|
  {
    if turns == [] then keys else LeftByOthers(keys - turns[0].gap.purged + turns[0].gap.stored.Keys, turns[1..])
  }

  lemma ReplacingKeepsBounds(cache: map<string, Item>, key: string, item: Item)
    requires key in cache && item.args.bounds == cache[key].args.bounds
    ensures SameKeysAndBounds(cache, cache[key := item])
  {
  }

  lemma RetriedKeeps(w: World, end: World, errors: seq<string>, key: string, args: Args, answers: seq<Answer>)
    requires key in w.cache && args.bounds == w.cache[key].args.bounds
    requires Retried(w, end, errors, key, args, answers)
    ensures SameKeysAndBounds(w.cache, end.cache)
  {
    if |errors| < |answers| {
      var last := answers[|errors|];
      ReplacingKeepsBounds(w.cache, key, NewItem(last.outcome.token, args, end.now - last.delay, end.now));
    }
  }

  lemma VisitEffect(w: World, config: Config, turn: Turn) returns (end: World, errors: seq<string>, n: nat)
    requires AllRefreshable(w.cache) && |turn.answers| == config.maxRetry + 1
    ensures (end, errors) == Visit(w, config, turn.key, turn.answers)
    ensures Visited(w, end, config, turn, errors, n)
    ensures SameKeysAndBounds(w.cache, end.cache) && AllRefreshable(end.cache)
  {
    var key := turn.key;
    end, errors := Visit(w, config, key, turn.answers).0, Visit(w, config, key, turn.answers).1;
    n := 0;
    if key in w.cache && Readable(w.cache[key].deadline, w.now) {
      var args := RefreshArgs(key, w.cache[key]);
      RefreshKey(key, w.cache[key]);
      RetryEffect(w, config, key, args, turn.answers);
      RetriedKeeps(w, end, errors, key, args, turn.answers);
      n := Attempts(errors, turn.answers);
    }
  }

  /**
   A turn's requests are copies of the call to be repeated at its key, and its errors are no more than its answers.
   */
  lemma VisitedSends(w: World, end: World, config: Config, turn: Turn, errors: seq<string>, n: nat)
    requires Visited(w, end, config, turn, errors, n)
    ensures turn.gap.sent <= TurnCalls(turn, w, n)
    ensures end.sent == w.sent + TurnCalls(turn, w, n)[|turn.gap.sent|..]
    ensures |errors| <= if turn.key in w.cache then |turn.answers| else 0
  {
  }

  /** What others store is under well-formed keys. */
  ghost predicate OthersRefreshable(turns: seq<Turn>) {
    forall i :: 0 <= i < |turns| ==> AllRefreshable(turns[i].gap.stored)
  }

  /**
   A pass over well-formed keys, whatever others do between its turns: turn by turn, and in order, it sends to each
   readable entry between one and max+1 requests, as many as its answers up to the first success, all of them for the
   call stored there with the key decoded; it reports the failures, and nothing but a success touches the cache. It
   adds and removes no key: those at its end are the ones that others have left.
   */
  lemma {:induction false} RefreshEffect(w: World, config: Config, turns: seq<Turn>) returns (pass: Pass)
    requires AllRefreshable(w.cache) && OthersRefreshable(turns) && Answered(turns, config)
    ensures IsPass(config, turns, pass) && pass.ends[0] == w
    ensures Refresh(w, config, turns) == (pass.ends[|turns|], Concat(pass.errors))
    ensures pass.ends[|turns|].sent == w.sent + Calls(turns, pass.begins, pass.counts)
    ensures pass.ends[|turns|].cache.Keys == LeftByOthers(w.cache.Keys, turns)
    decreases |turns|
  {
    if turns == [] {
      pass := Pass([], [w], [], []);
    } else {
      GapKeepsRefreshable(w, turns);
      var next, failed, n := VisitEffect(Others(w, turns[0].gap), config, turns[0]);
      assert Answered(turns[1..], config);
      var rest := RefreshEffect(next, config, turns[1..]);
      pass := RefreshTurn(w, config, turns, next, failed, n, rest);
    }
  }

  lemma RefreshTurn(w: World, config: Config, turns: seq<Turn>, next: World, failed: seq<string>, n: nat, rest: Pass)
      returns (pass: Pass)
    requires turns != []
    requires var begin := Others(w, turns[0].gap);
             && (next, failed) == Visit(begin, config, turns[0].key, turns[0].answers)
             && Visited(begin, next, config, turns[0], failed, n) && SameKeysAndBounds(begin.cache, next.cache)
    requires IsPass(config, turns[1..], rest) && rest.ends[0] == next
    requires Refresh(next, config, turns[1..]) == (rest.ends[|turns| - 1], Concat(rest.errors))
    requires rest.ends[|turns| - 1].sent == next.sent + Calls(turns[1..], rest.begins, rest.counts)
    requires rest.ends[|turns| - 1].cache.Keys == LeftByOthers(next.cache.Keys, turns[1..])
    ensures IsPass(config, turns, pass) && pass.ends[0] == w
    ensures Refresh(w, config, turns) == (pass.ends[|turns|], Concat(pass.errors))
    ensures pass.ends[|turns|].sent == w.sent + Calls(turns, pass.begins, pass.counts)
    ensures pass.ends[|turns|].cache.Keys == LeftByOthers(w.cache.Keys, turns)
  {
    pass := InFront(w, Others(w, turns[0].gap), failed, n, rest);
    PassGrows(config, turns, w, failed, n, rest);
    PassSends(config, turns, w, failed, n, rest);
    PassErrorsGrow(failed, rest.errors);
    assert Others(w, turns[0].gap).cache.Keys == w.cache.Keys - turns[0].gap.purged + turns[0].gap.stored.Keys;
  }

  lemma PassErrorsGrow(failed: seq<string>, errors: seq<seq<string>>)
    ensures Concat([failed] + errors) == failed + Concat(errors)
  {
    assert ([failed] + errors)[1..] == errors;
  }

  lemma GapKeepsRefreshable(w: World, turns: seq<Turn>)
    requires turns != [] && AllRefreshable(w.cache) && OthersRefreshable(turns)
    ensures AllRefreshable(Others(w, turns[0].gap).cache) && OthersRefreshable(turns[1..])
  {
    assert AllRefreshable(turns[0].gap.stored);
  }

  /** A turn in front of a pass. */
  function InFront(w: World, begin: World, errors: seq<string>, n: nat, rest: Pass): Pass {
    Pass([begin] + rest.begins, [w] + rest.ends, [errors] + rest.errors, [n] + rest.counts)
  }

  lemma PassGrows(config: Config, turns: seq<Turn>, w: World, failed: seq<string>, n: nat, rest: Pass)
    requires turns != [] && IsPass(config, turns[1..], rest)
    requires Visited(Others(w, turns[0].gap), rest.ends[0], config, turns[0], failed, n)
    requires SameKeysAndBounds(Others(w, turns[0].gap).cache, rest.ends[0].cache)
    ensures IsPass(config, turns, InFront(w, Others(w, turns[0].gap), failed, n, rest))
  {
    var pass := InFront(w, Others(w, turns[0].gap), failed, n, rest);
    forall i | 0 <= i < |turns| ensures BeginsAt(turns, pass, i) && VisitedAt(config, turns, pass, i) {
      if i > 0 {
        LaterTurn(config, turns, pass, rest, i);
      }
    }
  }

  lemma LaterTurn(config: Config, turns: seq<Turn>, pass: Pass, rest: Pass, i: nat)
    requires 0 < i < |turns| && HasLength(pass, |turns|) && HasLength(rest, |turns| - 1)
    requires pass.begins[1..] == rest.begins && pass.ends[1..] == rest.ends
    requires pass.errors[1..] == rest.errors && pass.counts[1..] == rest.counts
    requires BeginsAt(turns[1..], rest, i - 1) && VisitedAt(config, turns[1..], rest, i - 1)
    ensures BeginsAt(turns, pass, i) && VisitedAt(config, turns, pass, i)
  {
    assert pass.begins[i] == rest.begins[i - 1] && pass.ends[i] == rest.ends[i - 1] && pass.ends[i + 1] == rest.ends[i];
    assert pass.errors[i] == rest.errors[i - 1] && pass.counts[i] == rest.counts[i - 1]
           && turns[i] == turns[1..][i - 1];
  }

  lemma {:induction false} PassSends(config: Config, turns: seq<Turn>, w: World, failed: seq<string>, n: nat,
                                     rest: Pass)
    requires turns != [] && HasLength(rest, |turns| - 1)
    requires Visited(Others(w, turns[0].gap), rest.ends[0], config, turns[0], failed, n)
    requires rest.ends[|turns| - 1].sent == rest.ends[0].sent + Calls(turns[1..], rest.begins, rest.counts)
    ensures rest.ends[|turns| - 1].sent ==
            w.sent + Calls(turns, [Others(w, turns[0].gap)] + rest.begins, [n] + rest.counts)
  {
    var begin := Others(w, turns[0].gap);
    VisitedSends(begin, rest.ends[0], config, turns[0], failed, n);
    CallsGrow(turns, begin, n, rest.begins, rest.counts);
    SentInTurn(w.sent, TurnCalls(turns[0], begin, n), |turns[0].gap.sent|, Calls(turns[1..], rest.begins, rest.counts));
  }

  lemma CallsGrow(turns: seq<Turn>, begin: World, n: nat, begins: seq<World>, counts: seq<nat>)
    requires turns != [] && |turns| == |begins| + 1 == |counts| + 1
    ensures Calls(turns, [begin] + begins, [n] + counts) ==
            TurnCalls(turns[0], begin, n) + Calls(turns[1..], begins, counts)
  {
    assert ([n] + counts)[1..] == counts && ([begin] + begins)[1..] == begins;
  }

  lemma SentInTurn(sent: seq<Args>, calls: seq<Args>, n: nat, rest: seq<Args>)
    requires n <= |calls|
    ensures ((sent + calls[..n]) + calls[n..]) + rest == sent + (calls + rest)
  {
  }

  /** Every entry comes from a clean call and lies under that call's key. */
  ghost predicate WellKept(cache: map<string, Item>) {
    forall key :: key in cache ==> cache[key].args.IsClean() && cache[key].args.Key() == key
  }

  ghost predicate OthersWellKept(turns: seq<Turn>) {
    forall i :: 0 <= i < |turns| ==> WellKept(turns[i].gap.stored)
  }

  /** What a refresh asks for at this key is the stored call with its roles sorted, and its request that of the call. */
  ghost predicate RepeatsStored(cache: map<string, Item>, key: string, expiry: int) {
    key in cache ==>
      var again, stored := RefreshArgs(key, cache[key]), cache[key].args;
      again == Canonical(stored) && SameUpToOrder(CreateRequest(again, expiry), CreateRequest(stored, expiry))
  }

  lemma WellKeptRepeats(cache: map<string, Item>, key: string, expiry: int)
    requires WellKept(cache)
    ensures RepeatsStored(cache, key, expiry)
    ensures key in cache ==>
              Refreshable(key) && RefreshArgs(key, cache[key]).IsClean() && RefreshArgs(key, cache[key]).Key() == key
  {
    if key in cache {
      var args := cache[key].args;
      CleanKeyRefreshable(args.domain, args.role, args.principal);
      RefreshRepeatsRequest(cache[key], expiry);
    }
  }

  lemma WellKeptRefreshable(cache: map<string, Item>)
    requires WellKept(cache)
    ensures AllRefreshable(cache)
  {
    forall key | key in cache ensures Refreshable(key) {
      WellKeptRepeats(cache, key, 0);
    }
  }

  lemma VisitedKeepsCalls(w: World, end: World, config: Config, turn: Turn, errors: seq<string>, n: nat)
    requires Visited(w, end, config, turn, errors, n) && WellKept(w.cache)
    ensures WellKept(end.cache)
  {
    WellKeptRepeats(w.cache, turn.key, 0);
    if n > |errors| {
      var answer := turn.answers[|errors|];
      StoringKeepsCalls(w.cache, turn.key,
                        NewItem(answer.outcome.token, RefreshArgs(turn.key, w.cache[turn.key]), end.now - answer.delay,
                                end.now));
    }
  }

  lemma StoringKeepsCalls(cache: map<string, Item>, key: string, item: Item)
    requires WellKept(cache) && item.args.IsClean() && item.args.Key() == key
    ensures WellKept(cache[key := item])
  {
  }

  lemma {:induction false} PassKeepsCalls(config: Config, turns: seq<Turn>, pass: Pass, i: nat)
    requires IsPass(config, turns, pass) && OthersWellKept(turns) && WellKept(pass.ends[0].cache) && i < |pass.ends|
    ensures WellKept(pass.ends[i].cache)
    ensures i < |turns| ==> WellKept(pass.begins[i].cache)
  {
    if i == 0 {
    } else {
      var m := i - 1;
      PassKeepsCalls(config, turns, pass, m);
      assert VisitedAt(config, turns, pass, m);
      VisitedKeepsCalls(pass.begins[m], pass.ends[i], config, turns[m], pass.errors[m], pass.counts[m]);
    }
    if i < |turns| {
      assert BeginsAt(turns, pass, i);
      GapKeepsCalls(pass.ends[i], turns, i);
    }
  }

  lemma GapKeepsCalls(w: World, turns: seq<Turn>, i: nat)
    requires WellKept(w.cache) && OthersWellKept(turns) && i < |turns|
    ensures WellKept(Others(w, turns[i].gap).cache)
  {
    assert WellKept(turns[i].gap.stored);
  }

  /**
   A pass over the entries of clean calls sends, turn by turn and in order, copies of the call stored at the key it
   visits with the roles sorted, whatever clean calls store between its turns; each request differs from the one for
   the stored call at most in the order of the roles.
   */
  lemma RefreshRepeatsCalls(w: World, config: Config, turns: seq<Turn>, expiry: int) returns (pass: Pass)
    requires WellKept(w.cache) && OthersWellKept(turns) && Answered(turns, config)
    ensures IsPass(config, turns, pass) && pass.ends[0] == w
    ensures Refresh(w, config, turns) == (pass.ends[|turns|], Concat(pass.errors))
    ensures pass.ends[|turns|].sent == w.sent + Calls(turns, pass.begins, pass.counts)
    ensures pass.ends[|turns|].cache.Keys == LeftByOthers(w.cache.Keys, turns) && WellKept(pass.ends[|turns|].cache)
    ensures forall i :: 0 <= i < |turns| ==> RepeatsStored(pass.begins[i].cache, turns[i].key, expiry)
  {
    WellKeptRefreshable(w.cache);
    forall i | 0 <= i < |turns| ensures AllRefreshable(turns[i].gap.stored) {
      WellKeptRefreshable(turns[i].gap.stored);
    }
    pass := RefreshEffect(w, config, turns);
    PassKeepsCalls(config, turns, pass, |turns|);
    forall i | 0 <= i < |turns| ensures RepeatsStored(pass.begins[i].cache, turns[i].key, expiry) {
      PassKeepsCalls(config, turns, pass, i);
      WellKeptRepeats(pass.begins[i].cache, turns[i].key, expiry);
    }
  }

  /** The turn comes to a key of this cache, or to none, and repeats what is stored there. */
  ghost predicate RepeatsFirst(cache: map<string, Item>, turn: Turn, begin: World) {
    turn.key in begin.cache ==>
      turn.key in cache && RefreshArgs(turn.key, begin.cache[turn.key]) == RefreshArgs(turn.key, cache[turn.key])
  }

  lemma SameBoundsRepeat(cache: map<string, Item>, turn: Turn, begin: World)
    requires SameKeysAndBounds(cache, begin.cache)
    ensures RepeatsFirst(cache, turn, begin)
  {
  }

  /**
   While nobody else touches the cache, a pass keeps all keys and bounds, and repeats what was stored at its beginning.
   */
  lemma QuietPass(config: Config, turns: seq<Turn>, pass: Pass, i: nat)
    requires IsPass(config, turns, pass) && i < |turns|
    requires forall k :: 0 <= k < |turns| ==> turns[k].gap.purged == {} && turns[k].gap.stored == map[]
    ensures SameKeysAndBounds(pass.ends[0].cache, pass.ends[i + 1].cache)
    ensures RepeatsFirst(pass.ends[0].cache, turns[i], pass.begins[i])
  {
    QuietTurns(config, turns, pass, i);
    QuietTurns(config, turns, pass, i + 1);
    assert BeginsAt(turns, pass, i);
    assert pass.begins[i].cache == pass.ends[i].cache;
    SameBoundsRepeat(pass.ends[0].cache, turns[i], pass.begins[i]);
  }

  lemma {:induction false} QuietTurns(config: Config, turns: seq<Turn>, pass: Pass, i: nat)
    requires IsPass(config, turns, pass) && i <= |turns|
    requires forall k :: 0 <= k < |turns| ==> turns[k].gap.purged == {} && turns[k].gap.stored == map[]
    ensures SameKeysAndBounds(pass.ends[0].cache, pass.ends[i].cache)
  {
    if i == 0 {
    } else {
      var m := i - 1;
      QuietTurns(config, turns, pass, m);
      assert BeginsAt(turns, pass, m);
      assert pass.begins[m].cache == pass.ends[m].cache;
    }
  }

  ghost predicate Distinct(keys: seq<string>) {
    forall i, j :: 0 <= i < j < |keys| ==> keys[i] != keys[j]
  }

  function KeysOf(turns: seq<Turn>): seq<string> {
    seq(|turns|, i requires 0 <= i < |turns| => turns[i].key)
  }

  /** Others store only under keys that are there already. */
  ghost predicate NoNewKeys(keys: set<string>, turns: seq<Turn>) {
    forall i :: 0 <= i < |turns| ==> turns[i].gap.stored.Keys <= keys
  }

  /** Without new keys of others, the errors of a pass fit into a channel with room for all attempts at all its keys. */
  lemma RefreshErrorsFit(w: World, config: Config, turns: seq<Turn>)
    requires AllRefreshable(w.cache) && Answered(turns, config) && Distinct(KeysOf(turns))
             && NoNewKeys(w.cache.Keys, turns)
    ensures |Refresh(w, config, turns).1| <= |w.cache| * (config.maxRetry + 1)
  {
    forall i | 0 <= i < |turns| ensures AllRefreshable(turns[i].gap.stored) {
      assert turns[i].gap.stored.Keys <= w.cache.Keys;
    }
    var pass := RefreshEffect(w, config, turns);
    PassErrorsFit(config, turns, pass);
    assert w.cache.Keys == pass.ends[0].cache.Keys;
  }

  lemma {:induction false} KeysWithin(config: Config, turns: seq<Turn>, pass: Pass, i: nat)
    requires IsPass(config, turns, pass) && NoNewKeys(pass.ends[0].cache.Keys, turns) && i < |pass.ends|
    ensures pass.ends[i].cache.Keys <= pass.ends[0].cache.Keys
    ensures i < |turns| ==> pass.begins[i].cache.Keys <= pass.ends[0].cache.Keys
  {
    if i == 0 {
    } else {
      KeysWithin(config, turns, pass, i - 1);
      assert BeginsAt(turns, pass, i - 1);
    }
    if i < |turns| {
      assert BeginsAt(turns, pass, i);
      assert turns[i].gap.stored.Keys <= pass.ends[0].cache.Keys;
    }
  }

  lemma PassErrorsFit(config: Config, turns: seq<Turn>, pass: Pass)
    requires IsPass(config, turns, pass) && Answered(turns, config)
    requires Distinct(KeysOf(turns)) && NoNewKeys(pass.ends[0].cache.Keys, turns)
    ensures |Concat(pass.errors)| <= |pass.ends[0].cache.Keys| * (config.maxRetry + 1)
  {
    var keys, m := pass.ends[0].cache.Keys, config.maxRetry + 1;
    forall i | 0 <= i < |turns| ensures |pass.errors[i]| <= if KeysOf(turns)[i] in keys then m else 0 {
      KeysWithin(config, turns, pass, i);
      assert VisitedAt(config, turns, pass, i);
      VisitedSends(pass.begins[i], pass.ends[i + 1], config, turns[i], pass.errors[i], pass.counts[i]);
    }
    ErrorsFit(keys, KeysOf(turns), pass.errors, m);
    RoomIsProduct(|keys|, m);
  }

  /** Room for `m` errors at each of `n` keys. */
  function Room(n: nat, m: nat): nat {
    if n == 0 then 0 else m + Room(n - 1, m)
  }

  lemma {:induction false} RoomIsProduct(n: nat, m: nat)
    ensures Room(n, m) == n * m
  {
    if n == 0 {
    } else {
      RoomIsProduct(n - 1, m);
    }
  }

  lemma {:induction false} ErrorsFit(keys: set<string>, visited: seq<string>, errors: seq<seq<string>>, m: nat)
    requires Distinct(visited) && |errors| == |visited|
    requires forall i :: 0 <= i < |visited| ==> |errors[i]| <= if visited[i] in keys then m else 0
    ensures |Concat(errors)| <= Room(|keys|, m)
    decreases |visited|
  {
    if visited == [] {
      assert Concat(errors) == [];
    } else {
      var key := visited[0];
      assert |errors[0]| <= if key in keys then m else 0;
      ErrorsFit(keys - {key}, visited[1..], errors[1..], m);
      if key in keys {
        assert |keys| == |keys - {key}| + 1;
      } else {
        assert keys - {key} == keys;
      }
    }
  }

  /**
   The passes of the updater, one for each tick before the end of the context: the i-th starts where the one before has
   ended, after whatever others did in between.
   */
  ghost predicate ArePasses(w: World, config: Config, events: seq<Event>, begins: seq<World>, ends: seq<World>,
                            errors: seq<seq<string>>) {
    var n := |begins|;
    && |ends| == n + 1 && |errors| == n && n <= |events| && ends[0] == w
    && (n < |events| ==> events[n].Cancelled?)
    && forall i :: 0 <= i < n ==> IsOnePass(config, events[i], ends[i], begins[i], ends[i + 1], errors[i])
  }

  ghost predicate IsOnePass(config: Config, event: Event, before: World, begin: World, end: World,
                            errors: seq<string>) {
    && event.Tick?
    && begin == Others(before, event.gap)
    && (end, errors) == Refresh(begin, config, event.turns)
  }

  /** The updater forwards the errors of these passes one after the other. */
  lemma {:induction false} StreamOfPasses(w: World, config: Config, events: seq<Event>)
      returns (begins: seq<World>, ends: seq<World>, errors: seq<seq<string>>)
    ensures ArePasses(w, config, events, begins, ends, errors)
    ensures PassErrors(w, config, events) == (ends[|begins|], Concat(errors))
    decreases |events|
  {
    begins, ends, errors := [], [w], [];
    if events != [] && events[0].Tick? {
      var begin := Others(w, events[0].gap);
      var (end, failed) := Refresh(begin, config, events[0].turns);
      begins, ends, errors := StreamOfPasses(end, config, events[1..]);
      PassesGrow(w, config, events, begin, end, failed, begins, ends, errors);
      PassErrorsGrow(failed, errors);
      begins, ends, errors := [begin] + begins, [w] + ends, [failed] + errors;
    }
  }

  lemma PassesGrow(w: World, config: Config, events: seq<Event>, begin: World, end: World, failed: seq<string>,
                   begins: seq<World>, ends: seq<World>, errors: seq<seq<string>>)
    requires events != [] && IsOnePass(config, events[0], w, begin, end, failed)
    requires ArePasses(end, config, events[1..], begins, ends, errors)
    ensures ArePasses(w, config, events, [begin] + begins, [w] + ends, [failed] + errors)
  {
    var begins', ends', errors' := [begin] + begins, [w] + ends, [failed] + errors;
    forall i | 0 <= i < |begins'| ensures IsOnePass(config, events[i], ends'[i], begins'[i], ends'[i + 1], errors'[i]) {
      if i > 0 {
        assert IsOnePass(config, events[1..][i - 1], ends[i - 1], begins[i - 1], ends[i], errors[i - 1]);
        assert begins'[i] == begins[i - 1] && errors'[i] == errors[i - 1];
      }
    }
  }

  /** Passes follow each other: each starts in the world the one before has left, and its errors come after. */
  lemma {:induction false} PassesInOrder(w: World, config: Config, ticks: seq<Event>, more: seq<Event>)
    requires Cancelled !in ticks
    ensures var (next, errors) := PassErrors(w, config, ticks);
            var (end, rest) := PassErrors(next, config, more);
            PassErrors(w, config, ticks + more).0 == end && PassErrors(w, config, ticks + more).1 == errors + rest
    decreases |ticks|
  {
    if ticks == [] {
      assert ticks + more == more;
    } else {
      assert ticks[0] in ticks && Cancelled !in ticks[1..];
      assert (ticks + more)[0] == ticks[0] && (ticks + more)[1..] == ticks[1..] + more;
      var (first, errors) := Refresh(Others(w, ticks[0].gap), config, ticks[0].turns);
      PassesInOrder(first, config, ticks[1..], more);
      var (next, rest) := PassErrors(first, config, ticks[1..]);
      Associative(errors, rest, PassErrors(next, config, more).1);
    }
  }

  /** Nothing is refreshed once the updater has seen the end of the context. */
  lemma NothingAfterCancel(w: World, config: Config, ticks: seq<Event>, more: seq<Event>)
    requires Cancelled !in ticks
    ensures PassErrors(w, config, ticks + ([Cancelled] + more)) == PassErrors(w, config, ticks)
  {
    var (next, errors) := PassErrors(w, config, ticks);
    PassesInOrder(w, config, ticks, [Cancelled] + more);
    assert PassErrors(next, config, [Cancelled] + more) == (next, []);
    assert errors + [] == errors;
  }
}
