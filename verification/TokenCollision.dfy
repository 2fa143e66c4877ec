/** When a caller can be handed a token that was fetched for something else: keys shared by calls that are not clean. */
module TokenCollision {
  import opened Text
  import opened Paths
  import opened CacheKey
  import opened TokenModel
  import opened TokenProtocol
  import opened TokenSafety
  import opened TokenRefinement
  import S = TokenService

  /** The last state of the run hands to a goroutine with the call `x` a token fetched for another call. */
  ghost predicate HandsOver(run: seq<State>, actions: seq<Action>, x: Args) {
    IsRun(run, actions) &&
    var s := run[|run| - 1];
    exists p :: p in s.procs && s.procs[p].args == x && HasForeignToken(s, s.procs[p])
  }

  ghost predicate HasForeignToken(s: State, proc: Proc) {
    && proc.phase.Done? && proc.phase.outcome.Ok?
    && proc.phase.ticket < |s.fetches|
    && s.fetches[proc.phase.ticket].outcome == Some(proc.phase.outcome)
    && !SameToken(proc.args, s.fetches[proc.phase.ticket].args)
  }

  /** The run in which a call fetches a token, and a later one with the same key, for something else, gets it. */
  lemma ForeignTokenRun(x: Args, y: Args, token: Token) returns (run: seq<State>, actions: seq<Action>)
    requires y.Key() == x.Key() && !SameToken(x, y)
    ensures actions == [Call(0, y)] + CallSteps(0, false, S.Answer(Ok(token), 0)) + [Call(1, x), Look(1)]
    ensures HandsOver(run, actions, x)
  {
    var s0 := State(0, map[], map[], [], map[], []);
    var s1 := Step(s0, Call(0, y));
    var fetching := CallRefines(s1, 0, S.Answer(Ok(token), 0), []);
    actions := [Call(0, y)] + CallSteps(0, false, S.Answer(Ok(token), 0));
    run := Continue(Next, [s0, s1], [Call(0, y)], fetching, CallSteps(0, false, S.Answer(Ok(token), 0)));
    var s := run[|run| - 1];
    var item := NewItem(token, y, 0, 0);
    assert Items(s.cache) == map[y.Key() := item];
    PathIsRun(run, actions);
    StoredLine(run, actions, y, item);
    var last := SecondCall(s, x, item);
    run := Continue(Next, run, actions, last, [Call(1, x), Look(1)]);
    actions := actions + [Call(1, x), Look(1)];
    PathIsRun(run, actions);
  }

  lemma PathIsRun(run: seq<State>, actions: seq<Action>)
    requires IsPath(Next, run, actions) && Initial(run[0])
    ensures IsRun(run, actions)
  {
    forall i | 0 <= i < |actions| ensures Enabled(run[i], actions[i]) && run[i + 1] == Step(run[i], actions[i]) {
      assert Next(run[i], actions[i], run[i + 1]);
    }
  }

  lemma StoredLine(run: seq<State>, actions: seq<Action>, y: Args, item: Item)
    requires IsRun(run, actions)
    requires var s := run[|run| - 1]; Items(s.cache) == map[y.Key() := item] && |s.fetches| == 1 && item.args == y
    ensures var s := run[|run| - 1];
      && y.Key() in s.cache && s.cache[y.Key()].item == item && s.cache[y.Key()].ticket == 0
      && s.fetches[0].args == y && s.fetches[0].outcome == Some(Ok(item.token))
  {
    var s := run[|run| - 1];
    RunKeeps(run, actions, |run| - 1);
    assert y.Key() in Items(s.cache);
    assert LineOk(s.fetches, s.now, y.Key(), s.cache[y.Key()]);
  }

  lemma SecondCall(s: State, x: Args, item: Item) returns (run: seq<State>)
    requires 1 !in s.procs && x.Key() in s.cache && s.cache[x.Key()].item == item && s.cache[x.Key()].ticket == 0
    requires Readable(item.deadline, s.now) && |s.fetches| == 1
    requires s.fetches[0].outcome == Some(Ok(item.token)) && !SameToken(x, s.fetches[0].args)
    ensures IsPath(Next, run, [Call(1, x), Look(1)]) && run[0] == s
    ensures var end := run[2]; 1 in end.procs && end.procs[1].args == x && HasForeignToken(end, end.procs[1])
  {
    var called := Step(s, Call(1, x));
    run := [s, called, Step(called, Look(1))];
  }

  lemma OnlyUnclean(run: seq<State>, actions: seq<Action>, x: Args)
    requires CleanCallsBut(actions, x) && HandsOver(run, actions, x)
    ensures !x.IsClean() && Refreshable(x.Key())
  {
    var i := |run| - 1;
    var s := run[i];
    var p :| p in s.procs && s.procs[p].args == x && HasForeignToken(s, s.procs[p]);
    OutcomesAreGenuine(run, actions, i, p);
    RunCleanBut(run, actions, x, i);
    var y := s.fetches[s.procs[p].phase.ticket].args;
    assert CleanOr(y, x) && y.Key() == x.Key();
    CleanCollision(x);
  }

  /** In some run whose other callers are clean, the call is handed a token fetched for another one. */
  ghost predicate MayGetForeignToken(x: Args) {
    exists run, actions :: CleanCallsBut(actions, x) && HandsOver(run, actions, x)
  }

  /**
   Among otherwise clean callers, a call can be handed a token fetched for another domain, principal or role list
   exactly when it is not clean itself and its key is one that a refresh keeps.
   */
  lemma ForeignTokens(x: Args)
    ensures MayGetForeignToken(x) <==> !x.IsClean() && Refreshable(x.Key())
  {
    if MayGetForeignToken(x) {
      var run, actions :| CleanCallsBut(actions, x) && HandsOver(run, actions, x);
      OnlyUnclean(run, actions, x);
    }
    if !x.IsClean() && Refreshable(x.Key()) {
      var y := CollidingCall(x);
      var run, actions := ForeignTokenRun(x, y, Token("", 0));
      CallsOfRun(actions, x, y);
    }
  }

  lemma CallsOfRun(actions: seq<Action>, x: Args, y: Args)
    requires y.IsClean()
    requires actions == [Call(0, y)] + CallSteps(0, false, S.Answer(Ok(Token("", 0)), 0)) + [Call(1, x), Look(1)]
    ensures CleanCallsBut(actions, x)
  {
  }

  /** In some run, with any other callers, the call is handed a token fetched for another one. */
  ghost predicate MayGetAnyForeignToken(x: Args) {
    exists run, actions :: HandsOver(run, actions, x)
  }

  /**
   With any other callers, a call, clean or not, can be handed a token fetched for another domain, principal or role
   list exactly when its key can be read in another way; a clean call with a comma-free principal, exactly when it has
   one.
   */
  lemma AnyForeignTokens(x: Args)
    ensures MayGetAnyForeignToken(x) <==>
            exists i: nat, j: nat :: IsReading(x.Key(), i, j) && (i != |x.domain| || j != RolesEnd(x))
    ensures x.IsClean() && ROLE_SEPARATOR !in x.principal ==> (MayGetAnyForeignToken(x) <==> x.principal != "")
  {
    ForeignTokensCollide(x);
    Collision(x);
    if x.IsClean() && ROLE_SEPARATOR !in x.principal {
      CleanVictim(x);
    }
  }

  lemma ForeignTokensCollide(x: Args)
    ensures MayGetAnyForeignToken(x) <==> Collides(x)
  {
    if MayGetAnyForeignToken(x) {
      var run, actions :| HandsOver(run, actions, x);
      HandedOverByKey(run, actions, x);
    }
    if Collides(x) {
      var y: Args :| y.Key() == x.Key() && !SameToken(x, y);
      var run, actions := ForeignTokenRun(x, y, Token("", 0));
    }
  }

  lemma HandedOverByKey(run: seq<State>, actions: seq<Action>, x: Args)
    requires HandsOver(run, actions, x)
    ensures Collides(x)
  {
    var i := |run| - 1;
    var s := run[i];
    var p :| p in s.procs && s.procs[p].args == x && HasForeignToken(s, s.procs[p]);
    OutcomesAreGenuine(run, actions, i, p);
    assert s.fetches[s.procs[p].phase.ticket].args.Key() == x.Key();
  }
}
