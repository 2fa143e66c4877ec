/**
 The service certificate cache: when a request serves, refreshes, falls back or fails, and the updater's retry loop.
 */
module SvcCert {
  import opened Text

  datatype Cert = Cert(pem: string, notAfter: int)

  /** The cached certificate and the time from which it is to be refreshed. */
  datatype CertCache = CertCache(cert: Option<Cert>, exp: int)

  datatype Outcome = Issued(cert: Cert) | Refused(error: string)

  /** The outcome of a refresh and the time it takes. */
  datatype Answer = Answer(outcome: Outcome, delay: nat)

  /** What happens between two steps of a request: time passes, another goroutine may store a certificate. */
  datatype Gap = Gap(delay: nat, stored: Option<Cert>)

  datatype Served =
    | FromCache(cert: Cert)      // without a request
    | FromRefresh(cert: Cert)
    | Fallback(cert: Cert)       // from the cache, after a failed refresh
    | Failed(error: string)

  function NewCache(cert: Cert, margin: int): CertCache {
    CertCache(Some(cert), cert.notAfter - margin)
  }

  predicate Consistent(cache: CertCache, margin: int) {
    cache.cert.Some? ==> cache == NewCache(cache.cert.value, margin)
  }

  /** The first check, at `now`: whether the loaded entry needs a refresh. */
  predicate NeedsRefresh(loaded: CertCache, now: int) {
    loaded.cert.None? || loaded.exp < now
  }

  /** The second check, after a failed refresh: whether the loaded entry still serves. */
  predicate StillServes(loaded: CertCache, margin: int, now: int) {
    loaded.cert.Some? && loaded.exp + margin > now
  }

  function Serve(loaded: CertCache, margin: int, checked: int, outcome: Outcome, rechecked: int): Served {
    if NeedsRefresh(loaded, checked) then
      match outcome
      case Issued(cert) => FromRefresh(cert)
      case Refused(error) =>
        if StillServes(loaded, margin, rechecked) then Fallback(loaded.cert.value) else Failed(error)
    else
      FromCache(loaded.cert.value)
  }

  predicate InFirstZone(loaded: CertCache, margin: int, now: int) {
    loaded.cert.Some? && now <= loaded.cert.value.notAfter - margin
  }

  predicate PastEnd(loaded: CertCache, now: int) {
    loaded.cert.None? || now >= loaded.cert.value.notAfter
  }

  /**
   What an answer means in terms of the loaded certificate's end, the margin and the outcome of the refresh, if any.
   */
  ghost predicate ByZone(served: Served, loaded: CertCache, margin: int, checked: int, outcome: Option<Outcome>,
                         rechecked: int) {
    var first, refused := InFirstZone(loaded, margin, checked), outcome.Some? && outcome.value.Refused?;
    && (served.FromCache? <==> first)
    && (served.FromRefresh? <==> !first && outcome.Some? && outcome.value.Issued?)
    && (served.Fallback? <==> !first && refused && !PastEnd(loaded, rechecked))
    && (served.Failed? <==> !first && refused && PastEnd(loaded, rechecked))
    && (served.FromCache? || served.Fallback? ==> loaded.cert == Some(served.cert))
    && (served.FromRefresh? ==> outcome.value == Issued(served.cert))
    && (served.Failed? ==> outcome.value == Refused(served.error))
  }

  /** The three zones of a loaded entry; an empty one is in none but the last. */
  lemma Zones(loaded: CertCache, margin: int, checked: int, outcome: Outcome, rechecked: int)
    requires Consistent(loaded, margin)
    ensures ByZone(Serve(loaded, margin, checked, outcome, rechecked), loaded, margin, checked, Some(outcome),
                   rechecked)
  {
  }

  /** The time at which the request checked the certificate it serves from the cache. */
  function CheckedAt(served: Served, checked: int, rechecked: int): int {
    if served.Fallback? then rechecked else checked
  }

  /** No certificate is past its end when it is served from the cache, whatever the times, exactly for margins >= 0. */
  lemma NeverPastNotAfter(margin: int)
    ensures (forall cert, checked, outcome, rechecked ::
               var served := Serve(NewCache(cert, margin), margin, checked, outcome, rechecked);
               served.FromCache? || served.Fallback? ==> CheckedAt(served, checked, rechecked) <= cert.notAfter)
            <==> margin >= 0
  {
    if margin < 0 {
      var cert := Cert("", 0);
      var served := Serve(NewCache(cert, margin), margin, -margin, Refused(""), 0);
      assert served.FromCache? && CheckedAt(served, -margin, 0) > cert.notAfter;
    }
  }

  class SvcCertService {
    const margin: int
    var now: int
    var cache: CertCache
    var requests: nat

    predicate Valid()
      reads this
    {
      Consistent(cache, margin)
    }

    constructor (margin: int, now: int)
      ensures Valid() && this.margin == margin && this.now == now
      ensures cache == CertCache(None, now) && requests == 0
    {
      this.margin, this.now := margin, now;
      cache, requests := CertCache(None, now), 0;
    }

    /** The environment's part: any delay, and any store another refresh may make. */
    method Interfere(gap: Gap)
      requires Valid()
      modifies this`now, this`cache
      ensures Valid()
      ensures now == old(now) + gap.delay
      ensures cache == if gap.stored.Some? then NewCache(gap.stored.value, margin) else old(cache)
    {
      now := now + gap.delay;
      if gap.stored.Some? {
        cache := NewCache(gap.stored.value, margin);
      }
    }

    method RefreshSvcCert(answer: Answer) returns (outcome: Outcome)
      requires Valid()
      modifies this
      ensures Valid()
      ensures outcome == answer.outcome
      ensures now == old(now) + answer.delay && requests == old(requests) + 1
      ensures cache == if outcome.Issued? then NewCache(outcome.cert, margin) else old(cache)
    {
      requests := requests + 1;
      now := now + answer.delay;
      if answer.outcome.Issued? {
        var cert := answer.outcome.cert;
        cache := CertCache(Some(cert), cert.notAfter - margin);
      }
      return answer.outcome;
    }

    /** A request, interrupted by others before its first check and after its refresh. */
    method GetSvcCert(first: Gap, answer: Answer, second: Gap) returns (served: Served)
      requires Valid()
      modifies this
      ensures Valid()
      ensures var checked := old(now) + first.delay;
              var rechecked := checked + answer.delay + second.delay;
              && served == Serve(old(cache), margin, checked, answer.outcome, rechecked)
              && requests == old(requests) + (if NeedsRefresh(old(cache), checked) then 1 else 0)
      ensures served.FromCache? && first.stored.None? ==> cache == old(cache)
      ensures served.FromRefresh? ==> cache == NewCache(served.cert, margin)
    {
      var loaded := cache;
      Interfere(first);
      if loaded.cert.None? || loaded.exp < now {
        var outcome := RefreshSvcCert(answer);
        if outcome.Refused? {
          Interfere(second);
          if loaded.cert.Some? && loaded.exp + margin > now {
            return Fallback(loaded.cert.value);
          }
          return Failed(outcome.error);
        }
        return FromRefresh(outcome.cert);
      }
      return FromCache(loaded.cert.value);
    }
  }

  /** A choice of the updater's select, with the result of the refresh it makes. */
  datatype Turn = Tick(ok: bool) | RetryNow(ok: bool) | Cancelled

  /**
   The signals in the retry channel of capacity one, and the seconds paused so far. The updater may be blocked for good
   on a send, since it alone receives from that channel, or have stopped.
   */
  datatype Updater = Updater(signals: nat, paused: nat, blocked: bool, stopped: bool)

  const PAUSE := 600

  function Send(u: Updater): Updater {
    if u.signals == 1 then u.(blocked := true) else u.(signals := u.signals + 1)
  }

  predicate Ready(u: Updater, turn: Turn) {
    !u.blocked && !u.stopped && (turn.RetryNow? ==> u.signals > 0)
  }

  function Take(u: Updater, turn: Turn): Updater
    requires Ready(u, turn)
  {
    match turn
    case Cancelled => u.(stopped := true)
    case Tick(ok) => if ok then u else Send(u)
    case RetryNow(ok) =>
      var received := u.(signals := u.signals - 1);
      if ok then received else Send(received.(paused := u.paused + PAUSE))
  }

  /** Where the turns lead, if the select can choose them in this order. */
  function Run(turns: seq<Turn>): Option<Updater>
    decreases |turns|
  {
    if turns == [] then
      Some(Updater(0, 0, false, false))
    else
      var n := |turns| - 1;
      var before := Run(turns[..n]);
      if before.Some? && Ready(before.value, turns[n]) then Some(Take(before.value, turns[n])) else None
  }

  predicate Feasible(turns: seq<Turn>) {
    Run(turns).Some?
  }

  function After(turns: seq<Turn>): Updater
    requires Feasible(turns)
  {
    Run(turns).value
  }

  predicate Fails(turn: Turn) {
    !turn.Cancelled? && !turn.ok
  }

  /** A refresh failed at turn `i` and its retry has not been taken since. */
  predicate Owed(turns: seq<Turn>, i: nat) {
    i < |turns| && Fails(turns[i]) && forall k :: i < k < |turns| ==> !turns[k].RetryNow?
  }

  ghost predicate RetryOwed(turns: seq<Turn>) {
    exists i: nat :: Owed(turns, i)
  }

  /**
   Over every order of turns: the retry channel never holds more than one signal, and holds one exactly when a failure
   is still owed its retry; the updater is blocked exactly when its last turn was a failed tick while one was.
   */
  lemma {:induction false} RetryChannel(turns: seq<Turn>)
    requires Feasible(turns)
    ensures After(turns).signals <= 1
    ensures After(turns).signals == 1 <==> RetryOwed(turns)
    ensures After(turns).blocked <==> turns != [] && Last(turns) == Tick(false) && RetryOwed(turns[..|turns| - 1])
    decreases |turns|
  {
    if turns == [] {
    } else {
      RetryChannel(turns[..|turns| - 1]);
      OwedAfter(turns);
    }
  }

  function Last(turns: seq<Turn>): Turn
    requires turns != []
  {
    turns[|turns| - 1]
  }

  lemma OwedAfter(turns: seq<Turn>)
    requires turns != []
    ensures RetryOwed(turns) <==> Fails(Last(turns)) || (!Last(turns).RetryNow? && RetryOwed(turns[..|turns| - 1]))
  {
    var n := |turns| - 1;
    var prefix := turns[..n];
    if Fails(turns[n]) {
      assert Owed(turns, n);
    }
    if !turns[n].RetryNow? {
      forall i: nat | Owed(prefix, i) ensures Owed(turns, i) {
        assert turns[i] == prefix[i];
        assert forall k :: i < k < n ==> turns[k] == prefix[k];
      }
    }
    forall i: nat | Owed(turns, i) && i != n ensures Owed(prefix, i) && !turns[n].RetryNow? {
      assert turns[i] == prefix[i];
    }
  }

  /** Two failed ticks with no retry between them block the updater. */
  lemma FailedTicksBlock()
    ensures var turns := [Tick(false), Tick(false)]; Feasible(turns) && After(turns).blocked
  {
    var first := [Tick(false)];
    var turns := [Tick(false), Tick(false)];
    assert first[..0] == [] && turns[..1] == first;
    assert Run([]) == Some(Updater(0, 0, false, false));
    assert Run(first) == Some(Updater(1, 0, false, false));
  }

  /** The send after a failed retry never blocks, and every failure leaves a retry pending, blocked or not. */
  lemma FailureLeavesRetry(turns: seq<Turn>, turn: Turn)
    requires Feasible(turns) && Ready(After(turns), turn) && Fails(turn)
    ensures Take(After(turns), turn).signals == 1
    ensures Take(After(turns), turn).blocked <==> turn.Tick? && RetryOwed(turns)
  {
    RetryChannel(turns);
  }

  /** The updater has stopped exactly when the end of the context was among its turns, which then was the last one. */
  lemma {:induction false} StopsExactly(turns: seq<Turn>)
    requires Feasible(turns)
    ensures After(turns).stopped <==> Cancelled in turns
    ensures forall i :: 0 <= i < |turns| - 1 ==> turns[i] != Cancelled
    decreases |turns|
  {
    if turns == [] {
    } else {
      var n := |turns| - 1;
      StopsExactly(turns[..n]);
      assert turns == turns[..n] + [turns[n]];
      assert forall i :: 0 <= i < n ==> turns[i] in turns[..n];
    }
  }

  /** It pauses ten minutes after each failed retry, and at no other time. */
  lemma {:induction false} PausesExactly(turns: seq<Turn>)
    requires Feasible(turns)
    ensures After(turns).paused == 600 * multiset(turns)[RetryNow(false)]
    decreases |turns|
  {
    if turns == [] {
    } else {
      var n := |turns| - 1;
      PausesExactly(turns[..n]);
      assert turns == turns[..n] + [turns[n]];
      assert multiset(turns) == multiset(turns[..n]) + multiset{turns[n]};
    }
  }

  /** What the select can choose after these turns: nothing once stopped or blocked, a retry only if one is owed. */
  ghost predicate CanFollow(turns: seq<Turn>, turn: Turn) {
    && Cancelled !in turns
    && !(turns != [] && Last(turns) == Tick(false) && RetryOwed(turns[..|turns| - 1]))
    && (turn.RetryNow? ==> RetryOwed(turns))
  }

  /** Which orders of turns can occur, without the updater's variables. */
  lemma {:induction false} FeasibleExactly(turns: seq<Turn>)
    ensures Feasible(turns) <==> forall i :: 0 <= i < |turns| ==> CanFollow(turns[..i], turns[i])
    decreases |turns|
  {
    if turns == [] {
    } else {
      var n := |turns| - 1;
      FeasibleExactly(turns[..n]);
      forall i | 0 <= i < n ensures turns[..n][..i] == turns[..i] && turns[..n][i] == turns[i] {
      }
      if Feasible(turns[..n]) {
        FollowsExactly(turns[..n], turns[n]);
      }
    }
  }

  lemma FollowsExactly(turns: seq<Turn>, turn: Turn)
    requires Feasible(turns)
    ensures Ready(After(turns), turn) <==> CanFollow(turns, turn)
  {
    RetryChannel(turns);
    StopsExactly(turns);
  }

  /** The updater's loop over the turns its select chooses, with its channel, its pauses and its end. */
  method StartSvcCertUpdater(turns: seq<Turn>) returns (signals: nat, paused: nat, blocked: bool, stopped: bool)
    requires Feasible(turns)
    ensures Updater(signals, paused, blocked, stopped) == After(turns)
  {
    signals, paused, blocked, stopped := 0, 0, false, false;
    for i := 0 to |turns|
      invariant Run(turns[..i]) == Some(Updater(signals, paused, blocked, stopped))
    {
      PrefixFeasible(turns, i + 1);
      assert turns[..i + 1][..i] == turns[..i];
      match turns[i] {
        case Cancelled =>
          stopped := true;
        case RetryNow(ok) =>
          signals := signals - 1;
          if !ok {
            paused := paused + PAUSE;
            if signals == 1 {
              blocked := true;
            } else {
              signals := signals + 1;
            }
          }
        case Tick(ok) =>
          if !ok {
            if signals == 1 {
              blocked := true;
            } else {
              signals := signals + 1;
            }
          }
      }
    }
    assert turns[..|turns|] == turns;
  }

  lemma {:induction false} PrefixFeasible(turns: seq<Turn>, n: nat)
    requires Feasible(turns) && n <= |turns|
    ensures Feasible(turns[..n])
    decreases |turns|
  {
    if n < |turns| {
      var prefix := turns[..|turns| - 1];
      PrefixFeasible(prefix, n);
      assert prefix[..n] == turns[..n];
    } else {
      assert turns[..n] == turns;
    }
  }
}
