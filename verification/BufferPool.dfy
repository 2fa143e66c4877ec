/** The adaptive buffer pool: one `Put` at a time as an object, and any interleaving of their atomic steps. */
module BufferPool {
  import opened Text

  /** A byte slice by its length and capacity. */
  datatype Buffer = Buffer(length: nat, capacity: nat)

  predicate WellFormed(buffer: Buffer) {
    buffer.length <= buffer.capacity
  }

  function Max(x: nat, y: nat): nat {
    if x > y then x else y
  }

  /** No pool for size 0. */
  method NewBuffer(size: nat) returns (pool: Pool?)
    ensures pool == null <==> size == 0
    ensures pool != null ==> fresh(pool) && pool.size == size && pool.pool == multiset{}
  {
    if size == 0 {
      return null;
    }
    pool := new Pool(size);
  }

  class Pool {
    var pool: multiset<Buffer>
    var size: nat

    constructor (size: nat)
      requires size > 0
      ensures this.size == size && pool == multiset{}
    {
      this.size, pool := size, multiset{};
    }

    /**
     `given` is the pooled buffer the underlying pool hands out, if any; else a buffer of the current size is made.
     */
    method Get(given: Option<Buffer>) returns (buffer: Buffer)
      requires given.Some? ==> given.value in pool
      modifies this`pool
      ensures given.Some? ==> buffer == given.value && pool == old(pool) - multiset{buffer}
      ensures given.None? ==> buffer == Buffer(0, size) && pool == old(pool)
    {
      if given.None? {
        return Buffer(0, size);
      }
      buffer := given.value;
      pool := pool - multiset{buffer};
    }

    method Put(buffer: Buffer)
      requires WellFormed(buffer)
      modifies this
      ensures size == if buffer.capacity > old(size) then buffer.capacity else old(size)
      ensures pool == old(pool) + multiset{Buffer(0, buffer.capacity)}
    {
      var loaded := size;
      var kept := buffer;
      if buffer.length >= loaded || buffer.capacity >= loaded {
        loaded := Max(buffer.length, buffer.capacity);
        kept := Buffer(0, loaded);
        size := loaded;
      }
      pool := pool + multiset{kept.(length := 0)};
    }
  }

  /** Where a call of `Put` is: before its load of the size, before its store, before it adds to the pool, returned. */
  datatype Phase = Loading | Growing(seen: nat) | Adding(kept: Buffer) | Returned

  datatype Call = Call(buffer: Buffer, phase: Phase)

  datatype State = State(
    configured: nat,
    size: nat,
    pool: multiset<Buffer>,
    calls: map<nat, Call>)

  datatype Action =
    | Begin(c: nat, buffer: Buffer)
    | Load(c: nat)
    | Store(c: nat)
    | Add(c: nat)
    | Take(buffer: Buffer)

  predicate Enabled(s: State, a: Action) {
    match a
    case Begin(c, buffer) => c !in s.calls && WellFormed(buffer)
    case Load(c) => c in s.calls && s.calls[c].phase.Loading?
    case Store(c) => c in s.calls && s.calls[c].phase.Growing?
    case Add(c) => c in s.calls && s.calls[c].phase.Adding?
    case Take(buffer) => buffer in s.pool
  }

  function SetPhase(s: State, c: nat, phase: Phase): State
    requires c in s.calls
  {
    s.(calls := s.calls[c := s.calls[c].(phase := phase)])
  }

  function Step(s: State, a: Action): State
    requires Enabled(s, a)
  {
    match a
    case Begin(c, buffer) => s.(calls := s.calls[c := Call(buffer, Loading)])
    case Load(c) =>
      var buffer := s.calls[c].buffer;
      SetPhase(s, c, if buffer.length >= s.size || buffer.capacity >= s.size then Growing(s.size) else Adding(buffer))
    case Store(c) =>
      var size := Max(s.calls[c].buffer.length, s.calls[c].buffer.capacity);
      SetPhase(s, c, Adding(Buffer(0, size))).(size := size)
    case Add(c) =>
      SetPhase(s, c, Returned).(pool := s.pool + multiset{s.calls[c].phase.kept.(length := 0)})
    case Take(buffer) => s.(pool := s.pool - multiset{buffer})
  }

  ghost predicate IsRun(run: seq<State>, actions: seq<Action>, size: nat) {
    && |run| == |actions| + 1
    && run[0] == State(size, size, multiset{}, map[])
    && forall i :: 0 <= i < |actions| ==> Enabled(run[i], actions[i]) && run[i + 1] == Step(run[i], actions[i])
  }

  /** The call is past the point where it stores its capacity, if it does. */
  predicate PastStore(call: Call) {
    call.phase.Adding? || call.phase.Returned?
  }

  /**
   The size is the configured one or the capacity of some buffer given to `Put`, and never below the configured one.
   */
  ghost predicate SizeOk(s: State) {
    && s.configured <= s.size
    && (s.size == s.configured ||
        exists c :: c in s.calls && PastStore(s.calls[c]) && s.calls[c].buffer.capacity == s.size)
  }

  ghost predicate CallsOk(s: State) {
    forall c :: c in s.calls ==>
      var call := s.calls[c];
      && WellFormed(call.buffer)
      && (call.phase.Growing? ==> s.configured <= call.phase.seen <= call.buffer.capacity)
      && (call.phase.Adding? ==> call.phase.kept.capacity == call.buffer.capacity)
  }

  ghost predicate Inv(s: State) {
    SizeOk(s) && CallsOk(s)
  }

  lemma SizeKept(s: State, a: Action)
    requires Inv(s) && Enabled(s, a)
    ensures SizeOk(Step(s, a))
  {
    var s' := Step(s, a);
    assert forall c :: c in s.calls && PastStore(s.calls[c]) ==>
                         c in s'.calls && PastStore(s'.calls[c]) && s'.calls[c].buffer == s.calls[c].buffer;
    if a.Store? {
      assert PastStore(s'.calls[a.c]) && s'.calls[a.c].buffer.capacity == s'.size;
    }
  }

  lemma CallsKept(s: State, a: Action)
    requires Inv(s) && Enabled(s, a)
    ensures CallsOk(Step(s, a))
  {
  }

  lemma StepKeeps(s: State, a: Action)
    requires Inv(s) && Enabled(s, a)
    ensures Inv(Step(s, a))
  {
    SizeKept(s, a);
    CallsKept(s, a);
  }

  lemma {:induction false} RunKeeps(run: seq<State>, actions: seq<Action>, size: nat, i: nat)
    requires IsRun(run, actions, size) && i < |run|
    ensures Inv(run[i]) && run[i].configured == size
  {
    if i == 0 {
    } else {
      RunKeeps(run, actions, size, i - 1);
      StepKeeps(run[i - 1], actions[i - 1]);
    }
  }

  /** Under any interleaving the size stays between the configured one and the largest capacity ever given to `Put`. */
  lemma SizeBounds(run: seq<State>, actions: seq<Action>, size: nat, i: nat, largest: nat)
    requires IsRun(run, actions, size) && i < |run|
    requires size <= largest && forall c :: c in run[i].calls ==> run[i].calls[c].buffer.capacity <= largest
    ensures size <= run[i].size <= largest
  {
    RunKeeps(run, actions, size, i);
  }

  /** The buffers handed out of the pool by the first `i` actions. */
  ghost function HandedOut(actions: seq<Action>, i: nat): multiset<Buffer>
    requires i <= |actions|
  {
    if i == 0 then
      multiset{}
    else
      HandedOut(actions, i - 1) + (if actions[i - 1].Take? then multiset{actions[i - 1].buffer} else multiset{})
  }

  /** The buffers given back by the calls that have returned by then, emptied. */
  ghost function GivenBack(run: seq<State>, actions: seq<Action>, size: nat, i: nat): multiset<Buffer>
    requires IsRun(run, actions, size) && i < |run|
  {
    if i == 0 then
      multiset{}
    else
      GivenBack(run, actions, size, i - 1) + Returns(run[i - 1], actions[i - 1])
  }

  function Returns(s: State, a: Action): multiset<Buffer>
    requires Enabled(s, a)
  {
    if a.Add? then multiset{Buffer(0, s.calls[a.c].buffer.capacity)} else multiset{}
  }

  /** Every buffer in the pool, or handed out of it, is one given to `Put`, emptied, with its capacity; none is lost. */
  lemma {:induction false} PoolConserves(run: seq<State>, actions: seq<Action>, size: nat, i: nat)
    requires IsRun(run, actions, size) && i < |run|
    ensures run[i].pool + HandedOut(actions, i) == GivenBack(run, actions, size, i)
  {
    if i == 0 {
    } else {
      var m := i - 1;
      assert run[i] == Step(run[m], actions[m]);
      PoolConserves(run, actions, size, m);
      RunKeeps(run, actions, size, m);
      PoolMoves(run[m], actions[m]);
      var taken := if actions[m].Take? then multiset{actions[m].buffer} else multiset{};
      Rearrange(run[i].pool, taken, run[m].pool, Returns(run[m], actions[m]), HandedOut(actions, m),
                GivenBack(run, actions, size, m));
    }
  }

  lemma Rearrange(pool': multiset<Buffer>, taken: multiset<Buffer>, pool: multiset<Buffer>, returned: multiset<Buffer>,
                  out: multiset<Buffer>, back: multiset<Buffer>)
    requires pool' + taken == pool + returned && pool + out == back
    ensures pool' + (out + taken) == back + returned
  {
    assert pool' + (out + taken) == (pool' + taken) + out;
    assert (pool + returned) + out == (pool + out) + returned;
  }

  lemma PoolMoves(s: State, a: Action)
    requires Inv(s) && Enabled(s, a)
    ensures Step(s, a).pool + (if a.Take? then multiset{a.buffer} else multiset{}) == s.pool + Returns(s, a)
  {
  }

  ghost predicate HasBegun(actions: seq<Action>, i: nat, c: nat, buffer: Buffer) {
    exists k :: 0 <= k < i <= |actions| && actions[k] == Begin(c, buffer)
  }

  /** The buffer of a call is the one it began with. */
  lemma {:induction false} CallsKeepBuffers(run: seq<State>, actions: seq<Action>, size: nat, i: nat, c: nat)
    requires IsRun(run, actions, size) && i < |run| && c in run[i].calls
    ensures HasBegun(actions, i, c, run[i].calls[c].buffer)
    decreases i
  {
    assert i > 0;
    var m := i - 1;
    assert run[i] == Step(run[m], actions[m]);
    if c in run[m].calls {
      CallsKeepBuffers(run, actions, size, m, c);
    }
  }

  /** A call that has not returned can take its next step: `Put` never waits. */
  lemma PutNeverWaits(s: State, c: nat)
    requires c in s.calls && !s.calls[c].phase.Returned?
    ensures Enabled(s, Load(c)) || Enabled(s, Store(c)) || Enabled(s, Add(c))
  {
  }

  /** The capacity that a store is about to make the size. */
  function Stored(s: State, a: Action): nat
    requires Enabled(s, a) && a.Store?
  {
    s.calls[a.c].buffer.capacity
  }

  lemma StepSize(s: State, a: Action)
    requires Inv(s) && Enabled(s, a)
    ensures Step(s, a).size == if a.Store? then Stored(s, a) else s.size
  {
    if a.Store? {
      assert WellFormed(s.calls[a.c].buffer);
    }
  }

  /** None of the actions from `m` up to `i` is a store. */
  predicate NoStore(actions: seq<Action>, m: nat, i: nat) {
    forall k :: m <= k < i <= |actions| ==> !actions[k].Store?
  }

  lemma {:induction false} SizeStays(run: seq<State>, actions: seq<Action>, size: nat, m: nat, i: nat)
    requires IsRun(run, actions, size) && m <= i < |run| && NoStore(actions, m, i)
    ensures run[i].size == run[m].size
  {
    if m == i {
    } else {
      var k := i - 1;
      assert run[i] == Step(run[k], actions[k]);
      SizeStays(run, actions, size, m, k);
      RunKeeps(run, actions, size, k);
      StepSize(run[k], actions[k]);
    }
  }

  predicate IsGrowing(s: State, c: nat, seen: nat) {
    c in s.calls && s.calls[c].phase == Growing(seen)
  }

  /** The load of a call that is about to store, which has not moved since. */
  lemma {:induction false} LoadOf(run: seq<State>, actions: seq<Action>, size: nat, i: nat, c: nat, seen: nat)
      returns (l: nat)
    requires IsRun(run, actions, size) && i < |run| && IsGrowing(run[i], c, seen)
    ensures l < i && actions[l] == Load(c) && run[l].size == seen
    ensures forall k :: l < k <= i ==> IsGrowing(run[k], c, seen)
  {
    assert i > 0;
    l := i - 1;
    assert run[i] == Step(run[l], actions[l]);
    GrowsByLoad(run[l], actions[l], c, seen);
    if actions[l] != Load(c) {
      l := LoadOf(run, actions, size, l, c, seen);
    }
  }

  lemma GrowsByLoad(s: State, a: Action, c: nat, seen: nat)
    requires Enabled(s, a) && IsGrowing(Step(s, a), c, seen)
    ensures if a == Load(c) then s.size == seen else IsGrowing(s, c, seen)
  {
  }

  lemma {:induction false} LastStoreSince(run: seq<State>, actions: seq<Action>, size: nat, l: nat, i: nat)
      returns (m: nat)
    requires IsRun(run, actions, size) && l <= i < |run| && run[l].size != run[i].size
    ensures l <= m < i && actions[m].Store? && NoStore(actions, m + 1, i)
  {
    assert l < i;
    m := i - 1;
    assert run[i] == Step(run[m], actions[m]);
    RunKeeps(run, actions, size, m);
    StepSize(run[m], actions[m]);
    if !actions[m].Store? {
      m := LastStoreSince(run, actions, size, l, m);
    }
  }

  /**
   The call storing at `i` has loaded at `l`; the last store before, at `m`, came after that, from another call, and is
   larger.
   */
  ghost predicate Overtaken(run: seq<State>, actions: seq<Action>, size: nat, i: nat, l: nat, m: nat)
    requires IsRun(run, actions, size) && i < |actions| && actions[i].Store?
  {
    && l < m < i && actions[l] == Load(actions[i].c)
    && actions[m].Store? && actions[m].c != actions[i].c && NoStore(actions, m + 1, i)
    && Stored(run[m], actions[m]) > Stored(run[i], actions[i])
  }

  /**
   A step lowers the size exactly when it is a store that another call has overtaken: since its load the other one has
   stored a larger capacity.
   */
  lemma ShrinksExactlyAfterRace(run: seq<State>, actions: seq<Action>, size: nat, i: nat)
    requires IsRun(run, actions, size) && i < |actions|
    ensures run[i + 1].size < run[i].size <==>
            actions[i].Store? && exists l: nat, m: nat :: Overtaken(run, actions, size, i, l, m)
  {
    RunKeeps(run, actions, size, i);
    StepSize(run[i], actions[i]);
    if run[i + 1].size < run[i].size {
      var c := actions[i].c;
      var l := LoadOf(run, actions, size, i, c, run[i].calls[c].phase.seen);
      var m := LastStoreSince(run, actions, size, l, i);
      StoreIsSize(run, actions, size, m, i);
      assert IsGrowing(run[m + 1], c, run[i].calls[c].phase.seen);
      assert Overtaken(run, actions, size, i, l, m);
    } else if actions[i].Store? {
      forall l: nat, m: nat ensures !Overtaken(run, actions, size, i, l, m) {
        if Overtaken(run, actions, size, i, l, m) {
          StoreIsSize(run, actions, size, m, i);
        }
      }
    }
  }

  lemma StoreIsSize(run: seq<State>, actions: seq<Action>, size: nat, m: nat, i: nat)
    requires IsRun(run, actions, size) && m < i < |run| && actions[m].Store? && NoStore(actions, m + 1, i)
    ensures run[i].size == Stored(run[m], actions[m])
  {
    SizeStays(run, actions, size, m + 1, i);
    RunKeeps(run, actions, size, m);
    StepSize(run[m], actions[m]);
  }

  /** The capacities stored by the first `i` actions, in order. */
  ghost function Stores(run: seq<State>, actions: seq<Action>, size: nat, i: nat): seq<nat>
    requires IsRun(run, actions, size) && i < |run|
  {
    if i == 0 then
      []
    else
      Stores(run, actions, size, i - 1) + (if actions[i - 1].Store? then [Stored(run[i - 1], actions[i - 1])] else [])
  }

  predicate LastIsLargest(xs: seq<nat>) {
    forall k :: 0 <= k < |xs| ==> xs[k] <= xs[|xs| - 1]
  }

  ghost predicate ReachedBy(x: nat, configured: nat, stores: seq<nat>) {
    x <= configured || exists k :: 0 <= k < |stores| && x <= stores[k]
  }

  /**
   Each stored capacity is that of a call past its store, and each such call's capacity has been stored or was too
   small.
   */
  ghost predicate StoresOk(s: State, configured: nat, stores: seq<nat>) {
    && (forall k :: 0 <= k < |stores| ==> HasCapacity(s, stores[k]))
    && (forall c :: c in s.calls && PastStore(s.calls[c]) ==> ReachedBy(s.calls[c].buffer.capacity, configured, stores))
    && s.size == if stores == [] then configured else stores[|stores| - 1]
  }

  ghost predicate HasCapacity(s: State, capacity: nat) {
    exists c :: c in s.calls && PastStore(s.calls[c]) && s.calls[c].buffer.capacity == capacity
  }

  lemma CapacityKept(s: State, a: Action, capacity: nat)
    requires Enabled(s, a)
    ensures HasCapacity(s, capacity) || (a.Store? && capacity == Stored(s, a)) ==> HasCapacity(Step(s, a), capacity)
  {
    if HasCapacity(s, capacity) {
      var c :| c in s.calls && PastStore(s.calls[c]) && s.calls[c].buffer.capacity == capacity;
      assert PastStore(Step(s, a).calls[c]);
    } else if a.Store? && capacity == Stored(s, a) {
      assert PastStore(Step(s, a).calls[a.c]);
    }
  }

  lemma ReachedKept(s: State, a: Action, configured: nat, stores: seq<nat>, more: seq<nat>)
    requires Inv(s) && Enabled(s, a) && StoresOk(s, configured, stores)
    requires more == stores + (if a.Store? then [Stored(s, a)] else [])
    ensures forall c :: c in Step(s, a).calls && PastStore(Step(s, a).calls[c]) ==>
              ReachedBy(Step(s, a).calls[c].buffer.capacity, configured, more)
  {
    var s' := Step(s, a);
    forall c | c in s'.calls && PastStore(s'.calls[c])
      ensures ReachedBy(s'.calls[c].buffer.capacity, configured, more)
    {
      var x := s'.calls[c].buffer.capacity;
      if c in s.calls && PastStore(s.calls[c]) {
        assert ReachedBy(x, configured, stores);
        if k :| 0 <= k < |stores| && x <= stores[k] {
          assert more[k] == stores[k];
        }
      } else if a.Store? {
        assert more[|stores|] == x;
      } else {
        assert x <= s.size;
        assert more == stores;
      }
    }
  }

  lemma StoresKept(s: State, a: Action, configured: nat, stores: seq<nat>, more: seq<nat>)
    requires Inv(s) && Enabled(s, a) && StoresOk(s, configured, stores)
    requires more == stores + (if a.Store? then [Stored(s, a)] else [])
    ensures StoresOk(Step(s, a), configured, more)
  {
    StepSize(s, a);
    ReachedKept(s, a, configured, stores, more);
    forall k | 0 <= k < |more| ensures HasCapacity(Step(s, a), more[k]) {
      CapacityKept(s, a, more[k]);
    }
  }

  lemma {:induction false} RunStores(run: seq<State>, actions: seq<Action>, size: nat, i: nat)
    requires IsRun(run, actions, size) && i < |run|
    ensures StoresOk(run[i], size, Stores(run, actions, size, i))
  {
    if i == 0 {
      assert Stores(run, actions, size, i) == [];
    } else {
      var m := i - 1;
      RunStores(run, actions, size, m);
      RunKeeps(run, actions, size, m);
      StoresKept(run[m], actions[m], size, Stores(run, actions, size, m), Stores(run, actions, size, i));
    }
  }

  /**
   Under any interleaving the size is the maximum of the configured one and the capacities of all calls past their store
   exactly when the capacity stored last is the largest one stored.
   */
  lemma MaximumExactly(run: seq<State>, actions: seq<Action>, size: nat, i: nat)
    requires IsRun(run, actions, size) && i < |run|
    ensures IsMaximum(run[i], size) <==> LastIsLargest(Stores(run, actions, size, i))
  {
    RunKeeps(run, actions, size, i);
    RunStores(run, actions, size, i);
    MaximumOfStores(run[i], size, Stores(run, actions, size, i));
  }

  lemma MaximumOfStores(s: State, configured: nat, stores: seq<nat>)
    requires Inv(s) && s.configured == configured && StoresOk(s, configured, stores)
    ensures IsMaximum(s, configured) <==> LastIsLargest(stores)
  {
    if IsMaximum(s, configured) {
      forall k | 0 <= k < |stores| ensures stores[k] <= s.size {
        assert HasCapacity(s, stores[k]);
      }
    }
    if LastIsLargest(stores) {
      forall c | c in s.calls && PastStore(s.calls[c]) ensures s.calls[c].buffer.capacity <= s.size {
        assert ReachedBy(s.calls[c].buffer.capacity, configured, stores);
      }
    }
  }

  /** No call loads the size while another is between its load and its store. */
  ghost predicate Serial(run: seq<State>, actions: seq<Action>)
    requires |run| == |actions| + 1
  {
    forall i :: 0 <= i < |actions| && actions[i].Load? ==> Idle(run[i])
  }

  ghost predicate Idle(s: State) {
    forall c :: c in s.calls ==> !s.calls[c].phase.Growing?
  }

  /** No call past its store has a capacity above the size, and no load that is about to be used is out of date. */
  ghost predicate Largest(s: State) {
    && (forall c :: c in s.calls && PastStore(s.calls[c]) ==> s.calls[c].buffer.capacity <= s.size)
    && (forall c :: c in s.calls && s.calls[c].phase.Growing? ==> s.calls[c].phase.seen == s.size)
    && (forall c, d :: c in s.calls && d in s.calls && s.calls[c].phase.Growing? && s.calls[d].phase.Growing? ==>
        c == d)
  }

  /** The size is the maximum of the configured one and the capacities of the calls past their store. */
  ghost predicate IsMaximum(s: State, configured: nat) {
    && configured <= s.size
    && (forall c :: c in s.calls && PastStore(s.calls[c]) ==> s.calls[c].buffer.capacity <= s.size)
    && (s.size == configured ||
        exists c :: c in s.calls && PastStore(s.calls[c]) && s.calls[c].buffer.capacity == s.size)
  }

  lemma LargestKept(s: State, a: Action)
    requires Inv(s) && Largest(s) && Enabled(s, a)
    requires a.Load? ==> Idle(s)
    ensures Largest(Step(s, a))
  {
  }

  /**
   When no call loads between another's load and store, the size is the maximum of the configured one and all
   capacities.
   */
  lemma SerialSize(run: seq<State>, actions: seq<Action>, size: nat, i: nat)
    requires IsRun(run, actions, size) && Serial(run, actions) && i < |run|
    ensures IsMaximum(run[i], size)
  {
    RunKeeps(run, actions, size, i);
    SerialLargest(run, actions, size, i);
  }

  lemma {:induction false} SerialLargest(run: seq<State>, actions: seq<Action>, size: nat, i: nat)
    requires IsRun(run, actions, size) && Serial(run, actions) && i < |run|
    ensures Largest(run[i])
  {
    if i == 0 {
    } else {
      SerialLargest(run, actions, size, i - 1);
      RunKeeps(run, actions, size, i - 1);
      LargestKept(run[i - 1], actions[i - 1]);
    }
  }

  /** Such a race: two overlapping calls leave the size below a capacity already stored. */
  lemma RaceShrinks() returns (run: seq<State>, actions: seq<Action>)
    ensures IsRun(run, actions, 10)
    ensures |actions| > 0 && run[|actions| - 1].size == 100 && run[|actions|].size == 20
  {
    actions := [Begin(0, Buffer(0, 20)), Load(0), Begin(1, Buffer(0, 100)), Load(1), Store(1), Store(0)];
    var s0 := State(10, 10, multiset{}, map[]);
    var s1, s2 := BeginAndLoad(s0, 0, Buffer(0, 20));
    var s3, s4 := BeginAndLoad(s2, 1, Buffer(0, 100));
    var s5 := Step(s4, actions[4]);
    var s6 := Step(s5, actions[5]);
    run := [s0, s1, s2, s3, s4, s5, s6];
  }

  lemma BeginAndLoad(s: State, c: nat, buffer: Buffer) returns (begun: State, loaded: State)
    requires c !in s.calls && WellFormed(buffer) && buffer.capacity >= s.size
    ensures Enabled(s, Begin(c, buffer)) && begun == Step(s, Begin(c, buffer))
    ensures Enabled(begun, Load(c)) && loaded == Step(begun, Load(c))
    ensures loaded == s.(calls := s.calls[c := Call(buffer, Growing(s.size))])
  {
    begun := Step(s, Begin(c, buffer));
    loaded := Step(begun, Load(c));
  }
}
