/** The promise chain that admits one writing round at a time, and the session's operation
    queue, which is the same chain with a shorter promise. */
module WriteLock {
  import opened Sequences

  /** A promise: already resolved, the release of one call, or that release awaited after an
      earlier promise. */
  datatype Promise = Resolved | Gate(gate: nat) | Then(previous: Promise, gate: nat)

  predicate Settled(p: Promise, released: set<nat>) {
    match p
    case Resolved => true
    case Gate(g) => g in released
    case Then(previous, g) => Settled(previous, released) && g in released
  }

  /** The coordinator chains every gate onto the last promise; the session keeps only the
      latest gate. */
  datatype Discipline = Chained | Latest

  datatype Phase = Waiting | Running | Gone
  datatype Call = Call(previous: Promise, phase: Phase)
  datatype Lock = Lock(discipline: Discipline, tail: Promise, calls: seq<Call>, released: set<nat>)

  /** What may happen between two suspension points. A call leaves whether its work
      returned or threw. */
  datatype Event<S> =
    | Enter
    | Begin(call: nat)
    | Look(call: nat, state: S)
    | Store(call: nat, state: S)
    | Leave(call: nat)

  function Free(discipline: Discipline): Lock {
    Lock(discipline, Resolved, [], {})
  }

  predicate Allowed<S>(lock: Lock, e: Event<S>) {
    match e
    case Enter => true
    case Begin(k) => k < |lock.calls| && lock.calls[k].phase == Waiting
        && Settled(lock.calls[k].previous, lock.released)
    case Look(k, _) => k < |lock.calls| && lock.calls[k].phase == Running
    case Store(k, _) => k < |lock.calls| && lock.calls[k].phase == Running
    case Leave(k) => k < |lock.calls| && lock.calls[k].phase == Running
  }

  function Next<S>(lock: Lock, e: Event<S>): Lock
    requires Allowed(lock, e)
  {
    match e
    case Enter =>
      var gate := |lock.calls|;
      lock.(tail := if lock.discipline == Chained then Then(lock.tail, gate) else Gate(gate),
            calls := lock.calls + [Call(lock.tail, Waiting)])
    case Begin(k) => lock.(calls := lock.calls[k := lock.calls[k].(phase := Running)])
    case Look(_, _) => lock
    case Store(_, _) => lock
    case Leave(k) => lock.(calls := lock.calls[k := lock.calls[k].(phase := Gone)], released := lock.released + {k})
  }

  /** The lock as the object keeps it. */
  class Exclusive {
    const discipline: Discipline
    var tail: Promise
    var calls: seq<Call>
    var released: set<nat>

    constructor (discipline: Discipline)
      ensures State() == Free(discipline)
    {
      this.discipline, tail, calls, released := discipline, Resolved, [], {};
    }

    function State(): Lock
      reads this
    {
      Lock(discipline, tail, calls, released)
    }

    /** Up to the first suspension: the caller takes the current tail to wait for and leaves
        its own gate behind for the next. */
    method Arrive() returns (call: nat)
      modifies this
      ensures call == |old(calls)| && State() == Next(old(State()), Event<()>.Enter)
    {
      var previous := tail;
      call := |calls|;
      tail := if discipline == Chained then Then(previous, call) else Gate(call);
      calls := calls + [Call(previous, Waiting)];
    }

    /** The scheduler resumes a caller once its promise has settled. */
    method Resume(call: nat) returns (running: bool)
      requires call < |calls| && calls[call].phase == Waiting
      modifies this
      ensures running <==> Allowed(old(State()), Event<()>.Begin(call))
      ensures State() == if running then Next(old(State()), Event<()>.Begin(call)) else old(State())
    {
      running := Settled(calls[call].previous, released);
      if running { calls := calls[call := calls[call].(phase := Running)]; }
    }

    /** The final clause of a call, run on success and on failure. */
    method Release(call: nat)
      requires call < |calls| && calls[call].phase == Running
      modifies this
      ensures State() == Next(old(State()), Event<()>.Leave(call))
    {
      calls := calls[call := calls[call].(phase := Gone)];
      released := released + {call};
    }
  }

  // ---------------------------------------------------------------- runs

  predicate Possible<S>(discipline: Discipline, run: seq<Event<S>>)
    decreases |run|, 0
  {
    run == [] || (Possible(discipline, run[..|run| - 1])
      && Allowed(After(discipline, run[..|run| - 1]), run[|run| - 1]))
  }

  function After<S>(discipline: Discipline, run: seq<Event<S>>): Lock
    requires Possible(discipline, run)
    decreases |run|, 1
  {
    if run == [] then Free(discipline) else Next(After(discipline, run[..|run| - 1]), run[|run| - 1])
  }

  /** The promise the k-th caller waits for. */
  function Chain(discipline: Discipline, k: nat): Promise {
    if k == 0 then Resolved
    else if discipline == Chained then Then(Chain(discipline, k - 1), k - 1)
    else Gate(k - 1)
  }

  ghost predicate FirstCalls(released: set<nat>, n: nat) {
    forall k: nat :: k in released <==> k < n
  }

  lemma {:induction false} ChainSettled(discipline: Discipline, k: nat, released: set<nat>, turn: nat)
    requires FirstCalls(released, turn)
    ensures Settled(Chain(discipline, k), released) <==> k <= turn
  {
    if k > 0 && discipline == Chained { ChainSettled(discipline, k - 1, released, turn); }
  }

  /** Calls below the turn are gone, those above it still wait. */
  ghost predicate Fair(lock: Lock, turn: nat) {
    && turn <= |lock.calls| && FirstCalls(lock.released, turn)
    && lock.tail == Chain(lock.discipline, |lock.calls|)
    && (forall k :: 0 <= k < |lock.calls| ==> lock.calls[k].previous == Chain(lock.discipline, k))
    && (forall k :: 0 <= k < |lock.calls| ==> (lock.calls[k].phase == Gone <==> k < turn))
    && (forall k :: turn < k < |lock.calls| ==> lock.calls[k].phase == Waiting)
  }

  lemma ActsInTurn<S>(lock: Lock, turn: nat, e: Event<S>)
    requires Fair(lock, turn) && Allowed(lock, e) && !e.Enter?
    ensures e.call == turn < |lock.calls|
  {
    if e.Begin? { ChainSettled(lock.discipline, e.call, lock.released, turn); }
  }

  function TurnAfter<S>(turn: nat, e: Event<S>): nat {
    if e.Leave? then turn + 1 else turn
  }

  lemma StepKeepsFair<S>(lock: Lock, turn: nat, e: Event<S>, after: Lock)
    requires Fair(lock, turn) && Allowed(lock, e) && after == Next(lock, e)
    ensures Fair(after, TurnAfter(turn, e))
  {
    if e.Enter? {
      assert after.tail == Chain(lock.discipline, |after.calls|);
    } else {
      ActsInTurn(lock, turn, e);
    }
  }

  // ---------------------------------------------------------------- the serial order

  /** What calls did, arrivals left out. */
  function Work<S>(run: seq<Event<S>>): seq<Event<S>> {
    if run == [] then []
    else Work(run[..|run| - 1]) + if run[|run| - 1].Enter? then [] else [run[|run| - 1]]
  }

  /** What one call did. */
  function Of<S>(run: seq<Event<S>>, k: nat): seq<Event<S>> {
    if run == [] then []
    else
      var e := run[|run| - 1];
      Of(run[..|run| - 1], k) + if !e.Enter? && e.call == k then [e] else []
  }

  /** The calls one after another, in order of arrival, each doing what it did in the run. */
  function OneByOne<S>(run: seq<Event<S>>, n: nat): seq<Event<S>> {
    if n == 0 then [] else OneByOne(run, n - 1) + Of(run, n - 1)
  }

  /** The store after a run of writes. */
  function Stored<S>(start: S, run: seq<Event<S>>): S {
    if run == [] then start
    else if run[|run| - 1].Store? then run[|run| - 1].state
    else Stored(start, run[..|run| - 1])
  }

  /** Every look of the run sees the store as it then is. */
  ghost predicate Sees<S>(start: S, run: seq<Event<S>>) {
    run == [] ||
    (Sees(start, run[..|run| - 1]) && (run[|run| - 1].Look? ==>
      run[|run| - 1].state == Stored(start, run[..|run| - 1])))
  }

  lemma {:induction false} ArrivalAddsNothing<S>(run: seq<Event<S>>, n: nat)
    ensures OneByOne(run + [Enter], n) == OneByOne(run, n)
  {
    if n > 0 {
      ArrivalAddsNothing(run, n - 1);
      assert (run + [Enter])[..|run|] == run;
    }
  }

  lemma WorkOfLast<S>(run: seq<Event<S>>, e: Event<S>, k: nat)
    requires !e.Enter?
    ensures Of(run + [e], k) == Of(run, k) + if e.call == k then [e] else []
    ensures Work(run + [e]) == Work(run) + [e]
  {
    assert (run + [e])[..|run|] == run;
  }

  lemma {:induction false} WorkAddsNothingBelow<S>(run: seq<Event<S>>, e: Event<S>, n: nat)
    requires !e.Enter? && n <= e.call
    ensures OneByOne(run + [e], n) == OneByOne(run, n)
  {
    if n > 0 {
      WorkAddsNothingBelow(run, e, n - 1);
      WorkOfLast(run, e, n - 1);
    }
  }

  lemma {:induction false} WorkAddsLast<S>(run: seq<Event<S>>, e: Event<S>, n: nat, before: seq<Event<S>>,
                                           after: seq<Event<S>>)
    requires !e.Enter? && e.call < n && forall k :: k > e.call ==> Of(run, k) == []
    requires before == OneByOne(run, n) && after == OneByOne(run + [e], n)
    ensures after == before + [e]
  {
    var lower, higher := OneByOne(run, n - 1), OneByOne(run + [e], n - 1);
    WorkOfLast(run, e, n - 1);
    if e.call < n - 1 {
      WorkAddsLast(run, e, n - 1, lower, higher);
      assert Of(run, n - 1) == [];
    } else {
      WorkAddsNothingBelow(run, e, n - 1);
      Associates(lower, Of(run, n - 1), [e]);
    }
  }

  /** Only calls up to the turn have acted, and they acted one by one. */
  ghost predicate Serial<S>(run: seq<Event<S>>, turn: nat, n: nat) {
    && (forall k :: k > turn || k >= n ==> Of(run, k) == [])
    && Work(run) == OneByOne(run, n)
  }

  lemma ArrivalKeepsSerial<S>(run: seq<Event<S>>, turn: nat, n: nat)
    requires Serial(run, turn, n)
    ensures Serial(run + [Enter], turn, n + 1)
  {
    var longer := run + [Enter];
    assert longer[..|run|] == run;
    forall k: nat ensures Of(longer, k) == Of(run, k) {}
    ArrivalAddsNothing(run, n);
    assert OneByOne(longer, n + 1) == OneByOne(longer, n) + Of(longer, n);
  }

  lemma WorkKeepsSerial<S>(run: seq<Event<S>>, e: Event<S>, n: nat)
    requires !e.Enter? && e.call < n && Serial(run, e.call, n)
    ensures Serial(run + [e], TurnAfter(e.call, e), n)
  {
    WorkOfLast(run, e, 0);
    WorkAddsLast(run, e, n, OneByOne(run, n), OneByOne(run + [e], n));
    forall k | k > TurnAfter(e.call, e) || k >= n ensures Of(run + [e], k) == [] { WorkOfLast(run, e, k); }
  }

  /** How far a run has come. */
  ghost predicate Reached<S>(discipline: Discipline, run: seq<Event<S>>, turn: nat) {
    && Possible(discipline, run)
    && Fair(After(discipline, run), turn) && After(discipline, run).discipline == discipline
    && Serial(run, turn, |After(discipline, run).calls|)
  }

  lemma OneMoreStep<S>(discipline: Discipline, run: seq<Event<S>>, lock: Lock, e: Event<S>, longer: seq<Event<S>>)
    requires Possible(discipline, run) && lock == After(discipline, run) && Allowed(lock, e) && longer == run + [e]
    ensures Possible(discipline, longer) && After(discipline, longer) == Next(lock, e)
  {
    assert longer[..|run|] == run;
  }

  lemma ReachedNext<S>(discipline: Discipline, run: seq<Event<S>>, turn: nat, e: Event<S>)
    requires Reached(discipline, run, turn) && Allowed(After(discipline, run), e)
    ensures Reached(discipline, run + [e], TurnAfter(turn, e))
  {
    var longer, lock := run + [e], After(discipline, run);
    OneMoreStep(discipline, run, lock, e, longer);
    assert Fair(After(discipline, longer), TurnAfter(turn, e)) by {
      StepKeepsFair(lock, turn, e, After(discipline, longer));
    }
    assert Serial(longer, TurnAfter(turn, e), |After(discipline, longer).calls|) by {
      SerialNext(run, turn, lock, e, longer);
    }
  }

  lemma SerialNext<S>(run: seq<Event<S>>, turn: nat, lock: Lock, e: Event<S>, longer: seq<Event<S>>)
    requires Fair(lock, turn) && Allowed(lock, e) && Serial(run, turn, |lock.calls|) && longer == run + [e]
    ensures Serial(longer, TurnAfter(turn, e), |Next(lock, e).calls|)
  {
    if e.Enter? {
      ArrivalKeepsSerial(run, turn, |lock.calls|);
    } else {
      ActsInTurn(lock, turn, e);
      WorkKeepsSerial(run, e, |lock.calls|);
    }
  }

  lemma {:induction false} RunReached<S>(discipline: Discipline, run: seq<Event<S>>) returns (turn: nat)
    requires Possible(discipline, run)
    ensures Reached(discipline, run, turn)
  {
    if run == [] {
      turn := 0;
    } else {
      var init := run[..|run| - 1];
      var before := RunReached(discipline, init);
      turn := TurnAfter(before, run[|run| - 1]);
      ReachedNext(discipline, init, before, run[|run| - 1]);
      assert init + [run[|run| - 1]] == run;
    }
  }

  /** At most one call runs, and it runs only after every earlier arrival is gone. */
  lemma OneAtATime<S>(discipline: Discipline, run: seq<Event<S>>, j: nat, k: nat)
    requires Possible(discipline, run)
    requires j < k < |After(discipline, run).calls| && After(discipline, run).calls[k].phase != Waiting
    ensures After(discipline, run).calls[j].phase == Gone
  {
    var turn := RunReached(discipline, run);
  }

  /** Whatever the interleaving of arrivals, resumptions, reads and writes, the work done is
      the calls run one by one in order of arrival: so is the store they leave, and each of
      them sees in it what it saw. */
  lemma SameAsOneByOne<S>(discipline: Discipline, run: seq<Event<S>>, start: S)
    requires Possible(discipline, run)
    ensures Work(run) == OneByOne(run, |After(discipline, run).calls|)
    ensures Stored(start, run) == Stored(start, OneByOne(run, |After(discipline, run).calls|))
    ensures Sees(start, run) ==> Sees(start, OneByOne(run, |After(discipline, run).calls|))
  {
    var turn := RunReached(discipline, run);
    WorkStores(start, run);
    if Sees(start, run) { WorkSees(start, run); }
  }

  lemma {:induction false} WorkSees<S>(start: S, run: seq<Event<S>>)
    requires Sees(start, run)
    ensures Sees(start, Work(run))
  {
    if run != [] {
      var init, e := run[..|run| - 1], run[|run| - 1];
      WorkSees(start, init);
      if e.Enter? {
        assert Work(run) == Work(init);
      } else {
        WorkStores(start, init);
        assert (Work(init) + [e])[..|Work(init)|] == Work(init);
      }
    }
  }

  // ---------------------------------------------------------------- each call on its own

  /** The store as the k-th call finds it: what the calls before it left. */
  function FoundBy<S>(start: S, run: seq<Event<S>>, k: nat): S { Stored(start, OneByOne(run, k)) }

  lemma {:induction false} StoredSplit<S>(start: S, a: seq<Event<S>>, b: seq<Event<S>>)
    ensures Stored(start, a + b) == Stored(Stored(start, a), b)
  {
    if b == [] {
      assert a + b == a;
    } else {
      assert (a + b)[..|a + b| - 1] == a + b[..|b| - 1];
      StoredSplit(start, a, b[..|b| - 1]);
    }
  }

  lemma {:induction false} SeesSplit<S>(start: S, a: seq<Event<S>>, b: seq<Event<S>>)
    requires Sees(start, a + b)
    ensures Sees(start, a) && Sees(Stored(start, a), b)
  {
    if b == [] {
      assert a + b == a;
    } else {
      assert (a + b)[..|a + b| - 1] == a + b[..|b| - 1];
      SeesSplit(start, a, b[..|b| - 1]);
      StoredSplit(start, a, b[..|b| - 1]);
    }
  }

  lemma {:induction false} SeesPrefix<S>(start: S, run: seq<Event<S>>, k: nat, n: nat)
    requires k <= n && Sees(start, OneByOne(run, n))
    ensures Sees(start, OneByOne(run, k))
  {
    if k < n {
      SeesSplit(start, OneByOne(run, n - 1), Of(run, n - 1));
      SeesPrefix(start, run, k, n - 1);
    }
  }

  /** Each call does what it does when run alone on the store the calls before it left. */
  lemma CallRunsAlone<S>(discipline: Discipline, run: seq<Event<S>>, start: S, k: nat)
    requires Possible(discipline, run) && Sees(start, run) && k < |After(discipline, run).calls|
    ensures Sees(FoundBy(start, run, k), Of(run, k))
    ensures FoundBy(start, run, k + 1) == Stored(FoundBy(start, run, k), Of(run, k))
    ensures Stored(start, run) == FoundBy(start, run, |After(discipline, run).calls|)
  {
    SameAsOneByOne(discipline, run, start);
    SeesPrefix(start, run, k + 1, |After(discipline, run).calls|);
    SeesSplit(start, OneByOne(run, k), Of(run, k));
    StoredSplit(start, OneByOne(run, k), Of(run, k));
  }

  lemma {:induction false} WorkStores<S>(start: S, run: seq<Event<S>>)
    ensures Stored(start, Work(run)) == Stored(start, run)
  {
    if run != [] {
      var init, e := run[..|run| - 1], run[|run| - 1];
      WorkStores(start, init);
      if e.Enter? {
        assert Work(run) == Work(init);
      } else {
        assert (Work(init) + [e])[..|Work(init)|] == Work(init);
      }
    }
  }

  /** Nobody is stranded: while some call is not gone, the earliest such call runs or may
      start at once, and no other call may act. In particular a call that failed has let the
      next one in. */
  lemma NobodyStranded<S>(discipline: Discipline, run: seq<Event<S>>, waiting: nat) returns (turn: nat)
    requires Possible(discipline, run)
    requires waiting < |After(discipline, run).calls| && After(discipline, run).calls[waiting].phase != Gone
    ensures turn <= waiting && After(discipline, run).calls[turn].phase != Gone
    ensures forall k :: 0 <= k < turn ==> After(discipline, run).calls[k].phase == Gone
    ensures After(discipline, run).calls[turn].phase == Running || Allowed(After(discipline, run), Event<S>.Begin(turn))
    ensures forall e: Event<S> :: Allowed(After(discipline, run), e) && !e.Enter? ==> e.call == turn
  {
    turn := RunReached(discipline, run);
    var lock := After(discipline, run);
    ChainSettled(discipline, turn, lock.released, turn);
    forall e: Event<S> | Allowed(lock, e) && !e.Enter? ensures e.call == turn {
      ActsInTurn(lock, turn, e);
    }
  }
}
