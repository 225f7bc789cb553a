/** One account's reminder alarm: arming, delivering by generation, and retrying. */
module ReminderAlarm {
  import opened Wrappers

  const RETRY_AFTER_MS := 600_000
  const MAX_SAFE_INTEGER := 9_007_199_254_740_991

  datatype Path = Arm | Begin | Set
  /** The time in a request: a number, an explicit null, or anything else. */
  datatype At = Number(value: int) | Null | Other
  datatype Body = Body(account: Option<nat>, at: At, generation: Option<int>)
  datatype Response = Generation(value: nat) | Done | Refused

  datatype State = State(account: Option<nat>, generation: nat, alarm: Option<int>)

  const FRESH := State(None, 0, None)

  function TimeOf(at: At): Option<int> {
    if at.Number? && 0 <= at.value <= MAX_SAFE_INTEGER then Some(at.value) else None
  }

  /** A request that sets the alarm or arms it. */
  predicate Effective(s: State, path: Path, body: Body) {
    && body.account.Some?
    && match path
       case Begin => false
       case Arm => TimeOf(body.at).Some?
       case Set => body.generation == Some(s.generation) && (TimeOf(body.at).Some? || body.at.Null?)
  }

  predicate Begins(path: Path, body: Body) { path.Begin? && body.account.Some? }

  function Sooner(alarm: Option<int>, at: int): int {
    if alarm.Some? && alarm.value <= at then alarm.value else at
  }

  function Handled(s: State, path: Path, body: Body): State {
    if Begins(path, body) then s.(generation := s.generation + 1)
    else if !Effective(s, path, body) then s
    else if path.Arm? then State(body.account, s.generation + 1, Some(Sooner(s.alarm, body.at.value)))
    else State(body.account, s.generation, TimeOf(body.at))
  }

  /** The alarm goes off: it is cleared, and a retry is set before the account is handed over. */
  function Fired(s: State, now: int): State {
    s.(alarm := if s.account.Some? then Some(now + RETRY_AFTER_MS) else None)
  }

  class ReminderScheduler {
    var account: Option<nat>
    var generation: nat
    var alarm: Option<int>
    var queued: seq<nat>

    constructor ()
      ensures Now() == FRESH && queued == []
    {
      account, generation, alarm, queued := None, 0, None, [];
    }

    function Now(): State
      reads this
    {
      State(account, generation, alarm)
    }

    method Fetch(path: Path, body: Body) returns (response: Response)
      modifies this`account, this`generation, this`alarm
      ensures Now() == Handled(old(Now()), path, body)
      ensures response == Refused <==>
        body.account.None? || (!path.Begin? && !Effective(old(Now()), path, body)
          && !(path.Set? && body.generation != Some(old(generation))))
      ensures response.Generation? <==> Begins(path, body)
      ensures response.Generation? ==> response.value == generation
    {
      if body.account.None? { return Refused; }
      if path.Begin? {
        generation := generation + 1;
        return Generation(generation);
      }
      if path.Set? && body.generation != Some(generation) { return Done; }
      var time := TimeOf(body.at);
      if time.None? && (path.Arm? || !body.at.Null?) { return Refused; }
      account := body.account;
      if path.Arm? {
        generation := generation + 1;
        ArmNoLaterThan(time.value);
      } else {
        alarm := time;
      }
      return Done;
    }

    method ArmNoLaterThan(at: int)
      modifies this`alarm
      ensures alarm == Some(Sooner(old(alarm), at))
    {
      if alarm.Some? && alarm.value <= at { return; }
      alarm := Some(at);
    }

    /** The platform runs this once the time set has come, having cleared the alarm. */
    method Alarm(now: int)
      requires alarm.None?
      modifies this`alarm, this`queued
      ensures Now() == Fired(old(Now()), now)
      ensures queued == old(queued) + if account.Some? then [account.value] else []
    {
      if account.None? { return; }
      alarm := Some(now + RETRY_AFTER_MS);
      queued := queued + [account.value];
    }
  }

  // ---------------------------------------------------------------- runs

  datatype Event = Request(path: Path, body: Body) | Fire(now: int)

  function Next(s: State, e: Event): State {
    match e
    case Request(path, body) => Handled(s, path, body)
    case Fire(now) => if s.alarm.Some? && s.alarm.value <= now then Fired(s, now) else s
  }

  function After(run: seq<Event>): State {
    if run == [] then FRESH else Next(After(run[..|run| - 1]), run[|run| - 1])
  }

  predicate Arms(run: seq<Event>, i: nat)
    requires i < |run|
  {
    run[i].Request? && run[i].path.Arm? && Effective(After(run[..i]), Arm, run[i].body)
  }

  predicate Sets(run: seq<Event>, i: nat)
    requires i < |run|
  {
    run[i].Request? && run[i].path.Set? && Effective(After(run[..i]), Set, run[i].body)
  }

  predicate Fires(run: seq<Event>, i: nat)
    requires i < |run|
  {
    run[i].Fire? && After(run[..i]).alarm.Some? && After(run[..i]).alarm.value <= run[i].now
  }

  predicate BeginsAt(run: seq<Event>, i: nat)
    requires i < |run|
  {
    run[i].Request? && Begins(run[i].path, run[i].body)
  }

  lemma AfterStep(run: seq<Event>, i: nat)
    requires i < |run|
    ensures After(run[..i + 1]) == Next(After(run[..i]), run[i])
  {
    assert run[..i + 1][..i] == run[..i];
  }

  /** Nothing is armed and no delivery begins in a stretch of the run. */
  predicate Stands(run: seq<Event>, from: nat, until: nat)
    requires until <= |run|
  {
    forall k: nat :: from <= k < until ==> !Arms(run, k) && !BeginsAt(run, k)
  }

  /** The generation counts arms and begins, so it stands still exactly while neither comes. */
  lemma {:induction false} GenerationStands(run: seq<Event>, from: nat, until: nat)
    requires from <= until <= |run|
    ensures After(run[..from]).generation <= After(run[..until]).generation
    ensures After(run[..from]).generation == After(run[..until]).generation <==> Stands(run, from, until)
    decreases until
  {
    if from < until {
      GenerationStands(run, from, until - 1);
      AfterStep(run, until - 1);
      assert Stands(run, from, until) <==>
        Stands(run, from, until - 1) && !Arms(run, until - 1) && !BeginsAt(run, until - 1);
    }
  }

  /** A set made for a delivery takes effect exactly when its time is sound and nothing was
      armed and no other delivery begun since that delivery began: so it never overrides an
      arm that the delivery could not have seen. */
  lemma SetSeesEveryArm(run: seq<Event>, begin: nat, setting: nat)
    requires begin < setting < |run| && BeginsAt(run, begin)
    requires run[setting].Request? && run[setting].path.Set? && run[setting].body.account.Some?
    requires run[setting].body.generation == Some(After(run[..begin + 1]).generation)
    ensures Sets(run, setting) <==>
      (TimeOf(run[setting].body.at).Some? || run[setting].body.at.Null?) && Stands(run, begin + 1, setting)
  {
    GenerationStands(run, begin + 1, setting);
  }

  /** An alarm is never set without an account to hand over. */
  lemma {:induction false} AlarmHasAccount(run: seq<Event>)
    ensures After(run).alarm.Some? ==> After(run).account.Some?
  {
    if run != [] { AlarmHasAccount(run[..|run| - 1]); }
  }

  /** What stands at least since `i`: an arm's time, or a firing's retry. */
  function DueFrom(run: seq<Event>, i: nat): int
    requires i < |run| && (Arms(run, i) || Fires(run, i))
  {
    if Arms(run, i) then run[i].body.at.value else run[i].now + RETRY_AFTER_MS
  }

  /** No wake is lost: until a set takes effect or the alarm goes off, it stays set, no later
      than any time armed and no later than one retry after it last went off. */
  lemma {:induction false} NoWakeLost(run: seq<Event>, i: nat, n: nat)
    requires i < n <= |run| && (Arms(run, i) || Fires(run, i))
    requires forall k: nat :: i < k < n ==> !Sets(run, k) && !Fires(run, k)
    ensures After(run[..n]).alarm.Some? && After(run[..n]).alarm.value <= DueFrom(run, i)
    decreases n
  {
    AfterStep(run, n - 1);
    if n == i + 1 {
      AlarmHasAccount(run[..i]);
    } else {
      NoWakeLost(run, i, n - 1);
      assert !Sets(run, n - 1) && !Fires(run, n - 1);
    }
  }

  /** The alarm is only ever set to a time asked for, or to a retry after it went off. */
  lemma {:induction false} AlarmHasCause(run: seq<Event>) returns (i: nat)
    requires After(run).alarm.Some?
    ensures i < |run| && (Arms(run, i) || Sets(run, i) || Fires(run, i))
    ensures After(run).alarm == if Sets(run, i) then TimeOf(run[i].body.at) else Some(DueFrom(run, i))
  {
    var last := |run| - 1;
    var before := After(run[..last]);
    if After(run).alarm != before.alarm {
      i := last;
    } else {
      i := AlarmHasCause(run[..last]);
      assert run[..last][..i] == run[..i];
    }
  }
}
