/** The token state of one process: maps in order of insertion, pruned as they are used. */
module OAuthState {
  import opened Wrappers
  import opened Sequences
  import opened OAuthProtocol

  const MAX_ENTRIES := 10_000

  /** `names` is the access token a refresh token stands for. */
  datatype Entry<K> = Entry(key: K, expiresAt: int, names: Option<K>)

  type Entries<K> = seq<Entry<K>>

  function Unexpired<K>(entries: Entries<K>, now: int): Entries<K> {
    if entries == [] then []
    else if entries[0].expiresAt <= now then Unexpired(entries[1..], now)
    else [entries[0]] + Unexpired(entries[1..], now)
  }

  function Newest<K>(entries: Entries<K>): Entries<K> {
    if |entries| > MAX_ENTRIES then entries[|entries| - MAX_ENTRIES..] else entries
  }

  function Pruned<K>(entries: Entries<K>, now: int): Entries<K> { Newest(Unexpired(entries, now)) }

  function Without<K(==)>(entries: Entries<K>, key: K): Entries<K> {
    if entries == [] then []
    else if entries[0].key == key then Without(entries[1..], key)
    else [entries[0]] + Without(entries[1..], key)
  }

  function Get<K(==)>(entries: Entries<K>, key: K): Option<Entry<K>> {
    if entries == [] then None
    else if entries[0].key == key then Some(entries[0])
    else Get(entries[1..], key)
  }

  ghost predicate Distinct<K>(entries: Entries<K>) {
    forall i, j :: 0 <= i < j < |entries| ==> entries[i].key != entries[j].key
  }

  datatype State = State(sessions: Entries<nat>, codes: Entries<nat>, access: Entries<Token>, refresh: Entries<Token>)

  function PrunedAll(s: State, now: int): State {
    State(Pruned(s.sessions, now), Pruned(s.codes, now), Pruned(s.access, now), Pruned(s.refresh, now))
  }

  method Prune<K>(entries: Entries<K>, now: int) returns (kept: Entries<K>)
    ensures kept == Pruned(entries, now)
  {
    kept := [];
    var i := 0;
    while i < |entries|
      invariant 0 <= i <= |entries| && kept + Unexpired(entries[i..], now) == Unexpired(entries, now)
    {
      assert entries[i..][1..] == entries[i + 1..];
      if entries[i].expiresAt > now {
        Appends(kept, entries[i], Unexpired(entries[i + 1..], now));
        kept := kept + [entries[i]];
      }
      i := i + 1;
    }
    ghost var unexpired := kept;
    while |kept| > MAX_ENTRIES
      invariant |kept| <= |unexpired| && kept == unexpired[|unexpired| - |kept|..]
      invariant |unexpired| > MAX_ENTRIES ==> |kept| >= MAX_ENTRIES
      invariant |unexpired| <= MAX_ENTRIES ==> kept == unexpired
      decreases |kept|
    {
      kept := kept[1..];
    }
  }

  class InMemoryStore {
    var sessions: Entries<nat>
    var codes: Entries<nat>
    var access: Entries<Token>
    var refresh: Entries<Token>

    constructor ()
      ensures Now() == State([], [], [], [])
    {
      sessions, codes, access, refresh := [], [], [], [];
    }

    function Now(): State
      reads this
    {
      State(sessions, codes, access, refresh)
    }

    method PruneAll(now: int)
      modifies this
      ensures Now() == PrunedAll(old(Now()), now)
    {
      sessions := Prune(sessions, now);
      codes := Prune(codes, now);
      access := Prune(access, now);
      refresh := Prune(refresh, now);
    }

    method RegisterCode(code: nat, expiresAt: int, clock: int)
      modifies this
      ensures var s := PrunedAll(old(Now()), clock);
        Now() == s.(codes := Pruned(Without(s.codes, code) + [Entry(code, expiresAt, None)], clock))
    {
      PruneAll(clock);
      codes := Prune(Without(codes, code) + [Entry(code, expiresAt, None)], clock);
    }

    method ConsumeCode(code: nat, now: int) returns (ok: bool)
      modifies this
      ensures var s := PrunedAll(old(Now()), now);
        ok == Get(s.codes, code).Some? && Now() == s.(codes := Without(s.codes, code))
    {
      PruneAll(now);
      var entry := Get(codes, code);
      if entry.Some? { UnexpiredKept(old(codes), now, code); }
      codes := Without(codes, code);
      ok := entry.Some? && entry.value.expiresAt > now;
    }

    method RegisterAccessToken(token: Token, expiresAt: int, clock: int)
      modifies this
      ensures var s := PrunedAll(old(Now()), clock);
        Now() == s.(access := Pruned(Without(s.access, token) + [Entry(token, expiresAt, None)], clock))
    {
      PruneAll(clock);
      access := Prune(Without(access, token) + [Entry(token, expiresAt, None)], clock);
    }

    method HasAccessToken(token: Token, now: int) returns (ok: bool)
      modifies this
      ensures ok == Get(PrunedAll(old(Now()), now).access, token).Some? && Now() == PrunedAll(old(Now()), now)
    {
      PruneAll(now);
      var entry := Get(access, token);
      if entry.Some? { UnexpiredKept(old(access), now, token); }
      ok := entry.Some? && entry.value.expiresAt > now;
    }

    method RevokeAccessToken(token: Token)
      modifies this
      ensures Now() == old(Now()).(access := Without(old(access), token))
    {
      access := Without(access, token);
    }

    method RegisterRefreshToken(token: Token, names: Token, expiresAt: int, clock: int)
      modifies this
      ensures var s := PrunedAll(old(Now()), clock);
        Now() == s.(refresh := Pruned(Without(s.refresh, token) + [Entry(token, expiresAt, Some(names))], clock))
    {
      PruneAll(clock);
      refresh := Prune(Without(refresh, token) + [Entry(token, expiresAt, Some(names))], clock);
    }

    method ConsumeRefreshToken(token: Token, now: int) returns (names: Option<Token>)
      modifies this
      ensures var s := PrunedAll(old(Now()), now);
        && names == (if Get(s.refresh, token).Some? then Get(s.refresh, token).value.names else None)
        && Now() == s.(refresh := Without(s.refresh, token))
    {
      PruneAll(now);
      var entry := Get(refresh, token);
      if entry.Some? { UnexpiredKept(old(refresh), now, token); }
      refresh := Without(refresh, token);
      if entry.None? || entry.value.expiresAt <= now { return None; }
      names := entry.value.names;
    }
  }

  // ---------------------------------------------------------------- what pruning keeps

  lemma {:induction false} UnexpiredIn<K>(entries: Entries<K>, now: int, e: Entry<K>)
    ensures e in Unexpired(entries, now) <==> e in entries && e.expiresAt > now
  {
    if entries != [] { UnexpiredIn(entries[1..], now, e); }
  }

  lemma {:induction false} GetIn<K>(entries: Entries<K>, key: K)
    ensures Get(entries, key).Some? ==> Get(entries, key).value in entries && Get(entries, key).value.key == key
    ensures Get(entries, key).None? ==> forall e :: e in entries ==> e.key != key
  {
    if entries != [] { GetIn(entries[1..], key); }
  }

  lemma {:induction false} WithoutIn<K>(entries: Entries<K>, key: K, e: Entry<K>)
    ensures e in Without(entries, key) <==> e in entries && e.key != key
  {
    if entries != [] { WithoutIn(entries[1..], key, e); }
  }

  lemma PrunedIn<K>(entries: Entries<K>, now: int, e: Entry<K>)
    ensures e in Pruned(entries, now) ==> e in entries && e.expiresAt > now
    ensures e in entries && e.expiresAt > now && |Unexpired(entries, now)| <= MAX_ENTRIES ==> e in Pruned(entries, now)
  {
    UnexpiredIn(entries, now, e);
  }

  lemma {:induction false} UnexpiredLast<K>(entries: Entries<K>, now: int)
    requires entries != [] && entries[|entries| - 1].expiresAt > now
    ensures var kept := Unexpired(entries, now); kept != [] && kept[|kept| - 1] == entries[|entries| - 1]
  {
    if |entries| > 1 { UnexpiredLast(entries[1..], now); }
  }

  /** The newest entry outlasts every pruning until it expires. */
  lemma LastStays<K>(entries: Entries<K>, now: int)
    requires entries != [] && entries[|entries| - 1].expiresAt > now
    ensures var kept := Pruned(entries, now); kept != [] && kept[|kept| - 1] == entries[|entries| - 1]
  {
    UnexpiredLast(entries, now);
  }

  lemma UnexpiredKept<K>(entries: Entries<K>, now: int, key: K)
    requires Get(Pruned(entries, now), key).Some?
    ensures Get(Pruned(entries, now), key).value.expiresAt > now
  {
    GetIn(Pruned(entries, now), key);
    PrunedIn(entries, now, Get(Pruned(entries, now), key).value);
  }

  // ---------------------------------------------------------------- the store as the protocol sees it

  function Keys<K>(entries: Entries<K>): set<K> { set e | e in entries :: e.key }

  function NamesOf(entries: Entries<Token>): map<Token, Token> {
    map r | r in Keys(entries) && Get(entries, r).Some?
      && Get(entries, r).value.names.Some? :: Get(entries, r).value.names.value
  }

  function View(s: State): Store { Store(Keys(s.codes), Keys(s.access), NamesOf(s.refresh)) }

  ghost predicate Valid(s: State) {
    && Distinct(s.codes) && Distinct(s.access) && Distinct(s.refresh)
    && forall e :: e in s.refresh ==> e.names.Some?
  }

  /** Fewer entries, none changed. */
  ghost predicate Fewer<K>(a: Entries<K>, b: Entries<K>) {
    Distinct(a) && forall e :: e in a ==> e in b
  }

  lemma {:induction false} UnexpiredDistinct<K>(entries: Entries<K>, now: int)
    requires Distinct(entries)
    ensures Fewer(Unexpired(entries, now), entries)
  {
    if entries != [] {
      UnexpiredDistinct(entries[1..], now);
      forall e | e in Unexpired(entries[1..], now) ensures e.key != entries[0].key {
        assert e in entries[1..];
      }
    }
  }

  lemma {:induction false} WithoutDistinct<K>(entries: Entries<K>, key: K)
    requires Distinct(entries)
    ensures Fewer(Without(entries, key), entries) && key !in Keys(Without(entries, key))
  {
    if entries != [] {
      WithoutDistinct(entries[1..], key);
      forall e | e in Without(entries[1..], key) ensures e.key != entries[0].key {
        assert e in entries[1..];
      }
    }
  }

  lemma PrunedFewer<K>(entries: Entries<K>, now: int)
    requires Distinct(entries)
    ensures Fewer(Pruned(entries, now), entries)
  {
    UnexpiredDistinct(entries, now);
  }

  lemma {:induction false} GetOf<K>(entries: Entries<K>, e: Entry<K>)
    requires Distinct(entries) && e in entries
    ensures Get(entries, e.key) == Some(e)
  {
    if entries[0] != e { GetOf(entries[1..], e); }
  }

  lemma FewerNames(a: Entries<Token>, b: Entries<Token>)
    requires Distinct(b) && Fewer(a, b)
    ensures NamesOf(a).Keys <= NamesOf(b).Keys && forall r :: r in NamesOf(a) ==> NamesOf(a)[r] == NamesOf(b)[r]
  {
    forall r | r in NamesOf(a) ensures r in NamesOf(b) && NamesOf(a)[r] == NamesOf(b)[r] {
      GetIn(a, r);
      GetOf(b, Get(a, r).value);
    }
  }

  /** Pruning only loses entries. */
  lemma PrunedWithin(s: State, now: int)
    requires Valid(s)
    ensures Valid(PrunedAll(s, now)) && Within(View(PrunedAll(s, now)), View(s))
  {
    PrunedFewer(s.codes, now);
    PrunedFewer(s.access, now);
    PrunedFewer(s.refresh, now);
    FewerNames(Pruned(s.refresh, now), s.refresh);
  }
}
