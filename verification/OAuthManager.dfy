/** Exchanging codes, refreshing and resolving tokens, one request at a time. */
module OAuthManager {
  import opened Wrappers
  import opened OAuthProtocol
  import opened OAuthProofs
  import opened OAuthState
  import opened OAuthRefinement

  /** What a sealed code or token says once opened. */
  datatype Grant = Grant(clientId: nat, redirectUri: nat, challenge: nat, keyIsValid: bool, expiresAt: int)

  datatype Attempt = Attempt(clientId: nat, redirectUri: nat, verifier: nat)

  /** Who a client id is, by the redirect it uses, and which verifiers meet a challenge. */
  datatype Rules = Rules(clientName: (nat, nat) -> Option<nat>, proves: (nat, nat) -> bool)

  const TOKEN_TTL_MS := 2_592_000_000

  predicate SameClient(rules: Rules, grant: Grant, a: Attempt) {
    || grant.clientId == a.clientId
    || var issued, asking := rules.clientName(grant.clientId, grant.redirectUri),
      rules.clientName(a.clientId, a.redirectUri);
       issued.Some? && issued == asking
  }

  /** The checks made before a code is spent. */
  predicate MayExchange(rules: Rules, grant: Option<Grant>, a: Attempt, now: int) {
    && grant.Some? && grant.value.keyIsValid && grant.value.expiresAt > now
    && grant.value.redirectUri == a.redirectUri && SameClient(rules, grant.value, a)
    && rules.proves(a.verifier, grant.value.challenge)
  }

  datatype Pair = Pair(access: Token, refresh: Token, expiresAt: int)

  const CODE_TTL_MS := 300_000

  // ---------------------------------------------------------------- the run a manager leaves behind

  /** The calls made of the store so far are a run of the protocol, and it stands where the
      store and the counters do. Requests of other callers may be open in it. */
  ghost predicate Linked(run: seq<Event>, s: State, nextCode: nat, serial: nat) {
    && Valid(s) && Possible(run)
    && After(run).store == View(s) && After(run).nextCode == nextCode && After(run).nextSerial == serial
  }

  /** One more call of the store that the protocol allows. */
  lemma OneMoreCall(run: seq<Event>, e: Event, longer: seq<Event>)
    requires Possible(run) && Allowed(After(run), e) && longer == run + [e]
    ensures Possible(longer) && After(longer) == Next(After(run), e)
  {
    assert longer[..|run|] == run;
  }

  ghost predicate Exchanged(run: seq<Event>, code: nat) {
    exists i :: 0 <= i < |run| && run[i].Exchange? && run[i].ok && run[i].code == code
  }

  ghost predicate Refreshed(run: seq<Event>, token: Token) {
    exists i :: 0 <= i < |run| && run[i].Refresh? && run[i].names.Some? && run[i].token == token
  }

  lemma NotExchangedBefore(run: seq<Event>, code: nat, e: Event)
    requires Possible(run + [e]) && e.Exchange? && e.ok && e.code == code
    ensures !Exchanged(run, code)
  {
    if Exchanged(run, code) {
      var i :| 0 <= i < |run| && run[i].Exchange? && run[i].ok && run[i].code == code;
      OnePairPerCode(run + [e], i, |run|);
    }
  }

  lemma NotRefreshedBefore(run: seq<Event>, token: Token, e: Event)
    requires Possible(run + [e]) && e.Refresh? && e.names.Some? && e.token == token
    ensures !Refreshed(run, token)
  {
    if Refreshed(run, token) {
      var i :| 0 <= i < |run| && run[i].Refresh? && run[i].names.Some? && run[i].token == token;
      OneUsePerRefreshToken(run + [e], i, |run|);
    }
  }

  /** The request minted last is at this stage, with this pair. */
  ghost predicate MintedLast(sys: System, access: Token, refresh: Token, stage: Stage) {
    sys.requests != [] && sys.requests[|sys.requests| - 1] == OAuthProtocol.Request(access, refresh, stage)
  }

  /** Both tokens of the pair are held, and the one names the other. */
  ghost predicate IsHeld(s: Store, pair: Pair) {
    pair.access in s.access && pair.refresh in s.refresh && s.refresh[pair.refresh] == pair.access
  }

  /** Every token held has been minted. */
  ghost predicate AllMinted(s: Store, serial: nat) {
    && (forall a :: a in s.access ==> a.serial < serial)
    && (forall r :: r in s.refresh ==> r.serial < serial && s.refresh[r].serial < serial)
  }

  /** The access token registered just before is still held once the refresh token naming it is. */
  lemma PairHeld(s: State, pair: Pair, clock: int, after: State)
    requires Valid(s) && pair.expiresAt > clock
    requires s.access != [] && s.access[|s.access| - 1] == Entry(pair.access, pair.expiresAt, None)
    requires after.access == Pruned(s.access, clock) && Distinct(after.refresh)
    requires after.refresh == Put(Pruned(s.refresh, clock), Entry(pair.refresh, pair.expiresAt, Some(pair.access)),
        clock)
    ensures IsHeld(View(after), pair)
  {
    LastStays(s.access, clock);
    PutStays(Pruned(s.refresh, clock), Entry(pair.refresh, pair.expiresAt, Some(pair.access)), clock);
    NewNames(after.refresh, Entry(pair.refresh, pair.expiresAt, Some(pair.access)));
  }

  /** One more refresh token held, minted before the next serial number. */
  lemma StillMinted(before: Store, after: Store, pair: Pair, serial: nat)
    requires Within(after, before.(refresh := before.refresh[pair.refresh := pair.access]))
    requires AllMinted(before, serial) && pair.access.serial < serial && pair.refresh.serial < serial
    ensures AllMinted(after, serial)
  {
  }

  lemma NamedStore(s: State, serial: nat, pair: Pair, clock: int, after: State)
    requires Valid(s) && AllMinted(View(s), serial) && pair.expiresAt > clock
    requires pair.access.serial < serial && pair.refresh.serial < serial
    requires s.access != [] && s.access[|s.access| - 1] == Entry(pair.access, pair.expiresAt, None)
    requires var p, e := PrunedAll(s, clock), Entry(pair.refresh, pair.expiresAt, Some(pair.access));
             after == p.(refresh := Put(p.refresh, e, clock))
    ensures Valid(after) && AllMinted(View(after), serial) && IsHeld(View(after), pair)
    ensures Within(View(after), View(s).(refresh := View(s).refresh[pair.refresh := pair.access]))
  {
    RegisterRefreshAllowed(s, pair.refresh, pair.access, pair.expiresAt, clock, after);
    PairHeld(s, pair, clock, after);
    StillMinted(View(s), View(after), pair, serial);
  }

  lemma NamedRun(run: seq<Event>, s: State, nextCode: nat, serial: nat, pair: Pair, after: State, longer: seq<Event>)
    requires Linked(run, s, nextCode, serial) && Valid(after)
    requires MintedLast(After(run), pair.access, pair.refresh, Naming)
    requires Within(View(after), View(s).(refresh := View(s).refresh[pair.refresh := pair.access]))
    requires longer == run + [Event.Advance(|After(run).requests| - 1, View(after))]
    ensures Linked(longer, after, nextCode, serial) && MintedLast(After(longer), pair.access, pair.refresh, Ended(true))
  {
    OneMoreCall(run, Event.Advance(|After(run).requests| - 1, View(after)), longer);
  }

  lemma Named(run: seq<Event>, s: State, nextCode: nat, serial: nat, pair: Pair, clock: int, after: State,
              longer: seq<Event>)
    requires Linked(run, s, nextCode, serial) && AllMinted(View(s), serial) && pair.expiresAt > clock
    requires MintedLast(After(run), pair.access, pair.refresh, Naming)
    requires pair.access.serial < serial && pair.refresh.serial < serial
    requires s.access != [] && s.access[|s.access| - 1] == Entry(pair.access, pair.expiresAt, None)
    requires var p, e := PrunedAll(s, clock), Entry(pair.refresh, pair.expiresAt, Some(pair.access));
             after == p.(refresh := Put(p.refresh, e, clock))
    requires longer == run + [Event.Advance(|After(run).requests| - 1, View(after))]
    ensures Linked(longer, after, nextCode, serial) && AllMinted(View(after), serial)
    ensures MintedLast(After(longer), pair.access, pair.refresh, Ended(true)) && IsHeld(View(after), pair)
    ensures Within(View(after), View(s).(refresh := View(s).refresh[pair.refresh := pair.access]))
  {
    NamedStore(s, serial, pair, clock, after);
    NamedRun(run, s, nextCode, serial, pair, after, longer);
  }

  class Manager {
    const rules: Rules
    const store: InMemoryStore
    var nextCode: nat
    var serial: nat
    ghost var run: seq<Event>

    constructor (rules: Rules)
      ensures Sound() && fresh(store) && this.rules == rules && run == [] && store.Now() == State([], [], [], [])
    {
      this.rules, nextCode, serial, run := rules, 0, 0, [];
      store := new InMemoryStore();
    }

    /** The store is in order, holds no token not minted yet, and stands where the run does. */
    ghost predicate Sound()
      reads this, store
    {
      Linked(run, store.Now(), nextCode, serial) && AllMinted(View(store.Now()), serial)
    }

    ghost predicate Holds(pair: Pair)
      reads this, store
    {
      IsHeld(View(store.Now()), pair)
    }

    /** A new code, held until it is spent, expires or is pushed out. */
    method CreateCode(now: int) returns (code: nat)
      requires Sound()
      modifies this`nextCode, this`run, store
      ensures Sound() && code == old(nextCode) && run == old(run) + [Event.Authorize(View(store.Now()))]
      ensures code in View(store.Now()).codes
    {
      code := nextCode;
      nextCode := nextCode + 1;
      ghost var s := store.Now();
      store.RegisterCode(code, now + CODE_TTL_MS, now);
      RegisterCodeAllowed(s, code, now + CODE_TTL_MS, now, store.Now());
      PutStays(Pruned(s.codes, now), Entry(code, now + CODE_TTL_MS, None), now);
      ghost var e := Event.Authorize(View(store.Now()));
      OneMoreCall(run, e, run + [e]);
      run := run + [e];
    }

    /** A pair of tokens never handed out before, by a request that has yet to register them. */
    method Register(pair: Pair, now: int)
      requires Sound() && pair.expiresAt > now
      requires MintedLast(After(run), pair.access, pair.refresh, Admitting)
      requires pair.access.serial < serial && pair.refresh.serial < serial
      modifies this`run, store
      ensures Sound() && Holds(pair) && old(run) <= run && |run| == |old(run)| + 2
      ensures MintedLast(After(run), pair.access, pair.refresh, Ended(true))
      ensures View(store.Now()).codes <= old(View(store.Now()).codes)
      ensures View(store.Now()).access <= old(View(store.Now()).access) + {pair.access}
      ensures forall r :: r in View(store.Now()).refresh && r != pair.refresh ==>
        r in old(View(store.Now())).refresh && View(store.Now()).refresh[r] == old(View(store.Now())).refresh[r]
    {
      Admit(pair, now);
      Name(pair, now, View(store.Now()));
    }

    /** The access token first. */
    method Admit(pair: Pair, now: int)
      requires Sound() && pair.expiresAt > now
      requires MintedLast(After(run), pair.access, pair.refresh, Admitting) && pair.access.serial < serial
      modifies this`run, store
      ensures Sound() && MintedLast(After(run), pair.access, pair.refresh, Naming)
      ensures old(run) <= run && |run| == |old(run)| + 1
      ensures Within(View(store.Now()), old(View(store.Now())).(access :=
          old(View(store.Now())).access + {pair.access}))
      ensures store.access != [] && store.access[|store.access| - 1] == Entry(pair.access, pair.expiresAt, None)
    {
      ghost var s := store.Now();
      ghost var i := |After(run).requests| - 1;
      store.RegisterAccessToken(pair.access, pair.expiresAt, now);
      RegisterAccessAllowed(s, pair.access, pair.expiresAt, now, store.Now());
      LastStays(Without(Pruned(s.access, now), pair.access) + [Entry(pair.access, pair.expiresAt, None)], now);
      ghost var e := Event.Advance(i, View(store.Now()));
      OneMoreCall(run, e, run + [e]);
      run := run + [e];
    }

    /** Then the refresh token that names it. */
    method Name(pair: Pair, now: int, ghost before: Store)
      requires Sound() && before == View(store.Now()) && pair.expiresAt > now
      requires MintedLast(After(run), pair.access, pair.refresh, Naming)
      requires pair.access.serial < serial && pair.refresh.serial < serial
      requires store.access != [] && store.access[|store.access| - 1] == Entry(pair.access, pair.expiresAt, None)
      modifies this`run, store
      ensures Sound() && MintedLast(After(run), pair.access, pair.refresh, Ended(true)) && Holds(pair)
      ensures old(run) <= run && |run| == |old(run)| + 1
      ensures Within(View(store.Now()), before.(refresh := before.refresh[pair.refresh := pair.access]))
    {
      ghost var s := store.Now();
      ghost var i := |After(run).requests| - 1;
      store.RegisterRefreshToken(pair.refresh, pair.access, pair.expiresAt, now);
      ghost var longer := run + [Event.Advance(i, View(store.Now()))];
      Named(run, s, nextCode, serial, pair, now, store.Now(), longer);
      run := longer;
    }

    /** A code is exchanged exactly when every check passes and it is unspent; a failed check
        spends nothing, and once the store was asked the code is gone. What the store saw is
        one exchange of the protocol and, if it succeeds, the two calls that register the pair;
        so no run exchanges a code twice. */
    method ExchangeCode(code: nat, grant: Option<Grant>, a: Attempt, now: int) returns (pair: Option<Pair>)
      requires Sound()
      modifies this`serial, this`run, store
      ensures Sound() && old(run) <= run
      ensures pair.Some? <==>
        MayExchange(rules, grant, a, now) && Get(PrunedAll(old(store.Now()), now).codes, code).Some?
      ensures pair.Some? ==> pair.value.access.chain == code == pair.value.refresh.chain && Holds(pair.value)
      ensures !MayExchange(rules, grant, a, now) ==> store.Now() == old(store.Now()) && run == old(run)
      ensures MayExchange(rules, grant, a, now) ==> code !in View(store.Now()).codes
      ensures MayExchange(rules, grant, a, now) ==>
        |run| == |old(run)| + (if pair.Some? then 3 else 1) && run[|old(run)|].Exchange?
        && run[|old(run)|].code == code && run[|old(run)|].ok == pair.Some?
      ensures pair.Some? ==> !Exchanged(old(run), code) && Exchanged(run, code)
    {
      if grant.None? || !grant.value.keyIsValid { return None; }
      if grant.value.expiresAt <= now { return None; }
      if grant.value.redirectUri != a.redirectUri { return None; }
      if grant.value.clientId != a.clientId {
        var issued := rules.clientName(grant.value.clientId, grant.value.redirectUri);
        var asking := rules.clientName(a.clientId, a.redirectUri);
        if issued.None? || asking.None? || issued.value != asking.value { return None; }
      }
      if !rules.proves(a.verifier, grant.value.challenge) { return None; }
      var ok := SpendCode(code, now);
      if !ok { return None; }
      var minted := Pair(Token(code, serial - 2), Token(code, serial - 1), now + TOKEN_TTL_MS);
      ghost var spent := run;
      Register(minted, now);
      assert run[|old(run)|] == spent[|old(run)|];
      return Some(minted);
    }

    /** Asks the store for the code; if it is there, a pair of serial numbers is taken. */
    method SpendCode(code: nat, now: int) returns (ok: bool)
      requires Sound()
      modifies this`serial, this`run, store
      ensures Sound() && ok == Get(PrunedAll(old(store.Now()), now).codes, code).Some?
      ensures run == old(run) + [Event.Exchange(code, ok, View(store.Now()))]
      ensures serial == old(serial) + (if ok then 2 else 0) && code !in View(store.Now()).codes
      ensures ok ==> MintedLast(After(run), Token(code, serial - 2), Token(code, serial - 1), Admitting)
      ensures ok ==> !Exchanged(old(run), code)
    {
      ghost var s := store.Now();
      ok := store.ConsumeCode(code, now);
      ConsumeCodeAllowed(s, code, now, store.Now());
      if ok { serial := serial + 2; }
      ghost var e := Event.Exchange(code, ok, View(store.Now()));
      OneMoreCall(run, e, run + [e]);
      if ok { NotExchangedBefore(run, code, e); }
      run := run + [e];
    }

    /** A refresh token is turned in for a new pair exactly when it is sound and still held;
        the access token it named no longer resolves, nor can it be turned in again. What the
        store saw is one refresh of the protocol, and the three calls that complete it. */
    method RefreshAccessToken(token: Token, grant: Option<Grant>, now: int) returns (pair: Option<Pair>)
      requires Sound()
      modifies this`serial, this`run, store
      ensures Sound() && old(run) <= run
      ensures pair.Some? <==>
        grant.Some? && grant.value.keyIsValid && grant.value.expiresAt > now
          && Get(PrunedAll(old(store.Now()), now).refresh, token).Some?
      ensures pair.Some? ==> token in old(View(store.Now())).refresh && token !in View(store.Now()).refresh
      ensures pair.Some? ==> old(View(store.Now())).refresh[token] !in View(store.Now()).access
      ensures pair.Some? ==> pair.value.access.chain == token.chain == pair.value.refresh.chain && Holds(pair.value)
      ensures pair.Some? ==> |run| == |old(run)| + 4 && !Refreshed(old(run), token) && Refreshed(run, token)
    {
      if grant.None? || !grant.value.keyIsValid || grant.value.expiresAt <= now { return None; }
      var names := SpendToken(token, now);
      if names.None? { return None; }
      ghost var spent := run;
      var minted := Rotate(token, names.value, now);
      assert run[|old(run)|] == spent[|old(run)|];
      return Some(minted);
    }

    /** The replaced access token goes before the new pair comes. */
    method Rotate(token: Token, replaced: Token, now: int) returns (pair: Pair)
      requires Sound() && serial >= 2 && token.serial < serial - 2 && replaced.serial < serial - 2
      requires MintedLast(After(run), Token(token.chain, serial - 2), Token(token.chain, serial - 1),
          Revoking(replaced))
      requires token !in View(store.Now()).refresh
      modifies this`run, store
      ensures Sound() && Holds(pair) && old(run) <= run && |run| == |old(run)| + 3
      ensures pair.access.chain == token.chain == pair.refresh.chain
      ensures token !in View(store.Now()).refresh && replaced !in View(store.Now()).access
    {
      Revoke(replaced, Token(token.chain, serial - 2), Token(token.chain, serial - 1));
      pair := Pair(Token(token.chain, serial - 2), Token(token.chain, serial - 1), now + TOKEN_TTL_MS);
      Register(pair, now);
    }

    /** Asks the store for the refresh token; if it is there, a pair of serial numbers is taken. */
    method SpendToken(token: Token, now: int) returns (names: Option<Token>)
      requires Sound()
      modifies this`serial, this`run, store
      ensures Sound() && (names.Some? <==> Get(PrunedAll(old(store.Now()), now).refresh, token).Some?)
      ensures run == old(run) + [Event.Refresh(token, names, View(store.Now()))]
      ensures serial == old(serial) + (if names.Some? then 2 else 0) && token !in View(store.Now()).refresh
      ensures names.Some? ==>
        && token in old(View(store.Now())).refresh && names.value == old(View(store.Now())).refresh[token]
        && names.value.serial < old(serial) && token.serial < old(serial)
        && MintedLast(After(run), Token(token.chain, serial - 2), Token(token.chain, serial - 1), Revoking(names.value))
        && !Refreshed(old(run), token)
    {
      ghost var s := store.Now();
      names := store.ConsumeRefreshToken(token, now);
      ConsumeRefreshAllowed(s, token, now, store.Now());
      if names.Some? { serial := serial + 2; }
      ghost var e := Event.Refresh(token, names, View(store.Now()));
      OneMoreCall(run, e, run + [e]);
      if names.Some? { NotRefreshedBefore(run, token, e); }
      run := run + [e];
    }

    /** The access token that the request replaces no longer resolves. */
    method Revoke(replaced: Token, ghost access: Token, ghost refresh: Token)
      requires Sound() && MintedLast(After(run), access, refresh, Revoking(replaced))
      modifies this`run, store
      ensures Sound() && MintedLast(After(run), access, refresh, Admitting)
      ensures old(run) <= run && |run| == |old(run)| + 1 && replaced !in View(store.Now()).access
      ensures Within(View(store.Now()), old(View(store.Now())))
    {
      ghost var s := store.Now();
      ghost var i := |After(run).requests| - 1;
      store.RevokeAccessToken(replaced);
      RevokeAllowed(s, replaced, store.Now());
      ghost var e := Event.Advance(i, View(store.Now()));
      OneMoreCall(run, e, run + [e]);
      run := run + [e];
    }

    /** A token resolves exactly when it is sound and held; then it is the only one of its
        chain that does, and the chain's refresh token, if there is one, names it. */
    method ResolveToken(token: Token, grant: Option<Grant>, now: int) returns (ok: bool)
      requires Sound()
      modifies this`run, store
      ensures Sound() && old(run) <= run && Within(View(store.Now()), old(View(store.Now())))
      ensures ok <==>
        grant.Some? && grant.value.keyIsValid && grant.value.expiresAt > now
          && Get(PrunedAll(old(store.Now()), now).access, token).Some?
      ensures ok ==> token in old(View(store.Now())).access
      ensures ok ==> forall a :: a in View(store.Now()).access && a.chain == token.chain ==> a == token
      ensures ok ==> forall r :: r in View(store.Now()).refresh && r.chain == token.chain ==>
          View(store.Now()).refresh[r] == token
    {
      if grant.None? || !grant.value.keyIsValid || grant.value.expiresAt <= now { return false; }
      ResolveAllowed(store.Now(), token, now);
      ok := store.HasAccessToken(token, now);
      if ok { GetIn(store.access, token); }
      ghost var e := Event.Resolve(token, ok, View(store.Now()));
      OneMoreCall(run, e, run + [e]);
      run := run + [e];
      RunKeepsInv(run);
    }
  }
}
