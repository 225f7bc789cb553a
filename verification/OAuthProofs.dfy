/** One token pair a code, and one live token of each kind a chain. */
module OAuthProofs {
  import opened Wrappers
  import opened OAuthProtocol

  /** Losing entries keeps every invariant. */
  lemma LosingKeepsInv(sys: System, after: System)
    requires Inv(sys) && Within(after.store, sys.store) && after == sys.(store := after.store)
    ensures Inv(after)
  {
  }

  lemma AuthorizeKeepsInv(sys: System, after: System)
    requires Inv(sys)
    requires after == sys.(nextCode := sys.nextCode + 1, store := sys.store.(codes := sys.store.codes + {sys.nextCode}))
    ensures Inv(after)
  {
  }

  /** A chain with no holder, and no access token but the one to be revoked. */
  ghost predicate Unheld(sys: System, chain: nat, stage: Stage) {
    && chain < sys.nextCode && chain !in sys.store.codes
    && (forall r :: r in sys.store.refresh ==> r.chain != chain)
    && (forall i :: 0 <= i < |sys.requests| && Open(sys.requests[i]) ==> sys.requests[i].access.chain != chain)
    && (forall a :: a in sys.store.access && a.chain == chain ==> stage == Revoking(a))
  }

  lemma MintKeepsHolder(sys: System, chain: nat, stage: Stage, after: System)
    requires OneHolder(sys) && Unheld(sys, chain, stage) && after == Minted(sys, chain, stage)
    ensures OneHolder(after)
  {
  }

  lemma MintKeepsAccess(sys: System, chain: nat, stage: Stage, after: System)
    requires OneAccess(sys) && Unheld(sys, chain, stage) && after == Minted(sys, chain, stage)
    ensures OneAccess(after)
  {
  }

  lemma MintKeepsKnown(sys: System, chain: nat, stage: Stage, after: System)
    requires AllKnown(sys) && CodesUnspent(sys) && Unheld(sys, chain, stage) && after == Minted(sys, chain, stage)
    ensures AllKnown(after) && CodesUnspent(after)
  {
  }

  lemma MintKeepsInv(sys: System, chain: nat, stage: Stage, after: System)
    requires Inv(sys) && Unheld(sys, chain, stage) && !stage.Naming? && after == Minted(sys, chain, stage)
    ensures Inv(after)
  {
    assert AllKnown(after) && CodesUnspent(after) by { MintKeepsKnown(sys, chain, stage, after); }
    assert OneHolder(after) by { MintKeepsHolder(sys, chain, stage, after); }
    assert OneAccess(after) by { MintKeepsAccess(sys, chain, stage, after); }
  }

  lemma MoveKeepsHolder(sys: System, i: nat, stage: Stage, after: System)
    requires OneHolder(sys) && i < |sys.requests| && Open(sys.requests[i])
    requires after.requests == Moved(sys, i, stage).requests && after.store.refresh == sys.store.refresh
    ensures OneHolder(after)
  {
    forall j | 0 <= j < |sys.requests| ensures after.requests[j].access == sys.requests[j].access {
    }
  }

  lemma RevokeKeepsInv(sys: System, i: nat, token: Token, after: System)
    requires Inv(sys) && i < |sys.requests| && sys.requests[i].stage == Revoking(token)
    requires after == Moved(sys, i, Admitting).(store := sys.store.(access := sys.store.access - {token}))
    ensures Inv(after)
  {
    MoveKeepsHolder(sys, i, Admitting, after);
  }

  lemma AdmitKeepsAccess(sys: System, i: nat, after: System)
    requires OneAccess(sys) && OneHolder(sys) && i < |sys.requests| && sys.requests[i].stage == Admitting
    requires after == Moved(sys, i, Naming).(store := sys.store.(access := sys.store.access + {sys.requests[i].access}))
    ensures OneAccess(after)
  {
  }

  lemma AdmitKeepsInv(sys: System, i: nat, after: System)
    requires Inv(sys) && i < |sys.requests| && sys.requests[i].stage == Admitting
    requires after == Moved(sys, i, Naming).(store := sys.store.(access := sys.store.access + {sys.requests[i].access}))
    ensures Inv(after)
  {
    MoveKeepsHolder(sys, i, Naming, after);
    AdmitKeepsAccess(sys, i, after);
  }

  lemma NameKeepsHolder(sys: System, i: nat, after: System)
    requires AllKnown(sys) && OneHolder(sys) && i < |sys.requests| && sys.requests[i].stage == Naming
    requires var r := sys.requests[i];
      after == Moved(sys, i, Ended(true)).(store := sys.store.(refresh := sys.store.refresh[r.refresh := r.access]))
    ensures OneHolder(after)
  {
  }

  lemma NameKeepsAccess(sys: System, i: nat, after: System)
    requires AllKnown(sys) && OneAccess(sys) && OneHolder(sys) && i < |sys.requests| && sys.requests[i].stage == Naming
    requires var r := sys.requests[i];
      after == Moved(sys, i, Ended(true)).(store := sys.store.(refresh := sys.store.refresh[r.refresh := r.access]))
    ensures OneAccess(after)
  {
  }

  lemma NameKeepsKnown(sys: System, i: nat, after: System)
    requires AllKnown(sys) && CodesUnspent(sys) && i < |sys.requests|
    requires var r := sys.requests[i];
      after == Moved(sys, i, Ended(true)).(store := sys.store.(refresh := sys.store.refresh[r.refresh := r.access]))
    ensures AllKnown(after) && CodesUnspent(after)
  {
  }

  lemma NameKeepsInv(sys: System, i: nat, after: System)
    requires Inv(sys) && i < |sys.requests| && sys.requests[i].stage == Naming
    requires var r := sys.requests[i];
      after == Moved(sys, i, Ended(true)).(store := sys.store.(refresh := sys.store.refresh[r.refresh := r.access]))
    ensures Inv(after)
  {
    assert AllKnown(after) && CodesUnspent(after) by { NameKeepsKnown(sys, i, after); }
    assert OneHolder(after) by { NameKeepsHolder(sys, i, after); }
    assert OneAccess(after) by { NameKeepsAccess(sys, i, after); }
  }

  lemma EndKeepsKnown(sys: System, i: nat, answered: bool, after: System)
    requires AllKnown(sys) && CodesUnspent(sys) && i < |sys.requests| && after == Moved(sys, i, Ended(answered))
    ensures AllKnown(after) && CodesUnspent(after)
  {
  }

  lemma EndKeepsHolder(sys: System, i: nat, answered: bool, after: System)
    requires OneHolder(sys) && i < |sys.requests| && after == Moved(sys, i, Ended(answered))
    ensures OneHolder(after)
  {
  }

  lemma EndKeepsAccess(sys: System, i: nat, answered: bool, after: System)
    requires OneAccess(sys) && i < |sys.requests| && after == Moved(sys, i, Ended(answered))
    ensures OneAccess(after)
  {
  }

  lemma EndKeepsInv(sys: System, i: nat, answered: bool, after: System)
    requires Inv(sys) && i < |sys.requests| && after == Moved(sys, i, Ended(answered))
    ensures Inv(after)
  {
    assert AllKnown(after) && CodesUnspent(after) by { EndKeepsKnown(sys, i, answered, after); }
    assert OneHolder(after) by { EndKeepsHolder(sys, i, answered, after); }
    assert OneAccess(after) by { EndKeepsAccess(sys, i, answered, after); }
  }

  lemma CallKeepsInv(sys: System, i: nat, after: System)
    requires Inv(sys) && i < |sys.requests| && Open(sys.requests[i])
    requires after == Moved(sys, i, NextStage(sys.requests[i].stage)).(store := Called(sys.store, sys.requests[i]))
    ensures Inv(after)
  {
    match sys.requests[i].stage
    case Revoking(token) => RevokeKeepsInv(sys, i, token, after);
    case Admitting => AdmitKeepsInv(sys, i, after);
    case Naming => NameKeepsInv(sys, i, after);
  }

  lemma SpentCodeIsUnheld(sys: System, code: nat, spent: System)
    requires Inv(sys) && code in sys.store.codes
        && spent == sys.(store := sys.store.(codes := sys.store.codes - {code}))
    ensures Inv(spent) && Unheld(spent, code, Admitting)
  {
    LosingKeepsInv(sys, spent);
  }

  lemma SpentTokenIsUnheld(sys: System, token: Token, spent: System)
    requires Inv(sys) && token in sys.store.refresh
        && spent == sys.(store := sys.store.(refresh := sys.store.refresh - {token}))
    ensures Inv(spent) && Unheld(spent, token.chain, Revoking(sys.store.refresh[token]))
  {
    LosingKeepsInv(sys, spent);
  }

  lemma ExchangeKeepsInv(sys: System, code: nat, ok: bool, after: System)
    requires Inv(sys) && (ok ==> code in sys.store.codes)
    requires var spent := sys.(store := sys.store.(codes := sys.store.codes - {code}));
      after == if ok then Minted(spent, code, Admitting) else spent
    ensures Inv(after)
  {
    var spent := sys.(store := sys.store.(codes := sys.store.codes - {code}));
    if ok {
      SpentCodeIsUnheld(sys, code, spent);
      MintKeepsInv(spent, code, Admitting, after);
    } else {
      LosingKeepsInv(sys, spent);
    }
  }

  lemma RefreshKeepsInv(sys: System, token: Token, names: Option<Token>, after: System)
    requires Inv(sys) && (names.Some? ==> token in sys.store.refresh && names.value == sys.store.refresh[token])
    requires var spent := sys.(store := sys.store.(refresh := sys.store.refresh - {token}));
      after == if names.Some? then Minted(spent, token.chain, Revoking(names.value)) else spent
    ensures Inv(after)
  {
    var spent := sys.(store := sys.store.(refresh := sys.store.refresh - {token}));
    if names.Some? {
      SpentTokenIsUnheld(sys, token, spent);
      MintKeepsInv(spent, token.chain, Revoking(names.value), after);
    } else {
      LosingKeepsInv(sys, spent);
    }
  }

  /** A request given up on: its last call was made or not. */
  lemma AbandonKeepsInv(sys: System, i: nat, made: bool, after: System)
    requires Inv(sys) && i < |sys.requests| && Open(sys.requests[i])
    requires after == Moved(sys, i, Ended(false)).(store := if made then Called(sys.store, sys.requests[i])
        else sys.store)
    ensures Inv(after)
  {
    if made {
      var called := Moved(sys, i, NextStage(sys.requests[i].stage)).(store := Called(sys.store, sys.requests[i]));
      CallKeepsInv(sys, i, called);
      EndKeepsInv(called, i, false, after);
    } else {
      EndKeepsInv(sys, i, false, after);
    }
  }

  lemma ActKeepsInv(sys: System, e: Event, after: System)
    requires Inv(sys) && Allowed(sys, e) && after == Acted(sys, e)
    ensures Inv(after)
  {
    match e
    case Authorize(_) => AuthorizeKeepsInv(sys, after);
    case Exchange(code, ok, _) => ExchangeKeepsInv(sys, code, ok, after);
    case Refresh(token, names, _) => RefreshKeepsInv(sys, token, names, after);
    case Advance(i, _) => CallKeepsInv(sys, i, after);
    case Abandon(i, t) => AbandonKeepsInv(sys, i, !Within(t, sys.store), after);
    case Resolve(_, _, _) =>
  }

  lemma StepKeepsInv(sys: System, e: Event)
    requires Inv(sys) && Allowed(sys, e)
    ensures Inv(Next(sys, e))
  {
    ActKeepsInv(sys, e, Acted(sys, e));
    LosingKeepsInv(Acted(sys, e), Next(sys, e));
  }

  // ---------------------------------------------------------------- runs

  predicate Possible(run: seq<Event>)
    decreases |run|, 0
  {
    run == [] || (Possible(run[..|run| - 1]) && Allowed(After(run[..|run| - 1]), run[|run| - 1]))
  }

  function After(run: seq<Event>): System
    requires Possible(run)
    decreases |run|, 1
  {
    if run == [] then START else Next(After(run[..|run| - 1]), run[|run| - 1])
  }

  lemma {:induction false} RunKeepsInv(run: seq<Event>)
    requires Possible(run)
    ensures Inv(After(run))
  {
    if run != [] {
      RunKeepsInv(run[..|run| - 1]);
      StepKeepsInv(After(run[..|run| - 1]), run[|run| - 1]);
    }
  }

  /** However requests interleave, a chain of refreshes has at most one live refresh token
      and at most one access token that still resolves, and the live refresh token names it. */
  lemma OneLivePair(run: seq<Event>, r: Token, q: Token, a: Token, b: Token)
    requires Possible(run) && r.chain == q.chain == a.chain == b.chain
    ensures var s := After(run).store;
      && (r in s.refresh && q in s.refresh ==> r == q)
      && (a in s.access && b in s.access ==> a == b)
      && (r in s.refresh && a in s.access ==> s.refresh[r] == a)
  {
    RunKeepsInv(run);
  }

  /** What is spent stays spent: a code authorized before, or a refresh token minted before,
      that is not in the store now. */
  ghost predicate CodeGone(sys: System, code: nat) { code < sys.nextCode && code !in sys.store.codes }

  ghost predicate TokenGone(sys: System, token: Token) {
    && token.serial < sys.nextSerial && token !in sys.store.refresh
    && forall i :: 0 <= i < |sys.requests| && Open(sys.requests[i]) ==> sys.requests[i].refresh != token
  }

  lemma StaysGone(sys: System, e: Event, code: nat, token: Token)
    requires Allowed(sys, e)
    ensures CodeGone(sys, code) ==> CodeGone(Next(sys, e), code)
    ensures TokenGone(sys, token) ==> TokenGone(Next(sys, e), token)
  {
  }

  /** The tokens of a request are its own. */
  ghost predicate Fresh(sys: System) {
    && (forall i :: 0 <= i < |sys.requests| ==> sys.requests[i].refresh.serial < sys.nextSerial)
    && (forall r :: r in sys.store.refresh ==> r.serial < sys.nextSerial)
    && (forall i, j :: 0 <= i < j < |sys.requests| ==> sys.requests[i].refresh != sys.requests[j].refresh)
    && (forall i :: 0 <= i < |sys.requests| && Open(sys.requests[i]) ==> sys.requests[i].refresh !in sys.store.refresh)
  }

  lemma StepKeepsFresh(sys: System, e: Event, after: System)
    requires Fresh(sys) && Allowed(sys, e) && after == Next(sys, e)
    ensures Fresh(after)
  {
  }

  lemma {:induction false} RunKeepsFresh(run: seq<Event>)
    requires Possible(run)
    ensures Fresh(After(run))
  {
    if run != [] {
      RunKeepsFresh(run[..|run| - 1]);
      StepKeepsFresh(After(run[..|run| - 1]), run[|run| - 1], After(run));
    }
  }

  lemma {:induction false} GoneForever(run: seq<Event>, i: nat, code: nat, token: Token)
    requires Possible(run) && i <= |run| && Possible(run[..i])
    ensures CodeGone(After(run[..i]), code) ==> CodeGone(After(run), code)
    ensures TokenGone(After(run[..i]), token) ==> TokenGone(After(run), token)
  {
    if i == |run| {
      assert run[..i] == run;
    } else {
      var init := run[..|run| - 1];
      assert init[..i] == run[..i];
      GoneForever(init, i, code, token);
      StaysGone(After(init), run[|run| - 1], code, token);
    }
  }

  lemma {:induction false} PrefixPossible(run: seq<Event>, i: nat)
    requires Possible(run) && i <= |run|
    ensures Possible(run[..i]) && (i < |run| ==> Allowed(After(run[..i]), run[i]))
    decreases |run|
  {
    if i < |run| {
      var init := run[..|run| - 1];
      if i < |run| - 1 { PrefixPossible(init, i); }
      assert init[..i] == run[..i];
    } else {
      assert run[..i] == run;
    }
  }

  lemma NextOf(run: seq<Event>, i: nat)
    requires Possible(run) && i < |run|
    ensures Possible(run[..i]) && Allowed(After(run[..i]), run[i])
    ensures Possible(run[..i + 1]) && After(run[..i + 1]) == Next(After(run[..i]), run[i])
  {
    PrefixPossible(run, i);
    PrefixPossible(run, i + 1);
    assert run[..i + 1][..i] == run[..i];
  }

  /** An authorization code buys at most one pair of tokens, whatever requests present it. */
  lemma OnePairPerCode(run: seq<Event>, i: nat, j: nat)
    requires Possible(run) && i < j < |run|
    requires run[i].Exchange? && run[i].ok && run[j].Exchange? && run[j].code == run[i].code
    ensures !run[j].ok
  {
    NextOf(run, i);
    NextOf(run, j);
    RunKeepsInv(run[..i]);
    var token := Token(0, 0);
    assert CodeGone(After(run[..i + 1]), run[i].code);
    assert run[..j][..i + 1] == run[..i + 1];
    GoneForever(run[..j], i + 1, run[i].code, token);
  }

  /** A refresh token is taken at most once. */
  lemma OneUsePerRefreshToken(run: seq<Event>, i: nat, j: nat)
    requires Possible(run) && i < j < |run|
    requires run[i].Refresh? && run[i].names.Some? && run[j].Refresh? && run[j].token == run[i].token
    ensures run[j].names.None?
  {
    NextOf(run, i);
    NextOf(run, j);
    RunKeepsFresh(run[..i]);
    assert TokenGone(After(run[..i + 1]), run[i].token);
    assert run[..j][..i + 1] == run[..i + 1];
    GoneForever(run[..j], i + 1, 0, run[i].token);
  }
}
