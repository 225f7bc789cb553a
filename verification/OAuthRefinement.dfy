/** Every call of the in-memory store is a call the protocol allows, with only expired or
    pushed-out entries lost beside it. */
module OAuthRefinement {
  import opened Wrappers
  import opened OAuthProtocol
  import opened OAuthState

  function Put<K(==)>(entries: Entries<K>, e: Entry<K>, clock: int): Entries<K> {
    Pruned(Without(entries, e.key) + [e], clock)
  }

  lemma PutStays<K>(entries: Entries<K>, e: Entry<K>, clock: int)
    requires e.expiresAt > clock
    ensures e in Put(entries, e, clock) && e in Pruned(Put(entries, e, clock), clock)
  {
    LastStays(Without(entries, e.key) + [e], clock);
    LastStays(Put(entries, e, clock), clock);
  }

  lemma NewNames(entries: Entries<Token>, e: Entry<Token>)
    requires Distinct(entries) && e in entries && e.names.Some?
    ensures e.key in NamesOf(entries) && NamesOf(entries)[e.key] == e.names.value
  {
    GetOf(entries, e);
  }

  lemma PutKeys<K>(entries: Entries<K>, e: Entry<K>, clock: int)
    requires Distinct(entries)
    ensures Distinct(Put(entries, e, clock)) && Keys(Put(entries, e, clock)) <= Keys(entries) + {e.key}
    ensures forall f :: f in Put(entries, e, clock) ==> f in entries || f == e
  {
    WithoutDistinct(entries, e.key);
    var longer := Without(entries, e.key) + [e];
    assert Distinct(longer) by {
      forall i | 0 <= i < |longer| - 1 ensures longer[i].key != e.key {
        assert longer[i] in Without(entries, e.key) && longer[i].key in Keys(Without(entries, e.key));
      }
    }
    PrunedFewer(longer, clock);
  }

  lemma RegisterCodeAllowed(s: State, code: nat, expiresAt: int, clock: int, after: State)
    requires Valid(s)
    requires var p := PrunedAll(s, clock); after == p.(codes := Put(p.codes, Entry(code, expiresAt, None), clock))
    ensures Valid(after) && Within(View(after), View(s).(codes := View(s).codes + {code}))
  {
    PrunedWithin(s, clock);
    PutKeys(PrunedAll(s, clock).codes, Entry(code, expiresAt, None), clock);
  }

  lemma ConsumeCodeAllowed(s: State, code: nat, now: int, after: State)
    requires Valid(s)
    requires var p := PrunedAll(s, now); after == p.(codes := Without(p.codes, code))
    ensures Valid(after) && Within(View(after), View(s).(codes := View(s).codes - {code}))
    ensures Get(PrunedAll(s, now).codes, code).Some? ==> code in View(s).codes
  {
    PrunedWithin(s, now);
    WithoutDistinct(PrunedAll(s, now).codes, code);
    GetIn(PrunedAll(s, now).codes, code);
  }

  lemma RegisterAccessAllowed(s: State, token: Token, expiresAt: int, clock: int, after: State)
    requires Valid(s)
    requires var p := PrunedAll(s, clock); after == p.(access := Put(p.access, Entry(token, expiresAt, None), clock))
    ensures Valid(after) && Within(View(after), View(s).(access := View(s).access + {token}))
  {
    PrunedWithin(s, clock);
    PutKeys(PrunedAll(s, clock).access, Entry(token, expiresAt, None), clock);
  }

  lemma RevokeAllowed(s: State, token: Token, after: State)
    requires Valid(s) && after == s.(access := Without(s.access, token))
    ensures Valid(after) && Within(View(after), View(s).(access := View(s).access - {token}))
  {
    WithoutDistinct(s.access, token);
  }

  lemma ResolveAllowed(s: State, token: Token, now: int)
    requires Valid(s)
    ensures Valid(PrunedAll(s, now)) && Within(View(PrunedAll(s, now)), View(s))
    ensures Get(PrunedAll(s, now).access, token).Some? ==> token in View(s).access
  {
    PrunedWithin(s, now);
    GetIn(PrunedAll(s, now).access, token);
  }

  lemma RegisterRefreshAllowed(s: State, token: Token, names: Token, expiresAt: int, clock: int, after: State)
    requires Valid(s)
    requires var p := PrunedAll(s, clock); after == p.(refresh :=
        Put(p.refresh, Entry(token, expiresAt, Some(names)), clock))
    ensures Valid(after) && Within(View(after), View(s).(refresh := View(s).refresh[token := names]))
  {
    var p, e := PrunedAll(s, clock), Entry(token, expiresAt, Some(names));
    PrunedWithin(s, clock);
    PutKeys(p.refresh, e, clock);
    forall r | r in NamesOf(after.refresh)
      ensures r in View(s).refresh[token := names] && NamesOf(after.refresh)[r] == View(s).refresh[token := names][r]
    {
      PutNames(p.refresh, e, clock, r);
    }
  }

  lemma PutNames(entries: Entries<Token>, e: Entry<Token>, clock: int, r: Token)
    requires Distinct(entries) && e.names.Some? && r in NamesOf(Put(entries, e, clock))
    ensures r != e.key ==> r in NamesOf(entries) && NamesOf(Put(entries, e, clock))[r] == NamesOf(entries)[r]
    ensures r == e.key ==> NamesOf(Put(entries, e, clock))[r] == e.names.value
  {
    PutKeys(entries, e, clock);
    GetIn(Put(entries, e, clock), r);
    var f := Get(Put(entries, e, clock), r).value;
    PrunedIn(Without(entries, e.key) + [e], clock, f);
    WithoutIn(entries, e.key, f);
    if r != e.key { GetOf(entries, f); }
  }

  lemma ConsumeRefreshAllowed(s: State, token: Token, now: int, after: State)
    requires Valid(s)
    requires var p := PrunedAll(s, now); after == p.(refresh := Without(p.refresh, token))
    ensures Valid(after) && Within(View(after), View(s).(refresh := View(s).refresh - {token}))
    ensures Get(PrunedAll(s, now).refresh, token).Some? ==>
      token in View(s).refresh && Get(PrunedAll(s, now).refresh, token).value.names == Some(View(s).refresh[token])
  {
    var p := PrunedAll(s, now);
    PrunedWithin(s, now);
    WithoutDistinct(p.refresh, token);
    FewerNames(Without(p.refresh, token), p.refresh);
    GetIn(p.refresh, token);
  }
}
