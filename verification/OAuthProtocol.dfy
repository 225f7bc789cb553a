/** Authorization codes and token rotation, with requests interleaved between their calls of
    the state store. */
module OAuthProtocol {
  import opened Wrappers

  /** A minted token, told apart by its serial number. `chain` is the authorization code it
      descends from. */
  datatype Token = Token(chain: nat, serial: nat)

  /** What the store still holds; entries may expire or be pushed out at any call. */
  datatype Store = Store(codes: set<nat>, access: set<Token>, refresh: map<Token, Token>)

  predicate Within(s: Store, t: Store) {
    s.codes <= t.codes && s.access <= t.access && s.refresh.Keys <= t.refresh.Keys &&
    forall r :: r in s.refresh ==> s.refresh[r] == t.refresh[r]
  }

  /** The store call a request makes next. A token exchange mints a pair and registers both;
      a refresh first revokes the access token it replaces. */
  datatype Stage = Revoking(token: Token) | Admitting | Naming | Ended(answered: bool)
  datatype Request = Request(access: Token, refresh: Token, stage: Stage)

  datatype System = System(nextCode: nat, nextSerial: nat, store: Store, requests: seq<Request>)

  const START := System(0, 0, Store({}, {}, map[]), [])

  /** One step: a call of the store by some request, with the store it leaves. */
  datatype Event =
    | Authorize(store: Store)
    | Exchange(code: nat, ok: bool, store: Store)
    | Refresh(token: Token, names: Option<Token>, store: Store)
    | Advance(i: nat, store: Store)
    | Abandon(i: nat, store: Store)
    | Resolve(token: Token, ok: bool, store: Store)

  /** The store after a request's next call, before anything expires. */
  function Called(s: Store, r: Request): Store {
    match r.stage
    case Revoking(token) => s.(access := s.access - {token})
    case Admitting => s.(access := s.access + {r.access})
    case Naming => s.(refresh := s.refresh[r.refresh := r.access])
    case Ended(_) => s
  }

  predicate Open(r: Request) { !r.stage.Ended? }

  /** A spent code or refresh token is gone from the store, whatever the answer; the answer
      is yes only for one that was there. A call that fails may or may not have happened. */
  predicate Allowed(sys: System, e: Event) {
    var s := sys.store;
    match e
    case Authorize(t) => Within(t, s.(codes := s.codes + {sys.nextCode}))
    case Exchange(code, ok, t) => (ok ==> code in s.codes) && Within(t, s.(codes := s.codes - {code}))
    case Refresh(token, names, t) =>
      && (names.Some? ==> token in s.refresh && names.value == s.refresh[token])
      && Within(t, s.(refresh := s.refresh - {token}))
    case Advance(i, t) => i < |sys.requests| && Open(sys.requests[i]) && Within(t, Called(s, sys.requests[i]))
    case Abandon(i, t) =>
      && i < |sys.requests| && Open(sys.requests[i])
      && (Within(t, s) || Within(t, Called(s, sys.requests[i])))
    case Resolve(token, ok, t) => (ok ==> token in s.access) && Within(t, s)
  }

  function NextStage(stage: Stage): Stage {
    match stage
    case Revoking(_) => Admitting
    case Admitting => Naming
    case Naming => Ended(true)
    case Ended(_) => stage
  }

  /** A request that mints its pair of tokens for a chain. */
  function Minted(sys: System, chain: nat, stage: Stage): System {
    sys.(nextSerial := sys.nextSerial + 2,
         requests := sys.requests + [Request(Token(chain, sys.nextSerial), Token(chain, sys.nextSerial + 1), stage)])
  }

  function Moved(sys: System, i: nat, stage: Stage): System
    requires i < |sys.requests|
  {
    sys.(requests := sys.requests[i := sys.requests[i].(stage := stage)])
  }

  /** The step itself, before anything else expires. */
  function Acted(sys: System, e: Event): System
    requires Allowed(sys, e)
  {
    var s := sys.store;
    match e
    case Authorize(_) => sys.(nextCode := sys.nextCode + 1, store := s.(codes := s.codes + {sys.nextCode}))
    case Exchange(code, ok, _) =>
      var spent := sys.(store := s.(codes := s.codes - {code}));
      if ok then Minted(spent, code, Admitting) else spent
    case Refresh(token, names, _) =>
      var spent := sys.(store := s.(refresh := s.refresh - {token}));
      if names.Some? then Minted(spent, token.chain, Revoking(names.value)) else spent
    case Advance(i, _) => Moved(sys, i, NextStage(sys.requests[i].stage)).(store := Called(s, sys.requests[i]))
    case Abandon(i, t) =>
      Moved(sys, i, Ended(false)).(store := if Within(t, s) then s else Called(s, sys.requests[i]))
    case Resolve(_, _, _) => sys
  }

  function Next(sys: System, e: Event): System
    requires Allowed(sys, e)
  {
    Acted(sys, e).(store := e.store)
  }

  // ---------------------------------------------------------------- the invariant

  /** Codes and chains were authorized, and a request's pair belongs to one chain. */
  ghost predicate AllKnown(sys: System) {
    && (forall c :: c in sys.store.codes ==> c < sys.nextCode)
    && (forall a :: a in sys.store.access ==> a.chain < sys.nextCode)
    && (forall r :: r in sys.store.refresh ==> r.chain < sys.nextCode)
    && (forall i :: 0 <= i < |sys.requests| ==>
          sys.requests[i].access.chain == sys.requests[i].refresh.chain < sys.nextCode)
  }

  /** A chain is held by its code, by one live refresh token, or by one open request. */
  ghost predicate OneHolder(sys: System) {
    && (forall r, q :: r in sys.store.refresh && q in sys.store.refresh && r.chain == q.chain ==> r == q)
    && (forall i, j :: 0 <= i < j < |sys.requests| && Open(sys.requests[i]) && Open(sys.requests[j]) ==>
          sys.requests[i].access.chain != sys.requests[j].access.chain)
    && (forall i, r :: 0 <= i < |sys.requests| && Open(sys.requests[i]) && r in sys.store.refresh ==>
          sys.requests[i].access.chain != r.chain)
  }

  /** While a chain's code is unspent, nothing descends from it. */
  ghost predicate CodesUnspent(sys: System) {
    && (forall a :: a in sys.store.access ==> a.chain !in sys.store.codes)
    && (forall r :: r in sys.store.refresh ==> r.chain !in sys.store.codes)
    && (forall i :: 0 <= i < |sys.requests| ==> sys.requests[i].access.chain !in sys.store.codes)
  }

  /** The access token an open request leaves its chain. */
  predicate Stands(r: Request, a: Token) {
    match r.stage
    case Revoking(token) => a == token
    case Admitting => false
    case _ => a == r.access
  }

  /** Of each chain at most one access token is live, and only the one its holder stands for. */
  ghost predicate OneAccess(sys: System) {
    && (forall a, b :: a in sys.store.access && b in sys.store.access && a.chain == b.chain ==> a == b)
    && (forall a, r :: a in sys.store.access && r in sys.store.refresh && a.chain == r.chain ==>
      sys.store.refresh[r] == a)
    && (forall a, i :: a in sys.store.access && 0 <= i < |sys.requests| && Open(sys.requests[i]) ==>
          a.chain == sys.requests[i].access.chain ==> Stands(sys.requests[i], a))
  }

  ghost predicate Inv(sys: System) {
    AllKnown(sys) && OneHolder(sys) && CodesUnspent(sys) && OneAccess(sys)
  }
}
