/** Browser sessions and token refresh: the store as a class, the refresh protocol as interleaved steps. */
module Sessions {
  import opened Runs
  import opened Wrappers

  type Id = nat

  /** Instants and durations, in nanoseconds. */
  type Time = nat

  const SECOND: nat := 1_000_000_000
  const SESSION_TTL: nat := 8 * 60 * 60 * SECOND
  const REFRESH_SKEW: nat := 60 * SECOND
  const MAX_SESSIONS: nat := 100_000

  // ----- the session store -----

  function Retained(inner: map<Id, Time>, now: Time): map<Id, Time> {
    map id | id in inner && inner[id] > now :: inner[id]
  }

  function Inserted(inner: map<Id, Time>, id: Id, now: Time): map<Id, Time> {
    var kept := Retained(inner, now);
    if |kept| >= MAX_SESSIONS then kept else kept[id := now + SESSION_TTL]
  }

  function AfterFind(inner: map<Id, Time>, id: Id, now: Time): map<Id, Time> {
    if id in inner && inner[id] <= now then inner - {id} else inner
  }

  /** Session id to deadline; the credentials behind an id are the protocol's cells below. */
  class SessionStore {
    var inner: map<Id, Time>

    ghost predicate Valid()
      reads this
    {
      |inner| <= MAX_SESSIONS
    }

    constructor ()
      ensures Valid() && inner == map[]
    {
      inner := map[];
    }

    /** `id` is drawn at random: it is no session's id yet. */
    method Insert(id: Id, now: Time) returns (ok: bool)
      requires Valid() && id !in inner
      modifies this
      ensures Valid() && inner == Inserted(old(inner), id, now)
      ensures ok <==> id in inner
      ensures ok ==> inner[id] == now + SESSION_TTL
      ensures forall k :: k in inner && k != id ==> k in old(inner) && inner[k] == old(inner)[k] > now
    {
      RetainedIsSmaller(inner, now);
      inner := Retained(inner, now);
      if |inner| >= MAX_SESSIONS {
        return false;
      }
      inner := inner[id := now + SESSION_TTL];
      return true;
    }

    method Find(id: Id, now: Time) returns (found: bool)
      requires Valid()
      modifies this
      ensures Valid() && inner == AfterFind(old(inner), id, now)
      ensures found <==> id in old(inner) && now < old(inner)[id]
    {
      if id in inner && inner[id] <= now {
        ShrinkKeepsBound(inner, id);
        inner := inner - {id};
      }
      found := id in inner;
    }

    method Remove(id: Id)
      requires Valid()
      modifies this
      ensures Valid() && inner == old(inner) - {id}
    {
      ShrinkKeepsBound(inner, id);
      inner := inner - {id};
    }
  }

  lemma ShrinkKeepsBound(m: map<Id, Time>, id: Id)
    ensures |m - {id}| <= |m|
  {
    assert (m - {id}).Keys == m.Keys - {id};
  }

  lemma {:induction false} RetainedIsSmaller(m: map<Id, Time>, now: Time)
    ensures |Retained(m, now)| <= |m|
  {
    SubsetIsSmaller(Retained(m, now).Keys, m.Keys);
  }

  lemma {:induction false} SubsetIsSmaller(a: set<Id>, b: set<Id>)
    requires a <= b
    ensures |a| <= |b|
  {
    if a != {} {
      var x :| x in a;
      SubsetIsSmaller(a - {x}, b - {x});
    }
  }

  // ----- tokens and credentials -----

  /** A token response: an access token and its lifetime, and an ID token and a refresh token or none. A rotating
      provider sends a new refresh token, another one sends none or the old one back. */
  datatype Response = Response(access: nat, idToken: Option<nat>, refresh: Option<nat>, lifetime: nat)

  datatype TokenSet = TokenSet(access: nat, idToken: Option<nat>, refresh: Option<nat>)

  /** The tokens to keep: those the response carries, and the ones already held where it carries none. */
  function FromResponse(r: Response, previous: Option<TokenSet>): TokenSet {
    TokenSet(
      r.access,
      if r.idToken.Some? then r.idToken else if previous.Some? then previous.value.idToken else None,
      if r.refresh.Some? then r.refresh else if previous.Some? then previous.value.refresh else None)
  }

  /** The tokens kept after a sign-in and any number of refreshes. */
  ghost function Kept(responses: seq<Response>): TokenSet
    requires responses != []
  {
    var last, earlier := responses[|responses| - 1], responses[..|responses| - 1];
    FromResponse(last, if earlier == [] then None else Some(Kept(earlier)))
  }

  /** The value the last response that sent one sent; none when none did. */
  ghost predicate LastSent(value: Option<nat>, sent: seq<Option<nat>>) {
    if value.None? then forall i :: 0 <= i < |sent| ==> sent[i].None?
    else exists i :: 0 <= i < |sent| && sent[i] == value && forall j :: i < j < |sent| ==> sent[j].None?
  }

  ghost function RefreshTokens(responses: seq<Response>): seq<Option<nat>> {
    seq(|responses|, i requires 0 <= i < |responses| => responses[i].refresh)
  }

  ghost function IdTokens(responses: seq<Response>): seq<Option<nat>> {
    seq(|responses|, i requires 0 <= i < |responses| => responses[i].idToken)
  }

  lemma LastSentStep(value: Option<nat>, sent: seq<Option<nat>>, next: Option<nat>)
    requires LastSent(value, sent)
    ensures LastSent(if next.Some? then next else value, sent + [next])
  {
    var all := sent + [next];
    if next.Some? {
      assert all[|sent|] == next;
    } else if value.Some? {
      var i :| 0 <= i < |sent| && sent[i] == value && forall j :: i < j < |sent| ==> sent[j].None?;
      assert all[i] == value;
    }
  }

  /** Whatever the responses omit: the access token kept is the last one, and the refresh token and the ID
      token kept are each the last one that was sent. */
  lemma {:induction false} LatestTokensAreKept(responses: seq<Response>)
    requires responses != []
    ensures Kept(responses).access == responses[|responses| - 1].access
    ensures LastSent(Kept(responses).refresh, RefreshTokens(responses))
    ensures LastSent(Kept(responses).idToken, IdTokens(responses))
  {
    var last, earlier := responses[|responses| - 1], responses[..|responses| - 1];
    assert RefreshTokens(responses) == RefreshTokens(earlier) + [last.refresh];
    assert IdTokens(responses) == IdTokens(earlier) + [last.idToken];
    if earlier == [] {
      LastSentStep(None, RefreshTokens(earlier), last.refresh);
      LastSentStep(None, IdTokens(earlier), last.idToken);
    } else {
      LatestTokensAreKept(earlier);
      LastSentStep(Kept(earlier).refresh, RefreshTokens(earlier), last.refresh);
      LastSentStep(Kept(earlier).idToken, IdTokens(earlier), last.idToken);
    }
  }

  /** Who a verified token speaks for, and the access token of the response it came in. */
  datatype Identity = Identity(sub: nat, access: nat)

  datatype Credentials = Credentials(identity: Identity, tokens: TokenSet, expiresAt: Time, lifetime: nat)

  function Min(a: nat, b: nat): nat {
    if a < b then a else b
  }

  function RefreshWindow(lifetime: nat): nat {
    Min(REFRESH_SKEW, lifetime / 2)
  }

  predicate NeedsRefresh(c: Credentials, now: Time) {
    (if c.expiresAt > now then c.expiresAt - now else 0) <= RefreshWindow(c.lifetime)
  }

  // ----- the protocol -----

  /** One session behind its shared pointer. `refreshedAt` is when the tokens were last replaced, `taken` the
      responses they were taken from. */
  datatype Cell = Cell(deadline: Time, creds: Credentials, holder: Option<nat>, refreshedAt: Time, taken: seq<Response>)

  /** Where a request stands. From `Locked` to `Ready` it holds the session's lock. */
  datatype Request =
    | Waiting(id: Id)
    | Locked(id: Id)
    | Exchanging(id: Id, presented: nat, checkedAt: Time)
    | Answered(id: Id, answer: Response)
    | Verified(id: Id, answer: Response, identity: Identity)
    | TokensNext(id: Id, answer: Response)
    | ExpiryNext(id: Id, answer: Response)
    | Ready(id: Id, checkedAt: Time, refreshed: bool)
    | Served(identity: Identity, access: nat, checkedAt: Time, refreshed: bool, expiresAt: Time, lifetime: nat)
    | RemoveNext(id: Id)
    | Refused

  /** One call of the token endpoint, and at that moment: whether the token had been spent, whether the
      session had lost a token that replaced it, and whether any attempt on the session had failed. */
  datatype Presentation = Presentation(id: Id, spentBefore: bool, lostBefore: bool, failedBefore: bool)

  datatype State = State(
    now: Time,
    store: map<Id, Time>,
    cells: map<Id, Cell>,
    requests: map<nat, Request>,
    issuedTo: map<nat, Id>,
    spent: set<nat>,
    failed: set<Id>,
    lost: set<Id>,
    gone: set<Id>,
    log: seq<Presentation>)

  const INITIAL := State(0, map[], map[], map[], map[], {}, {}, {}, {}, [])

  /** `Abandon`: the provider's discovery fails before anything is sent, or the answer does not verify. */
  datatype Step =
    | Tick(d: nat)
    | Login(id: Id, sub: nat, answer: Response)
    | Logout(id: Id)
    | Find(req: nat, id: Id)
    | Lock(req: nat)
    | Check(req: nat)
    | Exchange(req: nat, answer: Response)
    | ExchangeFails(req: nat, consumed: bool)
    | Verify(req: nat, sub: nat)
    | Abandon(req: nat)
    | CommitIdentity(req: nat)
    | CommitTokens(req: nat)
    | CommitExpiry(req: nat)
    | Serve(req: nat)
    | RemoveFailed(req: nat)

  predicate HoldsLock(r: Request) {
    r.Locked? || r.Exchanging? || r.Answered? || r.Verified? || r.TokensNext? || r.ExpiryNext? || r.Ready?
  }

  function WithRequest(s: State, req: nat, r: Request): State {
    s.(requests := s.requests[req := r])
  }

  function WithCell(s: State, id: Id, c: Cell): State {
    s.(cells := s.cells[id := c])
  }

  /** The refresh token of a response is one never issued before, or the one presented, sent back. */
  predicate ProperToken(s: State, refresh: Option<nat>, presented: Option<nat>) {
    refresh.Some? ==> refresh.value !in s.issuedTo || refresh == presented
  }

  /** A response whose refresh token replaces the stored one: the provider has spent that one. */
  predicate Rotates(r: Response, stored: Option<nat>) {
    r.refresh.Some? && r.refresh != stored
  }

  function Issue(s: State, refresh: Option<nat>, id: Id): map<nat, Id> {
    if refresh.Some? then s.issuedTo[refresh.value := id] else s.issuedTo
  }

  /** The attempt ends without touching the credentials: the lock is dropped, removal comes next. */
  function FailAttempt(s: State, req: nat, id: Id): State
    requires id in s.cells
  {
    WithRequest(WithCell(s, id, s.cells[id].(holder := None)), req, RemoveNext(id)).(failed := s.failed + {id})
  }

  predicate Enabled(s: State, step: Step) {
    match step
    case Tick(_) => true
    case Login(id, _, answer) => id !in s.cells && ProperToken(s, answer.refresh, None)
    case Logout(_) => true
    case Find(req, _) => req !in s.requests
    case Lock(req) => req in s.requests && s.requests[req].Waiting? && s.requests[req].id in s.cells
      && s.cells[s.requests[req].id].holder.None?
    case Check(req) => req in s.requests && s.requests[req].Locked? && s.requests[req].id in s.cells
    case Exchange(req, answer) => req in s.requests && s.requests[req].Exchanging?
      && ProperToken(s, answer.refresh, Some(s.requests[req].presented))
      && s.requests[req].presented !in s.spent && s.requests[req].id in s.cells
    case ExchangeFails(req, _) => req in s.requests && s.requests[req].Exchanging? && s.requests[req].id in s.cells
    case Verify(req, _) => req in s.requests && s.requests[req].Answered?
    case Abandon(req) => req in s.requests && (s.requests[req].Exchanging? || s.requests[req].Answered?) && s.requests[req].id in s.cells
    case CommitIdentity(req) => req in s.requests && s.requests[req].Verified? && s.requests[req].id in s.cells
    case CommitTokens(req) => req in s.requests && s.requests[req].TokensNext? && s.requests[req].id in s.cells
    case CommitExpiry(req) => req in s.requests && s.requests[req].ExpiryNext? && s.requests[req].id in s.cells
    case Serve(req) => req in s.requests && s.requests[req].Ready? && s.requests[req].id in s.cells
    case RemoveFailed(req) => req in s.requests && s.requests[req].RemoveNext?
  }

  function DoLogin(s: State, id: Id, sub: nat, answer: Response): State {
    var store := Inserted(s.store, id, s.now);
    if id !in store then s.(store := store)
    else
      var creds := Credentials(Identity(sub, answer.access), FromResponse(answer, None), s.now + answer.lifetime, answer.lifetime);
      s.(store := store, cells := s.cells[id := Cell(s.now + SESSION_TTL, creds, None, s.now, [answer])],
         issuedTo := Issue(s, answer.refresh, id))
  }

  function DoFind(s: State, req: nat, id: Id): State {
    var store := AfterFind(s.store, id, s.now);
    WithRequest(s.(store := store, gone := if id in s.store && id !in store then s.gone + {id} else s.gone),
                req, if id in store then Waiting(id) else Refused)
  }

  /** Whether a refresh is due is decided under the lock; without a refresh token the attempt fails at once. */
  function DoCheck(s: State, req: nat, id: Id): State
    requires id in s.cells
  {
    var creds := s.cells[id].creds;
    if !NeedsRefresh(creds, s.now) then WithRequest(s, req, Ready(id, s.now, false))
    else if creds.tokens.refresh.None? then FailAttempt(s, req, id)
    else WithRequest(s, req, Exchanging(id, creds.tokens.refresh.value, s.now))
  }

  function Present(s: State, id: Id, token: nat): seq<Presentation> {
    s.log + [Presentation(id, token in s.spent, id in s.lost, id in s.failed)]
  }

  /** The provider accepts a token it has not seen spent; sending another one spends it. */
  function DoExchange(s: State, req: nat, r: Request, answer: Response): State
    requires r.Exchanging?
  {
    WithRequest(s, req, Answered(r.id, answer))
      .(issuedTo := Issue(s, answer.refresh, r.id),
        spent := if Rotates(answer, Some(r.presented)) then s.spent + {r.presented} else s.spent,
        log := Present(s, r.id, r.presented))
  }

  function Do(s: State, step: Step): State
    requires Enabled(s, step)
  {
    match step
    case Tick(d) => s.(now := s.now + d)
    case Login(id, sub, answer) => DoLogin(s, id, sub, answer)
    case Logout(id) => s.(store := s.store - {id}, gone := if id in s.store then s.gone + {id} else s.gone)
    case Find(req, id) => DoFind(s, req, id)
    case Lock(req) =>
      var id := s.requests[req].id;
      WithRequest(WithCell(s, id, s.cells[id].(holder := Some(req))), req, Locked(id))
    case Check(req) => DoCheck(s, req, s.requests[req].id)
    case Exchange(req, answer) => DoExchange(s, req, s.requests[req], answer)
    case ExchangeFails(req, consumed) =>
      var r := s.requests[req];
      FailAttempt(s, req, r.id).(spent := if consumed then s.spent + {r.presented} else s.spent,
                                 lost := if consumed then s.lost + {r.id} else s.lost,
                                 log := Present(s, r.id, r.presented))
    case Verify(req, sub) =>
      var r := s.requests[req];
      WithRequest(s, req, Verified(r.id, r.answer, Identity(sub, r.answer.access)))
    case Abandon(req) =>
      var r := s.requests[req];
      FailAttempt(s, req, r.id)
        .(lost := if r.Answered? && Rotates(r.answer, s.cells[r.id].creds.tokens.refresh) then s.lost + {r.id} else s.lost)
    case CommitIdentity(req) =>
      var r := s.requests[req];
      var c := s.cells[r.id];
      WithRequest(WithCell(s, r.id, c.(creds := c.creds.(identity := r.identity))), req, TokensNext(r.id, r.answer))
    case CommitTokens(req) =>
      var r := s.requests[req];
      var c := s.cells[r.id];
      var tokens := FromResponse(r.answer, Some(c.creds.tokens));
      WithRequest(WithCell(s, r.id, c.(creds := c.creds.(tokens := tokens), taken := c.taken + [r.answer])),
                  req, ExpiryNext(r.id, r.answer))
    case CommitExpiry(req) =>
      var r := s.requests[req];
      var c := s.cells[r.id];
      var creds := c.creds.(expiresAt := s.now + r.answer.lifetime, lifetime := r.answer.lifetime);
      WithRequest(WithCell(s, r.id, c.(creds := creds, refreshedAt := s.now)), req, Ready(r.id, s.now, true))
    case Serve(req) =>
      var r := s.requests[req];
      var c := s.cells[r.id];
      WithRequest(WithCell(s, r.id, c.(holder := None)), req,
                  Served(c.creds.identity, c.creds.tokens.access, r.checkedAt, r.refreshed, c.creds.expiresAt, c.creds.lifetime))
    case RemoveFailed(req) =>
      var id := s.requests[req].id;
      WithRequest(s.(store := s.store - {id}, gone := s.gone + {id}), req, Refused)
  }

  // ----- the invariant -----

  /** The request that holds the lock, or one that holds none. */
  function Holder(s: State, c: Cell): Request {
    if c.holder.Some? && c.holder.value in s.requests then s.requests[c.holder.value] else Refused
  }

  /** A token response is in hand but its tokens are not stored yet. */
  predicate InHand(r: Request) {
    r.Answered? || r.Verified? || r.TokensNext?
  }

  /** Identity and access token come from one response, except between the two writes of a commit. */
  predicate Together(s: State, c: Cell) {
    var r := Holder(s, c);
    match r
    case Verified(_, answer, identity) => identity.access == answer.access && c.creds.identity.access == c.creds.tokens.access
    case TokensNext(_, answer) => c.creds.identity.access == answer.access
    case _ => c.creds.identity.access == c.creds.tokens.access
  }

  /** The stored refresh token belongs to this session, and it is spent exactly when the token that replaces it
      was lost or is in hand. A response is in hand only where nothing was lost, and its own token is unspent. */
  predicate Unspent(s: State, id: Id, c: Cell) {
    var r := Holder(s, c);
    var stored := c.creds.tokens.refresh;
    && (stored.Some? ==> stored.value in s.issuedTo && s.issuedTo[stored.value] == id)
    && (stored.Some? ==> (stored.value in s.spent <==> id in s.lost || (InHand(r) && Rotates(r.answer, stored))))
    && (stored.None? ==> id !in s.lost)
    && (InHand(r) ==> stored.Some? && id !in s.lost)
    && (InHand(r) && Rotates(r.answer, stored) ==>
          && r.answer.refresh.value in s.issuedTo && s.issuedTo[r.answer.refresh.value] == id
          && r.answer.refresh.value !in s.spent)
    && (r.Exchanging? ==> stored == Some(r.presented))
  }

  /** When the token was last replaced, and so when it may next be. */
  predicate Timed(s: State, c: Cell) {
    var r := Holder(s, c);
    && c.refreshedAt <= s.now
    && c.creds.expiresAt == c.refreshedAt + c.creds.lifetime
    && (r.Exchanging? ==> r.checkedAt <= s.now && NeedsRefresh(c.creds, r.checkedAt))
    && (r.Ready? && !r.refreshed ==> !NeedsRefresh(c.creds, r.checkedAt))
  }

  ghost predicate CellOk(s: State, id: Id, c: Cell) {
    && (c.holder.Some? ==> c.holder.value in s.requests && HoldsLock(Holder(s, c)) && Holder(s, c).id == id)
    && Together(s, c) && Unspent(s, id, c) && Timed(s, c)
    && (id in s.store ==> s.store[id] == c.deadline)
    && c.taken != [] && c.creds.tokens == Kept(c.taken)
  }

  predicate RequestOk(s: State, req: nat, r: Request) {
    && (HoldsLock(r) ==> r.id in s.cells && s.cells[r.id].holder == Some(req))
    && (r.Waiting? || r.RemoveNext? ==> r.id in s.cells)
    && (r.Served? ==> r.identity.access == r.access)
    && (r.Served? && !r.refreshed ==> r.expiresAt > r.checkedAt + RefreshWindow(r.lifetime))
  }

  /** A spent token is presented exactly where the token that replaced it has been lost. */
  predicate PresentedRight(p: Presentation) {
    (p.spentBefore <==> p.lostBefore) && (p.lostBefore ==> p.failedBefore)
  }

  ghost predicate Inv(s: State) {
    && (forall id :: id in s.cells ==> CellOk(s, id, s.cells[id]))
    && (forall req :: req in s.requests ==> RequestOk(s, req, s.requests[req]))
    && s.store.Keys <= s.cells.Keys
    && s.gone <= s.cells.Keys && s.gone !! s.store.Keys
    && |s.store| <= MAX_SESSIONS
    && s.spent <= s.issuedTo.Keys
    && s.lost <= s.failed && s.lost <= s.cells.Keys
    && (forall i :: 0 <= i < |s.log| ==> PresentedRight(s.log[i]))
  }

  /** What a step of one session leaves alone for the cell of another: its lock, its tokens, its deadline. */
  lemma CellFrame(s: State, t: State, k: Id, c: Cell)
    requires CellOk(s, k, c) && Holder(t, c) == Holder(s, c)
    requires c.holder.Some? ==> c.holder.value in t.requests
    requires s.now <= t.now
    requires k in t.store ==> k in s.store && t.store[k] == s.store[k]
    requires forall x :: x in s.issuedTo ==> x in t.issuedTo && t.issuedTo[x] == s.issuedTo[x]
    requires forall x :: x in s.issuedTo && s.issuedTo[x] == k ==> (x in t.spent <==> x in s.spent)
    requires k in t.lost <==> k in s.lost
    ensures CellOk(t, k, c)
  {
    hide Kept;
  }

  lemma OtherHolder(s: State, t: State, req: nat, id: Id, k: Id)
    requires Inv(s) && req in s.requests && k in s.cells && k != id
    requires (HoldsLock(s.requests[req]) || s.requests[req].Waiting?) && s.requests[req].id == id
    requires t.requests.Keys == s.requests.Keys && (forall q :: q in s.requests && q != req ==> t.requests[q] == s.requests[q])
    ensures Holder(t, s.cells[k]) == Holder(s, s.cells[k])
    ensures s.cells[k].holder.Some? ==> s.cells[k].holder.value in t.requests
  {
    hide Together, Unspent, Timed, Kept;
    assert CellOk(s, k, s.cells[k]);
  }

  /** A step of one request that holds its session's lock, or takes it: no other cell or request is touched. */
  lemma SessionStep(s: State, t: State, req: nat, id: Id, r: Request, c: Cell)
    requires Inv(s) && req in s.requests && id in s.cells
    requires HoldsLock(s.requests[req]) || (s.requests[req].Waiting? && s.cells[id].holder.None?)
    requires s.requests[req].id == id
    requires t.now == s.now && t.store.Keys <= s.store.Keys && (forall k :: k in t.store ==> t.store[k] == s.store[k])
    requires t.cells == s.cells[id := c] && t.requests == s.requests[req := r]
    requires (forall k :: k in s.issuedTo ==> k in t.issuedTo && t.issuedTo[k] == s.issuedTo[k])
    requires s.failed <= t.failed
    requires s.spent <= t.spent
    requires forall k :: k in t.spent && k !in s.spent ==> k in s.issuedTo && s.issuedTo[k] == id
    requires t.gone == s.gone && |t.store| <= MAX_SESSIONS
    requires s.lost <= t.lost <= s.lost + {id} && t.lost <= t.failed
    requires forall i :: 0 <= i < |t.log| ==> PresentedRight(t.log[i])
    requires CellOk(t, id, c) && RequestOk(t, req, r)
    ensures Inv(t)
  {
    hide CellOk, PresentedRight;
    assert RequestOk(s, req, s.requests[req]);
    forall k | k in s.cells && k != id
      ensures CellOk(t, k, s.cells[k])
    {
      OtherHolder(s, t, req, id, k);
      CellFrame(s, t, k, s.cells[k]);
    }
    forall q | q in t.requests
      ensures RequestOk(t, q, t.requests[q])
    {
      if q != req {
        assert RequestOk(s, q, s.requests[q]);
      }
    }
  }

  lemma LockKeeps(s: State, req: nat)
    requires Inv(s) && Enabled(s, Lock(req))
    ensures Inv(Do(s, Lock(req)))
  {
    var t, id := Do(s, Lock(req)), s.requests[req].id;
    assert CellOk(s, id, s.cells[id]);
    SessionStep(s, t, req, id, t.requests[req], t.cells[id]);
  }

  lemma CheckCell(s: State, req: nat)
    requires Inv(s) && Enabled(s, Check(req))
    ensures HoldsLock(s.requests[req]) && s.requests[req].id in s.cells
    ensures CellOk(Do(s, Check(req)), s.requests[req].id, Do(s, Check(req)).cells[s.requests[req].id])
    ensures RequestOk(Do(s, Check(req)), req, Do(s, Check(req)).requests[req])
  {
    var t, id := Do(s, Check(req)), s.requests[req].id;
    assert RequestOk(s, req, s.requests[req]);
    assert CellOk(s, id, s.cells[id]);
    var creds := s.cells[id].creds;
    if NeedsRefresh(creds, s.now) && creds.tokens.refresh.None? {
      assert Holder(t, t.cells[id]) == Refused;
    } else {
      assert Holder(t, t.cells[id]) == t.requests[req];
    }
  }

  /** A step of the lock's holder, or of a request that takes it, that touches its own request and cell alone. */
  lemma MoveKeeps(s: State, t: State, req: nat, id: Id, r: Request, c: Cell)
    requires Inv(s) && req in s.requests && id in s.cells
    requires HoldsLock(s.requests[req]) || (s.requests[req].Waiting? && s.cells[id].holder.None?)
    requires s.requests[req].id == id
    requires t == WithRequest(WithCell(s, id, c), req, r)
    requires CellOk(t, id, c) && RequestOk(t, req, r)
    ensures Inv(t)
  {
    hide CellOk, RequestOk, PresentedRight;
    SessionStep(s, t, req, id, r, c);
  }

  lemma FailKeeps(s: State, req: nat, id: Id)
    requires Inv(s) && req in s.requests && HoldsLock(s.requests[req]) && s.requests[req].id == id && id in s.cells
    requires var t := FailAttempt(s, req, id); CellOk(t, id, t.cells[id]) && RequestOk(t, req, t.requests[req])
    ensures Inv(FailAttempt(s, req, id))
  {
    hide CellOk, RequestOk, PresentedRight;
    var t := FailAttempt(s, req, id);
    SessionStep(s, t, req, id, t.requests[req], t.cells[id]);
  }

  lemma CheckKeeps(s: State, req: nat)
    requires Inv(s) && Enabled(s, Check(req))
    ensures Inv(Do(s, Check(req)))
  {
    CheckCell(s, req);
    var t, id := DoCheck(s, req, s.requests[req].id), s.requests[req].id;
    assert Do(s, Check(req)) == t;
    hide Inv, Do, CellOk, RequestOk, NeedsRefresh;
    if t == FailAttempt(s, req, id) {
      FailKeeps(s, req, id);
    } else {
      assert t.cells == s.cells[id := s.cells[id]];
      MoveKeeps(s, t, req, id, t.requests[req], s.cells[id]);
    }
  }

  /** Presenting the stored token outside an answer: it is spent exactly where a token was lost. */
  lemma PresentedNow(s: State, req: nat)
    requires Inv(s) && req in s.requests && s.requests[req].Exchanging?
    ensures var r := s.requests[req];
      PresentedRight(Presentation(r.id, r.presented in s.spent, r.id in s.lost, r.id in s.failed))
      && r.presented in s.issuedTo && s.issuedTo[r.presented] == r.id
  {
    var r := s.requests[req];
    assert RequestOk(s, req, r);
    assert CellOk(s, r.id, s.cells[r.id]);
  }

  lemma ExchangeCell(s: State, req: nat, answer: Response)
    requires Inv(s) && Enabled(s, Exchange(req, answer))
    ensures HoldsLock(s.requests[req]) && s.requests[req].id in s.cells
    ensures CellOk(Do(s, Exchange(req, answer)), s.requests[req].id, Do(s, Exchange(req, answer)).cells[s.requests[req].id])
    ensures RequestOk(Do(s, Exchange(req, answer)), req, Do(s, Exchange(req, answer)).requests[req])
  {
    var t, id := Do(s, Exchange(req, answer)), s.requests[req].id;
    assert RequestOk(s, req, s.requests[req]);
    assert CellOk(s, id, s.cells[id]);
    assert Holder(t, t.cells[id]) == t.requests[req];
  }

  lemma ExchangeKeeps(s: State, req: nat, answer: Response)
    requires Inv(s) && Enabled(s, Exchange(req, answer))
    ensures Inv(Do(s, Exchange(req, answer)))
  {
    ExchangeCell(s, req, answer);
    hide CellOk, RequestOk, NeedsRefresh, FromResponse, Kept;
    var t, id := Do(s, Exchange(req, answer)), s.requests[req].id;
    assert t.cells == s.cells[id := t.cells[id]];
    PresentedNow(s, req);
    SessionStep(s, t, req, id, t.requests[req], t.cells[id]);
  }

  lemma ExchangeFailsCell(s: State, req: nat, consumed: bool)
    requires Inv(s) && Enabled(s, ExchangeFails(req, consumed))
    ensures HoldsLock(s.requests[req]) && s.requests[req].id in s.cells
    ensures CellOk(Do(s, ExchangeFails(req, consumed)), s.requests[req].id, Do(s, ExchangeFails(req, consumed)).cells[s.requests[req].id])
    ensures RequestOk(Do(s, ExchangeFails(req, consumed)), req, Do(s, ExchangeFails(req, consumed)).requests[req])
  {
    var t, id := Do(s, ExchangeFails(req, consumed)), s.requests[req].id;
    assert RequestOk(s, req, s.requests[req]);
    assert CellOk(s, id, s.cells[id]);
    assert Holder(t, t.cells[id]) == Refused;
  }

  lemma ExchangeFailsKeeps(s: State, req: nat, consumed: bool)
    requires Inv(s) && Enabled(s, ExchangeFails(req, consumed))
    ensures Inv(Do(s, ExchangeFails(req, consumed)))
  {
    ExchangeFailsCell(s, req, consumed);
    hide CellOk, RequestOk, NeedsRefresh, FromResponse, Kept;
    var t, id := Do(s, ExchangeFails(req, consumed)), s.requests[req].id;
    assert t.cells == s.cells[id := t.cells[id]];
    PresentedNow(s, req);
    SessionStep(s, t, req, id, t.requests[req], t.cells[id]);
  }

  lemma VerifyCell(s: State, req: nat, step: Step)
    requires Inv(s) && Enabled(s, step) && (step == Abandon(req) || (step.Verify? && step.req == req))
    ensures HoldsLock(s.requests[req]) && s.requests[req].id in s.cells
    ensures CellOk(Do(s, step), s.requests[req].id, Do(s, step).cells[s.requests[req].id])
    ensures RequestOk(Do(s, step), req, Do(s, step).requests[req])
  {
    var t, id := Do(s, step), s.requests[req].id;
    assert RequestOk(s, req, s.requests[req]);
    assert CellOk(s, id, s.cells[id]);
    assert Holder(t, t.cells[id]) == if step.Verify? then t.requests[req] else Refused;
  }

  lemma VerifyKeeps(s: State, req: nat, step: Step)
    requires Inv(s) && Enabled(s, step) && (step == Abandon(req) || (step.Verify? && step.req == req))
    ensures Inv(Do(s, step))
  {
    VerifyCell(s, req, step);
    hide CellOk, RequestOk, NeedsRefresh, FromResponse, Kept;
    var t, id := Do(s, step), s.requests[req].id;
    assert t.cells == s.cells[id := t.cells[id]];
    SessionStep(s, t, req, id, t.requests[req], t.cells[id]);
  }

  lemma CommitCell(s: State, req: nat, step: Step)
    requires Inv(s) && Enabled(s, step) && (step == CommitIdentity(req) || step == CommitTokens(req))
    ensures HoldsLock(s.requests[req]) && s.requests[req].id in s.cells
    ensures CellOk(Do(s, step), s.requests[req].id, Do(s, step).cells[s.requests[req].id])
    ensures RequestOk(Do(s, step), req, Do(s, step).requests[req])
  {
    var t, id := Do(s, step), s.requests[req].id;
    assert RequestOk(s, req, s.requests[req]);
    assert CellOk(s, id, s.cells[id]);
    assert Holder(t, t.cells[id]) == t.requests[req];
  }

  lemma CommitKeeps(s: State, req: nat, step: Step)
    requires Inv(s) && Enabled(s, step) && (step == CommitIdentity(req) || step == CommitTokens(req))
    ensures Inv(Do(s, step))
  {
    CommitCell(s, req, step);
    hide Inv, CellOk, RequestOk, NeedsRefresh, FromResponse, Kept;
    var t, id := Do(s, step), s.requests[req].id;
    assert t == WithRequest(WithCell(s, id, t.cells[id]), req, t.requests[req]);
    MoveKeeps(s, t, req, id, t.requests[req], t.cells[id]);
  }

  lemma ExpiryCell(s: State, req: nat)
    requires Inv(s) && Enabled(s, CommitExpiry(req))
    ensures HoldsLock(s.requests[req]) && s.requests[req].id in s.cells
    ensures CellOk(Do(s, CommitExpiry(req)), s.requests[req].id, Do(s, CommitExpiry(req)).cells[s.requests[req].id])
    ensures RequestOk(Do(s, CommitExpiry(req)), req, Do(s, CommitExpiry(req)).requests[req])
  {
    hide Kept;
    var t, id := Do(s, CommitExpiry(req)), s.requests[req].id;
    assert RequestOk(s, req, s.requests[req]);
    assert CellOk(s, id, s.cells[id]);
    assert Holder(t, t.cells[id]) == t.requests[req];
  }

  lemma ExpiryKeeps(s: State, req: nat)
    requires Inv(s) && Enabled(s, CommitExpiry(req))
    ensures Inv(Do(s, CommitExpiry(req)))
  {
    ExpiryCell(s, req);
    hide Inv, CellOk, RequestOk, NeedsRefresh, FromResponse, Kept;
    var t, id := Do(s, CommitExpiry(req)), s.requests[req].id;
    assert t == WithRequest(WithCell(s, id, t.cells[id]), req, t.requests[req]);
    MoveKeeps(s, t, req, id, t.requests[req], t.cells[id]);
  }

  /** The lock of a session with nothing under way is given back. */
  lemma FreedCell(s: State, t: State, id: Id, c: Cell)
    requires CellOk(s, id, c) && Holder(s, c).Ready?
    requires t == s.(requests := t.requests, cells := t.cells)
    ensures CellOk(t, id, c.(holder := None))
  {
    assert Holder(t, c.(holder := None)) == Refused;
  }

  lemma ServeCell(s: State, req: nat)
    requires Inv(s) && Enabled(s, Serve(req))
    ensures HoldsLock(s.requests[req]) && s.requests[req].id in s.cells
    ensures CellOk(Do(s, Serve(req)), s.requests[req].id, Do(s, Serve(req)).cells[s.requests[req].id])
  {
    hide Kept, NeedsRefresh;
    var t, id := Do(s, Serve(req)), s.requests[req].id;
    assert RequestOk(s, req, s.requests[req]);
    assert Holder(s, s.cells[id]) == s.requests[req];
    assert t.cells[id] == s.cells[id].(holder := None);
    FreedCell(s, t, id, s.cells[id]);
  }

  lemma ServeRequest(s: State, req: nat)
    requires Inv(s) && Enabled(s, Serve(req))
    ensures RequestOk(Do(s, Serve(req)), req, Do(s, Serve(req)).requests[req])
  {
    hide Kept, Unspent;
    assert RequestOk(s, req, s.requests[req]);
    assert CellOk(s, s.requests[req].id, s.cells[s.requests[req].id]);
  }

  lemma ServeKeeps(s: State, req: nat)
    requires Inv(s) && Enabled(s, Serve(req))
    ensures Inv(Do(s, Serve(req)))
  {
    ServeCell(s, req);
    ServeRequest(s, req);
    hide Inv, CellOk, RequestOk, NeedsRefresh, FromResponse, Kept;
    var t, id := Do(s, Serve(req)), s.requests[req].id;
    assert t == WithRequest(WithCell(s, id, t.cells[id]), req, t.requests[req]);
    MoveKeeps(s, t, req, id, t.requests[req], t.cells[id]);
  }

  lemma HolderStays(s: State, t: State, req: nat, k: Id)
    requires Inv(s) && k in s.cells && s.requests.Keys <= t.requests.Keys
    requires forall q :: q in s.requests && (q != req || HoldsLock(s.requests[q])) ==> t.requests[q] == s.requests[q]
    ensures Holder(t, s.cells[k]) == Holder(s, s.cells[k])
    ensures s.cells[k].holder.Some? ==> s.cells[k].holder.value in t.requests
  {
    hide Together, Unspent, Timed, Kept;
    assert CellOk(s, k, s.cells[k]);
  }

  /** Steps that touch no cell: cells and requests stay as they were, up to the new request. */
  lemma StoreStep(s: State, t: State, req: nat, r: Request)
    requires Inv(s)
    requires t == s.(now := t.now, store := t.store, gone := t.gone, requests := t.requests)
    requires t.now >= s.now && (forall k :: k in t.store ==> k in s.store && t.store[k] == s.store[k])
    requires t.requests == s.requests || (t.requests == s.requests[req := r] && !HoldsLock(r) && RequestOk(t, req, r))
    requires t.requests != s.requests && req in s.requests ==> !HoldsLock(s.requests[req])
    requires s.gone <= t.gone <= s.cells.Keys && t.gone !! t.store.Keys
    ensures Inv(t)
  {
    hide CellOk;
    forall k | k in t.cells
      ensures CellOk(t, k, t.cells[k])
    {
      HolderStays(s, t, req, k);
      CellFrame(s, t, k, s.cells[k]);
    }
    forall q | q in t.requests
      ensures RequestOk(t, q, t.requests[q])
    {
      if q in s.requests {
        assert RequestOk(s, q, s.requests[q]);
      }
    }
    SubsetIsSmaller(t.store.Keys, s.store.Keys);
  }

  lemma LoginStoreKeeps(s: State, id: Id)
    requires |s.store| <= MAX_SESSIONS && id !in s.store
    ensures var store := Inserted(s.store, id, s.now);
      && |store| <= MAX_SESSIONS
      && (forall k :: k in store && k != id ==> k in s.store && store[k] == s.store[k])
      && (id in store ==> store[id] == s.now + SESSION_TTL)
  {
    RetainedIsSmaller(s.store, s.now);
  }

  /** A step that only adds a cell. */
  lemma NewCell(s: State, t: State, id: Id, c: Cell)
    requires Inv(s) && id !in s.cells
    requires t == s.(store := t.store, cells := s.cells[id := c], issuedTo := t.issuedTo)
    requires forall k :: k in t.store && k != id ==> k in s.store && t.store[k] == s.store[k]
    requires forall k :: k in s.issuedTo ==> k in t.issuedTo && t.issuedTo[k] == s.issuedTo[k]
    requires |t.store| <= MAX_SESSIONS && CellOk(t, id, c)
    ensures Inv(t)
  {
    hide CellOk;
    forall k | k in s.cells
      ensures CellOk(t, k, s.cells[k])
    {
      HolderStays(s, t, 0, k);
      CellFrame(s, t, k, s.cells[k]);
    }
    forall q | q in t.requests
      ensures RequestOk(t, q, t.requests[q])
    {
      assert RequestOk(s, q, s.requests[q]);
    }
  }

  lemma LoginCell(s: State, t: State, id: Id, sub: nat, r: Response)
    requires Inv(s) && id !in s.cells && ProperToken(s, r.refresh, None)
    requires t.cells == s.cells[id := Cell(s.now + SESSION_TTL,
               Credentials(Identity(sub, r.access), FromResponse(r, None), s.now + r.lifetime, r.lifetime), None, s.now, [r])]
    requires t.now == s.now && t.requests == s.requests && t.spent == s.spent && t.lost == s.lost
    requires t.issuedTo == Issue(s, r.refresh, id) && (id in t.store ==> t.store[id] == s.now + SESSION_TTL)
    ensures CellOk(t, id, t.cells[id])
  {
    assert [r][..0] == [];
  }

  lemma LoginKeeps(s: State, step: Step)
    requires Inv(s) && step.Login? && Enabled(s, step)
    ensures Inv(Do(s, step))
  {
    hide CellOk, RequestOk, FromResponse;
    var t, id := Do(s, step), step.id;
    LoginStoreKeeps(s, id);
    if id !in t.store {
      StoreStep(s, t, 0, Refused);
    } else {
      LoginCell(s, t, id, step.sub, step.answer);
      NewCell(s, t, id, t.cells[id]);
    }
  }

  lemma FindKeeps(s: State, req: nat, id: Id)
    requires Inv(s) && Enabled(s, Find(req, id))
    ensures Inv(Do(s, Find(req, id)))
  {
    hide CellOk;
    assert id in s.store ==> id in s.cells;
    var t := Do(s, Find(req, id));
    StoreStep(s, t, req, t.requests[req]);
  }

  lemma RemoveKeeps(s: State, step: Step)
    requires Inv(s) && Enabled(s, step) && (step.Tick? || step.Logout? || step.RemoveFailed?)
    ensures Inv(Do(s, step))
  {
    hide CellOk;
    var t := Do(s, step);
    if step.RemoveFailed? {
      assert RequestOk(s, step.req, s.requests[step.req]);
      StoreStep(s, t, step.req, Refused);
    } else {
      StoreStep(s, t, 0, Refused);
    }
  }

  /** Every step of every interleaving keeps the invariant. */
  lemma StepKeeps(s: State, step: Step)
    requires Inv(s) && Enabled(s, step)
    ensures Inv(Do(s, step))
  {
    match step
    case Tick(_) => RemoveKeeps(s, step);
    case Login(_, _, _) => LoginKeeps(s, step);
    case Logout(_) => RemoveKeeps(s, step);
    case Find(req, id) => FindKeeps(s, req, id);
    case Lock(req) => LockKeeps(s, req);
    case Check(req) => CheckKeeps(s, req);
    case Exchange(req, answer) => ExchangeKeeps(s, req, answer);
    case ExchangeFails(req, consumed) => ExchangeFailsKeeps(s, req, consumed);
    case Verify(req, _) => VerifyKeeps(s, req, step);
    case Abandon(req) => VerifyKeeps(s, req, step);
    case CommitIdentity(req) => CommitKeeps(s, req, step);
    case CommitTokens(req) => CommitKeeps(s, req, step);
    case CommitExpiry(req) => ExpiryKeeps(s, req);
    case Serve(req) => ServeKeeps(s, req);
    case RemoveFailed(_) => RemoveKeeps(s, step);
  }

  // ----- whole runs -----

  ghost function Next(s: State, step: Step): Option<State> {
    if Enabled(s, step) then Some(Do(s, step)) else None
  }

  ghost predicate Reachable(s: State) {
    exists steps :: Run(Next, INITIAL, steps) == Some(s)
  }

  lemma EveryStepKeeps()
    ensures Runs.Kept(Next, Inv)
  {
    forall s, step | Inv(s) && Next(s, step).Some? ensures Inv(Next(s, step).value) {
      StepKeeps(s, step);
    }
  }

  lemma ReachableIsSound(s: State)
    requires Reachable(s)
    ensures Inv(s)
  {
    var steps :| Run(Next, INITIAL, steps) == Some(s);
    EveryStepKeeps();
    RunKeeps(Next, Inv, INITIAL, steps);
  }

  /** The identity and the access token a request gets come from one and the same token response. */
  lemma ServedFromOneResponse(s: State, req: nat)
    requires Reachable(s) && req in s.requests && s.requests[req].Served?
    ensures s.requests[req].identity.access == s.requests[req].access
  {
    ReachableIsSound(s);
    assert RequestOk(s, req, s.requests[req]);
  }

  // ----- every run, step by step: where what is served came from -----

  /** The answer that a request last got from the token endpoint. */
  ghost function AnswerTo(done: seq<Step>, q: nat): Option<Response> {
    if done == [] then None
    else
      var last := done[|done| - 1];
      if last.Exchange? && last.req == q then Some(last.answer) else AnswerTo(done[..|done| - 1], q)
  }

  /** The answers behind a session's tokens: the one of its sign-in, and the ones its requests have committed. */
  ghost function AnswersBehind(done: seq<Step>, id: Id): seq<Response> {
    if done == [] then []
    else
      var last, front := done[|done| - 1], done[..|done| - 1];
      if last.Login? && last.id == id then [last.answer]
      else if last.CommitTokens? && Find(last.req, id) in front && AnswerTo(front, last.req).Some? then
        AnswersBehind(front, id) + [AnswerTo(front, last.req).value]
      else AnswersBehind(front, id)
  }

  /** The sign-in, or a refresh by one of the session's requests, brought this subject with this access token. */
  ghost predicate Brought(done: seq<Step>, id: Id, who: Identity) {
    || (exists answer :: Login(id, who.sub, answer) in done && answer.access == who.access)
    || (exists q, answer :: RefreshedBy(done, id, q, who.sub, answer) && answer.access == who.access)
  }

  ghost predicate RefreshedBy(done: seq<Step>, id: Id, q: nat, sub: nat, answer: Response) {
    Find(q, id) in done && Exchange(q, answer) in done && Verify(q, sub) in done
  }

  ghost predicate RequestTraced(done: seq<Step>, q: nat, r: Request) {
    && (!r.Served? && !r.Refused? ==> Find(q, r.id) in done)
    && (InHand(r) ==> Exchange(q, r.answer) in done && AnswerTo(done, q) == Some(r.answer))
    && (r.Verified? ==> Verify(q, r.identity.sub) in done && r.identity.access == r.answer.access)
    && (r.Served? ==> exists id :: Find(q, id) in done && Brought(done, id, r.identity))
  }

  ghost predicate CellTraced(done: seq<Step>, id: Id, c: Cell) {
    Brought(done, id, c.creds.identity) && c.taken == AnswersBehind(done, id)
  }

  /** A request looks up one session, once. */
  ghost predicate OneSessionEach(s: State, done: seq<Step>) {
    && (forall q, id :: Find(q, id) in done ==> q in s.requests)
    && (forall q, j, k :: Find(q, j) in done && Find(q, k) in done ==> j == k)
  }

  ghost predicate TraceOk(s: State, done: seq<Step>) {
    && OneSessionEach(s, done)
    && (forall q :: q in s.requests ==> RequestTraced(done, q, s.requests[q]))
    && (forall id :: id in s.cells ==> CellTraced(done, id, s.cells[id]))
  }

  lemma BroughtStays(done: seq<Step>, a: Step, id: Id, who: Identity)
    requires Brought(done, id, who)
    ensures Brought(done + [a], id, who)
  {
    var more := done + [a];
    assert forall x :: x in done ==> x in more;
    if answer :| Login(id, who.sub, answer) in done && answer.access == who.access {
      assert Login(id, who.sub, answer) in more;
    } else {
      var q, answer :| RefreshedBy(done, id, q, who.sub, answer) && answer.access == who.access;
      assert RefreshedBy(more, id, q, who.sub, answer);
    }
  }

  /** A request that a step leaves alone. */
  lemma RequestStays(done: seq<Step>, a: Step, q: nat, r: Request)
    requires RequestTraced(done, q, r) && !(a.Exchange? && a.req == q)
    ensures RequestTraced(done + [a], q, r)
  {
    var more := done + [a];
    assert more[..|more| - 1] == done;
    assert forall x :: x in done ==> x in more;
    if r.Served? {
      var id :| Find(q, id) in done && Brought(done, id, r.identity);
      BroughtStays(done, a, id, r.identity);
      assert Find(q, id) in more;
    }
  }

  lemma CellStays(done: seq<Step>, a: Step, id: Id, c: Cell)
    requires CellTraced(done, id, c)
    requires !(a.Login? && a.id == id) && !(a.CommitTokens? && Find(a.req, id) in done)
    ensures CellTraced(done + [a], id, c)
  {
    assert (done + [a])[..|done + [a]| - 1] == done;
    BroughtStays(done, a, id, c.creds.identity);
  }

  lemma FindOnce(s: State, done: seq<Step>, a: Step)
    requires OneSessionEach(s, done) && Enabled(s, a)
    ensures OneSessionEach(Do(s, a), done + [a])
  {
    var t, more := Do(s, a), done + [a];
    RequestsStay(s, a);
    forall q, id | Find(q, id) in more ensures Find(q, id) in done || (a == Find(q, id) && q !in s.requests) {
    }
    hide Do;
    assert a.Find? ==> a.req in t.requests;
  }

  lemma RequestsStay(s: State, a: Step)
    requires Enabled(s, a)
    ensures s.requests.Keys <= Do(s, a).requests.Keys
    ensures a.Find? ==> a.req in Do(s, a).requests
  {
    match a
    case Login(_, _, _) =>
    case Find(_, _) =>
    case _ =>
  }

  /** A step of a request that has found its session. */
  predicate Attempts(a: Step) {
    !a.Tick? && !a.Login? && !a.Logout? && !a.Find?
  }

  /** Such a step moves one request and at most the cell of its session. */
  lemma AttemptFrame(s: State, a: Step)
    requires Enabled(s, a) && Attempts(a)
    ensures a.req in s.requests && !s.requests[a.req].Served? && !s.requests[a.req].Refused?
    ensures var t, id := Do(s, a), s.requests[a.req].id;
      && (a.req in t.requests && t.requests == s.requests[a.req := t.requests[a.req]])
      && t.cells.Keys == s.cells.Keys && (forall k :: k in s.cells && k != id ==> t.cells[k] == s.cells[k])
      && (id in s.cells && !a.CommitIdentity? ==> t.cells[id].creds.identity == s.cells[id].creds.identity)
      && (id in s.cells && !a.CommitTokens? ==> t.cells[id].taken == s.cells[id].taken)
  {
    match a
    case Check(_) =>
    case Exchange(_, _) =>
    case _ =>
  }

  /** Where such a step can leave its request. */
  lemma AttemptMoves(s: State, a: Step)
    requires Enabled(s, a) && Attempts(a) && !a.Serve?
    ensures a.req in s.requests && a.req in Do(s, a).requests
    ensures var before, after := s.requests[a.req], Do(s, a).requests[a.req];
      && !before.Served? && !before.Refused? && !after.Served? && (!after.Refused? ==> after.id == before.id)
      && (InHand(after) ==> if a.Exchange? then after == Answered(before.id, a.answer) else InHand(before) && after.answer == before.answer)
      && (after.Verified? ==> a.Verify? && after.identity == Identity(a.sub, after.answer.access))
  {
    match a
    case Check(_) =>
    case Exchange(_, _) =>
    case _ =>
  }

  lemma AttemptTraced(s: State, done: seq<Step>, a: Step)
    requires TraceOk(s, done) && Enabled(s, a) && Attempts(a) && !a.Serve?
    ensures a.req in s.requests && a.req in Do(s, a).requests
    ensures RequestTraced(done + [a], a.req, Do(s, a).requests[a.req])
  {
    AttemptMoves(s, a);
    hide Do, Enabled;
    var q, more := a.req, done + [a];
    assert RequestTraced(done, q, s.requests[q]);
    assert more[..|more| - 1] == done && a in more;
    assert forall x :: x in done ==> x in more;
  }

  lemma ServeTraced(s: State, done: seq<Step>, q: nat)
    requires TraceOk(s, done) && Enabled(s, Serve(q))
    ensures RequestTraced(done + [Serve(q)], q, Do(s, Serve(q)).requests[q])
  {
    var id, more := s.requests[q].id, done + [Serve(q)];
    assert RequestTraced(done, q, s.requests[q]) && CellTraced(done, id, s.cells[id]);
    BroughtStays(done, Serve(q), id, s.cells[id].creds.identity);
    assert Find(q, id) in more;
  }

  lemma IdentityTraced(s: State, done: seq<Step>, q: nat)
    requires TraceOk(s, done) && Enabled(s, CommitIdentity(q))
    ensures var id := s.requests[q].id; CellTraced(done + [CommitIdentity(q)], id, Do(s, CommitIdentity(q)).cells[id])
  {
    var r := s.requests[q];
    var id, who := r.id, r.identity;
    assert RequestTraced(done, q, r) && CellTraced(done, id, s.cells[id]);
    assert RefreshedBy(done, id, q, who.sub, r.answer) && r.answer.access == who.access;
    CellStays(done, CommitIdentity(q), id, s.cells[id].(creds := s.cells[id].creds.(identity := who)));
  }

  lemma TokensTraced(s: State, done: seq<Step>, q: nat)
    requires TraceOk(s, done) && Enabled(s, CommitTokens(q))
    ensures var id := s.requests[q].id; CellTraced(done + [CommitTokens(q)], id, Do(s, CommitTokens(q)).cells[id])
  {
    var r, more := s.requests[q], done + [CommitTokens(q)];
    assert RequestTraced(done, q, r) && CellTraced(done, r.id, s.cells[r.id]);
    assert more[..|more| - 1] == done && more[|more| - 1] == CommitTokens(q);
    BroughtStays(done, CommitTokens(q), r.id, s.cells[r.id].creds.identity);
  }

  lemma CellsTraced(s: State, done: seq<Step>, a: Step, id: Id)
    requires TraceOk(s, done) && Enabled(s, a) && Attempts(a) && id in s.cells
    ensures id in Do(s, a).cells && CellTraced(done + [a], id, Do(s, a).cells[id])
  {
    AttemptFrame(s, a);
    assert CellTraced(done, id, s.cells[id]) && RequestTraced(done, a.req, s.requests[a.req]);
    if a.CommitIdentity? && s.requests[a.req].id == id {
      IdentityTraced(s, done, a.req);
    } else if a.CommitTokens? && s.requests[a.req].id == id {
      TokensTraced(s, done, a.req);
    } else {
      hide Do, Brought;
      CellStays(done, a, id, Do(s, a).cells[id]);
    }
  }

  lemma AttemptKeepsTrace(s: State, done: seq<Step>, a: Step)
    requires TraceOk(s, done) && Enabled(s, a) && Attempts(a)
    ensures TraceOk(Do(s, a), done + [a])
  {
    var t, more := Do(s, a), done + [a];
    AttemptFrame(s, a);
    FindOnce(s, done, a);
    if a.Serve? {
      ServeTraced(s, done, a.req);
    } else {
      AttemptTraced(s, done, a);
    }
    hide Do, Enabled, RequestTraced, CellTraced, OneSessionEach;
    forall q | q in t.requests ensures RequestTraced(more, q, t.requests[q]) {
      if q != a.req {
        RequestStays(done, a, q, s.requests[q]);
      }
    }
    forall id | id in t.cells ensures CellTraced(more, id, t.cells[id]) {
      CellsTraced(s, done, a, id);
    }
  }

  lemma LoginTraced(s: State, done: seq<Step>, id: Id, sub: nat, answer: Response)
    requires Enabled(s, Login(id, sub, answer)) && id in Do(s, Login(id, sub, answer)).cells
    ensures var a := Login(id, sub, answer); CellTraced(done + [a], id, Do(s, a).cells[id])
  {
    var a, more := Login(id, sub, answer), done + [Login(id, sub, answer)];
    assert a in more && more[|more| - 1] == a;
  }

  lemma OtherKeepsTrace(s: State, done: seq<Step>, a: Step)
    requires TraceOk(s, done) && Enabled(s, a) && !Attempts(a)
    ensures TraceOk(Do(s, a), done + [a])
  {
    var t, more := Do(s, a), done + [a];
    FindOnce(s, done, a);
    hide RequestTraced, CellTraced, OneSessionEach;
    forall id | id in t.cells ensures CellTraced(more, id, t.cells[id]) {
      if id in s.cells {
        CellStays(done, a, id, s.cells[id]);
      } else {
        LoginTraced(s, done, id, a.sub, a.answer);
      }
    }
    forall q | q in t.requests ensures RequestTraced(more, q, t.requests[q]) {
      if q in s.requests {
        RequestStays(done, a, q, s.requests[q]);
      } else {
        FoundTraced(done, q, a.id, t.requests[q]);
      }
    }
  }

  lemma FoundTraced(done: seq<Step>, q: nat, id: Id, r: Request)
    requires r == Waiting(id) || r == Refused
    ensures RequestTraced(done + [Find(q, id)], q, r)
  {
    assert Find(q, id) in done + [Find(q, id)];
  }

  lemma EveryStepTraces()
    ensures Traced(Next, TraceOk)
  {
    hide TraceOk, Do, Enabled;
    forall s, done, a | TraceOk(s, done) && Next(s, a).Some? ensures TraceOk(Next(s, a).value, done + [a]) {
      if Attempts(a) {
        AttemptKeepsTrace(s, done, a);
      } else {
        OtherKeepsTrace(s, done, a);
      }
    }
  }

  lemma RunIsTraced(steps: seq<Step>)
    requires Run(Next, INITIAL, steps).Some?
    ensures TraceOk(Run(Next, INITIAL, steps).value, steps)
  {
    EveryStepTraces();
    RunTraces(Next, TraceOk, INITIAL, [], steps);
    assert [] + steps == steps;
  }

  /** Whom a request is served as: in every run, the subject is the one that the session's sign-in, or the
      verification of a refresh by one of the session's requests, established, and the access token served is the
      one that came with it. */
  lemma SubjectServed(steps: seq<Step>, req: nat)
    requires Run(Next, INITIAL, steps).Some?
    requires var s := Run(Next, INITIAL, steps).value; req in s.requests && s.requests[req].Served?
    ensures var r := Run(Next, INITIAL, steps).value.requests[req];
      exists id :: Find(req, id) in steps
        && ((exists answer :: Login(id, r.identity.sub, answer) in steps && answer.access == r.access)
            || exists q, answer :: Find(q, id) in steps && Exchange(q, answer) in steps && Verify(q, r.identity.sub) in steps
                                   && answer.access == r.access)
  {
    RunIsTraced(steps);
    var s := Run(Next, INITIAL, steps).value;
    var r := s.requests[req];
    ServedFromOneResponse(s, req);
    assert RequestTraced(steps, req, r);
    var id :| Find(req, id) in steps && Brought(steps, id, r.identity);
    if q, answer :| RefreshedBy(steps, id, q, r.identity.sub, answer) && answer.access == r.identity.access {
      assert Find(q, id) in steps && Exchange(q, answer) in steps && Verify(q, r.identity.sub) in steps && answer.access == r.access;
    }
  }

  /** The responses behind a session's tokens are, in every run, the one of its sign-in and then those that its
      requests exchanged and committed, in order. */
  lemma TakenIsWhatCame(steps: seq<Step>, id: Id)
    requires Run(Next, INITIAL, steps).Some? && id in Run(Next, INITIAL, steps).value.cells
    ensures Run(Next, INITIAL, steps).value.cells[id].taken == AnswersBehind(steps, id)
  {
    RunIsTraced(steps);
    assert CellTraced(steps, id, Run(Next, INITIAL, steps).value.cells[id]);
  }

  /** At most one request is inside a session's lock, so at most one refresh of it is under way. */
  lemma OneHolderPerSession(s: State, p: nat, q: nat)
    requires Reachable(s) && p in s.requests && q in s.requests
    requires HoldsLock(s.requests[p]) && HoldsLock(s.requests[q]) && s.requests[p].id == s.requests[q].id
    ensures p == q
  {
    ReachableIsSound(s);
    assert RequestOk(s, p, s.requests[p]) && RequestOk(s, q, s.requests[q]);
  }

  /** A refresh token that was spent before is presented exactly in a session that had lost the token which
      replaced it; so never before an attempt has failed. */
  lemma ReplayExactly(s: State, i: nat)
    requires Reachable(s) && i < |s.log|
    ensures s.log[i].spentBefore <==> s.log[i].lostBefore
    ensures s.log[i].lostBefore ==> s.log[i].failedBefore
  {
    ReachableIsSound(s);
    assert PresentedRight(s.log[i]);
  }

  /** A session loses a token in two ways only: the exchange fails although the provider spent the token, or
      the answer that replaces it is thrown away. */
  lemma LostExactly(s: State, step: Step, id: Id)
    requires Enabled(s, step) && id !in s.lost
    ensures id in Do(s, step).lost <==>
      || (step.ExchangeFails? && step.consumed && s.requests[step.req].id == id)
      || (step.Abandon? && s.requests[step.req].Answered? && s.requests[step.req].id == id
          && Rotates(s.requests[step.req].answer, s.cells[id].creds.tokens.refresh))
  {
    match step
    case Login(_, _, _) =>
    case Find(req, k) =>
    case Check(req) =>
    case _ =>
  }

  /** What a session holds are the latest tokens of the responses it took: the last access token, and the
      last refresh token and ID token that were sent. */
  lemma LatestTokensAreHeld(s: State, id: Id)
    requires Reachable(s) && id in s.cells
    ensures var c := s.cells[id];
      && c.taken != []
      && c.creds.tokens.access == c.taken[|c.taken| - 1].access
      && LastSent(c.creds.tokens.refresh, RefreshTokens(c.taken))
      && LastSent(c.creds.tokens.idToken, IdTokens(c.taken))
  {
    ReachableIsSound(s);
    assert CellOk(s, id, s.cells[id]);
    LatestTokensAreKept(s.cells[id].taken);
  }

  /** A token served without a refresh had more than its refresh window left when that was decided. */
  lemma ServedTokenHasTimeLeft(s: State, req: nat)
    requires Reachable(s) && req in s.requests && s.requests[req].Served? && !s.requests[req].refreshed
    ensures s.requests[req].expiresAt > s.requests[req].checkedAt + RefreshWindow(s.requests[req].lifetime)
  {
    ReachableIsSound(s);
    assert RequestOk(s, req, s.requests[req]);
  }

  /** The next attempt never comes earlier than the lifetime less the refresh window after the last
      success, hence at least half a lifetime after it. */
  lemma RefreshesAreSpaced(s: State, req: nat)
    requires Reachable(s) && req in s.requests && s.requests[req].Exchanging?
    ensures s.requests[req].id in s.cells
    ensures var c := s.cells[s.requests[req].id];
      var waited := s.requests[req].checkedAt - c.refreshedAt;
      waited >= c.creds.lifetime - RefreshWindow(c.creds.lifetime) && 2 * waited >= c.creds.lifetime
  {
    ReachableIsSound(s);
    assert RequestOk(s, req, s.requests[req]);
    var id := s.requests[req].id;
    assert CellOk(s, id, s.cells[id]);
  }

  lemma StoreIsBounded(s: State)
    requires Reachable(s)
    ensures |s.store| <= 100_000
    ensures forall id :: id in s.store ==> id in s.cells && s.store[id] == s.cells[id].deadline
  {
    ReachableIsSound(s);
    forall id | id in s.store ensures id in s.cells && s.store[id] == s.cells[id].deadline {
      assert CellOk(s, id, s.cells[id]);
    }
  }

  lemma AttemptForward(s: State, step: Step, id: Id)
    requires Enabled(s, step) && id in s.cells
    requires step.Lock? || step.Check? || step.Exchange? || step.ExchangeFails? || step.Verify? || step.Abandon?
    ensures id in Do(s, step).cells && Do(s, step).cells[id].deadline == s.cells[id].deadline
  {
  }

  lemma CellsForward(s: State, step: Step, id: Id)
    requires Enabled(s, step) && id in s.cells
    ensures id in Do(s, step).cells && Do(s, step).cells[id].deadline == s.cells[id].deadline
  {
    if step.Lock? || step.Check? || step.Exchange? || step.ExchangeFails? || step.Verify? || step.Abandon? {
      AttemptForward(s, step, id);
    }
  }

  lemma GoneForward(s: State, step: Step)
    requires Enabled(s, step)
    ensures s.now <= Do(s, step).now && s.gone <= Do(s, step).gone
  {
    match step
    case Login(_, _, _) =>
    case Find(req, id) =>
    case _ =>
  }

  lemma {:induction false} RunForward(s: State, steps: seq<Step>)
    requires Inv(s) && Run(Next, s, steps).Some?
    ensures var t := Run(Next, s, steps).value;
      && Inv(t) && s.now <= t.now && s.gone <= t.gone
      && forall id :: id in s.cells ==> id in t.cells && t.cells[id].deadline == s.cells[id].deadline
    decreases |steps|
  {
    if steps != [] {
      var next := Do(s, steps[0]);
      GoneForward(s, steps[0]);
      StepKeeps(s, steps[0]);
      RunForward(next, steps[1..]);
      forall id | id in s.cells
        ensures id in Run(Next, s, steps).value.cells && Run(Next, s, steps).value.cells[id].deadline == s.cells[id].deadline
      {
        CellsForward(s, steps[0], id);
      }
    }
  }

  /** After the removal step of a failed attempt, and after a logout of a stored session, every later look-up fails. */
  lemma RemovedForGood(s: State, step: Step, steps: seq<Step>, req: nat, id: Id)
    requires Reachable(s) && Enabled(s, step)
    requires (step.RemoveFailed? && s.requests[step.req].id == id) || (step == Logout(id) && id in s.store)
    requires Run(Next, Do(s, step), steps).Some?
    requires Enabled(Run(Next, Do(s, step), steps).value, Find(req, id))
    ensures Do(Run(Next, Do(s, step), steps).value, Find(req, id)).requests[req] == Refused
  {
    ReachableIsSound(s);
    StepKeeps(s, step);
    RunForward(Do(s, step), steps);
  }

  /** No refresh moves the deadline: from the moment it passes, every look-up of the session fails. */
  lemma DeadlineIsFinal(s: State, steps: seq<Step>, req: nat, id: Id)
    requires Reachable(s) && id in s.cells && Run(Next, s, steps).Some?
    ensures id in Run(Next, s, steps).value.cells && Run(Next, s, steps).value.cells[id].deadline == s.cells[id].deadline
    ensures var t := Run(Next, s, steps).value;
      t.now >= s.cells[id].deadline && Enabled(t, Find(req, id)) ==> Do(t, Find(req, id)).requests[req] == Refused
  {
    ReachableIsSound(s);
    RunForward(s, steps);
    var t := Run(Next, s, steps).value;
    assert CellOk(t, id, t.cells[id]);
  }

  // ----- after a failure a spent token can be presented again -----

  function LostAttempt(p: nat, consumed: bool): seq<Step> {
    [Lock(p), Check(p), ExchangeFails(p, consumed)]
  }

  /** A request that waits for a session with a due refresh. */
  predicate Due(s: State, p: nat, id: Id, token: nat) {
    && p in s.requests && s.requests[p] == Waiting(id)
    && id in s.cells && s.cells[id].holder.None?
    && NeedsRefresh(s.cells[id].creds, s.now) && s.cells[id].creds.tokens.refresh == Some(token)
  }

  /** The exchange is lost: the credentials stay as they were and the lock is free again. */
  lemma LostAttemptLeaves(s: State, p: nat, id: Id, token: nat, consumed: bool)
    requires Due(s, p, id, token)
    ensures Run(Next, s, LostAttempt(p, consumed)).Some?
    ensures Run(Next, s, LostAttempt(p, consumed)).value
         == s.(requests := s.requests[p := RemoveNext(id)], failed := s.failed + {id},
               spent := if consumed then s.spent + {token} else s.spent,
               lost := if consumed then s.lost + {id} else s.lost,
               log := s.log + [Presentation(id, token in s.spent, id in s.lost, id in s.failed)])
  {
    var steps := LostAttempt(p, consumed);
    var s1 := Do(s, Lock(p));
    var s2 := Do(s1, Check(p));
    assert s2.requests[p] == Exchanging(id, token, s.now);
    var s3 := Do(s2, ExchangeFails(p, consumed));
    RunStep(Next, s, steps);
    assert steps[1..] == [Check(p), ExchangeFails(p, consumed)] && steps[1..][1..] == [ExchangeFails(p, consumed)];
    RunStep(Next, s1, steps[1..]);
    RunStep(Next, s2, steps[1..][1..]);
    assert s3.cells == s.cells;
    assert s3.requests == s.requests[p := RemoveNext(id)];
  }

  /** So whenever two requests wait for the same due session, losing the first exchange lets the second
      present the very token the first one spent, before the first has removed the session. */
  lemma FailureAllowsReplay(s: State, p: nat, q: nat, id: Id, token: nat)
    requires p != q && Due(s, p, id, token) && Due(s, q, id, token)
    ensures var run := Run(Next, s, LostAttempt(p, true) + LostAttempt(q, false));
      run.Some? && |run.value.log| == |s.log| + 2 && run.value.log[|s.log| + 1] == Presentation(id, true, true, true)
  {
    LostAttemptLeaves(s, p, id, token, true);
    var t := Run(Next, s, LostAttempt(p, true)).value;
    LostAttemptLeaves(t, q, id, token, false);
    RunConcat(Next, s, LostAttempt(p, true), LostAttempt(q, false));
  }

  /** And such a state is reached by one sign-in, the token's whole lifetime, and two look-ups. */
  lemma TwoRequestsCanWait(id: Id, sub: nat, access: nat, token: nat, p: nat, q: nat)
    requires p != q
    ensures var steps := [Login(id, sub, Response(access, Some(access), Some(token), SECOND)), Tick(SECOND), Find(p, id), Find(q, id)];
      var run := Run(Next, INITIAL, steps);
      run.Some? && Due(run.value, p, id, token) && Due(run.value, q, id, token)
  {
    var steps := [Login(id, sub, Response(access, Some(access), Some(token), SECOND)), Tick(SECOND), Find(p, id), Find(q, id)];
    assert Retained(map[], 0) == map[];
    var s1 := Do(INITIAL, steps[0]);
    assert id in s1.store && s1.store[id] == SESSION_TTL;
    var s2 := Do(s1, steps[1]);
    var s3 := Do(s2, steps[2]);
    var s4 := Do(s3, steps[3]);
    assert Due(s4, p, id, token) && Due(s4, q, id, token);
    RunStep(Next, INITIAL, steps);
    RunStep(Next, s1, steps[1..]);
    RunStep(Next, s2, steps[2..]);
    RunStep(Next, s3, steps[3..]);
    assert steps[4..] == [];
  }

  // ----- what a request gets when nothing fails -----

  /** A refresh is due from a minute before the token ends on, or from half its life on if that is later. */
  lemma DueExactly(c: Credentials, now: Time)
    ensures NeedsRefresh(c, now) <==>
      c.expiresAt <= now || (c.expiresAt - now <= 60_000_000_000 && 2 * (c.expiresAt - now) <= c.lifetime)
  {
  }

  function Begins(p: nat): seq<Step> {
    [Lock(p), Check(p)]
  }

  function Asks(p: nat, answer: Response, sub: nat): seq<Step> {
    [Exchange(p, answer), Verify(p, sub)]
  }

  function Replaces(p: nat): seq<Step> {
    [CommitIdentity(p), CommitTokens(p)]
  }

  function Ends(p: nat): seq<Step> {
    [CommitExpiry(p), Serve(p)]
  }

  lemma BeginsRun(s: State, p: nat, id: Id, token: nat)
    requires Due(s, p, id, token)
    ensures Run(Next, s, Begins(p))
         == Some(s.(requests := s.requests[p := Exchanging(id, token, s.now)],
                    cells := s.cells[id := s.cells[id].(holder := Some(p))]))
  {
    var steps := Begins(p);
    var s1 := Do(s, steps[0]);
    var s2 := Do(s1, steps[1]);
    assert s2.requests == s.requests[p := Exchanging(id, token, s.now)];
    RunStep(Next, s, steps);
    RunStep(Next, s1, steps[1..]);
    assert steps[2..] == [];
  }

  lemma AsksRun(s: State, p: nat, id: Id, token: nat, at: Time, answer: Response, sub: nat)
    requires p in s.requests && s.requests[p] == Exchanging(id, token, at) && id in s.cells
    requires token !in s.spent && ProperToken(s, answer.refresh, Some(token))
    ensures Run(Next, s, Asks(p, answer, sub))
         == Some(s.(requests := s.requests[p := Verified(id, answer, Identity(sub, answer.access))],
                    issuedTo := if answer.refresh.Some? then s.issuedTo[answer.refresh.value := id] else s.issuedTo,
                    spent := if answer.refresh.Some? && answer.refresh.value != token then s.spent + {token} else s.spent,
                    log := s.log + [Presentation(id, false, id in s.lost, id in s.failed)]))
  {
    var steps := Asks(p, answer, sub);
    var s1 := Do(s, steps[0]);
    var s2 := Do(s1, steps[1]);
    assert s2.requests == s.requests[p := Verified(id, answer, Identity(sub, answer.access))];
    RunStep(Next, s, steps);
    RunStep(Next, s1, steps[1..]);
    assert steps[2..] == [];
  }

  /** The tokens held after an answer: those it carries, and the ones held before where it carries none. */
  function Replaced(c: Cell, sub: nat, answer: Response): Cell {
    var held := c.creds.tokens;
    var tokens := TokenSet(answer.access, if answer.idToken.Some? then answer.idToken else held.idToken,
                           if answer.refresh.Some? then answer.refresh else held.refresh);
    c.(creds := c.creds.(identity := Identity(sub, answer.access), tokens := tokens), taken := c.taken + [answer])
  }

  function Renewed(c: Cell, sub: nat, answer: Response, now: Time): Cell {
    Expiring(Replaced(c, sub, answer), answer, now)
  }

  lemma ReplacesRun(s: State, p: nat, id: Id, answer: Response, sub: nat)
    requires p in s.requests && s.requests[p] == Verified(id, answer, Identity(sub, answer.access)) && id in s.cells
    ensures Run(Next, s, Replaces(p))
         == Some(s.(requests := s.requests[p := ExpiryNext(id, answer)],
                    cells := s.cells[id := Replaced(s.cells[id], sub, answer)]))
  {
    var steps := Replaces(p);
    var s1 := Do(s, steps[0]);
    var s2 := Do(s1, steps[1]);
    assert s2.requests == s.requests[p := ExpiryNext(id, answer)];
    assert s2.cells == s.cells[id := Replaced(s.cells[id], sub, answer)];
    RunStep(Next, s, steps);
    RunStep(Next, s1, steps[1..]);
    assert steps[2..] == [];
  }

  /** The new expiry, and the lock free again. */
  function Expiring(c: Cell, answer: Response, now: Time): Cell {
    c.(creds := c.creds.(expiresAt := now + answer.lifetime, lifetime := answer.lifetime), holder := None, refreshedAt := now)
  }

  lemma EndsRun(s: State, p: nat, id: Id, answer: Response)
    requires p in s.requests && s.requests[p] == ExpiryNext(id, answer) && id in s.cells
    ensures var c := s.cells[id];
      Run(Next, s, Ends(p))
        == Some(s.(requests := s.requests[p := Served(c.creds.identity, c.creds.tokens.access, s.now, true,
                                                      s.now + answer.lifetime, answer.lifetime)],
                   cells := s.cells[id := Expiring(c, answer, s.now)]))
  {
    var steps := Ends(p);
    var s1 := Do(s, steps[0]);
    var s2 := Do(s1, steps[1]);
    assert s2.requests == s.requests[p := s2.requests[p]];
    assert s2.cells == s.cells[id := Expiring(s.cells[id], answer, s.now)];
    RunStep(Next, s, steps);
    RunStep(Next, s1, steps[1..]);
    assert steps[2..] == [];
  }

  function RefreshSteps(p: nat, answer: Response, sub: nat): seq<Step> {
    Begins(p) + Asks(p, answer, sub) + Replaces(p) + Ends(p)
  }

  /** The four parts of a refresh, one after the other. */
  lemma PartsAddUp(s: State, s1: State, s2: State, s3: State, t: State, p: nat, id: Id,
                   r1: Request, r2: Request, r3: Request, r4: Request, sub: nat, answer: Response)
    requires p in s.requests && id in s.cells
    requires s1 == s.(requests := s.requests[p := r1], cells := s.cells[id := s.cells[id].(holder := Some(p))])
    requires s2 == s1.(requests := s1.requests[p := r2], issuedTo := s2.issuedTo, spent := s2.spent, log := s2.log)
    requires s3 == s2.(requests := s2.requests[p := r3], cells := s2.cells[id := Replaced(s2.cells[id], sub, answer)])
    requires t == s3.(requests := s3.requests[p := r4], cells := s3.cells[id := Expiring(s3.cells[id], answer, s3.now)])
    ensures t == s.(requests := s.requests[p := r4], cells := s.cells[id := Renewed(s.cells[id], sub, answer, s.now)],
                    issuedTo := s2.issuedTo, spent := s2.spent, log := s2.log)
  {
    assert t.requests == s.requests[p := r4];
    assert t.cells == s.cells[id := Renewed(s.cells[id], sub, answer, s.now)];
  }

  /** A request that waits for a session with a due refresh gets the new access token, for the subject verified;
      the session keeps what came, and everything else is as it was. */
  lemma RefreshServes(s: State, p: nat, id: Id, token: nat, answer: Response, sub: nat)
    requires Due(s, p, id, token) && token !in s.spent && ProperToken(s, answer.refresh, Some(token))
    ensures Run(Next, s, RefreshSteps(p, answer, sub))
         == Some(s.(requests := s.requests[p := Served(Identity(sub, answer.access), answer.access, s.now, true,
                                                       s.now + answer.lifetime, answer.lifetime)],
                    cells := s.cells[id := Renewed(s.cells[id], sub, answer, s.now)],
                    issuedTo := if answer.refresh.Some? then s.issuedTo[answer.refresh.value := id] else s.issuedTo,
                    spent := if answer.refresh.Some? && answer.refresh.value != token then s.spent + {token} else s.spent,
                    log := s.log + [Presentation(id, false, id in s.lost, id in s.failed)]))
  {
    hide Next, Run, Begins, Asks, Replaces, Ends, Expiring, NeedsRefresh;
    BeginsRun(s, p, id, token);
    var s1 := Run(Next, s, Begins(p)).value;
    AsksRun(s1, p, id, token, s.now, answer, sub);
    var s2 := Run(Next, s1, Asks(p, answer, sub)).value;
    ReplacesRun(s2, p, id, answer, sub);
    var s3 := Run(Next, s2, Replaces(p)).value;
    EndsRun(s3, p, id, answer);
    var t := Run(Next, s3, Ends(p)).value;
    RunConcat(Next, s, Begins(p), Asks(p, answer, sub));
    RunConcat(Next, s, Begins(p) + Asks(p, answer, sub), Replaces(p));
    RunConcat(Next, s, Begins(p) + Asks(p, answer, sub) + Replaces(p), Ends(p));
    assert s3.cells[id].creds.identity == Identity(sub, answer.access) && s3.cells[id].creds.tokens.access == answer.access;
    hide Replaced;
    PartsAddUp(s, s1, s2, s3, t, p, id, s1.requests[p], s2.requests[p], s3.requests[p], t.requests[p], sub, answer);
  }

  /** A request that waits for a session with time left gets what the session holds, and changes nothing of it. */
  lemma HeldTokenServes(s: State, p: nat, id: Id)
    requires p in s.requests && s.requests[p] == Waiting(id) && id in s.cells && s.cells[id].holder.None?
    requires !NeedsRefresh(s.cells[id].creds, s.now)
    ensures var c := s.cells[id].creds;
      Run(Next, s, [Lock(p), Check(p), Serve(p)])
        == Some(s.(requests := s.requests[p := Served(c.identity, c.tokens.access, s.now, false, c.expiresAt, c.lifetime)]))
  {
    var steps := [Lock(p), Check(p), Serve(p)];
    var s1 := Do(s, steps[0]);
    var s2 := Do(s1, steps[1]);
    var s3 := Do(s2, steps[2]);
    RunStep(Next, s, steps);
    RunStep(Next, s1, steps[1..]);
    RunStep(Next, s2, steps[2..]);
    assert steps[3..] == [];
    assert s3.cells == s.cells;
    assert s3.requests == s.requests[p := s3.requests[p]];
  }

  function SignsIn(p: nat, id: Id, sub: nat, answer: Response): seq<Step> {
    [Login(id, sub, answer), Find(p, id)]
  }

  lemma SignInRun(s: State, p: nat, id: Id, sub: nat, answer: Response)
    requires id !in s.cells && p !in s.requests && ProperToken(s, answer.refresh, None)
    requires |Retained(s.store, s.now)| < MAX_SESSIONS
    ensures Run(Next, s, SignsIn(p, id, sub, answer)).Some?
    ensures var t := Run(Next, s, SignsIn(p, id, sub, answer)).value;
      && t.now == s.now && t.requests == s.requests[p := Waiting(id)]
      && t.cells == s.cells[id := Cell(
           s.now + SESSION_TTL,
           Credentials(Identity(sub, answer.access), TokenSet(answer.access, answer.idToken, answer.refresh),
                       s.now + answer.lifetime, answer.lifetime),
           None, s.now, [answer])]
  {
    var steps := SignsIn(p, id, sub, answer);
    var s1 := Do(s, steps[0]);
    assert id in s1.store && s1.store[id] == s.now + SESSION_TTL;
    var s2 := Do(s1, steps[1]);
    RunStep(Next, s, steps);
    RunStep(Next, s1, steps[1..]);
    assert steps[2..] == [];
  }

  /** A sign-in for which there is room is served at once with its own access token, for the subject it was
      verified for. */
  lemma SignInServes(s: State, p: nat, id: Id, sub: nat, answer: Response)
    requires id !in s.cells && p !in s.requests && ProperToken(s, answer.refresh, None)
    requires |Retained(s.store, s.now)| < MAX_SESSIONS && answer.lifetime > 0
    ensures var run := Run(Next, s, SignsIn(p, id, sub, answer) + [Lock(p), Check(p), Serve(p)]);
      && run.Some? && p in run.value.requests
      && run.value.requests[p]
         == Served(Identity(sub, answer.access), answer.access, s.now, false, s.now + answer.lifetime, answer.lifetime)
  {
    SignInRun(s, p, id, sub, answer);
    hide Run, Next, SignsIn, Retained, ProperToken;
    var t := Run(Next, s, SignsIn(p, id, sub, answer)).value;
    assert !NeedsRefresh(t.cells[id].creds, t.now);
    hide NeedsRefresh;
    HeldTokenServes(t, p, id);
    RunConcat(Next, s, SignsIn(p, id, sub, answer), [Lock(p), Check(p), Serve(p)]);
  }

  /** Nothing in these steps signs the session out. */
  ghost predicate Undisturbed(s: State, steps: seq<Step>, id: Id)
    decreases |steps|
  {
    steps == []
    || (Enabled(s, steps[0]) && steps[0] != Logout(id) && !(steps[0].RemoveFailed? && s.requests[steps[0].req] == RemoveNext(id))
        && Undisturbed(Do(s, steps[0]), steps[1..], id))
  }

  lemma AttemptKeepsStore(s: State, a: Step)
    requires Enabled(s, a) && Attempts(a) && !a.RemoveFailed?
    ensures Do(s, a).store == s.store
  {
    match a
    case Check(_) =>
    case Exchange(_, _) =>
    case _ =>
  }

  lemma OtherKeepsStored(s: State, a: Step, id: Id)
    requires Enabled(s, a) && !Attempts(a) && a != Logout(id)
    requires id in s.store && s.store[id] > s.now && id in s.cells
    ensures id in Do(s, a).store && Do(s, a).store[id] == s.store[id]
  {
    match a
    case Tick(_) =>
    case Logout(_) =>
    case Login(k, sub, answer) =>
      assert id in Inserted(s.store, k, s.now) && Inserted(s.store, k, s.now)[id] == s.store[id];
      assert DoLogin(s, k, sub, answer).store == Inserted(s.store, k, s.now);
    case Find(q, k) => assert DoFind(s, q, k).store == AfterFind(s.store, k, s.now);
  }

  lemma StoredStays(s: State, a: Step, id: Id)
    requires Inv(s) && Enabled(s, a) && id in s.store && s.store[id] > s.now
    requires a != Logout(id) && !(a.RemoveFailed? && s.requests[a.req] == RemoveNext(id))
    ensures id in Do(s, a).store && Do(s, a).store[id] == s.store[id]
  {
    assert id in s.cells;
    hide Inv;
    if !Attempts(a) {
      OtherKeepsStored(s, a, id);
    } else if !a.RemoveFailed? {
      AttemptKeepsStore(s, a);
    } else {
      assert Do(s, a).store == s.store - {s.requests[a.req].id};
    }
  }

  /** A session lives until its deadline: unless it is signed out, every look-up before then finds it. */
  lemma {:induction false} SessionLives(s: State, steps: seq<Step>, req: nat, id: Id)
    requires Inv(s) && id in s.store && Undisturbed(s, steps, id) && Run(Next, s, steps).Some?
    ensures var t := Run(Next, s, steps).value;
      t.now < s.store[id] && Enabled(t, Find(req, id)) ==> Do(t, Find(req, id)).requests[req] == Waiting(id)
    decreases |steps|
  {
    var t := Run(Next, s, steps).value;
    if steps != [] && t.now < s.store[id] {
      var next := Do(s, steps[0]);
      StepKeeps(s, steps[0]);
      RunForward(next, steps[1..]);
      GoneForward(s, steps[0]);
      hide Inv, Do, Enabled;
      StoredStays(s, steps[0], id);
      SessionLives(next, steps[1..], req, id);
    }
  }
}
