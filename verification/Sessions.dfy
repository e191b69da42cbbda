/**
 Refresh-token families of `auth/service.py`. Digests are taken to be injective and new
 tokens and family ids to be fresh, so a session is identified by its token. Each request
 is one committed transaction, also when it answers with an authentication error.
 */
module Sessions {
  import opened Common

  type Token = nat
  type Family = nat

  datatype Session = Session(
    user: UserId, family: Family, expires: int, revokedAt: Option<int>, replacedBy: Option<Token>)

  /** The session rows, and of each family the tokens in the order they were issued. */
  datatype Book = Book(rows: map<Token, Session>, chains: map<Family, seq<Token>>)

  const NO_SESSIONS := Book(map[], map[])

  datatype Reply = Issued(token: Token) | Denied

  // ---------------------------------------------------------------- the requests

  /** `issue_pair` of register and login: a new family of one session. */
  function Open(b: Book, user: UserId, token: Token, family: Family, expires: int): Book {
    Book(b.rows[token := Session(user, family, expires, None, None)], b.chains[family := [token]])
  }

  function RevokeFamily(rows: map<Token, Session>, family: Family, now: int): map<Token, Session> {
    map t | t in rows :: if rows[t].family == family then rows[t].(revokedAt := Some(now)) else rows[t]
  }

  function RevokeUser(rows: map<Token, Session>, user: UserId, now: int): map<Token, Session> {
    map t | t in rows ::
      if rows[t].user == user && rows[t].revokedAt.None? then rows[t].(revokedAt := Some(now)) else rows[t]
  }

  function ChainOf(b: Book, family: Family): seq<Token> {
    if family in b.chains then b.chains[family] else []
  }

  /** `refresh`'s rotation: the new session joins the family, the old one is revoked and points at it. */
  function Rotate(b: Book, token: Token, next: Token, now: int, expires: int): Book
    requires token in b.rows
  {
    var item := b.rows[token];
    Book(b.rows[next := Session(item.user, item.family, expires, None, None)]
               [token := item.(revokedAt := Some(now), replacedBy := Some(next))],
         b.chains[item.family := ChainOf(b, item.family) + [next]])
  }

  /** `refresh`; `active` are the users that exist and are active. */
  function RefreshBook(b: Book, token: Token, next: Token, now: int, lifetime: int, active: set<UserId>):
    (Book, Reply)
  {
    if token !in b.rows || b.rows[token].expires <= now then (b, Denied)
    else if b.rows[token].revokedAt.Some? then
      (b.(rows := RevokeFamily(b.rows, b.rows[token].family, now)), Denied)
    else if b.rows[token].user !in active then (b, Denied)
    else (Rotate(b, token, next, now, now + lifetime), Issued(next))
  }

  /** The writes of `revoke` and `revoke_all`: every session an earlier query listed, whatever became of it since. */
  function RevokeListed(rows: map<Token, Session>, listed: set<Token>, now: int): map<Token, Session> {
    map t | t in rows :: if t in listed then rows[t].(revokedAt := Some(now)) else rows[t]
  }

  /** What the query of `revoke_all` lists. */
  function LiveOf(rows: map<Token, Session>, user: UserId): set<Token> {
    set t | t in rows && rows[t].user == user && rows[t].revokedAt.None?
  }

  function RevokeToken(b: Book, token: Token, now: int): Book {
    if token in b.rows && b.rows[token].revokedAt.None?
    then b.(rows := b.rows[token := b.rows[token].(revokedAt := Some(now))])
    else b
  }

  datatype Request =
    | Login(user: UserId, token: Token, family: Family, now: int, lifetime: int)
    | Refresh(token: Token, next: Token, now: int, lifetime: int, active: set<UserId>)
    | Revoke(token: Token, now: int)
    | RevokeAll(user: UserId, now: int)
    | Write(listed: set<Token>, now: int)

  /** New tokens and family ids are new. */
  predicate Fresh(b: Book, request: Request) {
    match request
    case Login(_, token, family, _, _) => token !in b.rows && family !in b.chains
    case Refresh(token, next, _, _, _) => next !in b.rows && next != token
    case _ => true
  }

  function Handle(b: Book, request: Request): Book {
    if !Fresh(b, request) then b else
    match request
    case Login(user, token, family, now, lifetime) => Open(b, user, token, family, now + lifetime)
    case Refresh(token, next, now, lifetime, active) => RefreshBook(b, token, next, now, lifetime, active).0
    case Revoke(token, now) => RevokeToken(b, token, now)
    case RevokeAll(user, now) => b.(rows := RevokeUser(b.rows, user, now))
    case Write(listed, now) => b.(rows := RevokeListed(b.rows, listed, now))
  }

  function HandleAll(b: Book, requests: seq<Request>): Book
    decreases |requests|
  {
    if requests == [] then b else HandleAll(Handle(b, requests[0]), requests[1..])
  }

  // ---------------------------------------------------------------- one chain per family

  predicate Live(b: Book, token: Token) {
    token in b.rows && b.rows[token].revokedAt.None?
  }

  /** Session i of the chain was replaced by session i + 1. */
  predicate Replaced(rows: map<Token, Session>, chain: seq<Token>, i: nat)
    requires i + 1 < |chain|
  {
    chain[i] in rows && rows[chain[i]].revokedAt.Some? && rows[chain[i]].replacedBy == Some(chain[i + 1])
  }

  /** The chain lists sessions of one family and one user, each replaced by the next, the last by none. */
  ghost predicate Linear(rows: map<Token, Session>, family: Family, chain: seq<Token>) {
    && chain != [] && chain[0] in rows
    && (forall i :: 0 <= i < |chain| ==>
          chain[i] in rows && rows[chain[i]].family == family && rows[chain[i]].user == rows[chain[0]].user)
    && (forall i, j :: 0 <= i < j < |chain| ==> chain[i] != chain[j])
    && (forall i :: 0 <= i < |chain| - 1 ==> Replaced(rows, chain, i))
    && rows[chain[|chain| - 1]].replacedBy.None?
  }

  ghost predicate Inv(b: Book) {
    && (forall f :: f in b.chains ==> Linear(b.rows, f, b.chains[f]))
    && (forall t :: t in b.rows ==> b.rows[t].family in b.chains && t in b.chains[b.rows[t].family])
  }

  /** Changing only revocation times, and never back to none, keeps a chain. */
  lemma LinearStays(rows: map<Token, Session>, rows': map<Token, Session>, family: Family, chain: seq<Token>)
    requires Linear(rows, family, chain)
    requires forall i :: 0 <= i < |chain| ==>
               && chain[i] in rows'
               && rows'[chain[i]] == rows[chain[i]].(revokedAt := rows'[chain[i]].revokedAt)
               && (rows[chain[i]].revokedAt.Some? ==> rows'[chain[i]].revokedAt.Some?)
    ensures Linear(rows', family, chain)
  {
    forall i | 0 <= i < |chain| - 1
      ensures Replaced(rows', chain, i)
    {
      assert Replaced(rows, chain, i);
    }
  }

  /** So does any request that only revokes. */
  lemma RevokingInv(b: Book, rows': map<Token, Session>)
    requires Inv(b) && rows'.Keys == b.rows.Keys
    requires forall t :: t in b.rows ==>
               && rows'[t] == b.rows[t].(revokedAt := rows'[t].revokedAt)
               && (b.rows[t].revokedAt.Some? ==> rows'[t].revokedAt.Some?)
    ensures Inv(b.(rows := rows'))
  {
    forall f | f in b.chains
      ensures Linear(rows', f, b.chains[f])
    {
      LinearStays(b.rows, rows', f, b.chains[f]);
    }
  }

  lemma OpenInv(b: Book, user: UserId, token: Token, family: Family, expires: int)
    requires Inv(b) && token !in b.rows && family !in b.chains
    ensures Inv(Open(b, user, token, family, expires))
  {
    var b' := Open(b, user, token, family, expires);
    forall f | f in b'.chains
      ensures Linear(b'.rows, f, b'.chains[f])
    {
      if f != family {
        LinearStays(b.rows, b'.rows, f, b.chains[f]);
      }
    }
  }

  /** A live session is the last of its chain. */
  lemma LiveIsLast(b: Book, token: Token)
    requires Inv(b) && Live(b, token)
    ensures var chain := b.chains[b.rows[token].family];
            token == chain[|chain| - 1]
  {
    var chain := b.chains[b.rows[token].family];
    var i :| 0 <= i < |chain| && chain[i] == token;
    assert i < |chain| - 1 ==> Replaced(b.rows, chain, i);
  }

  lemma ExtendedLinear(rows: map<Token, Session>, rows': map<Token, Session>, family: Family, chain: seq<Token>,
                       next: Token)
    requires Linear(rows, family, chain) && next !in rows
    requires forall i :: 0 <= i < |chain| - 1 ==> chain[i] in rows' && rows'[chain[i]] == rows[chain[i]]
    requires var last := chain[|chain| - 1];
             && last in rows' && rows'[last].family == family && rows'[last].user == rows[last].user
             && rows'[last].revokedAt.Some? && rows'[last].replacedBy == Some(next)
    requires next in rows' && rows'[next].family == family && rows'[next].user == rows[chain[0]].user
             && rows'[next].replacedBy.None?
    ensures Linear(rows', family, chain + [next])
  {
    var chain' := chain + [next];
    forall i | 0 <= i < |chain'| - 1
      ensures Replaced(rows', chain', i)
    {
      if i < |chain| - 1 {
        assert Replaced(rows, chain, i);
      }
    }
  }

  lemma RotateInv(b: Book, token: Token, next: Token, now: int, expires: int)
    requires Inv(b) && Live(b, token) && next !in b.rows
    ensures Inv(Rotate(b, token, next, now, expires))
  {
    var b' := Rotate(b, token, next, now, expires);
    var family := b.rows[token].family;
    LiveIsLast(b, token);
    forall f | f in b'.chains
      ensures Linear(b'.rows, f, b'.chains[f])
    {
      if f == family {
        ExtendedLinear(b.rows, b'.rows, f, b.chains[f], next);
      } else {
        LinearStays(b.rows, b'.rows, f, b.chains[f]);
      }
    }
    forall t | t in b'.rows
      ensures b'.rows[t].family in b'.chains && t in b'.chains[b'.rows[t].family]
    {
      if t == next {
        assert (b.chains[family] + [next])[|b.chains[family]|] == next;
      }
    }
  }

  lemma ReplayInv(b: Book, request: Request)
    requires Inv(b) && request.Refresh? && Fresh(b, request) && request.token in b.rows
    requires !Live(b, request.token) && request.now < b.rows[request.token].expires
    ensures Inv(Handle(b, request))
  {
    var rows' := RevokeFamily(b.rows, b.rows[request.token].family, request.now);
    RevokingInv(b, rows');
    assert Handle(b, request) == b.(rows := rows');
  }

  lemma ExchangeInv(b: Book, request: Request)
    requires Inv(b) && request.Refresh? && Fresh(b, request) && Live(b, request.token)
    requires request.now < b.rows[request.token].expires && b.rows[request.token].user in request.active
    ensures Inv(Handle(b, request))
  {
    var b' := Rotate(b, request.token, request.next, request.now, request.now + request.lifetime);
    RotateInv(b, request.token, request.next, request.now, request.now + request.lifetime);
    assert Handle(b, request) == b';
  }

  lemma RefreshInv(b: Book, request: Request)
    requires Inv(b) && request.Refresh? && Fresh(b, request)
    ensures Inv(Handle(b, request))
  {
    if request.token in b.rows && request.now < b.rows[request.token].expires && !Live(b, request.token) {
      ReplayInv(b, request);
    } else if Live(b, request.token) && request.now < b.rows[request.token].expires
              && b.rows[request.token].user in request.active {
      ExchangeInv(b, request);
    } else {
      assert Handle(b, request) == b;
    }
  }

  lemma RevokeInv(b: Book, token: Token, now: int)
    requires Inv(b)
    ensures Inv(Handle(b, Revoke(token, now)))
  {
    if Live(b, token) {
      RevokingInv(b, b.rows[token := b.rows[token].(revokedAt := Some(now))]);
    }
  }

  lemma RevokeAllInv(b: Book, user: UserId, now: int)
    requires Inv(b)
    ensures Inv(Handle(b, RevokeAll(user, now)))
  {
    RevokingInv(b, RevokeUser(b.rows, user, now));
  }

  lemma WriteInv(b: Book, listed: set<Token>, now: int)
    requires Inv(b)
    ensures Inv(Handle(b, Write(listed, now)))
  {
    RevokingInv(b, RevokeListed(b.rows, listed, now));
  }

  lemma HandleInv(b: Book, request: Request)
    requires Inv(b)
    ensures Inv(Handle(b, request))
  {
    if !Fresh(b, request) {
      assert Handle(b, request) == b;
    } else {
      match request
      case Login(user, token, family, now, lifetime) =>
        OpenInv(b, user, token, family, now + lifetime);
        assert Handle(b, request) == Open(b, user, token, family, now + lifetime);
      case Refresh(_, _, _, _, _) => RefreshInv(b, request);
      case Revoke(token, now) => RevokeInv(b, token, now);
      case RevokeAll(user, now) => RevokeAllInv(b, user, now);
      case Write(listed, now) => WriteInv(b, listed, now);
    }
  }

  /** After any requests every family is one chain of one user. */
  lemma {:induction false} ChainsStay(b: Book, requests: seq<Request>)
    requires Inv(b)
    ensures Inv(HandleAll(b, requests))
    decreases |requests|
  {
    if requests != [] {
      HandleInv(b, requests[0]);
      ChainsStay(Handle(b, requests[0]), requests[1..]);
    }
  }

  /** In every reachable book at most one session of a family is live: the one issued last. */
  lemma OneLivePerFamily(requests: seq<Request>, t: Token, u: Token)
    requires var b := HandleAll(NO_SESSIONS, requests);
             Live(b, t) && Live(b, u) && b.rows[t].family == b.rows[u].family
    ensures t == u && HandleAll(NO_SESSIONS, requests).rows[t].replacedBy.None?
  {
    ChainsStay(NO_SESSIONS, requests);
    LiveIsLast(HandleAll(NO_SESSIONS, requests), t);
    LiveIsLast(HandleAll(NO_SESSIONS, requests), u);
  }

  // ---------------------------------------------------------------- replay

  /** The row with its revocation time set and nothing else changed. */
  predicate RevokedAt(row: Session, row': Session, now: int) {
    && row'.revokedAt == Some(now) && row'.replacedBy == row.replacedBy
    && row'.user == row.user && row'.family == row.family && row'.expires == row.expires
  }

  /** A session as it is issued. */
  predicate JustIssued(row: Session, user: UserId, family: Family, expires: int) {
    && row.user == user && row.family == family && row.expires == expires
    && row.revokedAt.None? && row.replacedBy.None?
  }

  /** The old session is revoked for the new one, which lives for the full lifetime from now on; no other changes. */
  predicate Exchanged(rows: map<Token, Session>, rows': map<Token, Session>, token: Token, next: Token,
                      now: int, lifetime: int)
    requires token in rows
  {
    && rows'.Keys == rows.Keys + {next} && next != token
    && JustIssued(rows'[next], rows[token].user, rows[token].family, now + lifetime)
    && rows'[token].revokedAt == Some(now) && rows'[token].replacedBy == Some(next)
    && rows'[token].user == rows[token].user && rows'[token].family == rows[token].family
    && rows'[token].expires == rows[token].expires
    && forall t :: t in rows && t != token ==> rows'[t] == rows[t]
  }

  /** Replaying an unexpired revoked token is denied, revokes every session of its family and touches no other. */
  lemma ReplayKillsFamily(b: Book, token: Token, next: Token, now: int, lifetime: int, active: set<UserId>, t: Token)
    requires token in b.rows && b.rows[token].revokedAt.Some? && now < b.rows[token].expires && t in b.rows
    ensures var (b', reply) := RefreshBook(b, token, next, now, lifetime, active);
            && reply == Denied && b'.rows.Keys == b.rows.Keys && b'.chains == b.chains
            && (b.rows[t].family == b.rows[token].family ==> !Live(b', t) && RevokedAt(b.rows[t], b'.rows[t], now))
            && (b.rows[t].family != b.rows[token].family ==> b'.rows[t] == b.rows[t])
  {
  }

  /** A refresh succeeds exactly for a live, unexpired session of an active user, and the new token is live instead. */
  lemma RefreshExactly(b: Book, token: Token, next: Token, now: int, lifetime: int, active: set<UserId>)
    requires Inv(b) && next !in b.rows
    ensures var (b', reply) := RefreshBook(b, token, next, now, lifetime, active);
            && (reply == Issued(next)
                <==> Live(b, token) && now < b.rows[token].expires && b.rows[token].user in active)
            && (reply != Issued(next) ==> reply == Denied)
            && (reply == Issued(next) ==>
                  !Live(b', token) && Live(b', next) && Exchanged(b.rows, b'.rows, token, next, now, lifetime))
  {
  }

  /** Expiry or a deactivated user stops a live token without changing anything. */
  lemma DeniedQuietly(b: Book, token: Token, next: Token, now: int, lifetime: int, active: set<UserId>)
    requires token !in b.rows || b.rows[token].expires <= now || (Live(b, token) && b.rows[token].user !in active)
    ensures RefreshBook(b, token, next, now, lifetime, active) == (b, Denied)
  {
  }

  lemma RefreshKeepsRow(b: Book, request: Request, token: Token)
    requires request.Refresh? && Fresh(b, request) && token in b.rows
    ensures var b' := Handle(b, request);
            && token in b'.rows && b'.rows[token].family == b.rows[token].family
            && b'.rows[token].user == b.rows[token].user && (!Live(b, token) ==> !Live(b', token))
  {
  }

  /** A session keeps its family and its user, and once revoked it stays revoked. */
  lemma RowStays(b: Book, request: Request, token: Token)
    requires token in b.rows
    ensures var b' := Handle(b, request);
            && token in b'.rows && b'.rows[token].family == b.rows[token].family
            && b'.rows[token].user == b.rows[token].user && (!Live(b, token) ==> !Live(b', token))
  {
    if request.Refresh? && Fresh(b, request) {
      RefreshKeepsRow(b, request, token);
    }
  }

  lemma RefreshAddsRow(b: Book, request: Request, token: Token)
    requires request.Refresh? && Fresh(b, request) && token in Handle(b, request).rows && token !in b.rows
    ensures Live(b, request.token) && Handle(b, request).rows[token].family == b.rows[request.token].family
  {
  }

  /** A new session opens a new family, or joins the family of a live one. */
  lemma NewRow(b: Book, request: Request, token: Token)
    requires token in Handle(b, request).rows && token !in b.rows
    ensures var family := Handle(b, request).rows[token].family;
            family !in b.chains || exists t :: Live(b, t) && b.rows[t].family == family
  {
    if request.Refresh? && Fresh(b, request) {
      RefreshAddsRow(b, request, token);
    }
  }

  lemma ChainsGrow(b: Book, request: Request)
    ensures b.chains.Keys <= Handle(b, request).chains.Keys
  {
  }

  /** A revoked token is never exchanged again, so each token is exchanged at most once. */
  lemma {:induction false} NeverExchangedAgain(b: Book, requests: seq<Request>, token: Token, next: Token, now: int,
                                               lifetime: int, active: set<UserId>)
    requires Inv(b) && token in b.rows && !Live(b, token)
    ensures RefreshBook(HandleAll(b, requests), token, next, now, lifetime, active).1 == Denied
    decreases |requests|
  {
    if requests != [] {
      RowStays(b, requests[0], token);
      HandleInv(b, requests[0]);
      NeverExchangedAgain(Handle(b, requests[0]), requests[1..], token, next, now, lifetime, active);
    }
  }

  ghost predicate Dead(b: Book, family: Family) {
    family in b.chains && forall t :: t in b.rows && b.rows[t].family == family ==> !Live(b, t)
  }

  lemma DeadStays(b: Book, request: Request, family: Family)
    requires Dead(b, family)
    ensures Dead(Handle(b, request), family)
  {
    var b' := Handle(b, request);
    ChainsGrow(b, request);
    forall t | t in b'.rows && b'.rows[t].family == family
      ensures !Live(b', t)
    {
      if t in b.rows {
        RowStays(b, request, t);
      } else {
        NewRow(b, request, t);
      }
    }
  }

  /** A fully revoked family never has a live session again. */
  lemma {:induction false} DeadForever(b: Book, requests: seq<Request>, family: Family)
    requires Inv(b) && Dead(b, family)
    ensures Dead(HandleAll(b, requests), family)
    decreases |requests|
  {
    if requests != [] {
      DeadStays(b, requests[0], family);
      HandleInv(b, requests[0]);
      DeadForever(Handle(b, requests[0]), requests[1..], family);
    }
  }

  // ---------------------------------------------------------------- logging out everywhere

  /** Without anything in between, the query and the writes of `revoke_all` revoke every session of the user. */
  lemma UninterruptedLogout(b: Book, user: UserId, now: int)
    ensures Handle(b, Write(LiveOf(b.rows, user), now)) == Handle(b, RevokeAll(user, now))
    ensures LiveOf(Handle(b, RevokeAll(user, now)).rows, user) == {}
  {
    assert RevokeListed(b.rows, LiveOf(b.rows, user), now) == RevokeUser(b.rows, user, now);
  }

  /** A session that is live at the end and existed at the start was live then, and of the same user. */
  lemma {:induction false} LiveWasLive(b: Book, requests: seq<Request>, token: Token)
    requires token in b.rows
    ensures var b' := HandleAll(b, requests);
            && token in b'.rows && b'.rows[token].user == b.rows[token].user
            && (Live(b', token) ==> Live(b, token))
    decreases |requests|
  {
    if requests != [] {
      RowStays(b, requests[0], token);
      LiveWasLive(Handle(b, requests[0]), requests[1..], token);
    }
  }

  /**
   Other requests may commit between the query of `revoke_all` and its writes. What it leaves
   live of the user's sessions are exactly those issued in between.
   */
  lemma InterruptedLogout(b: Book, requests: seq<Request>, user: UserId, now: int)
    ensures var before := HandleAll(b, requests);
            LiveOf(Handle(before, Write(LiveOf(b.rows, user), now)).rows, user)
            == LiveOf(before.rows, user) - b.rows.Keys
  {
    var before := HandleAll(b, requests);
    var after := Handle(before, Write(LiveOf(b.rows, user), now));
    forall t
      ensures t in LiveOf(after.rows, user) <==> t in LiveOf(before.rows, user) - b.rows.Keys
    {
      if t in b.rows {
        LiveWasLive(b, requests, t);
      }
    }
  }

  /** So it does happen: a refresh between the query and the writes leaves the new session live. */
  lemma LogoutRace(user: UserId)
    ensures var b := Handle(NO_SESSIONS, Login(user, 1, 0, 0, 100));
            var before := HandleAll(b, [Refresh(1, 2, 10, 100, {user})]);
            LiveOf(Handle(before, Write(LiveOf(b.rows, user), 20)).rows, user) == {2}
  {
    var b := Handle(NO_SESSIONS, Login(user, 1, 0, 0, 100));
    var request := Refresh(1, 2, 10, 100, {user});
    assert [request][1..] == [];
    assert HandleAll(b, [request]) == Handle(b, request);
    InterruptedLogout(b, [request], user, 20);
  }

  // ---------------------------------------------------------------- the service

  class AuthenticationService {
    var rows: map<Token, Session>
    ghost var chains: map<Family, seq<Token>>

    ghost function View(): Book
      reads this
    {
      Book(rows, chains)
    }

    constructor ()
      ensures View() == NO_SESSIONS
    {
      rows, chains := map[], map[];
    }

    /** `issue_pair`, with the family of the refreshed session or a new one. */
    method IssuePair(user: UserId, token: Token, family: Family, expires: int)
      requires token !in rows
      modifies this
      ensures rows == old(rows)[token := Session(user, family, expires, None, None)]
      ensures chains == old(chains)[family := ChainOf(old(View()), family) + [token]]
    {
      rows := rows[token := Session(user, family, expires, None, None)];
      chains := chains[family := ChainOf(View(), family) + [token]];
    }

    /** What `register` and `login` end with. */
    method SignIn(user: UserId, token: Token, family: Family, now: int, lifetime: int)
      requires token !in rows && family !in chains
      modifies this
      ensures View() == Handle(old(View()), Login(user, token, family, now, lifetime))
      ensures rows.Keys == old(rows).Keys + {token} && JustIssued(rows[token], user, family, now + lifetime)
      ensures forall t :: t in old(rows) ==> rows[t] == old(rows)[t]
    {
      IssuePair(user, token, family, now + lifetime);
      assert [] + [token] == [token];
    }

    /** `refresh` */
    method RefreshToken(token: Token, next: Token, now: int, lifetime: int, active: set<UserId>) returns (reply: Reply)
      requires next !in rows && next != token
      modifies this
      ensures (View(), reply) == RefreshBook(old(View()), token, next, now, lifetime, active)
      ensures reply == Issued(next)
              <==> token in old(rows) && old(rows)[token].revokedAt.None? && now < old(rows)[token].expires
                   && old(rows)[token].user in active
      ensures reply == Issued(next) ==> Exchanged(old(rows), rows, token, next, now, lifetime)
      ensures reply != Issued(next) ==> reply == Denied
    {
      if token !in rows || rows[token].expires <= now {
        return Denied;
      }
      var item := rows[token];
      if item.revokedAt.Some? {
        RevokeAllOf(item.family, now);
        return Denied;
      }
      if item.user !in active {
        return Denied;
      }
      rows := rows[token := item.(revokedAt := Some(now))];
      IssuePair(item.user, next, item.family, now + lifetime);
      rows := rows[token := rows[token].(replacedBy := Some(next))];
      assert rows == Rotate(old(View()), token, next, now, now + lifetime).rows;
      return Issued(next);
    }

    /** The loop over the family of a replayed token. */
    method RevokeAllOf(family: Family, now: int)
      modifies this`rows
      ensures rows == RevokeFamily(old(rows), family, now)
    {
      var rest := set t | t in rows && rows[t].family == family;
      while rest != {}
        invariant rest <= rows.Keys && rows.Keys == old(rows).Keys
        invariant forall t :: t in rest ==> old(rows)[t].family == family && rows[t] == old(rows)[t]
        invariant forall t :: t in rows && t !in rest ==> rows[t] == RevokeFamily(old(rows), family, now)[t]
        decreases |rest|
      {
        var t :| t in rest;
        rows := rows[t := rows[t].(revokedAt := Some(now))];
        rest := rest - {t};
      }
    }

    /** `revoke` */
    method RevokeOne(token: Token, now: int)
      modifies this`rows
      ensures View() == Handle(old(View()), Revoke(token, now))
      ensures rows.Keys == old(rows).Keys && forall t :: t in rows && t != token ==> rows[t] == old(rows)[t]
      ensures token in rows ==>
                if old(rows)[token].revokedAt.None? then RevokedAt(old(rows)[token], rows[token], now)
                else rows[token] == old(rows)[token]
    {
      if token in rows && rows[token].revokedAt.None? {
        rows := rows[token := rows[token].(revokedAt := Some(now))];
      }
    }

    /** The loop of `revoke_all`, over sessions listed now or earlier. */
    method WriteRevoked(listed: set<Token>, now: int)
      modifies this`rows
      ensures View() == Handle(old(View()), Write(listed, now))
      ensures rows.Keys == old(rows).Keys
      ensures forall t :: t in rows ==>
                if t in listed then RevokedAt(old(rows)[t], rows[t], now) else rows[t] == old(rows)[t]
    {
      var rest := listed * rows.Keys;
      while rest != {}
        invariant rest <= listed * rows.Keys && rows.Keys == old(rows).Keys
        invariant forall t :: t in rest ==> rows[t] == old(rows)[t]
        invariant forall t :: t in rows && t !in rest ==> rows[t] == RevokeListed(old(rows), listed, now)[t]
        decreases |rest|
      {
        var t :| t in rest;
        rows := rows[t := rows[t].(revokedAt := Some(now))];
        rest := rest - {t};
      }
      assert rows == RevokeListed(old(rows), listed, now);
    }

    /** `revoke_all`, uninterrupted: its query and its loop. */
    method RevokeAllSessions(user: UserId, now: int)
      modifies this`rows
      ensures View() == Handle(old(View()), RevokeAll(user, now))
      ensures rows.Keys == old(rows).Keys
      ensures forall t :: t in rows ==>
                if old(rows)[t].user == user && old(rows)[t].revokedAt.None?
                then RevokedAt(old(rows)[t], rows[t], now) else rows[t] == old(rows)[t]
    {
      var listed := set t | t in rows && rows[t].user == user && rows[t].revokedAt.None?;
      UninterruptedLogout(View(), user, now);
      WriteRevoked(listed, now);
    }
  }
}
