// Refresh-token rotation with a grace window. Database queries, database writes and
// the synchronous stretches between them are separate steps, so that any number of
// requests interleave; time is a non-decreasing clock in milliseconds.
module RefreshRotation {
  import opened Common

  const REFRESH_TTL_MS: int := 604_800_000
  const REFRESH_GRACE_MS: int := 45_000
  const GRACE_CLEANUP_SIZE: int := 500

  // A signed refresh token; jti makes each one unique. Hashing is injective, so the
  // token itself stands for its hash.
  datatype Jwt = Jwt(jti: nat, user: string, exp: int)
  datatype Cookie = Junk | Signed(jwt: Jwt)

  datatype Session = Session(user: string, expiresAt: int, revokedAt: Option<int>)
  datatype Grace = Grace(user: string, until: int)

  type Sessions = map<Jwt, Session>
  type GraceTable = map<Jwt, Grace>

  // ----- The store's operations -----

  predicate Live(sessions: Sessions, t: Jwt, at: int) {
    t in sessions && sessions[t].user == t.user && sessions[t].revokedAt.None? && sessions[t].expiresAt > at
  }

  predicate RecentlyRevoked(sessions: Sessions, t: Jwt, at: int) {
    && t in sessions && sessions[t].user == t.user
    && sessions[t].revokedAt.Some? && sessions[t].revokedAt.value >= at - REFRESH_GRACE_MS
  }

  function Revoked(sessions: Sessions, t: Jwt, stamp: int): Sessions {
    if t in sessions && sessions[t].revokedAt.None? then sessions[t := sessions[t].(revokedAt := Some(stamp))]
    else sessions
  }

  function Created(sessions: Sessions, t: Jwt, stamp: int): Sessions {
    sessions[t := Session(t.user, stamp + REFRESH_TTL_MS, None)]
  }

  function Unexpired(grace: GraceTable, now: int): GraceTable {
    map t | t in grace && grace[t].until >= now :: grace[t]
  }

  function Remembered(grace: GraceTable, t: Jwt, now: int): GraceTable {
    var g := grace[t := Grace(t.user, now + REFRESH_GRACE_MS)];
    if |g| > GRACE_CLEANUP_SIZE then Unexpired(g, now) else g
  }

  predicate Redeemable(grace: GraceTable, t: Jwt, now: int) {
    t in grace && grace[t].until >= now && grace[t].user == t.user
  }

  // Looking an expired entry up drops it.
  function Consumed(grace: GraceTable, t: Jwt, now: int): GraceTable {
    if t in grace && grace[t].until < now then grace - {t} else grace
  }

  // A new session is live for seven days, to the millisecond.
  lemma LiveForSevenDays(sessions: Sessions, t: Jwt, now: int, at: int)
    ensures Live(Created(sessions, t, now), t, at) <==> at < now + 7 * 24 * 3600 * 1000
  {
  }

  // Revoking ends that at once, and leaves 45 seconds to come back.
  lemma RevokedForFortyFiveSeconds(sessions: Sessions, t: Jwt, stamp: int, at: int)
    requires t in sessions && sessions[t].user == t.user && sessions[t].revokedAt.None?
    ensures !Live(Revoked(sessions, t, stamp), t, at)
    ensures RecentlyRevoked(Revoked(sessions, t, stamp), t, at) <==> at <= stamp + 45_000
    ensures forall u :: u in sessions && u != t ==> Revoked(sessions, t, stamp)[u] == sessions[u]
  {
  }

  // The in-memory grace is as long, for its own user, and other entries still valid stay.
  lemma RememberedForFortyFiveSeconds(grace: GraceTable, t: Jwt, now: int, at: int)
    requires at >= now
    ensures Redeemable(Remembered(grace, t, now), t, at) <==> at <= now + 45_000
    ensures forall u :: u != t && Redeemable(grace, u, at) ==> Redeemable(Remembered(grace, t, now), u, at)
  {
  }

  class AuthStore {
    var sessions: Sessions
    var grace: GraceTable

    constructor ()
      ensures sessions == map[] && grace == map[]
    {
      sessions, grace := map[], map[];
    }

    method CreateRefreshSession(t: Jwt, now: int)
      modifies this`sessions
      ensures sessions == Created(old(sessions), t, now)
    {
      sessions := sessions[t := Session(t.user, now + REFRESH_TTL_MS, None)];
    }

    method RevokeRefreshSessionByToken(t: Jwt, now: int)
      modifies this`sessions
      ensures sessions == Revoked(old(sessions), t, now)
    {
      if t in sessions && sessions[t].revokedAt.None? {
        sessions := sessions[t := sessions[t].(revokedAt := Some(now))];
      }
    }

    method RememberRefreshGrace(t: Jwt, now: int)
      modifies this`grace
      ensures grace == Remembered(old(grace), t, now)
      ensures t in grace && grace[t] == Grace(t.user, now + REFRESH_GRACE_MS)
    {
      grace := grace[t := Grace(t.user, now + REFRESH_GRACE_MS)];
      if |grace| > GRACE_CLEANUP_SIZE {
        ghost var full := grace;
        var left := grace.Keys;
        while left != {}
          invariant left <= full.Keys
          invariant grace == map k | k in full && (k in left || full[k].until >= now) :: full[k]
          decreases |left|
        {
          var k :| k in left;
          if grace[k].until < now {
            grace := grace - {k};
          }
          left := left - {k};
        }
      }
    }

    method ConsumeRefreshGrace(t: Jwt, now: int) returns (user: Option<string>)
      modifies this`grace
      ensures grace == Consumed(old(grace), t, now)
      ensures user == Some(t.user) <==> Redeemable(old(grace), t, now)
    {
      if t !in grace {
        return None;
      }
      if grace[t].until < now {
        grace := grace - {t};
        return None;
      }
      return Some(grace[t].user);
    }
  }

  // ----- Requests -----

  // Where a refresh request stands. i is the cookie being looked at or matched.
  datatype Phase =
    | FindUser(i: nat)
    | FindSession(i: nat)
    | CheckGrace(i: nat)
    | FindRevoked(i: nat)
    | Matched(i: nat, fromGrace: bool)
    | Revoking(i: nat, pending: seq<Cookie>, stamp: int)
    | Creating(i: nat)
    | Remembering(i: nat)
    | Done(i: nat)
    | Refused

  datatype Request = Request(cookies: seq<Cookie>, phase: Phase, created: Option<Jwt>)

  datatype State = State(
    now: int,
    users: set<string>,
    issued: set<nat>,
    sessions: Sessions,
    logins: set<Jwt>,
    grace: GraceTable,
    requests: map<nat, Request>)

  predicate Finished(r: Request) {
    r.phase.Done? || r.phase.Refused?
  }

  // The position of the cookie a request has got to.
  function At(r: Request): nat {
    match r.phase
    case FindUser(i) => i
    case FindSession(i) => i
    case CheckGrace(i) => i
    case FindRevoked(i) => i
    case Matched(i, _) => i
    case Revoking(i, _, _) => i
    case Creating(i) => i
    case Remembering(i) => i
    case Done(i) => i
    case Refused => |r.cookies|
  }

  // The phases that look at, or have settled on, a genuine cookie.
  predicate OnCookie(r: Request) {
    !r.phase.FindUser? && !r.phase.Refused?
  }

  predicate Positioned(r: Request) {
    At(r) <= |r.cookies| && (OnCookie(r) ==> At(r) < |r.cookies| && r.cookies[At(r)].Signed?)
  }

  function Current(r: Request): Jwt
    requires Positioned(r) && OnCookie(r)
  {
    r.cookies[At(r)].jwt
  }

  function Others(cookies: seq<Cookie>, c: Cookie): seq<Cookie> {
    if cookies == [] then []
    else if cookies[0] == c then Others(cookies[1..], c)
    else [cookies[0]] + Others(cookies[1..], c)
  }

  // One step of a request. A database query uses the clock reading `stamp` it was
  // issued with, no later than now; jti is the id drawn for a new token.

  function NewToken(r: Request, stamp: int, jti: nat): Jwt
    requires Positioned(r) && OnCookie(r)
  {
    Jwt(jti, Current(r).user, stamp + REFRESH_TTL_MS)
  }

  function NextRequest(s: State, r: Request, stamp: int, jti: nat): Request
    requires Positioned(r)
  {
    match r.phase
    case FindUser(i) =>
      if i == |r.cookies| then r.(phase := Refused)
      else if r.cookies[i].Signed? && stamp < r.cookies[i].jwt.exp && r.cookies[i].jwt.user in s.users then
        r.(phase := FindSession(i))
      else r.(phase := FindUser(i + 1))
    case FindSession(i) =>
      r.(phase := if Live(s.sessions, Current(r), stamp) then Matched(i, false) else CheckGrace(i))
    case CheckGrace(i) =>
      r.(phase := if Redeemable(s.grace, Current(r), s.now) then Matched(i, true) else FindRevoked(i))
    case FindRevoked(i) =>
      r.(phase := if RecentlyRevoked(s.sessions, Current(r), stamp) then Matched(i, true) else FindUser(i + 1))
    case Matched(i, fromGrace) =>
      r.(phase := if fromGrace then Creating(i)
                  else Revoking(i, [r.cookies[i]] + Others(r.cookies, r.cookies[i]), s.now))
    case Revoking(i, pending, _) =>
      r.(phase := if pending == [] then Creating(i) else Revoking(i, pending[1..], s.now))
    case Creating(i) => r.(phase := Remembering(i), created := Some(NewToken(r, stamp, jti)))
    case Remembering(i) => r.(phase := Done(i))
    case Done(_) => r
    case Refused => r
  }

  function NextSessions(s: State, r: Request, stamp: int, jti: nat): Sessions
    requires Positioned(r)
  {
    match r.phase
    case Revoking(_, pending, issuedAt) =>
      if pending != [] && pending[0].Signed? then Revoked(s.sessions, pending[0].jwt, issuedAt) else s.sessions
    case Creating(_) => Created(s.sessions, NewToken(r, stamp, jti), stamp)
    case _ => s.sessions
  }

  function NextGrace(s: State, r: Request): GraceTable
    requires Positioned(r)
  {
    match r.phase
    case CheckGrace(_) => Consumed(s.grace, Current(r), s.now)
    case Matched(_, fromGrace) => if fromGrace then s.grace else Remembered(s.grace, Current(r), s.now)
    case Remembering(_) => Remembered(s.grace, Current(r), s.now)
    case _ => s.grace
  }

  function Proceed(s: State, id: nat, stamp: int, jti: nat): State
    requires id in s.requests && Positioned(s.requests[id])
  {
    var r := s.requests[id];
    s.(sessions := NextSessions(s, r, stamp, jti),
       grace := NextGrace(s, r),
       issued := if r.phase.Creating? then s.issued + {jti} else s.issued,
       requests := s.requests[id := NextRequest(s, r, stamp, jti)])
  }

  datatype Action =
    | Tick(ms: nat)
    | Arrive(id: nat, cookies: seq<Cookie>)
    | Advance(id: nat, stamp: int, jti: nat)
    | Login(user: string, jti: nat, stamp: int)
    | LogoutRevoke(t: Jwt, stamp: int)
    | ForgetGrace(tokens: set<Jwt>)

  // Cookies carry issued tokens or junk: signatures cannot be forged.
  predicate Genuine(cookies: seq<Cookie>, issued: set<nat>) {
    forall i :: 0 <= i < |cookies| && cookies[i].Signed? ==> cookies[i].jwt.jti in issued
  }

  // A new session is written while the token it is for has not run out.
  predicate LandsInTime(stamp: int, now: int) {
    stamp <= now < stamp + REFRESH_TTL_MS
  }

  predicate Enabled(s: State, a: Action) {
    match a
    case Tick(_) => true
    case Arrive(id, cookies) => id !in s.requests && Genuine(cookies, s.issued)
    case Advance(id, stamp, jti) =>
      && id in s.requests && Positioned(s.requests[id]) && !Finished(s.requests[id]) && stamp <= s.now
         && jti !in s.issued
      && (s.requests[id].phase.Creating? ==> LandsInTime(stamp, s.now))
    case Login(user, jti, stamp) => user in s.users && LandsInTime(stamp, s.now) && jti !in s.issued
    case LogoutRevoke(_, stamp) => stamp <= s.now
    case ForgetGrace(_) => true
  }

  function Apply(s: State, a: Action): State
    requires Enabled(s, a)
  {
    match a
    case Tick(ms) => s.(now := s.now + ms)
    case Arrive(id, cookies) => s.(requests := s.requests[id := Request(cookies, FindUser(0), None)])
    case Advance(id, stamp, jti) => Proceed(s, id, stamp, jti)
    case Login(user, jti, stamp) =>
      var t := Jwt(jti, user, stamp + REFRESH_TTL_MS);
      s.(sessions := Created(s.sessions, t, stamp), issued := s.issued + {jti}, logins := s.logins + {t})
    case LogoutRevoke(t, stamp) => s.(sessions := Revoked(s.sessions, t, stamp))
    case ForgetGrace(tokens) => s.(grace := s.grace - tokens)
  }

  predicate ValidRun(s: State, run: seq<Action>)
    decreases |run|
  {
    run == [] || (Enabled(s, run[0]) && ValidRun(Apply(s, run[0]), run[1..]))
  }

  function After(s: State, run: seq<Action>): State
    requires ValidRun(s, run)
    decreases |run|
  {
    if run == [] then s else After(Apply(s, run[0]), run[1..])
  }

  predicate Init(s: State) {
    s.sessions == map[] && s.grace == map[] && s.requests == map[] && s.logins == {}
  }

  // ----- The invariant -----

  // Nothing a request could match on: forged, expired, never a session, or revoked
  // longer ago than the grace window.
  ghost predicate Dead(s: State, c: Cookie) {
    c.Signed? ==>
      || c.jwt.exp <= s.now
      || c.jwt.user !in s.users
      || c.jwt !in s.sessions
      || s.sessions[c.jwt].expiresAt <= s.now
      || (s.sessions[c.jwt].revokedAt.Some? && s.sessions[c.jwt].revokedAt.value + REFRESH_GRACE_MS < s.now)
  }

  ghost predicate NotLive(s: State, t: Jwt) {
    !Live(s.sessions, t, s.now)
  }

  ghost predicate RowsOk(s: State) {
    forall t :: t in s.sessions ==>
                  && t.jti in s.issued && s.sessions[t].user == t.user
                  && (s.sessions[t].revokedAt.Some? ==> s.sessions[t].revokedAt.value <= s.now)
  }

  ghost predicate GraceOk(s: State) {
    forall t :: t in s.grace ==> t in s.sessions && s.grace[t].user == t.user
  }

  // Phases reached only after the session check, or the revocation, found nothing live.
  predicate SeenDead(p: Phase) {
    p.CheckGrace? || p.FindRevoked? || p.Creating? || p.Remembering? || p.Done? || (p.Matched? && p.fromGrace)
  }

  predicate Settled(p: Phase) {
    p.Matched? || p.Revoking? || p.Creating? || p.Remembering? || p.Done?
  }

  // Past the session check the cookie is not live; once settled it has a session row.
  ghost predicate CookieOk(s: State, r: Request)
    requires Positioned(r)
  {
    && (SeenDead(r.phase) ==> NotLive(s, Current(r)))
    && (Settled(r.phase) ==> Current(r) in s.sessions)
    && (r.phase.Revoking? ==>
          && r.phase.stamp <= s.now
          && (NotLive(s, Current(r)) || (r.phase.pending != [] && r.phase.pending[0] == Signed(Current(r)))))
  }

  // The new session exists from its creation on, and belongs to the same user.
  ghost predicate CreatedOk(s: State, r: Request)
    requires Positioned(r)
  {
    && (r.created.Some? <==> r.phase.Remembering? || r.phase.Done?)
    && (r.created.Some? ==>
          r.created.value in s.sessions && r.created.value !in s.logins && r.created.value.user == Current(r).user)
  }

  ghost predicate RequestOk(s: State, r: Request) {
    && Positioned(r) && Genuine(r.cookies, s.issued)
    && CookieOk(s, r) && CreatedOk(s, r)
    && forall j :: 0 <= j < At(r) ==> Dead(s, r.cookies[j])
  }

  ghost predicate RequestsOk(s: State) {
    forall id :: id in s.requests ==> RequestOk(s, s.requests[id])
  }

  // No two requests share a new session, and every session is a login or the work of
  // exactly one request.
  ghost predicate Accounted(s: State) {
    && (forall a, b :: a in s.requests && b in s.requests && a != b && s.requests[a].created.Some? ==>
                         s.requests[a].created != s.requests[b].created)
    && (forall t :: t in s.sessions && t !in s.logins ==> exists id :: MadeBy(s, t, id))
    && (forall t :: t in s.logins ==> t in s.sessions)
  }

  ghost predicate MadeBy(s: State, t: Jwt, id: nat) {
    id in s.requests && s.requests[id].created == Some(t)
  }

  ghost predicate Inv(s: State) {
    RowsOk(s) && GraceOk(s) && RequestsOk(s) && Accounted(s)
  }

  // ----- Every action keeps it -----

  // What no action undoes: time, issued ids, session rows and revocations.
  ghost predicate Grows(s: State, s': State) {
    && s.now <= s'.now && s.users == s'.users && s.issued <= s'.issued
    && RowsGrow(s.sessions, s'.sessions, s.issued)
    && (forall t :: t in s'.logins && t !in s.logins ==> t.jti !in s.issued)
  }

  ghost predicate RowsGrow(a: Sessions, b: Sessions, issued: set<nat>) {
    && (forall t :: t in a ==> t in b && RowGrows(a[t], b[t]))
    && (forall t :: t in b && t !in a ==> t.jti !in issued)
  }

  ghost predicate RowGrows(a: Session, b: Session) {
    a.user == b.user && a.expiresAt == b.expiresAt && (a.revokedAt.Some? ==> b.revokedAt == a.revokedAt)
  }

  lemma DeadStays(s: State, s': State, c: Cookie)
    requires Grows(s, s') && Dead(s, c) && (c.Signed? ==> c.jwt.jti in s.issued)
    ensures Dead(s', c)
  {
  }

  lemma NotLiveStays(s: State, s': State, t: Jwt)
    requires Grows(s, s') && NotLive(s, t) && t.jti in s.issued
    ensures NotLive(s', t)
  {
  }

  lemma CookieOkStays(s: State, s': State, r: Request)
    requires Grows(s, s') && Positioned(r) && Genuine(r.cookies, s.issued) && CookieOk(s, r)
    ensures CookieOk(s', r)
  {
    if OnCookie(r) && NotLive(s, Current(r)) {
      NotLiveStays(s, s', Current(r));
    }
  }

  lemma DeadPrefixStays(s: State, s': State, cookies: seq<Cookie>, n: nat)
    requires Grows(s, s') && Genuine(cookies, s.issued) && n <= |cookies|
    requires forall j :: 0 <= j < n ==> Dead(s, cookies[j])
    ensures forall j :: 0 <= j < n ==> Dead(s', cookies[j])
  {
    forall j | 0 <= j < n
      ensures Dead(s', cookies[j])
    {
      DeadStays(s, s', cookies[j]);
    }
  }

  lemma RequestOkStays(s: State, s': State, r: Request)
    requires RowsOk(s) && Grows(s, s') && RequestOk(s, r)
    ensures RequestOk(s', r)
  {
    CookieOkStays(s, s', r);
    DeadPrefixStays(s, s', r.cookies, At(r));
  }

  // Session rows with stamps no later than now.
  ghost predicate TableOk(sessions: Sessions, issued: set<nat>, now: int) {
    forall t :: t in sessions ==>
                  && t.jti in issued && sessions[t].user == t.user
                  && (sessions[t].revokedAt.Some? ==> sessions[t].revokedAt.value <= now)
  }

  lemma RevokedTable(sessions: Sessions, issued: set<nat>, now: int, t: Jwt, stamp: int)
    requires TableOk(sessions, issued, now) && stamp <= now
    ensures TableOk(Revoked(sessions, t, stamp), issued, now)
    ensures RowsGrow(sessions, Revoked(sessions, t, stamp), issued)
    ensures Revoked(sessions, t, stamp).Keys == sessions.Keys
    ensures !Live(Revoked(sessions, t, stamp), t, now)
  {
  }

  lemma CreatedTable(sessions: Sessions, issued: set<nat>, now: int, t: Jwt, stamp: int)
    requires TableOk(sessions, issued, now) && t.jti !in issued
    ensures TableOk(Created(sessions, t, stamp), issued + {t.jti}, now)
    ensures RowsGrow(sessions, Created(sessions, t, stamp), issued)
  {
  }

  lemma RememberedTable(grace: GraceTable, t: Jwt, now: int)
    requires forall u :: u in grace ==> grace[u].user == u.user
    ensures forall u :: u in Remembered(grace, t, now) ==>
              (u in grace || u == t) && Remembered(grace, t, now)[u].user == u.user
  {
  }

  // The tables after one step of a request.
  lemma SteppedTables(s: State, r: Request, stamp: int, jti: nat)
    requires RowsOk(s) && Positioned(r) && CookieOk(s, r) && stamp <= s.now && jti !in s.issued
    ensures var issued := if r.phase.Creating? then s.issued + {jti} else s.issued;
            TableOk(NextSessions(s, r, stamp, jti), issued, s.now)
    ensures RowsGrow(s.sessions, NextSessions(s, r, stamp, jti), s.issued)
    ensures NextSessions(s, r, stamp, jti).Keys ==
            s.sessions.Keys + if r.phase.Creating? then {NewToken(r, stamp, jti)} else {}
  {
    if r.phase.Revoking? && r.phase.pending != [] && r.phase.pending[0].Signed? {
      RevokedTable(s.sessions, s.issued, s.now, r.phase.pending[0].jwt, r.phase.stamp);
    } else if r.phase.Creating? {
      CreatedTable(s.sessions, s.issued, s.now, NewToken(r, stamp, jti), stamp);
    }
  }

  lemma SteppedGrace(s: State, r: Request)
    requires GraceOk(s) && Positioned(r) && CookieOk(s, r)
    ensures forall t :: t in NextGrace(s, r) ==> t in s.sessions && NextGrace(s, r)[t].user == t.user
  {
    if OnCookie(r) {
      RememberedTable(s.grace, Current(r), s.now);
    }
  }

  lemma ApplyGrows(s: State, a: Action)
    requires Inv(s) && Enabled(s, a)
    ensures Grows(s, Apply(s, a)) && RowsOk(Apply(s, a)) && GraceOk(Apply(s, a))
  {
    match a
    case Advance(id, stamp, jti) => AdvanceGrows(s, id, stamp, jti);
    case Login(user, jti, stamp) => LoginGrows(s, user, jti, stamp);
    case LogoutRevoke(t, stamp) => LogoutGrows(s, t, stamp);
    case _ =>
  }

  lemma LoginGrows(s: State, user: string, jti: nat, stamp: int)
    requires RowsOk(s) && GraceOk(s) && Enabled(s, Login(user, jti, stamp))
    ensures var s' := Apply(s, Login(user, jti, stamp)); Grows(s, s') && RowsOk(s') && GraceOk(s')
  {
    CreatedTable(s.sessions, s.issued, s.now, Jwt(jti, user, stamp + REFRESH_TTL_MS), stamp);
  }

  lemma LogoutGrows(s: State, t: Jwt, stamp: int)
    requires RowsOk(s) && GraceOk(s) && Enabled(s, LogoutRevoke(t, stamp))
    ensures var s' := Apply(s, LogoutRevoke(t, stamp)); Grows(s, s') && RowsOk(s') && GraceOk(s')
  {
    RevokedTable(s.sessions, s.issued, s.now, t, stamp);
  }

  lemma AdvanceGrows(s: State, id: nat, stamp: int, jti: nat)
    requires Inv(s) && Enabled(s, Advance(id, stamp, jti))
    ensures var s' := Proceed(s, id, stamp, jti); Grows(s, s') && RowsOk(s') && GraceOk(s')
  {
    var r := s.requests[id];
    assert RequestOk(s, r);
    SteppedTables(s, r, stamp, jti);
    SteppedGrace(s, r);
    GraceStaysOk(s, Proceed(s, id, stamp, jti), NextGrace(s, r));
  }

  lemma GraceStaysOk(s: State, s': State, grace: GraceTable)
    requires s.sessions.Keys <= s'.sessions.Keys && s'.grace == grace
    requires forall t :: t in grace ==> t in s.sessions && grace[t].user == t.user
    ensures GraceOk(s')
  {
  }

  // The cookie a request moves past is dead at that moment.
  lemma PassedCookieIsDead(s: State, r: Request, stamp: int, jti: nat)
    requires RowsOk(s) && RequestOk(s, r) && stamp <= s.now
    requires At(NextRequest(s, r, stamp, jti)) > At(r)
    ensures At(NextRequest(s, r, stamp, jti)) == At(r) + 1 <= |r.cookies|
    ensures Dead(s, r.cookies[At(r)])
  {
  }

  lemma SteppedCookieOk(s: State, s': State, r: Request, stamp: int, jti: nat)
    requires RowsOk(s) && GraceOk(s) && RequestOk(s, r) && stamp <= s.now
    requires Grows(s, s') && s'.now == s.now && s'.sessions == NextSessions(s, r, stamp, jti)
    ensures Positioned(NextRequest(s, r, stamp, jti)) && CookieOk(s', NextRequest(s, r, stamp, jti))
  {
    var r' := NextRequest(s, r, stamp, jti);
    if OnCookie(r) {
      var t := Current(r);
      if NotLive(s, t) {
        NotLiveStays(s, s', t);
      } else if r.phase.Revoking? {
        RevokedTable(s.sessions, s.issued, s.now, t, r.phase.stamp);
      }
    }
  }

  lemma SteppedRequestOk(s: State, id: nat, stamp: int, jti: nat)
    requires Inv(s) && Enabled(s, Advance(id, stamp, jti))
    ensures var s' := Proceed(s, id, stamp, jti); RequestOk(s', s'.requests[id])
  {
    var s' := Proceed(s, id, stamp, jti);
    var r := s.requests[id];
    assert RequestOk(s, r);
    ApplyGrows(s, Advance(id, stamp, jti));
    SteppedCookieOk(s, s', r, stamp, jti);
    SteppedPrefixDead(s, s', r, stamp, jti);
    SteppedCreatedOk(s, s', r, stamp, jti);
  }

  lemma SteppedPrefixDead(s: State, s': State, r: Request, stamp: int, jti: nat)
    requires RowsOk(s) && RequestOk(s, r) && stamp <= s.now && Grows(s, s')
    ensures var r' := NextRequest(s, r, stamp, jti);
            && r'.cookies == r.cookies && Genuine(r.cookies, s'.issued)
            && forall j :: 0 <= j < At(r') && j < |r.cookies| ==> Dead(s', r.cookies[j])
  {
    DeadPrefixStays(s, s', r.cookies, At(r));
    if At(NextRequest(s, r, stamp, jti)) > At(r) {
      PassedCookieIsDead(s, r, stamp, jti);
      DeadStays(s, s', r.cookies[At(r)]);
    }
  }

  lemma SteppedCreatedOk(s: State, s': State, r: Request, stamp: int, jti: nat)
    requires RowsOk(s) && RequestOk(s, r) && Grows(s, s') && jti !in s.issued && Accounted(s)
    requires s'.sessions == NextSessions(s, r, stamp, jti) && s'.logins == s.logins
    requires Positioned(NextRequest(s, r, stamp, jti))
    ensures CreatedOk(s', NextRequest(s, r, stamp, jti))
  {
    CreatedField(s, r, stamp, jti);
  }

  lemma RequestsOkKept(s: State, a: Action)
    requires Inv(s) && Enabled(s, a)
    ensures RequestsOk(Apply(s, a))
  {
    var s' := Apply(s, a);
    ApplyGrows(s, a);
    forall id | id in s'.requests
      ensures RequestOk(s', s'.requests[id])
    {
      if a.Advance? && id == a.id {
        SteppedRequestOk(s, id, a.stamp, a.jti);
      } else if id in s.requests {
        RequestOkStays(s, s', s.requests[id]);
      }
    }
  }

  lemma AccountedKept(s: State, a: Action)
    requires Inv(s) && Enabled(s, a)
    ensures Accounted(Apply(s, a))
  {
    match a
    case Advance(id, stamp, jti) =>
      assert RequestOk(s, s.requests[id]);
      SteppedTables(s, s.requests[id], stamp, jti);
      StepAccounted(s, id, stamp, jti);
    case Arrive(id, cookies) =>
      ArriveAccounted(s, id, cookies);
    case Login(user, jti, stamp) =>
      SameRequestsAccounted(s, Apply(s, a), {Jwt(jti, user, stamp + REFRESH_TTL_MS)});
    case LogoutRevoke(t, stamp) =>
      RevokedTable(s.sessions, s.issued, s.now, t, stamp);
      SameRequestsAccounted(s, Apply(s, a), {});
    case _ =>
      SameRequestsAccounted(s, Apply(s, a), {});
  }

  lemma SameRequestsAccounted(s: State, s': State, added: set<Jwt>)
    requires Accounted(s) && s'.requests == s.requests
    requires s'.sessions.Keys == s.sessions.Keys + added && s'.logins == s.logins + added
    ensures Accounted(s')
  {
    forall t | t in s'.sessions && t !in s'.logins
      ensures exists id :: MadeBy(s', t, id)
    {
      var id :| MadeBy(s, t, id);
      assert MadeBy(s', t, id);
    }
  }

  lemma ArriveAccounted(s: State, id: nat, cookies: seq<Cookie>)
    requires Accounted(s) && id !in s.requests
    ensures Accounted(s.(requests := s.requests[id := Request(cookies, FindUser(0), None)]))
  {
    var s' := s.(requests := s.requests[id := Request(cookies, FindUser(0), None)]);
    forall t | t in s'.sessions && t !in s'.logins
      ensures exists k :: MadeBy(s', t, k)
    {
      var k :| MadeBy(s, t, k);
      assert MadeBy(s', t, k);
    }
  }

  lemma StepAccounted(s: State, id: nat, stamp: int, jti: nat)
    requires Inv(s) && Enabled(s, Advance(id, stamp, jti))
    requires var r := s.requests[id];
             NextSessions(s, r, stamp, jti).Keys ==
             s.sessions.Keys + if r.phase.Creating? then {NewToken(r, stamp, jti)} else {}
    ensures Accounted(Proceed(s, id, stamp, jti))
  {
    var s' := Proceed(s, id, stamp, jti);
    var r := s.requests[id];
    assert RequestOk(s, r);
    CreatedField(s, r, stamp, jti);
    if r.phase.Creating? {
      CreatedAreSessions(s);
      NewSessionAccounted(s, s', id, NewToken(r, stamp, jti));
    } else {
      SameCreatedAccounted(s, s');
    }
  }

  // A request without a session of its own gets a new one.
  lemma NewSessionAccounted(s: State, s': State, id: nat, n: Jwt)
    requires Accounted(s) && id in s.requests && s.requests[id].created.None? && n !in s.sessions
    requires forall k :: k in s.requests && s.requests[k].created.Some? ==> s.requests[k].created.value in s.sessions
    requires s'.requests.Keys == s.requests.Keys && s'.requests[id].created == Some(n)
    requires forall k :: k in s.requests && k != id ==> s'.requests[k] == s.requests[k]
    requires s'.sessions.Keys == s.sessions.Keys + {n} && s'.logins == s.logins
    ensures Accounted(s')
  {
    forall t | t in s'.sessions && t !in s'.logins
      ensures exists k :: MadeBy(s', t, k)
    {
      if t == n {
        assert MadeBy(s', t, id);
      } else {
        var k :| MadeBy(s, t, k);
        assert MadeBy(s', t, k);
      }
    }
  }

  lemma CreatedAreSessions(s: State)
    requires RequestsOk(s)
    ensures forall k :: k in s.requests && s.requests[k].created.Some? ==> s.requests[k].created.value in s.sessions
  {
    forall k | k in s.requests && s.requests[k].created.Some?
      ensures s.requests[k].created.value in s.sessions
    {
      assert RequestOk(s, s.requests[k]);
    }
  }

  // Nobody's session changes hands.
  lemma SameCreatedAccounted(s: State, s': State)
    requires Accounted(s) && s'.requests.Keys == s.requests.Keys
    requires forall k :: k in s.requests ==> s'.requests[k].created == s.requests[k].created
    requires s'.sessions.Keys == s.sessions.Keys && s'.logins == s.logins
    ensures Accounted(s')
  {
    forall t | t in s'.sessions && t !in s'.logins
      ensures exists k :: MadeBy(s', t, k)
    {
      var k :| MadeBy(s, t, k);
      assert MadeBy(s', t, k);
    }
  }

  // A step touches the created field only to set it to the new token.
  lemma CreatedField(s: State, r: Request, stamp: int, jti: nat)
    requires Positioned(r)
    ensures NextRequest(s, r, stamp, jti).created == if r.phase.Creating? then Some(NewToken(r, stamp, jti))
            else r.created
  {
  }

  lemma StepKeepsInv(s: State, a: Action)
    requires Inv(s) && Enabled(s, a)
    ensures Inv(Apply(s, a))
  {
    ApplyGrows(s, a);
    RequestsOkKept(s, a);
    AccountedKept(s, a);
  }

  lemma {:induction false} InvariantOverRuns(s: State, run: seq<Action>)
    requires Inv(s) && ValidRun(s, run)
    ensures Inv(After(s, run))
    decreases |run|
  {
    if run == [] {
    } else {
      StepKeepsInv(s, run[0]);
      InvariantOverRuns(Apply(s, run[0]), run[1..]);
    }
  }

  lemma EveryReachableState(s0: State, run: seq<Action>)
    requires Init(s0) && ValidRun(s0, run)
    ensures Inv(After(s0, run))
  {
    InvariantOverRuns(s0, run);
  }

  // ----- What rotation promises -----

  // The token is genuine and unexpired, and its session is live or was revoked no
  // longer ago than the grace window.
  ghost predicate Graceful(s: State, t: Jwt) {
    && s.now < t.exp && t.user in s.users
    && t in s.sessions && s.now < s.sessions[t].expiresAt
    && (s.sessions[t].revokedAt.Some? ==> s.now <= s.sessions[t].revokedAt.value + REFRESH_GRACE_MS)
  }

  // A request is refused only when none of its cookies deserved better.
  lemma RefusedOnlyWhenDead(s0: State, run: seq<Action>, id: nat)
    requires Init(s0) && ValidRun(s0, run)
    requires id in After(s0, run).requests && After(s0, run).requests[id].phase.Refused?
    ensures var s := After(s0, run);
            forall j :: 0 <= j < |s.requests[id].cookies| ==>
                          && Dead(s, s.requests[id].cookies[j])
                          && (s.requests[id].cookies[j].Signed? ==> !Graceful(s, s.requests[id].cookies[j].jwt))
  {
    EveryReachableState(s0, run);
    assert RequestOk(After(s0, run), After(s0, run).requests[id]);
  }

  // The request is still looking for a cookie to match.
  predicate Checking(p: Phase) {
    !Settled(p) && !p.Refused?
  }

  // At every moment of the run at which the request is checking, the token is live or
  // recently revoked.
  ghost predicate GracefulWhileChecking(s: State, run: seq<Action>, id: nat, t: Jwt)
    requires ValidRun(s, run)
    decreases |run|
  {
    && (id in s.requests && Checking(s.requests[id].phase) ==> Graceful(s, t))
    && (run != [] ==> GracefulWhileChecking(Apply(s, run[0]), run[1..], id, t))
  }

  ghost predicate Holding(s: State, id: nat, t: Jwt) {
    && id in s.requests
    && !s.requests[id].phase.Refused?
    && At(s.requests[id]) < |s.requests[id].cookies|
    && s.requests[id].cookies[At(s.requests[id])] == Signed(t)
  }

  lemma GracefulCookieHolds(s: State, a: Action, id: nat, t: Jwt)
    requires Inv(s) && Enabled(s, a) && Holding(s, id, t)
    requires !Settled(s.requests[id].phase) ==> Graceful(s, t)
    ensures Holding(Apply(s, a), id, t)
  {
    if a.Advance? && a.id == id {
      assert RequestOk(s, s.requests[id]);
      GracefulStepHolds(s, s.requests[id], a.stamp, a.jti, t);
    } else {
      OthersUntouched(s, a, id);
    }
  }

  lemma OthersUntouched(s: State, a: Action, id: nat)
    requires Enabled(s, a) && id in s.requests && !(a.Advance? && a.id == id)
    ensures id in Apply(s, a).requests && Apply(s, a).requests[id] == s.requests[id]
  {
    match a {
      case Advance(k, stamp, jti) =>
      case _ =>
    }
  }

  lemma GracefulStepHolds(s: State, r: Request, stamp: int, jti: nat, t: Jwt)
    requires RowsOk(s) && RequestOk(s, r) && stamp <= s.now
    requires !r.phase.Refused? && At(r) < |r.cookies| && r.cookies[At(r)] == Signed(t)
    requires !Settled(r.phase) ==> Graceful(s, t)
    ensures var r' := NextRequest(s, r, stamp, jti);
            !r'.phase.Refused? && r'.cookies == r.cookies && At(r') == At(r)
  {
    var r' := NextRequest(s, r, stamp, jti);
    if At(r') > At(r) && !Settled(r.phase) {
      PassedCookieIsDead(s, r, stamp, jti);
    }
  }

  lemma {:induction false} HoldsThroughRun(s: State, run: seq<Action>, id: nat, t: Jwt)
    requires Inv(s) && ValidRun(s, run) && Holding(s, id, t) && GracefulWhileChecking(s, run, id, t)
    ensures Holding(After(s, run), id, t)
    decreases |run|
  {
    if run == [] {
    } else {
      GracefulCookieHolds(s, run[0], id, t);
      StepKeepsInv(s, run[0]);
      HoldsThroughRun(Apply(s, run[0]), run[1..], id, t);
    }
  }

  // ----- The new session is live -----

  // The action revokes t: a logout, or the revoking step of some refresh, names it.
  predicate Names(s: State, a: Action, t: Jwt) {
    match a
    case LogoutRevoke(u, _) => u == t
    case Advance(id, _, _) =>
      && id in s.requests && s.requests[id].phase.Revoking?
      && s.requests[id].phase.pending != [] && s.requests[id].phase.pending[0] == Signed(t)
    case _ => false
  }

  ghost predicate NamedIn(s: State, run: seq<Action>, t: Jwt)
    requires ValidRun(s, run)
    decreases |run|
  {
    run != [] && (Names(s, run[0], t) || NamedIn(Apply(s, run[0]), run[1..], t))
  }

  // An unrevoked session row changes only when it is named, and then it is revoked.
  lemma RowUntilNamed(s: State, a: Action, t: Jwt)
    requires Inv(s) && Enabled(s, a) && t in s.sessions && s.sessions[t].revokedAt.None?
    ensures t in Apply(s, a).sessions
    ensures !Names(s, a, t) ==> Apply(s, a).sessions[t] == s.sessions[t]
    ensures Names(s, a, t) ==> Apply(s, a).sessions[t].revokedAt.Some?
  {
    match a
    case Advance(id, stamp, jti) =>
      var r := s.requests[id];
      assert r.phase.Creating? ==> NewToken(r, stamp, jti) != t;
    case _ =>
  }

  lemma {:induction false} RevokedStays(s: State, run: seq<Action>, t: Jwt)
    requires Inv(s) && ValidRun(s, run) && t in s.sessions && s.sessions[t].revokedAt.Some?
    ensures t in After(s, run).sessions && After(s, run).sessions[t] == s.sessions[t]
    decreases |run|
  {
    if run == [] {
    } else {
      ApplyGrows(s, run[0]);
      StepKeepsInv(s, run[0]);
      RevokedStays(Apply(s, run[0]), run[1..], t);
    }
  }

  // A session stays live exactly until it expires or an action names it.
  lemma {:induction false} LiveExactlyUntil(s: State, run: seq<Action>, t: Jwt)
    requires Inv(s) && ValidRun(s, run) && t in s.sessions && s.sessions[t].revokedAt.None?
    ensures t in After(s, run).sessions
    ensures Live(After(s, run).sessions, t, After(s, run).now) <==>
            !NamedIn(s, run, t) && After(s, run).now < s.sessions[t].expiresAt
    decreases |run|
  {
    if run == [] {
    } else {
      RowUntilNamed(s, run[0], t);
      StepKeepsInv(s, run[0]);
      if Names(s, run[0], t) {
        RevokedStays(Apply(s, run[0]), run[1..], t);
      } else {
        LiveExactlyUntil(Apply(s, run[0]), run[1..], t);
      }
    }
  }

  predicate Creates(s: State, a: Action, id: nat) {
    a.Advance? && a.id == id && id in s.requests && s.requests[id].phase.Creating?
  }

  // In this run the request makes the session n: new, for the token's user and live when
  // it is made, and live afterwards exactly until it expires or an action names it.
  ghost predicate MakesLive(s: State, run: seq<Action>, id: nat, n: Jwt)
    requires ValidRun(s, run)
    decreases |run|
  {
    && run != []
    && var s' := Apply(s, run[0]);
       if Creates(s, run[0], id) then
         && n !in s.sessions && s'.requests[id].created == Some(n) && Live(s'.sessions, n, s'.now)
         && (Live(After(s, run).sessions, n, After(s, run).now) <==>
             !NamedIn(s', run[1..], n) && After(s, run).now < n.exp)
       else MakesLive(s', run[1..], id, n)
  }

  lemma CreatedIsLive(s: State, a: Action, id: nat)
    requires Inv(s) && Enabled(s, a) && Creates(s, a, id)
    ensures var s' := Apply(s, a);
            && id in s'.requests && s'.requests[id].created.Some?
            && var n := s'.requests[id].created.value;
               n !in s.sessions && n in s'.sessions && s'.sessions[n] == Session(n.user, n.exp, None)
               && Live(s'.sessions, n, s'.now)
  {
    assert RequestOk(s, s.requests[id]);
    CreatedField(s, s.requests[id], a.stamp, a.jti);
  }

  lemma CreatingMakesLive(s: State, run: seq<Action>, id: nat)
    requires Inv(s) && ValidRun(s, run) && run != [] && Creates(s, run[0], id)
    ensures id in Apply(s, run[0]).requests && Apply(s, run[0]).requests[id].created.Some?
    ensures MakesLive(s, run, id, Apply(s, run[0]).requests[id].created.value)
  {
    CreatedIsLive(s, run[0], id);
    StepKeepsInv(s, run[0]);
    LiveExactlyUntil(Apply(s, run[0]), run[1..], Apply(s, run[0]).requests[id].created.value);
  }

  lemma RequestsStay(s: State, a: Action, id: nat)
    requires Enabled(s, a) && id in s.requests
    ensures id in Apply(s, a).requests
  {
  }

  // Only a creating step of its own sets what a request has created.
  lemma CreatedChanges(s: State, a: Action, id: nat)
    requires Inv(s) && Enabled(s, a) && id in Apply(s, a).requests && !Creates(s, a, id)
    ensures if id in s.requests then Apply(s, a).requests[id].created == s.requests[id].created
            else Apply(s, a).requests[id].created.None?
  {
    if id in s.requests {
      if a.Advance? && a.id == id {
        assert RequestOk(s, s.requests[id]);
        CreatedField(s, s.requests[id], a.stamp, a.jti);
      } else {
        OthersUntouched(s, a, id);
      }
    }
  }

  // What a request has created is never changed.
  lemma {:induction false} CreatedStays(s: State, run: seq<Action>, id: nat)
    requires Inv(s) && ValidRun(s, run) && id in s.requests && s.requests[id].created.Some?
    ensures id in After(s, run).requests && After(s, run).requests[id].created == s.requests[id].created
    decreases |run|
  {
    if run == [] {
    } else {
      assert RequestOk(s, s.requests[id]);
      RequestsStay(s, run[0], id);
      CreatedChanges(s, run[0], id);
      StepKeepsInv(s, run[0]);
      CreatedStays(Apply(s, run[0]), run[1..], id);
    }
  }

  // Every created session was made live, in the run that made it.
  lemma {:induction false} CreatedWasLive(s: State, run: seq<Action>, id: nat)
    requires Inv(s) && ValidRun(s, run) && (id in s.requests ==> s.requests[id].created.None?)
    requires id in After(s, run).requests && After(s, run).requests[id].created.Some?
    ensures MakesLive(s, run, id, After(s, run).requests[id].created.value)
    decreases |run|
  {
    assert run != [];
    StepKeepsInv(s, run[0]);
    if Creates(s, run[0], id) {
      CreatingMakesLive(s, run, id);
      CreatedStays(Apply(s, run[0]), run[1..], id);
    } else {
      if id in Apply(s, run[0]).requests {
        CreatedChanges(s, run[0], id);
      }
      CreatedWasLive(Apply(s, run[0]), run[1..], id);
    }
  }

  // What a finished refresh of the token t leaves behind.
  ghost predicate RefreshedOnce(s: State, id: nat, t: Jwt) {
    && id in s.requests && s.requests[id].phase.Done? && s.requests[id].created.Some?
    && var n := s.requests[id].created.value;
       && n in s.sessions && s.sessions[n].user == n.user == t.user && n !in s.logins
       && (forall k :: k in s.requests && k != id ==> s.requests[k].created != Some(n))
       && !Live(s.sessions, t, s.now)
  }

  lemma DoneIsRefreshed(s: State, id: nat, t: Jwt)
    requires Inv(s) && Holding(s, id, t) && s.requests[id].phase.Done?
    ensures RefreshedOnce(s, id, t)
  {
    assert RequestOk(s, s.requests[id]);
  }

  // The request carries t among its cookies and has not been refused.
  ghost predicate Carrying(s: State, id: nat, t: Jwt) {
    id in s.requests && !s.requests[id].phase.Refused? && Signed(t) in s.requests[id].cookies
  }

  // A graceful cookie lies ahead of every request that is still checking, so that the
  // request does not run out of cookies.
  lemma CarryingStepHolds(s: State, a: Action, id: nat, t: Jwt)
    requires Inv(s) && Enabled(s, a) && Carrying(s, id, t)
    requires Checking(s.requests[id].phase) ==> Graceful(s, t)
    ensures Carrying(Apply(s, a), id, t)
  {
    if a.Advance? && a.id == id {
      assert RequestOk(s, s.requests[id]);
      CarryingRequestHolds(s, s.requests[id], a.stamp, a.jti, t);
    } else {
      OthersUntouched(s, a, id);
    }
  }

  lemma CarryingRequestHolds(s: State, r: Request, stamp: int, jti: nat, t: Jwt)
    requires RequestOk(s, r) && !r.phase.Refused? && Signed(t) in r.cookies
    requires Checking(r.phase) ==> Graceful(s, t)
    ensures var r' := NextRequest(s, r, stamp, jti); !r'.phase.Refused? && r'.cookies == r.cookies
  {
    var j :| 0 <= j < |r.cookies| && r.cookies[j] == Signed(t);
    assert j < At(r) ==> Dead(s, r.cookies[j]);
  }

  lemma {:induction false} CarryingThroughRun(s: State, run: seq<Action>, id: nat, t: Jwt)
    requires Inv(s) && ValidRun(s, run) && Carrying(s, id, t) && GracefulWhileChecking(s, run, id, t)
    ensures Carrying(After(s, run), id, t)
    decreases |run|
  {
    if run == [] {
    } else {
      CarryingStepHolds(s, run[0], id, t);
      StepKeepsInv(s, run[0]);
      CarryingThroughRun(Apply(s, run[0]), run[1..], id, t);
    }
  }

  // The promise to every tab: a request that carries a token, wherever among its cookies,
  // and finishes, and whose token was live or within grace while the request was checking,
  // has succeeded. It made one session of its own for the user of the cookie it matched,
  // live when made and until it expires or is named, and that cookie is not live any more.
  // If it had already reached the token, that is the cookie it matched.
  lemma NoTabIsLoggedOut(s: State, run: seq<Action>, id: nat, t: Jwt)
    requires Inv(s) && ValidRun(s, run) && Carrying(s, id, t) && GracefulWhileChecking(s, run, id, t)
    requires s.requests[id].created.None?
    requires id in After(s, run).requests && Finished(After(s, run).requests[id])
    ensures var e := After(s, run);
            && Positioned(e.requests[id]) && OnCookie(e.requests[id])
            && RefreshedOnce(e, id, Current(e.requests[id]))
            && MakesLive(s, run, id, e.requests[id].created.value)
            && (Holding(s, id, t) ==> Current(e.requests[id]) == t)
  {
    var e := After(s, run);
    CarryingThroughRun(s, run, id, t);
    InvariantOverRuns(s, run);
    assert RequestOk(e, e.requests[id]);
    DoneIsRefreshed(e, id, Current(e.requests[id]));
    CreatedWasLive(s, run, id);
    if Holding(s, id, t) {
      HoldsThroughRun(s, run, id, t);
    }
  }

  // From an empty store: every finished refresh made exactly one session, its own, for
  // the same user and live, and the token it presented is no longer live.
  lemma RefreshedExactlyOnce(s0: State, run: seq<Action>, id: nat)
    requires Init(s0) && ValidRun(s0, run)
    requires id in After(s0, run).requests && After(s0, run).requests[id].phase.Done?
    ensures var s := After(s0, run);
            && Positioned(s.requests[id]) && RefreshedOnce(s, id, Current(s.requests[id]))
            && MakesLive(s0, run, id, s.requests[id].created.value)
  {
    EveryReachableState(s0, run);
    var s := After(s0, run);
    assert RequestOk(s, s.requests[id]);
    DoneIsRefreshed(s, id, Current(s.requests[id]));
    CreatedWasLive(s0, run, id);
  }

  // Sessions are conserved: each one comes from a login or from one refresh.
  lemma SessionsAreAccountedFor(s0: State, run: seq<Action>, t: Jwt)
    requires Init(s0) && ValidRun(s0, run) && t in After(s0, run).sessions
    ensures var s := After(s0, run);
            t in s.logins || exists id :: MadeBy(s, t, id) && forall k :: MadeBy(s, t, k) ==> k == id
  {
    EveryReachableState(s0, run);
    var s := After(s0, run);
    if t !in s.logins {
      var id :| MadeBy(s, t, id);
      forall k | MadeBy(s, t, k)
        ensures k == id
      {
      }
    }
  }

  // ----- Every request finishes -----

  function Rank(r: Request): int {
    var n := |r.cookies|;
    match r.phase
    case FindUser(i) => n + 7 + 4 * (n - i)
    case FindSession(i) => n + 6 + 4 * (n - i)
    case CheckGrace(i) => n + 5 + 4 * (n - i)
    case FindRevoked(i) => n + 4 + 4 * (n - i)
    case Matched(_, _) => n + 4
    case Revoking(_, pending, _) => |pending| + 3
    case Creating(_) => 2
    case Remembering(_) => 1
    case Done(_) => 0
    case Refused => 0
  }

  lemma {:induction false} OthersLength(cookies: seq<Cookie>, c: Cookie)
    ensures |Others(cookies, c)| <= |cookies|
    ensures c in cookies ==> |Others(cookies, c)| < |cookies|
  {
    if cookies == [] {
    } else {
      OthersLength(cookies[1..], c);
    }
  }

  // Each step of its own brings a request closer to its answer, and until then one is
  // always possible.
  lemma RequestsMakeProgress(s: State, r: Request, stamp: int, jti: nat)
    requires Positioned(r) && !Finished(r)
    ensures 0 <= Rank(NextRequest(s, r, stamp, jti)) < Rank(r)
  {
    if OnCookie(r) {
      OthersLength(r.cookies, r.cookies[At(r)]);
    }
  }

  lemma NextStepIsEnabled(s: State, id: nat) returns (a: Action)
    requires Inv(s) && id in s.requests && !Finished(s.requests[id])
    ensures a.Advance? && a.id == id && Enabled(s, a)
  {
    assert RequestOk(s, s.requests[id]);
    var jti := UnusedId(s.issued);
    a := Advance(id, s.now, jti);
  }

  lemma UnusedId(issued: set<nat>) returns (jti: nat)
    ensures jti !in issued
    ensures forall k :: k in issued ==> k < jti
    decreases issued
  {
    if issued == {} {
      jti := 0;
    } else {
      var k :| k in issued;
      var m := UnusedId(issued - {k});
      jti := if k < m then m else k + 1;
      forall j | j in issued
        ensures j < jti
      {
        assert j == k || j in issued - {k};
      }
    }
  }
}
