/**
 * The session aggregate and its repository: refresh-token rotation with reuse
 * detection.
 *
 * A transition of the aggregate is checked as a whole before any field changes, so a
 * function from an aggregate to a result is the specification of a method.
 */
module AuthSessions {
  import opened Prelude

  type SessionId = nat
  type TokenId = nat

  datatype Session = Session(
    userId: nat,
    createdAt: Time,
    idleExpiresAt: Time,
    revokedAt: Option<Time>)

  datatype RefreshToken = RefreshToken(
    id: TokenId,
    sessionId: SessionId,
    hash: Digest,
    createdAt: Time,
    usedAt: Option<Time>)
  {
    predicate Valid() { usedAt.Some? ==> createdAt <= usedAt.value }
  }

  datatype DomainError =
    | InvalidRefreshToken
    | SessionInactive
    | TokenReuse
    | InvalidTimestamp
    | InvalidState
    | InvalidLifetime

  /** The session with the presented token and the result of its rotation. */
  datatype Aggregate = Aggregate(
    id: SessionId,
    session: Session,
    token: Option<RefreshToken>,
    replacement: Option<RefreshToken>)
  {
    predicate TimesValid() {
      && session.createdAt < session.idleExpiresAt
      && (session.revokedAt.Some? ==> session.createdAt <= session.revokedAt.value)
    }

    predicate Belongs(t: Option<RefreshToken>) {
      t.Some? ==> t.value.sessionId == id && session.createdAt <= t.value.createdAt
    }

    predicate TokensValid() {
      && Belongs(token) && Belongs(replacement)
      && (replacement.Some? ==>
            && token.Some? && token.value.usedAt.Some? && replacement.value.usedAt.None?
            && replacement.value.id != token.value.id
            && replacement.value.hash != token.value.hash)
    }

    predicate Valid() { TimesValid() && TokensValid() }
  }

  /** `_change_state`: the candidate replaces the aggregate only if it validates. */
  function Checked(candidate: Aggregate): Result<Aggregate, DomainError> {
    if !candidate.TimesValid() then Err(InvalidTimestamp)
    else if !candidate.TokensValid() then Err(InvalidState)
    else Ok(candidate)
  }

  predicate IsActive(s: Session, now: Time) {
    s.revokedAt.None? && s.createdAt <= now < s.idleExpiresAt
  }

  function Start(id: SessionId, userId: nat, tokenId: TokenId, hash: Digest, now: Time,
                 idleTtl: int): Result<Aggregate, DomainError>
  {
    if idleTtl <= 0 then Err(InvalidLifetime)
    else Checked(Aggregate(id, Session(userId, now, now + idleTtl, None),
                           Some(RefreshToken(tokenId, id, hash, now, None)), None))
  }

  function Revoke(a: Aggregate, now: Time): Result<Aggregate, DomainError> {
    if a.session.revokedAt.Some? then Ok(a)
    else Checked(a.(session := a.session.(revokedAt := Some(now))))
  }

  /** `Ok(a, false)` is a refusal whose revocation is to be kept. */
  function AcceptsRefresh(a: Aggregate, now: Time, canAuthenticate: bool)
    : Result<(Aggregate, bool), DomainError>
  {
    if a.token.None? then Err(InvalidRefreshToken)
    else if a.token.value.usedAt.Some? then Refused(Revoke(a, now))
    else if !IsActive(a.session, now) then Err(SessionInactive)
    else if !canAuthenticate then Refused(Revoke(a, now))
    else Ok((a, true))
  }

  function Refused(r: Result<Aggregate, DomainError>): Result<(Aggregate, bool), DomainError> {
    match r
    case Ok(a) => Ok((a, false))
    case Err(e) => Err(e)
  }

  function Rotate(a: Aggregate, now: Time, idleTtl: int, tokenId: TokenId, hash: Digest)
    : Result<Aggregate, DomainError>
  {
    if idleTtl <= 0 then Err(InvalidLifetime)
    else if !IsActive(a.session, now) then Err(SessionInactive)
    else if a.token.None? then Err(InvalidRefreshToken)
    else if a.token.value.usedAt.Some? then Err(TokenReuse)
    else if now < a.token.value.createdAt then Err(InvalidTimestamp)
    else Checked(a.(token := Some(a.token.value.(usedAt := Some(now))),
                    replacement := Some(RefreshToken(tokenId, a.id, hash, now, None)),
                    session := a.session.(idleExpiresAt := now + idleTtl)))
  }

  function CanReplay(a: Aggregate, now: Time): Result<bool, DomainError> {
    if a.token.None? then Err(InvalidRefreshToken)
    else Ok(a.token.value.usedAt.None? && IsActive(a.session, now))
  }

  /** A refresh is accepted exactly for an unused token of an active session of an enabled account. */
  lemma AcceptedExactlyWhenFresh(a: Aggregate, now: Time, canAuthenticate: bool)
    requires a.Valid()
    ensures AcceptsRefresh(a, now, canAuthenticate) == Ok((a, true))
            <==> (a.token.Some? && a.token.value.usedAt.None? && IsActive(a.session, now)
                  && canAuthenticate)
    ensures a.token.Some? && a.token.value.usedAt.Some? && a.session.revokedAt.None? ==>
              (AcceptsRefresh(a, now, canAuthenticate)
               == Ok((a.(session := a.session.(revokedAt := Some(now))), false))
               <==> a.session.createdAt <= now)
  {
  }

  /** Refusing a disabled account revokes the session at that time and changes nothing else. */
  lemma DisabledAccountRevokes(a: Aggregate, now: Time)
    requires a.Valid() && a.token.Some? && a.token.value.usedAt.None?
    requires a.session.revokedAt.None? && a.session.createdAt <= now < a.session.idleExpiresAt
    ensures AcceptsRefresh(a, now, false)
            == Ok((a.(session := a.session.(revokedAt := Some(now))), false))
  {
  }

  /** A session starts active, with one unused token, exactly for a positive idle time. */
  lemma StartsExactly(id: SessionId, userId: nat, tokenId: TokenId, hash: Digest, now: Time,
                      idleTtl: int)
    ensures Start(id, userId, tokenId, hash, now, idleTtl)
            == if idleTtl <= 0 then Err(InvalidLifetime)
               else Ok(Aggregate(id, Session(userId, now, now + idleTtl, None),
                                 Some(RefreshToken(tokenId, id, hash, now, None)), None))
  {
  }

  /** What a rotation needs, and the whole aggregate it gives. */
  lemma RotatesExactly(a: Aggregate, now: Time, idleTtl: int, tokenId: TokenId, hash: Digest)
    requires a.Valid() && a.token.Some?
    ensures Rotate(a, now, idleTtl, tokenId, hash).Ok?
            <==> 0 < idleTtl && a.session.revokedAt.None?
                 && a.session.createdAt <= now < a.session.idleExpiresAt
                 && a.token.value.usedAt.None? && a.token.value.createdAt <= now
                 && tokenId != a.token.value.id && hash != a.token.value.hash
    ensures Rotate(a, now, idleTtl, tokenId, hash).Ok? ==>
              Rotate(a, now, idleTtl, tokenId, hash).value
              == a.(session := a.session.(idleExpiresAt := now + idleTtl),
                    token := Some(a.token.value.(usedAt := Some(now))),
                    replacement := Some(RefreshToken(tokenId, a.id, hash, now, None)))
  {
  }

  /** A revocation sets one time once: it fails exactly before the session's creation. */
  lemma RevokesExactly(a: Aggregate, now: Time)
    requires a.Valid()
    ensures Revoke(a, now)
            == if a.session.revokedAt.Some? then Ok(a)
               else if now < a.session.createdAt then Err(InvalidTimestamp)
               else Ok(a.(session := a.session.(revokedAt := Some(now))))
  {
  }

  /** A rotation spends the token it was given, adds one unused token and revokes nothing. */
  lemma RotationSpendsOneAddsOne(a: Aggregate, now: Time, idleTtl: int, tokenId: TokenId,
                                 hash: Digest)
    requires a.Valid() && Rotate(a, now, idleTtl, tokenId, hash).Ok?
    ensures var b := Rotate(a, now, idleTtl, tokenId, hash).value;
            && b.Valid() && b.session.revokedAt.None? && IsActive(b.session, now)
            && a.token.Some? && a.token.value.usedAt.None?
            && b.token == Some(a.token.value.(usedAt := Some(now))) && b.token.value.Valid()
            && b.replacement.Some? && b.replacement.value.usedAt.None?
            && b.replacement.value.id == tokenId && b.replacement.value.hash == hash
  {
  }

  class AuthSession {
    const id: SessionId
    const userId: nat
    const createdAt: Time
    var idleExpiresAt: Time
    var revokedAt: Option<Time>
    var refreshToken: Option<RefreshToken>
    var replacementToken: Option<RefreshToken>

    ghost function View(): Aggregate
      reads this
    {
      Aggregate(id, Session(userId, createdAt, idleExpiresAt, revokedAt), refreshToken,
                replacementToken)
    }

    ghost predicate Valid()
      reads this
    {
      View().Valid()
    }

    constructor (a: Aggregate)
      requires a.Valid()
      ensures View() == a && Valid()
    {
      id, userId, createdAt := a.id, a.session.userId, a.session.createdAt;
      idleExpiresAt, revokedAt := a.session.idleExpiresAt, a.session.revokedAt;
      refreshToken, replacementToken := a.token, a.replacement;
    }

    /** Construction with the errors of the lifecycle validator. */
    static method Load(a: Aggregate) returns (r: Result<AuthSession, DomainError>)
      ensures r.Ok? <==> a.Valid()
      ensures r.Ok? ==> fresh(r.value) && r.value.View() == a && r.value.Valid()
      ensures r.Err? ==> Checked(a) == Err(r.error)
    {
      if !a.TimesValid() {
        return Err(InvalidTimestamp);
      }
      if !a.TokensValid() {
        return Err(InvalidState);
      }
      var session := new AuthSession(a);
      return Ok(session);
    }

    method RevokeAt(now: Time) returns (r: Result<(), DomainError>)
      requires Valid()
      modifies this
      ensures Valid()
      ensures r.Ok? <==> Revoke(old(View()), now).Ok?
      ensures r.Ok? ==> Revoke(old(View()), now) == Ok(View())
      ensures r.Err? ==> Revoke(old(View()), now) == Err(r.error) && View() == old(View())
    {
      if revokedAt.None? {
        if now < createdAt {
          return Err(InvalidTimestamp);
        }
        revokedAt := Some(now);
      }
      return Ok(());
    }

    method AcceptsRefreshAt(now: Time, canAuthenticate: bool) returns (r: Result<bool, DomainError>)
      requires Valid()
      modifies this
      ensures Valid()
      ensures r.Ok? ==> AcceptsRefresh(old(View()), now, canAuthenticate) == Ok((View(), r.value))
      ensures r.Err? ==> AcceptsRefresh(old(View()), now, canAuthenticate) == Err(r.error)
                         && View() == old(View())
    {
      if refreshToken.None? {
        return Err(InvalidRefreshToken);
      }
      var used := refreshToken.value.usedAt.Some?;
      if !used && !(revokedAt.None? && createdAt <= now < idleExpiresAt) {
        return Err(SessionInactive);
      }
      if used || !canAuthenticate {
        var revoked := RevokeAt(now);
        if revoked.Err? {
          return Err(revoked.error);
        }
        return Ok(false);
      }
      return Ok(true);
    }

    method RotateAt(now: Time, idleTtl: int, tokenId: TokenId, hash: Digest)
      returns (r: Result<RefreshToken, DomainError>)
      requires Valid()
      modifies this
      ensures Valid()
      ensures r.Ok? ==> Rotate(old(View()), now, idleTtl, tokenId, hash) == Ok(View())
                        && View().replacement == Some(r.value)
      ensures r.Err? ==> Rotate(old(View()), now, idleTtl, tokenId, hash) == Err(r.error)
                         && View() == old(View())
    {
      if idleTtl <= 0 {
        return Err(InvalidLifetime);
      }
      if !(revokedAt.None? && createdAt <= now < idleExpiresAt) {
        return Err(SessionInactive);
      }
      if refreshToken.None? {
        return Err(InvalidRefreshToken);
      }
      var token := refreshToken.value;
      if token.usedAt.Some? {
        return Err(TokenReuse);
      }
      if now < token.createdAt {
        return Err(InvalidTimestamp);
      }
      if tokenId == token.id || hash == token.hash {
        return Err(InvalidState);
      }
      var replacement := RefreshToken(tokenId, id, hash, now, None);
      refreshToken := Some(token.(usedAt := Some(now)));
      replacementToken := Some(replacement);
      idleExpiresAt := now + idleTtl;
      return Ok(replacement);
    }

    method CanReplayAt(now: Time) returns (r: Result<bool, DomainError>)
      ensures r == CanReplay(View(), now)
    {
      if refreshToken.None? {
        return Err(InvalidRefreshToken);
      }
      return Ok(refreshToken.value.usedAt.None? && revokedAt.None?
                && createdAt <= now < idleExpiresAt);
    }
  }

  // The two tables.

  datatype Store = Store(sessions: map<SessionId, Session>, tokens: map<TokenId, RefreshToken>)

  datatype StorageError = EntityNotFound | IntegrityViolation

  /** Primary key and unique hash leave room for a new token. */
  predicate TokenFits(st: Store, t: RefreshToken) {
    t.id !in st.tokens && forall x | x in st.tokens :: st.tokens[x].hash != t.hash
  }

  function Loaded(st: Store, id: TokenId): Aggregate
    requires id in st.tokens && st.tokens[id].sessionId in st.sessions
  {
    var t := st.tokens[id];
    Aggregate(t.sessionId, st.sessions[t.sessionId], Some(t), None)
  }

  function Created(st: Store, a: Aggregate): Result<Store, StorageError> {
    if a.id in st.sessions then Err(IntegrityViolation)
    else
      var st1 := st.(sessions := st.sessions[a.id := a.session]);
      if a.token.None? then Ok(st1) else WithToken(st1, a.token.value)
  }

  function WithToken(st: Store, t: RefreshToken): Result<Store, StorageError> {
    if TokenFits(st, t) then Ok(st.(tokens := st.tokens[t.id := t])) else Err(IntegrityViolation)
  }

  function Saved(st: Store, a: Aggregate): Result<Store, StorageError> {
    if a.id !in st.sessions || (a.token.Some? && a.token.value.id !in st.tokens)
    then Err(EntityNotFound)
    else
      var st1 := Store(st.sessions[a.id := a.session],
                       if a.token.Some? then st.tokens[a.token.value.id := a.token.value]
                       else st.tokens);
      if a.replacement.None? then Ok(st1) else WithToken(st1, a.replacement.value)
  }

  class AuthSessionRepository {
    var sessions: map<SessionId, Session>
    var tokens: map<TokenId, RefreshToken>

    ghost function View(): Store
      reads this
    {
      Store(sessions, tokens)
    }

    constructor ()
      ensures View() == Store(map[], map[])
    {
      sessions, tokens := map[], map[];
    }

    /** A failed statement aborts the transaction, so an error leaves the tables as they were. */
    method Create(a: Aggregate) returns (r: Result<(), StorageError>)
      modifies this
      ensures r.Ok? ==> Created(old(View()), a) == Ok(View())
      ensures r.Err? ==> Created(old(View()), a) == Err(r.error) && View() == old(View())
    {
      if a.id in sessions {
        return Err(IntegrityViolation);
      }
      if a.token.Some? {
        var t := a.token.value;
        if t.id in tokens || exists x :: x in tokens && tokens[x].hash == t.hash {
          return Err(IntegrityViolation);
        }
        tokens := tokens[t.id := t];
      }
      sessions := sessions[a.id := a.session];
      return Ok(());
    }

    method Save(a: Aggregate) returns (r: Result<(), StorageError>)
      modifies this
      ensures r.Ok? ==> Saved(old(View()), a) == Ok(View())
      ensures r.Err? ==> Saved(old(View()), a) == Err(r.error) && View() == old(View())
    {
      if a.id !in sessions {
        return Err(EntityNotFound);
      }
      var updated := tokens;
      if a.token.Some? {
        if a.token.value.id !in tokens {
          return Err(EntityNotFound);
        }
        updated := updated[a.token.value.id := a.token.value];
      }
      if a.replacement.Some? {
        var t := a.replacement.value;
        if t.id in updated || exists x :: x in updated && updated[x].hash == t.hash {
          return Err(IntegrityViolation);
        }
        updated := updated[t.id := t];
      }
      sessions, tokens := sessions[a.id := a.session], updated;
      return Ok(());
    }

    /** `None` when no token has the hash or its session is gone. */
    method GetByRefreshHash(hash: Digest) returns (found: Option<Aggregate>)
      ensures found.Some? ==>
                exists id :: id in tokens && tokens[id].hash == hash
                             && tokens[id].sessionId in sessions && found.value == Loaded(View(), id)
      ensures found.None? ==>
                (forall id | id in tokens :: tokens[id].hash != hash)
                || exists id :: id in tokens && tokens[id].hash == hash
                                && tokens[id].sessionId !in sessions
    {
      if exists id :: id in tokens && tokens[id].hash == hash {
        var id :| id in tokens && tokens[id].hash == hash;
        if tokens[id].sessionId !in sessions {
          return None;
        }
        return Some(Loaded(Store(sessions, tokens), id));
      }
      return None;
    }
  }
}
