/** What every run of refresh keeps. */
module RefreshSafety {
  import opened Prelude
  import opened AuthSessions
  import opened DurableFence
  import opened HotStore
  import opened RefreshRuns

  /** Effects ever committed for one identity. */
  ghost function CountOf(commits: seq<Commit>, i: Identity): nat {
    if commits == [] then 0
    else
      var last := |commits| - 1;
      CountOf(commits[..last], i) + if commits[last].identity == i then 1 else 0
  }

  // The invariant, one predicate per concern.

  /** Every effect has its record, unless cleanup removed it; and a record is of an effect. */
  ghost predicate FenceSound(records: Records<Stored>, commits: seq<Commit>,
                             deleted: multiset<Identity>)
  {
    && (forall i: Identity ::
          CountOf(commits, i) == deleted[i] + if i in records then 1 else 0)
    && (forall i | i in records :: Genuine(commits, i, records[i].completed))
  }

  ghost predicate HotSound(hot: map<Identity, Entry<Stored>>, commits: seq<Commit>) {
    forall i | i in hot :: NotForged(commits, i, hot[i])
  }

  ghost predicate OutcomeSound(commits: seq<Commit>, i: Identity, requestHash: Digest,
                               o: Outcome<Stored>)
  {
    o.Carries() ==> Genuine(commits, i, o.completed) && o.completed.requestHash == requestHash
  }

  /** A commit of the identity carries another request hash. */
  ghost predicate Backed(commits: seq<Commit>, i: Identity, requestHash: Digest) {
    exists k :: 0 <= k < |commits| && commits[k].identity == i
                && commits[k].completed.requestHash != requestHash
  }

  /** What the durable fence answers: a carried result is genuine, a conflict is backed. */
  ghost predicate FenceOutcomeSound(commits: seq<Commit>, i: Identity, requestHash: Digest,
                                    o: Outcome<Stored>)
  {
    && OutcomeSound(commits, i, requestHash, o)
    && (o.Conflict? ==> Backed(commits, i, requestHash))
  }

  ghost predicate RequestSound(commits: seq<Commit>, r: Request) {
    match r.phase
    case Settling(_, o) => FenceOutcomeSound(commits, r.identity, r.requestHash, o)
    case Answered(o) => OutcomeSound(commits, r.identity, r.requestHash, o)
    case _ => true
  }

  ghost predicate RequestsSound(requests: map<nat, Request>, commits: seq<Commit>) {
    forall pid | pid in requests :: RequestSound(commits, requests[pid])
  }

  ghost predicate AnswersSound(answers: seq<Answer>, commits: seq<Commit>) {
    forall a | a in answers :: AnswerSound(commits, a)
  }

  ghost predicate AnswerSound(commits: seq<Commit>, a: Answer) {
    if a.origin == Fence then FenceOutcomeSound(commits, a.identity, a.requestHash, a.outcome)
    else OutcomeSound(commits, a.identity, a.requestHash, a.outcome)
  }

  ghost predicate TokenSound(st: Store, live: map<SessionId, TokenId>, id: TokenId)
    requires id in st.tokens
  {
    var t := st.tokens[id];
    && t.id == id && t.Valid() && t.sessionId in st.sessions && t.sessionId in live
    && st.sessions[t.sessionId].createdAt <= t.createdAt
    && (t.usedAt.None? <==> live[t.sessionId] == id)
  }

  /** Each session has exactly one unused token, the one `live` names. */
  ghost predicate StoreSound(st: Store, live: map<SessionId, TokenId>) {
    && live.Keys == st.sessions.Keys
    && (forall x | x in st.sessions ::
          && live[x] in st.tokens && st.tokens[live[x]].sessionId == x
          && Aggregate(x, st.sessions[x], None, None).TimesValid())
    && (forall id {:trigger TokenSound(st, live, id)} | id in st.tokens :: TokenSound(st, live, id))
  }

  /** A token that a committed rotation spent is used, and no two rotations spent the same. */
  ghost predicate RotationsSound(commits: seq<Commit>, st: Store) {
    && (forall k | 0 <= k < |commits| && commits[k].effect.Rotation? ::
          commits[k].effect.spent in st.tokens && st.tokens[commits[k].effect.spent].usedAt.Some?)
    && (forall j, k | 0 <= j < k < |commits|
                      && commits[j].effect.Rotation? && commits[k].effect.Rotation?
          :: commits[j].effect.spent != commits[k].effect.spent)
  }

  ghost predicate Inv(s: System) {
    && FenceSound(s.records, s.commits, s.deleted)
    && HotSound(s.hot, s.commits)
    && RequestsSound(s.requests, s.commits)
    && AnswersSound(s.answers, s.commits)
    && StoreSound(s.store, s.live)
    && RotationsSound(s.commits, s.store)
  }

  // One more commit.

  lemma GenuineSnoc(commits: seq<Commit>, x: Commit, i: Identity, c: Completed<Stored>)
    ensures Genuine(commits, i, c) ==> Genuine(commits + [x], i, c)
    ensures Genuine(commits + [x], x.identity, x.completed)
  {
    if Genuine(commits, i, c) {
      var k :| 0 <= k < |commits| && commits[k].identity == i && commits[k].completed == c;
      assert (commits + [x])[k] == commits[k];
    }
    assert (commits + [x])[|commits|] == x;
  }

  lemma CountSnoc(commits: seq<Commit>, x: Commit, i: Identity)
    ensures CountOf(commits + [x], i) == CountOf(commits, i) + if x.identity == i then 1 else 0
  {
    assert (commits + [x])[..|commits|] == commits;
  }

  lemma CommitKeepsFence(records: Records<Stored>, commits: seq<Commit>,
                         deleted: multiset<Identity>, x: Commit, expiresAt: Time)
    requires FenceSound(records, commits, deleted) && x.identity !in records
    ensures FenceSound(records[x.identity := Record(x.completed, expiresAt)], commits + [x], deleted)
  {
    forall i: Identity
      ensures CountOf(commits + [x], i) == CountOf(commits, i) + if x.identity == i then 1 else 0
      ensures i in records && i != x.identity ==> Genuine(commits + [x], i, records[i].completed)
      ensures Genuine(commits + [x], x.identity, x.completed)
    {
      CountSnoc(commits, x, i);
      GenuineSnoc(commits, x, i, if i in records then records[i].completed else x.completed);
    }
  }

  lemma CommitKeepsReaders(s: System, x: Commit)
    requires HotSound(s.hot, s.commits) && RequestsSound(s.requests, s.commits)
    requires AnswersSound(s.answers, s.commits)
    ensures HotSound(s.hot, s.commits + [x]) && RequestsSound(s.requests, s.commits + [x])
    ensures AnswersSound(s.answers, s.commits + [x])
  {
    forall i, c: Completed<Stored> | Genuine(s.commits, i, c)
      ensures Genuine(s.commits + [x], i, c)
    {
      GenuineSnoc(s.commits, x, i, c);
    }
    forall i, h: Digest | Backed(s.commits, i, h)
      ensures Backed(s.commits + [x], i, h)
    {
      BackedSnoc(s.commits, x, i, h);
    }
    forall pid | pid in s.requests
      ensures RequestSound(s.commits + [x], s.requests[pid])
    {
      assert RequestSound(s.commits, s.requests[pid]);
    }
    forall a | a in s.answers
      ensures AnswerSound(s.commits + [x], a)
    {
      assert AnswerSound(s.commits, a);
    }
  }

  lemma BackedSnoc(commits: seq<Commit>, x: Commit, i: Identity, requestHash: Digest)
    requires Backed(commits, i, requestHash)
    ensures Backed(commits + [x], i, requestHash)
  {
    var k :| 0 <= k < |commits| && commits[k].identity == i
             && commits[k].completed.requestHash != requestHash;
    assert (commits + [x])[k] == commits[k];
  }

  // Moves of one request.

  lemma MoveKeepsInv(s: System, pid: nat, phase: Phase)
    requires Inv(s) && pid in s.requests
    requires RequestSound(s.commits, s.requests[pid].(phase := phase))
    ensures Inv(Move(s, pid, phase))
  {
    var requests := Move(s, pid, phase).requests;
    forall q | q in requests
      ensures RequestSound(s.commits, requests[q])
    {
      assert q in s.requests;
    }
  }

  lemma ReturnKeepsInv(s: System, pid: nat, outcome: Outcome<Stored>, origin: Origin)
    requires Inv(s) && pid in s.requests
    requires var r := s.requests[pid];
             AnswerSound(s.commits, Answer(r.identity, r.requestHash, outcome, origin))
    ensures Inv(Return(s, pid, outcome, origin))
  {
    MoveKeepsInv(s, pid, Answered(outcome));
    var s' := Return(s, pid, outcome, origin);
    assert AnswersSound(s'.answers, s'.commits);
  }

  lemma LeaveKeepsInv(s: System, pid: nat)
    requires Inv(s)
    ensures Inv(Leave(s, pid))
  {
    assert RequestsSound(s.requests - {pid}, s.commits);
  }

  lemma FinishKeepsInv(s: System, pid: nat, lease: Option<Lease>, outcome: Outcome<Stored>)
    requires Inv(s) && pid in s.requests
    requires FenceOutcomeSound(s.commits, s.requests[pid].identity, s.requests[pid].requestHash,
                               outcome)
    ensures Inv(Finish(s, pid, lease, outcome))
  {
    if LeaseLives(lease) {
      MoveKeepsInv(s, pid, Settling(lease.value, outcome));
    } else {
      ReturnKeepsInv(s, pid, outcome, Fence);
    }
  }

  lemma FailKeepsInv(s: System, pid: nat, lease: Option<Lease>)
    requires Inv(s) && pid in s.requests
    ensures Inv(Fail(s, pid, lease))
  {
    if LeaseLives(lease) {
      MoveKeepsInv(s, pid, Raising(lease.value));
    } else {
      LeaveKeepsInv(s, pid);
    }
  }

  lemma PutKeepsInv(s: System, i: Identity, h: Option<Entry<Stored>>)
    requires Inv(s) && (h.Some? ==> NotForged(s.commits, i, h.value))
    ensures Inv(s.(hot := Put(s.hot, i, h)))
  {
    assert HotSound(Put(s.hot, i, h), s.commits);
  }

  lemma FoundIsSound(s: System, i: Identity, requestHash: Digest, now: Time)
    requires FenceSound(s.records, s.commits, s.deleted)
    ensures FindExisting(s.records, i, requestHash, now).Some?
            ==> FenceOutcomeSound(s.commits, i, requestHash,
                                  FindExisting(s.records, i, requestHash, now).value)
  {
    if i in s.records && s.records[i].completed.requestHash != requestHash {
      GenuineBacks(s.commits, i, s.records[i].completed, requestHash);
    }
  }

  lemma GenuineBacks(commits: seq<Commit>, i: Identity, c: Completed<Stored>, requestHash: Digest)
    requires Genuine(commits, i, c) && c.requestHash != requestHash
    ensures Backed(commits, i, requestHash)
  {
    var k :| 0 <= k < |commits| && commits[k].identity == i && commits[k].completed == c;
  }

  lemma BeginKeepsInv(s: System, pid: nat, owner: Owner, leaseSeconds: int, heard: bool)
    requires Inv(s) && pid in s.requests
    ensures Inv(AfterBegin(s, pid, owner, leaseSeconds, heard))
  {
    var r := s.requests[pid];
    var (h, code) := BeginScript(At(s.hot, r.identity), r.requestHash, owner, leaseSeconds);
    PutKeepsInv(s, r.identity, h);
    var s1 := s.(hot := Put(s.hot, r.identity, h), owners := s.owners + {owner});
    assert Inv(s1);
    var begun := if heard then Decoded(code, r.requestHash) else Err(Unavailable);
    match begun
    case Err(_) => MoveKeepsInv(s1, pid, Looking(None));
    case Ok(Leased) => MoveKeepsInv(s1, pid, Looking(Some(Lease(owner, false))));
    case Ok(Replayed(c)) => ReturnKeepsInv(s1, pid, Replay(c), Cache);
    case Ok(Conflicting) => ReturnKeepsInv(s1, pid, Conflict, Cache);
    case Ok(Occupied) => MoveKeepsInv(s1, pid, Waiting);
  }

  lemma LookKeepsInv(s: System, step: Step, c: Config)
    requires Inv(s) && Enabled(s, step) && (step.Lookup? || step.LookAgain? || step.Wait?)
    ensures Inv(Apply(c, s, step))
  {
    var r := s.requests[step.pid];
    FoundIsSound(s, r.identity, r.requestHash, step.now);
    var found := FindExisting(s.records, r.identity, r.requestHash, step.now);
    if step.Wait? {
      ReturnKeepsInv(s, step.pid, if found.Some? then found.value else InProgress, Fence);
    } else if found.Some? && step.readable {
      FinishKeepsInv(s, step.pid, r.phase.lease, found.value);
    } else if step.Lookup? && step.readable {
      MoveKeepsInv(s, step.pid, Executing(r.phase.lease));
    } else {
      FailKeepsInv(s, step.pid, r.phase.lease);
    }
  }

  lemma HeartbeatKeepsInv(s: System, pid: nat, leaseSeconds: int, reached: bool)
    requires Inv(s) && pid in s.requests && Beating(s.requests[pid].phase)
    ensures Inv(AfterHeartbeat(s, pid, leaseSeconds, reached))
  {
    var r := s.requests[pid];
    var lease := r.phase.lease.value;
    var (h, renewed) := RenewScript(At(s.hot, r.identity), lease.owner, leaseSeconds);
    if reached && renewed {
      PutKeepsInv(s, r.identity, h);
    } else {
      MoveKeepsInv(s, pid, r.phase.(lease := Some(lease.(lost := true))));
    }
  }

  lemma SettleHotKeepsInv(c: Config, s: System, pid: nat, reached: bool)
    requires Inv(s) && pid in s.requests && s.requests[pid].phase.Settling?
    ensures Inv(AfterSettleHot(c, s, pid, reached))
  {
    var r := s.requests[pid];
    var Settling(lease, outcome) := r.phase;
    assert RequestSound(s.commits, r);
    var h := if outcome.Carries()
             then CompleteScript(At(s.hot, r.identity), lease.owner, outcome.completed, c.resultTtl).0
             else AbandonScript(At(s.hot, r.identity), lease.owner).0;
    PutKeepsInv(s, r.identity, h);
    ReturnKeepsInv(if reached then s.(hot := Put(s.hot, r.identity, h)) else s, pid, outcome, Fence);
  }

  lemma AbandonHotKeepsInv(s: System, pid: nat, reached: bool)
    requires Inv(s) && pid in s.requests && s.requests[pid].phase.Raising?
    ensures Inv(AfterAbandonHot(s, pid, reached))
  {
    var r := s.requests[pid];
    var h := AbandonScript(At(s.hot, r.identity), r.phase.held.owner).0;
    PutKeepsInv(s, r.identity, h);
    LeaveKeepsInv(if reached then s.(hot := Put(s.hot, r.identity, h)) else s, pid);
  }

  lemma SweepKeepsInv(s: System, gone: set<Identity>)
    requires Inv(s) && gone <= s.records.Keys
    ensures Inv(s.(records := s.records - gone, deleted := s.deleted + multiset(gone)))
  {
    assert FenceSound(s.records - gone, s.commits, s.deleted + multiset(gone));
  }

  // The session tables.

  /** Revoking writes one revocation time, and only where there was none. */
  lemma RevocationKeepsStore(st: Store, live: map<SessionId, TokenId>, id: TokenId, now: Time)
    requires StoreSound(st, live) && id in st.tokens && st.tokens[id].sessionId in st.sessions
    requires Revoke(Loaded(st, id), now).Ok?
    ensures var x := st.tokens[id].sessionId;
            && x in st.sessions
            && Saved(st, Revoke(Loaded(st, id), now).value)
               == Ok(Store(st.sessions[x := Revoke(Loaded(st, id), now).value.session], st.tokens))
            && StoreSound(Store(st.sessions[x := Revoke(Loaded(st, id), now).value.session],
                                st.tokens), live)
  {
    assert TokenSound(st, live, id);
    var x := st.tokens[id].sessionId;
    assert st.tokens[id := st.tokens[id]] == st.tokens;
    var st' := Store(st.sessions[x := Revoke(Loaded(st, id), now).value.session], st.tokens);
    forall t | t in st'.tokens
      ensures TokenSound(st', live, t)
    {
      assert TokenSound(st, live, t);
    }
  }

  /** Spending the live token of a session and issuing its replacement. */
  lemma ReplacementKeepsStore(st: Store, live: map<SessionId, TokenId>, id: TokenId,
                              t: RefreshToken, idleExpiresAt: Time)
    requires StoreSound(st, live) && id in st.tokens && st.tokens[id].usedAt.None?
    requires t.sessionId == st.tokens[id].sessionId && t.usedAt.None? && TokenFits(st, t)
    requires st.tokens[id].createdAt <= t.createdAt < idleExpiresAt
    ensures t.sessionId in st.sessions
    ensures StoreSound(Spent(st, id, t, idleExpiresAt), live[t.sessionId := t.id])
  {
    assert TokenSound(st, live, id);
    var st', live' := Spent(st, id, t, idleExpiresAt), live[t.sessionId := t.id];
    forall x | x in st'.tokens
      ensures TokenSound(st', live', x)
    {
      if x != t.id {
        assert TokenSound(st, live, x);
      }
    }
  }

  function Spent(st: Store, id: TokenId, t: RefreshToken, idleExpiresAt: Time): Store {
    if id !in st.tokens || t.sessionId !in st.sessions then st
    else Store(
      st.sessions[t.sessionId := st.sessions[t.sessionId].(idleExpiresAt := idleExpiresAt)],
      st.tokens[id := st.tokens[id].(usedAt := Some(t.createdAt))][t.id := t])
  }

  /** A rotation that commits spends an unused token of an active session. */
  lemma RotationTables(c: Config, st: Store, id: TokenId, p: Pass, now: Time)
    requires p.Runs? && p.found == Some(id) && id in st.tokens && st.tokens[id].id == id
    requires st.tokens[id].sessionId in st.sessions
    requires Rotating(c, st, Loaded(st, id), p, now).Ok?
    ensures var t := RefreshToken(p.tokenId, st.tokens[id].sessionId, p.hash, now, None);
            && Rotating(c, st, Loaded(st, id), p, now)
               == Ok(Refreshed(Spent(st, id, t, now + c.idleTtl), Rotated(p.envelope, p.tokenId),
                               Rotation(t.sessionId, id, p.tokenId)))
            && IsActive(st.sessions[t.sessionId], now) && 0 < c.idleTtl
            && st.tokens[id].usedAt.None? && st.tokens[id].createdAt <= now
            && TokenFits(st, t)
  {
    var a := Loaded(st, id);
    var b := Rotate(a, now, c.idleTtl, p.tokenId, p.hash).value;
    var st1 := Store(st.sessions[a.id := b.session], st.tokens[id := b.token.value]);
    assert TokenFits(st1, b.replacement.value);
    forall x | x in st.tokens
      ensures st.tokens[x].hash != p.hash
    {
      assert x in st1.tokens && st1.tokens[x].hash == st.tokens[x].hash;
    }
  }

  /** Used tokens stay as they are, and so do revoked sessions. */
  ghost predicate Settled(st: Store, st': Store) {
    && (forall t | t in st.tokens ::
          t in st'.tokens && st'.tokens[t].sessionId == st.tokens[t].sessionId)
    && (forall t | t in st.tokens && st.tokens[t].usedAt.Some? :: st'.tokens[t] == st.tokens[t])
    && (forall x | x in st.sessions :: x in st'.sessions)
    && (forall x | x in st.sessions && st.sessions[x].revokedAt.Some? ::
          st'.sessions[x] == st.sessions[x])
  }

  ghost predicate EffectSound(st: Store, st': Store, e: Effect) {
    e.Rotation? ==>
      && e.spent in st.tokens && st.tokens[e.spent].usedAt.None?
      && e.spent in st'.tokens && st'.tokens[e.spent].usedAt.Some?
      && e.session in st.sessions && st.sessions[e.session].revokedAt.None?
  }

  /** What a refresh may do to the tables. */
  ghost predicate RefreshedSound(st: Store, live: map<SessionId, TokenId>, done: Refreshed) {
    && StoreSound(done.store, if done.effect.Rotation?
                              then live[done.effect.session := done.effect.issued] else live)
    && Settled(st, done.store)
    && EffectSound(st, done.store, done.effect)
  }

  lemma RefreshKeepsStore(c: Config, st: Store, live: map<SessionId, TokenId>, p: Pass, now: Time)
    requires StoreSound(st, live) && p.Runs? && Refresh(c, st, p, now).Ok?
    ensures RefreshedSound(st, live, Refresh(c, st, p, now).value)
  {
    if AcceptsRefresh(Loaded(st, p.found.value), now, p.canAuthenticate).value.1 {
      RotationRefreshSound(c, st, live, p, now, Refresh(c, st, p, now).value);
    } else {
      RefusalRefreshSound(c, st, live, p, now);
    }
  }

  /** Spending the unused token of a session that is not revoked. */
  lemma SpentIsSound(st: Store, live: map<SessionId, TokenId>, id: TokenId, t: RefreshToken,
                     idleExpiresAt: Time, stored: Stored)
    requires StoreSound(st, live) && id in st.tokens && st.tokens[id].usedAt.None?
    requires t.sessionId == st.tokens[id].sessionId && t.usedAt.None? && TokenFits(st, t)
    requires st.tokens[id].createdAt <= t.createdAt < idleExpiresAt
    requires t.sessionId in st.sessions && st.sessions[t.sessionId].revokedAt.None?
    ensures RefreshedSound(st, live, Refreshed(Spent(st, id, t, idleExpiresAt), stored,
                                               Rotation(t.sessionId, id, t.id)))
  {
    ReplacementKeepsStore(st, live, id, t, idleExpiresAt);
    SpentSettles(st, id, t, idleExpiresAt);
  }

  lemma SpentSettles(st: Store, id: TokenId, t: RefreshToken, idleExpiresAt: Time)
    requires id in st.tokens && st.tokens[id].usedAt.None? && TokenFits(st, t)
    requires t.sessionId in st.sessions && st.sessions[t.sessionId].revokedAt.None?
    ensures var st' := Spent(st, id, t, idleExpiresAt);
            Settled(st, st') && EffectSound(st, st', Rotation(t.sessionId, id, t.id))
  {
  }

  lemma RotationRefreshSound(c: Config, st: Store, live: map<SessionId, TokenId>, p: Pass, now: Time,
                             done: Refreshed)
    requires StoreSound(st, live) && p.Runs? && p.found.Some? && p.found.value in st.tokens
    requires st.tokens[p.found.value].sessionId in st.sessions
    requires Rotating(c, st, Loaded(st, p.found.value), p, now) == Ok(done)
    ensures RefreshedSound(st, live, done)
  {
    var id := p.found.value;
    assert TokenSound(st, live, id);
    var t := RefreshToken(p.tokenId, st.tokens[id].sessionId, p.hash, now, None);
    RotationTables(c, st, id, p, now);
    assert done == Refreshed(Spent(st, id, t, now + c.idleTtl), Rotated(p.envelope, p.tokenId),
                             Rotation(t.sessionId, id, t.id));
    SpentIsSound(st, live, id, t, now + c.idleTtl, done.stored);
  }

  lemma RefusalRefreshSound(c: Config, st: Store, live: map<SessionId, TokenId>, p: Pass, now: Time)
    requires StoreSound(st, live) && p.Runs? && Refresh(c, st, p, now).Ok?
    requires !AcceptsRefresh(Loaded(st, p.found.value), now, p.canAuthenticate).value.1
    ensures RefreshedSound(st, live, Refresh(c, st, p, now).value)
  {
    RevocationKeepsStore(st, live, p.found.value, now);
    RevocationSettles(st, p.found.value, now);
  }

  lemma SettledKeepsRotations(commits: seq<Commit>, st: Store, st': Store)
    requires RotationsSound(commits, st) && Settled(st, st')
    ensures RotationsSound(commits, st')
  {
  }

  lemma NewSessionKeepsStore(st: Store, live: map<SessionId, TokenId>, x: SessionId, s: Session,
                             t: RefreshToken)
    requires StoreSound(st, live) && x !in st.sessions && TokenFits(st, t)
    requires t.sessionId == x && t.usedAt.None? && t.createdAt == s.createdAt
    requires Aggregate(x, s, None, None).TimesValid()
    ensures StoreSound(Store(st.sessions[x := s], st.tokens[t.id := t]), live[x := t.id])
    ensures Settled(st, Store(st.sessions[x := s], st.tokens[t.id := t]))
  {
    var st', live' := Store(st.sessions[x := s], st.tokens[t.id := t]), live[x := t.id];
    forall y | y in st'.tokens
      ensures TokenSound(st', live', y)
    {
      if y != t.id {
        assert TokenSound(st, live, y);
      }
    }
  }

  lemma StoreChangeKeepsInv(s: System, st: Store, live: map<SessionId, TokenId>)
    requires Inv(s) && StoreSound(st, live) && Settled(s.store, st)
    ensures Inv(s.(store := st, live := live))
  {
    SettledKeepsRotations(s.commits, s.store, st);
  }

  lemma LoginTables(c: Config, s: System, x: SessionId, userId: nat, t: RefreshToken, now: Time)
    requires t == RefreshToken(t.id, x, t.hash, now, None)
    ensures AfterLogin(c, s, x, userId, t.id, t.hash, now)
            == if 0 < c.idleTtl && x !in s.store.sessions && TokenFits(s.store, t)
               then s.(store := Store(s.store.sessions[x := Session(userId, now, now + c.idleTtl, None)],
                                      s.store.tokens[t.id := t]),
                       live := s.live[x := t.id])
               else s
  {
    var a := Aggregate(x, Session(userId, now, now + c.idleTtl, None), Some(t), None);
    assert 0 < c.idleTtl ==> Start(x, userId, t.id, t.hash, now, c.idleTtl) == Ok(a);
    var st1 := s.store.(sessions := s.store.sessions[x := a.session]);
    assert TokenFits(st1, t) == TokenFits(s.store, t);
  }

  lemma LoginKeepsInv(c: Config, s: System, step: Step)
    requires Inv(s) && step.Login? && Enabled(s, step)
    ensures Inv(Apply(c, s, step)) && Settled(s.store, Apply(c, s, step).store)
  {
    var Login(session, userId, tokenId, hash, now) := step;
    var t := RefreshToken(tokenId, session, hash, now, None);
    LoginTables(c, s, session, userId, t, now);
    if 0 < c.idleTtl && session !in s.store.sessions && TokenFits(s.store, t) {
      NewSessionKeepsStore(s.store, s.live, session, Session(userId, now, now + c.idleTtl, None), t);
      StoreChangeKeepsInv(s, Apply(c, s, step).store, Apply(c, s, step).live);
    }
  }

  lemma RevocationSettles(st: Store, id: TokenId, now: Time)
    requires id in st.tokens && st.tokens[id].sessionId in st.sessions
    requires Revoke(Loaded(st, id), now).Ok?
    ensures Settled(st, Store(st.sessions[st.tokens[id].sessionId
                                          := Revoke(Loaded(st, id), now).value.session], st.tokens))
  {
  }

  /** A logout that finds its token and may revoke writes one revocation time, and no other does anything. */
  lemma LogoutTables(s: System, found: Option<TokenId>, now: Time)
    requires StoreSound(s.store, s.live)
    ensures var s' := AfterLogout(s, found, now);
            && s' == s.(store := s'.store)
            && StoreSound(s'.store, s.live) && Settled(s.store, s'.store)
  {
    var st := s.store;
    if found.Some? && found.value in st.tokens && st.tokens[found.value].sessionId in st.sessions
       && Revoke(Loaded(st, found.value), now).Ok?
    {
      RevocationKeepsStore(st, s.live, found.value, now);
      RevocationSettles(st, found.value, now);
    } else {
      assert AfterLogout(s, found, now) == s;
    }
  }

  lemma LogoutKeepsInv(c: Config, s: System, step: Step)
    requires Inv(s) && step.Logout? && Enabled(s, step)
    ensures Inv(Apply(c, s, step)) && Settled(s.store, Apply(c, s, step).store)
  {
    LogoutTables(s, step.found, step.now);
    StoreChangeKeepsInv(s, AfterLogout(s, step.found, step.now).store, s.live);
  }

  lemma CommitKeepsRotations(commits: seq<Commit>, st: Store, st': Store, x: Commit)
    requires RotationsSound(commits, st) && Settled(st, st') && EffectSound(st, st', x.effect)
    ensures RotationsSound(commits + [x], st')
  {
  }

  lemma CommittedKeepsInv(c: Config, s: System, r: Request, done: Refreshed, insertedAt: Time)
    requires Inv(s) && r.identity !in s.records && RefreshedSound(s.store, s.live, done)
    ensures Inv(Committed(c, s, r, done, insertedAt))
  {
    var x := Commit(r.identity, Completed(r.requestHash, done.stored), done.effect);
    CommitKeepsFence(s.records, s.commits, s.deleted, x, insertedAt + c.retention);
    CommitKeepsReaders(s, x);
    CommitKeepsRotations(s.commits, s.store, done.store, x);
  }

  lemma CallbackKeepsInv(c: Config, s: System, pid: nat, result: Result<Refreshed, ()>,
                         insertedAt: Time, report: Report)
    requires Inv(s) && pid in s.requests && s.requests[pid].phase.Executing?
    requires result.Ok? ==> RefreshedSound(s.store, s.live, result.value)
    ensures Inv(AfterCallback(c, s, pid, result, insertedAt, report))
  {
    var r := s.requests[pid];
    var lease := r.phase.lease;
    if result.Err? {
      MoveKeepsInv(s, pid, Recovering(lease));
    } else if r.identity in s.records {
      MoveKeepsInv(s, pid, Raced(lease));
    } else {
      var done := result.value;
      var s1 := Committed(c, s, r, done, insertedAt);
      CommittedKeepsInv(c, s, r, done, insertedAt);
      match report
      case Acknowledged =>
        GenuineSnoc(s.commits, s1.commits[|s.commits|], r.identity,
                    Completed(r.requestHash, done.stored));
        FinishKeepsInv(s1, pid, lease, Executed(Completed(r.requestHash, done.stored)));
      case Unclear(applied) =>
        MoveKeepsInv(if applied then s1 else s, pid, Recovering(lease));
    }
  }

  lemma ExecuteKeepsInv(c: Config, s: System, pid: nat, now: Time, p: Pass)
    requires Inv(s) && pid in s.requests && s.requests[pid].phase.Executing?
    ensures Inv(AfterExecute(c, s, pid, now, p))
  {
    if p.Aborts? {
      CallbackKeepsInv(c, s, pid, Err(()), 0, Unclear(false));
    } else {
      var result := Refresh(c, s.store, p, now);
      if result.Ok? {
        RefreshKeepsStore(c, s.store, s.live, p, now);
      }
      CallbackKeepsInv(c, s, pid, result, p.insertedAt, p.report);
    }
  }

  lemma StepKeepsInv(c: Config, s: System, step: Step)
    requires Inv(s) && Enabled(s, step)
    ensures Inv(Apply(c, s, step))
  {
    match step
    case Bypass(pid) => MoveKeepsInv(s, pid, Looking(None));
    case BeginHot(pid, owner, leaseSeconds, heard) =>
      BeginKeepsInv(s, pid, owner, leaseSeconds, heard);
    case Lookup(_, _, _) => LookKeepsInv(s, step, c);
    case Execute(pid, now, pass) => ExecuteKeepsInv(c, s, pid, now, pass);
    case LookAgain(_, _, _) => LookKeepsInv(s, step, c);
    case Wait(_, _) => LookKeepsInv(s, step, c);
    case Heartbeat(pid, leaseSeconds, reached) => HeartbeatKeepsInv(s, pid, leaseSeconds, reached);
    case SettleHot(pid, reached) => SettleHotKeepsInv(c, s, pid, reached);
    case AbandonHot(pid, reached) => AbandonHotKeepsInv(s, pid, reached);
    case Login(_, _, _, _, _) => LoginKeepsInv(c, s, step);
    case Logout(_, _) => LogoutKeepsInv(c, s, step);
    case _ => SmallStepKeepsInv(c, s, step);
  }

  lemma ArriveKeepsInv(s: System, pid: nat, r: Request)
    requires Inv(s) && r.phase == Arrived
    ensures Inv(s.(requests := s.requests[pid := r]))
  {
    assert RequestsSound(s.requests[pid := r], s.commits);
  }

  /** The steps that do little more than come and go. */
  lemma SmallStepKeepsInv(c: Config, s: System, step: Step)
    requires Inv(s) && Enabled(s, step)
    requires step.Arrive? || step.Conclude? || step.Cancel? || step.Dies? || step.HotLoses?
             || step.HotDamages? || step.Sweep?
    ensures Inv(Apply(c, s, step))
  {
    match step
    case Arrive(pid, i, presented, requestHash) =>
      ArriveKeepsInv(s, pid, Request(i, presented, requestHash, Arrived));
    case Conclude(pid, _) => LeaveKeepsInv(s, pid);
    case Cancel(pid) => FailKeepsInv(s, pid, s.requests[pid].phase.lease);
    case Dies(pid) => LeaveKeepsInv(s, pid);
    case HotLoses(i) => PutKeepsInv(s, i, None);
    case HotDamages(i, entry) => PutKeepsInv(s, i, Some(entry));
    case Sweep(_, gone) => SweepKeepsInv(s, gone);
  }

  lemma {:induction false} RunKeepsInv(c: Config, s: System, steps: seq<Step>)
    requires Inv(s) && ValidRun(c, s, steps)
    ensures Inv(Exec(c, s, steps))
    decreases |steps|
  {
    if steps != [] {
      StepKeepsInv(c, s, steps[0]);
      RunKeepsInv(c, Apply(c, s, steps[0]), steps[1..]);
    }
  }

  /** A state some run from the empty database reaches. */
  ghost predicate Reachable(c: Config, s: System) {
    exists steps :: ValidRun(c, START, steps) && Exec(c, START, steps) == s
  }

  lemma ReachableInv(c: Config, s: System)
    requires Reachable(c, s)
    ensures Inv(s)
  {
    var steps :| ValidRun(c, START, steps) && Exec(c, START, steps) == s;
    RunKeepsInv(c, START, steps);
  }
}
