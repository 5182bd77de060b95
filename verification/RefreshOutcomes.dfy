/** When a request is answered CONFLICT, and when a lost race ends without a winner. */
module RefreshOutcomes {
  import opened Prelude
  import opened AuthSessions
  import opened DurableFence
  import opened HotStore
  import opened RefreshRuns
  import opened RefreshSafety
  import opened RefreshTheorems

  /** The request has an outcome: to settle in the hot store first, or to return. */
  predicate HasOutcome(s: System, pid: nat) {
    pid in s.requests && (s.requests[pid].phase.Settling? || s.requests[pid].phase.Answered?)
  }

  predicate Gets(s: System, pid: nat, outcome: Outcome<Stored>) {
    HasOutcome(s, pid) && s.requests[pid].phase.outcome == outcome
  }

  // Conflicts.

  /** Every CONFLICT the fence ever gave: a commit of the key carries another request hash. */
  lemma FenceConflictsAreBacked(c: Config, s: System, a: Answer)
    requires Reachable(c, s) && a in s.answers && a.outcome.Conflict? && a.origin == Fence
    ensures exists k :: 0 <= k < |s.commits| && s.commits[k].identity == a.identity
                        && s.commits[k].completed.requestHash != a.requestHash
  {
    ReachableInv(c, s);
    assert AnswerSound(s.commits, a);
  }

  predicate OtherHashStored(records: Records<Stored>, r: Request, now: Time) {
    && r.identity in records && now < records[r.identity].expiresAt
    && records[r.identity].completed.requestHash != r.requestHash
  }

  /**
   * A lookup gives CONFLICT exactly when an unexpired record of another hash is
   * stored, and then an effect of that other request was committed.
   */
  lemma LookupConflictsExactly(c: Config, s: System, step: Step)
    requires Reachable(c, s) && Enabled(s, step)
    requires step.Lookup? || step.LookAgain? || step.Wait?
    ensures var r := s.requests[step.pid];
            && (Gets(Apply(c, s, step), step.pid, Conflict)
                <==> (step.Wait? || step.readable) && OtherHashStored(s.records, r, step.now))
            && (Gets(Apply(c, s, step), step.pid, Conflict)
                ==> Backed(s.commits, r.identity, r.requestHash))
  {
    ReachableInv(c, s);
    var r := s.requests[step.pid];
    FoundIsSound(s, r.identity, r.requestHash, step.now);
    LookOutcome(c, s, step);
  }

  /** A readable lookup that finds a record gives its classification, and no other gives a conflict. */
  lemma LookOutcome(c: Config, s: System, step: Step)
    requires Enabled(s, step) && (step.Lookup? || step.LookAgain? || step.Wait?)
    ensures var r, s' := s.requests[step.pid], Apply(c, s, step);
            var found := FindExisting(s.records, r.identity, r.requestHash, step.now);
            if found.Some? && (step.Wait? || step.readable) then Gets(s', step.pid, found.value)
            else if step.Wait? then Gets(s', step.pid, InProgress)
            else !HasOutcome(s', step.pid)
  {
    match step
    case Lookup(_, _, _) =>
    case LookAgain(_, _, _) =>
    case Wait(_, _) =>
  }

  /** What the begin script takes for an entry of a request, whatever its state is called. */
  predicate Readable(e: Entry<Stored>) {
    && e.formatVersion == Some("1") && e.requestHash.Some? && e.state.Some?
    && (e.state == Some("processing") ==> e.owner.Some? && e.result.None?)
    && (e.state == Some("completed") ==> e.result.Some? && e.owner.None?)
  }

  /** A completed entry whose result decodes to the entry's own request hash. */
  predicate Whole(e: Entry<Stored>) {
    && e.state == Some("completed") && e.result.Some? && e.result.value.Encoded?
    && e.requestHash == Some(e.result.value.completed.requestHash)
  }

  /** What the scripts write: a lease in progress, or a whole completed entry. */
  predicate Undamaged(e: Entry<Stored>) {
    Readable(e) && (e.state == Some("processing") || Whole(e))
  }

  /** No script damages an entry. */
  lemma ScriptsDamageNothing(h: Option<Entry<Stored>>, requestHash: Digest, owner: Owner,
                             c: Completed<Stored>, ttl: int)
    requires h.Some? ==> Undamaged(h.value)
    ensures var e := BeginScript(h, requestHash, owner, ttl).0; e.Some? && Undamaged(e.value)
    ensures var e := RenewScript(h, owner, ttl).0; e.Some? ==> Undamaged(e.value)
    ensures var e := CompleteScript(h, owner, c, ttl).0; e.Some? ==> Undamaged(e.value)
    ensures var e := AbandonScript(h, owner).0; e.Some? ==> Undamaged(e.value)
  {
  }

  /**
   * The hot store gives CONFLICT exactly for a readable entry of another hash. Behind
   * a whole completed entry an effect of that other request was committed, so an
   * unbacked conflict comes only from a lease in progress or a damaged entry.
   */
  lemma HotConflictsExactly(c: Config, s: System, pid: nat, owner: Owner, lease: int, heard: bool)
    requires Reachable(c, s) && Enabled(s, BeginHot(pid, owner, lease, heard))
    ensures var r, s' := s.requests[pid], Apply(c, s, BeginHot(pid, owner, lease, heard));
            && (Gets(s', pid, Conflict)
                <==> heard && r.identity in s.hot && Readable(s.hot[r.identity])
                     && s.hot[r.identity].requestHash != Some(r.requestHash))
            && (Gets(s', pid, Conflict) && Whole(s.hot[r.identity])
                ==> Backed(s.commits, r.identity, r.requestHash))
            && (Gets(s', pid, Conflict) && !Backed(s.commits, r.identity, r.requestHash)
                ==> s.hot[r.identity].state == Some("processing")
                    || !Undamaged(s.hot[r.identity]))
  {
    ReachableInv(c, s);
    var r := s.requests[pid];
    BeginOutcome(s, pid, owner, lease, heard);
    if r.identity in s.hot && Whole(s.hot[r.identity])
       && s.hot[r.identity].requestHash != Some(r.requestHash) {
      assert NotForged(s.commits, r.identity, s.hot[r.identity]);
      GenuineBacks(s.commits, r.identity, s.hot[r.identity].result.value.completed, r.requestHash);
    }
  }

  lemma BeginOutcome(s: System, pid: nat, owner: Owner, lease: int, heard: bool)
    requires pid in s.requests
    ensures var r := s.requests[pid];
            Gets(AfterBegin(s, pid, owner, lease, heard), pid, Conflict)
            <==> heard && r.identity in s.hot && Readable(s.hot[r.identity])
                 && s.hot[r.identity].requestHash != Some(r.requestHash)
  {
  }

  // Replays.

  /** The entry replays `x` to a request. */
  predicate Holds(hot: map<Identity, Entry<Stored>>, r: Request, x: Completed<Stored>) {
    && r.identity in hot && Readable(hot[r.identity]) && Whole(hot[r.identity])
    && hot[r.identity].requestHash == Some(r.requestHash)
    && hot[r.identity].result == Some(Encoded(x))
  }

  /**
   * The hot store replays exactly the result of a whole completed entry of the
   * request's hash. That differs from the stored record's only after a second effect
   * was committed for the key and a record of it removed.
   */
  lemma HotReplaysExactly(c: Config, s: System, pid: nat, owner: Owner, lease: int, heard: bool,
                          x: Completed<Stored>)
    requires Reachable(c, s) && Enabled(s, BeginHot(pid, owner, lease, heard))
    ensures var r, s' := s.requests[pid], Apply(c, s, BeginHot(pid, owner, lease, heard));
            var stale := r.identity in s.records && s.records[r.identity].completed != x;
            && (Gets(s', pid, Replay(x)) <==> heard && Holds(s.hot, r, x))
            && (Gets(s', pid, Replay(x)) && stale ==>
                  2 <= CountOf(s.commits, r.identity) && 0 < s.deleted[r.identity])
            && (Gets(s', pid, Replay(x)) && r.identity !in s.records ==>
                  0 < s.deleted[r.identity])
  {
    ReachableInv(c, s);
    var r := s.requests[pid];
    BeginReplay(s, pid, owner, lease, heard, x);
    if Holds(s.hot, r, x) {
      assert NotForged(s.commits, r.identity, s.hot[r.identity]);
      var k :| 0 <= k < |s.commits| && s.commits[k].identity == r.identity;
      CountOnePosition(s.commits, r.identity, k);
      if r.identity in s.records {
        TwoResults(s.commits, r.identity, x, s.records[r.identity].completed);
      }
    }
  }

  lemma BeginReplay(s: System, pid: nat, owner: Owner, lease: int, heard: bool,
                    x: Completed<Stored>)
    requires pid in s.requests
    ensures Gets(AfterBegin(s, pid, owner, lease, heard), pid, Replay(x))
            <==> heard && Holds(s.hot, s.requests[pid], x)
  {
  }

  // A race that was lost.

  /** The insert collides exactly when the callback gave a result and a record is stored. */
  lemma CollidesExactly(c: Config, s: System, pid: nat, at: Time, p: Pass)
    requires Enabled(s, Execute(pid, at, p))
    ensures var r, s' := s.requests[pid], Apply(c, s, Execute(pid, at, p));
            && pid in s'.requests
            && (s'.requests[pid].phase.Raced?
                <==> p.Runs? && Refresh(c, s.store, p, at).Ok? && r.identity in s.records)
            && (s'.requests[pid].phase.Raced? ==> s' == Move(s, pid, Raced(r.phase.lease)))
  {
    if p.Runs? {
      CallbackCollides(c, s, pid, Refresh(c, s.store, p, at), p.insertedAt, p.report);
    }
  }

  lemma CallbackCollides(c: Config, s: System, pid: nat, result: Result<Refreshed, ()>,
                         insertedAt: Time, report: Report)
    requires pid in s.requests && s.requests[pid].phase.Executing?
    ensures var r, s' := s.requests[pid], AfterCallback(c, s, pid, result, insertedAt, report);
            && pid in s'.requests
            && (s'.requests[pid].phase.Raced? <==> result.Ok? && r.identity in s.records)
            && (s'.requests[pid].phase.Raced? ==> s' == Move(s, pid, Raced(r.phase.lease)))
  {
  }

  /** A run after the collision at whose end the request has not looked again. */
  ghost predicate StillRaced(c: Config, s: System, steps: seq<Step>, pid: nat, i: Identity) {
    && ValidRun(c, s, steps)
    && pid in Exec(c, s, steps).requests
    && Exec(c, s, steps).requests[pid].phase.Raced?
    && Exec(c, s, steps).requests[pid].identity == i
  }

  /**
   * From the state in which the insert collided, along any run up to the second
   * lookup: no winner is found exactly when the identity then has no record or an
   * expired one, and it has none only if cleanup removed one since the collision.
   */
  lemma NoWinnerExactly(c: Config, s: System, pid: nat, at: Time, p: Pass, steps: seq<Step>,
                        now: Time)
    requires Reachable(c, s) && Enabled(s, Execute(pid, at, p))
    requires pid in Apply(c, s, Execute(pid, at, p)).requests
    requires Apply(c, s, Execute(pid, at, p)).requests[pid].phase.Raced?
    requires StillRaced(c, Apply(c, s, Execute(pid, at, p)), steps, pid, s.requests[pid].identity)
    ensures var i, s' := s.requests[pid].identity,
                         Exec(c, Apply(c, s, Execute(pid, at, p)), steps);
            var after := Apply(c, s', LookAgain(pid, now, true));
            && i in s.records
            && (!HasOutcome(after, pid)
                <==> i !in s'.records || s'.records[i].expiresAt <= now)
            && (i !in s'.records ==> s.deleted[i] < s'.deleted[i])
            && (HasOutcome(after, pid)
                ==> Gets(after, pid, Classify(s'.records[i].completed,
                                              s'.requests[pid].requestHash)))
  {
    var i, s1 := s.requests[pid].identity, Apply(c, s, Execute(pid, at, p));
    ReachableInv(c, s);
    CollidesExactly(c, s, pid, at, p);
    StepKeepsInv(c, s, Execute(pid, at, p));
    RecordOnlySweptAway(c, s1, steps, i);
    SecondLookup(c, Exec(c, s1, steps), pid, now);
  }

  /** Along any run a stored record is gone only if cleanup removed one of its identity. */
  lemma RecordOnlySweptAway(c: Config, s: System, steps: seq<Step>, i: Identity)
    requires Inv(s) && ValidRun(c, s, steps) && i in s.records
    ensures i !in Exec(c, s, steps).records ==> s.deleted[i] < Exec(c, s, steps).deleted[i]
  {
    RunContinues(c, s, steps);
    CountPrefix(s.commits, Exec(c, s, steps).commits, i);
  }

  /** What the loser of a race finds. */
  lemma SecondLookup(c: Config, s: System, pid: nat, now: Time)
    requires pid in s.requests && s.requests[pid].phase.Raced?
    ensures var r, s' := s.requests[pid], Apply(c, s, LookAgain(pid, now, true));
            && (!HasOutcome(s', pid)
                <==> r.identity !in s.records || s.records[r.identity].expiresAt <= now)
            && (HasOutcome(s', pid)
                ==> Gets(s', pid, Classify(s.records[r.identity].completed, r.requestHash)))
  {
    LookOutcome(c, s, LookAgain(pid, now, true));
  }

  // A begin.

  /**
   * What a request makes of the hot store. It gets the lease exactly if the answer
   * arrives and the key was absent, and the key is then leased to it; it waits exactly
   * for a lease in progress of its own request; it goes on without the hot store exactly
   * if no answer arrives or the entry is damaged. A present entry is never changed.
   */
  lemma BeginExactly(c: Config, s: System, pid: nat, owner: Owner, lease: int, heard: bool)
    requires Reachable(c, s) && Enabled(s, BeginHot(pid, owner, lease, heard))
    ensures var r, s' := s.requests[pid], Apply(c, s, BeginHot(pid, owner, lease, heard));
            && pid in s'.requests
            && (s'.requests[pid].phase == Looking(Some(Lease(owner, false)))
                <==> heard && r.identity !in s.hot)
            && (s'.requests[pid].phase == Waiting
                <==> heard && r.identity in s.hot && Readable(s.hot[r.identity])
                     && s.hot[r.identity].state == Some("processing")
                     && s.hot[r.identity].requestHash == Some(r.requestHash))
            && (s'.requests[pid].phase == Looking(None)
                <==> !heard || (r.identity in s.hot && Unusable(s.hot[r.identity], r.requestHash)))
            && s'.hot == (if r.identity in s.hot then s.hot
                          else s.hot[r.identity := Entry(Some("1"), Some("processing"),
                                                         Some(r.requestHash), Some(owner), None, lease)])
            && s'.records == s.records && s'.store == s.store && s'.commits == s.commits
  {
    BeginPhases(s, pid, owner, lease, heard);
    BeginEntry(s, pid, owner, lease, heard);
  }

  lemma BeginPhases(s: System, pid: nat, owner: Owner, lease: int, heard: bool)
    requires pid in s.requests
    ensures var r, s' := s.requests[pid], AfterBegin(s, pid, owner, lease, heard);
            && pid in s'.requests
            && (s'.requests[pid].phase == Looking(Some(Lease(owner, false)))
                <==> heard && r.identity !in s.hot)
            && (s'.requests[pid].phase == Waiting
                <==> heard && r.identity in s.hot && Readable(s.hot[r.identity])
                     && s.hot[r.identity].state == Some("processing")
                     && s.hot[r.identity].requestHash == Some(r.requestHash))
            && (s'.requests[pid].phase == Looking(None)
                <==> !heard || (r.identity in s.hot && Unusable(s.hot[r.identity], r.requestHash)))
  {
  }

  lemma BeginEntry(s: System, pid: nat, owner: Owner, lease: int, heard: bool)
    requires pid in s.requests
    ensures var r, s' := s.requests[pid], AfterBegin(s, pid, owner, lease, heard);
            && s'.hot == (if r.identity in s.hot then s.hot
                          else s.hot[r.identity := Entry(Some("1"), Some("processing"),
                                                         Some(r.requestHash), Some(owner), None, lease)])
            && s'.records == s.records && s'.store == s.store && s'.commits == s.commits
  {
    var i := s.requests[pid].identity;
    if i in s.hot {
      assert s.hot[i := s.hot[i]] == s.hot;
    }
  }

  /** Neither a conflict nor a lease in progress nor a whole result of the request. */
  predicate Unusable(e: Entry<Stored>, requestHash: Digest) {
    || !Readable(e)
    || (e.requestHash == Some(requestHash) && e.state != Some("processing") && !Whole(e))
  }

  // The transaction.

  /** The token is unused and its session active, for an account that can authenticate. */
  predicate Accepts(st: Store, id: TokenId, p: Pass, now: Time)
    requires p.Runs? && id in st.tokens && st.tokens[id].sessionId in st.sessions
  {
    && st.tokens[id].usedAt.None? && p.canAuthenticate
    && ActiveAt(st.sessions[st.tokens[id].sessionId], now)
  }

  predicate ActiveAt(x: Session, now: Time) {
    x.revokedAt.None? && x.createdAt <= now < x.idleExpiresAt
  }

  /** The refresh is refused, and the refusal can be written down. */
  predicate Refuses(st: Store, id: TokenId, p: Pass, now: Time)
    requires p.Runs? && id in st.tokens && st.tokens[id].sessionId in st.sessions
  {
    var x := st.sessions[st.tokens[id].sessionId];
    if st.tokens[id].usedAt.Some? then x.revokedAt.Some? || x.createdAt <= now
    else ActiveAt(x, now) && !p.canAuthenticate
  }

  /** The new token has room, and its time and life are possible. */
  predicate CanIssue(c: Config, st: Store, id: TokenId, p: Pass, now: Time)
    requires p.Runs? && id in st.tokens
  {
    && 0 < c.idleTtl && st.tokens[id].createdAt <= now && p.tokenId !in st.tokens
    && forall y | y in st.tokens :: st.tokens[y].hash != p.hash
  }

  function RevokedStore(st: Store, x: SessionId, now: Time): Store
    requires x in st.sessions
  {
    if st.sessions[x].revokedAt.Some? then st
    else st.(sessions := st.sessions[x := st.sessions[x].(revokedAt := Some(now))])
  }

  function RotatedStore(c: Config, st: Store, id: TokenId, p: Pass, now: Time): Store
    requires p.Runs? && id in st.tokens && st.tokens[id].sessionId in st.sessions
  {
    var x := st.tokens[id].sessionId;
    Store(st.sessions[x := st.sessions[x].(idleExpiresAt := now + c.idleTtl)],
          st.tokens[id := st.tokens[id].(usedAt := Some(now))]
            [p.tokenId := RefreshToken(p.tokenId, x, p.hash, now, None)])
  }

  lemma AcceptedRefresh(c: Config, st: Store, live: map<SessionId, TokenId>, p: Pass, now: Time)
    requires StoreSound(st, live) && p.Runs? && p.found.Some? && p.found.value in st.tokens
    requires st.tokens[p.found.value].sessionId in st.sessions
    requires Accepts(st, p.found.value, p, now)
    ensures Refresh(c, st, p, now)
            == if CanIssue(c, st, p.found.value, p, now)
               then Ok(Refreshed(RotatedStore(c, st, p.found.value, p, now),
                                 Rotated(p.envelope, p.tokenId),
                                 Rotation(st.tokens[p.found.value].sessionId, p.found.value, p.tokenId)))
               else Err(())
  {
    var id := p.found.value;
    assert TokenSound(st, live, id);
    RotatesExactly(Loaded(st, id), now, c.idleTtl, p.tokenId, p.hash);
    if Rotate(Loaded(st, id), now, c.idleTtl, p.tokenId, p.hash).Ok? {
      RotationSaved(c, st, id, p, now);
    }
  }

  /** Saving a rotation writes three rows, if the new token fits. */
  lemma RotationSaved(c: Config, st: Store, id: TokenId, p: Pass, now: Time)
    requires p.Runs? && id in st.tokens && st.tokens[id].sessionId in st.sessions
    requires st.tokens[id].id == id
    ensures var x, t := st.tokens[id].sessionId, st.tokens[id];
            Saved(st, Aggregate(x, st.sessions[x].(idleExpiresAt := now + c.idleTtl),
                                Some(t.(usedAt := Some(now))),
                                Some(RefreshToken(p.tokenId, x, p.hash, now, None))))
            == if p.tokenId !in st.tokens && (forall y | y in st.tokens :: st.tokens[y].hash != p.hash)
               then Ok(RotatedStore(c, st, id, p, now)) else Err(IntegrityViolation)
  {
    var used := st.tokens[id := st.tokens[id].(usedAt := Some(now))];
    assert forall y | y in st.tokens :: y in used && used[y].hash == st.tokens[y].hash;
    assert used.Keys == st.tokens.Keys;
  }

  lemma OtherRefresh(c: Config, st: Store, live: map<SessionId, TokenId>, p: Pass, now: Time)
    requires StoreSound(st, live) && p.Runs? && p.found.Some? && p.found.value in st.tokens
    requires st.tokens[p.found.value].sessionId in st.sessions
    requires !Accepts(st, p.found.value, p, now)
    ensures Refresh(c, st, p, now)
            == if Refuses(st, p.found.value, p, now)
               then Ok(Refreshed(RevokedStore(st, st.tokens[p.found.value].sessionId, now), Rejected,
                                 Refusal(st.tokens[p.found.value].sessionId)))
               else Err(())
  {
    var id := p.found.value;
    var a := Loaded(st, id);
    assert TokenSound(st, live, id);
    RevokesExactly(a, now);
    assert st.tokens[id := st.tokens[id]] == st.tokens;
    assert st.sessions[a.id := a.session] == st.sessions;
  }

  /** What the transaction writes: nothing, a revocation or a rotation. */
  function Written(c: Config, st: Store, p: Pass, now: Time): Option<(Store, Stored, Effect)>
    requires p.Runs? && p.found.Some? ==> p.found.value in st.tokens
                                          && st.tokens[p.found.value].sessionId in st.sessions
  {
    if p.Aborts? || p.found.None? then None
    else
      var id := p.found.value;
      var x := st.tokens[id].sessionId;
      if Accepts(st, id, p, now) && CanIssue(c, st, id, p, now)
      then Some((RotatedStore(c, st, id, p, now), Rotated(p.envelope, p.tokenId),
                 Rotation(x, id, p.tokenId)))
      else if Refuses(st, id, p, now) then Some((RevokedStore(st, x, now), Rejected, Refusal(x)))
      else None
  }

  /**
   * Rotation, refusal or nothing. With no record stored and a commit that lands, a
   * refresh by an unused token of an active session and an enabled account commits one
   * rotation; by a used token, or for a disabled account, one refusal with the family
   * revoked; anything else commits nothing. Whatever is not committed changes nothing.
   */
  lemma ExecuteExactly(c: Config, s: System, pid: nat, now: Time, p: Pass)
    requires Reachable(c, s) && Enabled(s, Execute(pid, now, p))
    ensures p.Runs? && p.found.Some? ==> p.found.value in s.store.tokens
                                         && s.store.tokens[p.found.value].sessionId in s.store.sessions
    ensures var r, s' := s.requests[pid], Apply(c, s, Execute(pid, now, p));
            var w := Written(c, s.store, p, now);
            if w.Some? && r.identity !in s.records && p.report != Unclear(false)
            then s'.store == w.value.0
                 && s'.commits == s.commits + [Commit(r.identity, Completed(r.requestHash, w.value.1),
                                                      w.value.2)]
                 && s'.records == s.records[r.identity := Record(Completed(r.requestHash, w.value.1),
                                                                 p.insertedAt + c.retention)]
            else s'.store == s.store && s'.commits == s.commits && s'.records == s.records
  {
    RefreshIsWritten(c, s, pid, now, p);
    if p.Runs? {
      CallbackWrites(c, s, pid, Refresh(c, s.store, p, now), p.insertedAt, p.report);
    } else {
      CallbackWrites(c, s, pid, Err(()), 0, Unclear(false));
    }
  }

  lemma RefreshIsWritten(c: Config, s: System, pid: nat, now: Time, p: Pass)
    requires Reachable(c, s) && Enabled(s, Execute(pid, now, p))
    ensures p.Runs? && p.found.Some? ==> p.found.value in s.store.tokens
                                         && s.store.tokens[p.found.value].sessionId in s.store.sessions
    ensures p.Runs? ==>
              var w := Written(c, s.store, p, now);
              Refresh(c, s.store, p, now)
              == if w.Some? then Ok(Refreshed(w.value.0, w.value.1, w.value.2)) else Err(())
  {
    ReachableInv(c, s);
    if p.Runs? && p.found.Some? {
      assert TokenSound(s.store, s.live, p.found.value);
      if Accepts(s.store, p.found.value, p, now) {
        AcceptedRefresh(c, s.store, s.live, p, now);
      } else {
        OtherRefresh(c, s.store, s.live, p, now);
      }
    }
  }

  /**
   * What the requester learns. It is told EXECUTED, with the result just written,
   * exactly if a commit was acknowledged; after a collision it looks for the winner, and
   * after any error for a result that may have been committed all the same.
   */
  lemma ExecutedExactly(c: Config, s: System, pid: nat, now: Time, p: Pass)
    requires Reachable(c, s) && Enabled(s, Execute(pid, now, p))
    ensures p.Runs? && p.found.Some? ==> p.found.value in s.store.tokens
                                         && s.store.tokens[p.found.value].sessionId in s.store.sessions
    ensures var r, s' := s.requests[pid], Apply(c, s, Execute(pid, now, p));
            var w := Written(c, s.store, p, now);
            && pid in s'.requests
            && if w.Some? && r.identity !in s.records && p.report == Acknowledged
               then Gets(s', pid, Executed(Completed(r.requestHash, w.value.1)))
               else if w.Some? && r.identity in s.records
               then s'.requests[pid].phase == Raced(r.phase.lease)
               else s'.requests[pid].phase == Recovering(r.phase.lease)
  {
    RefreshIsWritten(c, s, pid, now, p);
    if p.Runs? {
      CallbackAnswers(c, s, pid, Refresh(c, s.store, p, now), p.insertedAt, p.report);
    } else {
      CallbackAnswers(c, s, pid, Err(()), 0, Unclear(false));
    }
  }

  lemma CallbackAnswers(c: Config, s: System, pid: nat, result: Result<Refreshed, ()>,
                        insertedAt: Time, report: Report)
    requires pid in s.requests && s.requests[pid].phase.Executing?
    ensures var r, s' := s.requests[pid], AfterCallback(c, s, pid, result, insertedAt, report);
            && pid in s'.requests
            && if result.Ok? && r.identity !in s.records && report.Acknowledged?
               then Gets(s', pid, Executed(Completed(r.requestHash, result.value.stored)))
               else if result.Ok? && r.identity in s.records
               then s'.requests[pid].phase == Raced(r.phase.lease)
               else s'.requests[pid].phase == Recovering(r.phase.lease)
  {
  }

  lemma CallbackWrites(c: Config, s: System, pid: nat, result: Result<Refreshed, ()>,
                       insertedAt: Time, report: Report)
    requires pid in s.requests && s.requests[pid].phase.Executing?
    ensures var r, s' := s.requests[pid], AfterCallback(c, s, pid, result, insertedAt, report);
            if result.Ok? && r.identity !in s.records && report != Unclear(false)
            then s'.store == result.value.store
                 && s'.commits == s.commits + [Commit(r.identity,
                                                      Completed(r.requestHash, result.value.stored),
                                                      result.value.effect)]
                 && s'.records == s.records[r.identity := Record(Completed(r.requestHash,
                                                                           result.value.stored),
                                                                 insertedAt + c.retention)]
            else s'.store == s.store && s'.commits == s.commits && s'.records == s.records
  {
  }

  /** A refresh for a disabled account revokes the family, with a committed refusal. */
  lemma DisabledAccountRevokesFamily(c: Config, s: System, pid: nat, now: Time, p: Pass)
    requires Reachable(c, s) && Enabled(s, Execute(pid, now, p))
    requires p.Runs? && p.found.Some? && !p.canAuthenticate && p.report != Unclear(false)
    requires s.store.tokens[p.found.value].usedAt.None?
    requires s.requests[pid].identity !in s.records
    ensures var x := s.store.tokens[p.found.value].sessionId;
            var s' := Apply(c, s, Execute(pid, now, p));
            && x in s.store.sessions && x in s'.store.sessions
            && (ActiveAt(s.store.sessions[x], now) ==>
                  && s'.commits == s.commits + [Commit(s.requests[pid].identity,
                                                       Completed(s.requests[pid].requestHash,
                                                                 Rejected), Refusal(x))]
                  && s'.store.sessions[x].revokedAt == Some(now))
            && (!ActiveAt(s.store.sessions[x], now) ==> s'.commits == s.commits)
  {
    ExecuteExactly(c, s, pid, now, p);
  }

  // Leases and the hot entry at the end.

  predicate Held(hot: map<Identity, Entry<Stored>>, i: Identity, owner: Owner) {
    && i in hot && hot[i].formatVersion == Some("1") && hot[i].state == Some("processing")
    && hot[i].owner == Some(owner)
  }

  /** The lease is lost at a heartbeat exactly if it is not reached or no longer held. */
  lemma HeartbeatExactly(c: Config, s: System, pid: nat, lease: int, reached: bool)
    requires Enabled(s, Heartbeat(pid, lease, reached))
    ensures var r, s' := s.requests[pid], Apply(c, s, Heartbeat(pid, lease, reached));
            var held := r.phase.lease.value;
            var renewed := reached && Held(s.hot, r.identity, held.owner)
                           && s.hot[r.identity].requestHash.Some?;
            && (renewed ==> s' == s.(hot := s.hot[r.identity := s.hot[r.identity].(ttl := lease)]))
            && (!renewed ==> s' == Move(s, pid, r.phase.(lease := Some(held.(lost := true)))))
  {
  }

  /**
   * The end of the durable path: with a live lease the hot entry is settled first, and
   * without one the outcome is returned, or the error raised, at once.
   */
  lemma EndsByLease(c: Config, s: System, step: Step)
    requires Enabled(s, step) && (step.Lookup? || step.LookAgain? || step.Execute?)
    ensures var s', lease := Apply(c, s, step), s.requests[step.pid].phase.lease;
            && s'.hot == s.hot
            && (step.pid !in s'.requests ==> !LeaseLives(lease))
            && (step.pid in s'.requests ==>
                  var phase := s'.requests[step.pid].phase;
                  && (phase.Settling? || phase.Raising? ==> lease == Some(phase.held) && LeaseLives(lease))
                  && (phase.Answered? ==> !LeaseLives(lease))
                  && (step.LookAgain? ==> phase.Settling? || phase.Raising? || phase.Answered?))
  {
    match step
    case Lookup(_, _, _) =>
    case LookAgain(_, _, _) =>
    case Execute(pid, now, p) =>
      if p.Runs? {
        CallbackEndsByLease(c, s, pid, Refresh(c, s.store, p, now), p.insertedAt, p.report);
      }
  }

  lemma CallbackEndsByLease(c: Config, s: System, pid: nat, result: Result<Refreshed, ()>,
                            insertedAt: Time, report: Report)
    requires pid in s.requests && s.requests[pid].phase.Executing?
    ensures var s', lease := AfterCallback(c, s, pid, result, insertedAt, report),
                             s.requests[pid].phase.lease;
            && s'.hot == s.hot && pid in s'.requests && !s'.requests[pid].phase.Raising?
            && (s'.requests[pid].phase.Settling?
                ==> lease == Some(s'.requests[pid].phase.held) && LeaseLives(lease))
            && (s'.requests[pid].phase.Answered? ==> !LeaseLives(lease))
  {
  }

  /**
   * Settling: the entry the request still holds becomes the whole completed result it
   * answers with, or is given back if it carries none; an entry it does not hold, or
   * cannot reach, stays. The outcome is returned in every case.
   */
  lemma SettleExactly(c: Config, s: System, pid: nat, reached: bool)
    requires Reachable(c, s) && Enabled(s, SettleHot(pid, reached))
    ensures var r, s' := s.requests[pid], Apply(c, s, SettleHot(pid, reached));
            var i, owner, o := r.identity, r.phase.held.owner, r.phase.outcome;
            && Gets(s', pid, o) && s'.requests[pid].phase.Answered?
            && s'.answers == s.answers + [Answer(i, r.requestHash, o, Fence)]
            && s'.hot == if !reached || !Held(s.hot, i, owner) then s.hot
                         else if !o.Carries() then s.hot - {i}
                         else if s.hot[i].requestHash != Some(r.requestHash) then s.hot
                         else s.hot[i := Entry(Some("1"), Some("completed"), Some(r.requestHash),
                                               None, Some(Encoded(o.completed)), c.resultTtl)]
  {
    ReachableInv(c, s);
    var r := s.requests[pid];
    assert RequestSound(s.commits, r);
    if r.identity in s.hot {
      assert s.hot[r.identity := s.hot[r.identity]] == s.hot;
    }
  }

  /** A failed request gives back exactly the entry it still holds. */
  lemma AbandonExactly(c: Config, s: System, pid: nat, reached: bool)
    requires Enabled(s, AbandonHot(pid, reached))
    ensures var r, s' := s.requests[pid], Apply(c, s, AbandonHot(pid, reached));
            && pid !in s'.requests && s'.answers == s.answers
            && s'.hot == if reached && Held(s.hot, r.identity, r.phase.held.owner)
                         then s.hot - {r.identity} else s.hot
  {
    var r := s.requests[pid];
    if r.identity in s.hot {
      assert s.hot[r.identity := s.hot[r.identity]] == s.hot;
    }
  }

  // Delivery, logout and login.

  /** A pair is handed out exactly for a rotated result whose token is unused in an active session. */
  lemma DeliversExactly(c: Config, s: System, pid: nat, now: Time)
    requires Reachable(c, s) && Enabled(s, Conclude(pid, now))
    ensures var s', o, t := Apply(c, s, Conclude(pid, now)), s.requests[pid].phase.outcome, s.store.tokens;
            && s'.store == s.store && pid !in s'.requests
            && if o.Carries() && o.completed.result.Rotated? && o.completed.result.tokenId in t
                  && t[o.completed.result.tokenId].usedAt.None?
                  && t[o.completed.result.tokenId].sessionId in s.store.sessions
                  && ActiveAt(s.store.sessions[t[o.completed.result.tokenId].sessionId], now)
               then s'.deliveries
                    == s.deliveries + [Delivery(o.completed.result.tokenId,
                                                t[o.completed.result.tokenId].sessionId)]
               else s'.deliveries == s.deliveries
  {
  }

  /** A logout that finds its token leaves the session revoked, exactly unless the clock is before its creation. */
  lemma LogoutExactly(c: Config, s: System, id: TokenId, now: Time)
    requires Reachable(c, s) && id in s.store.tokens
    ensures var x := s.store.tokens[id].sessionId;
            && x in s.store.sessions
            && Apply(c, s, Logout(Some(id), now))
               == if s.store.sessions[x].revokedAt.None? && now < s.store.sessions[x].createdAt then s
                  else s.(store := RevokedStore(s.store, x, now))
  {
    ReachableInv(c, s);
    assert TokenSound(s.store, s.live, id);
    LogoutShape(s, id, now);
  }

  lemma LogoutShape(s: System, id: TokenId, now: Time)
    requires id in s.store.tokens && s.store.tokens[id].sessionId in s.store.sessions
    requires s.store.tokens[id].id == id && Loaded(s.store, id).Valid()
    ensures var x := s.store.tokens[id].sessionId;
            AfterLogout(s, Some(id), now)
            == if s.store.sessions[x].revokedAt.None? && now < s.store.sessions[x].createdAt then s
               else s.(store := RevokedStore(s.store, x, now))
  {
    var st, a := s.store, Loaded(s.store, id);
    RevokesExactly(a, now);
    assert st.tokens[id := st.tokens[id]] == st.tokens;
    assert st.sessions[a.id := a.session] == st.sessions;
  }

  /** A login adds an active session with its one unused token, exactly if both are new and may live. */
  lemma LoginExactly(c: Config, s: System, x: SessionId, userId: nat, id: TokenId, hash: Digest,
                     now: Time)
    ensures Apply(c, s, Login(x, userId, id, hash, now))
            == if 0 < c.idleTtl && x !in s.store.sessions && id !in s.store.tokens
                  && forall y | y in s.store.tokens :: s.store.tokens[y].hash != hash
               then s.(store := Store(s.store.sessions[x := Session(userId, now, now + c.idleTtl, None)],
                                      s.store.tokens[id := RefreshToken(id, x, hash, now, None)]),
                       live := s.live[x := id])
               else s
  {
    LoginTables(c, s, x, userId, RefreshToken(id, x, hash, now, None), now);
  }
}
