/** What follows for every run of refresh. */
module RefreshTheorems {
  import opened Prelude
  import opened AuthSessions
  import opened DurableFence
  import opened HotStore
  import opened RefreshRuns
  import opened RefreshSafety

  // One state.

  /**
   * Whatever the hot store did, an outcome that carries a result carries one that was
   * committed for that identity and the same request.
   */
  lemma AnswersAreCommitted(c: Config, s: System, a: Answer)
    requires Reachable(c, s) && a in s.answers && a.outcome.Carries()
    ensures a.outcome.completed.requestHash == a.requestHash
    ensures exists k :: 0 <= k < |s.commits| && s.commits[k].identity == a.identity
                        && s.commits[k].completed == a.outcome.completed
  {
    ReachableInv(c, s);
    assert AnswerSound(s.commits, a);
  }

  /** Effects committed for an identity are its records removed, plus the one present. */
  lemma EffectsMatchRecords(c: Config, s: System, i: Identity)
    requires Reachable(c, s)
    ensures CountOf(s.commits, i) == s.deleted[i] + if i in s.records then 1 else 0
  {
    ReachableInv(c, s);
  }

  lemma {:induction false} CountPositions(commits: seq<Commit>, i: Identity, j: nat, k: nat)
    requires j < k < |commits| && commits[j].identity == i && commits[k].identity == i
    ensures 2 <= CountOf(commits, i)
  {
    var rest := commits[..|commits| - 1];
    if k < |rest| {
      CountPositions(rest, i, j, k);
    } else {
      CountOnePosition(rest, i, j);
    }
  }

  lemma {:induction false} CountOnePosition(commits: seq<Commit>, i: Identity, j: nat)
    requires j < |commits| && commits[j].identity == i
    ensures 1 <= CountOf(commits, i)
  {
    if j < |commits| - 1 {
      CountOnePosition(commits[..|commits| - 1], i, j);
    }
  }

  /**
   * As long as no second effect is committed for a key, all its outcomes carry the same
   * result; and while no record of it was removed, that is the stored record's.
   */
  lemma AnswersAgree(c: Config, s: System, a: Answer, b: Answer)
    requires Reachable(c, s) && a in s.answers && b in s.answers && a.identity == b.identity
    requires a.outcome.Carries() && b.outcome.Carries()
    requires CountOf(s.commits, a.identity) <= 1
    ensures a.outcome.completed == b.outcome.completed
    ensures s.deleted[a.identity] == 0 ==>
              a.identity in s.records && s.records[a.identity].completed == a.outcome.completed
  {
    ReachableInv(c, s);
    assert AnswerSound(s.commits, a);
    assert AnswerSound(s.commits, b);
    var i := a.identity;
    TwoResults(s.commits, i, a.outcome.completed, b.outcome.completed);
    if s.deleted[i] == 0 {
      var k :| 0 <= k < |s.commits| && s.commits[k].identity == i;
      CountOnePosition(s.commits, i, k);
      TwoResults(s.commits, i, a.outcome.completed, s.records[i].completed);
    }
  }

  /** Two different results of a key take two commits. */
  lemma TwoResults(commits: seq<Commit>, i: Identity, x: Completed<Stored>, y: Completed<Stored>)
    requires Genuine(commits, i, x) && Genuine(commits, i, y)
    ensures x != y ==> 2 <= CountOf(commits, i)
  {
    if x != y {
      var j :| 0 <= j < |commits| && commits[j].identity == i && commits[j].completed == x;
      var k :| 0 <= k < |commits| && commits[k].identity == i && commits[k].completed == y;
      CountPositions(commits, i, if j < k then j else k, if j < k then k else j);
    }
  }

  /** No token is ever rotated twice, under one key or under many. */
  lemma TokenRotatesOnce(c: Config, s: System, j: nat, k: nat)
    requires Reachable(c, s) && j < k < |s.commits|
    requires s.commits[j].effect.Rotation? && s.commits[k].effect.Rotation?
    ensures s.commits[j].effect.spent != s.commits[k].effect.spent
  {
    ReachableInv(c, s);
  }

  /** Every session has exactly one unused token. */
  lemma ExactlyOneUnusedToken(c: Config, s: System, x: SessionId)
    requires Reachable(c, s) && x in s.store.sessions
    ensures exists id ::
              && id in s.store.tokens && s.store.tokens[id].sessionId == x
              && s.store.tokens[id].usedAt.None?
              && forall y | y in s.store.tokens && s.store.tokens[y].sessionId == x
                            && s.store.tokens[y].usedAt.None? :: y == id
  {
    ReachableInv(c, s);
    var id := s.live[x];
    assert TokenSound(s.store, s.live, id);
    forall y | y in s.store.tokens && s.store.tokens[y].sessionId == x
               && s.store.tokens[y].usedAt.None?
      ensures y == id
    {
      assert TokenSound(s.store, s.live, y);
    }
  }

  // One step.

  /**
   * A used token under a key with no record: the transaction commits a refusal that
   * leaves the session revoked, unless the clock is before the session's creation and
   * the session is not revoked yet.
   */
  lemma UsedTokenRevokesFamily(c: Config, s: System, pid: nat, now: Time, p: Pass)
    requires Reachable(c, s) && Enabled(s, Execute(pid, now, p))
    requires p.Runs? && p.found.Some? && p.report != Unclear(false)
    requires s.store.tokens[p.found.value].usedAt.Some?
    requires s.requests[pid].identity !in s.records
    ensures var x := s.store.tokens[p.found.value].sessionId;
            var s' := Apply(c, s, Execute(pid, now, p));
            && x in s.store.sessions
            && (s'.commits != s.commits
                <==> s.store.sessions[x].revokedAt.Some? || s.store.sessions[x].createdAt <= now)
            && (s'.commits != s.commits ==>
                  && s'.commits == s.commits + [Commit(s.requests[pid].identity,
                                                       Completed(s.requests[pid].requestHash,
                                                                 Rejected), Refusal(x))]
                  && x in s'.store.sessions
                  && s'.store.sessions[x].revokedAt
                     == if s.store.sessions[x].revokedAt.Some? then s.store.sessions[x].revokedAt
                        else Some(now))
  {
    ReachableInv(c, s);
    CallbackShape(c, s, pid, Refresh(c, s.store, p, now), p.insertedAt, p.report);
    UsedTokenRefreshes(c, s.store, s.live, p, now);
  }

  /** On a used token the operation refuses, revoking if it must and the clock lets it. */
  lemma UsedTokenRefreshes(c: Config, st: Store, live: map<SessionId, TokenId>, p: Pass, now: Time)
    requires StoreSound(st, live) && p.Runs? && p.found.Some? && p.found.value in st.tokens
    requires st.tokens[p.found.value].usedAt.Some?
    ensures var x := st.tokens[p.found.value].sessionId;
            && x in st.sessions
            && (Refresh(c, st, p, now).Ok?
                <==> st.sessions[x].revokedAt.Some? || st.sessions[x].createdAt <= now)
            && (Refresh(c, st, p, now).Ok? ==>
                  && Refresh(c, st, p, now).value.effect == Refusal(x)
                  && Refresh(c, st, p, now).value.stored == Rejected
                  && x in Refresh(c, st, p, now).value.store.sessions
                  && Refresh(c, st, p, now).value.store.sessions[x].revokedAt
                     == if st.sessions[x].revokedAt.Some? then st.sessions[x].revokedAt
                        else Some(now))
  {
    var id := p.found.value;
    assert TokenSound(st, live, id);
    if Revoke(Loaded(st, id), now).Ok? {
      RevocationKeepsStore(st, live, id, now);
    }
  }

  /** The transaction step either commits the refresh whole or leaves tables and history alone. */
  lemma CallbackShape(c: Config, s: System, pid: nat, result: Result<Refreshed, ()>,
                      insertedAt: Time, report: Report)
    requires pid in s.requests && s.requests[pid].phase.Executing?
    ensures var s' := AfterCallback(c, s, pid, result, insertedAt, report);
            var r := s.requests[pid];
            && s'.deliveries == s.deliveries && s.answers <= s'.answers
            && if result.Ok? && r.identity !in s.records && report != Unclear(false)
               then s'.store == result.value.store
                    && s'.commits == s.commits + [Commit(r.identity,
                                                         Completed(r.requestHash, result.value.stored),
                                                         result.value.effect)]
               else s'.store == s.store && s'.commits == s.commits && s'.records == s.records
  {
  }

  /** A pair is handed out only for the one unused token of an active session. */
  lemma DeliversOnlyTheLiveToken(c: Config, s: System, pid: nat, now: Time)
    requires Reachable(c, s) && Enabled(s, Conclude(pid, now))
    ensures var s' := Apply(c, s, Conclude(pid, now));
            s'.deliveries != s.deliveries ==>
              var d := s'.deliveries[|s.deliveries|];
              && s'.deliveries == s.deliveries + [d]
              && d.session in s.live && s.live[d.session] == d.tokenId
              && d.session in s.store.sessions && IsActive(s.store.sessions[d.session], now)
  {
    ReachableInv(c, s);
    var s' := Apply(c, s, Conclude(pid, now));
    if s'.deliveries != s.deliveries {
      assert TokenSound(s.store, s.live, s'.deliveries[|s.deliveries|].tokenId);
    }
  }

  // Whole runs.

  /** What a stretch of a run may not change. */
  ghost predicate Continues(s: System, s': System) {
    && s.commits <= s'.commits && s.deliveries <= s'.deliveries && s.answers <= s'.answers
    && Settled(s.store, s'.store)
    && NewRotations(s, s') && NewDeliveries(s, s')
  }

  /** No rotation is committed for a session that was revoked. */
  ghost predicate NewRotations(s: System, s': System) {
    forall k | |s.commits| <= k < |s'.commits| && s'.commits[k].effect.Rotation? ::
      s'.commits[k].effect.session in s.store.sessions
      ==> s.store.sessions[s'.commits[k].effect.session].revokedAt.None?
  }

  /** No pair is handed out for a session that was revoked. */
  ghost predicate NewDeliveries(s: System, s': System) {
    forall k | |s.deliveries| <= k < |s'.deliveries| ::
      s'.deliveries[k].session in s.store.sessions
      ==> s.store.sessions[s'.deliveries[k].session].revokedAt.None?
  }

  lemma ExecuteContinues(c: Config, s: System, pid: nat, now: Time, p: Pass)
    requires Inv(s) && Enabled(s, Execute(pid, now, p))
    ensures Continues(s, Apply(c, s, Execute(pid, now, p)))
  {
    if p.Aborts? {
      CallbackContinues(c, s, pid, Err(()), 0, Unclear(false));
    } else {
      var result := Refresh(c, s.store, p, now);
      if result.Ok? {
        RefreshKeepsStore(c, s.store, s.live, p, now);
      }
      CallbackContinues(c, s, pid, result, p.insertedAt, p.report);
    }
  }

  lemma CallbackContinues(c: Config, s: System, pid: nat, result: Result<Refreshed, ()>,
                          insertedAt: Time, report: Report)
    requires pid in s.requests && s.requests[pid].phase.Executing?
    requires result.Ok? ==> RefreshedSound(s.store, s.live, result.value)
    ensures Continues(s, AfterCallback(c, s, pid, result, insertedAt, report))
  {
    CallbackShape(c, s, pid, result, insertedAt, report);
  }

  /** Neither the tables nor the commits nor the deliveries change. */
  ghost predicate Quiet(s: System, s': System) {
    && s'.store == s.store && s'.commits == s.commits && s'.deliveries == s.deliveries
    && s.answers <= s'.answers
  }

  lemma BeginIsQuiet(s: System, pid: nat, owner: Owner, leaseSeconds: int, heard: bool)
    requires pid in s.requests
    ensures Quiet(s, AfterBegin(s, pid, owner, leaseSeconds, heard))
  {
  }

  lemma LookIsQuiet(c: Config, s: System, step: Step)
    requires Enabled(s, step) && (step.Lookup? || step.LookAgain? || step.Wait? || step.Cancel?)
    ensures Quiet(s, Apply(c, s, step))
  {
  }

  lemma HotStepsAreQuiet(c: Config, s: System, step: Step)
    requires Enabled(s, step)
    requires step.Heartbeat? || step.SettleHot? || step.AbandonHot? || step.HotLoses?
             || step.HotDamages?
    ensures Quiet(s, Apply(c, s, step))
  {
  }

  lemma QuietContinues(s: System, s': System)
    requires Quiet(s, s')
    ensures Continues(s, s')
  {
  }

  lemma SmallStepsAreQuiet(c: Config, s: System, step: Step)
    requires Enabled(s, step) && (step.Arrive? || step.Bypass? || step.Dies? || step.Sweep?)
    ensures Quiet(s, Apply(c, s, step))
  {
  }

  predicate TouchesTables(step: Step) {
    step.Execute? || step.Login? || step.Logout? || step.Conclude?
  }

  lemma OtherStepsAreQuiet(c: Config, s: System, step: Step)
    requires Enabled(s, step) && !TouchesTables(step)
    ensures Quiet(s, Apply(c, s, step))
  {
    match step
    case BeginHot(pid, owner, leaseSeconds, heard) =>
      BeginIsQuiet(s, pid, owner, leaseSeconds, heard);
    case Lookup(_, _, _) => LookIsQuiet(c, s, step);
    case LookAgain(_, _, _) => LookIsQuiet(c, s, step);
    case Wait(_, _) => LookIsQuiet(c, s, step);
    case Cancel(_) => LookIsQuiet(c, s, step);
    case Heartbeat(_, _, _) => HotStepsAreQuiet(c, s, step);
    case SettleHot(_, _) => HotStepsAreQuiet(c, s, step);
    case AbandonHot(_, _) => HotStepsAreQuiet(c, s, step);
    case HotLoses(_) => HotStepsAreQuiet(c, s, step);
    case HotDamages(_, _) => HotStepsAreQuiet(c, s, step);
    case _ => SmallStepsAreQuiet(c, s, step);
  }

  lemma SettledContinues(s: System, s': System)
    requires Settled(s.store, s'.store) && s'.commits == s.commits
    requires s'.deliveries == s.deliveries && s'.answers == s.answers
    ensures Continues(s, s')
  {
  }

  lemma ConcludeContinues(s: System, pid: nat, now: Time)
    requires pid in s.requests && s.requests[pid].phase.Answered?
    ensures Continues(s, AfterConclude(s, pid, now))
  {
  }

  lemma LogoutShape(s: System, found: Option<TokenId>, now: Time)
    ensures AfterLogout(s, found, now) == s.(store := AfterLogout(s, found, now).store)
  {
  }

  lemma LoginShape(c: Config, s: System, x: SessionId, userId: nat, id: TokenId, hash: Digest,
                   now: Time)
    ensures var s' := AfterLogin(c, s, x, userId, id, hash, now);
            s' == s.(store := s'.store, live := s'.live)
  {
  }

  lemma StepContinues(c: Config, s: System, step: Step)
    requires Inv(s) && Enabled(s, step)
    ensures Continues(s, Apply(c, s, step))
  {
    if !TouchesTables(step) {
      OtherStepsAreQuiet(c, s, step);
      QuietContinues(s, Apply(c, s, step));
    } else {
      match step
      case Execute(pid, now, p) => ExecuteContinues(c, s, pid, now, p);
      case Conclude(pid, now) => ConcludeContinues(s, pid, now);
      case Login(x, userId, id, hash, now) =>
        LoginKeepsInv(c, s, step);
        LoginShape(c, s, x, userId, id, hash, now);
        SettledContinues(s, Apply(c, s, step));
      case Logout(found, now) =>
        LogoutKeepsInv(c, s, step);
        LogoutShape(s, found, now);
        SettledContinues(s, Apply(c, s, step));
    }
  }

  lemma ContinuesTransitive(s: System, m: System, t: System)
    requires Continues(s, m) && Continues(m, t)
    ensures Continues(s, t)
  {
  }

  lemma {:induction false} RunContinues(c: Config, s: System, steps: seq<Step>)
    requires Inv(s) && ValidRun(c, s, steps)
    ensures Continues(s, Exec(c, s, steps)) && Inv(Exec(c, s, steps))
    decreases |steps|
  {
    if steps != [] {
      var m := Apply(c, s, steps[0]);
      StepKeepsInv(c, s, steps[0]);
      StepContinues(c, s, steps[0]);
      RunContinues(c, m, steps[1..]);
      ContinuesTransitive(s, m, Exec(c, s, steps));
    }
  }

  /**
   * Once a session is revoked, in every later state of every run its revocation time
   * is the same, no freshness check of any of its tokens passes on any clock, no
   * rotation of it was committed since and no pair of it handed out since.
   */
  lemma RevokedForever(c: Config, s: System, steps: seq<Step>, x: SessionId, id: TokenId,
                       now: Time, k: nat)
    requires Reachable(c, s) && ValidRun(c, s, steps)
    requires x in s.store.sessions && s.store.sessions[x].revokedAt.Some?
    ensures var s' := Exec(c, s, steps);
            && x in s'.store.sessions && s'.store.sessions[x] == s.store.sessions[x]
            && (id in s'.store.tokens && s'.store.tokens[id].sessionId == x
                ==> !Fresh(s'.store, id, now))
            && (|s.commits| <= k < |s'.commits| && s'.commits[k].effect.Rotation?
                ==> s'.commits[k].effect.session != x)
            && (|s.deliveries| <= k < |s'.deliveries| ==> s'.deliveries[k].session != x)
  {
    ReachableInv(c, s);
    RunContinues(c, s, steps);
  }

  /** A used token is used in every later state, with the same time of use. */
  lemma UsedForever(c: Config, s: System, steps: seq<Step>, id: TokenId)
    requires Reachable(c, s) && ValidRun(c, s, steps)
    requires id in s.store.tokens && s.store.tokens[id].usedAt.Some?
    ensures id in Exec(c, s, steps).store.tokens
    ensures Exec(c, s, steps).store.tokens[id] == s.store.tokens[id]
  {
    ReachableInv(c, s);
    RunContinues(c, s, steps);
  }

  lemma {:induction false} CountPrefix(a: seq<Commit>, b: seq<Commit>, i: Identity)
    requires a <= b
    ensures CountOf(a, i) <= CountOf(b, i)
    ensures forall k | |a| <= k < |b| && b[k].identity == i :: CountOf(a, i) < CountOf(b, i)
    decreases |b|
  {
    if |a| < |b| {
      var rest := b[..|b| - 1];
      CountPrefix(a, rest, i);
      assert forall k | |a| <= k < |rest| :: rest[k] == b[k];
    } else {
      assert a == b;
    }
  }

  /**
   * From a state with a record for a key, however many requests of that key run,
   * nothing more is committed for it, rotation or revocation, until cleanup removes
   * the record.
   */
  lemma RecordFencesItsKey(c: Config, s: System, steps: seq<Step>, i: Identity, k: nat)
    requires Reachable(c, s) && ValidRun(c, s, steps) && i in s.records
    requires Exec(c, s, steps).deleted[i] == s.deleted[i]
    ensures |s.commits| <= k < |Exec(c, s, steps).commits|
            ==> Exec(c, s, steps).commits[k].identity != i
    ensures i in Exec(c, s, steps).records
  {
    ReachableInv(c, s);
    RunContinues(c, s, steps);
    CountPrefix(s.commits, Exec(c, s, steps).commits, i);
  }
}
