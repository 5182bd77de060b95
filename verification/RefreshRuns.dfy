/**
 * Refresh with any number of requests, over whole runs: the coordinator, the hot
 * store, the durable fence, the transactional refresh operation and the session
 * tables, with login, logout and cleanup beside them.
 *
 * Every script and every transaction is a step. Between two steps anything may
 * happen: other requests, lost, expired or damaged hot entries, an unreachable hot
 * store, a death of the process. Every step brings its own clock value. A commit
 * that reports a storage error may or may not have happened. A damaged hot entry may
 * be anything except a decodable result that was never committed for its identity.
 */
module RefreshRuns {
  import opened Prelude
  import opened AuthSessions
  import opened DurableFence
  import opened HotStore

  /** What the refresh operation stores: a refusal, or the sealed pair and its new token. */
  datatype Stored = Rejected | Rotated(envelope: nat, tokenId: TokenId)

  datatype Effect =
    | Rotation(session: SessionId, spent: TokenId, issued: TokenId)
    | Refusal(session: SessionId)

  datatype Commit = Commit(identity: Identity, completed: Completed<Stored>, effect: Effect)

  datatype Lease = Lease(owner: Owner, lost: bool)

  datatype Phase =
    | Arrived
    | Looking(lease: Option<Lease>)
    | Executing(lease: Option<Lease>)
    | Raced(lease: Option<Lease>)
    | Recovering(lease: Option<Lease>)
    | Waiting
    | Settling(held: Lease, outcome: Outcome<Stored>)
    | Raising(held: Lease)
    | Answered(outcome: Outcome<Stored>)

  datatype Request = Request(identity: Identity, presented: Digest, requestHash: Digest, phase: Phase)

  /** Whether the durable fence or the hot store gave an outcome. */
  datatype Origin = Fence | Cache

  datatype Answer = Answer(identity: Identity, requestHash: Digest, outcome: Outcome<Stored>,
                           origin: Origin)

  /** A token pair handed to a client. */
  datatype Delivery = Delivery(tokenId: TokenId, session: SessionId)

  /**
   * `live` is the unused token of each session; `commits`, `deleted`, `answers` and
   * `deliveries` are history: effects ever committed, records ever removed, outcomes
   * ever returned by the coordinator, pairs ever handed out.
   */
  datatype System = System(
    store: Store,
    live: map<SessionId, TokenId>,
    records: Records<Stored>,
    hot: map<Identity, Entry<Stored>>,
    owners: set<Owner>,
    requests: map<nat, Request>,
    commits: seq<Commit>,
    deleted: multiset<Identity>,
    answers: seq<Answer>,
    deliveries: seq<Delivery>)

  datatype Config = Config(idleTtl: int, retention: int, resultTtl: int)

  datatype Report = Acknowledged | Unclear(applied: bool)

  /** One pass of the transaction: the callback dies, or runs on what it found. */
  datatype Pass =
    | Aborts
    | Runs(found: Option<TokenId>, canAuthenticate: bool, tokenId: TokenId, hash: Digest,
           envelope: nat, insertedAt: Time, report: Report)

  datatype Step =
    | Arrive(pid: nat, identity: Identity, presented: Digest, requestHash: Digest)
    | Bypass(pid: nat)
    | BeginHot(pid: nat, owner: Owner, leaseSeconds: int, heard: bool)
    | Lookup(pid: nat, now: Time, readable: bool)
    | Execute(pid: nat, now: Time, pass: Pass)
    | LookAgain(pid: nat, now: Time, readable: bool)
    | Wait(pid: nat, now: Time)
    | Heartbeat(pid: nat, leaseSeconds: int, reached: bool)
    | SettleHot(pid: nat, reached: bool)
    | AbandonHot(pid: nat, reached: bool)
    | Conclude(pid: nat, now: Time)
    | Cancel(pid: nat)
    | Dies(pid: nat)
    | HotLoses(identity: Identity)
    | HotDamages(identity: Identity, entry: Entry<Stored>)
    | Sweep(cutoff: Time, gone: set<Identity>)
    | Login(session: SessionId, userId: nat, tokenId: TokenId, hash: Digest, now: Time)
    | Logout(found: Option<TokenId>, now: Time)

  const START: System :=
    System(Store(map[], map[]), map[], map[], map[], {}, map[], [], multiset{}, [], [])

  // The refresh transaction.

  predicate Finds(st: Store, hash: Digest, found: Option<TokenId>) {
    match found
    case Some(id) => id in st.tokens && st.tokens[id].hash == hash
    case None => forall id | id in st.tokens :: st.tokens[id].hash != hash
  }

  datatype Refreshed = Refreshed(store: Store, stored: Stored, effect: Effect)

  /** `TransactionalRefreshOperation.execute`; an error is any exception that leaves it. */
  function Refresh(c: Config, st: Store, p: Pass, now: Time): Result<Refreshed, ()>
    requires p.Runs?
  {
    if p.found.None? || p.found.value !in st.tokens
       || st.tokens[p.found.value].sessionId !in st.sessions
    then Err(())
    else
      var a := Loaded(st, p.found.value);
      match AcceptsRefresh(a, now, p.canAuthenticate)
      case Err(_) => Err(())
      case Ok((b, accepted)) =>
        if !accepted then
          match Saved(st, b)
          case Err(_) => Err(())
          case Ok(st') => Ok(Refreshed(st', Rejected, Refusal(a.id)))
        else Rotating(c, st, a, p, now)
  }

  function Rotating(c: Config, st: Store, a: Aggregate, p: Pass, now: Time): Result<Refreshed, ()>
    requires p.Runs? && p.found.Some?
  {
    match Rotate(a, now, c.idleTtl, p.tokenId, p.hash)
    case Err(_) => Err(())
    case Ok(b) =>
      match Saved(st, b)
      case Err(_) => Err(())
      case Ok(st') =>
        Ok(Refreshed(st', Rotated(p.envelope, p.tokenId),
                     Rotation(a.id, p.found.value, p.tokenId)))
  }

  // The steps of a request.

  function Move(s: System, pid: nat, phase: Phase): System
    requires pid in s.requests
  {
    s.(requests := s.requests[pid := s.requests[pid].(phase := phase)])
  }

  function Leave(s: System, pid: nat): System { s.(requests := s.requests - {pid}) }

  /** The coordinator returns. */
  function Return(s: System, pid: nat, outcome: Outcome<Stored>, origin: Origin): System
    requires pid in s.requests
  {
    var r := s.requests[pid];
    Move(s, pid, Answered(outcome))
      .(answers := s.answers + [Answer(r.identity, r.requestHash, outcome, origin)])
  }

  predicate LeaseLives(lease: Option<Lease>) { lease.Some? && !lease.value.lost }

  /** The durable path has an outcome: with a live lease the hot entry is settled first. */
  function Finish(s: System, pid: nat, lease: Option<Lease>, outcome: Outcome<Stored>): System
    requires pid in s.requests
  {
    if LeaseLives(lease) then Move(s, pid, Settling(lease.value, outcome))
    else Return(s, pid, outcome, Fence)
  }

  /** The durable path raised: with a live lease the hot entry is given back first. */
  function Fail(s: System, pid: nat, lease: Option<Lease>): System
    requires pid in s.requests
  {
    if LeaseLives(lease) then Move(s, pid, Raising(lease.value)) else Leave(s, pid)
  }

  function AfterBegin(s: System, pid: nat, owner: Owner, leaseSeconds: int, heard: bool): System
    requires pid in s.requests
  {
    var r := s.requests[pid];
    var (h, code) := BeginScript(At(s.hot, r.identity), r.requestHash, owner, leaseSeconds);
    var s1 := s.(hot := Put(s.hot, r.identity, h), owners := s.owners + {owner});
    var begun := if heard then Decoded(code, r.requestHash) else Err(Unavailable);
    match begun
    case Err(_) => Move(s1, pid, Looking(None))
    case Ok(Leased) => Move(s1, pid, Looking(Some(Lease(owner, false))))
    case Ok(Replayed(c)) => Return(s1, pid, Replay(c), Cache)
    case Ok(Conflicting) => Return(s1, pid, Conflict, Cache)
    case Ok(Occupied) => Move(s1, pid, Waiting)
  }

  function AfterLookup(s: System, pid: nat, now: Time, readable: bool): System
    requires pid in s.requests && s.requests[pid].phase.Looking?
  {
    var r := s.requests[pid];
    if !readable then Fail(s, pid, r.phase.lease)
    else match FindExisting(s.records, r.identity, r.requestHash, now)
      case Some(outcome) => Finish(s, pid, r.phase.lease, outcome)
      case None => Move(s, pid, Executing(r.phase.lease))
  }

  function Committed(c: Config, s: System, r: Request, done: Refreshed, insertedAt: Time): System {
    var completed := Completed(r.requestHash, done.stored);
    s.(store := done.store,
       live := if done.effect.Rotation? then s.live[done.effect.session := done.effect.issued]
               else s.live,
       records := AfterTryAdd(s.records, r.identity, completed, insertedAt, c.retention),
       commits := s.commits + [Commit(r.identity, completed, done.effect)])
  }

  function AfterExecute(c: Config, s: System, pid: nat, now: Time, pass: Pass): System
    requires pid in s.requests && s.requests[pid].phase.Executing?
  {
    if pass.Aborts? then AfterCallback(c, s, pid, Err(()), 0, Unclear(false))
    else AfterCallback(c, s, pid, Refresh(c, s.store, pass, now), pass.insertedAt, pass.report)
  }

  /** The callback raised, or gave a result to insert beside its effect. */
  function AfterCallback(c: Config, s: System, pid: nat, result: Result<Refreshed, ()>,
                         insertedAt: Time, report: Report): System
    requires pid in s.requests && s.requests[pid].phase.Executing?
  {
    var r := s.requests[pid];
    var lease := r.phase.lease;
    match result
    case Err(_) => Move(s, pid, Recovering(lease))
    case Ok(done) =>
      if r.identity in s.records then Move(s, pid, Raced(lease))
      else match report
        case Acknowledged =>
          Finish(Committed(c, s, r, done, insertedAt), pid, lease,
                 Executed(Completed(r.requestHash, done.stored)))
        case Unclear(applied) =>
          Move(if applied then Committed(c, s, r, done, insertedAt) else s, pid, Recovering(lease))
  }

  function AfterLookAgain(s: System, pid: nat, now: Time, readable: bool): System
    requires pid in s.requests
    requires s.requests[pid].phase.Raced? || s.requests[pid].phase.Recovering?
  {
    var r := s.requests[pid];
    if !readable then Fail(s, pid, r.phase.lease)
    else match FindExisting(s.records, r.identity, r.requestHash, now)
      case Some(outcome) => Finish(s, pid, r.phase.lease, outcome)
      case None => Fail(s, pid, r.phase.lease)
  }

  function AfterWait(s: System, pid: nat, now: Time): System
    requires pid in s.requests
  {
    var r := s.requests[pid];
    match FindExisting(s.records, r.identity, r.requestHash, now)
    case Some(outcome) => Return(s, pid, outcome, Fence)
    case None => Return(s, pid, InProgress, Fence)
  }

  predicate Beating(p: Phase) {
    (p.Looking? || p.Executing? || p.Raced? || p.Recovering?) && LeaseLives(p.lease)
  }

  function AfterHeartbeat(s: System, pid: nat, leaseSeconds: int, reached: bool): System
    requires pid in s.requests && Beating(s.requests[pid].phase)
  {
    var r := s.requests[pid];
    var lease := r.phase.lease.value;
    var (h, renewed) := RenewScript(At(s.hot, r.identity), lease.owner, leaseSeconds);
    if reached && renewed then s.(hot := Put(s.hot, r.identity, h))
    else Move(s, pid, r.phase.(lease := Some(lease.(lost := true))))
  }

  function AfterSettleHot(c: Config, s: System, pid: nat, reached: bool): System
    requires pid in s.requests && s.requests[pid].phase.Settling?
  {
    var r := s.requests[pid];
    var Settling(lease, outcome) := r.phase;
    var h := if outcome.Carries()
             then CompleteScript(At(s.hot, r.identity), lease.owner, outcome.completed, c.resultTtl).0
             else AbandonScript(At(s.hot, r.identity), lease.owner).0;
    Return(if reached then s.(hot := Put(s.hot, r.identity, h)) else s, pid, outcome, Fence)
  }

  function AfterAbandonHot(s: System, pid: nat, reached: bool): System
    requires pid in s.requests && s.requests[pid].phase.Raising?
  {
    var r := s.requests[pid];
    var h := AbandonScript(At(s.hot, r.identity), r.phase.held.owner).0;
    Leave(if reached then s.(hot := Put(s.hot, r.identity, h)) else s, pid)
  }

  /** The freshness check: the pair is handed out only while its token can be replayed. */
  predicate Fresh(st: Store, id: TokenId, now: Time) {
    && id in st.tokens
    && st.tokens[id].sessionId in st.sessions
    && CanReplay(Loaded(st, id), now) == Ok(true)
  }

  function AfterConclude(s: System, pid: nat, now: Time): System
    requires pid in s.requests && s.requests[pid].phase.Answered?
  {
    var outcome := s.requests[pid].phase.outcome;
    if outcome.Carries() && outcome.completed.result.Rotated?
       && Fresh(s.store, outcome.completed.result.tokenId, now)
    then
      var id := outcome.completed.result.tokenId;
      Leave(s, pid).(deliveries := s.deliveries + [Delivery(id, s.store.tokens[id].sessionId)])
    else Leave(s, pid)
  }

  // The other handlers.

  function AfterLogin(c: Config, s: System, session: SessionId, userId: nat, tokenId: TokenId,
                      hash: Digest, now: Time): System
  {
    match Start(session, userId, tokenId, hash, now, c.idleTtl)
    case Err(_) => s
    case Ok(a) =>
      match Created(s.store, a)
      case Err(_) => s
      case Ok(st) => s.(store := st, live := s.live[session := tokenId])
  }

  function AfterLogout(s: System, found: Option<TokenId>, now: Time): System {
    if found.None? || found.value !in s.store.tokens
       || s.store.tokens[found.value].sessionId !in s.store.sessions
    then s
    else match Revoke(Loaded(s.store, found.value), now)
      case Err(_) => s
      case Ok(a) =>
        match Saved(s.store, a)
        case Err(_) => s
        case Ok(st) => s.(store := st)
  }

  /** The result was committed for the identity. */
  ghost predicate Genuine(commits: seq<Commit>, i: Identity, c: Completed<Stored>) {
    exists k :: 0 <= k < |commits| && commits[k].identity == i && commits[k].completed == c
  }

  ghost predicate NotForged(commits: seq<Commit>, i: Identity, e: Entry<Stored>) {
    e.result.Some? && e.result.value.Encoded? ==> Genuine(commits, i, e.result.value.completed)
  }

  ghost predicate Enabled(s: System, step: Step) {
    match step
    case Arrive(pid, _, _, requestHash) =>
      pid !in s.requests && |requestHash| == DIGEST_LENGTH
    case Bypass(pid) => pid in s.requests && s.requests[pid].phase == Arrived
    case BeginHot(pid, owner, leaseSeconds, _) =>
      && pid in s.requests && s.requests[pid].phase == Arrived
      && owner !in s.owners && 0 < leaseSeconds
    case Lookup(pid, _, _) => pid in s.requests && s.requests[pid].phase.Looking?
    case Execute(pid, _, pass) =>
      && pid in s.requests && s.requests[pid].phase.Executing?
      && (pass.Runs? ==> Finds(s.store, s.requests[pid].presented, pass.found))
    case LookAgain(pid, _, _) =>
      pid in s.requests && (s.requests[pid].phase.Raced? || s.requests[pid].phase.Recovering?)
    case Wait(pid, _) => pid in s.requests && s.requests[pid].phase == Waiting
    case Heartbeat(pid, leaseSeconds, _) =>
      pid in s.requests && Beating(s.requests[pid].phase) && 0 < leaseSeconds
    case SettleHot(pid, _) => pid in s.requests && s.requests[pid].phase.Settling?
    case AbandonHot(pid, _) => pid in s.requests && s.requests[pid].phase.Raising?
    case Conclude(pid, _) => pid in s.requests && s.requests[pid].phase.Answered?
    case Cancel(pid) => pid in s.requests && Beating(s.requests[pid].phase)
    case Dies(pid) => pid in s.requests
    case HotLoses(_) => true
    case HotDamages(i, entry) => NotForged(s.commits, i, entry)
    case Sweep(cutoff, gone) =>
      forall i | i in gone :: i in s.records && s.records[i].expiresAt <= cutoff
    case Login(_, _, _, _, _) => true
    case Logout(_, _) => true
  }

  ghost function Apply(c: Config, s: System, step: Step): System
    requires Enabled(s, step)
  {
    match step
    case Arrive(pid, i, presented, requestHash) =>
      s.(requests := s.requests[pid := Request(i, presented, requestHash, Arrived)])
    case Bypass(pid) => Move(s, pid, Looking(None))
    case BeginHot(pid, owner, leaseSeconds, heard) =>
      AfterBegin(s, pid, owner, leaseSeconds, heard)
    case Lookup(pid, now, readable) => AfterLookup(s, pid, now, readable)
    case Execute(pid, now, pass) => AfterExecute(c, s, pid, now, pass)
    case LookAgain(pid, now, readable) => AfterLookAgain(s, pid, now, readable)
    case Wait(pid, now) => AfterWait(s, pid, now)
    case Heartbeat(pid, leaseSeconds, reached) => AfterHeartbeat(s, pid, leaseSeconds, reached)
    case SettleHot(pid, reached) => AfterSettleHot(c, s, pid, reached)
    case AbandonHot(pid, reached) => AfterAbandonHot(s, pid, reached)
    case Conclude(pid, now) => AfterConclude(s, pid, now)
    case Cancel(pid) => Fail(s, pid, s.requests[pid].phase.lease)
    case Dies(pid) => Leave(s, pid)
    case HotLoses(i) => s.(hot := s.hot - {i})
    case HotDamages(i, entry) => s.(hot := s.hot[i := entry])
    case Sweep(_, gone) => s.(records := s.records - gone, deleted := s.deleted + multiset(gone))
    case Login(session, userId, tokenId, hash, now) =>
      AfterLogin(c, s, session, userId, tokenId, hash, now)
    case Logout(found, now) => AfterLogout(s, found, now)
  }

  ghost predicate ValidRun(c: Config, s: System, steps: seq<Step>)
    decreases |steps|
  {
    steps == [] || (Enabled(s, steps[0]) && ValidRun(c, Apply(c, s, steps[0]), steps[1..]))
  }

  ghost function Exec(c: Config, s: System, steps: seq<Step>): System
    requires ValidRun(c, s, steps)
    decreases |steps|
  {
    if steps == [] then s else Exec(c, Apply(c, s, steps[0]), steps[1..])
  }
}
