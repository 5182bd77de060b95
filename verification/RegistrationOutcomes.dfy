/**
 * What each step of registration does, and whose credentials a reply is given to.
 */
module RegistrationOutcomes {
  import opened Prelude
  import opened OrderedBatch
  import opened RegistrationTable
  import opened RegistrationRuns
  import opened RegistrationSafety

  // Credentials.

  /** The hash of an operation, in its row or, once that is cleared, in its account. */
  function HashOf(o: Operation, users: map<UserId, User>): Option<PasswordHash> {
    if o.passwordHash.Some? then o.passwordHash
    else if o.userId in users then Some(users[o.userId].passwordHash)
    else None
  }

  /** The command brings the operation's key, email and password. */
  predicate Matches(o: Operation, users: map<UserId, User>, command: Command) {
    && o.keyHash == command.keyHash && o.email == command.email
    && HashOf(o, users).Some? && HashOf(o, users).value.password == command.password
  }

  ghost predicate RequestKnows(t: Table, users: map<UserId, User>, r: Request) {
    match r.phase
    case Resuming(id, op) =>
      id in t && (op.passwordHash.Some? ==> HashOf(t[id], users) == op.passwordHash)
    case Claiming(id, op) => id in t && Matches(t[id], users, r.command)
    case _ => true
  }

  ghost predicate AttemptKnows(t: Table, users: map<UserId, User>, k: Task, a: Attempt) {
    && k.id in t && a.op.passwordHash.Some? && HashOf(t[k.id], users) == a.op.passwordHash
    && (a.origin.Some? ==> Matches(t[k.id], users, a.origin.value))
  }

  ghost predicate AnswerKnows(t: Table, users: map<UserId, User>, a: Answer) {
    a.reply.Named? ==> a.reply.id in t && Matches(t[a.reply.id], users, a.command)
  }

  ghost predicate Credentials(s: System) {
    && (forall pid | pid in s.requests :: RequestKnows(s.ops, s.users, s.requests[pid]))
    && (forall k | k in s.attempts :: AttemptKnows(s.ops, s.users, k, s.attempts[k]))
    && (forall a | a in s.answers :: AnswerKnows(s.ops, s.users, a))
  }

  /** No operation loses its identity or its hash. */
  ghost predicate KeepsHashes(t: Table, users: map<UserId, User>, t': Table, users': map<UserId, User>) {
    forall id | id in t ::
      && id in t' && t'[id].SameIdentity(t[id])
      && (HashOf(t[id], users).Some? ==> HashOf(t'[id], users') == HashOf(t[id], users))
  }

  /** What is new in a state knows its credentials. */
  ghost predicate NewKnow(s: System, s': System) {
    && (forall pid | pid in s'.requests && !(pid in s.requests && s.requests[pid] == s'.requests[pid]) ::
          RequestKnows(s'.ops, s'.users, s'.requests[pid]))
    && (forall k | k in s'.attempts && !(k in s.attempts && s.attempts[k] == s'.attempts[k]) ::
          AttemptKnows(s'.ops, s'.users, k, s'.attempts[k]))
    && (forall a | a in s'.answers && a !in s.answers :: AnswerKnows(s'.ops, s'.users, a))
  }

  lemma Carry(s: System, s': System)
    requires Credentials(s) && KeepsHashes(s.ops, s.users, s'.ops, s'.users) && NewKnow(s, s')
    ensures Credentials(s')
  {
    forall pid | pid in s'.requests
      ensures RequestKnows(s'.ops, s'.users, s'.requests[pid])
    {
      assert pid in s.requests ==> RequestKnows(s.ops, s.users, s.requests[pid]);
    }
    forall k | k in s'.attempts
      ensures AttemptKnows(s'.ops, s'.users, k, s'.attempts[k])
    {
      assert k in s.attempts ==> AttemptKnows(s.ops, s.users, k, s.attempts[k]);
    }
    forall a | a in s'.answers
      ensures AnswerKnows(s'.ops, s'.users, a)
    {
      assert a in s.answers ==> AnswerKnows(s.ops, s.users, a);
    }
  }

  lemma HashesKnown(maxAttempts: int, s: System, id: OpId)
    requires Inv(maxAttempts, s) && id in s.ops
    ensures HashOf(s.ops[id], s.users).Some?
  {
    assert AccountSound(s.ops[id], s.users, s.events, s.confirmed);
  }

  // The tables keep every hash.

  lemma MoveKeepsHashes(t: Table, users: map<UserId, User>, id: OpId, token: Token, move: Move)
    requires !move.Complete?
    ensures KeepsHashes(t, users, AfterMove(t, id, token, move), users)
  {
  }

  lemma ClaimKeepsHashes(t: Table, users: map<UserId, User>, ids: set<OpId>, token: Token, at: Time)
    ensures KeepsHashes(t, users, AfterClaim(t, ids, token, at), users)
  {
  }

  predicate Live(o: Operation, token: Token, now: Time) {
    && o.status == Claimed && o.claimToken == Some(token)
    && o.claimExpiresAt.Some? && now < o.claimExpiresAt.value
  }

  /** The snapshot of an attempt, against the row as it is. */
  predicate SnapshotFits(s: System, task: Task) {
    && task in s.attempts && task.id in s.ops
    && s.attempts[task].op.SameIdentity(s.ops[task.id]) && s.ops[task.id].Lifecycle()
    && s.attempts[task].op.passwordHash.Some?
    && (s.ops[task.id].passwordHash.Some?
        ==> s.ops[task.id].passwordHash == s.attempts[task].op.passwordHash)
  }

  lemma AttemptFacts(maxAttempts: int, s: System, task: Task, now: Time)
    requires Inv(maxAttempts, s) && Credentials(s) && task in s.attempts
    ensures SnapshotFits(s, task)
    ensures FinalizationOf(s, task, now) == LostClaim || FinalizationOf(s, task, now) == Done
  {
    assert AttemptSound(s.ops, task, s.attempts[task], s.claims, s.confirmed);
    assert AttemptKnows(s.ops, s.users, task, s.attempts[task]);
    FinalizationMeetsNoConflict(maxAttempts, s, task, now);
  }

  lemma LandedShape(s: System, task: Task, now: Time, applied: bool)
    requires SnapshotFits(s, task)
    requires FinalizationOf(s, task, now) == LostClaim || FinalizationOf(s, task, now) == Done
    ensures var s', o := Landed(s, task, now, applied), s.ops[task.id];
            if Live(o, task.token, now) && applied
            then && o.passwordHash.Some?
                 && s'.users == s.users[o.userId := User(o.email, o.passwordHash.value, o.createdAt)]
                 && s'.events == s.events + multiset{o.userId}
                 && s'.ops == s.ops[task.id := o.(status := Completed, attempts := o.attempts + 1,
                                                  passwordHash := None, lastError := None,
                                                  claimToken := None, claimExpiresAt := None,
                                                  terminalAt := Some(now))]
            else s'.ops == s.ops && s'.users == s.users && s'.events == s.events
  {
  }

  /** The hash moves from the operation to its account, and the others' stay where they are. */
  lemma HashMoves(t: Table, users: map<UserId, User>, id: OpId, o: Operation, user: User, x: OpId)
    requires id in t && x in t && (x == id || !Clash(t[x], t[id]))
    requires o.SameIdentity(t[id]) && o.passwordHash.None?
    requires t[id].passwordHash == Some(user.passwordHash)
    ensures HashOf(t[x], users).Some? ==>
              HashOf(t[id := o][x], users[o.userId := user]) == HashOf(t[x], users)
  {
  }

  lemma CommitKeepsHashes(t: Table, users: map<UserId, User>, id: OpId, o: Operation, user: User)
    requires Unique(t) && id in t && o.SameIdentity(t[id]) && o.passwordHash.None?
    requires t[id].passwordHash == Some(user.passwordHash)
    ensures KeepsHashes(t, users, t[id := o], users[o.userId := user])
  {
    forall x | x in t
      ensures t[id := o][x].SameIdentity(t[x])
      ensures HashOf(t[x], users).Some?
              ==> HashOf(t[id := o][x], users[o.userId := user]) == HashOf(t[x], users)
    {
      HashMoves(t, users, id, o, user, x);
    }
  }

  lemma LandedKeepsHashes(s: System, task: Task, now: Time, applied: bool)
    requires Unique(s.ops) && SnapshotFits(s, task)
    requires FinalizationOf(s, task, now) == LostClaim || FinalizationOf(s, task, now) == Done
    ensures var s' := Landed(s, task, now, applied); KeepsHashes(s.ops, s.users, s'.ops, s'.users)
  {
    LandedShape(s, task, now, applied);
    var s', o := Landed(s, task, now, applied), s.ops[task.id];
    if Live(o, task.token, now) && applied {
      CommitKeepsHashes(s.ops, s.users, task.id, s'.ops[task.id],
                        User(o.email, o.passwordHash.value, o.createdAt));
    }
  }

  lemma LandedReaders(s: System, task: Task, now: Time, applied: bool)
    requires task in s.attempts
    ensures Landed(s, task, now, applied).requests == s.requests
    ensures Landed(s, task, now, applied).attempts == s.attempts
    ensures Landed(s, task, now, applied).answers == s.answers
  {
  }

  // Every step keeps the credentials.

  lemma ConcludeKnows(s: System, task: Task, completed: bool)
    requires Credentials(s) && task in s.attempts
    ensures Credentials(Conclude(s, task, Named(task.id, s.attempts[task].op.userId, completed)))
  {
    assert AttemptKnows(s.ops, s.users, task, s.attempts[task]);
    Carry(s, Conclude(s, task, Named(task.id, s.attempts[task].op.userId, completed)));
  }

  lemma ConcludeFails(s: System, task: Task, failure: Failure)
    requires Credentials(s) && task in s.attempts
    ensures Credentials(Conclude(s, task, Failed(failure)))
  {
    Carry(s, Conclude(s, task, Failed(failure)));
  }

  lemma ContinueKnows(s: System, task: Task, progress: Progress)
    requires Credentials(s) && task in s.attempts
    ensures Credentials(Continue(s, task, progress))
  {
    assert AttemptKnows(s.ops, s.users, task, s.attempts[task]);
    Carry(s, Continue(s, task, progress));
  }

  lemma VanishKnows(s: System, task: Task)
    requires Credentials(s)
    ensures Credentials(Vanish(s, task))
  {
    Carry(s, Vanish(s, task));
  }

  lemma TransitionKnows(s: System, task: Task, move: Move)
    requires Credentials(s) && !move.Complete?
    ensures Credentials(Transition(s, task, move))
  {
    MoveKeepsHashes(s.ops, s.users, task.id, task.token, move);
    Carry(s, Transition(s, task, move));
  }

  lemma LandedKnows(maxAttempts: int, s: System, task: Task, now: Time, applied: bool)
    requires Inv(maxAttempts, s) && Credentials(s) && task in s.attempts
    ensures Credentials(Landed(s, task, now, applied))
    ensures Landed(s, task, now, applied).attempts == s.attempts
  {
    AttemptFacts(maxAttempts, s, task, now);
    LandedKeepsHashes(s, task, now, applied);
    LandedReaders(s, task, now, applied);
    Carry(s, Landed(s, task, now, applied));
  }

  lemma FinalizeKnows(maxAttempts: int, s: System, task: Task, now: Time, report: Report)
    requires Inv(maxAttempts, s) && Credentials(s) && task in s.attempts
    ensures Credentials(AfterFinalize(s, task, now, report))
  {
    FinalizationMeetsNoConflict(maxAttempts, s, task, now);
    if report.Acknowledged? {
      LandedKnows(maxAttempts, s, task, now, true);
      AnswerShape(s, task, now);
      ConcludeKnows(Landed(s, task, now, true), task, FinalizationOf(s, task, now) == Done);
    } else {
      LandedKnows(maxAttempts, s, task, now, report.applied);
      ErrorShape(s, task, now, report);
      ContinueKnows(Landed(s, task, now, report.applied), task, AfterError(s, task, report));
    }
  }

  lemma DeferKnows(maxAttempts: int, s: System, task: Task, now: Time, retryAt: Time, heard: bool)
    requires Credentials(s) && task in s.attempts
    ensures Credentials(AfterDefer(maxAttempts, s, task, now, retryAt, heard))
  {
    if s.attempts[task].op.attempts + 1 >= maxAttempts {
      ContinueKnows(s, task, Blocking);
    } else {
      var move := Retry(now, retryAt, "Deferred");
      TransitionKnows(s, task, move);
      if heard {
        ConcludeKnows(Transition(s, task, move), task, false);
      } else {
        VanishKnows(Transition(s, task, move), task);
      }
    }
  }

  lemma GiveUpKnows(s: System, task: Task, now: Time, heard: bool)
    requires Credentials(s) && task in s.attempts
    ensures Credentials(AfterGiveUp(s, task, now, heard))
  {
    var move := Block(now, "Blocked");
    TransitionKnows(s, task, move);
    if heard {
      ConcludeFails(Transition(s, task, move), task, Unavailable);
    } else {
      VanishKnows(Transition(s, task, move), task);
    }
  }

  lemma ProfileKnows(s: System, task: Task, outcome: ProfileOutcome)
    requires Credentials(s) && task in s.attempts
    ensures Credentials(AfterProfile(s, task, outcome))
  {
    var s1 := s.(confirmed := s.confirmed + {s.attempts[task].op.userId});
    Carry(s, s1);
    match outcome
    case Confirmed => ContinueKnows(s1, task, Finalizing);
    case Unreachable => ContinueKnows(s, task, Deferring);
    case Rejected => ContinueKnows(s, task, Blocking);
    case Broken => ContinueKnows(s, task, Blocking);
  }

  lemma ArriveKnows(s: System, pid: nat, command: Command)
    requires Credentials(s)
    ensures Credentials(s.(requests := s.requests[pid := Request(command, Arrived)]))
  {
    Carry(s, s.(requests := s.requests[pid := Request(command, Arrived)]));
  }

  lemma LeaveKnows(s: System, pid: nat)
    requires Credentials(s)
    ensures Credentials(s.(requests := s.requests - {pid}))
  {
    Carry(s, s.(requests := s.requests - {pid}));
  }

  lemma AdvanceKnows(s: System, pid: nat, phase: Phase)
    requires Credentials(s) && pid in s.requests
    requires RequestKnows(s.ops, s.users, s.requests[pid].(phase := phase))
    ensures Credentials(Advance(s, pid, phase))
  {
    Carry(s, Advance(s, pid, phase));
  }

  lemma RespondKnows(s: System, pid: nat, reply: Reply)
    requires Credentials(s) && pid in s.requests
    requires AnswerKnows(s.ops, s.users, Answer(s.requests[pid].command, reply))
    ensures Credentials(Respond(s, pid, reply))
  {
    Carry(s, Respond(s, pid, reply));
  }

  lemma LoadKnows(s: System, pid: nat, found: Option<OpId>)
    requires Credentials(s) && pid in s.requests && (found.Some? ==> found.value in s.ops)
    ensures Credentials(AfterLoad(s, pid, found))
  {
    if found.Some? {
      AdvanceKnows(s, pid, Resuming(found.value, s.ops[found.value]));
    } else if s.requests[pid].phase == Arrived {
      AdvanceKnows(s, pid, Missing);
    } else {
      RespondKnows(s, pid, Failed(UserAlreadyExists));
    }
  }

  lemma CreateKnows(s: System, pid: nat, id: OpId, op: Operation, token: Token)
    requires Credentials(s) && pid in s.requests && op.passwordHash.Some?
    requires Matches(op, s.users, s.requests[pid].command)
    ensures Credentials(AfterCreate(s, pid, id, op, token))
  {
    if EmailTaken(s.users, op.email) || !Insertable(s.ops, id, op) {
      AdvanceKnows(s, pid, Reloading);
    } else {
      var s' := AfterCreate(s, pid, id, op, token);
      assert AttemptKnows(s'.ops, s'.users, Task(token, id), s'.attempts[Task(token, id)]);
      Carry(s, s');
    }
  }

  /** The password the check compares with is the registered one. */
  lemma SnapshotHash(maxAttempts: int, s: System, pid: nat)
    requires Inv(maxAttempts, s) && Credentials(s)
    requires pid in s.requests && s.requests[pid].phase.Resuming?
    ensures var Request(command, Resuming(id, op)) := s.requests[pid];
            && id in s.ops && op.SameIdentity(s.ops[id]) && op.keyHash == command.keyHash
            && (op.passwordHash.None? ==> op.userId in s.users)
            && HashOf(s.ops[id], s.users).Some?
            && HashOf(op, s.users) == HashOf(s.ops[id], s.users)
  {
    var Request(command, Resuming(id, op)) := s.requests[pid];
    assert RequestSound(s.ops, s.requests[pid]);
    assert RequestKnows(s.ops, s.users, s.requests[pid]);
    assert AccountSound(s.ops[id], s.users, s.events, s.confirmed);
    HashesKnown(maxAttempts, s, id);
  }

  /** The reply of the check, or none if it goes on to claim. */
  function Checked(s: System, id: OpId, op: Operation, command: Command): Option<Reply>
    requires id in s.ops
  {
    if !Matches(s.ops[id], s.users, command) then Some(Failed(KeyConflict))
    else if op.status == Completed then Some(Named(id, op.userId, true))
    else if op.status == Blocked then Some(Failed(Unavailable))
    else None
  }

  lemma VerifyShape(maxAttempts: int, s: System, pid: nat)
    requires Inv(maxAttempts, s) && Credentials(s)
    requires pid in s.requests && s.requests[pid].phase.Resuming?
    ensures s.requests[pid].phase.id in s.ops
    ensures var Request(command, Resuming(id, op)) := s.requests[pid];
            var reply := Checked(s, id, op, command);
            AfterVerify(s, pid) == if reply.Some? then Respond(s, pid, reply.value)
                                   else Advance(s, pid, Claiming(id, op))
  {
    SnapshotHash(maxAttempts, s, pid);
  }

  lemma VerifyKnows(maxAttempts: int, s: System, pid: nat)
    requires Inv(maxAttempts, s) && Credentials(s)
    requires pid in s.requests && s.requests[pid].phase.Resuming?
    ensures Credentials(AfterVerify(s, pid))
  {
    VerifyShape(maxAttempts, s, pid);
    var Request(command, Resuming(id, op)) := s.requests[pid];
    var reply := Checked(s, id, op, command);
    if reply.Some? {
      RespondKnows(s, pid, reply.value);
    } else {
      AdvanceKnows(s, pid, Claiming(id, op));
    }
  }

  lemma ClaimsKnow(maxAttempts: int, s: System, now: Time, token: Token, expiresAt: Time,
                   ids: set<OpId>, origin: Option<Command>)
    requires Inv(maxAttempts, s) && Credentials(s)
    requires forall id | id in ids :: id in s.ops && Eligible(s.ops[id], now)
    requires origin.Some? ==> forall id | id in ids :: Matches(s.ops[id], s.users, origin.value)
    ensures Credentials(AfterClaims(s, token, expiresAt, ids, origin))
  {
    var s' := AfterClaims(s, token, expiresAt, ids, origin);
    ClaimKeepsHashes(s.ops, s.users, ids, token, expiresAt);
    forall k | k in s'.attempts && !(k in s.attempts && s.attempts[k] == s'.attempts[k])
      ensures AttemptKnows(s'.ops, s'.users, k, s'.attempts[k])
    {
      assert k.id in ids && s'.ops[k.id].passwordHash == s.ops[k.id].passwordHash;
    }
    Carry(s, s');
  }

  /** The operation a request claims by its key is the one it was shown. */
  lemma TargetIsClaiming(maxAttempts: int, s: System, pid: nat, target: OpId)
    requires Inv(maxAttempts, s) && pid in s.requests && s.requests[pid].phase.Claiming?
    requires target in s.ops && s.ops[target].keyHash == s.requests[pid].phase.op.keyHash
    ensures target == s.requests[pid].phase.id
  {
    assert RequestSound(s.ops, s.requests[pid]);
    assert target != s.requests[pid].phase.id
           ==> !Clash(s.ops[target], s.ops[s.requests[pid].phase.id]);
  }

  lemma ClaimOneKnows(maxAttempts: int, s: System, pid: nat, now: Time, target: Option<OpId>,
                      token: Token, expiresAt: Time)
    requires Inv(maxAttempts, s) && Credentials(s)
    requires pid in s.requests && s.requests[pid].phase.Claiming?
    requires target.Some? ==> target.value in s.ops && Eligible(s.ops[target.value], now)
                              && s.ops[target.value].keyHash == s.requests[pid].phase.op.keyHash
    ensures Credentials(AfterClaimOne(s, pid, target, token, expiresAt))
  {
    var Request(command, Claiming(id, op)) := s.requests[pid];
    assert RequestKnows(s.ops, s.users, s.requests[pid]);
    if target.None? {
      RespondKnows(s, pid, Named(id, op.userId, false));
    } else {
      TargetIsClaiming(maxAttempts, s, pid, target.value);
      var s1 := s.(requests := s.requests - {pid});
      LeaveKeepsRequests(s.ops, s.requests, pid);
      Carry(s, s1);
      ClaimsKnow(maxAttempts, s1, now, token, expiresAt, {target.value}, Some(command));
    }
  }

  lemma RedriveKnows(s: System, id: OpId, at: Time)
    requires Credentials(s)
    ensures Credentials(s.(ops := AfterRedrive(s.ops, id, at)))
  {
    Carry(s, s.(ops := AfterRedrive(s.ops, id, at)));
  }

  lemma RequestStepKeepsCredentials(maxAttempts: int, s: System, step: Step)
    requires Inv(maxAttempts, s) && Credentials(s) && Enabled(s, step)
    requires step.Arrive? || step.Load? || step.Create? || step.Verify? || step.ClaimOne?
             || step.RequestDies?
    ensures Credentials(Apply(maxAttempts, s, step))
  {
    match step
    case Arrive(pid, command) => ArriveKnows(s, pid, command);
    case Load(pid, found) => LoadKnows(s, pid, found);
    case Create(pid, id, userId, salt, token, now, expiresAt) =>
      var c := s.requests[pid].command;
      CreateKnows(s, pid, id, Candidate(userId, c.email, PasswordHash(c.password, salt), c.keyHash,
                                        token, now, expiresAt), token);
    case Verify(pid) => VerifyKnows(maxAttempts, s, pid);
    case ClaimOne(pid, target, token, now, expiresAt) =>
      ClaimOneKnows(maxAttempts, s, pid, now, target, token, expiresAt);
    case RequestDies(pid) => LeaveKnows(s, pid);
  }

  lemma StepKeepsCredentials(maxAttempts: int, s: System, step: Step)
    requires Inv(maxAttempts, s) && Credentials(s) && Enabled(s, step)
    ensures Credentials(Apply(maxAttempts, s, step))
  {
    match step
    case ClaimMany(token, now, expiresAt, ids) =>
      ClaimsKnow(maxAttempts, s, now, token, expiresAt, ids, None);
    case Profile(task, outcome) => ProfileKnows(s, task, outcome);
    case Finalize(task, now, report) => FinalizeKnows(maxAttempts, s, task, now, report);
    case Defer(task, now, retryAt, heard) => DeferKnows(maxAttempts, s, task, now, retryAt, heard);
    case GiveUp(task, now, heard) => GiveUpKnows(s, task, now, heard);
    case Redrive(id, now) => RedriveKnows(s, id, now);
    case AttemptDies(task) => VanishKnows(s, task);
    case _ => RequestStepKeepsCredentials(maxAttempts, s, step);
  }

  lemma {:induction false} RunKeepsCredentials(maxAttempts: int, s: System, steps: seq<Step>)
    requires 0 < maxAttempts && Inv(maxAttempts, s) && Credentials(s) && ValidRun(maxAttempts, s, steps)
    ensures Credentials(Exec(maxAttempts, s, steps))
    decreases |steps|
  {
    if steps != [] {
      StepKeepsInv(maxAttempts, s, steps[0]);
      StepKeepsCredentials(maxAttempts, s, steps[0]);
      RunKeepsCredentials(maxAttempts, Apply(maxAttempts, s, steps[0]), steps[1..]);
    }
  }

  lemma ReachableCredentials(maxAttempts: int, s: System)
    requires 0 < maxAttempts && Reachable(maxAttempts, s)
    ensures Inv(maxAttempts, s) && Credentials(s)
  {
    ReachableInv(maxAttempts, s);
    var s0, steps :| Initial(s0) && ValidRun(maxAttempts, s0, steps) && Exec(maxAttempts, s0, steps) == s;
    assert Inv(maxAttempts, s0);
    RunKeepsCredentials(maxAttempts, s0, steps);
  }

  // Main results.

  /**
   * A registration is named, pending or completed, only to a command with its key, its
   * email and the password of its hash, be that still the operation's or already the
   * account's.
   */
  lemma NamedOnlyToItsOwner(maxAttempts: int, s: System, a: Answer)
    requires 0 < maxAttempts && Reachable(maxAttempts, s) && a in s.answers && a.reply.Named?
    ensures a.reply.id in s.ops
    ensures var o := s.ops[a.reply.id];
            && o.keyHash == a.command.keyHash && o.email == a.command.email
            && if o.passwordHash.Some? then o.passwordHash.value.password == a.command.password
               else o.userId in s.users && s.users[o.userId].passwordHash.password == a.command.password
  {
    ReachableCredentials(maxAttempts, s);
    assert AnswerKnows(s.ops, s.users, a);
  }

  /**
   * The check of a resumed registration: KEY CONFLICT exactly if the email or the
   * password is not the registered one; else the completed registration is named, a
   * blocked one refused, and any other goes on to be claimed.
   */
  lemma VerifyExactly(maxAttempts: int, s: System, pid: nat)
    requires 0 < maxAttempts && Reachable(maxAttempts, s) && Enabled(s, Verify(pid))
    ensures var Request(command, Resuming(id, op)) := s.requests[pid];
            var s' := Apply(maxAttempts, s, Verify(pid));
            && id in s.ops && HashOf(s.ops[id], s.users).Some?
            && s'.ops == s.ops && s'.users == s.users
            && if s.ops[id].email != command.email
                  || HashOf(s.ops[id], s.users).value.password != command.password
               then s' == Respond(s, pid, Failed(KeyConflict))
               else if op.status == Completed then s' == Respond(s, pid, Named(id, op.userId, true))
               else if op.status == Blocked then s' == Respond(s, pid, Failed(Unavailable))
               else s' == Advance(s, pid, Claiming(id, op))
  {
    ReachableCredentials(maxAttempts, s);
    SnapshotHash(maxAttempts, s, pid);
    VerifyShape(maxAttempts, s, pid);
  }

  /** A lookup by key shows the operation as it is; without one the first lookup goes on to create. */
  lemma LoadExactly(maxAttempts: int, s: System, pid: nat, found: Option<OpId>)
    requires Enabled(s, Load(pid, found))
    ensures var s' := Apply(maxAttempts, s, Load(pid, found));
            if exists id :: id in s.ops && s.ops[id].keyHash == s.requests[pid].command.keyHash
            then found.Some? && s.ops[found.value].keyHash == s.requests[pid].command.keyHash
                 && s' == Advance(s, pid, Resuming(found.value, s.ops[found.value]))
            else if s.requests[pid].phase == Arrived then s' == Advance(s, pid, Missing)
            else s' == Respond(s, pid, Failed(UserAlreadyExists))
  {
  }

  /**
   * An operation is stored exactly if its email has no account and no operation shares
   * its id, user, email or key. It is then claimed by its request, with the request's
   * credentials and no attempt made.
   */
  lemma CreateExactly(maxAttempts: int, s: System, step: Step)
    requires step.Create? && Enabled(s, step)
    ensures var s', c := Apply(maxAttempts, s, step), s.requests[step.pid].command;
            var free := step.id !in s.ops
                        && (forall u | u in s.users :: s.users[u].email != c.email)
                        && (forall x | x in s.ops :: s.ops[x].userId != step.userId
                              && s.ops[x].email != c.email && s.ops[x].keyHash != c.keyHash);
            var o := Operation(step.userId, c.email, Some(PasswordHash(c.password, step.salt)),
                               c.keyHash, Claimed, 0, step.now, Some(step.token),
                               Some(step.expiresAt), None, None, 0, step.now);
            && (!free ==> s' == Advance(s, step.pid, Reloading))
            && (free ==>
                  && s'.ops == s.ops[step.id := o] && s'.users == s.users
                  && s'.requests == s.requests - {step.pid} && s'.answers == s.answers
                  && s'.attempts == s.attempts[Task(step.token, step.id) := Attempt(o, Some(c), Calling)])
  {
  }

  /** Due, or left by a holder whose lease has ended. */
  predicate Due(o: Operation, now: Time) {
    || (o.status == Pending && o.availableAt <= now)
    || (o.status == Claimed && o.claimExpiresAt.Some? && o.claimExpiresAt.value <= now)
  }

  /**
   * A claim by key takes the operation exactly if it is due, changing nothing but its
   * claim; otherwise the registration is named as pending.
   */
  lemma ClaimOneExactly(maxAttempts: int, s: System, step: Step)
    requires 0 < maxAttempts && Reachable(maxAttempts, s) && step.ClaimOne? && Enabled(s, step)
    ensures var Request(command, Claiming(id, op)) := s.requests[step.pid];
            var s' := Apply(maxAttempts, s, step);
            && id in s.ops && s'.users == s.users && step.pid !in s'.requests
            && if Due(s.ops[id], step.now)
               then var o := s.ops[id].(status := Claimed, claimToken := Some(step.token),
                                        claimExpiresAt := Some(step.expiresAt), terminalAt := None);
                    && s'.ops == s.ops[id := o] && s'.answers == s.answers
                    && s'.attempts == s.attempts[Task(step.token, id) := Attempt(o, Some(command), Calling)]
               else s'.ops == s.ops && s'.attempts == s.attempts
                    && s'.answers == s.answers + [Answer(command, Named(id, op.userId, false))]
  {
    ReachableInv(maxAttempts, s);
    var Request(command, Claiming(id, op)) := s.requests[step.pid];
    assert RequestSound(s.ops, s.requests[step.pid]);
    if step.target.Some? {
      TargetIsClaiming(maxAttempts, s, step.pid, step.target.value);
      NewTask(maxAttempts, s, step.token, id);
      OneClaimShape(s.(requests := s.requests - {step.pid}), step.token, step.expiresAt, id,
                    Some(command));
    }
  }

  /** A new token has no attempt yet. */
  lemma NewTask(maxAttempts: int, s: System, token: Token, id: OpId)
    requires Inv(maxAttempts, s) && token !in s.tokens
    ensures Task(token, id) !in s.attempts
  {
    assert Task(token, id) in s.attempts ==>
        AttemptSound(s.ops, Task(token, id), s.attempts[Task(token, id)], s.claims, s.confirmed);
    assert id in s.ops ==> ClaimSound(s.ops[id], s.claims[id], s.tokens);
  }

  /** Claiming one operation: its claim, and one new attempt. */
  lemma OneClaimShape(s: System, token: Token, expiresAt: Time, id: OpId, origin: Option<Command>)
    requires id in s.ops && Task(token, id) !in s.attempts
    ensures var s' := AfterClaims(s, token, expiresAt, {id}, origin);
            var o := s.ops[id].(status := Claimed, claimToken := Some(token),
                                claimExpiresAt := Some(expiresAt), terminalAt := None);
            && s'.ops == s.ops[id := o] && s'.users == s.users && s'.answers == s.answers
            && s'.requests == s.requests
            && s'.attempts == s.attempts[Task(token, id) := Attempt(o, origin, Calling)]
  {
    var s' := AfterClaims(s, token, expiresAt, {id}, origin);
    assert s'.ops == s.ops[id := ClaimOperation(s.ops[id], token, expiresAt)];
    assert s'.attempts == s.attempts[Task(token, id) := Attempt(s'.ops[id], origin, Calling)];
  }

  /** A batch claim takes exactly its ids, changing nothing but their claims, and begins an attempt for each. */
  lemma ClaimManyExactly(maxAttempts: int, s: System, step: Step, id: OpId)
    requires 0 < maxAttempts && Reachable(maxAttempts, s)
    requires step.ClaimMany? && Enabled(s, step) && id in s.ops
    ensures var s' := Apply(maxAttempts, s, step);
            && s'.ops.Keys == s.ops.Keys && s'.users == s.users && s'.answers == s.answers
            && (id !in step.ids ==> s'.ops[id] == s.ops[id])
            && (id in step.ids ==>
                  && Due(s.ops[id], step.now)
                  && s'.ops[id] == s.ops[id].(status := Claimed, claimToken := Some(step.token),
                                              claimExpiresAt := Some(step.expiresAt),
                                              terminalAt := None)
                  && Task(step.token, id) in s'.attempts
                  && s'.attempts[Task(step.token, id)] == Attempt(s'.ops[id], None, Calling))
  {
    ReachableInv(maxAttempts, s);
    NewTask(maxAttempts, s, step.token, id);
    ManyClaimsShape(s, step.token, step.expiresAt, step.ids, id);
  }

  lemma ManyClaimsShape(s: System, token: Token, expiresAt: Time, ids: set<OpId>, id: OpId)
    requires id in s.ops && Task(token, id) !in s.attempts && forall x | x in ids :: x in s.ops
    ensures var s' := AfterClaims(s, token, expiresAt, ids, None);
            && s'.ops.Keys == s.ops.Keys && s'.users == s.users && s'.answers == s.answers
            && (id !in ids ==> s'.ops[id] == s.ops[id])
            && (id in ids ==>
                  && s'.ops[id] == s.ops[id].(status := Claimed, claimToken := Some(token),
                                              claimExpiresAt := Some(expiresAt), terminalAt := None)
                  && Task(token, id) in s'.attempts
                  && s'.attempts[Task(token, id)] == Attempt(s'.ops[id], None, Calling))
  {
  }

  /** The profile call: a confirmed one is remembered and finalized, an unreachable one deferred, any other blocked. */
  lemma ProfileExactly(maxAttempts: int, s: System, task: Task, outcome: ProfileOutcome)
    requires Enabled(s, Profile(task, outcome))
    ensures var s' := Apply(maxAttempts, s, Profile(task, outcome));
            && task in s'.attempts && s'.attempts[task].op == s.attempts[task].op
            && s'.attempts[task].origin == s.attempts[task].origin
            && s'.ops == s.ops && s'.users == s.users && s'.answers == s.answers
            && s'.confirmed == (if outcome == Confirmed
                                then s.confirmed + {s.attempts[task].op.userId} else s.confirmed)
            && (s'.attempts[task].progress == Finalizing <==> outcome == Confirmed)
            && (s'.attempts[task].progress == Deferring <==> outcome == Unreachable)
            && (s'.attempts[task].progress == Blocking <==> outcome == Rejected || outcome == Broken)
  {
  }

  /**
   * What a finalization that is committed writes, exactly for the holder of a live
   * claim: the operation completed and its hash cleared, the account with the
   * operation's user, email, hash and creation time, and one event.
   */
  lemma FinalizeExactly(maxAttempts: int, s: System, task: Task, now: Time, report: Report)
    requires 0 < maxAttempts && Reachable(maxAttempts, s) && Enabled(s, Finalize(task, now, report))
    ensures task.id in s.ops
    ensures var s', o := Apply(maxAttempts, s, Finalize(task, now, report)), s.ops[task.id];
            if Live(o, task.token, now) && (report.Acknowledged? || report.applied)
            then && o.passwordHash.Some?
                 && s'.users == s.users[o.userId := User(o.email, o.passwordHash.value, o.createdAt)]
                 && s'.events == s.events + multiset{o.userId}
                 && s'.ops == s.ops[task.id := o.(status := Completed, attempts := o.attempts + 1,
                                                  passwordHash := None, lastError := None,
                                                  claimToken := None, claimExpiresAt := None,
                                                  terminalAt := Some(now))]
            else s'.ops == s.ops && s'.users == s.users && s'.events == s.events
  {
    ReachableFacts(maxAttempts, s, task, now);
    LandedShape(s, task, now, if report.Acknowledged? then true else report.applied);
    FinalizeShape(s, task, now, report);
    FinalizeEvents(s, task, now, report);
  }

  lemma ReachableFacts(maxAttempts: int, s: System, task: Task, now: Time)
    requires 0 < maxAttempts && Reachable(maxAttempts, s) && task in s.attempts
    ensures SnapshotFits(s, task)
    ensures FinalizationOf(s, task, now) == LostClaim || FinalizationOf(s, task, now) == Done
  {
    ReachableCredentials(maxAttempts, s);
    AttemptFacts(maxAttempts, s, task, now);
  }

  lemma FinalizeEvents(s: System, task: Task, now: Time, report: Report)
    requires task in s.attempts
    ensures AfterFinalize(s, task, now, report).events
            == Landed(s, task, now, if report.Acknowledged? then true else report.applied).events
  {
  }

  /** The reply of a finalization: completed exactly if it took place, pending for a lost claim, deferred or blocked on an error. */
  lemma FinalizeReplies(maxAttempts: int, s: System, task: Task, now: Time, report: Report)
    requires 0 < maxAttempts && Reachable(maxAttempts, s) && Enabled(s, Finalize(task, now, report))
    ensures task.id in s.ops
    ensures var s', a := Apply(maxAttempts, s, Finalize(task, now, report)), s.attempts[task];
            && (report.Acknowledged? ==>
                  && s'.attempts == s.attempts - {task}
                  && s'.answers == if a.origin.None? then s.answers
                                   else s.answers + [Answer(a.origin.value,
                                          Named(task.id, s.ops[task.id].userId,
                                                Live(s.ops[task.id], task.token, now)))])
            && (!report.Acknowledged? ==>
                  && s'.attempts == s.attempts[task := a.(progress := if report.Unclear? then Deferring
                                                                      else Blocking)]
                  && s'.answers == s.answers)
  {
    ReachableFacts(maxAttempts, s, task, now);
    if report.Acknowledged? {
      AnswerShape(s, task, now);
    } else {
      ErrorShape(s, task, now, report);
    }
  }

  /**
   * A deferral retries exactly while attempts are left: the holder's row is PENDING
   * until the retry time with one more attempt, and the registration is named as
   * pending; at the last attempt it goes on to be blocked instead.
   */
  lemma DeferExactly(maxAttempts: int, s: System, task: Task, now: Time, retryAt: Time, heard: bool)
    requires 0 < maxAttempts && Reachable(maxAttempts, s)
    requires Enabled(s, Defer(task, now, retryAt, heard))
    ensures task.id in s.ops
    ensures var s', a, o := Apply(maxAttempts, s, Defer(task, now, retryAt, heard)),
                            s.attempts[task], s.ops[task.id];
            if a.op.attempts + 1 >= maxAttempts
            then s' == s.(attempts := s.attempts[task := a.(progress := Blocking)])
            else && s'.users == s.users && s'.attempts == s.attempts - {task}
                 && s'.ops == (if Live(o, task.token, now)
                               then s.ops[task.id := o.(status := Pending, attempts := o.attempts + 1,
                                                        lastError := Some("Deferred"),
                                                        availableAt := retryAt, claimToken := None,
                                                        claimExpiresAt := None, terminalAt := None)]
                               else s.ops)
                 && s'.answers == if !heard || a.origin.None? then s.answers
                                  else s.answers + [Answer(a.origin.value,
                                                           Named(task.id, o.userId, false))]
  {
    AttemptPlace(maxAttempts, s, task);
    DeferShape(maxAttempts, s, task, now, retryAt, heard);
    if s.attempts[task].op.attempts + 1 < maxAttempts {
      MoveShape(s, task, Retry(now, retryAt, "Deferred"));
    }
  }

  lemma AttemptPlace(maxAttempts: int, s: System, task: Task)
    requires 0 < maxAttempts && Reachable(maxAttempts, s) && task in s.attempts
    ensures task.id in s.ops && s.attempts[task].op.userId == s.ops[task.id].userId
  {
    ReachableInv(maxAttempts, s);
    assert AttemptSound(s.ops, task, s.attempts[task], s.claims, s.confirmed);
  }

  /** What a retry or a block writes, for the holder of a live claim only. */
  lemma MoveShape(s: System, task: Task, move: Move)
    requires task.id in s.ops && !move.Complete?
    ensures var s1, o := Transition(s, task, move), s.ops[task.id];
            var o1 := o.(attempts := o.attempts + 1, lastError := Some(move.error),
                         claimToken := None, claimExpiresAt := None);
            && s1 == s.(ops := s1.ops, moves := s1.moves)
            && s1.ops == if !Live(o, task.token, move.at) then s.ops
                         else if move.Block?
                         then s.ops[task.id := o1.(status := Blocked, terminalAt := Some(move.at))]
                         else s.ops[task.id := o1.(status := Pending, availableAt := move.availableAt,
                                                   terminalAt := None)]
  {
  }

  lemma DeferShape(maxAttempts: int, s: System, task: Task, now: Time, retryAt: Time, heard: bool)
    requires task in s.attempts
    ensures var s', a := AfterDefer(maxAttempts, s, task, now, retryAt, heard), s.attempts[task];
            if a.op.attempts + 1 >= maxAttempts
            then s' == s.(attempts := s.attempts[task := a.(progress := Blocking)])
            else s' == Transition(s, task, Retry(now, retryAt, "Deferred"))
                       .(attempts := s.attempts - {task},
                         answers := if !heard || a.origin.None? then s.answers
                                    else s.answers + [Answer(a.origin.value,
                                                             Named(task.id, a.op.userId, false))])
  {
  }

  /** Giving up blocks exactly the row of a live claim, with one more attempt, and the request is refused. */
  lemma GiveUpExactly(maxAttempts: int, s: System, task: Task, now: Time, heard: bool)
    requires 0 < maxAttempts && Reachable(maxAttempts, s) && Enabled(s, GiveUp(task, now, heard))
    ensures task.id in s.ops
    ensures var s', a, o := Apply(maxAttempts, s, GiveUp(task, now, heard)), s.attempts[task],
                            s.ops[task.id];
            && s'.users == s.users && s'.attempts == s.attempts - {task}
            && s'.ops == (if Live(o, task.token, now)
                          then s.ops[task.id := o.(status := Blocked, attempts := o.attempts + 1,
                                                   lastError := Some("Blocked"), claimToken := None,
                                                   claimExpiresAt := None, terminalAt := Some(now))]
                          else s.ops)
            && s'.answers == if !heard || a.origin.None? then s.answers
                             else s.answers + [Answer(a.origin.value, Failed(Unavailable))]
  {
    AttemptPlace(maxAttempts, s, task);
    MoveShape(s, task, Block(now, "Blocked"));
    GiveUpShape(s, task, now, heard);
  }

  lemma GiveUpShape(s: System, task: Task, now: Time, heard: bool)
    requires task in s.attempts
    ensures var s', a := AfterGiveUp(s, task, now, heard), s.attempts[task];
            s' == Transition(s, task, Block(now, "Blocked"))
                  .(attempts := s.attempts - {task},
                    answers := if !heard || a.origin.None? then s.answers
                               else s.answers + [Answer(a.origin.value, Failed(Unavailable))])
  {
  }

  /** A redrive reopens exactly a BLOCKED operation: due at once, no attempt made, its hash kept. */
  lemma RedriveExactly(maxAttempts: int, s: System, id: OpId, now: Time)
    requires id in s.ops
    ensures Apply(maxAttempts, s, Redrive(id, now))
            == if s.ops[id].status == Blocked
               then s.(ops := s.ops[id := s.ops[id].(status := Pending, attempts := 0, lastError := None,
                                                    availableAt := now, claimToken := None,
                                                    claimExpiresAt := None, terminalAt := None,
                                                    redriveCount := s.ops[id].redriveCount + 1)])
               else s
  {
  }

  /**
   * The batch the repository claims: due operations by availability, creation and id,
   * and any other due one comes after all of a full batch.
   */
  lemma ClaimOrder(t: Table, now: Time, locked: set<OpId>, ids: seq<OpId>, limit: int, x: OpId)
    requires IsOldest(ClaimRanks(t, now, locked), ids, limit)
    ensures forall k | 0 <= k < |ids| :: ids[k] in t && ids[k] !in locked && Due(t[ids[k]], now)
    ensures forall k, l | 0 <= k < l < |ids| :: Sooner(t, ids[k], ids[l])
    ensures x in t && x !in locked && x !in ids && Due(t[x], now)
            ==> |ids| == limit && forall k | 0 <= k < |ids| :: Sooner(t, ids[k], x)
  {
    var ranks := ClaimRanks(t, now, locked);
    assert forall k, l | 0 <= k < l < |ids| :: Before(ranks, ids[k], ids[l]);
    assert x in ranks && x !in ids ==>
        |ids| == limit && forall k | 0 <= k < |ids| :: Before(ranks, ids[k], x);
  }

  predicate Sooner(t: Table, x: OpId, y: OpId) {
    && x in t && y in t
    && (t[x].availableAt < t[y].availableAt
        || (t[x].availableAt == t[y].availableAt
            && (t[x].createdAt < t[y].createdAt || (t[x].createdAt == t[y].createdAt && x < y))))
  }
}
