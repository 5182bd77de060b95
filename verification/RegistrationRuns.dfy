/**
 * Registration with any number of requests and recovery workers, over whole runs.
 *
 * Every transaction, and the profile call between transactions, is a step. A
 * request or an attempt may die between any two steps. Every step brings its own
 * clock value; nothing relates the clocks of two steps. A finalization whose commit
 * reports a storage error may or may not have happened.
 */
module RegistrationRuns {
  import opened Prelude
  import opened RegistrationTable

  datatype User = User(email: string, passwordHash: PasswordHash, createdAt: Time)

  datatype Command = Command(email: string, password: string, keyHash: string)

  /** Where `RegisterUserHandler` stands; an operation in it is the snapshot it read. */
  datatype Phase =
    | Arrived
    | Missing
    | Reloading
    | Resuming(id: OpId, op: Operation)
    | Claiming(id: OpId, op: Operation)

  datatype Request = Request(command: Command, phase: Phase)

  /** Where `ResumeRegistrationHandler` stands. */
  datatype Progress = Calling | Finalizing | Deferring | Blocking

  /** `origin` is the request that waits for this attempt, or none for the reconciler. */
  datatype Attempt = Attempt(op: Operation, origin: Option<Command>, progress: Progress)

  datatype Task = Task(token: Token, id: OpId)

  datatype Failure = KeyConflict | UserAlreadyExists | CompletedWithoutUser | Unavailable

  datatype Reply =
    | Named(id: OpId, userId: UserId, completed: bool)
    | Failed(failure: Failure)

  datatype Answer = Answer(command: Command, reply: Reply)

  datatype ProfileOutcome = Confirmed | Rejected | Unreachable | Broken

  /**
   * How the finalizing transaction ends: as its statements decide, with a storage
   * error, or with any other exception. An error hides whether a commit happened.
   */
  datatype Report = Acknowledged | Unclear(applied: bool) | Raised(applied: bool)

  /**
   * `confirmed`, `events`, `answers`, `claims` and `moves` are history: profiles
   * confirmed, registered events ever inserted, replies ever given, the tokens that
   * ever claimed each operation, and the claims whose holder ever moved it.
   */
  datatype System = System(
    ops: Table,
    users: map<UserId, User>,
    requests: map<nat, Request>,
    attempts: map<Task, Attempt>,
    tokens: set<Token>,
    confirmed: set<UserId>,
    events: multiset<UserId>,
    answers: seq<Answer>,
    claims: map<OpId, seq<Token>>,
    moves: seq<Task>)

  datatype Step =
    | Arrive(pid: nat, command: Command)
    | Load(pid: nat, found: Option<OpId>)
    | Create(pid: nat, id: OpId, userId: UserId, salt: nat, token: Token, now: Time,
             expiresAt: Time)
    | Verify(pid: nat)
    | ClaimOne(pid: nat, target: Option<OpId>, token: Token, now: Time, expiresAt: Time)
    | ClaimMany(token: Token, now: Time, expiresAt: Time, ids: set<OpId>)
    | Profile(task: Task, outcome: ProfileOutcome)
    | Finalize(task: Task, now: Time, report: Report)
    | Defer(task: Task, now: Time, retryAt: Time, heard: bool)
    | GiveUp(task: Task, now: Time, heard: bool)
    | Redrive(id: OpId, now: Time)
    | RequestDies(pid: nat)
    | AttemptDies(task: Task)

  /** Before the first registration: only accounts that existed already. */
  predicate Initial(s: System) {
    s == System(map[], s.users, map[], map[], {}, {}, multiset{}, [], map[], [])
  }

  predicate EmailTaken(users: map<UserId, User>, email: string) {
    exists u :: u in users && users[u].email == email
  }

  predicate Finds(t: Table, key: string, found: Option<OpId>) {
    match found
    case Some(id) => id in t && t[id].keyHash == key
    case None => forall id | id in t :: t[id].keyHash != key
  }

  predicate Targets(t: Table, key: string, now: Time, target: Option<OpId>) {
    match target
    case Some(id) => id in t && t[id].keyHash == key && Eligible(t[id], now)
    case None => forall id | id in t && t[id].keyHash == key :: !Eligible(t[id], now)
  }

  predicate Enabled(s: System, step: Step) {
    match step
    case Arrive(pid, _) => pid !in s.requests
    case Load(pid, found) =>
      && pid in s.requests
      && (s.requests[pid].phase == Arrived || s.requests[pid].phase == Reloading)
      && Finds(s.ops, s.requests[pid].command.keyHash, found)
    case Create(pid, _, userId, _, token, now, expiresAt) =>
      && pid in s.requests && s.requests[pid].phase == Missing
      && token !in s.tokens && now < expiresAt && userId !in s.users
    case Verify(pid) => pid in s.requests && s.requests[pid].phase.Resuming?
    case ClaimOne(pid, target, token, now, expiresAt) =>
      && pid in s.requests && s.requests[pid].phase.Claiming?
      && token !in s.tokens && now < expiresAt
      && Targets(s.ops, s.requests[pid].phase.op.keyHash, now, target)
    case ClaimMany(token, now, expiresAt, ids) =>
      && token !in s.tokens && now < expiresAt
      && forall id | id in ids :: id in s.ops && Eligible(s.ops[id], now)
    case Profile(task, _) => task in s.attempts && s.attempts[task].progress == Calling
    case Finalize(task, _, _) => task in s.attempts && s.attempts[task].progress == Finalizing
    case Defer(task, _, _, _) => task in s.attempts && s.attempts[task].progress == Deferring
    case GiveUp(task, _, _) => task in s.attempts && s.attempts[task].progress == Blocking
    case Redrive(_, _) => true
    case RequestDies(pid) => pid in s.requests
    case AttemptDies(task) => task in s.attempts
  }

  // The steps of a request.

  function Advance(s: System, pid: nat, phase: Phase): System
    requires pid in s.requests
  {
    s.(requests := s.requests[pid := s.requests[pid].(phase := phase)])
  }

  function Respond(s: System, pid: nat, reply: Reply): System
    requires pid in s.requests
  {
    s.(requests := s.requests - {pid},
       answers := s.answers + [Answer(s.requests[pid].command, reply)])
  }

  function AfterLoad(s: System, pid: nat, found: Option<OpId>): System
    requires pid in s.requests && (found.Some? ==> found.value in s.ops)
  {
    if found.Some? then Advance(s, pid, Resuming(found.value, s.ops[found.value]))
    else if s.requests[pid].phase == Arrived then Advance(s, pid, Missing)
    else Respond(s, pid, Failed(UserAlreadyExists))
  }

  function AfterCreate(s: System, pid: nat, id: OpId, op: Operation, token: Token): System
    requires pid in s.requests
  {
    if EmailTaken(s.users, op.email) || !Insertable(s.ops, id, op) then Advance(s, pid, Reloading)
    else s.(ops := s.ops[id := op],
            requests := s.requests - {pid},
            attempts := s.attempts[Task(token, id)
                                   := Attempt(op, Some(s.requests[pid].command), Calling)],
            tokens := s.tokens + {token},
            claims := s.claims[id := [token]])
  }

  /** `_resume_existing` up to the claim: the key, the password and the status are checked. */
  function AfterVerify(s: System, pid: nat): System
    requires pid in s.requests && s.requests[pid].phase.Resuming?
  {
    var Request(command, Resuming(id, op)) := s.requests[pid];
    if op.email != command.email then Respond(s, pid, Failed(KeyConflict))
    else if op.passwordHash.None? && op.userId !in s.users
      then Respond(s, pid, Failed(CompletedWithoutUser))
    else
      var hash := if op.passwordHash.Some? then op.passwordHash.value
                  else s.users[op.userId].passwordHash;
      if hash.password != command.password then Respond(s, pid, Failed(KeyConflict))
      else if op.status == Completed then Respond(s, pid, Named(id, op.userId, true))
      else if op.status == Blocked then Respond(s, pid, Failed(Unavailable))
      else Advance(s, pid, Claiming(id, op))
  }

  /** A claim by one statement, with a fresh token, of any set of eligible rows. */
  function AfterClaims(s: System, token: Token, expiresAt: Time, ids: set<OpId>,
                       origin: Option<Command>): System
    requires forall id | id in ids :: id in s.ops
  {
    var ops := AfterClaim(s.ops, ids, token, expiresAt);
    s.(ops := ops,
       attempts := map k | k in s.attempts.Keys + (set id | id in ids :: Task(token, id))
                   :: if k in s.attempts then s.attempts[k] else Attempt(ops[k.id], origin, Calling),
       tokens := s.tokens + {token},
       claims := map id | id in s.claims.Keys + ids
                 :: (if id in s.claims then s.claims[id] else [])
                    + (if id in ids then [token] else []))
  }

  function AfterClaimOne(s: System, pid: nat, target: Option<OpId>, token: Token,
                         expiresAt: Time): System
    requires pid in s.requests && s.requests[pid].phase.Claiming?
    requires target.Some? ==> target.value in s.ops
  {
    var Request(command, Claiming(id, op)) := s.requests[pid];
    if target.None? then Respond(s, pid, Named(id, op.userId, false))
    else AfterClaims(s.(requests := s.requests - {pid}), token, expiresAt, {target.value},
                     Some(command))
  }

  // The steps of an attempt.

  function Continue(s: System, task: Task, progress: Progress): System
    requires task in s.attempts
  {
    s.(attempts := s.attempts[task := s.attempts[task].(progress := progress)])
  }

  function Conclude(s: System, task: Task, reply: Reply): System
    requires task in s.attempts
  {
    var origin := s.attempts[task].origin;
    s.(attempts := s.attempts - {task},
       answers := if origin.Some? then s.answers + [Answer(origin.value, reply)] else s.answers)
  }

  /** The attempt ends with an exception of its own: nobody is answered. */
  function Vanish(s: System, task: Task): System { s.(attempts := s.attempts - {task}) }

  function Transition(s: System, task: Task, move: Move): System {
    s.(ops := AfterMove(s.ops, task.id, task.token, move),
       moves := if Owns(s.ops, task.id, task.token, move.at) then s.moves + [task] else s.moves)
  }

  function AfterProfile(s: System, task: Task, outcome: ProfileOutcome): System
    requires task in s.attempts
  {
    match outcome
    case Confirmed =>
      Continue(s.(confirmed := s.confirmed + {s.attempts[task].op.userId}), task, Finalizing)
    case Unreachable => Continue(s, task, Deferring)
    case Rejected => Continue(s, task, Blocking)
    case Broken => Continue(s, task, Blocking)
  }

  /** The finalizing transaction: completion, account and event, or nothing. */
  datatype Finalization = NoPassword | LostClaim | EmailConflict | DuplicateUser | Done

  function FinalizationOf(s: System, task: Task, now: Time): Finalization
    requires task in s.attempts
  {
    var op := s.attempts[task].op;
    if op.passwordHash.None? then NoPassword
    else if !Owns(s.ops, task.id, task.token, now) then LostClaim
    else if EmailTaken(s.users, op.email) then EmailConflict
    else if op.userId in s.users then DuplicateUser
    else Done
  }

  function Committed(s: System, task: Task, now: Time): System
    requires task in s.attempts && s.attempts[task].op.passwordHash.Some?
  {
    var op := s.attempts[task].op;
    Transition(s, task, Complete(now))
      .(users := s.users[op.userId := User(op.email, op.passwordHash.value, op.createdAt)],
        events := s.events + multiset{op.userId})
  }

  /** The transaction's effect, if it was committed. */
  function Landed(s: System, task: Task, now: Time, applied: bool): System
    requires task in s.attempts
  {
    if applied && FinalizationOf(s, task, now) == Done then Committed(s, task, now) else s
  }

  function AfterFinalize(s: System, task: Task, now: Time, report: Report): System
    requires task in s.attempts
  {
    var op := s.attempts[task].op;
    var outcome := FinalizationOf(s, task, now);
    if outcome.NoPassword? then Continue(s, task, Blocking)
    else match report
      case Unclear(applied) =>
        Continue(Landed(s, task, now, applied), task, Deferring)
      case Raised(applied) =>
        Continue(Landed(s, task, now, applied), task, Blocking)
      case Acknowledged =>
        match outcome
        case LostClaim => Conclude(s, task, Named(task.id, op.userId, false))
        case Done => Conclude(Landed(s, task, now, true), task, Named(task.id, op.userId, true))
        case _ => Continue(s, task, Blocking)
  }

  /** `heard` says whether the commit reported back; if not, the attempt ends with the error. */
  function AfterDefer(maxAttempts: int, s: System, task: Task, now: Time, retryAt: Time,
                      heard: bool): System
    requires task in s.attempts
  {
    var op := s.attempts[task].op;
    if op.attempts + 1 >= maxAttempts then Continue(s, task, Blocking)
    else
      var s1 := Transition(s, task, Retry(now, retryAt, "Deferred"));
      if heard then Conclude(s1, task, Named(task.id, op.userId, false)) else Vanish(s1, task)
  }

  function AfterGiveUp(s: System, task: Task, now: Time, heard: bool): System
    requires task in s.attempts
  {
    var s1 := Transition(s, task, Block(now, "Blocked"));
    if heard then Conclude(s1, task, Failed(Unavailable)) else Vanish(s1, task)
  }

  function Apply(maxAttempts: int, s: System, step: Step): System
    requires Enabled(s, step)
  {
    match step
    case Arrive(pid, command) => s.(requests := s.requests[pid := Request(command, Arrived)])
    case Load(pid, found) => AfterLoad(s, pid, found)
    case Create(pid, id, userId, salt, token, now, expiresAt) =>
      var c := s.requests[pid].command;
      AfterCreate(s, pid, id, Candidate(userId, c.email, PasswordHash(c.password, salt),
                                        c.keyHash, token, now, expiresAt), token)
    case Verify(pid) => AfterVerify(s, pid)
    case ClaimOne(pid, target, token, _, expiresAt) =>
      AfterClaimOne(s, pid, target, token, expiresAt)
    case ClaimMany(token, _, expiresAt, ids) => AfterClaims(s, token, expiresAt, ids, None)
    case Profile(task, outcome) => AfterProfile(s, task, outcome)
    case Finalize(task, now, report) => AfterFinalize(s, task, now, report)
    case Defer(task, now, retryAt, heard) => AfterDefer(maxAttempts, s, task, now, retryAt, heard)
    case GiveUp(task, now, heard) => AfterGiveUp(s, task, now, heard)
    case Redrive(id, now) => s.(ops := AfterRedrive(s.ops, id, now))
    case RequestDies(pid) => s.(requests := s.requests - {pid})
    case AttemptDies(task) => Vanish(s, task)
  }

  predicate ValidRun(maxAttempts: int, s: System, steps: seq<Step>)
    decreases |steps|
  {
    steps == []
    || (Enabled(s, steps[0]) && ValidRun(maxAttempts, Apply(maxAttempts, s, steps[0]), steps[1..]))
  }

  function Exec(maxAttempts: int, s: System, steps: seq<Step>): System
    requires ValidRun(maxAttempts, s, steps)
    decreases |steps|
  {
    if steps == [] then s else Exec(maxAttempts, Apply(maxAttempts, s, steps[0]), steps[1..])
  }
}
