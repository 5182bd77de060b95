/** What every run of registration keeps, and what follows from it. */
module RegistrationSafety {
  import opened Prelude
  import opened RegistrationTable
  import opened RegistrationRuns

  // The invariant, one predicate per concern.

  ghost predicate RowsSound(t: Table, maxAttempts: int) {
    forall id | id in t ::
      && t[id].Lifecycle()
      && (if t[id].Terminal() then t[id].attempts <= maxAttempts else t[id].attempts < maxAttempts)
  }

  ghost predicate AccountSound(o: Operation, users: map<UserId, User>, events: multiset<UserId>,
                               confirmed: set<UserId>)
  {
    && (o.status == Completed <==> o.userId in users)
    && events[o.userId] == (if o.status == Completed then 1 else 0)
    && (o.status == Completed ==> o.userId in confirmed && users[o.userId].email == o.email)
    && (o.status != Completed ==> !EmailTaken(users, o.email))
  }

  ghost predicate AccountsSound(t: Table, users: map<UserId, User>, events: multiset<UserId>,
                                confirmed: set<UserId>)
  {
    && (forall id | id in t :: AccountSound(t[id], users, events, confirmed))
    && (forall u | u in events :: u in users)
  }

  ghost predicate NoDuplicates<T>(xs: seq<T>) {
    forall i, j | 0 <= i < j < |xs| :: xs[i] != xs[j]
  }

  /** The claim on a row is the last one ever made. */
  ghost predicate ClaimSound(o: Operation, taken: seq<Token>, tokens: set<Token>) {
    && (forall x | x in taken :: x in tokens)
    && NoDuplicates(taken)
    && (o.claimToken.Some? ==> taken != [] && o.claimToken.value == taken[|taken| - 1])
  }

  ghost predicate ClaimsSound(t: Table, claims: map<OpId, seq<Token>>, tokens: set<Token>) {
    && claims.Keys == t.Keys
    && forall id | id in t :: ClaimSound(t[id], claims[id], tokens)
  }

  ghost predicate AttemptSound(t: Table, k: Task, a: Attempt, claims: map<OpId, seq<Token>>,
                               confirmed: set<UserId>)
  {
    && k.id in t && k.id in claims && k.token in claims[k.id]
    && a.op.SameIdentity(t[k.id]) && a.op.passwordHash.Some?
    && (a.progress == Finalizing ==> a.op.userId in confirmed)
    && (a.origin.Some? ==> a.origin.value.keyHash == a.op.keyHash)
    && (t[k.id].claimToken == Some(k.token) ==> a.op.attempts == t[k.id].attempts)
  }

  ghost predicate AttemptsSound(t: Table, attempts: map<Task, Attempt>,
                                claims: map<OpId, seq<Token>>, confirmed: set<UserId>)
  {
    forall k | k in attempts :: AttemptSound(t, k, attempts[k], claims, confirmed)
  }

  /** A claim is spent by the first move of its holder. */
  ghost predicate MovesSound(t: Table, moves: seq<Task>, claims: map<OpId, seq<Token>>) {
    && NoDuplicates(moves)
    && forall k | k in moves ::
         && k.id in t && k.id in claims && k.token in claims[k.id]
         && t[k.id].claimToken != Some(k.token)
  }

  ghost predicate RequestSound(t: Table, r: Request) {
    match r.phase
    case Resuming(id, op) => SnapshotSound(t, id, op, r.command)
    case Claiming(id, op) => SnapshotSound(t, id, op, r.command)
    case _ => true
  }

  ghost predicate SnapshotSound(t: Table, id: OpId, op: Operation, command: Command) {
    && id in t && op.SameIdentity(t[id]) && op.keyHash == command.keyHash && op.Lifecycle()
    && (op.status == Completed ==> t[id].status == Completed)
  }

  ghost predicate RequestsSound(t: Table, requests: map<nat, Request>) {
    forall pid | pid in requests :: RequestSound(t, requests[pid])
  }

  ghost predicate AnswerSound(t: Table, a: Answer) {
    match a.reply
    case Named(id, userId, completed) =>
      && id in t && t[id].keyHash == a.command.keyHash && t[id].userId == userId
      && (completed ==> t[id].status == Completed)
    case Failed(failure) => failure != CompletedWithoutUser
  }

  ghost predicate AnswersSound(t: Table, answers: seq<Answer>) {
    forall a | a in answers :: AnswerSound(t, a)
  }

  ghost predicate Inv(maxAttempts: int, s: System) {
    && Unique(s.ops)
    && RowsSound(s.ops, maxAttempts)
    && AccountsSound(s.ops, s.users, s.events, s.confirmed)
    && ClaimsSound(s.ops, s.claims, s.tokens)
    && AttemptsSound(s.ops, s.attempts, s.claims, s.confirmed)
    && MovesSound(s.ops, s.moves, s.claims)
    && RequestsSound(s.ops, s.requests)
    && AnswersSound(s.ops, s.answers)
  }

  /** No step removes an operation, changes its identity or leaves COMPLETED. */
  ghost predicate Grows(t: Table, t': Table) {
    forall id | id in t ::
      && id in t' && t'[id].SameIdentity(t[id])
      && (t[id].status == Completed ==> t'[id].status == Completed)
  }

  lemma GrowthKeepsReaders(s: System, t': Table)
    requires Grows(s.ops, t')
    requires RequestsSound(s.ops, s.requests) && AnswersSound(s.ops, s.answers)
    ensures RequestsSound(t', s.requests) && AnswersSound(t', s.answers)
  {
    forall pid | pid in s.requests
      ensures RequestSound(t', s.requests[pid])
    {
      assert RequestSound(s.ops, s.requests[pid]);
    }
    forall a | a in s.answers
      ensures AnswerSound(t', a)
    {
      assert AnswerSound(s.ops, a);
    }
  }

  // Changes to what a request or an attempt has in hand.

  lemma AdvanceKeepsInv(maxAttempts: int, s: System, pid: nat, phase: Phase)
    requires Inv(maxAttempts, s) && pid in s.requests
    requires RequestSound(s.ops, s.requests[pid].(phase := phase))
    ensures Inv(maxAttempts, Advance(s, pid, phase))
  {
    var requests := Advance(s, pid, phase).requests;
    forall q | q in requests
      ensures RequestSound(s.ops, requests[q])
    {
      assert q in s.requests;
    }
  }

  lemma RespondKeepsInv(maxAttempts: int, s: System, pid: nat, reply: Reply)
    requires Inv(maxAttempts, s) && pid in s.requests
    requires AnswerSound(s.ops, Answer(s.requests[pid].command, reply))
    ensures Inv(maxAttempts, Respond(s, pid, reply))
  {
    var s' := Respond(s, pid, reply);
    assert RequestsSound(s'.ops, s'.requests);
    assert AnswersSound(s'.ops, s'.answers);
  }

  lemma ContinueKeepsInv(maxAttempts: int, s: System, task: Task, progress: Progress)
    requires Inv(maxAttempts, s) && task in s.attempts
    requires progress == Finalizing ==> s.attempts[task].op.userId in s.confirmed
    ensures Inv(maxAttempts, Continue(s, task, progress))
  {
    var attempts := Continue(s, task, progress).attempts;
    forall k | k in attempts
      ensures AttemptSound(s.ops, k, attempts[k], s.claims, s.confirmed)
    {
      assert AttemptSound(s.ops, k, s.attempts[k], s.claims, s.confirmed);
    }
  }

  lemma ConcludeKeepsInv(maxAttempts: int, s: System, task: Task, reply: Reply)
    requires Inv(maxAttempts, s) && task in s.attempts
    requires s.attempts[task].origin.Some?
             ==> AnswerSound(s.ops, Answer(s.attempts[task].origin.value, reply))
    ensures Inv(maxAttempts, Conclude(s, task, reply))
  {
    var s' := Conclude(s, task, reply);
    assert AttemptsSound(s'.ops, s'.attempts, s'.claims, s'.confirmed);
    assert AnswersSound(s'.ops, s'.answers);
  }

  /** An attempt may name its operation to whoever waits for it. */
  lemma HolderMayName(s: System, task: Task, completed: bool)
    requires AttemptsSound(s.ops, s.attempts, s.claims, s.confirmed) && task in s.attempts
    requires completed ==> task.id in s.ops && s.ops[task.id].status == Completed
    ensures s.attempts[task].origin.Some?
            ==> AnswerSound(s.ops, Answer(s.attempts[task].origin.value,
                                          Named(task.id, s.attempts[task].op.userId, completed)))
  {
    assert AttemptSound(s.ops, task, s.attempts[task], s.claims, s.confirmed);
  }

  // Changes to one row.

  lemma RowKeepsAccounts(t: Table, users: map<UserId, User>, events: multiset<UserId>,
                         confirmed: set<UserId>, id: OpId, o: Operation)
    requires AccountsSound(t, users, events, confirmed)
    requires id in t && o.SameIdentity(t[id])
    requires o.status == Completed <==> t[id].status == Completed
    ensures AccountsSound(t[id := o], users, events, confirmed)
  {
    assert AccountSound(t[id], users, events, confirmed);
  }

  lemma RowKeepsClaims(t: Table, claims: map<OpId, seq<Token>>, tokens: set<Token>, id: OpId,
                       o: Operation)
    requires ClaimsSound(t, claims, tokens) && id in t && o.claimToken.None?
    ensures ClaimsSound(t[id := o], claims, tokens)
  {
    assert ClaimSound(t[id], claims[id], tokens);
  }

  lemma RowKeepsAttempts(t: Table, attempts: map<Task, Attempt>, claims: map<OpId, seq<Token>>,
                         confirmed: set<UserId>, id: OpId, o: Operation)
    requires AttemptsSound(t, attempts, claims, confirmed)
    requires id in t && o.SameIdentity(t[id]) && o.claimToken.None?
    ensures AttemptsSound(t[id := o], attempts, claims, confirmed)
  {
    forall k | k in attempts
      ensures AttemptSound(t[id := o], k, attempts[k], claims, confirmed)
    {
      assert AttemptSound(t, k, attempts[k], claims, confirmed);
    }
  }

  lemma RowKeepsTable(t: Table, maxAttempts: int, id: OpId, o: Operation)
    requires Unique(t) && RowsSound(t, maxAttempts) && id in t
    requires o.SameIdentity(t[id]) && o.Lifecycle()
    requires if o.Terminal() then o.attempts <= maxAttempts else o.attempts < maxAttempts
    ensures Unique(t[id := o]) && RowsSound(t[id := o], maxAttempts)
  {
    var t' := t[id := o];
    forall a, b | a in t' && b in t' && a != b
      ensures !Clash(t'[a], t'[b])
    {
      assert !Clash(t[a], t[b]);
    }
  }

  lemma RowKeepsMoves(t: Table, moves: seq<Task>, claims: map<OpId, seq<Token>>, id: OpId,
                      o: Operation)
    requires MovesSound(t, moves, claims) && id in t && o.claimToken.None?
    ensures MovesSound(t[id := o], moves, claims)
  {
  }

  /** Freeing a row of its claim, without entering or leaving COMPLETED. */
  lemma FreeRowKeepsInv(maxAttempts: int, s: System, id: OpId, o: Operation)
    requires Inv(maxAttempts, s) && id in s.ops
    requires o.SameIdentity(s.ops[id]) && o.Lifecycle() && o.claimToken.None?
    requires if o.Terminal() then o.attempts <= maxAttempts else o.attempts < maxAttempts
    requires o.status == Completed <==> s.ops[id].status == Completed
    ensures Inv(maxAttempts, s.(ops := s.ops[id := o]))
  {
    var t := s.ops[id := o];
    RowKeepsAccounts(s.ops, s.users, s.events, s.confirmed, id, o);
    RowKeepsClaims(s.ops, s.claims, s.tokens, id, o);
    RowKeepsAttempts(s.ops, s.attempts, s.claims, s.confirmed, id, o);
    GrowthKeepsReaders(s, t);
    RowKeepsTable(s.ops, maxAttempts, id, o);
    RowKeepsMoves(s.ops, s.moves, s.claims, id, o);
  }

  lemma MoveKeepsMoves(t: Table, moves: seq<Task>, claims: map<OpId, seq<Token>>, task: Task,
                       o: Operation)
    requires MovesSound(t, moves, claims) && task.id in t && task.id in claims
    requires t[task.id].claimToken == Some(task.token) && task.token in claims[task.id]
    requires o.claimToken.None?
    ensures MovesSound(t[task.id := o], moves + [task], claims)
  {
  }

  /** A retry or a block by the holder of a live claim. */
  lemma MoveKeepsInv(maxAttempts: int, s: System, task: Task, move: Move)
    requires Inv(maxAttempts, s) && task in s.attempts && !move.Complete?
    requires move.Retry? ==> s.attempts[task].op.attempts + 1 < maxAttempts
    ensures Inv(maxAttempts, Transition(s, task, move))
  {
    if Owns(s.ops, task.id, task.token, move.at) {
      var o := Moved(s.ops[task.id], move);
      assert AttemptSound(s.ops, task, s.attempts[task], s.claims, s.confirmed);
      FreeRowKeepsInv(maxAttempts, s, task.id, o);
      MoveKeepsMoves(s.ops, s.moves, s.claims, task, o);
      assert Transition(s, task, move) == s.(ops := s.ops[task.id := o], moves := s.moves + [task]);
    } else {
      assert Transition(s, task, move) == s;
    }
  }

  // Claims.

  lemma ClaimsKeepTable(maxAttempts: int, t: Table, now: Time, token: Token, expiresAt: Time,
                        ids: set<OpId>)
    requires RowsSound(t, maxAttempts)
    requires forall id | id in ids :: id in t && Eligible(t[id], now)
    ensures var t' := AfterClaim(t, ids, token, expiresAt);
            RowsSound(t', maxAttempts) && Grows(t, t')
  {
  }

  lemma ClaimsKeepUnique(t: Table, token: Token, expiresAt: Time, ids: set<OpId>)
    requires Unique(t)
    ensures Unique(AfterClaim(t, ids, token, expiresAt))
  {
    var t' := AfterClaim(t, ids, token, expiresAt);
    forall a, b | a in t' && b in t' && a != b
      ensures !Clash(t'[a], t'[b])
    {
      assert !Clash(t[a], t[b]);
    }
  }

  lemma ClaimsKeepAccounts(s: System, now: Time, token: Token, expiresAt: Time, ids: set<OpId>)
    requires AccountsSound(s.ops, s.users, s.events, s.confirmed)
    requires forall id | id in ids :: id in s.ops && Eligible(s.ops[id], now)
    ensures AccountsSound(AfterClaim(s.ops, ids, token, expiresAt), s.users, s.events, s.confirmed)
  {
    var t := AfterClaim(s.ops, ids, token, expiresAt);
    forall id | id in t
      ensures AccountSound(t[id], s.users, s.events, s.confirmed)
    {
      assert AccountSound(s.ops[id], s.users, s.events, s.confirmed);
    }
  }

  lemma ClaimsKeepClaims(s: System, token: Token, expiresAt: Time, ids: set<OpId>,
                         origin: Option<Command>)
    requires ClaimsSound(s.ops, s.claims, s.tokens) && token !in s.tokens
    requires forall id | id in ids :: id in s.ops
    ensures var s' := AfterClaims(s, token, expiresAt, ids, origin);
            ClaimsSound(s'.ops, s'.claims, s'.tokens)
  {
    var s' := AfterClaims(s, token, expiresAt, ids, origin);
    forall id | id in s'.ops
      ensures ClaimSound(s'.ops[id], s'.claims[id], s'.tokens)
    {
      assert ClaimSound(s.ops[id], s.claims[id], s.tokens);
      if id in ids {
        assert s'.claims[id] == s.claims[id] + [token];
      } else {
        assert s'.claims[id] == s.claims[id];
      }
    }
  }

  lemma ClaimsKeepAttempts(maxAttempts: int, s: System, now: Time, token: Token, expiresAt: Time,
                           ids: set<OpId>, origin: Option<Command>)
    requires RowsSound(s.ops, maxAttempts) && ClaimsSound(s.ops, s.claims, s.tokens)
    requires AttemptsSound(s.ops, s.attempts, s.claims, s.confirmed) && token !in s.tokens
    requires forall id | id in ids :: id in s.ops && Eligible(s.ops[id], now)
    requires origin.Some? ==> forall id | id in ids :: s.ops[id].keyHash == origin.value.keyHash
    ensures var s' := AfterClaims(s, token, expiresAt, ids, origin);
            AttemptsSound(s'.ops, s'.attempts, s'.claims, s'.confirmed)
  {
    var s' := AfterClaims(s, token, expiresAt, ids, origin);
    forall k | k in s'.attempts
      ensures AttemptSound(s'.ops, k, s'.attempts[k], s'.claims, s'.confirmed)
    {
      if k in s.attempts {
        assert AttemptSound(s.ops, k, s.attempts[k], s.claims, s.confirmed);
        assert ClaimSound(s.ops[k.id], s.claims[k.id], s.tokens);
      }
    }
  }

  lemma ClaimsKeepMoves(s: System, token: Token, expiresAt: Time, ids: set<OpId>,
                        origin: Option<Command>)
    requires ClaimsSound(s.ops, s.claims, s.tokens) && MovesSound(s.ops, s.moves, s.claims)
    requires token !in s.tokens && forall id | id in ids :: id in s.ops
    ensures var s' := AfterClaims(s, token, expiresAt, ids, origin);
            MovesSound(s'.ops, s'.moves, s'.claims)
  {
    var s' := AfterClaims(s, token, expiresAt, ids, origin);
    forall k | k in s.moves
      ensures k.id in s'.ops && k.token in s'.claims[k.id]
      ensures s'.ops[k.id].claimToken != Some(k.token)
    {
      assert ClaimSound(s.ops[k.id], s.claims[k.id], s.tokens);
    }
  }

  lemma ClaimsKeepInv(maxAttempts: int, s: System, now: Time, token: Token, expiresAt: Time,
                      ids: set<OpId>, origin: Option<Command>)
    requires Inv(maxAttempts, s) && token !in s.tokens
    requires forall id | id in ids :: id in s.ops && Eligible(s.ops[id], now)
    requires origin.Some? ==> forall id | id in ids :: s.ops[id].keyHash == origin.value.keyHash
    ensures Inv(maxAttempts, AfterClaims(s, token, expiresAt, ids, origin))
  {
    ClaimsKeepUnique(s.ops, token, expiresAt, ids);
    ClaimsKeepTable(maxAttempts, s.ops, now, token, expiresAt, ids);
    ClaimsKeepAccounts(s, now, token, expiresAt, ids);
    ClaimsKeepClaims(s, token, expiresAt, ids, origin);
    ClaimsKeepAttempts(maxAttempts, s, now, token, expiresAt, ids, origin);
    ClaimsKeepMoves(s, token, expiresAt, ids, origin);
    GrowthKeepsReaders(s, AfterClaims(s, token, expiresAt, ids, origin).ops);
  }

  // Creation.

  lemma CreateKeepsClaims(t: Table, claims: map<OpId, seq<Token>>, tokens: set<Token>, id: OpId,
                          op: Operation, token: Token)
    requires ClaimsSound(t, claims, tokens) && id !in t && op.claimToken == Some(token)
    ensures ClaimsSound(t[id := op], claims[id := [token]], tokens + {token})
  {
    forall x | x in t
      ensures ClaimSound(t[x], claims[x], tokens + {token})
    {
      assert ClaimSound(t[x], claims[x], tokens);
    }
  }

  lemma CreateKeepsAttempts(s: System, id: OpId, task: Task, a: Attempt)
    requires AttemptsSound(s.ops, s.attempts, s.claims, s.confirmed) && id !in s.ops
    requires task.id == id && a.progress == Calling && a.op.passwordHash.Some?
    requires a.origin.Some? ==> a.origin.value.keyHash == a.op.keyHash
    ensures AttemptsSound(s.ops[id := a.op], s.attempts[task := a], s.claims[id := [task.token]],
                          s.confirmed)
  {
    forall k | k in s.attempts && k != task
      ensures AttemptSound(s.ops[id := a.op], k, s.attempts[k], s.claims[id := [task.token]],
                           s.confirmed)
    {
      assert AttemptSound(s.ops, k, s.attempts[k], s.claims, s.confirmed);
    }
  }

  lemma CreateKeepsAccounts(s: System, id: OpId, op: Operation)
    requires AccountsSound(s.ops, s.users, s.events, s.confirmed)
    requires id !in s.ops && op.status == Claimed
    requires op.userId !in s.users && !EmailTaken(s.users, op.email)
    ensures AccountsSound(s.ops[id := op], s.users, s.events, s.confirmed)
  {
    assert AccountSound(op, s.users, s.events, s.confirmed);
  }

  lemma CreateKeepsTable(maxAttempts: int, t: Table, id: OpId, op: Operation)
    requires 0 < maxAttempts && Unique(t) && RowsSound(t, maxAttempts) && Insertable(t, id, op)
    requires op.Lifecycle() && op.status == Claimed && op.attempts == 0
    ensures Unique(t[id := op]) && RowsSound(t[id := op], maxAttempts) && Grows(t, t[id := op])
  {
  }

  lemma CreateKeepsMoves(t: Table, moves: seq<Task>, claims: map<OpId, seq<Token>>, id: OpId,
                         op: Operation, token: Token)
    requires MovesSound(t, moves, claims) && id !in t
    ensures MovesSound(t[id := op], moves, claims[id := [token]])
  {
  }

  lemma LeaveKeepsRequests(t: Table, requests: map<nat, Request>, pid: nat)
    requires RequestsSound(t, requests)
    ensures RequestsSound(t, requests - {pid})
  {
  }

  lemma CreateKeepsInv(maxAttempts: int, s: System, step: Step)
    requires 0 < maxAttempts && Inv(maxAttempts, s) && step.Create? && Enabled(s, step)
    ensures Inv(maxAttempts, Apply(maxAttempts, s, step))
  {
    var c := s.requests[step.pid].command;
    var op := Candidate(step.userId, c.email, PasswordHash(c.password, step.salt), c.keyHash,
                        step.token, step.now, step.expiresAt);
    if EmailTaken(s.users, op.email) || !Insertable(s.ops, step.id, op) {
      AdvanceKeepsInv(maxAttempts, s, step.pid, Reloading);
    } else {
      var s' := AfterCreate(s, step.pid, step.id, op, step.token);
      CreateKeepsTable(maxAttempts, s.ops, step.id, op);
      CreateKeepsMoves(s.ops, s.moves, s.claims, step.id, op, step.token);
      CreateKeepsClaims(s.ops, s.claims, s.tokens, step.id, op, step.token);
      CreateKeepsAttempts(s, step.id, Task(step.token, step.id), Attempt(op, Some(c), Calling));
      CreateKeepsAccounts(s, step.id, op);
      GrowthKeepsReaders(s, s'.ops);
      LeaveKeepsRequests(s'.ops, s.requests, step.pid);
    }
  }

  // Finalization.

  lemma CommitKeepsAccounts(s: System, id: OpId, o: Operation, user: User)
    requires AccountsSound(s.ops, s.users, s.events, s.confirmed) && Unique(s.ops)
    requires id in s.ops && s.ops[id].status != Completed
    requires o.SameIdentity(s.ops[id]) && o.status == Completed
    requires user.email == o.email && o.userId in s.confirmed
    ensures AccountsSound(s.ops[id := o], s.users[o.userId := user],
                          s.events + multiset{o.userId}, s.confirmed)
  {
    var users, events := s.users[o.userId := user], s.events + multiset{o.userId};
    assert AccountSound(s.ops[id], s.users, s.events, s.confirmed);
    forall x | x in s.ops && x != id
      ensures AccountSound(s.ops[x], users, events, s.confirmed)
    {
      assert AccountSound(s.ops[x], s.users, s.events, s.confirmed);
      assert !Clash(s.ops[x], s.ops[id]);
    }
  }

  lemma CommitKeepsInv(maxAttempts: int, s: System, task: Task, now: Time)
    requires Inv(maxAttempts, s) && task in s.attempts
    requires s.attempts[task].progress == Finalizing
    requires FinalizationOf(s, task, now) == Done
    ensures Inv(maxAttempts, Committed(s, task, now))
    ensures Committed(s, task, now).ops[task.id].status == Completed
  {
    var op, o := s.attempts[task].op, Moved(s.ops[task.id], Complete(now));
    var t := s.ops[task.id := o];
    assert AttemptSound(s.ops, task, s.attempts[task], s.claims, s.confirmed);
    CommitKeepsAccounts(s, task.id, o, User(op.email, op.passwordHash.value, op.createdAt));
    RowKeepsClaims(s.ops, s.claims, s.tokens, task.id, o);
    RowKeepsAttempts(s.ops, s.attempts, s.claims, s.confirmed, task.id, o);
    MoveKeepsMoves(s.ops, s.moves, s.claims, task, o);
    GrowthKeepsReaders(s, t);
    RowKeepsTable(s.ops, maxAttempts, task.id, o);
    assert Committed(s, task, now).ops == t;
  }

  /** The account exists exactly when the operation is done, so finalization meets no conflict. */
  lemma FinalizationMeetsNoConflict(maxAttempts: int, s: System, task: Task, now: Time)
    requires Inv(maxAttempts, s) && task in s.attempts
    ensures FinalizationOf(s, task, now) == LostClaim || FinalizationOf(s, task, now) == Done
  {
    assert AttemptSound(s.ops, task, s.attempts[task], s.claims, s.confirmed);
    assert AccountSound(s.ops[task.id], s.users, s.events, s.confirmed);
  }

  /** Committed or not, the state is sound and the attempt is where it was. */
  lemma LandedKeepsInv(maxAttempts: int, s: System, task: Task, now: Time, applied: bool)
    requires Inv(maxAttempts, s) && task in s.attempts
    requires s.attempts[task].progress == Finalizing
    ensures var s1 := Landed(s, task, now, applied);
            && Inv(maxAttempts, s1) && s1.attempts == s.attempts
            && (applied && FinalizationOf(s, task, now) == Done ==>
                  task.id in s1.ops && s1.ops[task.id].status == Completed)
  {
    if applied && FinalizationOf(s, task, now) == Done {
      CommitKeepsInv(maxAttempts, s, task, now);
    }
  }

  lemma AnsweredKeepsInv(maxAttempts: int, s: System, task: Task, completed: bool)
    requires Inv(maxAttempts, s) && task in s.attempts
    requires completed ==> task.id in s.ops && s.ops[task.id].status == Completed
    ensures Inv(maxAttempts, Conclude(s, task, Named(task.id, s.attempts[task].op.userId, completed)))
  {
    HolderMayName(s, task, completed);
    ConcludeKeepsInv(maxAttempts, s, task, Named(task.id, s.attempts[task].op.userId, completed));
  }

  lemma VanishKeepsInv(maxAttempts: int, s: System, task: Task)
    requires Inv(maxAttempts, s)
    ensures Inv(maxAttempts, Vanish(s, task))
  {
    assert AttemptsSound(s.ops, s.attempts - {task}, s.claims, s.confirmed);
  }

  lemma AnswerShape(s: System, task: Task, now: Time)
    requires task in s.attempts
    requires FinalizationOf(s, task, now) == LostClaim || FinalizationOf(s, task, now) == Done
    ensures AfterFinalize(s, task, now, Acknowledged)
            == Conclude(Landed(s, task, now, true), task,
                        Named(task.id, s.attempts[task].op.userId, FinalizationOf(s, task, now) == Done))
  {
  }

  lemma FinalizeAnswers(maxAttempts: int, s: System, task: Task, now: Time)
    requires Inv(maxAttempts, s) && task in s.attempts
    requires s.attempts[task].progress == Finalizing
    ensures Inv(maxAttempts, AfterFinalize(s, task, now, Acknowledged))
  {
    FinalizationMeetsNoConflict(maxAttempts, s, task, now);
    AnswerShape(s, task, now);
    LandedKeepsInv(maxAttempts, s, task, now, true);
    AnsweredKeepsInv(maxAttempts, Landed(s, task, now, true), task,
                     FinalizationOf(s, task, now) == Done);
  }

  function AfterError(s: System, task: Task, report: Report): Progress
    requires task in s.attempts
  {
    if report.Unclear? && s.attempts[task].op.passwordHash.Some? then Deferring else Blocking
  }

  lemma ErrorShape(s: System, task: Task, now: Time, report: Report)
    requires task in s.attempts && !report.Acknowledged?
    ensures task in Landed(s, task, now, report.applied).attempts
    ensures AfterFinalize(s, task, now, report)
            == Continue(Landed(s, task, now, report.applied), task, AfterError(s, task, report))
  {
  }

  lemma FinalizeErrs(maxAttempts: int, s: System, task: Task, now: Time, report: Report)
    requires Inv(maxAttempts, s) && task in s.attempts && !report.Acknowledged?
    requires s.attempts[task].progress == Finalizing
    ensures Inv(maxAttempts, AfterFinalize(s, task, now, report))
  {
    ErrorShape(s, task, now, report);
    LandedKeepsInv(maxAttempts, s, task, now, report.applied);
    ContinueKeepsInv(maxAttempts, Landed(s, task, now, report.applied), task,
                     AfterError(s, task, report));
  }

  lemma FinalizeKeepsInv(maxAttempts: int, s: System, task: Task, now: Time, report: Report)
    requires Inv(maxAttempts, s) && task in s.attempts
    requires s.attempts[task].progress == Finalizing
    ensures Inv(maxAttempts, AfterFinalize(s, task, now, report))
  {
    if report.Acknowledged? {
      FinalizeAnswers(maxAttempts, s, task, now);
    } else {
      FinalizeErrs(maxAttempts, s, task, now, report);
    }
  }

  // The remaining steps.

  lemma LoadKeepsInv(maxAttempts: int, s: System, step: Step)
    requires 0 < maxAttempts && Inv(maxAttempts, s) && step.Load? && Enabled(s, step)
    ensures Inv(maxAttempts, Apply(maxAttempts, s, step))
  {
    if step.found.Some? {
      AdvanceKeepsInv(maxAttempts, s, step.pid, Resuming(step.found.value, s.ops[step.found.value]));
    } else if s.requests[step.pid].phase == Arrived {
      AdvanceKeepsInv(maxAttempts, s, step.pid, Missing);
    } else {
      RespondKeepsInv(maxAttempts, s, step.pid, Failed(UserAlreadyExists));
    }
  }

  /** The check ends the request with an allowed answer, or goes on with the snapshot it has. */
  lemma VerifyOutcomes(s: System, pid: nat) returns (reply: Option<Reply>)
    requires pid in s.requests && s.requests[pid].phase.Resuming?
    requires RequestSound(s.ops, s.requests[pid])
    requires AccountsSound(s.ops, s.users, s.events, s.confirmed)
    ensures var p := s.requests[pid].phase;
            AfterVerify(s, pid) == if reply.Some? then Respond(s, pid, reply.value)
                                   else Advance(s, pid, Claiming(p.id, p.op))
    ensures reply.Some? ==> AnswerSound(s.ops, Answer(s.requests[pid].command, reply.value))
  {
    var Request(command, Resuming(id, op)) := s.requests[pid];
    assert AccountSound(s.ops[id], s.users, s.events, s.confirmed);
    var hash := if op.passwordHash.Some? then op.passwordHash.value
                else s.users[op.userId].passwordHash;
    if op.email != command.email || hash.password != command.password {
      reply := Some(Failed(KeyConflict));
    } else if op.status == Completed {
      reply := Some(Named(id, op.userId, true));
    } else if op.status == Blocked {
      reply := Some(Failed(Unavailable));
    } else {
      reply := None;
    }
  }

  lemma VerifyKeepsInv(maxAttempts: int, s: System, step: Step)
    requires 0 < maxAttempts && Inv(maxAttempts, s) && step.Verify? && Enabled(s, step)
    ensures Inv(maxAttempts, Apply(maxAttempts, s, step))
  {
    var p := s.requests[step.pid].phase;
    assert RequestSound(s.ops, s.requests[step.pid]);
    var reply := VerifyOutcomes(s, step.pid);
    if reply.Some? {
      RespondKeepsInv(maxAttempts, s, step.pid, reply.value);
    } else {
      AdvanceKeepsInv(maxAttempts, s, step.pid, Claiming(p.id, p.op));
    }
  }

  lemma ClaimOneKeepsInv(maxAttempts: int, s: System, step: Step)
    requires 0 < maxAttempts && Inv(maxAttempts, s) && step.ClaimOne? && Enabled(s, step)
    ensures Inv(maxAttempts, Apply(maxAttempts, s, step))
  {
    var Request(command, Claiming(id, op)) := s.requests[step.pid];
    assert RequestSound(s.ops, s.requests[step.pid]);
    if step.target.None? {
      RespondKeepsInv(maxAttempts, s, step.pid, Named(id, op.userId, false));
    } else {
      var s1 := s.(requests := s.requests - {step.pid});
      assert RequestsSound(s1.ops, s1.requests);
      ClaimsKeepInv(maxAttempts, s1, step.now, step.token, step.expiresAt, {step.target.value},
                    Some(command));
    }
  }

  lemma ConfirmKeepsInv(maxAttempts: int, s: System, userId: UserId)
    requires Inv(maxAttempts, s)
    ensures Inv(maxAttempts, s.(confirmed := s.confirmed + {userId}))
  {
    var confirmed := s.confirmed + {userId};
    assert AccountsSound(s.ops, s.users, s.events, confirmed) by {
      assert forall id | id in s.ops :: AccountSound(s.ops[id], s.users, s.events, s.confirmed);
    }
    assert AttemptsSound(s.ops, s.attempts, s.claims, confirmed) by {
      assert forall k | k in s.attempts ::
          AttemptSound(s.ops, k, s.attempts[k], s.claims, s.confirmed);
    }
  }

  lemma ProfileKeepsInv(maxAttempts: int, s: System, task: Task, outcome: ProfileOutcome)
    requires Inv(maxAttempts, s) && task in s.attempts
    ensures Inv(maxAttempts, AfterProfile(s, task, outcome))
  {
    match outcome
    case Confirmed =>
      var userId := s.attempts[task].op.userId;
      ConfirmKeepsInv(maxAttempts, s, userId);
      ContinueKeepsInv(maxAttempts, s.(confirmed := s.confirmed + {userId}), task, Finalizing);
    case Unreachable => ContinueKeepsInv(maxAttempts, s, task, Deferring);
    case Rejected => ContinueKeepsInv(maxAttempts, s, task, Blocking);
    case Broken => ContinueKeepsInv(maxAttempts, s, task, Blocking);
  }

  lemma RetryKeepsInv(maxAttempts: int, s: System, task: Task, move: Move, heard: bool)
    requires Inv(maxAttempts, s) && task in s.attempts && move.Retry?
    requires s.attempts[task].op.attempts + 1 < maxAttempts
    ensures var s1 := Transition(s, task, move);
            Inv(maxAttempts, if heard then Conclude(s1, task, Named(task.id, s.attempts[task].op.userId,
                                                                    false))
                             else Vanish(s1, task))
  {
    MoveKeepsInv(maxAttempts, s, task, move);
    var s1 := Transition(s, task, move);
    if heard {
      AnsweredKeepsInv(maxAttempts, s1, task, false);
    } else {
      VanishKeepsInv(maxAttempts, s1, task);
    }
  }

  lemma DeferKeepsInv(maxAttempts: int, s: System, task: Task, now: Time, retryAt: Time, heard: bool)
    requires Inv(maxAttempts, s) && task in s.attempts
    ensures Inv(maxAttempts, AfterDefer(maxAttempts, s, task, now, retryAt, heard))
  {
    if s.attempts[task].op.attempts + 1 >= maxAttempts {
      ContinueKeepsInv(maxAttempts, s, task, Blocking);
    } else {
      RetryKeepsInv(maxAttempts, s, task, Retry(now, retryAt, "Deferred"), heard);
    }
  }

  lemma GiveUpKeepsInv(maxAttempts: int, s: System, task: Task, now: Time, heard: bool)
    requires Inv(maxAttempts, s) && task in s.attempts
    ensures Inv(maxAttempts, AfterGiveUp(s, task, now, heard))
  {
    var move := Block(now, "Blocked");
    MoveKeepsInv(maxAttempts, s, task, move);
    var s1 := Transition(s, task, move);
    if heard {
      ConcludeKeepsInv(maxAttempts, s1, task, Failed(Unavailable));
    } else {
      VanishKeepsInv(maxAttempts, s1, task);
    }
  }

  lemma RedriveKeepsInv(maxAttempts: int, s: System, step: Step)
    requires 0 < maxAttempts && Inv(maxAttempts, s) && step.Redrive? && Enabled(s, step)
    ensures Inv(maxAttempts, Apply(maxAttempts, s, step))
  {
    if step.id in s.ops && s.ops[step.id].status == Blocked {
      FreeRowKeepsInv(maxAttempts, s, step.id, RedriveOperation(s.ops[step.id], step.now));
    }
  }

  lemma StepKeepsInv(maxAttempts: int, s: System, step: Step)
    requires 0 < maxAttempts && Inv(maxAttempts, s) && Enabled(s, step)
    ensures Inv(maxAttempts, Apply(maxAttempts, s, step))
  {
    match step
    case Arrive(_, _) => assert RequestsSound(s.ops, Apply(maxAttempts, s, step).requests);
    case Load(_, _) => LoadKeepsInv(maxAttempts, s, step);
    case Create(_, _, _, _, _, _, _) => CreateKeepsInv(maxAttempts, s, step);
    case Verify(_) => VerifyKeepsInv(maxAttempts, s, step);
    case ClaimOne(_, _, _, _, _) => ClaimOneKeepsInv(maxAttempts, s, step);
    case ClaimMany(token, now, expiresAt, ids) =>
      ClaimsKeepInv(maxAttempts, s, now, token, expiresAt, ids, None);
    case Profile(task, outcome) => ProfileKeepsInv(maxAttempts, s, task, outcome);
    case Finalize(task, now, report) => FinalizeKeepsInv(maxAttempts, s, task, now, report);
    case Defer(task, now, retryAt, heard) =>
      DeferKeepsInv(maxAttempts, s, task, now, retryAt, heard);
    case GiveUp(task, now, heard) => GiveUpKeepsInv(maxAttempts, s, task, now, heard);
    case Redrive(_, _) => RedriveKeepsInv(maxAttempts, s, step);
    case RequestDies(_) => assert RequestsSound(s.ops, Apply(maxAttempts, s, step).requests);
    case AttemptDies(task) => VanishKeepsInv(maxAttempts, s, task);
  }

  lemma {:induction false} RunKeepsInv(maxAttempts: int, s: System, steps: seq<Step>)
    requires 0 < maxAttempts && Inv(maxAttempts, s) && ValidRun(maxAttempts, s, steps)
    ensures Inv(maxAttempts, Exec(maxAttempts, s, steps))
    decreases |steps|
  {
    if steps != [] {
      StepKeepsInv(maxAttempts, s, steps[0]);
      RunKeepsInv(maxAttempts, Apply(maxAttempts, s, steps[0]), steps[1..]);
    }
  }

  /** A state some run reaches from a database that holds only earlier accounts. */
  ghost predicate Reachable(maxAttempts: int, s: System) {
    exists s0, steps ::
      Initial(s0) && ValidRun(maxAttempts, s0, steps) && Exec(maxAttempts, s0, steps) == s
  }

  lemma ReachableInv(maxAttempts: int, s: System)
    requires 0 < maxAttempts && Reachable(maxAttempts, s)
    ensures Inv(maxAttempts, s)
  {
    var s0, steps :|
      Initial(s0) && ValidRun(maxAttempts, s0, steps) && Exec(maxAttempts, s0, steps) == s;
    RunKeepsInv(maxAttempts, s0, steps);
  }

  // What follows.

  /**
   * An operation is COMPLETED exactly when its reserved account exists, and then
   * exactly one registered event was ever inserted for it, and otherwise none.
   */
  lemma CompletionIsAtomic(maxAttempts: int, s: System, id: OpId)
    requires 0 < maxAttempts && Reachable(maxAttempts, s) && id in s.ops
    ensures s.ops[id].status == Completed <==> s.ops[id].userId in s.users
    ensures s.events[s.ops[id].userId] == if s.ops[id].status == Completed then 1 else 0
    ensures s.ops[id].status == Completed ==> s.users[s.ops[id].userId].email == s.ops[id].email
  {
    ReachableInv(maxAttempts, s);
    assert AccountSound(s.ops[id], s.users, s.events, s.confirmed);
  }

  // Which steps touch the operations table, and how.

  /** No operation or user is lost, and at most the one named becomes COMPLETED. */
  ghost predicate Growth(s: System, s': System, completed: Option<OpId>) {
    && Grows(s.ops, s'.ops) && s.users.Keys <= s'.users.Keys
    && forall id | id in s.ops && s.ops[id].status != Completed && completed != Some(id) ::
         s'.ops[id].status != Completed
  }

  lemma SameTablesGrow(s: System, s': System)
    requires s'.ops == s.ops && s'.users == s.users
    ensures Growth(s, s', None)
  {
  }

  lemma LoadIsQuiet(s: System, pid: nat, found: Option<OpId>)
    requires pid in s.requests && (found.Some? ==> found.value in s.ops)
    ensures Growth(s, AfterLoad(s, pid, found), None)
  {
    var s' := AfterLoad(s, pid, found);
    assert s'.ops == s.ops && s'.users == s.users;
  }

  lemma VerifyIsQuiet(s: System, pid: nat)
    requires pid in s.requests && s.requests[pid].phase.Resuming?
    ensures Growth(s, AfterVerify(s, pid), None)
  {
    var s' := AfterVerify(s, pid);
    assert s'.ops == s.ops && s'.users == s.users;
  }

  lemma ProfileIsQuiet(s: System, task: Task, outcome: ProfileOutcome)
    requires task in s.attempts
    ensures Growth(s, AfterProfile(s, task, outcome), None)
  {
    var s' := AfterProfile(s, task, outcome);
    assert s'.ops == s.ops && s'.users == s.users;
  }

  lemma RedriveGrows(s: System, id: OpId, at: Time)
    ensures Growth(s, s.(ops := AfterRedrive(s.ops, id, at)), None)
  {
  }

  lemma CreateGrows(s: System, pid: nat, id: OpId, op: Operation, token: Token)
    requires pid in s.requests && op.status != Completed
    ensures Growth(s, AfterCreate(s, pid, id, op, token), None)
  {
  }

  lemma ClaimsGrow(t: Table, token: Token, expiresAt: Time, ids: set<OpId>)
    requires forall id | id in ids :: id in t && !t[id].Terminal()
    ensures var t' := AfterClaim(t, ids, token, expiresAt);
            && Grows(t, t')
            && forall x | x in t :: t'[x].status == t[x].status || t'[x].status == Claimed
  {
  }

  lemma ClaimOneGrows(s: System, pid: nat, target: Option<OpId>, token: Token, expiresAt: Time)
    requires pid in s.requests && s.requests[pid].phase.Claiming?
    requires target.Some? ==> target.value in s.ops && !s.ops[target.value].Terminal()
    ensures Growth(s, AfterClaimOne(s, pid, target, token, expiresAt), None)
  {
    if target.Some? {
      ClaimsGrow(s.ops, token, expiresAt, {target.value});
    }
  }

  lemma MoveGrows(s: System, task: Task, move: Move)
    ensures Growth(s, Transition(s, task, move), if move.Complete? then Some(task.id) else None)
  {
  }

  lemma LandedGrows(s: System, task: Task, now: Time, applied: bool)
    requires task in s.attempts
    ensures Growth(s, Landed(s, task, now, applied), Some(task.id))
  {
    if applied && FinalizationOf(s, task, now) == Done {
      MoveGrows(s, task, Complete(now));
      assert Landed(s, task, now, applied).ops == Transition(s, task, Complete(now)).ops;
    }
  }

  lemma FinalizeGrows(s: System, task: Task, now: Time, report: Report)
    requires task in s.attempts
    ensures Growth(s, AfterFinalize(s, task, now, report), Some(task.id))
  {
    var applied := if report.Acknowledged? then true else report.applied;
    LandedGrows(s, task, now, applied);
    FinalizeShape(s, task, now, report);
  }

  /** Beside what landed, finalization changes only attempts and answers. */
  lemma FinalizeShape(s: System, task: Task, now: Time, report: Report)
    requires task in s.attempts
    ensures var s' := AfterFinalize(s, task, now, report);
            var s1 := Landed(s, task, now, if report.Acknowledged? then true else report.applied);
            s'.ops == s1.ops && s'.users == s1.users
  {
    if !report.Acknowledged? {
      ErrorShape(s, task, now, report);
    } else if FinalizationOf(s, task, now) == LostClaim || FinalizationOf(s, task, now) == Done {
      AnswerShape(s, task, now);
    } else {
      assert AfterFinalize(s, task, now, report) == Continue(s, task, Blocking);
    }
  }

  lemma DeferGrows(maxAttempts: int, s: System, task: Task, now: Time, retryAt: Time, heard: bool)
    requires task in s.attempts
    ensures Growth(s, AfterDefer(maxAttempts, s, task, now, retryAt, heard), None)
  {
    var move := Retry(now, retryAt, "Deferred");
    var s1, s' := Transition(s, task, move), AfterDefer(maxAttempts, s, task, now, retryAt, heard);
    MoveGrows(s, task, move);
    assert (s'.ops == s1.ops && s'.users == s1.users) || (s'.ops == s.ops && s'.users == s.users);
  }

  lemma GiveUpGrows(s: System, task: Task, now: Time, heard: bool)
    requires task in s.attempts
    ensures Growth(s, AfterGiveUp(s, task, now, heard), None)
  {
    var move := Block(now, "Blocked");
    var s1, s' := Transition(s, task, move), AfterGiveUp(s, task, now, heard);
    MoveGrows(s, task, move);
    assert s'.ops == s1.ops && s'.users == s1.users;
  }

  /** No step undoes a completion, and only the finalization of an operation completes it. */
  lemma StepGrows(maxAttempts: int, s: System, step: Step)
    requires Enabled(s, step)
    ensures Growth(s, Apply(maxAttempts, s, step),
                   if step.Finalize? then Some(step.task.id) else None)
  {
    match step
    case Load(pid, found) => LoadIsQuiet(s, pid, found);
    case Create(pid, id, userId, salt, token, now, expiresAt) =>
      var c := s.requests[pid].command;
      CreateGrows(s, pid, id, Candidate(userId, c.email, PasswordHash(c.password, salt),
                                        c.keyHash, token, now, expiresAt), token);
    case Verify(pid) => VerifyIsQuiet(s, pid);
    case ClaimOne(pid, target, token, _, expiresAt) =>
      ClaimOneGrows(s, pid, target, token, expiresAt);
    case ClaimMany(token, _, expiresAt, ids) => ClaimsGrow(s.ops, token, expiresAt, ids);
    case Profile(task, outcome) => ProfileIsQuiet(s, task, outcome);
    case Finalize(task, now, report) => FinalizeGrows(s, task, now, report);
    case Defer(task, now, retryAt, heard) => DeferGrows(maxAttempts, s, task, now, retryAt, heard);
    case GiveUp(task, now, heard) => GiveUpGrows(s, task, now, heard);
    case Redrive(id, now) => RedriveGrows(s, id, now);
    case _ => SameTablesGrow(s, Apply(maxAttempts, s, step));
  }

  /** The step that completes an operation finds its profile confirmed already. */
  lemma CompletionFollowsConfirmation(maxAttempts: int, s: System, step: Step, id: OpId)
    requires 0 < maxAttempts && Reachable(maxAttempts, s) && Enabled(s, step)
    requires id in s.ops && s.ops[id].status != Completed
    requires id in Apply(maxAttempts, s, step).ops
    requires Apply(maxAttempts, s, step).ops[id].status == Completed
    ensures step.Finalize? && s.ops[id].userId in s.confirmed
  {
    ReachableInv(maxAttempts, s);
    StepGrows(maxAttempts, s, step);
    assert AttemptSound(s.ops, step.task, s.attempts[step.task], s.claims, s.confirmed);
  }

  /** Once another attempt has claimed an operation, the earlier holder changes nothing, on any clock. */
  lemma StaleHolderChangesNothing(maxAttempts: int, s: System, id: OpId, i: nat, move: Move)
    requires 0 < maxAttempts && Reachable(maxAttempts, s)
    requires id in s.claims && i + 1 < |s.claims[id]|
    ensures AfterMove(s.ops, id, s.claims[id][i], move) == s.ops
  {
    ReachableInv(maxAttempts, s);
    assert ClaimSound(s.ops[id], s.claims[id], s.tokens);
  }

  /** Each claim gives rise to at most one move by its holder. */
  lemma ClaimMovesOnce(maxAttempts: int, s: System, i: nat, j: nat)
    requires 0 < maxAttempts && Reachable(maxAttempts, s)
    requires i < j < |s.moves|
    ensures s.moves[i] != s.moves[j]
    ensures s.moves[i].id in s.claims && s.moves[i].token in s.claims[s.moves[i].id]
  {
    ReachableInv(maxAttempts, s);
    assert s.moves[i] in s.moves;
  }

  /** An unfinished operation has attempts left, and the holder of its claim has read its count. */
  lemma AttemptBudget(maxAttempts: int, s: System, id: OpId)
    requires 0 < maxAttempts && Reachable(maxAttempts, s) && id in s.ops
    ensures if s.ops[id].Terminal() then s.ops[id].attempts <= maxAttempts
            else s.ops[id].attempts < maxAttempts
    ensures forall token: Token | Task(token, id) in s.attempts && s.ops[id].claimToken == Some(token)
              :: s.attempts[Task(token, id)].op.attempts == s.ops[id].attempts
  {
    ReachableInv(maxAttempts, s);
    forall token: Token | Task(token, id) in s.attempts && s.ops[id].claimToken == Some(token)
      ensures s.attempts[Task(token, id)].op.attempts == s.ops[id].attempts
    {
      var k := Task(token, id);
      assert AttemptSound(s.ops, k, s.attempts[k], s.claims, s.confirmed);
    }
  }

  /** All replies ever given for one key name the same stored operation and user. */
  lemma KeyNamesOneRegistration(maxAttempts: int, s: System, a: Answer, b: Answer)
    requires 0 < maxAttempts && Reachable(maxAttempts, s)
    requires a in s.answers && a.reply.Named? && b in s.answers && b.reply.Named?
    requires a.command.keyHash == b.command.keyHash
    ensures a.reply.id == b.reply.id && a.reply.userId == b.reply.userId
    ensures a.reply.id in s.ops && s.ops[a.reply.id].keyHash == a.command.keyHash
  {
    ReachableInv(maxAttempts, s);
    assert AnswerSound(s.ops, a) && AnswerSound(s.ops, b);
    assert a.reply.id != b.reply.id ==> !Clash(s.ops[a.reply.id], s.ops[b.reply.id]);
  }

  /**
   * Neither the finalization conflict nor the completed registration without a user
   * ever occurs: an operation that is not COMPLETED has an email no account has.
   */
  lemma ConflictsNeverOccur(maxAttempts: int, s: System, task: Task, now: Time, a: Answer)
    requires 0 < maxAttempts && Reachable(maxAttempts, s)
    ensures task in s.attempts ==>
              FinalizationOf(s, task, now) == LostClaim || FinalizationOf(s, task, now) == Done
    ensures a in s.answers ==> a.reply != Failed(CompletedWithoutUser)
    ensures forall id | id in s.ops && s.ops[id].status != Completed
              :: !EmailTaken(s.users, s.ops[id].email)
  {
    ReachableInv(maxAttempts, s);
    if task in s.attempts {
      FinalizationMeetsNoConflict(maxAttempts, s, task, now);
    }
    if a in s.answers {
      assert AnswerSound(s.ops, a);
    }
    forall id | id in s.ops && s.ops[id].status != Completed
      ensures !EmailTaken(s.users, s.ops[id].email)
    {
      assert AccountSound(s.ops[id], s.users, s.events, s.confirmed);
    }
  }

  /** A reply COMPLETED stays true: no later step of any run undoes a registration. */
  lemma {:induction false} CompletionIsForever(maxAttempts: int, s: System, steps: seq<Step>)
    requires ValidRun(maxAttempts, s, steps)
    ensures Grows(s.ops, Exec(maxAttempts, s, steps).ops)
    ensures s.users.Keys <= Exec(maxAttempts, s, steps).users.Keys
    decreases |steps|
  {
    if steps != [] {
      StepGrows(maxAttempts, s, steps[0]);
      CompletionIsForever(maxAttempts, Apply(maxAttempts, s, steps[0]), steps[1..]);
    }
  }
}
