/**
 * The outbox with any number of relay workers, over whole runs.
 *
 * A worker claims a batch, and then for each message sends it, gets an outcome and
 * settles the row, each in its own step. A worker whose lease expired keeps its
 * snapshot and may still send. The clock never goes back and each key's messages are
 * inserted in stream order. Cleanup may pass over locked rows; the run remembers which.
 */
module OutboxRuns {
  import opened Prelude
  import opened OrderedBatch
  import opened OutboxTable

  datatype Slot = Slot(key: string, createdAt: Time)

  /** How the publisher answered; an error has the name of its class. */
  datatype Outcome = Acknowledged | Transient(error: string) | Permanent(error: string)

  datatype Phase = Ready | InFlight | Done(outcome: Outcome, at: Time)

  /** A worker's copy of one claimed message: the attempts it read, and when. */
  datatype Hold = Hold(attempts: nat, since: Time, phase: Phase)

  datatype Task = Task(token: Token, id: Id)

  datatype Event = Sent(id: Id) | Acked(id: Id)

  /**
   * `inserted`, `started`, `delivered`, `skipped`, `left` and `log` are history: every
   * message ever inserted, ever claimed, ever ended SUCCESS, ever passed over by a
   * cleanup that found its row locked, ever left behind by a cleanup that removed a later
   * one of its key, and every send and acknowledgement.
   */
  datatype System = System(
    rows: Table,
    clock: Time,
    holds: map<Task, Hold>,
    tokens: set<Token>,
    inserted: map<Id, Slot>,
    started: set<Id>,
    delivered: set<Id>,
    skipped: set<Id>,
    left: set<Id>,
    log: seq<Event>)

  datatype Step =
    | Tick(to: Time)
    | Insert(id: Id, key: string, occurredAt: Time)
    | Claim(token: Token, claimedAt: Time, expiresAt: Time, ids: set<Id>)
    | Send(task: Task)
    | Return(task: Task, outcome: Outcome)
    | Settle(task: Task, retryAt: Time)
    | Abandon(task: Task)
    | Redrive(id: Id, availableAt: Time)
    | Sweep(cutoff: Time, ids: set<Id>, locked: set<Id>)

  const START: System := System(map[], 0, map[], {}, map[], {}, {}, {}, {}, [])

  predicate Ahead(ins: map<Id, Slot>, e: Id, m: Id)
    requires e in ins && m in ins
  {
    ins[e].key == ins[m].key && Precedes(ins[e].createdAt, e, ins[m].createdAt, m)
  }

  /** A new message takes the last place of its key. */
  predicate InOrder(ins: map<Id, Slot>, id: Id, key: string, at: Time) {
    && id !in ins
    && forall x | x in ins && ins[x].key == key :: Precedes(ins[x].createdAt, x, at, id)
  }

  /** A cleanup batch is an initial part of the unlocked sweepable rows, oldest first. */
  predicate OldestFirst(t: Table, cutoff: Time, ids: set<Id>, locked: set<Id>) {
    && (forall a | a in ids :: a in t && a !in locked && Sweepable(t[a], cutoff))
    && (forall a, b | a in ids && b in t && b !in locked && Sweepable(t[b], cutoff)
                      && Less(SweepRank(t[b]), b, SweepRank(t[a]), a) :: b in ids)
  }

  /** What a cleanup passes over. */
  function Skipped(t: Table, cutoff: Time, locked: set<Id>): set<Id> {
    set id | id in t && id in locked && Sweepable(t[id], cutoff)
  }

  /** What a cleanup leaves behind a later message of the key that it removes. */
  function LeftBehind(t: Table, ids: set<Id>): set<Id> {
    set e | e in t && e !in ids && exists m :: m in ids && m in t && Earlier(t, e, m)
  }

  predicate Enabled(s: System, step: Step) {
    match step
    case Tick(to) => s.clock <= to
    case Insert(id, key, occurredAt) => InOrder(s.inserted, id, key, occurredAt)
    case Claim(token, claimedAt, expiresAt, ids) =>
      && token !in s.tokens
      && claimedAt < expiresAt
      && forall id | id in ids :: Claimable(s.rows, id, claimedAt)
    case Send(task) => task in s.holds && s.holds[task].phase == Ready
    case Return(task, _) => task in s.holds && s.holds[task].phase == InFlight
    case Settle(task, _) => task in s.holds && s.holds[task].phase.Done?
    case Abandon(task) => task in s.holds
    case Redrive(_, _) => true
    case Sweep(cutoff, ids, locked) => OldestFirst(s.rows, cutoff, ids, locked)
  }

  /** What the relay does with an outcome, from the attempts in its snapshot. */
  function Decide(maxAttempts: int, h: Hold, retryAt: Time): Settlement
    requires h.phase.Done?
  {
    match h.phase.outcome
    case Acknowledged => Finalize(h.phase.at)
    case Permanent(error) => Quarantine(h.phase.at, error)
    case Transient(error) =>
      if h.attempts + 1 >= maxAttempts then Quarantine(h.phase.at, "RetryExhaustedError")
      else Retry(retryAt, error)
  }

  function AfterClaimStep(s: System, token: Token, expiresAt: Time, ids: set<Id>): System
    requires forall id | id in ids :: id in s.rows
  {
    var fresh' := map id | id in ids :: Hold(s.rows[id].attempts, s.clock, Ready);
    s.(rows := AfterClaim(s.rows, ids, token, expiresAt),
       holds := map t | t in s.holds.Keys + (set id | id in ids :: Task(token, id))
                :: if t in s.holds then s.holds[t] else fresh'[t.id],
       tokens := s.tokens + {token},
       started := s.started + ids)
  }

  function AfterSettleStep(maxAttempts: int, s: System, task: Task, retryAt: Time): System
    requires task in s.holds && s.holds[task].phase.Done?
  {
    var settlement := Decide(maxAttempts, s.holds[task], retryAt);
    s.(rows := AfterSettle(s.rows, task.id, task.token, settlement),
       holds := s.holds - {task},
       delivered := if settlement.Finalize? && Owns(s.rows, task.id, task.token)
                    then s.delivered + {task.id} else s.delivered)
  }

  function Apply(maxAttempts: int, s: System, step: Step): System
    requires Enabled(s, step)
  {
    match step
    case Tick(to) => s.(clock := to)
    case Insert(id, key, occurredAt) =>
      s.(rows := s.rows[id := NewRow(key, occurredAt)],
         inserted := s.inserted[id := Slot(key, occurredAt)])
    case Claim(token, _, expiresAt, ids) => AfterClaimStep(s, token, expiresAt, ids)
    case Send(task) =>
      s.(holds := s.holds[task := s.holds[task].(phase := InFlight)],
         log := s.log + [Sent(task.id)])
    case Return(task, outcome) =>
      s.(holds := s.holds[task := s.holds[task].(phase := Done(outcome, s.clock))],
         log := if outcome == Acknowledged then s.log + [Acked(task.id)] else s.log)
    case Settle(task, retryAt) => AfterSettleStep(maxAttempts, s, task, retryAt)
    case Abandon(task) => s.(holds := s.holds - {task})
    case Redrive(id, availableAt) => s.(rows := AfterRedrive(s.rows, id, availableAt))
    case Sweep(cutoff, ids, locked) =>
      s.(rows := s.rows - ids, skipped := s.skipped + Skipped(s.rows, cutoff, locked),
         left := s.left + LeftBehind(s.rows, ids))
  }

  predicate ValidRun(maxAttempts: int, s: System, steps: seq<Step>)
    decreases |steps|
  {
    steps == []
    || (Enabled(s, steps[0]) && ValidRun(maxAttempts, Apply(maxAttempts, s, steps[0]), steps[1..]))
  }

  function Exec(maxAttempts: int, s: System, steps: seq<Step>): System
    requires ValidRun(maxAttempts, s, steps)
    decreases |steps|
  {
    if steps == [] then s else Exec(maxAttempts, Apply(maxAttempts, s, steps[0]), steps[1..])
  }

  // The invariant, one predicate per concern.

  ghost predicate RowSound(r: Row, maxAttempts: int, clock: Time) {
    && r.Lifecycle()
    && (if r.Terminal() then r.attempts <= maxAttempts else r.attempts < maxAttempts)
    && (r.terminalAt.Some? ==> r.terminalAt.value <= clock)
  }

  ghost predicate RowsSound(t: Table, maxAttempts: int, clock: Time, tokens: set<Token>) {
    forall id | id in t ::
      && RowSound(t[id], maxAttempts, clock)
      && (t[id].claimToken.Some? ==> t[id].claimToken.value in tokens)
  }

  ghost predicate SlotsSound(t: Table, ins: map<Id, Slot>, started: set<Id>) {
    && started <= ins.Keys
    && forall id | id in t ::
         && id in ins && ins[id] == Slot(t[id].key, t[id].createdAt)
         && (t[id].status != Pending ==> id in started)
  }

  /** Before a stored message that was ever claimed, everything left of its key is finished. */
  ghost predicate StartedSound(t: Table, ins: map<Id, Slot>, started: set<Id>) {
    forall m, e | m in started && m in t && e in t && m in ins && e in ins && Ahead(ins, e, m)
      :: t[e].Terminal()
  }

  /** Before a message that was cleaned up, nothing of its key is stored but what was left behind. */
  ghost predicate GoneSound(t: Table, ins: map<Id, Slot>, left: set<Id>) {
    forall m, e | m in ins && m !in t && e in t && e in ins && Ahead(ins, e, m) :: e in left
  }

  /** A later message of the key was inserted and is gone. */
  ghost predicate Overtaken(stored: set<Id>, ins: map<Id, Slot>, e: Id) {
    e in ins && exists m :: m in ins && m !in stored && Ahead(ins, e, m)
  }

  /** What was left behind is overtaken, and was skipped. */
  ghost predicate LeftSound(stored: set<Id>, ins: map<Id, Slot>, left: set<Id>, skipped: set<Id>) {
    left <= skipped && forall e | e in left :: Overtaken(stored, ins, e)
  }

  /** Along one key the messages finish in stream order. */
  ghost predicate FinishOrder(t: Table) {
    forall e, m | e in t && m in t && Earlier(t, e, m)
                  && t[e].terminalAt.Some? && t[m].terminalAt.Some?
      :: t[e].terminalAt.value <= t[m].terminalAt.value
  }

  ghost predicate HoldSound(t: Table, task: Task, h: Hold, clock: Time) {
    && h.since <= clock
    && (h.phase.Done? ==> h.since <= h.phase.at <= clock)
    && (Owns(t, task.id, task.token) ==>
          && h.attempts == t[task.id].attempts
          && forall e | e in t && Earlier(t, e, task.id) && t[e].terminalAt.Some?
               :: t[e].terminalAt.value <= h.since)
  }

  ghost predicate HoldsSound(t: Table, holds: map<Task, Hold>, clock: Time, tokens: set<Token>,
                       started: set<Id>)
  {
    forall k | k in holds ::
      HoldSound(t, k, holds[k], clock) && k.token in tokens && k.id in started
  }

  ghost predicate DeliveredSound(t: Table, ins: map<Id, Slot>, holds: map<Task, Hold>,
                           delivered: set<Id>, log: seq<Event>)
  {
    && delivered <= ins.Keys
    && (forall id | id in t :: t[id].status == Success <==> id in delivered)
    && (forall id | id in delivered :: Acked(id) in log)
    && (forall k | k in holds && holds[k].phase.Done? && holds[k].phase.outcome == Acknowledged
          :: Acked(k.id) in log)
  }

  ghost predicate SendsSound(t: Table, ins: map<Id, Slot>, started: set<Id>, delivered: set<Id>,
                             left: set<Id>, log: seq<Event>)
  {
    && (forall m | Sent(m) in log :: m in started)
    && (forall i, e | 0 <= i < |log| && log[i].Sent? && e in delivered && e in ins
                      && log[i].id in ins && Ahead(ins, e, log[i].id)
          :: (e in left && log[i].id !in t) || Acked(e) in log[..i])
  }

  ghost predicate Inv(maxAttempts: int, s: System) {
    && RowsSound(s.rows, maxAttempts, s.clock, s.tokens)
    && SlotsSound(s.rows, s.inserted, s.started)
    && StartedSound(s.rows, s.inserted, s.started)
    && GoneSound(s.rows, s.inserted, s.left)
    && LeftSound(s.rows.Keys, s.inserted, s.left, s.skipped)
    && FinishOrder(s.rows)
    && HoldsSound(s.rows, s.holds, s.clock, s.tokens, s.started)
    && DeliveredSound(s.rows, s.inserted, s.holds, s.delivered, s.log)
    && SendsSound(s.rows, s.inserted, s.started, s.delivered, s.left, s.log)
  }

  lemma StepKeepsInv(maxAttempts: int, s: System, step: Step)
    requires 0 < maxAttempts && Inv(maxAttempts, s) && Enabled(s, step)
    ensures Inv(maxAttempts, Apply(maxAttempts, s, step))
  {
    match step
    case Tick(_) =>
    case Insert(id, key, occurredAt) => InsertKeepsInv(maxAttempts, s, step);
    case Claim(token, _, expiresAt, ids) => ClaimKeepsInv(maxAttempts, s, step);
    case Send(task) => SendKeepsInv(maxAttempts, s, step);
    case Return(task, outcome) => ReturnKeepsInv(maxAttempts, s, step);
    case Settle(task, retryAt) => SettleKeepsInv(maxAttempts, s, step);
    case Abandon(task) =>
    case Redrive(id, availableAt) => RedriveKeepsInv(maxAttempts, s, step);
    case Sweep(_, _, _) => SweepKeepsInv(maxAttempts, s, step);
  }

  lemma InsertKeepsOrder(t: Table, ins: map<Id, Slot>, started: set<Id>, left: set<Id>, id: Id,
                         key: string, at: Time)
    requires SlotsSound(t, ins, started) && InOrder(ins, id, key, at)
    requires StartedSound(t, ins, started) && GoneSound(t, ins, left)
    ensures StartedSound(t[id := NewRow(key, at)], ins[id := Slot(key, at)], started)
    ensures GoneSound(t[id := NewRow(key, at)], ins[id := Slot(key, at)], left)
  {
  }

  lemma InsertKeepsFinishOrder(t: Table, id: Id, key: string, at: Time)
    requires id !in t && FinishOrder(t)
    ensures FinishOrder(t[id := NewRow(key, at)])
  {
    var t' := t[id := NewRow(key, at)];
    assert forall e, m | e in t && m in t :: Earlier(t', e, m) == Earlier(t, e, m);
  }

  lemma InsertKeepsLeft(stored: set<Id>, ins: map<Id, Slot>, left: set<Id>, skipped: set<Id>,
                        id: Id, slot: Slot)
    requires LeftSound(stored, ins, left, skipped) && id !in ins
    ensures LeftSound(stored + {id}, ins[id := slot], left, skipped)
  {
    forall e | e in left
      ensures Overtaken(stored + {id}, ins[id := slot], e)
    {
      var m :| m in ins && m !in stored && Ahead(ins, e, m);
      assert Ahead(ins[id := slot], e, m);
    }
  }

  lemma InsertKeepsInv(maxAttempts: int, s: System, step: Step)
    requires 0 < maxAttempts && Inv(maxAttempts, s) && step.Insert? && Enabled(s, step)
    ensures Inv(maxAttempts, Apply(maxAttempts, s, step))
  {
    InsertKeepsOrder(s.rows, s.inserted, s.started, s.left, step.id, step.key, step.occurredAt);
    InsertKeepsFinishOrder(s.rows, step.id, step.key, step.occurredAt);
    InsertKeepsLeft(s.rows.Keys, s.inserted, s.left, s.skipped, step.id,
                    Slot(step.key, step.occurredAt));
    var s' := Apply(maxAttempts, s, step);
    assert s'.rows.Keys == s.rows.Keys + {step.id};
    assert HoldsSound(s'.rows, s'.holds, s'.clock, s'.tokens, s'.started);
    assert SendsSound(s'.rows, s'.inserted, s'.started, s'.delivered, s'.left, s'.log);
  }

  lemma ClaimKeepsRows(t: Table, maxAttempts: int, clock: Time, tokens: set<Token>, ids: set<Id>,
                       token: Token, now: Time, expiresAt: Time)
    requires RowsSound(t, maxAttempts, clock, tokens)
    requires forall id | id in ids :: Claimable(t, id, now)
    ensures RowsSound(AfterClaim(t, ids, token, expiresAt), maxAttempts, clock, tokens + {token})
  {
  }

  lemma ClaimKeepsOrder(t: Table, ins: map<Id, Slot>, started: set<Id>, left: set<Id>,
                        ids: set<Id>, token: Token, now: Time, expiresAt: Time)
    requires SlotsSound(t, ins, started) && StartedSound(t, ins, started)
    requires GoneSound(t, ins, left)
    requires forall id | id in ids :: Claimable(t, id, now)
    ensures var t' := AfterClaim(t, ids, token, expiresAt);
            SlotsSound(t', ins, started + ids) && StartedSound(t', ins, started + ids)
            && GoneSound(t', ins, left)
  {
    var t' := AfterClaim(t, ids, token, expiresAt);
    forall m, e | m in started + ids && m in t' && e in t' && m in ins && e in ins
                  && Ahead(ins, e, m)
      ensures t'[e].Terminal()
    {
      assert m in ids ==> Earlier(t, e, m);
    }
  }

  lemma ClaimKeepsFinishOrder(t: Table, ids: set<Id>, token: Token, expiresAt: Time)
    requires FinishOrder(t)
    ensures FinishOrder(AfterClaim(t, ids, token, expiresAt))
  {
    var t' := AfterClaim(t, ids, token, expiresAt);
    forall e, m | e in t' && m in t' && Earlier(t', e, m)
                  && t'[e].terminalAt.Some? && t'[m].terminalAt.Some?
      ensures t'[e].terminalAt.value <= t'[m].terminalAt.value
    {
      assert Earlier(t, e, m);
    }
  }

  lemma ClaimKeepsHolds(maxAttempts: int, s: System, step: Step)
    requires 0 < maxAttempts && Inv(maxAttempts, s) && step.Claim? && Enabled(s, step)
    ensures var s' := Apply(maxAttempts, s, step);
            HoldsSound(s'.rows, s'.holds, s'.clock, s'.tokens, s'.started)
  {
    var s' := Apply(maxAttempts, s, step);
    forall k | k in s'.holds
      ensures HoldSound(s'.rows, k, s'.holds[k], s'.clock)
    {
      if k in s.holds {
        assert HoldSound(s.rows, k, s.holds[k], s.clock);
      }
    }
  }

  lemma ClaimKeepsInv(maxAttempts: int, s: System, step: Step)
    requires 0 < maxAttempts && Inv(maxAttempts, s) && step.Claim? && Enabled(s, step)
    ensures Inv(maxAttempts, Apply(maxAttempts, s, step))
  {
    ClaimKeepsRows(s.rows, maxAttempts, s.clock, s.tokens, step.ids, step.token, step.claimedAt,
                   step.expiresAt);
    ClaimKeepsOrder(s.rows, s.inserted, s.started, s.left, step.ids, step.token,
                    step.claimedAt, step.expiresAt);
    ClaimKeepsFinishOrder(s.rows, step.ids, step.token, step.expiresAt);
    assert AfterClaim(s.rows, step.ids, step.token, step.expiresAt).Keys == s.rows.Keys;
    ClaimKeepsHolds(maxAttempts, s, step);
  }

  lemma SendKeepsInv(maxAttempts: int, s: System, step: Step)
    requires 0 < maxAttempts && Inv(maxAttempts, s) && step.Send? && Enabled(s, step)
    ensures Inv(maxAttempts, Apply(maxAttempts, s, step))
  {
    var log := s.log + [Sent(step.task.id)];
    assert forall i | 0 <= i <= |s.log| :: log[..i] == s.log[..i];
    assert s.log[..|s.log|] == s.log;
  }

  lemma ReturnKeepsHolds(s: System, task: Task, outcome: Outcome)
    requires HoldsSound(s.rows, s.holds, s.clock, s.tokens, s.started) && task in s.holds
    ensures HoldsSound(s.rows, s.holds[task := s.holds[task].(phase := Done(outcome, s.clock))],
                       s.clock, s.tokens, s.started)
  {
    var holds := s.holds[task := s.holds[task].(phase := Done(outcome, s.clock))];
    forall k | k in holds
      ensures HoldSound(s.rows, k, holds[k], s.clock)
    {
      assert HoldSound(s.rows, k, s.holds[k], s.clock);
    }
  }

  lemma ReturnKeepsInv(maxAttempts: int, s: System, step: Step)
    requires 0 < maxAttempts && Inv(maxAttempts, s) && step.Return? && Enabled(s, step)
    ensures Inv(maxAttempts, Apply(maxAttempts, s, step))
  {
    var s' := Apply(maxAttempts, s, step);
    ReturnKeepsHolds(s, step.task, step.outcome);
    assert forall i | 0 <= i <= |s.log| :: s'.log[..i] == s.log[..i];
    assert forall e | e in s.log :: e in s'.log;
    assert SendsSound(s'.rows, s'.inserted, s'.started, s'.delivered, s'.left, s'.log);
    assert DeliveredSound(s'.rows, s'.inserted, s'.holds, s'.delivered, s'.log);
  }

  /** Settling a claimed row: what is before it finished no later, what is after it is untouched. */
  lemma SettleKeepsFinishOrder(maxAttempts: int, s: System, task: Task, retryAt: Time)
    requires Inv(maxAttempts, s) && Enabled(s, Settle(task, retryAt))
    ensures FinishOrder(Apply(maxAttempts, s, Settle(task, retryAt)).rows)
  {
    var h, t := s.holds[task], s.rows;
    assert HoldSound(t, task, h, s.clock);
    var t' := Apply(maxAttempts, s, Settle(task, retryAt)).rows;
    forall e, m | e in t' && m in t' && Earlier(t', e, m)
                  && t'[e].terminalAt.Some? && t'[m].terminalAt.Some?
      ensures t'[e].terminalAt.value <= t'[m].terminalAt.value
    {
      assert Earlier(t, e, m);
      assert t[m].Terminal() || m == task.id;
      assert Ahead(s.inserted, e, m);
    }
  }

  lemma SettleKeepsTable(maxAttempts: int, s: System, step: Step)
    requires 0 < maxAttempts && Inv(maxAttempts, s) && step.Settle? && Enabled(s, step)
    ensures var s' := Apply(maxAttempts, s, step);
            && RowsSound(s'.rows, maxAttempts, s'.clock, s'.tokens)
            && SlotsSound(s'.rows, s'.inserted, s'.started)
            && StartedSound(s'.rows, s'.inserted, s'.started)
            && GoneSound(s'.rows, s'.inserted, s'.left)
  {
    assert HoldSound(s.rows, step.task, s.holds[step.task], s.clock);
  }

  lemma SettleKeepsHolds(maxAttempts: int, s: System, step: Step)
    requires 0 < maxAttempts && Inv(maxAttempts, s) && step.Settle? && Enabled(s, step)
    ensures var s' := Apply(maxAttempts, s, step);
            HoldsSound(s'.rows, s'.holds, s'.clock, s'.tokens, s'.started)
  {
    var s' := Apply(maxAttempts, s, step);
    forall k | k in s'.holds
      ensures HoldSound(s'.rows, k, s'.holds[k], s'.clock)
    {
      assert HoldSound(s.rows, k, s.holds[k], s.clock);
    }
  }

  lemma SettleKeepsInv(maxAttempts: int, s: System, step: Step)
    requires 0 < maxAttempts && Inv(maxAttempts, s) && step.Settle? && Enabled(s, step)
    ensures Inv(maxAttempts, Apply(maxAttempts, s, step))
  {
    SettleKeepsFinishOrder(maxAttempts, s, step.task, step.retryAt);
    SettleKeepsTable(maxAttempts, s, step);
    SettleKeepsHolds(maxAttempts, s, step);
    SettleKeepsSends(maxAttempts, s, step);
    assert Apply(maxAttempts, s, step).rows.Keys == s.rows.Keys;
  }

  /** Whatever was sent after the settled message of its key is gone, and this one was left. */
  lemma SettleKeepsSends(maxAttempts: int, s: System, step: Step)
    requires 0 < maxAttempts && Inv(maxAttempts, s) && step.Settle? && Enabled(s, step)
    ensures var s' := Apply(maxAttempts, s, step);
            SendsSound(s'.rows, s'.inserted, s'.started, s'.delivered, s'.left, s'.log)
  {
    var s' := Apply(maxAttempts, s, step);
    forall i, e | 0 <= i < |s.log| && s.log[i].Sent? && e in s'.delivered && e in s.inserted
                  && s.log[i].id in s.inserted && Ahead(s.inserted, e, s.log[i].id)
      ensures (e in s.left && s.log[i].id !in s'.rows) || Acked(e) in s.log[..i]
    {
      assert Sent(s.log[i].id) in s.log;
    }
  }

  /** A redriven row is the last stored one of its key, so no order is broken. */
  lemma RedriveKeepsOrder(t: Table, ins: map<Id, Slot>, started: set<Id>, left: set<Id>, id: Id,
                          at: Time)
    requires Redrivable(t, id)
    requires SlotsSound(t, ins, started) && StartedSound(t, ins, started)
    requires GoneSound(t, ins, left) && FinishOrder(t)
    ensures var t' := AfterRedrive(t, id, at);
            && SlotsSound(t', ins, started) && StartedSound(t', ins, started)
            && GoneSound(t', ins, left) && FinishOrder(t')
  {
    var t' := AfterRedrive(t, id, at);
    forall m | m in t
      ensures !Ahead(ins, id, m)
    {
      assert !Earlier(t, id, m);
    }
    forall e, m | e in t' && m in t' && Earlier(t', e, m)
                  && t'[e].terminalAt.Some? && t'[m].terminalAt.Some?
      ensures t'[e].terminalAt.value <= t'[m].terminalAt.value
    {
      assert Earlier(t, e, m);
    }
  }

  lemma RedriveKeepsHolds(t: Table, holds: map<Task, Hold>, clock: Time, tokens: set<Token>,
                          started: set<Id>, id: Id, at: Time)
    requires Redrivable(t, id) && HoldsSound(t, holds, clock, tokens, started)
    ensures HoldsSound(AfterRedrive(t, id, at), holds, clock, tokens, started)
  {
    var t' := AfterRedrive(t, id, at);
    forall k | k in holds
      ensures HoldSound(t', k, holds[k], clock)
    {
      assert HoldSound(t, k, holds[k], clock);
    }
  }

  lemma RedriveKeepsInv(maxAttempts: int, s: System, step: Step)
    requires 0 < maxAttempts && Inv(maxAttempts, s) && step.Redrive? && Enabled(s, step)
    ensures Inv(maxAttempts, Apply(maxAttempts, s, step))
  {
    if Redrivable(s.rows, step.id) {
      RedriveKeepsOrder(s.rows, s.inserted, s.started, s.left, step.id, step.availableAt);
      RedriveKeepsHolds(s.rows, s.holds, s.clock, s.tokens, s.started, step.id, step.availableAt);
      assert AfterRedrive(s.rows, step.id, step.availableAt).Keys == s.rows.Keys;
    }
  }

  /** What is before a swept row finished no later, so it is swept too or skipped. */
  lemma LeftBehindIsSkipped(maxAttempts: int, s: System, cutoff: Time, ids: set<Id>, locked: set<Id>)
    requires Inv(maxAttempts, s) && OldestFirst(s.rows, cutoff, ids, locked)
    ensures LeftBehind(s.rows, ids) <= Skipped(s.rows, cutoff, locked)
  {
    var t := s.rows;
    forall e | e in LeftBehind(t, ids)
      ensures e in Skipped(t, cutoff, locked)
    {
      var m :| m in ids && m in t && Earlier(t, e, m);
      assert Ahead(s.inserted, e, m) && m in s.started;
      assert Sweepable(t[e], cutoff);
      assert Less(SweepRank(t[e]), e, SweepRank(t[m]), m);
    }
  }

  lemma SweepKeepsGone(t: Table, ins: map<Id, Slot>, started: set<Id>, left: set<Id>, ids: set<Id>)
    requires SlotsSound(t, ins, started) && GoneSound(t, ins, left)
    ensures GoneSound(t - ids, ins, left + LeftBehind(t, ids))
  {
    forall m, e | m in ins && m !in t - ids && e in t - ids && e in ins && Ahead(ins, e, m)
      ensures e in left + LeftBehind(t, ids)
    {
      assert m in t ==> Earlier(t, e, m);
    }
  }

  lemma SweepKeepsLeft(t: Table, ins: map<Id, Slot>, started: set<Id>, left: set<Id>,
                       skipped: set<Id>, passed: set<Id>, ids: set<Id>)
    requires SlotsSound(t, ins, started) && LeftSound(t.Keys, ins, left, skipped)
    requires LeftBehind(t, ids) <= passed
    ensures LeftSound((t - ids).Keys, ins, left + LeftBehind(t, ids), skipped + passed)
  {
    forall e | e in left + LeftBehind(t, ids)
      ensures Overtaken((t - ids).Keys, ins, e)
    {
      if e in left {
        var m :| m in ins && m !in t && Ahead(ins, e, m);
      } else {
        var m :| m in ids && m in t && Earlier(t, e, m);
        assert Ahead(ins, e, m);
      }
    }
  }

  lemma SweepKeepsTable(t: Table, ins: map<Id, Slot>, started: set<Id>, ids: set<Id>)
    requires SlotsSound(t, ins, started) && StartedSound(t, ins, started) && FinishOrder(t)
    ensures SlotsSound(t - ids, ins, started) && StartedSound(t - ids, ins, started)
    ensures FinishOrder(t - ids)
  {
    var t' := t - ids;
    forall e, m | e in t' && m in t' && Earlier(t', e, m)
                  && t'[e].terminalAt.Some? && t'[m].terminalAt.Some?
      ensures t'[e].terminalAt.value <= t'[m].terminalAt.value
    {
      assert Earlier(t, e, m);
    }
  }

  lemma SweepKeepsHolds(t: Table, holds: map<Task, Hold>, clock: Time, tokens: set<Token>,
                        started: set<Id>, ids: set<Id>)
    requires HoldsSound(t, holds, clock, tokens, started)
    ensures HoldsSound(t - ids, holds, clock, tokens, started)
  {
    forall k | k in holds
      ensures HoldSound(t - ids, k, holds[k], clock)
    {
      assert HoldSound(t, k, holds[k], clock);
    }
  }

  lemma SweepKeepsInv(maxAttempts: int, s: System, step: Step)
    requires 0 < maxAttempts && Inv(maxAttempts, s) && step.Sweep? && Enabled(s, step)
    ensures Inv(maxAttempts, Apply(maxAttempts, s, step))
  {
    LeftBehindIsSkipped(maxAttempts, s, step.cutoff, step.ids, step.locked);
    SweepKeepsGone(s.rows, s.inserted, s.started, s.left, step.ids);
    SweepKeepsLeft(s.rows, s.inserted, s.started, s.left, s.skipped,
                   Skipped(s.rows, step.cutoff, step.locked), step.ids);
    SweepKeepsTable(s.rows, s.inserted, s.started, step.ids);
    SweepKeepsHolds(s.rows, s.holds, s.clock, s.tokens, s.started, step.ids);
  }

  lemma {:induction false} RunKeepsInv(maxAttempts: int, s: System, steps: seq<Step>)
    requires 0 < maxAttempts && Inv(maxAttempts, s) && ValidRun(maxAttempts, s, steps)
    ensures Inv(maxAttempts, Exec(maxAttempts, s, steps))
    decreases |steps|
  {
    if steps != [] {
      StepKeepsInv(maxAttempts, s, steps[0]);
      RunKeepsInv(maxAttempts, Apply(maxAttempts, s, steps[0]), steps[1..]);
    }
  }

  /** A state some run from the empty table reaches. */
  ghost predicate Reachable(maxAttempts: int, s: System) {
    exists steps :: ValidRun(maxAttempts, START, steps) && Exec(maxAttempts, START, steps) == s
  }

  lemma ReachableInv(maxAttempts: int, s: System)
    requires 0 < maxAttempts && Reachable(maxAttempts, s)
    ensures Inv(maxAttempts, s)
  {
    var steps :| ValidRun(maxAttempts, START, steps) && Exec(maxAttempts, START, steps) == s;
    RunKeepsInv(maxAttempts, START, steps);
  }

  /**
   * Any worker that can send a message, its lease expired or not, does so when every
   * earlier message of the key still in the table is finished; the one exception is a
   * message that was cleaned up past an earlier one that was left behind.
   */
  lemma SendOvertakesNothing(maxAttempts: int, s: System, task: Task, e: Id)
    requires 0 < maxAttempts && Reachable(maxAttempts, s)
    requires Enabled(s, Send(task))
    ensures task.id in s.inserted
    ensures e in s.rows ==> e in s.inserted
    ensures e in s.rows && Ahead(s.inserted, e, task.id) ==>
              s.rows[e].Terminal() || (task.id !in s.rows && e in s.left)
  {
    ReachableInv(maxAttempts, s);
  }

  /**
   * In the log of any run, an earlier message that ended SUCCESS was acknowledged
   * before every send of a later message of its key, unless it was left behind and that
   * later message is gone.
   */
  lemma AcknowledgedBeforeLaterSends(maxAttempts: int, s: System, i: nat, e: Id)
    requires 0 < maxAttempts && Reachable(maxAttempts, s)
    requires i < |s.log| && s.log[i].Sent? && e in s.delivered
    ensures s.log[i].id in s.inserted && e in s.inserted
    ensures Ahead(s.inserted, e, s.log[i].id) && (e !in s.left || s.log[i].id in s.rows)
            ==> exists j :: 0 <= j < i && s.log[j] == Acked(e)
  {
    ReachableInv(maxAttempts, s);
    assert Sent(s.log[i].id) in s.log;
    if Ahead(s.inserted, e, s.log[i].id) && (e !in s.left || s.log[i].id in s.rows) {
      assert Acked(e) in s.log[..i];
      var j :| 0 <= j < i && s.log[..i][j] == Acked(e);
      assert s.log[j] == Acked(e);
    }
  }

  /** A stored message has a later one of its key that is gone exactly when it was left behind. */
  lemma LeftExactlyWhereOvertaken(maxAttempts: int, s: System, e: Id)
    requires 0 < maxAttempts && Reachable(maxAttempts, s) && e in s.rows
    ensures e in s.inserted
    ensures (exists m :: m in s.inserted && m !in s.rows && Ahead(s.inserted, e, m)) <==> e in s.left
    ensures s.left <= s.skipped
  {
    ReachableInv(maxAttempts, s);
    assert e in s.left ==> Overtaken(s.rows.Keys, s.inserted, e);
  }

  /**
   * A redrive reopens a message behind one inserted later in its key exactly when a
   * cleanup left it behind.
   */
  lemma RedriveReopensOnlyTheLast(maxAttempts: int, s: System, id: Id)
    requires 0 < maxAttempts && Reachable(maxAttempts, s)
    requires Redrivable(s.rows, id)
    ensures id in s.inserted
    ensures (exists m :: m in s.inserted && Ahead(s.inserted, id, m)) <==> id in s.left
    ensures forall m | m in s.inserted && Ahead(s.inserted, id, m) :: m !in s.rows
  {
    ReachableInv(maxAttempts, s);
    LeftExactlyWhereOvertaken(maxAttempts, s, id);
    forall m | m in s.inserted && m in s.rows
      ensures !Ahead(s.inserted, id, m)
    {
      assert !Earlier(s.rows, id, m);
    }
  }

  /** A run whose cleanups meet no locked row skips nothing. */
  lemma {:induction false} SkippedOnlyWhereLocked(maxAttempts: int, s: System, steps: seq<Step>)
    requires ValidRun(maxAttempts, s, steps)
    requires forall k | 0 <= k < |steps| && steps[k].Sweep? :: steps[k].locked == {}
    ensures Exec(maxAttempts, s, steps).skipped == s.skipped
    decreases |steps|
  {
    if steps != [] {
      assert Apply(maxAttempts, s, steps[0]).skipped == s.skipped;
      SkippedOnlyWhereLocked(maxAttempts, Apply(maxAttempts, s, steps[0]), steps[1..]);
    }
  }

  /** So along such a run a redrive reopens only the last message ever inserted of its key. */
  lemma UnlockedRunReopensOnlyTheLast(maxAttempts: int, steps: seq<Step>, id: Id, m: Id)
    requires 0 < maxAttempts && ValidRun(maxAttempts, START, steps)
    requires forall k | 0 <= k < |steps| && steps[k].Sweep? :: steps[k].locked == {}
    requires Redrivable(Exec(maxAttempts, START, steps).rows, id)
    requires m in Exec(maxAttempts, START, steps).inserted
    ensures id in Exec(maxAttempts, START, steps).inserted
    ensures !Ahead(Exec(maxAttempts, START, steps).inserted, id, m)
  {
    var s := Exec(maxAttempts, START, steps);
    SkippedOnlyWhereLocked(maxAttempts, START, steps);
    LeftExactlyWhereOvertaken(maxAttempts, s, id);
    RedriveReopensOnlyTheLast(maxAttempts, s, id);
  }

  /** Among the messages of a key at most one is CLAIMED, and it is the earliest unfinished one. */
  lemma ClaimedIsEarliestUnfinished(maxAttempts: int, s: System, c: Id, m: Id)
    requires 0 < maxAttempts && Reachable(maxAttempts, s)
    requires c in s.rows && s.rows[c].status == Claimed
    requires m in s.rows && m != c && s.rows[m].key == s.rows[c].key && !s.rows[m].Terminal()
    ensures Earlier(s.rows, c, m) && s.rows[m].status == Pending
  {
    ReachableInv(maxAttempts, s);
    assert Ahead(s.inserted, m, c) || Ahead(s.inserted, c, m);
  }

  /** An unfinished row has attempts left, and a worker that owns a row has read its count. */
  lemma AttemptBudget(maxAttempts: int, s: System, id: Id)
    requires 0 < maxAttempts && Reachable(maxAttempts, s) && id in s.rows
    ensures if s.rows[id].Terminal() then s.rows[id].attempts <= maxAttempts
            else s.rows[id].attempts < maxAttempts
    ensures forall token | Task(token, id) in s.holds && s.rows[id].HeldBy(token)
              :: s.holds[Task(token, id)].attempts == s.rows[id].attempts
  {
    ReachableInv(maxAttempts, s);
    forall token | Task(token, id) in s.holds && s.rows[id].HeldBy(token)
      ensures s.holds[Task(token, id)].attempts == s.rows[id].attempts
    {
      assert HoldSound(s.rows, Task(token, id), s.holds[Task(token, id)], s.clock);
    }
  }

  /** What a row becomes when its owner settles it: status, attempts and times by the outcome. */
  predicate SettledBy(r: Row, r': Row, maxAttempts: int, attempts: nat, outcome: Outcome, at: Time,
                      retryAt: Time)
  {
    && r'.attempts == r.attempts + 1 && r'.claimToken.None? && r'.claimExpiresAt.None?
    && r'.key == r.key && r'.createdAt == r.createdAt && r'.redriveCount == r.redriveCount
    && (r'.status == Success <==> outcome.Acknowledged?)
    && (r'.status == Quarantined
        <==> outcome.Permanent? || (outcome.Transient? && attempts + 1 >= maxAttempts))
    && (r'.status == Pending <==> outcome.Transient? && attempts + 1 < maxAttempts)
    && r'.terminalAt == (if r'.status == Pending then None else Some(at))
    && r'.availableAt == (if r'.status == Pending then retryAt else r.availableAt)
    && (r'.status == Success ==> r'.lastError.None?)
    && (outcome.Permanent? || r'.status == Pending ==> r'.lastError == Some(outcome.error))
    && (outcome.Transient? && r'.status == Quarantined ==> r'.lastError == Some("RetryExhaustedError"))
  }

  /**
   * A worker that owns a row retries a transient failure exactly while attempts are
   * left, quarantines a permanent or last one, and finishes an acknowledged message; by
   * a worker that does not own it, nothing changes.
   */
  lemma SettlesExactly(maxAttempts: int, s: System, task: Task, retryAt: Time)
    requires 0 < maxAttempts && Reachable(maxAttempts, s) && Enabled(s, Settle(task, retryAt))
    ensures var s', h := Apply(maxAttempts, s, Settle(task, retryAt)), s.holds[task];
            && s'.holds == s.holds - {task} && s'.log == s.log
            && if task.id in s.rows && s.rows[task.id].HeldBy(task.token)
               then s'.rows == s.rows[task.id := s'.rows[task.id]]
                    && SettledBy(s.rows[task.id], s'.rows[task.id], maxAttempts,
                                 s.rows[task.id].attempts, h.phase.outcome, h.phase.at, retryAt)
               else s'.rows == s.rows
  {
    ReachableInv(maxAttempts, s);
    assert HoldSound(s.rows, task, s.holds[task], s.clock);
  }

  /** A batch the repository selects is oldest first among the rows it finds unlocked. */
  lemma SweepIsOldestFirst(t: Table, cutoff: Time, ids: seq<Id>, limit: int, locked: set<Id>)
    requires IsOldest(SweepRanks(t, cutoff, locked), ids, limit)
    ensures OldestFirst(t, cutoff, Members(ids), locked)
  {
    var ranks := SweepRanks(t, cutoff, locked);
    forall a, b | a in Members(ids) && b in t && b !in locked && Sweepable(t[b], cutoff)
                  && Less(SweepRank(t[b]), b, SweepRank(t[a]), a)
      ensures b in Members(ids)
    {
      var k :| 0 <= k < |ids| && ids[k] == a;
      assert b in ranks;
    }
  }

  /**
   * With SKIP LOCKED, cleanup leaves an earlier message of a cleaned key behind
   * exactly when it skips one that is locked.
   */
  lemma CleanupLeavesBehindExactlyTheSkipped(
    maxAttempts: int, s: System, cutoff: Time, ids: seq<Id>, limit: int, locked: set<Id>,
    e: Id, m: Id)
    requires 0 < maxAttempts && Reachable(maxAttempts, s)
    requires IsOldest(SweepRanks(s.rows, cutoff, locked), ids, limit)
    requires e in s.rows && m in ids && m in s.rows && Earlier(s.rows, e, m)
    ensures e !in ids <==> e in locked
  {
    ReachableInv(maxAttempts, s);
    var ranks := SweepRanks(s.rows, cutoff, locked);
    assert m in ranks;
    assert Ahead(s.inserted, e, m);
    assert e in locked || e in ranks;
  }

  lemma {:induction false} ExecSnoc(maxAttempts: int, s: System, steps: seq<Step>, step: Step)
    requires ValidRun(maxAttempts, s, steps)
    requires Enabled(Exec(maxAttempts, s, steps), step)
    ensures ValidRun(maxAttempts, s, steps + [step])
    ensures Exec(maxAttempts, s, steps + [step])
            == Apply(maxAttempts, Exec(maxAttempts, s, steps), step)
    decreases |steps|
  {
    if steps == [] {
      assert [step][1..] == [];
    } else {
      assert (steps + [step])[1..] == steps[1..] + [step];
      ExecSnoc(maxAttempts, Apply(maxAttempts, s, steps[0]), steps[1..], step);
    }
  }

  lemma Reach(maxAttempts: int, s: System, step: Step) returns (s': System)
    requires Reachable(maxAttempts, s) && Enabled(s, step)
    ensures s' == Apply(maxAttempts, s, step) && Reachable(maxAttempts, s')
  {
    s' := Apply(maxAttempts, s, step);
    var steps :| ValidRun(maxAttempts, START, steps) && Exec(maxAttempts, START, steps) == s;
    ExecSnoc(maxAttempts, START, steps, step);
  }

  lemma StartReachable(maxAttempts: int)
    ensures Reachable(maxAttempts, START)
  {
    assert ValidRun(maxAttempts, START, []);
  }

  /** Nothing unfinished, and room for one more message and one more worker. */
  predicate Quiet(s: System, id: Id, token: Token) {
    && s.clock == 0 && id !in s.rows && token !in s.tokens
    && InOrder(s.inserted, id, "k", 0)
    && (forall k | k in s.holds :: k.token != token)
    && (forall e | e in s.rows :: s.rows[e].Terminal())
  }

  lemma InsertAndClaim(s: System, id: Id, token: Token) returns (s': System)
    requires Reachable(3, s) && Quiet(s, id, token)
    ensures Reachable(3, s')
    ensures s' == s.(rows := s.rows[id := ClaimRow(NewRow("k", 0), token, 1)],
                     holds := s.holds[Task(token, id) := Hold(0, 0, Ready)],
                     tokens := s.tokens + {token},
                     inserted := s.inserted[id := Slot("k", 0)],
                     started := s.started + {id})
  {
    var s1 := Reach(3, s, Insert(id, "k", 0));
    assert Claimable(s1.rows, id, 0);
    s' := Reach(3, s1, Claim(token, 0, 1, {id}));
    ClaimOneShape(s1, id, token, 1);
    assert s'.rows == s.rows[id := ClaimRow(NewRow("k", 0), token, 1)];
  }

  lemma ClaimOneShape(s: System, id: Id, token: Token, expiresAt: Time)
    requires id in s.rows && forall k | k in s.holds :: k.token != token
    ensures AfterClaimStep(s, token, expiresAt, {id})
            == s.(rows := s.rows[id := ClaimRow(s.rows[id], token, expiresAt)],
                  holds := s.holds[Task(token, id) := Hold(s.rows[id].attempts, s.clock, Ready)],
                  tokens := s.tokens + {token},
                  started := s.started + {id})
  {
    var s' := AfterClaimStep(s, token, expiresAt, {id});
    assert s'.rows == s.rows[id := ClaimRow(s.rows[id], token, expiresAt)];
    assert s'.holds == s.holds[Task(token, id) := Hold(s.rows[id].attempts, s.clock, Ready)];
  }

  /** From a quiet state one message is inserted, claimed, sent and settled. */
  lemma Deliver(s: System, id: Id, token: Token, outcome: Outcome) returns (s': System)
    requires Reachable(3, s) && Quiet(s, id, token) && !outcome.Transient?
    ensures Reachable(3, s')
    ensures s'.clock == 0 && s'.holds == s.holds && s'.tokens == s.tokens + {token}
    ensures s'.inserted == s.inserted[id := Slot("k", 0)]
    ensures s'.rows == s.rows[id := Settled(ClaimRow(NewRow("k", 0), token, 1),
                                            Decide(3, Hold(0, 0, Done(outcome, 0)), 0))]
    ensures s'.delivered == if outcome == Acknowledged then s.delivered + {id} else s.delivered
  {
    var task := Task(token, id);
    var s1 := InsertAndClaim(s, id, token);
    var s2 := SendAndReturn(s1, task, outcome);
    s' := Reach(3, s2, Settle(task, 0));
    assert s'.holds == s.holds;
  }

  lemma SendAndReturn(s: System, task: Task, outcome: Outcome) returns (s': System)
    requires Reachable(3, s) && task in s.holds && s.holds[task] == Hold(0, 0, Ready) && s.clock == 0
    ensures Reachable(3, s')
    ensures s' == s.(holds := s.holds[task := Hold(0, 0, Done(outcome, 0))], log := s'.log)
  {
    var s1 := Reach(3, s, Send(task));
    s' := Reach(3, s1, Return(task, outcome));
    assert s'.holds == s.holds[task := Hold(0, 0, Done(outcome, 0))];
  }

  /**
   * A run in which the repository's cleanup batch, passing over one locked row, is a
   * delivered message, and the earlier quarantined one is then reopened behind it.
   */
  lemma SkippedRowReopensAnEarlierMessage() returns (before: System, s: System)
    ensures Reachable(3, before) && IsOldest(SweepRanks(before.rows, 1, {1}), [2], 1)
    ensures Reachable(3, s) && s.rows.Keys == before.rows.Keys - {2}
    ensures 2 in s.delivered && 1 in s.inserted && 2 in s.inserted && Ahead(s.inserted, 1, 2)
    ensures 1 in s.left && 1 in s.rows && s.rows[1].status == Pending
  {
    StartReachable(3);
    var s1 := Deliver(START, 1, 7, Permanent("E"));
    before := Deliver(s1, 2, 8, Acknowledged);
    s := SkipAndRedrive(before);
  }

  lemma SkipAndRedrive(s: System) returns (s': System)
    requires Reachable(3, s) && s.rows.Keys == {1, 2} && s.rows[1].status == Quarantined
    requires Sweepable(s.rows[1], 1) && Sweepable(s.rows[2], 1) && Earlier(s.rows, 1, 2)
    ensures Reachable(3, s') && s'.inserted == s.inserted && s'.delivered == s.delivered
    ensures s'.holds == s.holds && 1 in s'.left
    ensures s'.rows.Keys == {1} && s'.rows[1].status == Pending
  {
    var s1 := Reach(3, s, Sweep(1, {2}, {1}));
    assert s1.rows.Keys == {1};
    s' := Reach(3, s1, Redrive(1, 0));
  }

  /**
   * A run to a worker that is about to overtake: its lease expired, another worker
   * delivered its message, a cleanup removed that past an earlier quarantined one whose
   * row was locked, and the earlier one was reopened.
   */
  lemma LateSendOvertakesTheReopened() returns (s: System)
    ensures Reachable(3, s) && Enabled(s, Send(Task(8, 2)))
    ensures 1 in s.inserted && 2 in s.inserted && Ahead(s.inserted, 1, 2)
    ensures 1 in s.rows && s.rows[1].status == Pending && 2 !in s.rows && 1 in s.left
  {
    StartReachable(3);
    var s1 := Deliver(START, 1, 7, Permanent("E"));
    var s2 := InsertAndClaim(s1, 2, 8);
    var s3 := DeliverAgain(s2);
    s := SkipAndRedrive(s3);
  }

  /** A second worker takes message 2 over from an expired lease and delivers it. */
  lemma DeliverAgain(s: System) returns (s': System)
    requires Reachable(3, s) && s.clock == 0 && 9 !in s.tokens
    requires s.rows.Keys == {1, 2} && s.rows[1].Terminal()
    requires s.rows[2] == ClaimRow(NewRow("k", 0), 8, 1)
    requires s.holds.Keys == {Task(8, 2)} && s.holds[Task(8, 2)].phase == Ready
    ensures Reachable(3, s') && s'.inserted == s.inserted && s'.rows.Keys == {1, 2}
    ensures s'.rows[1] == s.rows[1] && Sweepable(s'.rows[2], 1)
    ensures s'.rows[2].key == "k" && s'.rows[2].createdAt == 0
    ensures s'.holds == s.holds
  {
    var s1 := TakeOver(s);
    var s2 := SendAndReturn(s1, Task(9, 2), Acknowledged);
    s' := Reach(3, s2, Settle(Task(9, 2), 0));
    assert s'.holds == s.holds;
  }

  lemma TakeOver(s: System) returns (s': System)
    requires Reachable(3, s) && s.clock == 0 && 9 !in s.tokens
    requires s.rows.Keys == {1, 2} && s.rows[1].Terminal()
    requires s.rows[2] == ClaimRow(NewRow("k", 0), 8, 1) && s.holds.Keys == {Task(8, 2)}
    ensures Reachable(3, s') && s'.inserted == s.inserted && s'.clock == 0
    ensures s'.rows == s.rows[2 := ClaimRow(NewRow("k", 0), 9, 2)]
    ensures s'.holds == s.holds[Task(9, 2) := Hold(0, 0, Ready)]
  {
    assert Claimable(s.rows, 2, 1);
    s' := Reach(3, s, Claim(9, 1, 2, {2}));
    ClaimOneShape(s, 2, 9, 2);
  }
}
