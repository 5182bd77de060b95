/**
 * The breaker with any number of overlapping calls, over whole runs.
 *
 * A call is admitted in one lock section and finishes in another; between the two
 * anything may happen. The log keeps what an observer outside the breaker sees:
 * admissions, the ends of calls and the trips, with their times.
 */
module CircuitBreakerRuns {
  import opened Prelude
  import opened CircuitBreakers

  /** How the wrapped call ended: a refusal is an error that is no failure. */
  datatype Ending = Returned | Refused | Broke | Dropped

  datatype Event =
    | Admission(at: real)
    | End(ticket: Ticket, ending: Ending)
    | Trip(at: real)

  datatype System = System(
    core: Core,
    clock: real,
    calls: map<nat, Ticket>,
    log: seq<Event>)

  datatype Step =
    | Tick(to: real)
    | Call(id: nat, token: Probe)
    | Finish(id: nat, ending: Ending)

  const START: System := System(FRESH, 0.0, map[], [])

  predicate FreshToken(s: System, token: Probe) {
    && s.core.probe != Some(token)
    && forall id | id in s.calls :: s.calls[id].probe != Some(token)
  }

  predicate Enabled(s: System, step: Step) {
    match step
    case Tick(to) => s.clock <= to
    case Call(id, token) => id !in s.calls && FreshToken(s, token)
    case Finish(id, _) => id in s.calls
  }

  /** The closing lock section: which handler runs for which ending. */
  function Ended(c: Config, b: Core, t: Ticket, ending: Ending, now: real): Core {
    match ending
    case Returned => Succeeded(b, t)
    case Refused => Succeeded(b, t)
    case Broke => Failed(c, b, t, now)
    case Dropped => Released(b, t)
  }

  function AfterCall(c: Config, s: System, id: nat, token: Probe): System {
    var (core, ticket) := Admitted(c, s.core, s.clock, token);
    if ticket.None? then s.(core := core)
    else s.(core := core, calls := s.calls[id := ticket.value],
            log := s.log + [Admission(s.clock)])
  }

  function AfterFinish(c: Config, s: System, id: nat, ending: Ending): System
    requires id in s.calls
  {
    var t := s.calls[id];
    var core := Ended(c, s.core, t, ending, s.clock);
    var log := s.log + [End(t, ending)];
    System(core, s.clock, s.calls - {id},
           if core.state == Open && s.core.state != Open then log + [Trip(s.clock)] else log)
  }

  function Apply(c: Config, s: System, step: Step): System
    requires Enabled(s, step)
  {
    match step
    case Tick(to) => s.(clock := to)
    case Call(id, token) => AfterCall(c, s, id, token)
    case Finish(id, ending) => AfterFinish(c, s, id, ending)
  }

  predicate ValidRun(c: Config, s: System, steps: seq<Step>)
    decreases |steps|
  {
    steps == [] || (Enabled(s, steps[0]) && ValidRun(c, Apply(c, s, steps[0]), steps[1..]))
  }

  function Exec(c: Config, s: System, steps: seq<Step>): System
    requires ValidRun(c, s, steps)
    decreases |steps|
  {
    if steps == [] then s else Exec(c, Apply(c, s, steps[0]), steps[1..])
  }

  /**
   * The reference: failures of ordinary calls of one generation since the last
   * success of that generation, read off the log alone.
   */
  function Streak(log: seq<Event>, generation: nat): nat {
    if log == [] then 0
    else StreakAfter(Streak(log[..|log| - 1], generation), log[|log| - 1], generation)
  }

  function StreakAfter(streak: nat, e: Event, generation: nat): nat {
    if !e.End? || e.ticket.probe.Some? || e.ticket.generation != generation || e.ending == Dropped
    then streak
    else if e.ending == Broke then streak + 1
    else 0
  }

  // The invariant, one predicate per concern.

  predicate ProbesAgree(b: Core, calls: map<nat, Ticket>) {
    && (b.probing <==> b.probe.Some?)
    && (b.probe.Some? ==> b.state == HalfOpen)
    && (b.probe.Some? ==> exists id :: id in calls && calls[id].probe == b.probe)
    && (forall id | id in calls && calls[id].probe.Some? :: b.probe == calls[id].probe)
    && (forall i, j | i in calls && j in calls && calls[i].probe.Some? && calls[j].probe.Some?
          :: i == j)
  }

  predicate GenerationsAgree(b: Core, calls: map<nat, Ticket>, log: seq<Event>) {
    && (forall id | id in calls :: calls[id].generation <= b.generation)
    && (forall id | id in calls && calls[id].probe.None? && calls[id].generation == b.generation
          :: b.state == Closed)
    && (forall id | id in calls && calls[id].probe.Some? :: calls[id].generation == b.generation)
    && (forall e | e in log && e.End? :: e.ticket.generation <= b.generation)
  }

  predicate FailuresAgree(c: Config, b: Core, log: seq<Event>) {
    b.state == Closed ==> b.failures == Streak(log, b.generation) < c.failMax
  }

  predicate TimesAgree(c: Config, b: Core, clock: real, log: seq<Event>) {
    && (b.state == Open ==> b.openedAt.Some? && b.openedAt.value <= clock)
    && (forall e | e in log && e.Trip? ::
          if b.state == Open then e.at <= b.openedAt.value
          else e.at + c.recoveryTimeout <= clock)
    && (forall i, j | 0 <= i < j < |log| && log[i].Trip? && log[j].Admission? ::
          log[i].at + c.recoveryTimeout <= log[j].at)
  }

  /** The time of the last trip in the log. */
  function LastTrip(log: seq<Event>): Option<real> {
    if log == [] then None
    else if log[|log| - 1].Trip? then Some(log[|log| - 1].at)
    else LastTrip(log[..|log| - 1])
  }

  lemma LastTripSnoc(log: seq<Event>, e: Event)
    ensures LastTrip(log + [e]) == if e.Trip? then Some(e.at) else LastTrip(log)
  {
    assert (log + [e])[..|log|] == log;
  }

  predicate TripsAgree(b: Core, log: seq<Event>) {
    b.state == Open ==> b.openedAt.Some? && LastTrip(log) == b.openedAt
  }

  predicate Inv(c: Config, s: System) {
    && ProbesAgree(s.core, s.calls)
    && GenerationsAgree(s.core, s.calls, s.log)
    && FailuresAgree(c, s.core, s.log)
    && TimesAgree(c, s.core, s.clock, s.log)
    && TripsAgree(s.core, s.log)
  }

  lemma {:induction false} NoEventsNoStreak(log: seq<Event>, generation: nat)
    requires forall e | e in log && e.End? :: e.ticket.generation < generation
    ensures Streak(log, generation) == 0
  {
    if log != [] {
      var rest := log[..|log| - 1];
      assert forall e | e in rest :: e in log;
      assert log[|log| - 1] in log;
      NoEventsNoStreak(rest, generation);
    }
  }

  lemma StreakSnoc(log: seq<Event>, e: Event, generation: nat)
    ensures Streak(log + [e], generation) == StreakAfter(Streak(log, generation), e, generation)
  {
    assert (log + [e])[..|log|] == log;
  }

  lemma CallKeepsProbes(c: Config, s: System, id: nat, token: Probe)
    requires ProbesAgree(s.core, s.calls) && Enabled(s, Call(id, token))
    ensures ProbesAgree(AfterCall(c, s, id, token).core, AfterCall(c, s, id, token).calls)
  {
    var s' := AfterCall(c, s, id, token);
    if s'.core.probe.Some? && s'.core.probe != s.core.probe {
      assert s'.calls[id].probe == s'.core.probe;
    } else if s.core.probe.Some? {
      var p :| p in s.calls && s.calls[p].probe == s.core.probe;
      assert p in s'.calls && s'.calls[p] == s.calls[p];
    }
  }

  lemma CallKeepsTimes(c: Config, s: System, id: nat, token: Probe)
    requires c.Valid() && TimesAgree(c, s.core, s.clock, s.log) && Enabled(s, Call(id, token))
    ensures var s' := AfterCall(c, s, id, token);
            TimesAgree(c, s'.core, s'.clock, s'.log)
  {
    var s' := AfterCall(c, s, id, token);
    forall e | e in s'.log && e.Trip?
      ensures if s'.core.state == Open then e.at <= s'.core.openedAt.value
              else e.at + c.recoveryTimeout <= s'.clock
    {
      assert e in s.log;
    }
    forall i, j | 0 <= i < j < |s'.log| && s'.log[i].Trip? && s'.log[j].Admission?
      ensures s'.log[i].at + c.recoveryTimeout <= s'.log[j].at
    {
      assert s'.log[i] == s.log[i] && s.log[i] in s.log;
    }
  }

  lemma CallKeepsTrips(c: Config, s: System, id: nat, token: Probe)
    requires TripsAgree(s.core, s.log) && Enabled(s, Call(id, token))
    ensures TripsAgree(AfterCall(c, s, id, token).core, AfterCall(c, s, id, token).log)
  {
    LastTripSnoc(s.log, Admission(s.clock));
  }

  lemma CallKeepsGenerations(c: Config, s: System, id: nat, token: Probe)
    requires GenerationsAgree(s.core, s.calls, s.log) && Enabled(s, Call(id, token))
    ensures var s' := AfterCall(c, s, id, token);
            GenerationsAgree(s'.core, s'.calls, s'.log)
  {
    var s' := AfterCall(c, s, id, token);
    forall e | e in s'.log && e.End?
      ensures e.ticket.generation <= s'.core.generation
    {
      assert e in s.log;
    }
  }

  lemma CallKeepsFailures(c: Config, s: System, id: nat, token: Probe)
    requires FailuresAgree(c, s.core, s.log) && Enabled(s, Call(id, token))
    ensures FailuresAgree(c, AfterCall(c, s, id, token).core, AfterCall(c, s, id, token).log)
  {
    StreakSnoc(s.log, Admission(s.clock), s.core.generation);
  }

  lemma CallKeepsInv(c: Config, s: System, id: nat, token: Probe)
    requires c.Valid() && Inv(c, s)
    requires Enabled(s, Call(id, token))
    ensures Inv(c, AfterCall(c, s, id, token))
  {
    CallKeepsProbes(c, s, id, token);
    CallKeepsGenerations(c, s, id, token);
    CallKeepsFailures(c, s, id, token);
    CallKeepsTimes(c, s, id, token);
    CallKeepsTrips(c, s, id, token);
  }

  lemma FinishKeepsProbes(c: Config, s: System, id: nat, ending: Ending)
    requires Inv(c, s) && id in s.calls
    ensures ProbesAgree(AfterFinish(c, s, id, ending).core, AfterFinish(c, s, id, ending).calls)
  {
    var s' := AfterFinish(c, s, id, ending);
    if s'.core.probe.Some? {
      var p :| p in s.calls && s.calls[p].probe == s.core.probe;
      assert p in s'.calls && s'.calls[p] == s.calls[p];
    }
  }

  /** The trip that may follow the end of a call leaves the streak alone. */
  lemma FinishStreak(c: Config, s: System, id: nat, ending: Ending, generation: nat)
    requires id in s.calls
    ensures Streak(AfterFinish(c, s, id, ending).log, generation)
            == StreakAfter(Streak(s.log, generation), End(s.calls[id], ending), generation)
  {
    StreakSnoc(s.log, End(s.calls[id], ending), generation);
    StreakSnoc(s.log + [End(s.calls[id], ending)], Trip(s.clock), generation);
  }

  /** In CLOSED, the end of a call moves the counter as it moves the streak. */
  lemma EndedCounts(c: Config, b: Core, t: Ticket, ending: Ending, now: real)
    requires c.Valid() && b.state == Closed && b.failures < c.failMax
    ensures var b' := Ended(c, b, t, ending, now);
            var streak := StreakAfter(b.failures, End(t, ending), b.generation);
            && b'.state != HalfOpen && (b'.state == Open <==> streak == c.failMax)
            && (b'.state == Closed ==>
                  b'.generation == b.generation && b'.failures == streak < c.failMax)
  {
  }

  lemma FinishKeepsFailures(c: Config, s: System, id: nat, ending: Ending)
    requires c.Valid() && id in s.calls && FailuresAgree(c, s.core, s.log)
    requires GenerationsAgree(s.core, s.calls, s.log)
    ensures FailuresAgree(c, AfterFinish(c, s, id, ending).core, AfterFinish(c, s, id, ending).log)
  {
    var s' := AfterFinish(c, s, id, ending);
    if s.core.state == Closed {
      FinishStreak(c, s, id, ending, s.core.generation);
      EndedCounts(c, s.core, s.calls[id], ending, s.clock);
    } else if s'.core.state == Closed {
      forall e | e in s'.log && e.End?
        ensures e.ticket.generation < s'.core.generation
      {
        assert e in s.log || e == End(s.calls[id], ending) || e == Trip(s.clock);
      }
      NoEventsNoStreak(s'.log, s'.core.generation);
    }
  }

  lemma FinishKeepsGenerations(c: Config, s: System, id: nat, ending: Ending)
    requires id in s.calls && GenerationsAgree(s.core, s.calls, s.log)
    requires ProbesAgree(s.core, s.calls)
    ensures var s' := AfterFinish(c, s, id, ending);
            GenerationsAgree(s'.core, s'.calls, s'.log)
  {
    var s' := AfterFinish(c, s, id, ending);
    forall e | e in s'.log && e.End?
      ensures e.ticket.generation <= s'.core.generation
    {
      assert e in s.log || e == End(s.calls[id], ending) || e == Trip(s.clock);
    }
  }

  lemma FinishKeepsTrips(c: Config, s: System, id: nat, ending: Ending)
    requires id in s.calls && TripsAgree(s.core, s.log)
    ensures TripsAgree(AfterFinish(c, s, id, ending).core, AfterFinish(c, s, id, ending).log)
  {
    var log := s.log + [End(s.calls[id], ending)];
    LastTripSnoc(s.log, End(s.calls[id], ending));
    LastTripSnoc(log, Trip(s.clock));
  }

  lemma FinishKeepsTimes(c: Config, s: System, id: nat, ending: Ending)
    requires c.Valid() && id in s.calls && TimesAgree(c, s.core, s.clock, s.log)
    ensures var s' := AfterFinish(c, s, id, ending);
            TimesAgree(c, s'.core, s'.clock, s'.log)
  {
    var s' := AfterFinish(c, s, id, ending);
    forall e | e in s'.log && e.Trip?
      ensures if s'.core.state == Open then e.at <= s'.core.openedAt.value
              else e.at + c.recoveryTimeout <= s'.clock
    {
      assert e in s.log || e == End(s.calls[id], ending) || e == Trip(s.clock);
    }
  }

  lemma FinishKeepsInv(c: Config, s: System, id: nat, ending: Ending)
    requires c.Valid() && Inv(c, s)
    requires id in s.calls
    ensures Inv(c, AfterFinish(c, s, id, ending))
  {
    FinishKeepsProbes(c, s, id, ending);
    FinishKeepsGenerations(c, s, id, ending);
    FinishKeepsFailures(c, s, id, ending);
    FinishKeepsTimes(c, s, id, ending);
    FinishKeepsTrips(c, s, id, ending);
  }

  lemma StepKeepsInv(c: Config, s: System, step: Step)
    requires c.Valid() && Inv(c, s) && Enabled(s, step)
    ensures Inv(c, Apply(c, s, step))
  {
    match step
    case Tick(_) =>
    case Call(id, token) => CallKeepsInv(c, s, id, token);
    case Finish(id, ending) => FinishKeepsInv(c, s, id, ending);
  }

  lemma {:induction false} RunKeepsInv(c: Config, s: System, steps: seq<Step>)
    requires c.Valid() && Inv(c, s) && ValidRun(c, s, steps)
    ensures Inv(c, Exec(c, s, steps))
    decreases |steps|
  {
    if steps != [] {
      StepKeepsInv(c, s, steps[0]);
      RunKeepsInv(c, Apply(c, s, steps[0]), steps[1..]);
    }
  }

  lemma ReachableInv(c: Config, steps: seq<Step>)
    requires c.Valid() && ValidRun(c, START, steps)
    ensures Inv(c, Exec(c, START, steps))
  {
    RunKeepsInv(c, START, steps);
  }

  /**
   * In every reachable state at most one probe call is in flight, a probe slot is
   * taken exactly while that call is, and only in HALF_OPEN.
   */
  lemma SingleProbe(c: Config, steps: seq<Step>)
    requires c.Valid() && ValidRun(c, START, steps)
    ensures var s := Exec(c, START, steps);
            && (forall i, j | i in s.calls && j in s.calls
                  && s.calls[i].probe.Some? && s.calls[j].probe.Some? :: i == j)
            && (s.core.probing <==> exists id :: id in s.calls && s.calls[id].probe.Some?)
            && (forall id | id in s.calls && s.calls[id].probe.Some? ::
                  s.calls[id].probe == s.core.probe)
            && (s.core.probing ==> s.core.state == HalfOpen)
  {
    ReachableInv(c, steps);
  }

  /** The end of a call admitted in an earlier generation changes nothing. */
  lemma StaleEndIgnored(c: Config, steps: seq<Step>, id: nat, ending: Ending)
    requires c.Valid() && ValidRun(c, START, steps)
    requires id in Exec(c, START, steps).calls
    requires Exec(c, START, steps).calls[id].generation < Exec(c, START, steps).core.generation
    ensures Apply(c, Exec(c, START, steps), Finish(id, ending)).core == Exec(c, START, steps).core
  {
    ReachableInv(c, steps);
  }

  /** In CLOSED the counter is the streak of the log, and the streak is below the limit. */
  lemma CounterIsStreak(c: Config, steps: seq<Step>)
    requires c.Valid() && ValidRun(c, START, steps)
    requires Exec(c, START, steps).core.state == Closed
    ensures var s := Exec(c, START, steps);
            s.core.failures == Streak(s.log, s.core.generation) < c.failMax
  {
    ReachableInv(c, steps);
  }

  /** From CLOSED the breaker opens on a step exactly when that step makes the streak reach the limit. */
  lemma OpensExactlyAtLimit(c: Config, steps: seq<Step>, step: Step)
    requires c.Valid() && ValidRun(c, START, steps)
    requires Enabled(Exec(c, START, steps), step)
    requires Exec(c, START, steps).core.state == Closed
    ensures var s := Exec(c, START, steps);
            var s' := Apply(c, s, step);
            && s'.core.state != HalfOpen
            && (s'.core.state == Open <==> Streak(s'.log, s.core.generation) == c.failMax)
  {
    ReachableInv(c, steps);
    var s := Exec(c, START, steps);
    match step
    case Tick(_) =>
    case Call(_, _) => StreakSnoc(s.log, Admission(s.clock), s.core.generation);
    case Finish(id, ending) => FinishOpensAtLimit(c, s, id, ending);
  }

  lemma FinishOpensAtLimit(c: Config, s: System, id: nat, ending: Ending)
    requires c.Valid() && FailuresAgree(c, s.core, s.log) && id in s.calls
    requires s.core.state == Closed
    ensures var s' := AfterFinish(c, s, id, ending);
            && s'.core.state != HalfOpen
            && (s'.core.state == Open <==> Streak(s'.log, s.core.generation) == c.failMax)
  {
    FinishStreak(c, s, id, ending, s.core.generation);
    EndedCounts(c, s.core, s.calls[id], ending, s.clock);
  }

  /** From HALF_OPEN only the end of the probe call moves the breaker, and its ending decides where. */
  lemma ProbeDecides(c: Config, steps: seq<Step>, step: Step)
    requires c.Valid() && ValidRun(c, START, steps)
    requires Enabled(Exec(c, START, steps), step)
    requires Exec(c, START, steps).core.state == HalfOpen
    ensures var s := Exec(c, START, steps);
            var s' := Apply(c, s, step);
            var probeEnds := step.Finish? && s.calls[step.id].probe.Some?;
            && (s'.core.state == Closed
                <==> probeEnds && (step.ending == Returned || step.ending == Refused))
            && (s'.core.state == Open <==> probeEnds && step.ending == Broke)
            && (probeEnds ==> !s'.core.probing)
  {
    ReachableInv(c, steps);
  }

  /** No call is admitted earlier than the recovery timeout after any trip before it. */
  lemma AdmissionWaitsForRecovery(c: Config, steps: seq<Step>, i: nat, j: nat)
    requires c.Valid() && ValidRun(c, START, steps)
    requires i < j < |Exec(c, START, steps).log|
    requires Exec(c, START, steps).log[i].Trip? && Exec(c, START, steps).log[j].Admission?
    ensures Exec(c, START, steps).log[i].at + c.recoveryTimeout <= Exec(c, START, steps).log[j].at
  {
    ReachableInv(c, steps);
  }

  /**
   * Who is admitted. From CLOSED every call, without a probe token. From OPEN the call
   * that comes when the recovery timeout has passed since the last trip, as the probe.
   * From HALF_OPEN a call when no probe is in flight, as the probe.
   */
  lemma AdmissionExactly(c: Config, steps: seq<Step>, id: nat, token: Probe)
    requires c.Valid() && ValidRun(c, START, steps)
    requires Enabled(Exec(c, START, steps), Call(id, token))
    ensures var s := Exec(c, START, steps);
            var s' := Apply(c, s, Call(id, token));
            var probing := exists p :: p in s.calls && s.calls[p].probe.Some?;
            && s'.clock == s.clock && (id !in s'.calls ==> s'.calls == s.calls && s'.log == s.log)
            && (id in s'.calls ==> s'.calls == s.calls[id := s'.calls[id]]
                                   && s'.log == s.log + [Admission(s.clock)])
            && (s.core.state == Closed ==>
                  s'.core == s.core && id in s'.calls && s'.calls[id].probe.None?)
            && (s.core.state == Open ==>
                  && LastTrip(s.log).Some?
                  && (id in s'.calls <==> LastTrip(s.log).value + c.recoveryTimeout <= s.clock)
                  && s'.core.state == if id in s'.calls then HalfOpen else Open)
            && (s.core.state == HalfOpen ==>
                  (id in s'.calls <==> !probing) && s'.core.state == HalfOpen)
            && (s.core.state != Closed && id in s'.calls ==> s'.calls[id].probe == Some(token))
  {
    ReachableInv(c, steps);
  }
}
