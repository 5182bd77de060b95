/**
 * The circuit breaker: what each section under its lock does to the fields.
 *
 * A lock section never suspends, so each one is a single step. `Core` is the value
 * of the fields; the class below updates those fields in place and is proved
 * against the functions on `Core`.
 */
module CircuitBreakers {
  import opened Prelude

  datatype Circuit = Closed | Open | HalfOpen

  /** The identity of an `object()` made for one probe call. */
  type Probe = nat

  datatype Config = Config(failMax: int, recoveryTimeout: real) {
    predicate Valid() { 0 < failMax && 0.0 < recoveryTimeout }
  }

  datatype ConfigError = FailMaxNotPositive | RecoveryTimeoutNotPositive

  datatype Core = Core(
    state: Circuit,
    failures: nat,
    openedAt: Option<real>,
    probing: bool,
    probe: Option<Probe>,
    generation: nat)

  /** What an admitted call keeps until it finishes. */
  datatype Ticket = Ticket(generation: nat, probe: Option<Probe>)

  const FRESH: Core := Core(Closed, 0, None, false, None, 0)

  function Cooled(c: Config, b: Core, now: real): Core {
    if b.state == Open && b.openedAt.Some? && now - b.openedAt.value >= c.recoveryTimeout
    then b.(state := HalfOpen)
    else b
  }

  function Tripped(b: Core, now: real): Core {
    b.(state := Open, openedAt := Some(now), probing := false, probe := None,
       generation := b.generation + 1)
  }

  /** The opening lock section of a call: `None` is a refusal. */
  function Admitted(c: Config, b: Core, now: real, token: Probe): (Core, Option<Ticket>) {
    var d := Cooled(c, b, now);
    match d.state
    case Open => (d, None)
    case HalfOpen =>
      if d.probing then (d, None)
      else (d.(probing := true, probe := Some(token)), Some(Ticket(d.generation, Some(token))))
    case Closed => (d, Some(Ticket(d.generation, None)))
  }

  predicate CurrentProbe(b: Core, t: Ticket) {
    t.probe.Some? && b.state == HalfOpen && b.probe == t.probe
  }

  predicate CurrentClosedCall(b: Core, t: Ticket) {
    t.probe.None? && b.state == Closed && b.generation == t.generation
  }

  function Succeeded(b: Core, t: Ticket): Core {
    if CurrentProbe(b, t) then Core(Closed, 0, None, false, None, b.generation + 1)
    else if CurrentClosedCall(b, t) then b.(failures := 0)
    else b
  }

  function Failed(c: Config, b: Core, t: Ticket, now: real): Core {
    if !CurrentProbe(b, t) && !CurrentClosedCall(b, t) then b
    else
      var d := b.(failures := b.failures + 1);
      if CurrentProbe(b, t) || d.failures >= c.failMax then Tripped(d, now) else d
  }

  function Released(b: Core, t: Ticket): Core {
    if CurrentProbe(b, t) then b.(probing := false, probe := None) else b
  }

  class CircuitBreaker {
    const config: Config
    var state: Circuit
    var failures: nat
    var openedAt: Option<real>
    var probing: bool
    var probe: Option<Probe>
    var generation: nat

    ghost function View(): Core
      reads this
    {
      Core(state, failures, openedAt, probing, probe, generation)
    }

    constructor (config: Config)
      requires config.Valid()
      ensures this.config == config && View() == FRESH
    {
      this.config := config;
      state, failures, openedAt := Closed, 0, None;
      probing, probe, generation := false, None, 0;
    }

    /** Construction with the source's two `ValueError`s. */
    static method Create(config: Config) returns (r: Result<CircuitBreaker, ConfigError>)
      ensures r.Ok? <==> config.Valid()
      ensures r.Ok? ==> fresh(r.value) && r.value.config == config && r.value.View() == FRESH
      ensures r.Err? ==> (r.error == FailMaxNotPositive <==> config.failMax <= 0)
    {
      if config.failMax <= 0 {
        return Err(FailMaxNotPositive);
      }
      if config.recoveryTimeout <= 0.0 {
        return Err(RecoveryTimeoutNotPositive);
      }
      var breaker := new CircuitBreaker(config);
      return Ok(breaker);
    }

    method CheckState(now: real)
      modifies this
      ensures View() == Cooled(config, old(View()), now)
    {
      if state == Open {
        if openedAt.Some? && now - openedAt.value >= config.recoveryTimeout {
          state := HalfOpen;
        }
      }
    }

    method Trip(now: real)
      modifies this
      ensures View() == Tripped(old(View()), now)
    {
      state := Open;
      openedAt := Some(now);
      probing := false;
      probe := None;
      generation := generation + 1;
    }

    method Admit(now: real, token: Probe) returns (ticket: Option<Ticket>)
      modifies this
      ensures (View(), ticket) == Admitted(config, old(View()), now, token)
    {
      CheckState(now);
      if state == Open {
        return None;
      }
      var mine: Option<Probe> := None;
      if state == HalfOpen {
        if probing {
          return None;
        }
        mine := Some(token);
        probing := true;
        probe := mine;
      }
      return Some(Ticket(generation, mine));
    }

    method HandleSuccess(t: Ticket)
      modifies this
      ensures View() == Succeeded(old(View()), t)
    {
      if t.probe.Some? && state == HalfOpen && probe == t.probe {
        state := Closed;
        failures := 0;
        openedAt := None;
        probing := false;
        probe := None;
        generation := generation + 1;
      } else if t.probe.None? && state == Closed && generation == t.generation {
        failures := 0;
      }
    }

    method HandleFailure(t: Ticket, now: real)
      modifies this
      ensures View() == Failed(config, old(View()), t, now)
    {
      var currentProbe := t.probe.Some? && state == HalfOpen && probe == t.probe;
      var currentClosed := t.probe.None? && state == Closed && generation == t.generation;
      if !currentProbe && !currentClosed {
        return;
      }
      failures := failures + 1;
      if currentClosed {
        if failures >= config.failMax {
          Trip(now);
        }
      } else {
        Trip(now);
      }
    }

    method ReleaseProbe(t: Ticket)
      modifies this
      ensures View() == Released(old(View()), t)
    {
      if t.probe.None? {
        return;
      }
      if state == HalfOpen && probe == t.probe {
        probing := false;
        probe := None;
      }
    }
  }
}
