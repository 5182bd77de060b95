/** Runs that show what the idempotency layer does not promise. */
module RefreshWitnesses {
  import opened Prelude
  import opened AuthSessions
  import opened DurableFence
  import opened HotStore
  import opened RefreshRuns
  import opened RefreshSafety

  const CONFIG := Config(10, 5, 100)

  lemma {:induction false} ExecSnoc(c: Config, s: System, steps: seq<Step>, step: Step)
    requires ValidRun(c, s, steps) && Enabled(Exec(c, s, steps), step)
    ensures ValidRun(c, s, steps + [step])
    ensures Exec(c, s, steps + [step]) == Apply(c, Exec(c, s, steps), step)
    decreases |steps|
  {
    if steps == [] {
      assert [step][1..] == [];
    } else {
      assert (steps + [step])[1..] == steps[1..] + [step];
      ExecSnoc(c, Apply(c, s, steps[0]), steps[1..], step);
    }
  }

  lemma Reach(c: Config, s: System, step: Step) returns (s': System)
    requires Reachable(c, s) && Enabled(s, step)
    ensures s' == Apply(c, s, step) && Reachable(c, s')
  {
    s' := Apply(c, s, step);
    var steps :| ValidRun(c, START, steps) && Exec(c, START, steps) == s;
    ExecSnoc(c, START, steps, step);
  }

  lemma StartReachable(c: Config)
    ensures Reachable(c, START)
  {
    assert ValidRun(c, START, []);
  }

  /** A request arrives, and the hot store grants it the lease. */
  lemma ArriveAndLease(s: System, pid: nat, i: Identity, presented: Digest, hash: Digest,
                       owner: Owner)
    returns (s': System)
    requires Reachable(CONFIG, s) && |hash| == DIGEST_LENGTH
    requires pid !in s.requests && owner !in s.owners && i !in s.hot
    ensures Reachable(CONFIG, s')
    ensures s' == s.(hot := s.hot[i := Processing(hash, owner, 30)],
                     owners := s.owners + {owner},
                     requests := s.requests[pid := Request(i, presented, hash,
                                                           Looking(Some(Lease(owner, false))))])
  {
    var s1 := Reach(CONFIG, s, Arrive(pid, i, presented, hash));
    s' := Reach(CONFIG, s1, BeginHot(pid, owner, 30, true));
    assert s'.requests == s.requests[pid := Request(i, presented, hash,
                                                    Looking(Some(Lease(owner, false))))];
  }

  /** A request arrives, and the hot store answers it. */
  lemma ArriveAndHear(s: System, pid: nat, i: Identity, presented: Digest, hash: Digest,
                      owner: Owner, outcome: Outcome<Stored>)
    returns (s': System)
    requires Reachable(CONFIG, s) && |hash| == DIGEST_LENGTH
    requires pid !in s.requests && owner !in s.owners && i in s.hot
    requires Decoded(BeginScript(Some(s.hot[i]), hash, owner, 30).1, hash)
             == (match outcome
                 case Replay(c) => Ok(Replayed(c))
                 case _ => Ok(Conflicting))
    requires outcome.Replay? || outcome.Conflict?
    ensures Reachable(CONFIG, s')
    ensures s'.answers == s.answers + [Answer(i, hash, outcome, Cache)]
    ensures s'.commits == s.commits && s'.records == s.records
    ensures s'.requests.Keys == s.requests.Keys + {pid}
  {
    var s1 := Reach(CONFIG, s, Arrive(pid, i, presented, hash));
    s' := Reach(CONFIG, s1, BeginHot(pid, owner, 30, true));
  }

  /**
   * The hot store answers CONFLICT although nothing was ever committed for the key:
   * the request that held the lease had another hash, and died before committing.
   */
  lemma ConflictWithoutAnyCommit(i: Identity, hash: Digest, other: Digest) returns (s: System)
    requires |hash| == DIGEST_LENGTH && |other| == DIGEST_LENGTH && hash != other
    ensures Reachable(CONFIG, s)
    ensures s.answers == [Answer(i, other, Conflict, Cache)]
    ensures s.commits == [] && s.records == map[] && s.requests.Keys == {2}
  {
    StartReachable(CONFIG);
    var s1 := ArriveAndLease(START, 1, i, "a", hash, 7);
    var s2 := ArriveAndHear(s1, 2, i, "b", other, 8, Conflict);
    s := Reach(CONFIG, s2, Dies(1));
  }

  function Sealed(hash: Digest): Completed<Stored> { Completed(hash, Rotated(0, 1)) }

  function BeforeRotation(): Store {
    Store(map[0 := Session(0, 0, 10, None)], map[0 := RefreshToken(0, 0, "a", 0, None)])
  }

  function AfterRotation(): Store {
    Store(map[0 := Session(0, 0, 10, None)],
          map[0 := RefreshToken(0, 0, "a", 0, Some(0)), 1 := RefreshToken(1, 0, "b", 0, None)])
  }

  function AfterReuse(): Store {
    AfterRotation().(sessions := map[0 := Session(0, 0, 10, Some(0))])
  }

  function Cached(hash: Digest): Entry<Stored> {
    Entry(Some("1"), Some("completed"), Some(hash), None, Some(Encoded(Sealed(hash))), 100)
  }

  lemma FirstUseRotates(pass: Pass)
    requires pass == Runs(Some(0), true, 1, "b", 0, 0, Acknowledged)
    ensures Refresh(CONFIG, BeforeRotation(), pass, 0)
            == Ok(Refreshed(AfterRotation(), Rotated(0, 1), Rotation(0, 0, 1)))
  {
    var a := Loaded(BeforeRotation(), 0);
    var used := RefreshToken(0, 0, "a", 0, Some(0));
    var new' := RefreshToken(1, 0, "b", 0, None);
    var b := Aggregate(0, a.session, Some(used), Some(new'));
    assert "a"[0] != "b"[0];
    assert Rotate(a, 0, 10, 1, "b") == Ok(b);
    var st1 := Store(BeforeRotation().sessions[0 := a.session], BeforeRotation().tokens[0 := used]);
    assert TokenFits(st1, new');
    assert st1.sessions == AfterRotation().sessions;
    assert st1.tokens[1 := new'] == AfterRotation().tokens;
  }

  lemma ReuseIsRefused(pass: Pass)
    requires pass == Runs(Some(0), true, 2, "c", 0, 0, Acknowledged)
    ensures Refresh(CONFIG, AfterRotation(), pass, 0)
            == Ok(Refreshed(AfterReuse(), Rejected, Refusal(0)))
  {
    var a := Loaded(AfterRotation(), 0);
    var b := a.(session := Session(0, 0, 10, Some(0)));
    assert AcceptsRefresh(a, 0, true) == Ok((b, false));
    assert AfterRotation().sessions[0 := b.session] == AfterReuse().sessions;
    assert AfterRotation().tokens[0 := b.token.value] == AfterReuse().tokens;
  }

  lemma LoggedIn() returns (s: System)
    ensures Reachable(CONFIG, s)
    ensures s == START.(store := BeforeRotation(), live := map[0 := 0])
  {
    StartReachable(CONFIG);
    s := Reach(CONFIG, START, Login(0, 0, 0, "a", 0));
    LoginTables(CONFIG, START, 0, 0, RefreshToken(0, 0, "a", 0, None), 0);
    assert s.store == BeforeRotation() && s.live == map[0 := 0];
  }

  /** One refresh through the hot store: committed, cached, answered. */
  lemma FirstRefresh(i: Identity, hash: Digest) returns (s: System)
    requires |hash| == DIGEST_LENGTH
    ensures Reachable(CONFIG, s)
    ensures s.store == AfterRotation() && s.owners == {7}
    ensures s.records == map[i := Record(Sealed(hash), 5)] && s.hot == map[i := Cached(hash)]
    ensures s.requests.Keys == {1}
    ensures s.answers == [Answer(i, hash, Executed(Sealed(hash)), Fence)]
  {
    var s0 := LoggedIn();
    var s1 := ArriveAndLease(s0, 1, i, "a", hash, 7);
    var s2 := Reach(CONFIG, s1, Lookup(1, 0, true));
    var pass := Runs(Some(0), true, 1, "b", 0, 0, Acknowledged);
    FirstUseRotates(pass);
    s := CommitAndCache(s2, i, hash, pass);
  }

  lemma CommitAndCache(s: System, i: Identity, hash: Digest, pass: Pass) returns (s': System)
    requires Reachable(CONFIG, s) && s.records == map[] && s.answers == []
    requires s.hot == map[i := Processing(hash, 7, 30)] && s.store == BeforeRotation()
    requires s.requests == map[1 := Request(i, "a", hash, Executing(Some(Lease(7, false))))]
    requires pass == Runs(Some(0), true, 1, "b", 0, 0, Acknowledged)
    requires Refresh(CONFIG, BeforeRotation(), pass, 0)
             == Ok(Refreshed(AfterRotation(), Rotated(0, 1), Rotation(0, 0, 1)))
    ensures Reachable(CONFIG, s')
    ensures s'.store == AfterRotation() && s'.owners == s.owners
    ensures s'.records == map[i := Record(Sealed(hash), 5)] && s'.hot == map[i := Cached(hash)]
    ensures s'.requests.Keys == {1}
    ensures s'.answers == [Answer(i, hash, Executed(Sealed(hash)), Fence)]
  {
    var s1 := Reach(CONFIG, s, Execute(1, 0, pass));
    assert s1.requests == map[1 := Request(i, "a", hash,
                                           Settling(Lease(7, false), Executed(Sealed(hash))))];
    s' := CacheResult(s1, i, hash);
  }

  lemma CacheResult(s: System, i: Identity, hash: Digest) returns (s': System)
    requires Reachable(CONFIG, s) && s.hot == map[i := Processing(hash, 7, 30)]
    requires s.requests == map[1 := Request(i, "a", hash,
                                            Settling(Lease(7, false), Executed(Sealed(hash))))]
    ensures Reachable(CONFIG, s')
    ensures s'.store == s.store && s'.owners == s.owners && s'.records == s.records
    ensures s'.hot == map[i := Cached(hash)] && s'.requests.Keys == {1}
    ensures s'.answers == s.answers + [Answer(i, hash, Executed(Sealed(hash)), Fence)]
  {
    s' := Reach(CONFIG, s, SettleHot(1, true));
    assert s'.hot == map[i := Cached(hash)];
  }

  /** A second request of the key, without the hot store, whose lookup finds nothing. */
  lemma SecondRequest(s: System, i: Identity, hash: Digest, now: Time) returns (s': System)
    requires Reachable(CONFIG, s) && 2 !in s.requests && |hash| == DIGEST_LENGTH
    requires i in s.records ==> s.records[i].expiresAt <= now
    ensures Reachable(CONFIG, s')
    ensures s' == s.(requests := s.requests[2 := Request(i, "a", hash, Executing(None))])
  {
    var s1 := ArriveWithoutHot(s, 2, i, hash);
    s' := Reach(CONFIG, s1, Lookup(2, now, true));
    assert s'.requests == s.requests[2 := Request(i, "a", hash, Executing(None))];
  }

  lemma ArriveWithoutHot(s: System, pid: nat, i: Identity, hash: Digest) returns (s': System)
    requires Reachable(CONFIG, s) && pid !in s.requests && |hash| == DIGEST_LENGTH
    ensures Reachable(CONFIG, s')
    ensures s' == s.(requests := s.requests[pid := Request(i, "a", hash, Looking(None))])
  {
    var s1 := Reach(CONFIG, s, Arrive(pid, i, "a", hash));
    s' := Reach(CONFIG, s1, Bypass(pid));
    assert s'.requests == s.requests[pid := Request(i, "a", hash, Looking(None))];
  }

  /**
   * An expired record that cleanup has not removed: the lookup does not see it, the
   * insert collides with it, the staged revocation is rolled back, and the second
   * lookup finds no winner.
   */
  lemma ExpiredRecordBlocksWithoutWinner(i: Identity, hash: Digest) returns (s: System)
    requires |hash| == DIGEST_LENGTH
    ensures Reachable(CONFIG, s) && i in s.records && s.store == AfterRotation()
    ensures 2 in s.requests && s.requests[2].phase == Raced(None)
    ensures Apply(CONFIG, s, LookAgain(2, 5, true)) == s.(requests := s.requests - {2})
  {
    var s0 := FirstRefresh(i, hash);
    var s1 := SecondRequest(s0, i, hash, 5);
    var pass := Runs(Some(0), true, 2, "c", 0, 0, Acknowledged);
    ReuseIsRefused(pass);
    s := Reach(CONFIG, s1, Execute(2, 0, pass));
  }

  /** Both requests pass the first lookup before either has committed. */
  lemma BothLookedUp(i: Identity, hash: Digest) returns (s: System)
    requires |hash| == DIGEST_LENGTH
    ensures Reachable(CONFIG, s) && s.store == BeforeRotation() && s.records == map[]
    ensures s.requests == map[2 := Request(i, "a", hash, Executing(None)),
                              1 := Request(i, "a", hash, Executing(None))]
  {
    var s0 := LoggedIn();
    var s1 := SecondRequest(s0, i, hash, 0);
    var s2 := ArriveWithoutHot(s1, 1, i, hash);
    s := Reach(CONFIG, s2, Lookup(1, 0, true));
    assert s.requests == map[2 := Request(i, "a", hash, Executing(None)),
                             1 := Request(i, "a", hash, Executing(None))];
  }

  /**
   * The other way to lose the winner: it commits after both first lookups, and
   * cleanup removes its record before the loser looks again, at whatever clock.
   */
  lemma SweptWinnerIsNotFound(i: Identity, hash: Digest, now: Time) returns (s: System)
    requires |hash| == DIGEST_LENGTH
    ensures Reachable(CONFIG, s) && i !in s.records && s.store == AfterRotation()
    ensures 2 in s.requests && s.requests[2] == Request(i, "a", hash, Raced(None))
    ensures Apply(CONFIG, s, LookAgain(2, now, true)) == s.(requests := s.requests - {2})
  {
    var s0 := BothLookedUp(i, hash);
    var s1 := FirstCommits(s0, i, hash);
    s := RaceAndSweep(s1, i, hash);
  }

  lemma FirstCommits(s: System, i: Identity, hash: Digest) returns (s': System)
    requires Reachable(CONFIG, s) && s.store == BeforeRotation() && s.records == map[]
    requires 1 in s.requests && s.requests[1] == Request(i, "a", hash, Executing(None))
    ensures Reachable(CONFIG, s') && s'.store == AfterRotation()
    ensures s'.records == map[i := Record(Sealed(hash), 5)]
    ensures forall pid | pid in s.requests && pid != 1 ::
              pid in s'.requests && s'.requests[pid] == s.requests[pid]
  {
    var first := Runs(Some(0), true, 1, "b", 0, 0, Acknowledged);
    FirstUseRotates(first);
    s' := Reach(CONFIG, s, Execute(1, 0, first));
    assert s'.records == map[i := Record(Sealed(hash), 5)];
  }

  lemma RaceAndSweep(s: System, i: Identity, hash: Digest) returns (s': System)
    requires Reachable(CONFIG, s) && s.store == AfterRotation()
    requires s.records == map[i := Record(Sealed(hash), 5)]
    requires 2 in s.requests && s.requests[2] == Request(i, "a", hash, Executing(None))
    ensures Reachable(CONFIG, s') && i !in s'.records && s'.store == AfterRotation()
    ensures 2 in s'.requests && s'.requests[2] == Request(i, "a", hash, Raced(None))
  {
    var second := Runs(Some(0), true, 2, "c", 0, 0, Acknowledged);
    ReuseIsRefused(second);
    var s1 := Reach(CONFIG, s, Execute(2, 0, second));
    s' := Reach(CONFIG, s1, Sweep(5, {i}));
  }

  /**
   * Reuse on a clock behind the session's creation, here at instant 0: under a new
   * key with no record, nothing is committed and the family stays unrevoked.
   */
  lemma EarlyClockLeavesFamilyActive(i: Identity, j: Identity, hash: Digest)
    returns (s: System, reuse: Step)
    requires |hash| == DIGEST_LENGTH && i != j
    ensures Reachable(CONFIG, s) && Enabled(s, reuse) && reuse.Execute? && reuse.now == -1
    ensures reuse.pid in s.requests && s.requests[reuse.pid].identity == j && j !in s.records
    ensures reuse.pass.Runs? && reuse.pass.found == Some(0) && s.store.tokens[0].usedAt.Some?
    ensures 0 in s.store.sessions && s.store.sessions[0].revokedAt.None?
    ensures Apply(CONFIG, s, reuse).commits == s.commits
    ensures Apply(CONFIG, s, reuse).store == s.store
  {
    var s0 := FirstRefresh(i, hash);
    s := SecondRequest(s0, j, hash, 0);
    var pass := Runs(Some(0), true, 2, "c", 0, 0, Acknowledged);
    reuse := Execute(2, -1, pass);
    assert Refresh(CONFIG, AfterRotation(), pass, -1).Err?;
  }

  /** Reuse of the token under the key, once the record is gone, commits a refusal. */
  lemma CommitRefusal(s: System, i: Identity, hash: Digest) returns (s': System)
    requires Reachable(CONFIG, s) && s.store == AfterRotation() && i !in s.records
    requires 2 in s.requests && s.requests[2] == Request(i, "a", hash, Executing(None))
    ensures Reachable(CONFIG, s')
    ensures i in s'.records && s'.records[i].completed == Completed(hash, Rejected)
    ensures s'.answers == s.answers + [Answer(i, hash, Executed(Completed(hash, Rejected)), Fence)]
    ensures s'.hot == s.hot && s'.owners == s.owners && s'.requests.Keys == s.requests.Keys
  {
    var pass := Runs(Some(0), true, 2, "c", 0, 0, Acknowledged);
    ReuseIsRefused(pass);
    s' := Reach(CONFIG, s, Execute(2, 0, pass));
  }

  /**
   * A completed hot entry outlives the record it came from: after cleanup and a
   * second execution, a record is stored and two outcomes of its key differ.
   */
  lemma HotEntryOutlivesItsRecord(i: Identity, hash: Digest) returns (s: System)
    requires |hash| == DIGEST_LENGTH
    ensures Reachable(CONFIG, s) && i in s.records
    ensures s.records[i].completed == Completed(hash, Rejected)
    ensures Answer(i, hash, Executed(Completed(hash, Rejected)), Fence) in s.answers
    ensures Answer(i, hash, Replay(Sealed(hash)), Cache) in s.answers
  {
    var s0 := FirstRefresh(i, hash);
    var s1 := Reach(CONFIG, s0, Sweep(5, {i}));
    var s2 := SecondRequest(s1, i, hash, 0);
    var s3 := CommitRefusal(s2, i, hash);
    s := ArriveAndHear(s3, 3, i, "a", hash, 8, Replay(Sealed(hash)));
  }
}
