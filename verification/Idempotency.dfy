/**
 * The durable fence: one record per identity, inserted in the transaction of the
 * business effect.
 */
module DurableFence {
  import opened Prelude

  const DIGEST_LENGTH := 32

  datatype Identity = Identity(subject: string, operation: string, keyHash: Digest)

  datatype Completed<+R> = Completed(requestHash: Digest, result: R)

  datatype Record<+R> = Record(completed: Completed<R>, expiresAt: Time)

  type Records<R> = map<Identity, Record<R>>

  datatype Outcome<+R> =
    | Executed(completed: Completed<R>)
    | Replay(completed: Completed<R>)
    | Conflict
    | InProgress
  {
    predicate Carries() { Executed? || Replay? }
  }

  datatype ExecutionError = BadDigest | UniqueConflictWithoutWinner | OperationFailed

  /** An expired record is not returned, whether or not cleanup has removed it. */
  function GetCompleted<R>(t: Records<R>, i: Identity, now: Time): Option<Completed<R>> {
    if i in t && now < t[i].expiresAt then Some(t[i].completed) else None
  }

  function Classify<R>(completed: Completed<R>, requestHash: Digest): Outcome<R> {
    if completed.requestHash != requestHash then Conflict else Replay(completed)
  }

  function FindExisting<R>(t: Records<R>, i: Identity, requestHash: Digest, now: Time)
    : Option<Outcome<R>>
  {
    match GetCompleted(t, i, now)
    case None => None
    case Some(c) => Some(Classify(c, requestHash))
  }

  /** The unique key takes the insert exactly when no record is stored, expired or not. */
  function AfterTryAdd<R>(t: Records<R>, i: Identity, c: Completed<R>, now: Time, retention: int)
    : Records<R>
  {
    if i in t then t else t[i := Record(c, now + retention)]
  }

  /** A record inserted at `now` answers until its retention is over, and not from then on. */
  lemma RecordLivesExactly<R>(t: Records<R>, i: Identity, c: Completed<R>, now: Time, retention: int,
                              requestHash: Digest, at: Time)
    requires i !in t
    ensures var t' := AfterTryAdd(t, i, c, now, retention);
            && t'.Keys == t.Keys + {i} && (forall j | j in t :: t'[j] == t[j])
            && FindExisting(t', i, requestHash, at)
               == if now + retention <= at then None
                  else if c.requestHash == requestHash then Some(Replay(c)) else Some(Conflict)
  {
  }

  /** What cleanup may remove: up to `limit` expired records, soonest expired first. */
  predicate IsExpiredBatch<R>(t: Records<R>, cutoff: Time, limit: int, locked: set<Identity>,
                              gone: set<Identity>)
  {
    && |gone| <= limit
    && (forall i | i in gone :: i in t && i !in locked && t[i].expiresAt <= cutoff)
    && (forall i, j | i in gone && j in t && j !in locked && j !in gone
                      && t[j].expiresAt <= cutoff
          :: t[i].expiresAt <= t[j].expiresAt)
    && ((exists j :: j in t && j !in locked && j !in gone && t[j].expiresAt <= cutoff)
        ==> |gone| == limit)
  }

  lemma {:induction false} HasSoonest<R>(t: Records<R>, left: set<Identity>)
    requires left != {} && left <= t.Keys
    ensures exists m :: m in left && forall x | x in left :: t[m].expiresAt <= t[x].expiresAt
    decreases |left|
  {
    var a :| a in left;
    if left != {a} {
      var rest := left - {a};
      HasSoonest(t, rest);
      var m :| m in rest && forall x | x in rest :: t[m].expiresAt <= t[x].expiresAt;
      var best := if t[a].expiresAt <= t[m].expiresAt then a else m;
      assert best in left && forall x | x in left :: t[best].expiresAt <= t[x].expiresAt by {
        forall x | x in left
          ensures t[best].expiresAt <= t[x].expiresAt
        {
          assert x == a || x in rest;
        }
      }
    }
  }

  class IdempotencyRecordRepository<R(==)> {
    var rows: Records<R>
    const retention: int

    constructor (retention: int)
      ensures rows == map[] && this.retention == retention
    {
      rows := map[];
      this.retention := retention;
    }

    method TryAddCompleted(i: Identity, c: Completed<R>, now: Time) returns (added: bool)
      modifies this
      ensures added == (i !in old(rows))
      ensures rows == AfterTryAdd(old(rows), i, c, now, retention)
    {
      added := i !in rows;
      if added {
        rows := rows[i := Record(c, now + retention)];
      }
    }

    /** `Err` is the `ValueError` for a limit that is not positive. */
    method DeleteExpired(cutoff: Time, limit: int, locked: set<Identity>)
      returns (r: Result<set<Identity>, ()>)
      modifies this
      ensures r.Err? <==> limit <= 0
      ensures r.Err? ==> rows == old(rows)
      ensures r.Ok? ==> IsExpiredBatch(old(rows), cutoff, limit, locked, r.value)
      ensures r.Ok? ==> rows == old(rows) - r.value
    {
      if limit <= 0 {
        return Err(());
      }
      var t := rows;
      var gone: set<Identity> := {};
      var left := set i | i in t && i !in locked && t[i].expiresAt <= cutoff;
      while |gone| < limit && left != {}
        invariant |gone| <= limit && gone !! left
        invariant forall i | i in gone || i in left ::
                    i in t && i !in locked && t[i].expiresAt <= cutoff
        invariant forall i | i in t && i !in locked && t[i].expiresAt <= cutoff ::
                    i in gone || i in left
        invariant forall i, j | i in gone && j in left :: t[i].expiresAt <= t[j].expiresAt
        decreases left
      {
        HasSoonest(t, left);
        var m :| m in left && forall x | x in left :: t[m].expiresAt <= t[x].expiresAt;
        gone := gone + {m};
        left := left - {m};
      }
      rows := t - gone;
      return Ok(gone);
    }
  }

  /**
   * `execute_once` when nothing else runs between its transactions. `staged` is the
   * result of the business callback, or none if it raised; `now` is the clock of the
   * first lookup and of the insert, `again` of the second lookup.
   */
  function ExecuteAlone<R>(t: Records<R>, i: Identity, requestHash: Digest, staged: Option<R>,
                           now: Time, again: Time, retention: int)
    : (Records<R>, Result<Outcome<R>, ExecutionError>)
  {
    if |requestHash| != DIGEST_LENGTH then (t, Err(BadDigest))
    else match FindExisting(t, i, requestHash, now)
      case Some(outcome) => (t, Ok(outcome))
      case None =>
        if staged.Some? && i !in t then
          var c := Completed(requestHash, staged.value);
          (AfterTryAdd(t, i, c, now, retention), Ok(Executed(c)))
        else match FindExisting(t, i, requestHash, again)
          case Some(winner) => (t, Ok(winner))
          case None =>
            (t, Err(if staged.Some? then UniqueConflictWithoutWinner else OperationFailed))
  }

  predicate ExpiredAt<R>(t: Records<R>, i: Identity, now: Time) {
    i in t && t[i].expiresAt <= now
  }

  /**
   * Alone, the callback's effect is kept exactly when no record is stored, and the
   * unique conflict without a winner is raised exactly for an expired record that
   * cleanup has not removed.
   */
  lemma AloneOutcomes<R>(t: Records<R>, i: Identity, requestHash: Digest, staged: Option<R>,
                         now: Time, again: Time, retention: int)
    requires |requestHash| == DIGEST_LENGTH
    ensures var (t', r) := ExecuteAlone(t, i, requestHash, staged, now, again, retention);
            && (t' != t <==> i !in t && staged.Some?)
            && (r.Ok? && r.value.Executed? <==> i !in t && staged.Some?)
            && (r == Err(UniqueConflictWithoutWinner)
                <==> staged.Some? && ExpiredAt(t, i, now) && ExpiredAt(t, i, again))
            && (r.Ok? && r.value.Replay?
                <==> i in t && t[i].completed.requestHash == requestHash
                     && !(ExpiredAt(t, i, now) && ExpiredAt(t, i, again)))
  {
  }

  class DurableExecutionService<R(==)> {
    const records: IdempotencyRecordRepository<R>

    constructor (records: IdempotencyRecordRepository<R>)
      ensures this.records == records
    {
      this.records := records;
    }

    method ExecuteOnce(i: Identity, requestHash: Digest, staged: Option<R>, now: Time, again: Time)
      returns (r: Result<Outcome<R>, ExecutionError>)
      modifies records
      ensures (records.rows, r) == ExecuteAlone(old(records.rows), i, requestHash, staged, now,
                                                again, records.retention)
    {
      if |requestHash| != DIGEST_LENGTH {
        return Err(BadDigest);
      }
      var existing := FindExisting(records.rows, i, requestHash, now);
      if existing.Some? {
        return Ok(existing.value);
      }
      if staged.None? {
        var winner := FindExisting(records.rows, i, requestHash, again);
        if winner.Some? {
          return Ok(winner.value);
        }
        return Err(OperationFailed);
      }
      var completed := Completed(requestHash, staged.value);
      var added := records.TryAddCompleted(i, completed, now);
      if !added {
        var winner := FindExisting(records.rows, i, requestHash, again);
        if winner.None? {
          return Err(UniqueConflictWithoutWinner);
        }
        return Ok(winner.value);
      }
      return Ok(Executed(completed));
    }
  }
}

/**
 * The hot store: the four Lua scripts as functions on one stored hash, whose fields
 * may be missing or wrong. A key that is absent is `None`.
 */
module HotStore {
  import opened Prelude
  import opened DurableFence

  type Owner = nat

  /** The text of a completed result: what it decodes to, if it decodes. */
  datatype Text<+R> = Encoded(completed: Completed<R>) | Garbled

  datatype Entry<+R> = Entry(
    formatVersion: Option<string>,
    state: Option<string>,
    requestHash: Option<Digest>,
    owner: Option<Owner>,
    result: Option<Text<R>>,
    ttl: int)

  datatype Code<+R> = Acquired | Found(text: Text<R>) | Differs | Busy | Corrupt

  /** What a client makes of a script's answer. */
  datatype Begun<+R> = Leased | Replayed(completed: Completed<R>) | Conflicting | Occupied

  datatype HotError = BadDigest | BadLease | Unavailable

  /** A script answers, runs without its answer arriving, or does not run. */
  datatype Link = Up | Silent | Down

  datatype StoreError = BadResultTtl | EmptyNamespace

  function Processing<R>(requestHash: Digest, owner: Owner, ttl: int): Entry<R> {
    Entry(Some("1"), Some("processing"), Some(requestHash), Some(owner), None, ttl)
  }

  function BeginScript<R>(h: Option<Entry<R>>, requestHash: Digest, owner: Owner, lease: int)
    : (Option<Entry<R>>, Code<R>)
  {
    if h.None? then (Some(Processing(requestHash, owner, lease)), Acquired)
    else
      var e := h.value;
      if e.state.None? then (h, Corrupt)
      else if e.formatVersion != Some("1") || e.requestHash.None? then (h, Corrupt)
      else if e.state.value == "processing" && (e.owner.None? || e.result.Some?) then (h, Corrupt)
      else if e.state.value == "completed" && (e.result.None? || e.owner.Some?) then (h, Corrupt)
      else if e.requestHash.value != requestHash then (h, Differs)
      else if e.state.value == "completed" then (h, Found(e.result.value))
      else if e.state.value == "processing" then (h, Busy)
      else (h, Corrupt)
  }

  predicate LeasedTo<R>(e: Entry<R>, owner: Owner) {
    e.formatVersion == Some("1") && e.state == Some("processing") && e.owner == Some(owner)
  }

  function RenewScript<R>(h: Option<Entry<R>>, owner: Owner, lease: int): (Option<Entry<R>>, bool) {
    if h.Some? && LeasedTo(h.value, owner) && h.value.requestHash.Some?
    then (Some(h.value.(ttl := lease)), true)
    else (h, false)
  }

  function CompleteScript<R>(h: Option<Entry<R>>, owner: Owner, c: Completed<R>, ttl: int)
    : (Option<Entry<R>>, bool)
  {
    if h.Some? && LeasedTo(h.value, owner) && h.value.requestHash == Some(c.requestHash)
    then (Some(h.value.(state := Some("completed"), result := Some(Encoded(c)), owner := None,
                        ttl := ttl)), true)
    else (h, false)
  }

  function AbandonScript<R>(h: Option<Entry<R>>, owner: Owner): (Option<Entry<R>>, bool) {
    if h.Some? && LeasedTo(h.value, owner) then (None, true) else (h, false)
  }

  /** A found result is replayed only if it decodes and is for the same request. */
  function Decoded<R>(code: Code<R>, requestHash: Digest): Result<Begun<R>, HotError> {
    match code
    case Acquired => Ok(Leased)
    case Found(Encoded(c)) =>
      if c.requestHash == requestHash then Ok(Replayed(c)) else Err(Unavailable)
    case Found(Garbled) => Err(Unavailable)
    case Differs => Ok(Conflicting)
    case Busy => Ok(Occupied)
    case Corrupt => Err(Unavailable)
  }

  /**
   * A lease from begin to end: an absent key is leased to the one who asks; the owner
   * renews it and completes it for its request, and abandoning it frees the key.
   */
  lemma LeaseLifecycle<R>(requestHash: Digest, owner: Owner, lease: int, longer: int, ttl: int,
                          c: Completed<R>, other: Owner)
    requires c.requestHash == requestHash
    ensures var (h, code) := BeginScript<R>(None, requestHash, owner, lease);
            && code == Acquired && h.Some?
            && h.value.owner == Some(owner) && h.value.requestHash == Some(requestHash)
            && h.value.ttl == lease
            && RenewScript(h, owner, longer) == (Some(h.value.(ttl := longer)), true)
            && CompleteScript(h, owner, c, ttl).1 && AbandonScript(h, owner) == (None, true)
            && BeginScript(h, requestHash, other, lease) == (h, Busy)
            && BeginScript(AbandonScript(h, owner).0, requestHash, other, lease).1 == Acquired
  {
  }

  /** Who may use the owner's scripts, and what of the entry they change. */
  lemma OwnerScriptsExactly<R>(e: Entry<R>, owner: Owner, lease: int, c: Completed<R>, ttl: int)
    ensures var held := e.formatVersion == Some("1") && e.state == Some("processing")
                        && e.owner == Some(owner);
            && RenewScript(Some(e), owner, lease)
               == (if held && e.requestHash.Some? then (Some(e.(ttl := lease)), true)
                   else (Some(e), false))
            && CompleteScript(Some(e), owner, c, ttl)
               == (if held && e.requestHash == Some(c.requestHash)
                   then (Some(Entry(Some("1"), Some("completed"), e.requestHash, None,
                                    Some(Encoded(c)), ttl)), true)
                   else (Some(e), false))
            && AbandonScript(Some(e), owner) == (if held then (None, true) else (Some(e), false))
  {
  }

  /** On an absent key the owner's scripts do nothing. */
  lemma AbsentKeyHasNoOwner<R>(owner: Owner, lease: int, c: Completed<R>)
    ensures RenewScript<R>(None, owner, lease) == (None, false)
    ensures CompleteScript(None, owner, c, lease) == (None, false)
    ensures AbandonScript<R>(None, owner) == (None, false)
  {
  }

  /** Completing by the owner makes the next begin for the same request replay that result. */
  lemma CompleteThenReplay<R>(h: Option<Entry<R>>, owner: Owner, c: Completed<R>, ttl: int,
                              other: Owner, lease: int)
    requires CompleteScript(h, owner, c, ttl).1
    ensures var h' := CompleteScript(h, owner, c, ttl).0;
            Decoded(BeginScript(h', c.requestHash, other, lease).1, c.requestHash)
            == Ok(Replayed(c))
  {
  }

  /** Once a lease belongs to another owner, no script of the earlier owner changes the entry. */
  lemma StaleOwnerChangesNothing<R>(e: Entry<R>, owner: Owner, c: Completed<R>, ttl: int)
    requires e.owner != Some(owner)
    ensures RenewScript(Some(e), owner, ttl) == (Some(e), false)
    ensures CompleteScript(Some(e), owner, c, ttl) == (Some(e), false)
    ensures AbandonScript(Some(e), owner) == (Some(e), false)
  {
  }

  function At<R>(hot: map<Identity, Entry<R>>, i: Identity): Option<Entry<R>> {
    if i in hot then Some(hot[i]) else None
  }

  function Put<R>(hot: map<Identity, Entry<R>>, i: Identity, h: Option<Entry<R>>)
    : map<Identity, Entry<R>>
  {
    if h.Some? then hot[i := h.value] else hot - {i}
  }

  class ValkeyHotIdempotencyStore<R(==)> {
    var entries: map<Identity, Entry<R>>
    const resultTtl: int

    constructor (resultTtl: int)
      requires 0 < resultTtl
      ensures entries == map[] && this.resultTtl == resultTtl
    {
      entries := map[];
      this.resultTtl := resultTtl;
    }

    /** Construction with the source's two `ValueError`s. */
    static method Create(resultTtl: int, namespace: string)
      returns (r: Result<ValkeyHotIdempotencyStore<R>, StoreError>)
      ensures r.Ok? <==> 0 < resultTtl && namespace != ""
      ensures r.Ok? ==> fresh(r.value) && r.value.entries == map[] && r.value.resultTtl == resultTtl
      ensures r.Err? ==> (r.error == BadResultTtl <==> resultTtl <= 0)
    {
      if resultTtl <= 0 {
        return Err(BadResultTtl);
      }
      if namespace == "" {
        return Err(EmptyNamespace);
      }
      var store := new ValkeyHotIdempotencyStore(resultTtl);
      return Ok(store);
    }

    method Begin(i: Identity, requestHash: Digest, owner: Owner, lease: int, link: Link)
      returns (r: Result<Begun<R>, HotError>)
      modifies this
      ensures r == Err(HotError.BadDigest) <==> |requestHash| != DIGEST_LENGTH
      ensures r == Err(BadLease) <==> |requestHash| == DIGEST_LENGTH && lease <= 0
      ensures |requestHash| == DIGEST_LENGTH && 0 < lease ==>
                var (h, code) := BeginScript(At(old(entries), i), requestHash, owner, lease);
                && At(entries, i) == (if link == Down then At(old(entries), i) else h)
                && r == (if link == Up then Decoded(code, requestHash) else Err(Unavailable))
      ensures !(|requestHash| == DIGEST_LENGTH && 0 < lease) ==> entries == old(entries)
      ensures forall j | j != i :: At(entries, j) == At(old(entries), j)
    {
      if |requestHash| != DIGEST_LENGTH {
        return Err(HotError.BadDigest);
      }
      if lease <= 0 {
        return Err(BadLease);
      }
      if link == Down {
        return Err(Unavailable);
      }
      var (_, code) := BeginScript(At(entries, i), requestHash, owner, lease);
      if i !in entries {
        entries := entries[i := Processing(requestHash, owner, lease)];
      }
      if link == Silent {
        return Err(Unavailable);
      }
      return Decoded(code, requestHash);
    }

    method Renew(i: Identity, owner: Owner, lease: int, link: Link)
      returns (r: Result<bool, HotError>)
      modifies this
      ensures lease <= 0 ==> r == Err(BadLease) && entries == old(entries)
      ensures 0 < lease ==>
                var (h, renewed) := RenewScript(At(old(entries), i), owner, lease);
                && At(entries, i) == (if link == Down then At(old(entries), i) else h)
                && r == (if link == Up then Ok(renewed) else Err(Unavailable))
      ensures forall j | j != i :: At(entries, j) == At(old(entries), j)
    {
      if lease <= 0 {
        return Err(BadLease);
      }
      if link == Down {
        return Err(Unavailable);
      }
      var renewed := i in entries && LeasedTo(entries[i], owner) && entries[i].requestHash.Some?;
      if renewed {
        entries := entries[i := entries[i].(ttl := lease)];
      }
      return if link == Up then Ok(renewed) else Err(Unavailable);
    }

    method Complete(i: Identity, owner: Owner, c: Completed<R>, link: Link)
      returns (r: Result<bool, HotError>)
      modifies this
      ensures var (h, completed) := CompleteScript(At(old(entries), i), owner, c, resultTtl);
              && At(entries, i) == (if link == Down then At(old(entries), i) else h)
              && r == (if link == Up then Ok(completed) else Err(Unavailable))
      ensures forall j | j != i :: At(entries, j) == At(old(entries), j)
    {
      if link == Down {
        return Err(Unavailable);
      }
      var completed := i in entries && LeasedTo(entries[i], owner)
                       && entries[i].requestHash == Some(c.requestHash);
      if completed {
        entries := entries[i := entries[i].(state := Some("completed"),
                                            result := Some(Encoded(c)), owner := None,
                                            ttl := resultTtl)];
      }
      return if link == Up then Ok(completed) else Err(Unavailable);
    }

    method Abandon(i: Identity, owner: Owner, link: Link) returns (r: Result<bool, HotError>)
      modifies this
      ensures var (h, abandoned) := AbandonScript(At(old(entries), i), owner);
              && At(entries, i) == (if link == Down then At(old(entries), i) else h)
              && r == (if link == Up then Ok(abandoned) else Err(Unavailable))
      ensures forall j | j != i :: At(entries, j) == At(old(entries), j)
    {
      if link == Down {
        return Err(Unavailable);
      }
      var abandoned := i in entries && LeasedTo(entries[i], owner);
      if abandoned {
        entries := entries - {i};
      }
      return if link == Up then Ok(abandoned) else Err(Unavailable);
    }
  }
}
