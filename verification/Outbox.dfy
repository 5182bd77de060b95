/**
 * The outbox table: what each repository statement does to the rows.
 *
 * A statement is one step. The functions give the table after the statement; the
 * class keeps the table in a field and is proved against them.
 */
module OutboxTable {
  import opened Prelude
  import opened OrderedBatch

  type Id = nat
  type Token = nat

  datatype Status = Pending | Claimed | Success | Quarantined

  datatype Row = Row(
    key: string,
    createdAt: Time,
    status: Status,
    attempts: nat,
    lastError: Option<string>,
    availableAt: Time,
    claimToken: Option<Token>,
    claimExpiresAt: Option<Time>,
    terminalAt: Option<Time>,
    redriveCount: nat)
  {
    predicate Terminal() { status == Success || status == Quarantined }

    /** The lifecycle CHECK constraint of the table. */
    predicate Lifecycle() {
      && (claimToken.Some? <==> status == Claimed)
      && (claimExpiresAt.Some? <==> status == Claimed)
      && (terminalAt.Some? <==> Terminal())
    }

    predicate HeldBy(token: Token) { status == Claimed && claimToken == Some(token) }
  }

  type Table = map<Id, Row>

  /** Position in a key's stream: creation time, then id. */
  predicate Precedes(at: Time, id: Id, at': Time, id': Id) {
    at < at' || (at == at' && id < id')
  }

  predicate Earlier(t: Table, e: Id, m: Id)
    requires e in t && m in t
  {
    t[e].key == t[m].key && Precedes(t[e].createdAt, e, t[m].createdAt, m)
  }

  predicate Eligible(r: Row, now: Time) {
    || (r.status == Pending && r.availableAt <= now)
    || (r.status == Claimed && r.claimExpiresAt.Some? && r.claimExpiresAt.value <= now)
  }

  /** Eligible, and no unfinished message of the key stands before it. */
  predicate Claimable(t: Table, id: Id, now: Time) {
    && id in t
    && Eligible(t[id], now)
    && !exists e :: e in t && !t[e].Terminal() && Earlier(t, e, id)
  }

  function ClaimRanks(t: Table, now: Time, locked: set<Id>): (ranks: map<Id, Rank>)
    ensures forall id :: id in ranks <==> Claimable(t, id, now) && id !in locked
  {
    map id | id in t && id !in locked && Claimable(t, id, now) :: Rank(t[id].createdAt, 0)
  }

  predicate Sweepable(r: Row, cutoff: Time) {
    r.Terminal() && r.terminalAt.Some? && r.terminalAt.value < cutoff
  }

  function SweepRank(r: Row): Rank
    requires r.terminalAt.Some?
  {
    Rank(r.terminalAt.value, r.createdAt)
  }

  function SweepRanks(t: Table, cutoff: Time, locked: set<Id>): map<Id, Rank> {
    map id | id in t && id !in locked && Sweepable(t[id], cutoff) :: SweepRank(t[id])
  }

  // The statements.

  function NewRow(key: string, occurredAt: Time): Row {
    Row(key, occurredAt, Pending, 0, None, occurredAt, None, None, None, 0)
  }

  function ClaimRow(r: Row, token: Token, expiresAt: Time): Row {
    r.(status := Claimed, claimToken := Some(token), claimExpiresAt := Some(expiresAt),
       terminalAt := None)
  }

  function AfterClaim(t: Table, ids: set<Id>, token: Token, expiresAt: Time): Table {
    map id | id in t :: if id in ids then ClaimRow(t[id], token, expiresAt) else t[id]
  }

  /** What the holder of a claim does with it. */
  datatype Settlement =
    | Finalize(at: Time)
    | Retry(availableAt: Time, error: string)
    | Quarantine(at: Time, error: string)

  function Settled(r: Row, settlement: Settlement): Row {
    var free := r.(attempts := r.attempts + 1, claimToken := None, claimExpiresAt := None);
    match settlement
    case Finalize(at) => free.(status := Success, lastError := None, terminalAt := Some(at))
    case Retry(availableAt, error) =>
      free.(status := Pending, lastError := Some(error), availableAt := availableAt,
            terminalAt := None)
    case Quarantine(at, error) =>
      free.(status := Quarantined, lastError := Some(error), terminalAt := Some(at))
  }

  predicate Owns(t: Table, id: Id, token: Token) { id in t && t[id].HeldBy(token) }

  function AfterSettle(t: Table, id: Id, token: Token, settlement: Settlement): Table {
    if Owns(t, id, token) then t[id := Settled(t[id], settlement)] else t
  }

  predicate Redrivable(t: Table, id: Id) {
    && id in t
    && t[id].status == Quarantined
    && !exists l :: l in t && Earlier(t, id, l)
  }

  function AfterRedrive(t: Table, id: Id, availableAt: Time): Table {
    if Redrivable(t, id)
    then t[id := t[id].(status := Pending, attempts := 0, lastError := None,
                        availableAt := availableAt, claimToken := None, claimExpiresAt := None,
                        terminalAt := None, redriveCount := t[id].redriveCount + 1)]
    else t
  }

  /** Every claimed batch has pairwise distinct keys. */
  lemma BatchKeysDistinct(t: Table, now: Time, locked: set<Id>, ids: seq<Id>, limit: int)
    requires IsOldest(ClaimRanks(t, now, locked), ids, limit)
    ensures forall k, l | 0 <= k < l < |ids| :: t[ids[k]].key != t[ids[l]].key
  {
    forall k, l | 0 <= k < l < |ids|
      ensures t[ids[k]].key != t[ids[l]].key
    {
      var ranks := ClaimRanks(t, now, locked);
      assert Before(ranks, ids[k], ids[l]);
      assert Claimable(t, ids[k], now) && Claimable(t, ids[l], now);
    }
  }

  /** When a message may be claimed: from its due time, after a claim from the lease's end. */
  lemma DueExactly(r: Row, key: string, token: Token, at: Time, now: Time, settlement: Settlement)
    ensures Eligible(NewRow(key, at), now) <==> at <= now
    ensures Eligible(ClaimRow(r, token, at), now) <==> at <= now
    ensures Eligible(Settled(r, settlement), now)
            <==> settlement.Retry? && settlement.availableAt <= now
  {
  }

  /** A new message is PENDING with no attempt made and nothing else recorded. */
  lemma NewMessage(key: string, at: Time)
    ensures NewRow(key, at).Lifecycle() && NewRow(key, at).status == Pending
    ensures NewRow(key, at).key == key && NewRow(key, at).createdAt == at
    ensures NewRow(key, at).attempts == 0 && NewRow(key, at).redriveCount == 0
    ensures NewRow(key, at).lastError.None?
  {
  }

  /** A claim changes the status and the claim of exactly the rows of its batch. */
  lemma ClaimChangesOnlyClaims(t: Table, ids: set<Id>, token: Token, expiresAt: Time, id: Id)
    requires id in t
    ensures var t' := AfterClaim(t, ids, token, expiresAt);
            && t'.Keys == t.Keys
            && (id !in ids ==> t'[id] == t[id])
            && (id in ids ==>
                  && t'[id].HeldBy(token) && t'[id].claimExpiresAt == Some(expiresAt)
                  && t'[id].terminalAt.None?
                  && t[id] == t'[id].(status := t[id].status, claimToken := t[id].claimToken,
                                      claimExpiresAt := t[id].claimExpiresAt,
                                      terminalAt := t[id].terminalAt))
  {
  }

  /**
   * A redrive reopens exactly a QUARANTINED message with no later one of its key stored:
   * it starts over, due from `at`, with no attempt made and one more redrive counted.
   */
  lemma RedriveExactly(t: Table, id: Id, at: Time, now: Time)
    ensures AfterRedrive(t, id, at)
            == if id in t && t[id].status == Quarantined
                  && (forall l | l in t && t[l].key == t[id].key ::
                        !Precedes(t[id].createdAt, id, t[l].createdAt, l))
               then t[id := t[id].(status := Pending, attempts := 0, lastError := None,
                                   availableAt := at, claimToken := None, claimExpiresAt := None,
                                   terminalAt := None, redriveCount := t[id].redriveCount + 1)]
               else t
    ensures Redrivable(t, id) ==> (Eligible(AfterRedrive(t, id, at)[id], now) <==> at <= now)
  {
  }

  /**
   * The batch a claim takes: in stream order, each message due and with nothing
   * unfinished of its key before it; and any other such message comes after all of a
   * full batch.
   */
  lemma ClaimOrder(t: Table, now: Time, locked: set<Id>, ids: seq<Id>, limit: int, x: Id)
    requires IsOldest(ClaimRanks(t, now, locked), ids, limit)
    ensures forall k | 0 <= k < |ids| :: ids[k] in t && ids[k] !in locked
    ensures forall k, e | 0 <= k < |ids| && e in t && t[e].key == t[ids[k]].key
                          && Precedes(t[e].createdAt, e, t[ids[k]].createdAt, ids[k])
              :: t[e].status == Success || t[e].status == Quarantined
    ensures forall k | 0 <= k < |ids| ::
              var r := t[ids[k]];
              || (r.status == Pending && r.availableAt <= now)
              || (r.status == Claimed && r.claimExpiresAt.Some? && r.claimExpiresAt.value <= now)
    ensures forall k, l | 0 <= k < l < |ids| ::
              Precedes(t[ids[k]].createdAt, ids[k], t[ids[l]].createdAt, ids[l])
    ensures x in t && x !in locked && x !in ids
            && ((t[x].status == Pending && t[x].availableAt <= now)
                || (t[x].status == Claimed && t[x].claimExpiresAt.Some?
                    && t[x].claimExpiresAt.value <= now))
            && (forall e | e in t && t[e].key == t[x].key
                           && Precedes(t[e].createdAt, e, t[x].createdAt, x)
                  :: t[e].status == Success || t[e].status == Quarantined)
            ==> |ids| == limit
                && forall k | 0 <= k < |ids| ::
                     Precedes(t[ids[k]].createdAt, ids[k], t[x].createdAt, x)
  {
    BatchIsDue(t, now, locked, ids, limit);
    BatchIsOrdered(t, now, locked, ids, limit);
    BatchIsFirst(t, now, locked, ids, limit, x);
  }

  lemma BatchIsDue(t: Table, now: Time, locked: set<Id>, ids: seq<Id>, limit: int)
    requires IsOldest(ClaimRanks(t, now, locked), ids, limit)
    ensures forall k | 0 <= k < |ids| ::
              Claimable(t, ids[k], now) && ids[k] !in locked && Eligible(t[ids[k]], now)
    ensures forall k, e | 0 <= k < |ids| && e in t && t[e].key == t[ids[k]].key
                          && Precedes(t[e].createdAt, e, t[ids[k]].createdAt, ids[k])
              :: t[e].Terminal()
  {
    forall k, e | 0 <= k < |ids| && e in t && t[e].key == t[ids[k]].key
                  && Precedes(t[e].createdAt, e, t[ids[k]].createdAt, ids[k])
      ensures t[e].Terminal()
    {
      assert Claimable(t, ids[k], now) && Earlier(t, e, ids[k]);
    }
  }

  lemma BatchIsOrdered(t: Table, now: Time, locked: set<Id>, ids: seq<Id>, limit: int)
    requires IsOldest(ClaimRanks(t, now, locked), ids, limit)
    ensures forall k | 0 <= k < |ids| :: ids[k] in t
    ensures forall k, l | 0 <= k < l < |ids| ::
              Precedes(t[ids[k]].createdAt, ids[k], t[ids[l]].createdAt, ids[l])
  {
    var ranks := ClaimRanks(t, now, locked);
    assert forall k, l | 0 <= k < l < |ids| :: Before(ranks, ids[k], ids[l]);
  }

  lemma BatchIsFirst(t: Table, now: Time, locked: set<Id>, ids: seq<Id>, limit: int, x: Id)
    requires IsOldest(ClaimRanks(t, now, locked), ids, limit)
    requires forall k | 0 <= k < |ids| :: ids[k] in t
    ensures Claimable(t, x, now) && x !in locked && x !in ids
            ==> |ids| == limit
                && forall k | 0 <= k < |ids| ::
                     Precedes(t[ids[k]].createdAt, ids[k], t[x].createdAt, x)
  {
    var ranks := ClaimRanks(t, now, locked);
    assert x in ranks && x !in ids ==>
        |ids| == limit && forall k | 0 <= k < |ids| :: Before(ranks, ids[k], x);
  }

  /** The batch a cleanup removes: by the time they finished, then in stream order. */
  lemma SweepOrder(t: Table, cutoff: Time, locked: set<Id>, ids: seq<Id>, limit: int, x: Id)
    requires IsOldest(SweepRanks(t, cutoff, locked), ids, limit)
    ensures forall k | 0 <= k < |ids| ::
              && ids[k] in t && ids[k] !in locked
              && (t[ids[k]].status == Success || t[ids[k]].status == Quarantined)
              && t[ids[k]].terminalAt.Some? && t[ids[k]].terminalAt.value < cutoff
    ensures x in t && x !in locked && x !in ids
            && (t[x].status == Success || t[x].status == Quarantined)
            && t[x].terminalAt.Some? && t[x].terminalAt.value < cutoff
            ==> |ids| == limit
                && forall k | 0 <= k < |ids| ::
                     var r := t[ids[k]];
                     r.terminalAt.value < t[x].terminalAt.value
                     || (r.terminalAt.value == t[x].terminalAt.value
                         && Precedes(r.createdAt, ids[k], t[x].createdAt, x))
  {
    var ranks := SweepRanks(t, cutoff, locked);
    assert x in ranks && x !in ids ==>
        |ids| == limit && forall k | 0 <= k < |ids| :: Before(ranks, ids[k], x);
  }

  datatype ArgumentError = LimitNotPositive | EmptyClaimWindow

  class OutboxRepository {
    var rows: Table

    constructor ()
      ensures rows == map[]
    {
      rows := map[];
    }

    /** Adding a message; a duplicate id violates the primary key and changes nothing. */
    method Publish(id: Id, key: string, occurredAt: Time) returns (ok: bool)
      modifies this
      ensures ok == (id !in old(rows))
      ensures rows == if ok then old(rows)[id := NewRow(key, occurredAt)] else old(rows)
    {
      if id in rows {
        return false;
      }
      rows := rows[id := NewRow(key, occurredAt)];
      return true;
    }

    /** `locked` are the rows that SKIP LOCKED passes over. */
    method ClaimBatch(owner: Token, claimedAt: Time, expiresAt: Time, limit: int, locked: set<Id>)
      returns (r: Result<seq<Id>, ArgumentError>)
      modifies this
      ensures r.Err? <==> limit <= 0 || expiresAt <= claimedAt
      ensures r.Err? ==> rows == old(rows)
      ensures r.Ok? ==> IsOldest(ClaimRanks(old(rows), claimedAt, locked), r.value, limit)
      ensures r.Ok? ==> rows == AfterClaim(old(rows), Members(r.value), owner, expiresAt)
    {
      if limit <= 0 {
        return Err(LimitNotPositive);
      }
      if expiresAt <= claimedAt {
        return Err(EmptyClaimWindow);
      }
      var ids := SelectOldest(ClaimRanks(rows, claimedAt, locked), limit);
      rows := AfterClaim(rows, Members(ids), owner, expiresAt);
      return Ok(ids);
    }

    method FinalizePublished(id: Id, owner: Token, publishedAt: Time) returns (ok: bool)
      modifies this
      ensures ok == Owns(old(rows), id, owner)
      ensures rows == AfterSettle(old(rows), id, owner, Finalize(publishedAt))
    {
      ok := id in rows && rows[id].status == Claimed && rows[id].claimToken == Some(owner);
      if ok {
        var r := rows[id];
        rows := rows[id := r.(status := Success, attempts := r.attempts + 1, lastError := None,
                              claimToken := None, claimExpiresAt := None,
                              terminalAt := Some(publishedAt))];
      }
    }

    method ScheduleRetry(id: Id, owner: Token, availableAt: Time, error: string)
      returns (ok: bool)
      modifies this
      ensures ok == Owns(old(rows), id, owner)
      ensures rows == AfterSettle(old(rows), id, owner, Retry(availableAt, error))
    {
      ok := id in rows && rows[id].status == Claimed && rows[id].claimToken == Some(owner);
      if ok {
        var r := rows[id];
        rows := rows[id := r.(status := Pending, attempts := r.attempts + 1,
                              lastError := Some(error), availableAt := availableAt,
                              claimToken := None, claimExpiresAt := None, terminalAt := None)];
      }
    }

    method QuarantineMessage(id: Id, owner: Token, quarantinedAt: Time, error: string)
      returns (ok: bool)
      modifies this
      ensures ok == Owns(old(rows), id, owner)
      ensures rows == AfterSettle(old(rows), id, owner, Quarantine(quarantinedAt, error))
    {
      ok := id in rows && rows[id].status == Claimed && rows[id].claimToken == Some(owner);
      if ok {
        var r := rows[id];
        rows := rows[id := r.(status := Quarantined, attempts := r.attempts + 1,
                              lastError := Some(error), claimToken := None,
                              claimExpiresAt := None, terminalAt := Some(quarantinedAt))];
      }
    }

    method RedriveQuarantined(id: Id, availableAt: Time) returns (ok: bool)
      modifies this
      ensures ok == Redrivable(old(rows), id)
      ensures rows == AfterRedrive(old(rows), id, availableAt)
    {
      ok := Redrivable(rows, id);
      rows := AfterRedrive(rows, id, availableAt);
    }

    method DeleteTerminalBefore(cutoff: Time, limit: int, locked: set<Id>)
      returns (r: Result<seq<Id>, ArgumentError>)
      modifies this
      ensures r.Err? <==> limit <= 0
      ensures r.Err? ==> rows == old(rows)
      ensures r.Ok? ==> IsOldest(SweepRanks(old(rows), cutoff, locked), r.value, limit)
      ensures r.Ok? ==> rows == old(rows) - Members(r.value)
    {
      if limit <= 0 {
        return Err(LimitNotPositive);
      }
      var ids := SelectOldest(SweepRanks(rows, cutoff, locked), limit);
      rows := rows - Members(ids);
      return Ok(ids);
    }
  }
}
