/**
 * The registration operations table: what each repository statement does to a row.
 */
module RegistrationTable {
  import opened Prelude
  import opened OrderedBatch

  type OpId = nat
  type UserId = nat
  type Token = nat

  datatype Status = Pending | Claimed | Completed | Blocked

  /** An Argon2 hash, opaque but for the password it verifies. */
  datatype PasswordHash = PasswordHash(password: string, salt: nat)

  datatype Operation = Operation(
    userId: UserId,
    email: string,
    passwordHash: Option<PasswordHash>,
    keyHash: string,
    status: Status,
    attempts: nat,
    availableAt: Time,
    claimToken: Option<Token>,
    claimExpiresAt: Option<Time>,
    lastError: Option<string>,
    terminalAt: Option<Time>,
    redriveCount: nat,
    createdAt: Time)
  {
    predicate Terminal() { status == Completed || status == Blocked }

    /** The lifecycle CHECK constraint of the table. */
    predicate Lifecycle() {
      && (claimToken.Some? <==> status == Claimed)
      && (claimExpiresAt.Some? <==> status == Claimed)
      && (terminalAt.Some? <==> Terminal())
      && (passwordHash.None? <==> status == Completed)
    }

    /** What no statement ever changes. */
    predicate SameIdentity(o: Operation) {
      userId == o.userId && email == o.email && keyHash == o.keyHash && createdAt == o.createdAt
    }
  }

  type Table = map<OpId, Operation>

  predicate Clash(a: Operation, b: Operation) {
    a.userId == b.userId || a.email == b.email || a.keyHash == b.keyHash
  }

  /** The three unique constraints. */
  predicate Unique(t: Table) {
    forall a, b | a in t && b in t && a != b :: !Clash(t[a], t[b])
  }

  predicate Insertable(t: Table, id: OpId, op: Operation) {
    id !in t && forall a | a in t :: !Clash(t[a], op)
  }

  predicate Eligible(o: Operation, now: Time) {
    || (o.status == Pending && o.availableAt <= now)
    || (o.status == Claimed && o.claimExpiresAt.Some? && o.claimExpiresAt.value <= now)
  }

  /** The operation `RegisterUserHandler` stores: claimed by the request that creates it. */
  function Candidate(userId: UserId, email: string, hash: PasswordHash, key: string,
                     token: Token, now: Time, expiresAt: Time): Operation
  {
    Operation(userId, email, Some(hash), key, Claimed, 0, now, Some(token), Some(expiresAt),
              None, None, 0, now)
  }

  function ClaimOperation(o: Operation, token: Token, expiresAt: Time): Operation {
    o.(status := Claimed, claimToken := Some(token), claimExpiresAt := Some(expiresAt),
       terminalAt := None)
  }

  function AfterClaim(t: Table, ids: set<OpId>, token: Token, expiresAt: Time): Table {
    map id | id in t :: if id in ids then ClaimOperation(t[id], token, expiresAt) else t[id]
  }

  /** What the holder of a live claim may do with it; `at` is the caller's clock. */
  datatype Move =
    | Complete(at: Time)
    | Retry(at: Time, availableAt: Time, error: string)
    | Block(at: Time, error: string)

  function Moved(o: Operation, move: Move): Operation {
    var free := o.(attempts := o.attempts + 1, claimToken := None, claimExpiresAt := None);
    match move
    case Complete(at) =>
      free.(status := Completed, passwordHash := None, lastError := None, terminalAt := Some(at))
    case Retry(_, availableAt, error) =>
      free.(status := Pending, lastError := Some(error), availableAt := availableAt,
            terminalAt := None)
    case Block(at, error) =>
      free.(status := Blocked, lastError := Some(error), terminalAt := Some(at))
  }

  predicate Owns(t: Table, id: OpId, token: Token, at: Time) {
    && id in t
    && t[id].status == Claimed
    && t[id].claimToken == Some(token)
    && t[id].claimExpiresAt.Some?
    && t[id].claimExpiresAt.value > at
  }

  function AfterMove(t: Table, id: OpId, token: Token, move: Move): Table {
    if Owns(t, id, token, move.at) then t[id := Moved(t[id], move)] else t
  }

  function RedriveOperation(o: Operation, availableAt: Time): Operation {
    o.(status := Pending, attempts := 0, lastError := None, availableAt := availableAt,
       claimToken := None, claimExpiresAt := None, terminalAt := None,
       redriveCount := o.redriveCount + 1)
  }

  function AfterRedrive(t: Table, id: OpId, availableAt: Time): Table {
    if id in t && t[id].status == Blocked then t[id := RedriveOperation(t[id], availableAt)] else t
  }

  function ClaimRanks(t: Table, now: Time, locked: set<OpId>): map<OpId, Rank> {
    map id | id in t && id !in locked && Eligible(t[id], now)
      :: Rank(t[id].availableAt, t[id].createdAt)
  }

  datatype ArgumentError = LimitNotPositive | EmptyClaimWindow

  class RegistrationOperationRepository {
    var ops: Table

    ghost predicate Valid()
      reads this
    {
      Unique(ops) && forall id | id in ops :: ops[id].Lifecycle()
    }

    constructor ()
      ensures ops == map[] && Valid()
    {
      ops := map[];
    }

    /** A candidate that violates any unique constraint is silently not inserted. */
    method TryCreate(id: OpId, op: Operation) returns (created: bool)
      requires Valid() && op.Lifecycle()
      modifies this
      ensures Valid()
      ensures created == Insertable(old(ops), id, op)
      ensures ops == if created then old(ops)[id := op] else old(ops)
    {
      created := id !in ops && forall a | a in ops :: !Clash(ops[a], op);
      if created {
        ops := ops[id := op];
      }
    }

    method GetByKeyHash(key: string) returns (found: Option<OpId>)
      requires Valid()
      ensures found.None? ==> forall id | id in ops :: ops[id].keyHash != key
      ensures found.Some? ==> found.value in ops && ops[found.value].keyHash == key
      ensures found.Some? ==> forall id | id in ops && ops[id].keyHash == key :: id == found.value
    {
      if exists id :: id in ops && ops[id].keyHash == key {
        var id :| id in ops && ops[id].keyHash == key;
        return Some(id);
      }
      return None;
    }

    method ClaimByKeyHash(key: string, owner: Token, claimedAt: Time, expiresAt: Time)
      returns (r: Result<Option<OpId>, ArgumentError>)
      requires Valid()
      modifies this
      ensures Valid()
      ensures r.Err? <==> expiresAt <= claimedAt
      ensures (r.Err? || r.value.None?) ==> ops == old(ops)
      ensures r.Ok? && r.value.None? ==>
                forall id | id in ops && ops[id].keyHash == key :: !Eligible(ops[id], claimedAt)
      ensures r.Ok? && r.value.Some? ==>
                && r.value.value in old(ops) && old(ops)[r.value.value].keyHash == key
                && Eligible(old(ops)[r.value.value], claimedAt)
                && ops == AfterClaim(old(ops), {r.value.value}, owner, expiresAt)
    {
      if expiresAt <= claimedAt {
        return Err(EmptyClaimWindow);
      }
      var found := GetByKeyHash(key);
      if found.None? || !Eligible(ops[found.value], claimedAt) {
        return Ok(None);
      }
      ops := AfterClaim(ops, {found.value}, owner, expiresAt);
      return Ok(found);
    }

    /** `locked` are the rows that SKIP LOCKED passes over. */
    method ClaimBatch(owner: Token, claimedAt: Time, expiresAt: Time, limit: int,
                      locked: set<OpId>)
      returns (r: Result<seq<OpId>, ArgumentError>)
      requires Valid()
      modifies this
      ensures Valid()
      ensures r.Err? <==> limit <= 0 || expiresAt <= claimedAt
      ensures r.Err? ==> ops == old(ops)
      ensures r.Ok? ==> IsOldest(ClaimRanks(old(ops), claimedAt, locked), r.value, limit)
      ensures r.Ok? ==> ops == AfterClaim(old(ops), Members(r.value), owner, expiresAt)
    {
      if limit <= 0 {
        return Err(LimitNotPositive);
      }
      if expiresAt <= claimedAt {
        return Err(EmptyClaimWindow);
      }
      var ids := SelectOldest(ClaimRanks(ops, claimedAt, locked), limit);
      ops := AfterClaim(ops, Members(ids), owner, expiresAt);
      return Ok(ids);
    }

    method CompleteOperation(id: OpId, owner: Token, completedAt: Time) returns (ok: bool)
      requires Valid()
      modifies this
      ensures Valid()
      ensures ok == Owns(old(ops), id, owner, completedAt)
      ensures ops == AfterMove(old(ops), id, owner, Complete(completedAt))
    {
      ok := Owns(ops, id, owner, completedAt);
      if ok {
        var o := ops[id];
        ops := ops[id := o.(status := Completed, attempts := o.attempts + 1,
                            passwordHash := None, lastError := None, claimToken := None,
                            claimExpiresAt := None, terminalAt := Some(completedAt))];
      }
    }

    method ScheduleRetry(id: OpId, owner: Token, failedAt: Time, availableAt: Time, error: string)
      returns (ok: bool)
      requires Valid()
      modifies this
      ensures Valid()
      ensures ok == Owns(old(ops), id, owner, failedAt)
      ensures ops == AfterMove(old(ops), id, owner, Retry(failedAt, availableAt, error))
    {
      ok := Owns(ops, id, owner, failedAt);
      if ok {
        var o := ops[id];
        ops := ops[id := o.(status := Pending, attempts := o.attempts + 1,
                            lastError := Some(error), availableAt := availableAt,
                            claimToken := None, claimExpiresAt := None, terminalAt := None)];
      }
    }

    method BlockOperation(id: OpId, owner: Token, blockedAt: Time, error: string)
      returns (ok: bool)
      requires Valid()
      modifies this
      ensures Valid()
      ensures ok == Owns(old(ops), id, owner, blockedAt)
      ensures ops == AfterMove(old(ops), id, owner, Block(blockedAt, error))
    {
      ok := Owns(ops, id, owner, blockedAt);
      if ok {
        var o := ops[id];
        ops := ops[id := o.(status := Blocked, attempts := o.attempts + 1,
                            lastError := Some(error), claimToken := None,
                            claimExpiresAt := None, terminalAt := Some(blockedAt))];
      }
    }

    method RedriveBlocked(id: OpId, availableAt: Time) returns (ok: bool)
      requires Valid()
      modifies this
      ensures Valid()
      ensures ok == (id in old(ops) && old(ops)[id].status == Blocked)
      ensures ops == AfterRedrive(old(ops), id, availableAt)
    {
      ok := id in ops && ops[id].status == Blocked;
      if ok {
        ops := ops[id := RedriveOperation(ops[id], availableAt)];
      }
    }
  }
}
