/**
 * The relay's own code: grouping a claimed batch into key streams, and settling one
 * message from the publisher's outcome.
 */
module OutboxRelay {
  import opened Prelude
  import opened OrderedBatch
  import opened OutboxTable
  import opened OutboxRuns

  datatype Message = Message(id: Id, key: string)

  /** The messages of one key, in batch order. */
  function Stream(messages: seq<Message>, key: string): seq<Id> {
    if messages == [] then []
    else
      var last := messages[|messages| - 1];
      var rest := Stream(messages[..|messages| - 1], key);
      if last.key == key then rest + [last.id] else rest
  }

  /** A stream lists its key's messages, all of them, in the order of the batch. */
  lemma {:induction false} StreamOfConcat(a: seq<Message>, b: seq<Message>, key: string)
    ensures Stream(a + b, key) == Stream(a, key) + Stream(b, key)
    decreases |b|
  {
    if b == [] {
      assert a + b == a;
    } else {
      var n := |b| - 1;
      var last := if b[n].key == key then [b[n].id] else [];
      StreamSnoc(b[..n], b[n], key);
      StreamSnoc(a + b[..n], b[n], key);
      assert b[..n] + [b[n]] == b;
      assert a + b[..n] + [b[n]] == a + b;
      StreamOfConcat(a, b[..n], key);
      assert (Stream(a, key) + Stream(b[..n], key)) + last == Stream(a, key) + (Stream(b[..n], key) + last);
    }
  }

  lemma StreamSnoc(a: seq<Message>, m: Message, key: string)
    ensures Stream(a + [m], key) == Stream(a, key) + if m.key == key then [m.id] else []
  {
    assert (a + [m])[..|a|] == a;
  }

  lemma StreamOfOne(m: Message, key: string)
    ensures Stream([m], key) == if m.key == key then [m.id] else []
  {
    StreamSnoc([], m, key);
    assert [] + [m] == [m];
  }

  method GroupByKey(messages: seq<Message>) returns (byKey: map<string, seq<Id>>)
    ensures forall k :: k in byKey <==> exists m :: m in messages && m.key == k
    ensures forall k | k in byKey :: byKey[k] == Stream(messages, k)
  {
    byKey := map[];
    for i := 0 to |messages|
      invariant forall k :: k in byKey <==> exists m :: m in messages[..i] && m.key == k
      invariant forall k | k in byKey :: byKey[k] == Stream(messages[..i], k)
      invariant forall k | k !in byKey :: Stream(messages[..i], k) == []
    {
      var msg := messages[i];
      assert messages[..i + 1] == messages[..i] + [msg];
      assert messages[..i + 1][..i] == messages[..i];
      var before := if msg.key in byKey then byKey[msg.key] else [];
      byKey := byKey[msg.key := before + [msg.id]];
    }
    assert messages[..|messages|] == messages;
  }

  function BatchMessages(t: Table, ids: seq<Id>): (messages: seq<Message>)
    requires forall k | 0 <= k < |ids| :: ids[k] in t
    ensures |messages| == |ids|
    ensures forall k | 0 <= k < |ids| :: messages[k] == Message(ids[k], t[ids[k]].key)
  {
    seq(|ids|, k requires 0 <= k < |ids| => Message(ids[k], t[ids[k]].key))
  }

  lemma {:induction false} DistinctStream(messages: seq<Message>, key: string)
    requires forall k, l | 0 <= k < l < |messages| :: messages[k].key != messages[l].key
    ensures |Stream(messages, key)| <= 1
    ensures (forall m | m in messages :: m.key != key) ==> Stream(messages, key) == []
  {
    if messages != [] {
      DistinctStream(messages[..|messages| - 1], key);
    }
  }

  /** Every stream of a claimed batch is a single message, so no worker orders within a key itself. */
  lemma StreamsAreSingletons(t: Table, now: Time, locked: set<Id>, ids: seq<Id>, limit: int, k: nat)
    requires IsOldest(ClaimRanks(t, now, locked), ids, limit) && k < |ids|
    ensures Stream(BatchMessages(t, ids), t[ids[k]].key) == [ids[k]]
  {
    BatchKeysDistinct(t, now, locked, ids, limit);
    StreamAt(BatchMessages(t, ids), k);
  }

  lemma {:induction false} StreamAt(messages: seq<Message>, k: nat)
    requires k < |messages|
    requires forall i, j | 0 <= i < j < |messages| :: messages[i].key != messages[j].key
    ensures Stream(messages, messages[k].key) == [messages[k].id]
  {
    var n := |messages| - 1;
    if k == n {
      DistinctStream(messages[..n], messages[k].key);
    } else {
      StreamAt(messages[..n], k);
    }
  }

  class OutboxRelayService {
    const claimLeaseSeconds: real
    const maxAttempts: int

    constructor (claimLeaseSeconds: real, maxAttempts: int)
      requires 0.0 < claimLeaseSeconds
      ensures this.claimLeaseSeconds == claimLeaseSeconds && this.maxAttempts == maxAttempts
    {
      this.claimLeaseSeconds := claimLeaseSeconds;
      this.maxAttempts := maxAttempts;
    }

    /** Construction with the source's `ValueError` for a lease that is not positive. */
    static method Create(claimLeaseSeconds: real, maxAttempts: int)
      returns (r: Result<OutboxRelayService, ()>)
      ensures r.Ok? <==> 0.0 < claimLeaseSeconds
      ensures r.Ok? ==> fresh(r.value) && r.value.claimLeaseSeconds == claimLeaseSeconds
                        && r.value.maxAttempts == maxAttempts
    {
      if claimLeaseSeconds <= 0.0 {
        return Err(());
      }
      var relay := new OutboxRelayService(claimLeaseSeconds, maxAttempts);
      return Ok(relay);
    }

    /** After the publisher answered: one guarded update, chosen from the snapshot's attempts. */
    method PublishClaimed(repo: OutboxRepository, id: Id, attempts: nat, owner: Token,
                          outcome: Outcome, now: Time, retryAt: Time)
      modifies repo
      ensures repo.rows == AfterSettle(old(repo.rows), id, owner,
                                       Decide(maxAttempts, Hold(attempts, now, Done(outcome, now)),
                                              retryAt))
      ensures if id in old(repo.rows) && old(repo.rows)[id].HeldBy(owner)
              then repo.rows == old(repo.rows)[id := repo.rows[id]]
                   && SettledBy(old(repo.rows)[id], repo.rows[id], maxAttempts, attempts, outcome,
                                now, retryAt)
              else repo.rows == old(repo.rows)
    {
      if outcome.Permanent? {
        var _ := repo.QuarantineMessage(id, owner, now, outcome.error);
      } else if outcome.Transient? {
        var attempt := attempts + 1;
        if attempt >= maxAttempts {
          var _ := repo.QuarantineMessage(id, owner, now, "RetryExhaustedError");
        } else {
          var _ := repo.ScheduleRetry(id, owner, retryAt, outcome.error);
        }
      } else {
        var _ := repo.FinalizePublished(id, owner, now);
      }
    }
  }
}
