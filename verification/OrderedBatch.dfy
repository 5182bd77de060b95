/**
 * `ORDER BY … LIMIT n`: the oldest rows of a candidate set, ties broken by id.
 * The claim and cleanup statements of the repositories all select this way.
 */
module OrderedBatch {
  datatype Rank = Rank(major: int, minor: int)

  predicate Less(a: Rank, i: nat, b: Rank, j: nat) {
    || a.major < b.major
    || (a.major == b.major && (a.minor < b.minor || (a.minor == b.minor && i < j)))
  }

  predicate Before(ranks: map<nat, Rank>, i: nat, j: nat)
    requires i in ranks && j in ranks
  {
    Less(ranks[i], i, ranks[j], j)
  }

  /** `ids` are the first `limit` candidates in order, all of them if there are fewer. */
  predicate IsOldest(ranks: map<nat, Rank>, ids: seq<nat>, limit: int) {
    && |ids| <= limit
    && (forall k | 0 <= k < |ids| :: ids[k] in ranks)
    && (forall k, l | 0 <= k < l < |ids| :: Before(ranks, ids[k], ids[l]))
    && (forall x | x in ranks && x !in ids ::
          |ids| == limit && forall k | 0 <= k < |ids| :: Before(ranks, ids[k], x))
  }

  lemma {:induction false} HasOldest(ranks: map<nat, Rank>, left: set<nat>)
    requires left != {} && left <= ranks.Keys
    ensures exists m :: m in left && forall x | x in left && x != m :: Before(ranks, m, x)
    decreases |left|
  {
    var a :| a in left;
    if left == {a} {
    } else {
      HasOldest(ranks, left - {a});
      var m :| m in left - {a} && forall x | x in left - {a} && x != m :: Before(ranks, m, x);
      if Before(ranks, a, m) {
        forall x | x in left && x != a
          ensures Before(ranks, a, x)
        {
          assert x == m || Before(ranks, m, x);
        }
      } else {
        forall x | x in left && x != m
          ensures Before(ranks, m, x)
        {
          assert x == a || x in left - {a};
        }
      }
    }
  }

  function Members(ids: seq<nat>): set<nat> {
    set id | id in ids
  }

  method SelectOldest(ranks: map<nat, Rank>, limit: int) returns (ids: seq<nat>)
    requires 0 < limit
    ensures IsOldest(ranks, ids, limit)
  {
    ids := [];
    var left := ranks.Keys;
    while |ids| < limit && left != {}
      invariant |ids| <= limit
      invariant left <= ranks.Keys
      invariant forall k | 0 <= k < |ids| :: ids[k] in ranks && ids[k] !in left
      invariant forall x | x in ranks :: x in ids || x in left
      invariant forall k, l | 0 <= k < l < |ids| :: Before(ranks, ids[k], ids[l])
      invariant forall k, x | 0 <= k < |ids| && x in left :: Before(ranks, ids[k], x)
      decreases left
    {
      HasOldest(ranks, left);
      var m :| m in left && forall x | x in left && x != m :: Before(ranks, m, x);
      ids := ids + [m];
      left := left - {m};
    }
  }
}
