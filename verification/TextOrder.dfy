/** Code-point order on texts, and stable sorting by a text key. */
module TextOrder {
  predicate AtMost(a: string, b: string) {
    a == "" || (b != "" && (a[0] < b[0] || (a[0] == b[0] && AtMost(a[1..], b[1..]))))
  }

  lemma {:induction false} Total(a: string, b: string)
    ensures AtMost(a, b) || AtMost(b, a)
  {
    if a != "" && b != "" && a[0] == b[0] {
      Total(a[1..], b[1..]);
    }
  }

  lemma {:induction false} Antisymmetric(a: string, b: string)
    requires AtMost(a, b) && AtMost(b, a)
    ensures a == b
  {
    if a != "" {
      Antisymmetric(a[1..], b[1..]);
      assert a == [a[0]] + a[1..] && b == [b[0]] + b[1..];
    }
  }

  lemma {:induction false} Transitive(a: string, b: string, c: string)
    requires AtMost(a, b) && AtMost(b, c)
    ensures AtMost(a, c)
  {
    if a != "" && a[0] == b[0] == c[0] {
      Transitive(a[1..], b[1..], c[1..]);
    }
  }

  datatype Keyed<+T> = Keyed(key: string, item: T)

  function Keys<T>(xs: seq<Keyed<T>>): (ks: seq<string>)
    ensures |ks| == |xs| && forall i | 0 <= i < |xs| :: ks[i] == xs[i].key
  {
    seq(|xs|, i requires 0 <= i < |xs| => xs[i].key)
  }

  predicate Sorted(ks: seq<string>) {
    forall i, j | 0 <= i < j < |ks| :: AtMost(ks[i], ks[j])
  }

  /** Insertion after every element with a key not above. */
  function Insert<T>(x: Keyed<T>, xs: seq<Keyed<T>>): seq<Keyed<T>> {
    if xs == [] || AtMost(xs[|xs| - 1].key, x.key) then xs + [x]
    else Insert(x, xs[..|xs| - 1]) + [xs[|xs| - 1]]
  }

  /** `sorted(xs, key=…)`: stable. */
  function Sort<T>(xs: seq<Keyed<T>>): seq<Keyed<T>> {
    if xs == [] then [] else Insert(xs[|xs| - 1], Sort(xs[..|xs| - 1]))
  }

  lemma {:induction false} InsertPermutes<T>(x: Keyed<T>, xs: seq<Keyed<T>>)
    ensures multiset(Insert(x, xs)) == multiset(xs) + multiset{x}
  {
    if xs == [] || AtMost(xs[|xs| - 1].key, x.key) {
    } else {
      var n := |xs| - 1;
      InsertPermutes(x, xs[..n]);
      assert xs == xs[..n] + [xs[n]];
    }
  }

  predicate AllAtMost<T>(xs: seq<Keyed<T>>, key: string) {
    forall i | 0 <= i < |xs| :: AtMost(xs[i].key, key)
  }

  /** One more element that is not below the last keeps a sequence sorted. */
  lemma SortedSnoc<T>(xs: seq<Keyed<T>>, x: Keyed<T>)
    requires Sorted(Keys(xs)) && AllAtMost(xs, x.key)
    ensures Sorted(Keys(xs + [x]))
  {
    var ys := xs + [x];
    forall i, j | 0 <= i < j < |ys|
      ensures AtMost(ys[i].key, ys[j].key)
    {
      assert j < |xs| ==> AtMost(Keys(xs)[i], Keys(xs)[j]);
    }
  }

  lemma InsertMembers<T>(x: Keyed<T>, xs: seq<Keyed<T>>, i: nat)
    requires i < |Insert(x, xs)|
    ensures Insert(x, xs)[i] == x || Insert(x, xs)[i] in xs
  {
    InsertPermutes(x, xs);
    assert Insert(x, xs)[i] in multiset(Insert(x, xs));
  }

  lemma {:induction false} InsertSorts<T>(x: Keyed<T>, xs: seq<Keyed<T>>)
    requires Sorted(Keys(xs))
    ensures Sorted(Keys(Insert(x, xs)))
  {
    if xs == [] {
    } else {
      var n := |xs| - 1;
      if AtMost(xs[n].key, x.key) {
        forall i | 0 <= i < |xs|
          ensures AtMost(xs[i].key, x.key)
        {
          if i < n {
            assert AtMost(Keys(xs)[i], Keys(xs)[n]);
            Transitive(xs[i].key, xs[n].key, x.key);
          }
        }
        SortedSnoc(xs, x);
      } else {
        Total(xs[n].key, x.key);
        DropLast(xs);
        InsertSorts(x, xs[..n]);
        InsertBelow(x, xs);
        SortedSnoc(Insert(x, xs[..n]), xs[n]);
      }
    }
  }

  lemma InsertBelow<T>(x: Keyed<T>, xs: seq<Keyed<T>>)
    requires xs != [] && Sorted(Keys(xs)) && AtMost(x.key, xs[|xs| - 1].key)
    ensures AllAtMost(Insert(x, xs[..|xs| - 1]), xs[|xs| - 1].key)
  {
    var n := |xs| - 1;
    var ys := Insert(x, xs[..n]);
    forall i | 0 <= i < |ys|
      ensures AtMost(ys[i].key, xs[n].key)
    {
      InsertMembers(x, xs[..n], i);
      if ys[i] != x {
        var k :| 0 <= k < n && xs[..n][k] == ys[i];
        assert AtMost(Keys(xs)[k], Keys(xs)[n]);
      }
    }
  }

  lemma {:induction false} SortPermutes<T>(xs: seq<Keyed<T>>)
    ensures multiset(Sort(xs)) == multiset(xs)
    ensures |Sort(xs)| == |xs|
    ensures Sorted(Keys(Sort(xs)))
  {
    if xs != [] {
      var n := |xs| - 1;
      var front := xs[..n];
      SortPermutes(front);
      InsertSorts(xs[n], Sort(front));
      assert multiset(Sort(xs)) == multiset(xs) by {
        InsertPermutes(xs[n], Sort(front));
        assert xs == front + [xs[n]];
      }
      assert |Sort(xs)| == |multiset(Sort(xs))| == |multiset(xs)| == |xs|;
    }
  }

  /** The key picks out the element. */
  ghost predicate KeyDecides<T>(xs: seq<Keyed<T>>) {
    forall i, j | 0 <= i < |xs| && 0 <= j < |xs| && xs[i].key == xs[j].key :: xs[i] == xs[j]
  }

  lemma DropLast<T>(a: seq<Keyed<T>>)
    requires a != [] && Sorted(Keys(a))
    ensures multiset(a[..|a| - 1]) == multiset(a) - multiset{a[|a| - 1]}
    ensures Sorted(Keys(a[..|a| - 1]))
  {
    var n := |a| - 1;
    assert a == a[..n] + [a[n]];
    forall i, j | 0 <= i < j < n
      ensures AtMost(a[i].key, a[j].key)
    {
      assert AtMost(Keys(a)[i], Keys(a)[j]);
    }
  }

  lemma {:induction false} SortedUnique<T>(a: seq<Keyed<T>>, b: seq<Keyed<T>>)
    requires Sorted(Keys(a)) && Sorted(Keys(b))
    requires multiset(a) == multiset(b) && KeyDecides(a)
    ensures a == b
    decreases |a|
  {
    assert |a| == |multiset(a)| == |multiset(b)| == |b|;
    if a != [] {
      FrontsMatch(a, b, |a| - 1);
      SortedUnique(a[..|a| - 1], b[..|a| - 1]);
      SnocUnique(a, b, |a| - 1);
    }
  }

  lemma SnocUnique<T>(a: seq<T>, b: seq<T>, n: nat)
    requires |a| == |b| == n + 1 && a[..n] == b[..n] && a[n] == b[n]
    ensures a == b
  {
    assert a == a[..n] + [a[n]];
    assert b == b[..n] + [b[n]];
  }

  lemma FrontsMatch<T>(a: seq<Keyed<T>>, b: seq<Keyed<T>>, n: nat)
    requires Sorted(Keys(a)) && Sorted(Keys(b)) && |a| == |b| == n + 1
    requires multiset(a) == multiset(b) && KeyDecides(a)
    ensures a[n] == b[n] && multiset(a[..n]) == multiset(b[..n])
    ensures Sorted(Keys(a[..n])) && Sorted(Keys(b[..n])) && KeyDecides(a[..n])
  {
    SameLast(a, b);
    DropLast(a);
    DropLast(b);
  }

  lemma SameLast<T>(a: seq<Keyed<T>>, b: seq<Keyed<T>>)
    requires Sorted(Keys(a)) && Sorted(Keys(b)) && a != [] && b != []
    requires multiset(a) == multiset(b) && KeyDecides(a)
    ensures a[|a| - 1] == b[|b| - 1]
  {
    LastIsGreatest(a, b);
    LastIsGreatest(b, a);
    Antisymmetric(a[|a| - 1].key, b[|b| - 1].key);
    assert b[|b| - 1] in multiset(b);
    var k :| 0 <= k < |a| && a[k] == b[|b| - 1];
  }

  lemma LastIsGreatest<T>(a: seq<Keyed<T>>, b: seq<Keyed<T>>)
    requires a != [] && b != [] && Sorted(Keys(b)) && multiset(a) == multiset(b)
    ensures AtMost(a[|a| - 1].key, b[|b| - 1].key)
  {
    var x := a[|a| - 1];
    assert x in multiset(b);
    var k :| 0 <= k < |b| && b[k] == x;
    if k < |b| - 1 {
      assert AtMost(Keys(b)[k], Keys(b)[|b| - 1]);
    } else {
      Total(x.key, x.key);
    }
  }

  /** Sorting forgets the order of its input wherever the key picks out the element. */
  lemma SortForgetsOrder<T>(a: seq<Keyed<T>>, b: seq<Keyed<T>>)
    requires multiset(a) == multiset(b) && KeyDecides(a)
    ensures Sort(a) == Sort(b)
  {
    SortPermutes(a);
    SortPermutes(b);
    forall i, j | 0 <= i < |a| && 0 <= j < |a| && Sort(a)[i].key == Sort(a)[j].key
      ensures Sort(a)[i] == Sort(a)[j]
    {
      assert Sort(a)[i] in multiset(Sort(a)) && Sort(a)[j] in multiset(Sort(a));
      assert Sort(a)[i] in a && Sort(a)[j] in a;
    }
    SortedUnique(Sort(a), Sort(b));
  }

  lemma InsertLast<T>(x: Keyed<T>, front: seq<Keyed<T>>)
    requires front == [] || AtMost(front[|front| - 1].key, x.key)
    ensures Insert(x, front) == front + [x]
  {
  }

  lemma {:induction false} SortKeepsSorted<T>(xs: seq<Keyed<T>>)
    requires Sorted(Keys(xs))
    ensures Sort(xs) == xs
  {
    if xs != [] {
      var n := |xs| - 1;
      var front, x := xs[..n], xs[n];
      assert n > 0 ==> AtMost(Keys(xs)[n - 1], Keys(xs)[n]);
      calc {
        Sort(xs);
        Insert(x, Sort(front));
        { DropLast(xs); SortKeepsSorted(front); }
        Insert(x, front);
        { InsertLast(x, front); }
        front + [x];
        xs;
      }
    }
  }
}
