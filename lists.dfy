/** `Array.prototype.filter` on sequences, and the facts about it that the
    list updates of the components rely on. */
module Lists {

  /** The elements of `s` that satisfy `p`, in their original order. */
  function Filter<T>(s: seq<T>, p: T -> bool): (r: seq<T>)
    ensures |r| <= |s|
    ensures forall i :: 0 <= i < |r| ==> p(r[i])
  {
    if s == [] then []
    else if p(s[0]) then [s[0]] + Filter(s[1..], p)
    else Filter(s[1..], p)
  }

  /** An element survives the filter exactly when it is in `s` and passes. */
  lemma {:induction false} FilterMembers<T>(s: seq<T>, p: T -> bool)
    ensures forall x :: x in Filter(s, p) <==> x in s && p(x)
  {
    if s != [] {
      FilterMembers(s[1..], p);
      assert s == [s[0]] + s[1..];
    }
  }

  /** Filtering distributes over concatenation: the survivors keep their
      relative order. */
  lemma {:induction false} FilterAppend<T>(s: seq<T>, t: seq<T>, p: T -> bool)
    ensures Filter(s + t, p) == Filter(s, p) + Filter(t, p)
  {
    if s == [] {
      assert s + t == t;
    } else {
      assert (s + t)[1..] == s[1..] + t;
      FilterAppend(s[1..], t, p);
    }
  }

  /** A filter that every element passes changes nothing. */
  lemma {:induction false} FilterAll<T>(s: seq<T>, p: T -> bool)
    requires forall i :: 0 <= i < |s| ==> p(s[i])
    ensures Filter(s, p) == s
  {
    if s != [] {
      FilterAll(s[1..], p);
    }
  }

  /** Splitting by a test and its negation loses and adds nothing. */
  lemma {:induction false} FilterSplit<T>(s: seq<T>, p: T -> bool)
    ensures multiset(Filter(s, p)) + multiset(Filter(s, Not(p))) == multiset(s)
  {
    if s != [] {
      FilterSplit(s[1..], p);
      PartitionCons(p, s);
      assert s == [s[0]] + s[1..];
    }
  }

  /** A filter that no element passes leaves nothing. */
  lemma {:induction false} FilterNone<T>(s: seq<T>, p: T -> bool)
    requires forall i :: 0 <= i < |s| ==> !p(s[i])
    ensures Filter(s, p) == []
  {
    if s != [] {
      FilterNone(s[1..], p);
    }
  }

  /** No element is listed twice. */
  predicate NoDup<T(==)>(s: seq<T>) {
    forall i, j :: 0 <= i < j < |s| ==> s[i] != s[j]
  }

  /** Filtering a list without repeats leaves a list without repeats. */
  lemma {:induction false} FilterNoDup<T>(s: seq<T>, p: T -> bool)
    requires NoDup(s)
    ensures NoDup(Filter(s, p))
  {
    if s != [] {
      var tail := s[1..];
      assert NoDup(tail) by {
        forall a, b | 0 <= a < b < |tail|
          ensures tail[a] != tail[b]
        {
          assert tail[a] == s[a + 1] && tail[b] == s[b + 1];
        }
      }
      FilterNoDup(tail, p);
      FilterMembers(tail, p);
      assert s[0] !in tail by {
        forall k | 0 <= k < |tail|
          ensures tail[k] != s[0]
        {
          assert tail[k] == s[k + 1];
        }
      }
    }
  }

  /** The negation of a test. */
  function Not<T>(p: T -> bool): T -> bool {
    x => !p(x)
  }

  /** The comparator `(p(b) ? 1 : 0) - (p(a) ? 1 : 0)`: negative when `a`
      passes the test and `b` does not, so passing elements sort first. */
  function CompareBy<T>(p: T -> bool, a: T, b: T): int {
    (if p(b) then 1 else 0) - (if p(a) then 1 else 0)
  }

  /** Inserts `x` into `t` in front of the first element that the
      comparator does not place before `x`. */
  function Insert<T>(p: T -> bool, x: T, t: seq<T>): seq<T> {
    if t == [] || CompareBy(p, x, t[0]) <= 0 then [x] + t
    else [t[0]] + Insert(p, x, t[1..])
  }

  /** Stable insertion sort by `CompareBy(p, _, _)`, inserting from the back
      of the array. Sorting is stable in JavaScript, and a stable sort is
      determined by its comparator, so this stands for `sort`. */
  function StableSort<T>(p: T -> bool, s: seq<T>): seq<T> {
    if s == [] then []
    else Insert(p, s[0], StableSort(p, s[1..]))
  }

  /** An element that fails the test goes after the passing ones and before
      the failing ones. */
  lemma {:induction false} InsertFailing<T>(p: T -> bool, x: T, a: seq<T>, b: seq<T>)
    requires forall i :: 0 <= i < |a| ==> p(a[i])
    requires forall i :: 0 <= i < |b| ==> !p(b[i])
    requires !p(x)
    ensures Insert(p, x, a + b) == a + [x] + b
  {
    if a == [] {
      assert a + b == b;
      assert a + [x] + b == [x] + b;
    } else {
      assert (a + b)[0] == a[0];
      assert (a + b)[1..] == a[1..] + b;
      InsertFailing(p, x, a[1..], b);
      assert a + [x] + b == [a[0]] + (a[1..] + [x] + b);
    }
  }

  /** The partition of a non-empty sequence in terms of its tail's. */
  lemma PartitionCons<T>(p: T -> bool, s: seq<T>)
    requires s != []
    ensures p(s[0]) ==> Filter(s, p) == [s[0]] + Filter(s[1..], p) && Filter(s, Not(p)) == Filter(s[1..], Not(p))
    ensures !p(s[0]) ==> Filter(s, p) == Filter(s[1..], p) && Filter(s, Not(p)) == [s[0]] + Filter(s[1..], Not(p))
  {
  }

  /** A passing element goes in front. */
  lemma InsertPassing<T>(p: T -> bool, x: T, t: seq<T>)
    requires p(x)
    ensures Insert(p, x, t) == [x] + t
  {
    if t != [] {
      assert CompareBy(p, x, t[0]) <= 0;
    }
  }

  /** One step of the sort's recursion. */
  lemma SortUnfold<T>(p: T -> bool, s: seq<T>)
    requires s != []
    ensures StableSort(p, s) == Insert(p, s[0], StableSort(p, s[1..]))
  {
  }

  /** The sort step for a passing head, given the sorted tail. */
  lemma SortStepPassing<T>(p: T -> bool, s: seq<T>)
    requires s != [] && p(s[0])
    requires StableSort(p, s[1..]) == Filter(s[1..], p) + Filter(s[1..], Not(p))
    ensures StableSort(p, s) == Filter(s, p) + Filter(s, Not(p))
  {
    var x, m, n := s[0], Filter(s[1..], p), Filter(s[1..], Not(p));
    calc {
      StableSort(p, s);
      == { SortUnfold(p, s); }
      Insert(p, x, m + n);
      == { InsertPassing(p, x, m + n); }
      [x] + (m + n);
      ==
      ([x] + m) + n;
      == { PartitionCons(p, s); }
      Filter(s, p) + Filter(s, Not(p));
    }
  }

  /** The sort step for a failing head, given the sorted tail. */
  lemma SortStepFailing<T>(p: T -> bool, s: seq<T>)
    requires s != [] && !p(s[0])
    requires StableSort(p, s[1..]) == Filter(s[1..], p) + Filter(s[1..], Not(p))
    ensures StableSort(p, s) == Filter(s, p) + Filter(s, Not(p))
  {
    var x, m, n := s[0], Filter(s[1..], p), Filter(s[1..], Not(p));
    assert forall i :: 0 <= i < |n| ==> !p(n[i]) by {
      assert forall i :: 0 <= i < |n| ==> Not(p)(n[i]);
    }
    calc {
      StableSort(p, s);
      == { SortUnfold(p, s); }
      Insert(p, x, m + n);
      == { InsertFailing(p, x, m, n); }
      m + [x] + n;
      ==
      m + ([x] + n);
      == { PartitionCons(p, s); }
      Filter(s, p) + Filter(s, Not(p));
    }
  }

  /** The stable sort puts the passing elements first, then the failing
      ones, each group in its original order. */
  lemma {:induction false} StableSortIsPartition<T>(p: T -> bool, s: seq<T>)
    ensures StableSort(p, s) == Filter(s, p) + Filter(s, Not(p))
  {
    if s != [] {
      StableSortIsPartition(p, s[1..]);
      if p(s[0]) {
        SortStepPassing(p, s);
      } else {
        SortStepFailing(p, s);
      }
    }
  }
}
