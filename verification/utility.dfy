/** `Student.utility`: the sum of a student's valuations over the courses
    of their bundle, where an unlisted course is worth 0. */
module Valuation {
  import opened Domain

  /** The value one course adds: its listed valuation, or 0 when the
      valuation has no entry for its id (the `|| 0` fallback). */
  function CourseValue(v: map<int, int>, c: Course): (x: int)
    ensures c.courseId in v ==> x == v[c.courseId]
    ensures c.courseId !in v ==> x == 0
    ensures NonNegative(v) ==> x >= 0
  {
    if c.courseId in v then v[c.courseId] else 0
  }

  /** The sum of the course values of a bundle; never negative when no
      valuation entry is. */
  function BundleValue(v: map<int, int>, b: seq<Course>): (x: int)
    ensures NonNegative(v) ==> x >= 0
  {
    if |b| == 0 then 0 else CourseValue(v, b[0]) + BundleValue(v, b[1..])
  }

  /** The courses of a bundle whose ids the valuation lists, in order. */
  function Listed(v: map<int, int>, b: seq<Course>): seq<Course>
  {
    if |b| == 0 then []
    else if b[0].courseId in v then [b[0]] + Listed(v, b[1..])
    else Listed(v, b[1..])
  }

  /** Every valuation entry is non-negative. */
  predicate NonNegative(v: map<int, int>)
  {
    forall k :: k in v ==> v[k] >= 0
  }

  /** A student's utility for an allocation. A student without an entry in
      the allocation has no utility: reading `reduce` of `undefined` throws. */
  function Utility(s: Student, allocation: Allocation): (r: Option<int>)
    ensures r.Some? <==> s.studentId in allocation
    ensures r.Some? ==> r.value == BundleValue(s.valuation, Listed(s.valuation, allocation[s.studentId]))
  {
    if s.studentId in allocation then
      BundleValueIgnoresUnlisted(s.valuation, allocation[s.studentId]);
      Some(BundleValue(s.valuation, allocation[s.studentId]))
    else
      None
  }

  /** The `reduce` of `Student.utility`: a left-to-right fold from 0. */
  method ReduceUtility(s: Student, allocation: Allocation) returns (r: Option<int>)
    ensures r.Some? <==> s.studentId in allocation
    ensures r.Some? ==> r.value == BundleValue(s.valuation, allocation[s.studentId])
  {
    if s.studentId !in allocation {
      return None;
    }
    var bundle := allocation[s.studentId];
    var total := 0;
    var i := 0;
    while i < |bundle|
      invariant 0 <= i <= |bundle|
      invariant total == BundleValue(s.valuation, bundle[..i])
    {
      BundleValueAppend(s.valuation, bundle[..i], [bundle[i]]);
      assert bundle[..i] + [bundle[i]] == bundle[..i + 1];
      total := total + CourseValue(s.valuation, bundle[i]);
      i := i + 1;
    }
    assert bundle[..i] == bundle;
    r := Some(total);
  }

  /** Utility is additive: the value of two bundles side by side is the sum
      of their values. */
  lemma {:induction false} BundleValueAppend(v: map<int, int>, a: seq<Course>, b: seq<Course>)
    ensures BundleValue(v, a + b) == BundleValue(v, a) + BundleValue(v, b)
    decreases |a|
  {
    if |a| == 0 {
      assert a + b == b;
    } else {
      assert (a + b)[1..] == a[1..] + b;
      BundleValueAppend(v, a[1..], b);
    }
  }

  /** Taking the course at position i out of a bundle lowers its value by
      exactly that course's value. */
  lemma BundleValueRemoveAt(v: map<int, int>, b: seq<Course>, i: int)
    requires 0 <= i < |b|
    ensures BundleValue(v, b) == BundleValue(v, b[..i] + b[i + 1..]) + CourseValue(v, b[i])
  {
    assert b == b[..i] + ([b[i]] + b[i + 1..]);
    BundleValueAppend(v, b[..i], [b[i]] + b[i + 1..]);
    BundleValueAppend(v, [b[i]], b[i + 1..]);
    BundleValueAppend(v, b[..i], b[i + 1..]);
  }

  /** Utility is order-independent: any permutation of a bundle has the
      same value. */
  lemma {:induction false} BundleValuePermutation(v: map<int, int>, a: seq<Course>, b: seq<Course>)
    requires multiset(a) == multiset(b)
    ensures BundleValue(v, a) == BundleValue(v, b)
    decreases |a|
  {
    if |a| == 0 {
      assert |multiset(b)| == 0;
    } else {
      var x := a[0];
      assert x in multiset(b);
      var i :| 0 <= i < |b| && b[i] == x;
      var b' := b[..i] + b[i + 1..];
      assert b == b[..i] + [x] + b[i + 1..];
      assert multiset(b') == multiset(b) - multiset{x};
      assert a == [x] + a[1..];
      assert multiset(a[1..]) == multiset(a) - multiset{x};
      BundleValuePermutation(v, a[1..], b');
      BundleValueRemoveAt(v, b, i);
    }
  }

  /** Courses the valuation does not list contribute nothing: a bundle is
      worth exactly what its listed courses are worth, and a bundle of
      unlisted courses (the empty bundle among them) is worth 0. */
  lemma {:induction false} BundleValueIgnoresUnlisted(v: map<int, int>, b: seq<Course>)
    ensures BundleValue(v, b) == BundleValue(v, Listed(v, b))
    ensures (forall i :: 0 <= i < |b| ==> b[i].courseId !in v) ==> BundleValue(v, b) == 0
    decreases |b|
  {
    if |b| > 0 {
      BundleValueIgnoresUnlisted(v, b[1..]);
      if b[0].courseId in v {
        assert ([b[0]] + Listed(v, b[1..]))[1..] == Listed(v, b[1..]);
      }
    }
  }

  /** A bundle whose every course the valuation lists at the same value u
      is worth u times its length; under `uniformUtilities1` the utility
      counts the courses. */
  lemma {:induction false} BundleValueUniform(v: map<int, int>, b: seq<Course>, u: int)
    requires forall i :: 0 <= i < |b| ==> b[i].courseId in v && v[b[i].courseId] == u
    ensures BundleValue(v, b) == u * |b|
    decreases |b|
  {
    if |b| > 0 {
      BundleValueUniform(v, b[1..], u);
      assert u * |b| == u + u * |b[1..]|;
    }
  }

  /** With non-negative valuations, adding courses never lowers a bundle's
      value: a bundle contained (as a multiset) in another is worth no more. */
  lemma {:induction false} BundleValueMonotone(v: map<int, int>, a: seq<Course>, b: seq<Course>)
    requires NonNegative(v)
    requires multiset(a) <= multiset(b)
    ensures BundleValue(v, a) <= BundleValue(v, b)
    decreases |a|
  {
    if |a| > 0 {
      var x := a[0];
      assert x in multiset(a);
      assert x in multiset(b);
      var i :| 0 <= i < |b| && b[i] == x;
      var b' := b[..i] + b[i + 1..];
      assert b == b[..i] + [x] + b[i + 1..];
      assert multiset(b') == multiset(b) - multiset{x};
      assert a == [x] + a[1..];
      assert multiset(a[1..]) == multiset(a) - multiset{x};
      BundleValueMonotone(v, a[1..], b');
      BundleValueRemoveAt(v, b, i);
    }
  }

  /** `utility` reads only the student's own entry of the allocation:
      replacing or removing another student's bundle leaves it unchanged. */
  lemma UtilityIgnoresOthers(s: Student, allocation: Allocation, k: int, b: seq<Course>)
    requires k != s.studentId
    ensures Utility(s, allocation[k := b]) == Utility(s, allocation)
    ensures Utility(s, allocation - {k}) == Utility(s, allocation)
  {
  }

  /** Utility over an allocation agrees with the reduce of `Student.utility`
      and is additive over a split of the student's bundle. */
  lemma UtilitySplit(s: Student, allocation: Allocation, a: seq<Course>, b: seq<Course>)
    requires s.studentId in allocation && allocation[s.studentId] == a + b
    ensures Utility(s, allocation) == Some(BundleValue(s.valuation, a) + BundleValue(s.valuation, b))
  {
    BundleValueAppend(s.valuation, a, b);
  }
}
