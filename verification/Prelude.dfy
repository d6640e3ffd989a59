/** Small data types shared by every module of the model. */
module Prelude {

  /** The conventional present-or-absent value. */
  datatype Option<+T> = None | Some(value: T)

  /** A value or the reason there is none: the model of Go's `(value, error)` pair. */
  datatype Result<+T, +E> = Ok(value: T) | Err(error: E)

  /** No element of the sequence occurs twice. */
  ghost predicate Distinct<T>(s: seq<T>) {
    forall i, j :: 0 <= i < j < |s| ==> s[i] != s[j]
  }

  /** The elements of a sequence as a set. */
  function Elements<T>(s: seq<T>): set<T> {
    set x | x in s
  }

  /** The counter a table keeps for a key; a key it does not know counts as zero. */
  function Count<K(==)>(m: map<K, nat>, k: K): nat {
    if k in m then m[k] else 0
  }

  /** The numbers `lo, lo + 1, .., hi - 1`. */
  function Range(lo: nat, hi: nat): (r: seq<nat>)
    requires lo <= hi
  {
    seq(hi - lo, i requires 0 <= i => lo + i)
  }

  /** A sequence without repetitions is as long as its set of elements is large. */
  lemma {:induction false} DistinctCardinality<T>(s: seq<T>)
    requires Distinct(s)
    ensures |Elements(s)| == |s|
  {
    if s == [] {
      assert Elements(s) == {};
    } else {
      var init := s[..|s| - 1];
      DistinctCardinality(init);
      assert s == init + [s[|s| - 1]];
      assert Elements(s) == Elements(init) + {s[|s| - 1]};
    }
  }

  /** A subset is no larger than the set that contains it. */
  lemma {:induction false} SubsetCardinality<T>(a: set<T>, b: set<T>)
    requires a <= b
    ensures |a| <= |b|
    ensures |a| == |b| ==> a == b
  {
    if a != {} {
      var x :| x in a;
      SubsetCardinality(a - {x}, b - {x});
      if |a| == |b| {
        assert a == (a - {x}) + {x} && b == (b - {x}) + {x};
      }
    }
  }

  /** Appending a new element keeps a sequence free of repetitions. */
  lemma PushDistinct<T>(s: seq<T>, x: T)
    requires Distinct(s) && x !in s
    ensures Distinct(s + [x])
    ensures forall y :: y in s + [x] <==> y in s || y == x
  {
  }

  /** Removing the first element removes exactly that element. */
  lemma PopDistinct<T>(s: seq<T>)
    requires Distinct(s) && s != []
    ensures Distinct(s[1..])
    ensures forall y :: y in s[1..] <==> y in s && y != s[0]
  {
    forall y ensures y in s[1..] <==> y in s && y != s[0] {
      if y in s && y != s[0] {
        var k :| 0 <= k < |s| && s[k] == y;
        assert s[1..][k - 1] == y;
      }
    }
  }

  /** The sequence with one element moved to the front. */
  function ToFront<T>(s: seq<T>, i: nat): seq<T>
    requires i < |s|
  {
    [s[i]] + s[..i] + s[i + 1..]
  }

  lemma ToFrontAt<T>(s: seq<T>, i: nat)
    requires i < |s|
    ensures |ToFront(s, i)| == |s|
    ensures forall j :: 0 <= j < |s| ==> ToFront(s, i)[j] == s[if j == 0 then i else if j <= i then j - 1 else j]
  {
  }

  lemma ToFrontMembers<T>(s: seq<T>, i: nat)
    requires i < |s|
    ensures forall x :: x in ToFront(s, i) <==> x in s
  {
    assert s == s[..i] + [s[i]] + s[i + 1..];
  }

  /** Every element is smaller than all that follow it. */
  ghost predicate Ascending(s: seq<nat>) {
    forall j, k :: 0 <= j < k < |s| ==> s[j] < s[k]
  }

  /** Removing the head of an ascending sequence removes its smallest element and nothing else. */
  lemma AscendingTail(s: seq<nat>)
    requires Ascending(s) && s != []
    ensures Ascending(s[1..])
    ensures forall x :: x in s[1..] <==> x in s && x != s[0]
    ensures forall x :: x in s[1..] ==> s[0] < x
  {
    PopDistinct(s);
  }
}
