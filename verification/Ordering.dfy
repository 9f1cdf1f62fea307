/** The tuple orders that heapq compares: ready entries and delayed entries. */
module Ordering {
  /** (priority, created_at, sequence, task_id) in a ready heap. */
  datatype ReadyEntry = ReadyEntry(priority: int, createdAt: real, seqNo: nat, id: string)

  /** (available_at, sequence, task_id) in the delayed heap. */
  datatype DelayedEntry = DelayedEntry(availableAt: real, seqNo: nat, id: string)

  /** Code point order on strings. */
  predicate StrLess(a: string, b: string) {
    |b| > 0 && (|a| == 0 || a[0] < b[0] || (a[0] == b[0] && StrLess(a[1..], b[1..])))
  }

  lemma {:induction false} FirstDifference(a: string, b: string) returns (k: nat)
    requires StrLess(a, b)
    ensures k < |b| && k <= |a| && a[..k] == b[..k] && (k == |a| || a[k] < b[k])
  {
    if |a| == 0 || a[0] < b[0] {
      k := 0;
    } else {
      var j := FirstDifference(a[1..], b[1..]);
      k := j + 1;
      assert a[..k] == [a[0]] + a[1..][..j] && b[..k] == [b[0]] + b[1..][..j];
    }
  }

  lemma {:induction false} DifferenceDecides(a: string, b: string, k: nat)
    requires k < |b| && k <= |a| && a[..k] == b[..k] && (k == |a| || a[k] < b[k])
    ensures StrLess(a, b)
  {
    if k > 0 {
      assert a[0] == a[..k][0] && b[0] == b[..k][0];
      assert a[1..][..k - 1] == a[..k][1..] && b[1..][..k - 1] == b[..k][1..];
      DifferenceDecides(a[1..], b[1..], k - 1);
    }
  }

  /** The first place where two strings differ decides, and a proper prefix comes first. */
  lemma {:induction false} StrLessDecides(a: string, b: string)
    ensures StrLess(a, b) <==>
            exists k :: 0 <= k < |b| && k <= |a| && a[..k] == b[..k] && (k == |a| || a[k] < b[k])
  {
    if StrLess(a, b) {
      var k := FirstDifference(a, b);
    } else if k :| 0 <= k < |b| && k <= |a| && a[..k] == b[..k] && (k == |a| || a[k] < b[k]) {
      DifferenceDecides(a, b, k);
    }
  }

  predicate ReadyLess(a: ReadyEntry, b: ReadyEntry) {
    a.priority < b.priority || (a.priority == b.priority &&
      (a.createdAt < b.createdAt || (a.createdAt == b.createdAt &&
        (a.seqNo < b.seqNo || (a.seqNo == b.seqNo && StrLess(a.id, b.id))))))
  }

  predicate DelayedLess(a: DelayedEntry, b: DelayedEntry) {
    a.availableAt < b.availableAt || (a.availableAt == b.availableAt &&
      (a.seqNo < b.seqNo || (a.seqNo == b.seqNo && StrLess(a.id, b.id))))
  }

  /** A strict total order. */
  ghost predicate StrictTotal<T(!new)>(less: (T, T) -> bool) {
    && (forall x :: !less(x, x))
    && (forall x, y :: x != y ==> less(x, y) || less(y, x))
    && (forall x, y, z :: less(x, y) && less(y, z) ==> less(x, z))
  }

  lemma {:induction false} StrConnected(a: string, b: string)
    ensures !(StrLess(a, b) && StrLess(b, a))
    ensures a != b ==> StrLess(a, b) || StrLess(b, a)
    ensures StrLess(a, b) ==> a != b
  {
    if |a| > 0 && |b| > 0 && a[0] == b[0] {
      StrConnected(a[1..], b[1..]);
      assert a == [a[0]] + a[1..] && b == [b[0]] + b[1..];
    }
  }

  lemma {:induction false} StrTransitive(a: string, b: string, c: string)
    requires StrLess(a, b) && StrLess(b, c)
    ensures StrLess(a, c)
  {
    if |a| > 0 && a[0] == b[0] == c[0] {
      StrTransitive(a[1..], b[1..], c[1..]);
    }
  }

  lemma StrTotal()
    ensures StrictTotal(StrLess)
  {
    forall a: string, b: string
      ensures !StrLess(a, a)
      ensures a != b ==> StrLess(a, b) || StrLess(b, a)
    {
      StrConnected(a, a);
      StrConnected(a, b);
    }
    forall a: string, b: string, c: string | StrLess(a, b) && StrLess(b, c)
      ensures StrLess(a, c)
    {
      StrTransitive(a, b, c);
    }
  }

  lemma ReadyTotal()
    ensures StrictTotal(ReadyLess)
  {
    StrTotal();
  }

  lemma {:induction false} DelayedTotal()
    ensures StrictTotal(DelayedLess)
  {
    StrTotal();
  }

  /** The entry that `min` returns: the one element of s below all others. */
  ghost predicate IsLeast(e: ReadyEntry, s: set<ReadyEntry>) {
    e in s && forall x | x in s && x != e :: ReadyLess(e, x)
  }

  lemma {:induction false} LeastExists(s: set<ReadyEntry>) returns (e: ReadyEntry)
    requires s != {}
    ensures IsLeast(e, s)
  {
    ReadyTotal();
    e :| e in s;
    if s != {e} {
      var f := LeastExists(s - {e});
      if ReadyLess(f, e) {
        e := f;
      }
    }
  }

  ghost function Least(s: set<ReadyEntry>): (e: ReadyEntry)
    requires s != {}
    ensures IsLeast(e, s)
  {
    assert exists e :: IsLeast(e, s) by { var e := LeastExists(s); }
    var e :| IsLeast(e, s);
    e
  }

  lemma LeastUnique(e: ReadyEntry, f: ReadyEntry, s: set<ReadyEntry>)
    requires IsLeast(e, s) && IsLeast(f, s)
    ensures e == f
  {
    ReadyTotal();
  }
}
