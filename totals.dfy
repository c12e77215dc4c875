/** The `reduce((sum, r) => sum + r.tiempoDedicado, 0)` totals that the time
    record list and the analytics page both compute. */
module Totals {
  import opened Domain
  import opened Seqs
  import opened Text

  /** Sum of `tiempoDedicado` over a list of records. */
  function SumMinutes(rs: seq<TimeRecord>): int
  {
    if rs == [] then 0 else rs[0].minutes + SumMinutes(rs[1..])
  }

  predicate NonNegative(rs: seq<TimeRecord>)
  {
    forall i :: 0 <= i < |rs| ==> rs[i].minutes >= 0
  }

  lemma {:induction false} SumNonNegative(rs: seq<TimeRecord>)
    requires NonNegative(rs)
    ensures SumMinutes(rs) >= 0
  {
    if rs != [] {
      SumNonNegative(rs[1..]);
    }
  }

  lemma {:induction false} SumConcat(a: seq<TimeRecord>, b: seq<TimeRecord>)
    ensures SumMinutes(a + b) == SumMinutes(a) + SumMinutes(b)
  {
    if a != [] {
      SumConcat(a[1..], b);
      assert (a + b)[1..] == a[1..] + b;
    } else {
      assert a + b == b;
    }
  }

  /** Taking one record out of a list takes its minutes out of the total. */
  lemma SumRemove(b: seq<TimeRecord>, i: nat)
    requires i < |b|
    ensures SumMinutes(b) == b[i].minutes + SumMinutes(b[..i] + b[i + 1..])
  {
    assert b == b[..i] + b[i..];
    assert b[i..][1..] == b[i + 1..];
    SumConcat(b[..i], b[i..]);
    SumConcat(b[..i], b[i + 1..]);
  }

  lemma MultisetSplit(b: seq<TimeRecord>, i: nat)
    requires i < |b|
    ensures multiset(b) == multiset(b[..i] + b[i + 1..]) + multiset{b[i]}
  {
    assert b == b[..i] + [b[i]] + b[i + 1..];
  }

  lemma FindRecord(b: seq<TimeRecord>, x: TimeRecord) returns (i: nat)
    requires x in multiset(b)
    ensures i < |b| && b[i] == x
  {
    assert x in b;
    i :| 0 <= i < |b| && b[i] == x;
  }

  lemma MultisetHead(a: seq<TimeRecord>)
    requires a != []
    ensures multiset(a) == multiset(a[1..]) + multiset{a[0]}
  {
    assert a == [a[0]] + a[1..];
  }

  lemma MultisetCancel(a: multiset<TimeRecord>, b: multiset<TimeRecord>, x: TimeRecord)
    requires a + multiset{x} == b + multiset{x}
    ensures a == b
  {
    forall y ensures a[y] == b[y] {
      assert (a + multiset{x})[y] == (b + multiset{x})[y];
    }
  }

  /** Removing the first record of `a` and a copy of it from `b` keeps the two lists permutations. */
  lemma PermutationWithout(a: seq<TimeRecord>, b: seq<TimeRecord>) returns (i: nat)
    requires multiset(a) == multiset(b) && a != []
    ensures i < |b| && b[i] == a[0]
    ensures multiset(a[1..]) == multiset(b[..i] + b[i + 1..])
  {
    i := FindRecord(b, a[0]);
    var ra, rb := multiset(a[1..]), multiset(b[..i] + b[i + 1..]);
    MultisetSplit(b, i);
    MultisetHead(a);
    assert ra + multiset{a[0]} == rb + multiset{a[0]};
    MultisetCancel(ra, rb, a[0]);
  }

  /** The total does not depend on the order of the records. */
  lemma {:induction false} SumPermutation(a: seq<TimeRecord>, b: seq<TimeRecord>)
    requires multiset(a) == multiset(b)
    ensures SumMinutes(a) == SumMinutes(b)
    decreases |a|
  {
    if a == [] {
      assert |b| == |multiset(b)| == 0;
    } else {
      var i := PermutationWithout(a, b);
      SumRemove(b, i);
      SumPermutation(a[1..], b[..i] + b[i + 1..]);
    }
  }

  /** With non-negative minutes, a stricter filter never yields a larger total. */
  lemma {:induction false} SumFilterMonotone(p: TimeRecord -> bool, q: TimeRecord -> bool, rs: seq<TimeRecord>)
    requires NonNegative(rs)
    requires forall r :: q(r) ==> p(r)
    ensures SumMinutes(Filter(q, rs)) <= SumMinutes(Filter(p, rs))
  {
    if rs != [] {
      SumFilterMonotone(p, q, rs[1..]);
      var x := rs[0];
      if q(x) {
        assert ([x] + Filter(q, rs[1..]))[1..] == Filter(q, rs[1..]);
      }
      if p(x) {
        assert ([x] + Filter(p, rs[1..]))[1..] == Filter(p, rs[1..]);
      }
    }
  }

  /** The records dated exactly `day` (`r.fecha === day`). */
  function OnDay(day: Day): TimeRecord -> bool
  {
    (r: TimeRecord) => r.date == day
  }

  /** Minutes recorded on one calendar day. */
  function DayTotal(rs: seq<TimeRecord>, day: Day): int
  {
    SumMinutes(Filter(OnDay(day), rs))
  }

  lemma DayTotalOrderIndependent(a: seq<TimeRecord>, b: seq<TimeRecord>, day: Day)
    requires multiset(a) == multiset(b)
    ensures DayTotal(a, day) == DayTotal(b, day)
  {
    FilterPermutation(OnDay(day), a, b);
    SumPermutation(Filter(OnDay(day), a), Filter(OnDay(day), b));
  }

  /** A day with no records totals 0 (in particular for an empty list). */
  lemma DayTotalNoRecords(rs: seq<TimeRecord>, day: Day)
    requires forall i :: 0 <= i < |rs| ==> rs[i].date != day
    ensures DayTotal(rs, day) == 0
  {
  }

  /** A record adds its minutes to a filtered total exactly when the filter keeps it. */
  lemma SumFilterStep(q: TimeRecord -> bool, r: TimeRecord, rs: seq<TimeRecord>)
    ensures SumMinutes(Filter(q, [r] + rs)) == (if q(r) then r.minutes else 0) + SumMinutes(Filter(q, rs))
  {
    assert ([r] + rs)[1..] == rs;
    if q(r) {
      assert ([r] + Filter(q, rs))[1..] == Filter(q, rs);
    }
  }

  /** Only the records of that day contribute: a record of another day adds nothing. */
  lemma DayTotalStep(r: TimeRecord, rs: seq<TimeRecord>, day: Day)
    ensures DayTotal([r] + rs, day) == (if r.date == day then r.minutes else 0) + DayTotal(rs, day)
  {
    SumFilterStep(OnDay(day), r, rs);
  }

  /* ---------- several filtered totals over the same records ---------- */

  /** The totals of one filter each, added up (one per chart entry). */
  function FilterTotals(qs: seq<TimeRecord -> bool>, rs: seq<TimeRecord>): int
  {
    if qs == [] then 0 else SumMinutes(Filter(qs[0], rs)) + FilterTotals(qs[1..], rs)
  }

  /** No record is kept by two different filters. */
  ghost predicate Disjoint(qs: seq<TimeRecord -> bool>)
  {
    forall i, j, r :: 0 <= i < j < |qs| && qs[i](r) ==> !qs[j](r)
  }

  /** What one record contributes to `FilterTotals`: its minutes once per filter keeping it. */
  function Share(qs: seq<TimeRecord -> bool>, r: TimeRecord): int
  {
    if qs == [] then 0 else (if qs[0](r) then r.minutes else 0) + Share(qs[1..], r)
  }

  lemma {:induction false} FilterTotalsStep(qs: seq<TimeRecord -> bool>, r: TimeRecord, rs: seq<TimeRecord>)
    ensures FilterTotals(qs, [r] + rs) == Share(qs, r) + FilterTotals(qs, rs)
  {
    if qs != [] {
      FilterTotalsStep(qs[1..], r, rs);
      SumFilterStep(qs[0], r, rs);
    }
  }

  lemma {:induction false} FilterTotalsEmpty(qs: seq<TimeRecord -> bool>)
    ensures FilterTotals(qs, []) == 0
  {
    if qs != [] {
      FilterTotalsEmpty(qs[1..]);
    }
  }

  lemma {:induction false} ShareNone(qs: seq<TimeRecord -> bool>, r: TimeRecord)
    requires forall i :: 0 <= i < |qs| ==> !qs[i](r)
    ensures Share(qs, r) == 0
  {
    if qs != [] {
      ShareNone(qs[1..], r);
    }
  }

  /** Under disjoint filters a record is counted at most once. */
  lemma {:induction false} ShareBound(qs: seq<TimeRecord -> bool>, r: TimeRecord)
    requires Disjoint(qs) && r.minutes >= 0
    ensures 0 <= Share(qs, r) <= r.minutes
  {
    if qs != [] {
      var rest := qs[1..];
      assert Disjoint(rest) by {
        forall i, j, x | 0 <= i < j < |rest| && rest[i](x) ensures !rest[j](x) {
          assert qs[i + 1] == rest[i] && qs[j + 1] == rest[j];
        }
      }
      if qs[0](r) {
        forall i | 0 <= i < |rest| ensures !rest[i](r) {
          assert qs[i + 1] == rest[i];
        }
        ShareNone(rest, r);
      } else {
        ShareBound(rest, r);
      }
    }
  }

  /** Disjoint filters split the records: their totals add up to at most the overall total. */
  lemma {:induction false} DisjointFiltersBound(qs: seq<TimeRecord -> bool>, rs: seq<TimeRecord>)
    requires Disjoint(qs) && NonNegative(rs)
    ensures FilterTotals(qs, rs) <= SumMinutes(rs)
  {
    if rs == [] {
      FilterTotalsEmpty(qs);
    } else {
      var r, rest := rs[0], rs[1..];
      assert rs == [r] + rest;
      FilterTotalsStep(qs, r, rest);
      ShareBound(qs, r);
      DisjointFiltersBound(qs, rest);
    }
  }

  /* ---------- hours and minutes ---------- */

  /** `Math.floor(total / 60)` and `total % 60` (JavaScript's truncating remainder). */
  function HoursAndMinutes(total: int): (hm: (int, int))
    ensures total >= 0 ==> hm.0 >= 0 && 0 <= hm.1 < 60 && hm.0 * 60 + hm.1 == total
    ensures total < 0 ==> hm.0 < 0 && -60 < hm.1 <= 0
    ensures hm.0 == 0 <==> 0 <= total < 60
  {
    (total / 60, JsRem(total, 60))
  }
}
