/**
  GetEmployees' query: employees ordered by total experience, the sum over all their tool
  languages of To - From, highest first, then one page cut out with Skip/Take when both paging
  parameters are given.
*/
module Listing {
  import opened Common
  import opened Models

  /** The years a list of tool languages adds up to: the sum of To - From. */
  function ToolLanguagesExperience(tls: seq<ToolLanguage>): (years: int)
    ensures RangesOrdered(tls) ==> years >= 0
    decreases |tls|
  {
    if tls == [] then 0
    else
      var front, last := tls[..|tls| - 1], tls[|tls| - 1];
      assert RangesOrdered(tls) ==> RangesOrdered(front) by {
        assert forall j :: 0 <= j < |front| ==> front[j] == tls[j];
      }
      ToolLanguagesExperience(front) + (last.to - last.from)
  }

  /** The years a list of positions adds up to: the sum of their tool languages' years. */
  function PositionsExperience(ps: seq<Position>): (years: int)
    ensures PositionsRangesOrdered(ps) ==> years >= 0
    decreases |ps|
  {
    if ps == [] then 0
    else
      var front := ps[..|ps| - 1];
      assert PositionsRangesOrdered(ps) ==> PositionsRangesOrdered(front) by {
        assert forall i :: 0 <= i < |front| ==> front[i] == ps[i];
      }
      PositionsExperience(front) + ToolLanguagesExperience(ps[|ps| - 1].toolLanguages)
  }

  /** The sort key of GetEmployees. */
  function Experience(e: Employee): int
  {
    PositionsExperience(e.positions)
  }

  /** A stored employee (every range ordered) never sorts below an employee with no experience. */
  lemma ExperienceNonNegative(e: Employee)
    requires EmployeeRangesOrdered(e)
    ensures Experience(e) >= 0
  {
  }

  predicate DescendingByExperience(s: seq<Employee>)
  {
    forall i, j :: 0 <= i < j < |s| ==> Experience(s[i]) >= Experience(s[j])
  }

  /**
    Places `e` into a list ordered by experience, ahead of the first employee with no more
    experience than it, so that it stays ahead of equals that came after it in the input.
  */
  function InsertByExperience(e: Employee, sorted: seq<Employee>): (r: seq<Employee>)
    ensures multiset(r) == multiset(sorted) + multiset{e}
    decreases |sorted|
  {
    if sorted == [] || Experience(sorted[0]) <= Experience(e) then [e] + sorted
    else
      assert sorted == [sorted[0]] + sorted[1..];
      [sorted[0]] + InsertByExperience(e, sorted[1..])
  }

  /**
    OrderByDescending on experience: the employees, highest experience first. Employees with
    equal experience keep their input order (the database promises no order among them).
  */
  function SortByExperience(es: seq<Employee>): (r: seq<Employee>)
    ensures multiset(r) == multiset(es)
    decreases |es|
  {
    if es == [] then []
    else
      assert es == [es[0]] + es[1..];
      InsertByExperience(es[0], SortByExperience(es[1..]))
  }

  /** Every employee of an insertion is the inserted one or came from the list. */
  lemma InsertByExperienceFrom(e: Employee, sorted: seq<Employee>, k: nat)
    requires k < |InsertByExperience(e, sorted)|
    ensures InsertByExperience(e, sorted)[k] == e || InsertByExperience(e, sorted)[k] in sorted
  {
    var r := InsertByExperience(e, sorted);
    assert r[k] in multiset(r);
  }

  lemma DescendingTail(sorted: seq<Employee>)
    requires sorted != [] && DescendingByExperience(sorted)
    ensures DescendingByExperience(sorted[1..])
    ensures forall x :: x in sorted[1..] ==> Experience(x) <= Experience(sorted[0])
  {
    var tail := sorted[1..];
    forall i, j | 0 <= i < j < |tail| ensures Experience(tail[i]) >= Experience(tail[j]) {
      assert tail[i] == sorted[i + 1] && tail[j] == sorted[j + 1];
    }
    forall x | x in tail ensures Experience(x) <= Experience(sorted[0]) {
      var m :| 0 <= m < |tail| && tail[m] == x;
      assert tail[m] == sorted[m + 1];
    }
  }

  /** Inserting into an ordered list keeps it ordered. */
  lemma {:induction false} InsertByExperienceOrdered(e: Employee, sorted: seq<Employee>)
    requires DescendingByExperience(sorted)
    ensures DescendingByExperience(InsertByExperience(e, sorted))
    decreases |sorted|
  {
    if sorted != [] && Experience(sorted[0]) > Experience(e) {
      var head, tail := sorted[0], sorted[1..];
      DescendingTail(sorted);
      InsertByExperienceOrdered(e, tail);
      var rest := InsertByExperience(e, tail);
      forall x | x in rest ensures Experience(x) <= Experience(head) {
        var m :| 0 <= m < |rest| && rest[m] == x;
        InsertByExperienceFrom(e, tail, m);
      }
      ConsOrdered(head, rest);
    } else {
      forall x | x in sorted ensures Experience(x) <= Experience(e) {
        var m :| 0 <= m < |sorted| && sorted[m] == x;
        assert Experience(sorted[m]) <= Experience(sorted[0]);
      }
      ConsOrdered(e, sorted);
    }
  }

  /** An employee with at least the experience of everyone in an ordered list can go in front of it. */
  lemma ConsOrdered(head: Employee, rest: seq<Employee>)
    requires DescendingByExperience(rest)
    requires forall x :: x in rest ==> Experience(x) <= Experience(head)
    ensures DescendingByExperience([head] + rest)
  {
    var r := [head] + rest;
    forall i, j | 0 <= i < j < |r| ensures Experience(r[i]) >= Experience(r[j]) {
      assert r[j] == rest[j - 1];
      if i > 0 {
        assert r[i] == rest[i - 1];
      }
    }
  }

  /** The listing is ordered by experience, highest first. */
  lemma {:induction false} SortByExperienceOrdered(es: seq<Employee>)
    ensures DescendingByExperience(SortByExperience(es))
    decreases |es|
  {
    if es != [] {
      SortByExperienceOrdered(es[1..]);
      InsertByExperienceOrdered(es[0], SortByExperience(es[1..]));
    }
  }

  /** The smallest and the largest 32-bit integers. */
  const Int32Min: int := -0x8000_0000
  const Int32Max: int := 0x7fff_ffff

  predicate IsInt32(x: int)
  {
    Int32Min <= x <= Int32Max
  }

  /** C#'s unchecked 32-bit arithmetic: the 32-bit integer congruent to x modulo 2^32. */
  function Wrap32(x: int): (r: int)
    ensures IsInt32(r)
    ensures (x - r) % 0x1_0000_0000 == 0
    ensures IsInt32(x) ==> r == x
  {
    var m := x % 0x1_0000_0000;
    if m <= Int32Max then m else m - 0x1_0000_0000
  }

  /** The Skip argument, `(pageNumber - 1) * pageSize` evaluated in 32-bit int arithmetic. */
  function SkipCount(pageNumber: int, pageSize: int): int
  {
    Wrap32(Wrap32(pageNumber - 1) * pageSize)
  }

  /** When the product fits in 32 bits, the Skip argument is the product. */
  lemma SkipCountExact(pageNumber: int, pageSize: int)
    requires IsInt32(pageNumber - 1) && IsInt32((pageNumber - 1) * pageSize)
    ensures SkipCount(pageNumber, pageSize) == (pageNumber - 1) * pageSize
  {
  }

  /** When it does not, it wraps: page 65537 of size 65536 skips nothing and returns the first page. */
  lemma SkipCountWraps()
    ensures SkipCount(65537, 65536) == 0
  {
    assert (65537 - 1) * 65536 == 0x1_0000_0000;
  }

  /** How many rows Skip(offset).Take(count) returns from `total`: min(count, rows left after offset). */
  function PageLength(total: nat, offset: nat, count: nat): nat
  {
    if offset + count <= total then count else if offset < total then total - offset else 0
  }

  /**
    Skip(offset).Take(count) as the database runs it: a negative OFFSET or LIMIT is an error;
    otherwise the rows from `offset` on, at most `count` of them.
  */
  function Page(ordered: seq<Employee>, offset: int, count: int): (r: Option<seq<Employee>>)
    ensures r.None? <==> offset < 0 || count < 0
    ensures r.Some? ==> |r.value| <= count
    ensures r.Some? ==> forall k :: 0 <= k < |r.value| ==> offset + k < |ordered| && r.value[k] == ordered[offset + k]
    ensures r.Some? && offset + count <= |ordered| ==> |r.value| == count
    ensures r.Some? ==> |r.value| == PageLength(|ordered|, offset, count)
  {
    if offset < 0 || count < 0 then None
    else
      var lo := if offset < |ordered| then offset else |ordered|;
      var hi := if offset + count < |ordered| then offset + count else |ordered|;
      Some(ordered[lo..hi])
  }

  /** A page of an ordered list is ordered. */
  lemma PageOrdered(ordered: seq<Employee>, offset: int, count: int)
    requires DescendingByExperience(ordered) && Page(ordered, offset, count).Some?
    ensures DescendingByExperience(Page(ordered, offset, count).value)
  {
    var r := Page(ordered, offset, count).value;
    forall i, j | 0 <= i < j < |r| ensures Experience(r[i]) >= Experience(r[j]) {
      assert r[i] == ordered[offset + i] && r[j] == ordered[offset + j];
    }
  }

  /** Two adjacent pages read the same rows as one page as long as both. */
  lemma PagesAdjoin(ordered: seq<Employee>, offset: nat, a: nat, b: nat)
    ensures Page(ordered, offset, a).value + Page(ordered, offset + a, b).value == Page(ordered, offset, a + b).value
  {
    var n := |ordered|;
    var lo := if offset < n then offset else n;
    var mid := if offset + a < n then offset + a else n;
    var hi := if offset + a + b < n then offset + a + b else n;
    assert ordered[lo..mid] + ordered[mid..hi] == ordered[lo..hi];
  }

  /** Pages of `size` rows in turn, numbered from 0. */
  function Pages(ordered: seq<Employee>, size: nat, count: nat): seq<Employee>
    decreases count
  {
    if count == 0 then [] else Pages(ordered, size, count - 1) + Page(ordered, (count - 1) * size, size).value
  }

  /** Reading the first `count` pages in turn yields the first `count * size` employees, with nothing skipped or repeated. */
  lemma {:induction false} PagesCover(ordered: seq<Employee>, size: nat, count: nat)
    ensures Pages(ordered, size, count) == Page(ordered, 0, count * size).value
    decreases count
  {
    if count > 0 {
      PagesCover(ordered, size, count - 1);
      PagesAdjoin(ordered, 0, (count - 1) * size, size);
      assert (count - 1) * size + size == count * size;
    }
  }

  /**
    GetEmployees without its search filter: all employees by experience, highest first, and
    when both paging parameters are given, page `pageNumber` (from 1) of `pageSize` rows.
    None is the database's refusal of a negative OFFSET or LIMIT.
  */
  function Listed(employees: seq<Employee>, pageNumber: Option<int>, pageSize: Option<int>): Option<seq<Employee>>
  {
    var ordered := SortByExperience(employees);
    if pageNumber.Some? && pageSize.Some? then Page(ordered, SkipCount(pageNumber.value, pageSize.value), pageSize.value)
    else Some(ordered)
  }

  /** Without both paging parameters the listing is every employee, by experience. */
  lemma ListedUnpaged(employees: seq<Employee>, pageNumber: Option<int>, pageSize: Option<int>)
    requires pageNumber.None? || pageSize.None?
    ensures var r := Listed(employees, pageNumber, pageSize);
      r.Some? && DescendingByExperience(r.value) && multiset(r.value) == multiset(employees)
  {
    SortByExperienceOrdered(employees);
  }

  /**
    With both given and no overflow, page p of size s holds the employees ranked (p-1)*s up to
    p*s - 1 (those that exist), and so is itself ordered by experience.
  */
  lemma ListedPage(employees: seq<Employee>, pageNumber: int, pageSize: int)
    requires 1 <= pageNumber && 0 <= pageSize
    requires IsInt32(pageNumber) && IsInt32((pageNumber - 1) * pageSize)
    ensures var r := Listed(employees, Some(pageNumber), Some(pageSize));
      var ordered := SortByExperience(employees);
      && r.Some?
      && |r.value| <= pageSize
      && |r.value| == PageLength(|employees|, (pageNumber - 1) * pageSize, pageSize)
      && (forall k :: 0 <= k < |r.value| ==> r.value[k] == ordered[(pageNumber - 1) * pageSize + k])
      && DescendingByExperience(r.value)
  {
    SkipCountExact(pageNumber, pageSize);
    var ordered := SortByExperience(employees);
    SortByExperienceOrdered(employees);
    var o := (pageNumber - 1) * pageSize;
    assert 0 <= o;
    var r := Page(ordered, o, pageSize).value;
    assert Listed(employees, Some(pageNumber), Some(pageSize)) == Some(r);
    PageOrdered(ordered, o, pageSize);
    assert |ordered| == |multiset(ordered)| == |multiset(employees)| == |employees|;
  }
}
