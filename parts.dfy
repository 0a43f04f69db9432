/**
 * Values the upload handler keeps: the `{PartNumber, ETag}` records it
 * collects, the in-place sort it applies to them before completion, and the
 * `filter` that removes a settled upload from the queue.
 */
module Parts {

  /** One record of `uploadedParts`: a part number and the tag S3 returned for it. */
  datatype Part = Part(partNumber: nat, eTag: string)

  /** The part numbers that occur among the records. */
  function NumberSet(parts: seq<Part>): set<nat>
  {
    set p | p in parts :: p.partNumber
  }

  /** The numbers 1..n, the part numbers handed out by the time `partNumber` is n + 1. */
  function PartRange(n: nat): (r: set<nat>)
    ensures forall k :: k in r <==> 1 <= k <= n
  {
    if n == 0 then {} else PartRange(n - 1) + {n}
  }

  /** The entries of a queue, as a set. */
  function Entries(q: seq<nat>): set<nat>
  {
    set k | k in q
  }

  predicate DistinctNumbers(parts: seq<Part>)
  {
    forall i, j :: 0 <= i < j < |parts| ==> parts[i].partNumber != parts[j].partNumber
  }

  /** Ascending by part number, which is what the comparator `a.PartNumber - b.PartNumber` asks for. */
  predicate Sorted(parts: seq<Part>)
  {
    forall i, j :: 0 <= i < j < |parts| ==> parts[i].partNumber <= parts[j].partNumber
  }

  predicate StrictlySorted(parts: seq<Part>)
  {
    forall i, j :: 0 <= i < j < |parts| ==> parts[i].partNumber < parts[j].partNumber
  }

  /** Queue entries in the order they were pushed: strictly increasing part numbers. */
  predicate Increasing(q: seq<nat>)
  {
    forall i, j :: 0 <= i < j < |q| ==> q[i] < q[j]
  }

  lemma SameNumbers(a: seq<Part>, b: seq<Part>)
    requires multiset(a) == multiset(b)
    ensures NumberSet(a) == NumberSet(b)
  {
    forall k | k in NumberSet(a) ensures k in NumberSet(b) {
      var p :| p in a && p.partNumber == k;
      assert p in multiset(a);
    }
    forall k | k in NumberSet(b) ensures k in NumberSet(a) {
      var p :| p in b && p.partNumber == k;
      assert p in multiset(b);
    }
  }

  /** Inserts one record into a list sorted by part number. */
  function Insert(p: Part, s: seq<Part>): (r: seq<Part>)
    requires Sorted(s)
    ensures Sorted(r)
    ensures multiset(r) == multiset(s) + multiset{p}
  {
    if s == [] then [p]
    else if p.partNumber <= s[0].partNumber then
      PrependSorted(p, s);
      [p] + s
    else
      var rest := Insert(p, s[1..]);
      assert s == [s[0]] + s[1..];
      InsertBound(p, s, rest);
      PrependSorted(s[0], rest);
      [s[0]] + rest
  }

  /** A record no later than every record of a sorted list can go in front of it. */
  lemma PrependSorted(x: Part, s: seq<Part>)
    requires Sorted(s)
    requires s != [] ==> x.partNumber <= s[0].partNumber
    ensures Sorted([x] + s)
    ensures multiset([x] + s) == multiset(s) + multiset{x}
  {
    forall i, j | 0 <= i < j < |s| + 1
      ensures ([x] + s)[i].partNumber <= ([x] + s)[j].partNumber
    {
      if i == 0 {
        assert s[0].partNumber <= s[j - 1].partNumber;
      } else {
        assert ([x] + s)[i] == s[i - 1] && ([x] + s)[j] == s[j - 1];
      }
    }
  }

  /** Inserting a new part number into a strictly sorted list keeps it strictly sorted. */
  lemma {:induction false} InsertStrict(p: Part, s: seq<Part>)
    requires StrictlySorted(s) && p.partNumber !in NumberSet(s)
    ensures StrictlySorted(Insert(p, s))
  {
    if s == [] {
    } else if p.partNumber <= s[0].partNumber {
      PrependStrict(p, s);
    } else {
      assert s == [s[0]] + s[1..];
      var rest := Insert(p, s[1..]);
      assert p.partNumber !in NumberSet(s[1..]) by {
        assert forall x :: x in s[1..] ==> x in s;
      }
      InsertStrict(p, s[1..]);
      InsertBound(p, s, rest);
      ConsStrict(s[0], rest);
    }
  }

  /** A record numbered below every record of a strictly sorted list can go in front of it. */
  lemma ConsStrict(x: Part, rest: seq<Part>)
    requires StrictlySorted(rest)
    requires forall k :: 0 <= k < |rest| ==> x.partNumber < rest[k].partNumber
    ensures StrictlySorted([x] + rest)
  {
    forall i, j | 0 <= i < j < |rest| + 1
      ensures ([x] + rest)[i].partNumber < ([x] + rest)[j].partNumber
    {
      if i > 0 {
        assert rest[i - 1].partNumber < rest[j - 1].partNumber;
      }
    }
  }

  lemma PrependStrict(p: Part, s: seq<Part>)
    requires s != [] && p.partNumber <= s[0].partNumber
    requires StrictlySorted(s) && p.partNumber !in NumberSet(s)
    ensures StrictlySorted([p] + s)
  {
    assert s[0] in s;
    forall i, j | 0 <= i < j < |s| + 1
      ensures ([p] + s)[i].partNumber < ([p] + s)[j].partNumber
    {
      if i == 0 && j > 1 {
        assert s[0].partNumber < s[j - 1].partNumber;
      }
    }
  }

  /** What the head of a sorted list bounds stays bounded after an insertion behind it. */
  lemma InsertBound(p: Part, s: seq<Part>, rest: seq<Part>)
    requires Sorted(s) && s != [] && s[0].partNumber < p.partNumber
    requires multiset(rest) == multiset(s[1..]) + multiset{p}
    ensures rest != [] ==> s[0].partNumber <= rest[0].partNumber
    ensures forall k :: 0 <= k < |rest| ==> s[0].partNumber <= rest[k].partNumber
    ensures StrictlySorted(s) ==> forall k :: 0 <= k < |rest| ==> s[0].partNumber < rest[k].partNumber
  {
    forall k | 0 <= k < |rest|
      ensures s[0].partNumber <= rest[k].partNumber
      ensures StrictlySorted(s) ==> s[0].partNumber < rest[k].partNumber
    {
      assert rest[k] in multiset(rest);
      if rest[k] != p {
        assert rest[k] in multiset(s[1..]);
        var m :| 0 <= m < |s[1..]| && s[1..][m] == rest[k];
        assert s[m + 1] == rest[k];
      }
    }
  }

  /**
   * The effect of `uploadedParts.sort((a, b) => a.PartNumber - b.PartNumber)`:
   * a permutation of the records, ascending by part number.
   */
  function SortByPartNumber(s: seq<Part>): (r: seq<Part>)
    ensures Sorted(r)
    ensures multiset(r) == multiset(s)
  {
    if s == [] then []
    else
      assert s == [s[0]] + s[1..];
      Insert(s[0], SortByPartNumber(s[1..]))
  }

  /** With no part number recorded twice, the sorted records are strictly ascending. */
  lemma {:induction false} SortStrict(s: seq<Part>)
    requires DistinctNumbers(s)
    ensures StrictlySorted(SortByPartNumber(s))
  {
    if s != [] {
      var rest := SortByPartNumber(s[1..]);
      assert s == [s[0]] + s[1..];
      assert DistinctNumbers(s[1..]) by {
        forall i, j | 0 <= i < j < |s[1..]| ensures s[1..][i].partNumber != s[1..][j].partNumber {
          assert s[1..][i] == s[i + 1] && s[1..][j] == s[j + 1];
        }
      }
      SortStrict(s[1..]);
      SameNumbers(rest, s[1..]);
      assert s[0].partNumber !in NumberSet(s[1..]) by {
        forall p | p in s[1..] ensures p.partNumber != s[0].partNumber {
          var k :| 0 <= k < |s[1..]| && s[1..][k] == p;
          assert s[k + 1] == p;
        }
      }
      InsertStrict(s[0], rest);
    }
  }

  /**
   * A strictly sorted list whose part numbers are exactly 1..n is the list
   * of parts 1, 2, ..., n in this order.
   */
  lemma {:induction false} ConsecutiveNumbers(r: seq<Part>, n: nat)
    requires StrictlySorted(r)
    requires NumberSet(r) == PartRange(n)
    ensures |r| == n
    ensures forall i :: 0 <= i < |r| ==> r[i].partNumber == i + 1
  {
    var i := 0;
    while i < |r|
      invariant 0 <= i <= |r|
      invariant forall k :: 0 <= k < i ==> r[k].partNumber == k + 1
    {
      assert r[i] in r;
      assert r[i].partNumber in PartRange(n);
      if i > 0 {
        assert r[i - 1].partNumber < r[i].partNumber;
      }
      assert i + 1 in NumberSet(r);
      var p :| p in r && p.partNumber == i + 1;
      var j :| 0 <= j < |r| && r[j] == p;
      i := i + 1;
    }
    if |r| > 0 {
      assert r[|r| - 1] in r;
      assert |r| in NumberSet(r);
    }
    if n > 0 {
      assert n in NumberSet(r);
      var p :| p in r && p.partNumber == n;
      var j :| 0 <= j < |r| && r[j] == p;
    }
  }

  /** `q.filter(p => p !== n)`: the queue without the entry for part n. */
  function Without(q: seq<nat>, n: nat): (r: seq<nat>)
    ensures forall k :: k in r <==> k in q && k != n
    ensures Increasing(q) ==> Increasing(r)
  {
    if q == [] then []
    else if q[0] == n then Without(q[1..], n)
    else
      var rest := Without(q[1..], n);
      assert Increasing(q) ==> forall x :: x in q[1..] ==> q[0] < x;
      assert forall k :: 0 <= k < |rest| ==> rest[k] in rest;
      [q[0]] + rest
  }

  /**
   * Removing an entry deletes only that entry and keeps the others in
   * their order.
   */
  lemma {:induction false} WithoutOnly(q: seq<nat>, k: nat)
    requires Increasing(q) && k < |q|
    ensures Without(q, q[k]) == q[..k] + q[k + 1..]
  {
    if k == 0 {
      WithoutAbsent(q[1..], q[0]);
    } else {
      WithoutOnly(q[1..], k - 1);
      assert q[1..][k - 1] == q[k] && q[0] < q[k];
      assert Without(q, q[k]) == [q[0]] + Without(q[1..], q[k]);
      assert q[1..][..k - 1] + q[1..][k..] == q[1..k] + q[k + 1..];
      assert [q[0]] + (q[1..k] + q[k + 1..]) == q[..k] + q[k + 1..];
    }
  }

  /** Removing a part that is not queued leaves the queue as it was. */
  lemma {:induction false} WithoutAbsent(q: seq<nat>, n: nat)
    requires n !in q
    ensures Without(q, n) == q
  {
    if q != [] {
      WithoutAbsent(q[1..], n);
      assert q == [q[0]] + q[1..];
    }
  }

  /** The part numbers from, from + 1, ..., in the order they are handed out. */
  function NextNumbers(from: nat, count: nat): seq<nat>
  {
    seq(count, i => from + i)
  }

  /**
   * The numbering the handler keeps: with `partNumber` at `next`, every
   * number 1..next-1 was handed out once, and is now either a record or a
   * queue entry, never both; the queue is in the order its entries were
   * pushed, and no number is recorded twice.
   */
  ghost predicate WellNumbered(parts: seq<Part>, queue: seq<nat>, next: nat)
  {
    && 1 <= next
    && Increasing(queue)
    && DistinctNumbers(parts)
    && NumberSet(parts) !! Entries(queue)
    && NumberSet(parts) + Entries(queue) == PartRange(next - 1)
  }

  /** Taking the current number for a new upload and incrementing it keeps the numbering (uploadFile.js:77-78, 83). */
  lemma PushKeepsNumbering(parts: seq<Part>, queue: seq<nat>, next: nat)
    requires WellNumbered(parts, queue, next)
    ensures WellNumbered(parts, queue + [next], next + 1)
  {
    assert Entries(queue + [next]) == Entries(queue) + {next};
    forall i | 0 <= i < |queue| ensures queue[i] < next {
      assert queue[i] in Entries(queue);
    }
    assert next !in NumberSet(parts);
  }

  /** Queueing `count` resumed handlers, one number each, keeps the numbering. */
  lemma PushManyKeepsNumbering(parts: seq<Part>, queue: seq<nat>, next: nat, count: nat)
    requires WellNumbered(parts, queue, next)
    ensures WellNumbered(parts, queue + NextNumbers(next, count), next + count)
  {
    var added := NextNumbers(next, count);
    var q := queue + added;
    forall i | 0 <= i < |queue| ensures queue[i] < next {
      assert queue[i] in Entries(queue);
    }
    assert Increasing(q) by {
      forall i, j | 0 <= i < j < |q| ensures q[i] < q[j] {
        if j < |queue| {
          assert q[i] == queue[i] && q[j] == queue[j];
        } else if i < |queue| {
          assert q[i] == queue[i] && q[j] == added[j - |queue|];
        } else {
          assert q[i] == added[i - |queue|] && q[j] == added[j - |queue|];
        }
      }
    }
    assert forall k :: k in Entries(q) <==> k in Entries(queue) || next <= k < next + count by {
      forall k | next <= k < next + count ensures k in q {
        assert added[k - next] == k;
      }
    }
  }

  /** Recording part n and filtering its queue entry keeps the numbering (uploadFile.js:61-64, 81). */
  lemma RecordKeepsNumbering(parts: seq<Part>, queue: seq<nat>, next: nat, n: nat, eTag: string)
    requires WellNumbered(parts, queue, next) && n in queue
    ensures WellNumbered(parts + [Part(n, eTag)], Without(queue, n), next)
  {
    var parts' := parts + [Part(n, eTag)];
    assert NumberSet(parts') == NumberSet(parts) + {n};
    assert Entries(Without(queue, n)) == Entries(queue) - {n};
    forall i, j | 0 <= i < j < |parts'|
      ensures parts'[i].partNumber != parts'[j].partNumber
    {
      if j == |parts| {
        assert parts[i] in parts;
      }
    }
  }

  /** Sorting the records in place keeps the numbering (uploadFile.js:91). */
  lemma SortKeepsNumbering(parts: seq<Part>, queue: seq<nat>, next: nat)
    requires WellNumbered(parts, queue, next)
    ensures WellNumbered(SortByPartNumber(parts), queue, next)
    ensures StrictlySorted(SortByPartNumber(parts))
  {
    var r := SortByPartNumber(parts);
    SameNumbers(r, parts);
    SortStrict(parts);
  }

  /**
   * With nothing queued, the sorted records are parts 1, 2, ..., next - 1
   * in this order, each one of the records collected.
   */
  lemma SortedIsConsecutive(parts: seq<Part>, next: nat)
    requires WellNumbered(parts, [], next)
    ensures var r := SortByPartNumber(parts);
      && |r| == next - 1
      && (forall i :: 0 <= i < |r| ==> r[i].partNumber == i + 1 && r[i] in parts)
  {
    var r := SortByPartNumber(parts);
    SortKeepsNumbering(parts, [], next);
    assert Entries([]) == {};
    ConsecutiveNumbers(r, next - 1);
    forall i | 0 <= i < |r| ensures r[i] in parts {
      assert r[i] in multiset(r);
    }
  }
}
