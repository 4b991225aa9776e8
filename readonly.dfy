/** The example handler `MyTest`: it counts the records it receives per
    tag. Its counter is a `defaultdict(int)`, so a tag that was never seen
    reads as zero and is not a key. */
module ReadOnly {
  import opened Values

  /** `counter[tag]` on a `defaultdict(int)`. */
  function Count(m: map<Option<string>, nat>, tag: Option<string>): nat {
    if tag in m then m[tag] else 0
  }

  /** The total of all counts. */
  ghost function Sum(m: map<Option<string>, nat>): nat
    decreases |m|
  {
    if m == map[] then 0 else var k :| k in m; m[k] + Sum(m - {k})
  }

  /** The total can be taken apart at any key. */
  lemma {:induction false} SumAt(m: map<Option<string>, nat>, k: Option<string>)
    requires k in m
    ensures Sum(m) == m[k] + Sum(m - {k})
    decreases |m|
  {
    var j :| j in m && Sum(m) == m[j] + Sum(m - {j});
    if j != k {
      SumAt(m - {j}, k);
      SumAt(m - {k}, j);
      assert (m - {j}) - {k} == (m - {k}) - {j};
    }
  }

  /** One more occurrence of a tag adds one to the total. */
  lemma SumBump(m: map<Option<string>, nat>, t: Option<string>)
    ensures Sum(m[t := Count(m, t) + 1]) == Sum(m) + 1
  {
    var m' := m[t := Count(m, t) + 1];
    SumAt(m', t);
    assert m' - {t} == m - {t};
    if t in m { SumAt(m, t); } else { assert m - {t} == m; }
  }

  class MyTest {
    var results: map<Option<string>, nat>
    ghost var calls: nat

    /** The counts add up to the number of records received. */
    ghost predicate Valid()
      reads this
    {
      Sum(results) == calls
    }

    constructor ()
      ensures results == map[] && calls == 0 && Valid()
    {
      results := map[];
      calls := 0;
    }

    /** `setup(args)` only logs its arguments. */
    method Setup(args: Value)
    {
    }

    /** `recv(meta, event)`: the count of the record's tag goes up by one. */
    method Recv(tag: Option<string>)
      requires Valid()
      modifies this
      ensures results == old(results)[tag := Count(old(results), tag) + 1]
      ensures calls == old(calls) + 1 && Valid()
    {
      SumBump(results, tag);
      results := results[tag := Count(results, tag) + 1];
      calls := calls + 1;
    }

    /** `result()`: a plain dict with the current counts. */
    method Result() returns (r: map<Option<string>, nat>)
      requires Valid()
      ensures r == results && Sum(r) == calls
    {
      r := results;
    }
  }

  /** After `recv`, the received tag counts one more and every other tag
      counts as before. */
  lemma RecvCounts(m: map<Option<string>, nat>, tag: Option<string>, other: Option<string>)
    ensures Count(m[tag := Count(m, tag) + 1], tag) == Count(m, tag) + 1
    ensures other != tag ==> Count(m[tag := Count(m, tag) + 1], other) == Count(m, other)
  {
  }
}
