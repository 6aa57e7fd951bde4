/** The item search of inpe_stac/data.py after the clauses are built: the row
    window of the item query, the post-processing of the grouped count in
    `__search_stac_item_view`, and the aggregation `get_collection_items` does
    with what the two store queries answer. The answers are inputs; None is
    what `do_query` returns for no rows. */
module Search {
  import opened Wrappers
  import opened Text
  import opened Records
  import opened FilterBuilder
  import Util

  // ---- the row window of the item query ----

  /** With collections, the rows numbered `rnFrom` to `rnTo` within each
      collection (`rn >= :page AND rn <= :limit`); otherwise `LIMIT :page, :limit`. */
  datatype Window = PerCollection(rnFrom: int, rnTo: int) | Global(offset: int, count: int)

  function WindowOf(p: Params): (r: Window)
  {
    if p.collections.Some? then PerCollection(p.page, p.limit) else Global(p.page, p.limit)
  }

  /** Whether `LIMIT offset, count` keeps the row at 0-based position k out of n matching rows. */
  predicate OnGlobalPage(k: int, offset: int, count: int, n: nat)
  {
    0 <= k < n && offset <= k < offset + count
  }

  /** Whether the partition window keeps row number rn (1-based, within one
      collection of m matching rows). */
  predicate KeptByPartition(rn: int, rnFrom: int, rnTo: int, m: nat)
  {
    1 <= rn <= m && rnFrom <= rn <= rnTo
  }

  /** Both windows start from `page - 1` of the request and end at its limit. */
  lemma WindowOfRequest(req: Request)
    requires FilterOf(req).Success?
    ensures var f := FilterOf(req).value;
      WindowOf(f.params) == (if !IdSearch(req) && RequestedCollections(req).Some?
                             then PerCollection(req.page - 1, req.limit)
                             else Global(req.page - 1, req.limit))
  {
    if !IdSearch(req) {
      UnscopedSuccess(req);
    }
  }

  /** The SQL offset `page - 1` agrees with `calc_offset` of util.py only on
      the first page or with a limit of one. */
  lemma {:induction false} OffsetAgreesWithCalcOffsetIff(page: int, limit: int)
    requires page >= 1
    ensures page - 1 == Util.CalcOffset(page, limit) <==> page == 1 || limit == 1
  {
    assert Util.CalcOffset(page, limit) == (page - 1) * limit;
    if page - 1 == (page - 1) * limit && page != 1 {
      assert (page - 1) * limit == (page - 1) * 1;
      assert (page - 1) * (limit - 1) == 0;
    }
  }

  /** Without collections, request pages `page` and `page + 1` share the row at
      position `page` whenever the limit is at least two. */
  lemma ConsecutiveGlobalPagesOverlap(page: int, limit: int, n: nat)
    requires page >= 1 && limit >= 2 && n > page
    ensures OnGlobalPage(page, page - 1, limit, n) && OnGlobalPage(page, page, limit, n)
  {
  }

  /** The offsets `calc_offset` gives split the rows into disjoint consecutive pages. */
  lemma CalcOffsetPagesDisjoint(page: int, limit: int, n: nat)
    requires page >= 1 && limit >= 0
    ensures forall k :: !(OnGlobalPage(k, Util.CalcOffset(page, limit), limit, n)
                          && OnGlobalPage(k, Util.CalcOffset(page + 1, limit), limit, n))
  {
    Util.ContiguousPages(page, limit);
  }

  /** With collections, request pages 1 and 2 keep the same rows. */
  lemma PartitionFirstPagesAgree(limit: int, m: nat)
    ensures forall rn :: KeptByPartition(rn, 0, limit, m) <==> KeptByPartition(rn, 1, limit, m)
  {
  }

  /** With collections, each later page keeps a subset of the page before,
      all within the first `limit` rows: no page brings rows not already shown. */
  lemma PartitionLaterPagesRepeat(rnFrom: int, limit: int, m: nat)
    requires rnFrom >= 0
    ensures forall rn :: KeptByPartition(rn, rnFrom + 1, limit, m) ==> KeptByPartition(rn, rnFrom, limit, m)
    ensures forall rn :: KeptByPartition(rn, rnFrom, limit, m) ==> rn <= limit
  {
  }

  // ---- the grouped count ----

  predicate Reported(counts: seq<CountEntry>, c: string)
  {
    exists d :: d in counts && d.collection == c
  }

  predicate DistinctNames(counts: seq<CountEntry>)
  {
    forall i, j :: 0 <= i < j < |counts| ==> counts[i].collection != counts[j].collection
  }

  /** The count list after the requested collections, in order, that it does
      not mention yet are appended with `matched` 0. */
  function WithZeroCounts(counts: seq<CountEntry>, requested: seq<string>): (r: seq<CountEntry>)
    decreases |requested|
  {
    if |requested| == 0 then counts
    else
      var acc := WithZeroCounts(counts, requested[..|requested| - 1]);
      var c := requested[|requested| - 1];
      if Reported(acc, c) then acc else acc + [CountEntry(c, 0)]
  }

  /** The loop of `__search_stac_item_view` appending the zero entries to the count list. */
  method FillZeroCounts(counts: seq<CountEntry>, requested: seq<string>) returns (out: seq<CountEntry>)
    ensures out == WithZeroCounts(counts, requested)
  {
    out := counts;
    var i := 0;
    while i < |requested|
      invariant 0 <= i <= |requested|
      invariant out == WithZeroCounts(counts, requested[..i])
    {
      assert requested[..i + 1][..i] == requested[..i];
      var c := requested[i];
      var found := false;
      var j := 0;
      while j < |out| && !found
        invariant 0 <= j <= |out|
        invariant found ==> Reported(out, c)
        invariant !found ==> forall k :: 0 <= k < j ==> out[k].collection != c
      {
        if out[j].collection == c {
          found := true;
        }
        j := j + 1;
      }
      if !found {
        out := out + [CountEntry(c, 0)];
      }
      i := i + 1;
    }
    assert requested[..|requested|] == requested;
  }

  function SumMatched(counts: seq<CountEntry>): (r: nat)
  {
    if |counts| == 0 then 0 else counts[0].matched + SumMatched(counts[1..])
  }

  lemma {:induction false} SumMatchedConcat(a: seq<CountEntry>, b: seq<CountEntry>)
    ensures SumMatched(a + b) == SumMatched(a) + SumMatched(b)
    decreases |a|
  {
    if |a| == 0 {
      assert a + b == b;
    } else {
      assert (a + b)[1..] == a[1..] + b;
      SumMatchedConcat(a[1..], b);
    }
  }

  /** The zero entries keep the original entries as a prefix, are all new,
      requested and zero, and leave the sum unchanged. */
  lemma {:induction false} ZeroCountsAppend(counts: seq<CountEntry>, requested: seq<string>)
    ensures var r := WithZeroCounts(counts, requested);
      && |r| >= |counts| && r[..|counts|] == counts
      && (forall k :: |counts| <= k < |r| ==>
            r[k].matched == 0 && r[k].collection in requested && !Reported(counts, r[k].collection))
      && SumMatched(r) == SumMatched(counts)
    decreases |requested|
  {
    if |requested| > 0 {
      var front := requested[..|requested| - 1];
      var c := requested[|requested| - 1];
      ZeroCountsAppend(counts, front);
      var acc := WithZeroCounts(counts, front);
      assert forall x :: x in front ==> x in requested;
      if !Reported(acc, c) {
        var r := acc + [CountEntry(c, 0)];
        SumMatchedConcat(acc, [CountEntry(c, 0)]);
        assert SumMatched([CountEntry(c, 0)]) == 0;
        assert r[..|counts|] == acc[..|counts|];
        forall k | |counts| <= k < |r|
          ensures r[k].matched == 0 && r[k].collection in requested && !Reported(counts, r[k].collection)
        {
          if k < |acc| {
            assert r[k] == acc[k];
          }
        }
      }
    }
  }

  /** After the fill, a collection is mentioned exactly when the store
      reported it or it was requested. */
  lemma {:induction false} ZeroCountsCover(counts: seq<CountEntry>, requested: seq<string>, c: string)
    ensures Reported(WithZeroCounts(counts, requested), c) <==> Reported(counts, c) || c in requested
    decreases |requested|
  {
    if |requested| > 0 {
      var front := requested[..|requested| - 1];
      var last := requested[|requested| - 1];
      ZeroCountsCover(counts, front, c);
      var acc := WithZeroCounts(counts, front);
      assert requested == front + [last];
      if !Reported(acc, last) {
        var r := acc + [CountEntry(last, 0)];
        assert CountEntry(last, 0) in r;
        if Reported(r, c) {
          var d :| d in r && d.collection == c;
          assert d in acc || d == CountEntry(last, 0);
        }
        if Reported(acc, c) {
          var d :| d in acc && d.collection == c;
          assert d in r;
        }
      } else if c == last {
        assert Reported(acc, c);
      }
    }
  }

  /** Collections the store reported once stay reported once, and the zero
      entries add each collection at most once. */
  lemma {:induction false} ZeroCountsDistinct(counts: seq<CountEntry>, requested: seq<string>)
    requires DistinctNames(counts)
    ensures DistinctNames(WithZeroCounts(counts, requested))
    decreases |requested|
  {
    if |requested| > 0 {
      var front := requested[..|requested| - 1];
      var c := requested[|requested| - 1];
      ZeroCountsDistinct(counts, front);
      var acc := WithZeroCounts(counts, front);
      if !Reported(acc, c) {
        var r := acc + [CountEntry(c, 0)];
        forall i, j | 0 <= i < j < |r| ensures r[i].collection != r[j].collection {
          if j == |acc| {
            assert r[i] == acc[i] && acc[i] in acc;
          } else {
            assert r[i] == acc[i] && r[j] == acc[j];
          }
        }
      }
    }
  }

  // ---- sorting by collection ----

  predicate SortedByCollection(s: seq<CountEntry>)
  {
    forall i, j :: 0 <= i < j < |s| ==> LexLe(s[i].collection, s[j].collection)
  }

  /** `x` placed before the first entry it does not sort after. */
  function InsertByCollection(x: CountEntry, s: seq<CountEntry>): (r: seq<CountEntry>)
  {
    if |s| == 0 then [x]
    else if LexLe(x.collection, s[0].collection) then [x] + s
    else [s[0]] + InsertByCollection(x, s[1..])
  }

  /** `sorted(result_count, key=lambda key: key['collection'])`: a sort by
      the collection name, comparing code points. */
  function SortByCollection(s: seq<CountEntry>): (r: seq<CountEntry>)
  {
    if |s| == 0 then [] else InsertByCollection(s[0], SortByCollection(s[1..]))
  }

  lemma {:induction false} InsertByCollectionPermutes(x: CountEntry, s: seq<CountEntry>)
    ensures multiset(InsertByCollection(x, s)) == multiset(s) + multiset{x}
    decreases |s|
  {
    if |s| > 0 {
      assert s == [s[0]] + s[1..];
      if !LexLe(x.collection, s[0].collection) {
        InsertByCollectionPermutes(x, s[1..]);
      }
    }
  }

  lemma SortedTail(s: seq<CountEntry>)
    requires |s| > 0 && SortedByCollection(s)
    ensures SortedByCollection(s[1..])
  {
    forall i, j | 0 <= i < j < |s[1..]| ensures LexLe(s[1..][i].collection, s[1..][j].collection) {
      assert s[1..][i] == s[i + 1] && s[1..][j] == s[j + 1];
    }
  }

  /** An entry no greater than any entry of a sorted list can go in front of it. */
  lemma SortedCons(h: CountEntry, s: seq<CountEntry>)
    requires SortedByCollection(s)
    requires forall k :: 0 <= k < |s| ==> LexLe(h.collection, s[k].collection)
    ensures SortedByCollection([h] + s)
  {
    var r := [h] + s;
    forall i, j | 0 <= i < j < |r| ensures LexLe(r[i].collection, r[j].collection) {
      if i == 0 {
        assert r[j] == s[j - 1];
      } else {
        assert r[i] == s[i - 1] && r[j] == s[j - 1];
      }
    }
  }

  lemma {:induction false} InsertByCollectionMembers(x: CountEntry, s: seq<CountEntry>)
    ensures forall y :: y in InsertByCollection(x, s) ==> y == x || y in s
    decreases |s|
  {
    if |s| > 0 && !LexLe(x.collection, s[0].collection) {
      InsertByCollectionMembers(x, s[1..]);
    }
  }

  lemma {:induction false} InsertByCollectionSorted(x: CountEntry, s: seq<CountEntry>)
    requires SortedByCollection(s)
    ensures SortedByCollection(InsertByCollection(x, s))
    decreases |s|
  {
    if |s| == 0 {
    } else if LexLe(x.collection, s[0].collection) {
      forall k | 0 <= k < |s| ensures LexLe(x.collection, s[k].collection) {
        if k > 0 {
          LexLeTransitive(x.collection, s[0].collection, s[k].collection);
        }
      }
      SortedCons(x, s);
    } else {
      var tail := InsertByCollection(x, s[1..]);
      SortedTail(s);
      InsertByCollectionSorted(x, s[1..]);
      InsertByCollectionMembers(x, s[1..]);
      LexLeTotal(x.collection, s[0].collection);
      forall k | 0 <= k < |tail| ensures LexLe(s[0].collection, tail[k].collection) {
        var y := tail[k];
        assert y in tail;
        if y != x {
          var m :| 0 <= m < |s[1..]| && s[1..][m] == y;
          assert s[m + 1] == y;
        }
      }
      SortedCons(s[0], tail);
    }
  }

  /** The sort yields a sorted permutation of its input. */
  lemma {:induction false} SortByCollectionCorrect(s: seq<CountEntry>)
    ensures SortedByCollection(SortByCollection(s))
    ensures multiset(SortByCollection(s)) == multiset(s)
    decreases |s|
  {
    if |s| > 0 {
      SortByCollectionCorrect(s[1..]);
      InsertByCollectionSorted(s[0], SortByCollection(s[1..]));
      InsertByCollectionPermutes(s[0], SortByCollection(s[1..]));
      assert s == [s[0]] + s[1..];
    }
  }

  lemma MultisetRemoveAt<T>(b: seq<T>, k: nat)
    requires k < |b|
    ensures multiset(b[..k] + b[k + 1..]) == multiset(b) - multiset{b[k]}
  {
    assert b == b[..k] + ([b[k]] + b[k + 1..]);
    assert multiset(b) == multiset(b[..k]) + multiset{b[k]} + multiset(b[k + 1..]);
  }

  lemma SumMatchedRemoveAt(b: seq<CountEntry>, k: nat)
    requires k < |b|
    ensures SumMatched(b) == b[k].matched + SumMatched(b[..k] + b[k + 1..])
  {
    assert b == b[..k] + ([b[k]] + b[k + 1..]);
    SumMatchedConcat(b[..k], [b[k]] + b[k + 1..]);
    assert ([b[k]] + b[k + 1..])[1..] == b[k + 1..];
    SumMatchedConcat(b[..k], b[k + 1..]);
  }

  /** The first element of a list occurs in any permutation of it, and
      removing it from both leaves permutations of each other. */
  lemma PermutationStep<T>(a: seq<T>, b: seq<T>) returns (k: nat)
    requires |a| > 0 && multiset(a) == multiset(b)
    ensures k < |b| && b[k] == a[0]
    ensures multiset(a[1..]) == multiset(b[..k] + b[k + 1..])
  {
    assert a[0] in multiset(b);
    k :| 0 <= k < |b| && b[k] == a[0];
    assert a == [a[0]] + a[1..];
    assert multiset(a) == multiset{a[0]} + multiset(a[1..]);
    MultisetRemoveAt(b, k);
  }

  lemma {:induction false} SumMatchedPermutation(a: seq<CountEntry>, b: seq<CountEntry>)
    requires multiset(a) == multiset(b)
    ensures SumMatched(a) == SumMatched(b)
    decreases |a|
  {
    if |a| == 0 {
      assert |b| == |multiset(b)| == 0;
    } else {
      var k := PermutationStep(a, b);
      SumMatchedPermutation(a[1..], b[..k] + b[k + 1..]);
      SumMatchedRemoveAt(b, k);
    }
  }

  lemma ReportedPermutation(a: seq<CountEntry>, b: seq<CountEntry>, c: string)
    requires multiset(a) == multiset(b)
    ensures Reported(a, c) <==> Reported(b, c)
  {
    if Reported(a, c) {
      var d :| d in a && d.collection == c;
      assert d in multiset(b);
    }
    if Reported(b, c) {
      var d :| d in b && d.collection == c;
      assert d in multiset(a);
    }
  }

  lemma DistinctTail(s: seq<CountEntry>)
    requires |s| > 0 && DistinctNames(s)
    ensures DistinctNames(s[1..]) && !Reported(s[1..], s[0].collection)
  {
    forall i, j | 0 <= i < j < |s[1..]| ensures s[1..][i].collection != s[1..][j].collection {
      assert s[1..][i] == s[i + 1] && s[1..][j] == s[j + 1];
    }
  }

  lemma ConsDistinct(h: CountEntry, t: seq<CountEntry>)
    requires DistinctNames(t) && !Reported(t, h.collection)
    ensures DistinctNames([h] + t)
  {
    var r := [h] + t;
    forall i, j | 0 <= i < j < |r| ensures r[i].collection != r[j].collection {
      if i == 0 {
        assert r[j] == t[j - 1] && t[j - 1] in t;
      } else {
        assert r[i] == t[i - 1] && r[j] == t[j - 1];
      }
    }
  }

  lemma {:induction false} InsertByCollectionDistinct(x: CountEntry, s: seq<CountEntry>)
    requires DistinctNames(s) && !Reported(s, x.collection)
    ensures DistinctNames(InsertByCollection(x, s))
    decreases |s|
  {
    if |s| == 0 {
    } else if LexLe(x.collection, s[0].collection) {
      ConsDistinct(x, s);
    } else {
      var tail := InsertByCollection(x, s[1..]);
      DistinctTail(s);
      assert forall d :: d in s[1..] ==> d in s;
      InsertByCollectionDistinct(x, s[1..]);
      InsertByCollectionPermutes(x, s[1..]);
      assert s[0] in s;
      assert !Reported(tail, s[0].collection) by {
        forall y | y in tail ensures y.collection != s[0].collection {
          assert y in multiset(tail);
          assert y == x || y in multiset(s[1..]);
        }
      }
      ConsDistinct(s[0], tail);
    }
  }

  lemma {:induction false} SortByCollectionDistinct(s: seq<CountEntry>)
    requires DistinctNames(s)
    ensures DistinctNames(SortByCollection(s))
    decreases |s|
  {
    if |s| > 0 {
      DistinctTail(s);
      SortByCollectionDistinct(s[1..]);
      SortByCollectionCorrect(s[1..]);
      ReportedPermutation(SortByCollection(s[1..]), s[1..], s[0].collection);
      InsertByCollectionDistinct(s[0], SortByCollection(s[1..]));
    }
  }

  // ---- per-collection metadata ----

  datatype CollectionContext = CollectionContext(page: int, limit: int, matched: nat, returned: nat)

  datatype CollectionMeta = CollectionMeta(name: string, context: CollectionContext)

  /** `len(list(filter(lambda x: x['collection'] == c, result)))` */
  function CountRows(rows: seq<Scene>, c: string): (n: nat)
    ensures n <= |rows|
  {
    if |rows| == 0 then 0 else (if rows[0].collection == c then 1 else 0) + CountRows(rows[1..], c)
  }

  /** One entry per count entry, in the count list's order, with the request's
      own page and limit, the entry's `matched` and the rows of that collection. */
  function MetaOf(counts: seq<CountEntry>, rows: seq<Scene>, page: int, limit: int): (meta: seq<CollectionMeta>)
    ensures |meta| == |counts|
    ensures forall i :: 0 <= i < |counts| ==>
      meta[i] == CollectionMeta(counts[i].collection,
                                CollectionContext(page, limit, counts[i].matched, CountRows(rows, counts[i].collection)))
  {
    if |counts| == 0 then []
    else
      [CollectionMeta(counts[0].collection,
                      CollectionContext(page, limit, counts[0].matched, CountRows(rows, counts[0].collection)))]
      + MetaOf(counts[1..], rows, page, limit)
  }

  function SumReturned(meta: seq<CollectionMeta>): (r: nat)
  {
    if |meta| == 0 then 0 else meta[0].context.returned + SumReturned(meta[1..])
  }

  /** The rows whose collection is one of `names`. */
  function CountRowsIn(rows: seq<Scene>, names: set<string>): (n: nat)
    ensures n <= |rows|
  {
    if |rows| == 0 then 0 else (if rows[0].collection in names then 1 else 0) + CountRowsIn(rows[1..], names)
  }

  lemma {:induction false} CountRowsInAdd(rows: seq<Scene>, names: set<string>, c: string)
    requires c !in names
    ensures CountRowsIn(rows, names + {c}) == CountRows(rows, c) + CountRowsIn(rows, names)
    decreases |rows|
  {
    if |rows| > 0 {
      CountRowsInAdd(rows[1..], names, c);
    }
  }

  lemma {:induction false} CountRowsInAll(rows: seq<Scene>, names: set<string>)
    requires forall k :: 0 <= k < |rows| ==> rows[k].collection in names
    ensures CountRowsIn(rows, names) == |rows|
    decreases |rows|
  {
    if |rows| > 0 {
      CountRowsInAll(rows[1..], names);
    }
  }

  function NameSet(counts: seq<CountEntry>): (r: set<string>)
  {
    set d | d in counts :: d.collection
  }

  lemma {:induction false} ReturnedSumsToNamedRows(counts: seq<CountEntry>, rows: seq<Scene>, page: int, limit: int)
    requires DistinctNames(counts)
    ensures SumReturned(MetaOf(counts, rows, page, limit)) == CountRowsIn(rows, NameSet(counts))
    decreases |counts|
  {
    if |counts| == 0 {
      assert NameSet(counts) == {};
      CountRowsInAll([], {});
      assert forall k :: 0 <= k < |rows| ==> CountRowsIn(rows[k..], {}) == 0 by {
        forall k | 0 <= k < |rows| ensures CountRowsIn(rows[k..], {}) == 0 {
          CountRowsInEmpty(rows[k..]);
        }
      }
      CountRowsInEmpty(rows);
    } else {
      var tail := counts[1..];
      assert DistinctNames(tail) by {
        forall i, j | 0 <= i < j < |tail| ensures tail[i].collection != tail[j].collection {
          assert tail[i] == counts[i + 1] && tail[j] == counts[j + 1];
        }
      }
      ReturnedSumsToNamedRows(tail, rows, page, limit);
      var c := counts[0].collection;
      assert c !in NameSet(tail) by {
        forall d | d in tail ensures d.collection != c {
          var k :| 0 <= k < |tail| && tail[k] == d;
          assert counts[k + 1] == d;
        }
      }
      assert NameSet(counts) == NameSet(tail) + {c} by {
        assert counts == [counts[0]] + tail;
        assert forall d :: d in counts <==> d == counts[0] || d in tail;
      }
      CountRowsInAdd(rows, NameSet(tail), c);
      var meta := MetaOf(counts, rows, page, limit);
      assert meta[1..] == MetaOf(tail, rows, page, limit);
    }
  }

  lemma {:induction false} CountRowsInEmpty(rows: seq<Scene>)
    ensures CountRowsIn(rows, {}) == 0
    decreases |rows|
  {
    if |rows| > 0 {
      CountRowsInEmpty(rows[1..]);
    }
  }

  lemma {:induction false} MetaMatchedSum(counts: seq<CountEntry>, rows: seq<Scene>, page: int, limit: int)
    ensures SumMetaMatched(MetaOf(counts, rows, page, limit)) == SumMatched(counts)
    decreases |counts|
  {
    if |counts| > 0 {
      MetaMatchedSum(counts[1..], rows, page, limit);
      assert MetaOf(counts, rows, page, limit)[1..] == MetaOf(counts[1..], rows, page, limit);
    }
  }

  function SumMetaMatched(meta: seq<CollectionMeta>): (r: nat)
  {
    if |meta| == 0 then 0 else meta[0].context.matched + SumMetaMatched(meta[1..])
  }

  // ---- one store round trip ----

  /** What the item query is asked: its WHERE clauses, its window and its parameters. */
  datatype StoreQuery = StoreQuery(where: seq<Clause>, window: Window, params: Params)

  /** The rows and the count list `__search_stac_item_view` hands back. */
  datatype View = View(rows: seq<Scene>, counts: seq<CountEntry>)

  /** The post-processing of the two answers: None becomes the empty list;
      with collections, the zero counts are filled in and the list is sorted. */
  function ViewOf(p: Params, rowAnswer: Option<seq<Scene>>, countAnswer: Option<seq<CountEntry>>): (r: View)
  {
    var rows := if rowAnswer.None? then [] else rowAnswer.value;
    var counts := if countAnswer.None? then [] else countAnswer.value;
    if p.collections.Some? then View(rows, SortByCollection(WithZeroCounts(counts, Split(p.collections.value, ','))))
    else View(rows, counts)
  }

  /** `__search_stac_item_view`: puts the soft-delete clause into the caller's
      list, forms the item query, and post-processes what the store answers. */
  method SearchItemView(where: Where, params: Params, flag: string,
                        rowAnswer: Option<seq<Scene>>, countAnswer: Option<seq<CountEntry>>)
    returns (q: StoreQuery, view: View)
    modifies where
    ensures where.clauses == FilterBuilder.WithDeletedFlag(flag, old(where.clauses))
    ensures q == StoreQuery(where.clauses, WindowOf(params), params)
    ensures view == ViewOf(params, rowAnswer, countAnswer)
  {
    where.InsertDeletedFlag(flag);
    var window := if params.collections.Some? then PerCollection(params.page, params.limit)
                  else Global(params.page, params.limit);
    q := StoreQuery(where.clauses, window, params);
    var rows := if rowAnswer.None? then [] else rowAnswer.value;
    var counts := if countAnswer.None? then [] else countAnswer.value;
    if params.collections.Some? {
      counts := FillZeroCounts(counts, Split(params.collections.value, ','));
      counts := SortByCollection(counts);
    }
    view := View(rows, counts);
  }

  // ---- get_collection_items ----

  /** The triple `get_collection_items` returns, and the item query it issued. */
  datatype SearchResult = SearchResult(query: StoreQuery, rows: seq<Scene>, matched: nat, meta: seq<CollectionMeta>)

  /** The result for a built filter: the rows, the summed `matched`, and, in a
      collections search, one metadata entry per count entry. */
  function ResultOf(page: int, limit: int, f: Filter, flag: string,
                    rowAnswer: Option<seq<Scene>>, countAnswer: Option<seq<CountEntry>>): (r: SearchResult)
  {
    var v := ViewOf(f.params, rowAnswer, countAnswer);
    var meta := if f.params.collections.Some? then MetaOf(v.counts, v.rows, page, limit) else [];
    SearchResult(StoreQuery(FilterBuilder.WithDeletedFlag(flag, f.clauses), WindowOf(f.params), f.params),
                 v.rows, SumMatched(v.counts), meta)
  }

  function SearchOf(req: Request, flag: string,
                    rowAnswer: Option<seq<Scene>>, countAnswer: Option<seq<CountEntry>>): (r: Result<SearchResult, SearchError>)
  {
    match FilterOf(req)
    case Failure(e) => Failure(e)
    case Success(f) => Success(ResultOf(req.page, req.limit, f, flag, rowAnswer, countAnswer))
  }

  /** `get_collection_items`: builds the filter, runs the one search it
      calls for, and sums `matched` over the count list. */
  method GetCollectionItems(req: Request, flag: string,
                            rowAnswer: Option<seq<Scene>>, countAnswer: Option<seq<CountEntry>>)
    returns (r: Result<SearchResult, SearchError>)
    ensures r == SearchOf(req, flag, rowAnswer, countAnswer)
  {
    var built := BuildFilter(req);
    if built.Failure? {
      return Failure(built.error);
    }
    var f := built.value;
    var where := new Where(f.clauses);
    var q, view := SearchItemView(where, f.params, flag, rowAnswer, countAnswer);
    var result: seq<Scene> := [];
    result := result + view.rows;
    assert result == view.rows;
    var matched: nat := 0;
    var i := 0;
    while i < |view.counts|
      invariant 0 <= i <= |view.counts|
      invariant matched == SumMatched(view.counts[..i])
    {
      SumMatchedConcat(view.counts[..i], [view.counts[i]]);
      assert view.counts[..i + 1] == view.counts[..i] + [view.counts[i]];
      matched := matched + view.counts[i].matched;
      i := i + 1;
    }
    assert view.counts[..|view.counts|] == view.counts;
    var meta: seq<CollectionMeta> := [];
    if f.params.collections.Some? {
      meta := MetaOf(view.counts, result, req.page, req.limit);
    }
    r := Success(SearchResult(q, result, matched, meta));
  }

  // ---- properties of a search ----

  function StoreCounts(countAnswer: Option<seq<CountEntry>>): (r: seq<CountEntry>)
  {
    if countAnswer.None? then [] else countAnswer.value
  }

  /** `matched` is the sum of what the store counted, whatever the search. */
  lemma MatchedIsStoreSum(page: int, limit: int, f: Filter, flag: string,
                          rowAnswer: Option<seq<Scene>>, countAnswer: Option<seq<CountEntry>>)
    ensures ResultOf(page, limit, f, flag, rowAnswer, countAnswer).matched == SumMatched(StoreCounts(countAnswer))
  {
    var counts := StoreCounts(countAnswer);
    if f.params.collections.Some? {
      var filled := WithZeroCounts(counts, Split(f.params.collections.value, ','));
      ZeroCountsAppend(counts, Split(f.params.collections.value, ','));
      SortByCollectionCorrect(filled);
      SumMatchedPermutation(SortByCollection(filled), filled);
    }
  }

  /** In a collections search the metadata is the sorted count list, with the
      request's page and limit, and its `matched` values add up to the total. */
  lemma CollectionsMeta(page: int, limit: int, f: Filter, flag: string,
                        rowAnswer: Option<seq<Scene>>, countAnswer: Option<seq<CountEntry>>)
    requires f.params.collections.Some?
    ensures var r := ResultOf(page, limit, f, flag, rowAnswer, countAnswer);
      && SumMetaMatched(r.meta) == r.matched
      && (forall i, j :: 0 <= i < j < |r.meta| ==> LexLe(r.meta[i].name, r.meta[j].name))
      && (forall m :: m in r.meta ==>
            m.context.page == page && m.context.limit == limit && m.context.returned == CountRows(r.rows, m.name))
  {
    var v := ViewOf(f.params, rowAnswer, countAnswer);
    var filled := WithZeroCounts(StoreCounts(countAnswer), Split(f.params.collections.value, ','));
    SortByCollectionCorrect(filled);
    var meta := MetaOf(v.counts, v.rows, page, limit);
    MetaMatchedSum(v.counts, v.rows, page, limit);
    forall i, j | 0 <= i < j < |meta| ensures LexLe(meta[i].name, meta[j].name) {
      assert meta[i].name == v.counts[i].collection && meta[j].name == v.counts[j].collection;
    }
  }

  predicate Named(meta: seq<CollectionMeta>, c: string)
  {
    exists m :: m in meta && m.name == c
  }

  lemma NamedIffReported(counts: seq<CountEntry>, rows: seq<Scene>, page: int, limit: int, c: string)
    ensures Named(MetaOf(counts, rows, page, limit), c) <==> Reported(counts, c)
  {
    var meta := MetaOf(counts, rows, page, limit);
    if Named(meta, c) {
      var m :| m in meta && m.name == c;
      var i :| 0 <= i < |meta| && meta[i] == m;
      assert counts[i] in counts;
    }
    if Reported(counts, c) {
      var d :| d in counts && d.collection == c;
      var i :| 0 <= i < |counts| && counts[i] == d;
      assert meta[i] in meta;
    }
  }

  /** After the fill and the sort, an entry the store did not count has `matched` 0. */
  lemma UncountedAreZero(counts: seq<CountEntry>, requested: seq<string>, e: CountEntry)
    requires e in SortByCollection(WithZeroCounts(counts, requested)) && !Reported(counts, e.collection)
    ensures e.matched == 0
  {
    var filled := WithZeroCounts(counts, requested);
    SortByCollectionCorrect(filled);
    ZeroCountsAppend(counts, requested);
    assert e in multiset(filled);
    var k :| 0 <= k < |filled| && filled[k] == e;
  }

  /** After the fill and the sort, every entry the store counted is still there. */
  lemma CountedKept(counts: seq<CountEntry>, requested: seq<string>, d: CountEntry)
    requires d in counts
    ensures d in SortByCollection(WithZeroCounts(counts, requested))
  {
    var filled := WithZeroCounts(counts, requested);
    SortByCollectionCorrect(filled);
    ZeroCountsAppend(counts, requested);
    var k :| 0 <= k < |counts| && counts[k] == d;
    assert filled[..|counts|][k] == d;
    assert d in multiset(filled);
  }

  /** In a collections search, a collection has a metadata entry exactly when
      the store counted it or it was requested; one the store did not count
      reports `matched` 0; and each entry the store counted is reported as it was. */
  lemma CollectionsReported(page: int, limit: int, f: Filter, flag: string,
                            rowAnswer: Option<seq<Scene>>, countAnswer: Option<seq<CountEntry>>, c: string)
    requires f.params.collections.Some?
    ensures var r := ResultOf(page, limit, f, flag, rowAnswer, countAnswer);
      var requested := Split(f.params.collections.value, ',');
      && (Named(r.meta, c) <==> Reported(StoreCounts(countAnswer), c) || c in requested)
      && (forall m :: m in r.meta && !Reported(StoreCounts(countAnswer), m.name) ==> m.context.matched == 0)
      && (forall d :: d in StoreCounts(countAnswer) ==>
            CollectionMeta(d.collection, CollectionContext(page, limit, d.matched, CountRows(r.rows, d.collection))) in r.meta)
  {
    var counts := StoreCounts(countAnswer);
    var requested := Split(f.params.collections.value, ',');
    var v := ViewOf(f.params, rowAnswer, countAnswer);
    var filled := WithZeroCounts(counts, requested);
    SortByCollectionCorrect(filled);
    ZeroCountsCover(counts, requested, c);
    ReportedPermutation(v.counts, filled, c);
    NamedIffReported(v.counts, v.rows, page, limit, c);
    var meta := MetaOf(v.counts, v.rows, page, limit);
    forall m | m in meta && !Reported(counts, m.name) ensures m.context.matched == 0 {
      var i :| 0 <= i < |meta| && meta[i] == m;
      UncountedAreZero(counts, requested, v.counts[i]);
    }
    forall d | d in counts
      ensures CollectionMeta(d.collection, CollectionContext(page, limit, d.matched, CountRows(v.rows, d.collection))) in meta
    {
      CountedKept(counts, requested, d);
      var i :| 0 <= i < |v.counts| && v.counts[i] == d;
      assert meta[i] in meta;
    }
  }

  /** When the store's groups are distinct and every row belongs to a requested
      or counted collection, the `returned` values add up to the rows returned. */
  lemma ReturnedSumsToRows(page: int, limit: int, f: Filter, flag: string,
                           rowAnswer: Option<seq<Scene>>, countAnswer: Option<seq<CountEntry>>)
    requires f.params.collections.Some?
    requires DistinctNames(StoreCounts(countAnswer))
    requires var r := ResultOf(page, limit, f, flag, rowAnswer, countAnswer);
      forall k :: 0 <= k < |r.rows| ==> Named(r.meta, r.rows[k].collection)
    ensures var r := ResultOf(page, limit, f, flag, rowAnswer, countAnswer);
      SumReturned(r.meta) == |r.rows|
  {
    var counts := StoreCounts(countAnswer);
    var requested := Split(f.params.collections.value, ',');
    var v := ViewOf(f.params, rowAnswer, countAnswer);
    var filled := WithZeroCounts(counts, requested);
    ZeroCountsDistinct(counts, requested);
    SortByCollectionDistinct(filled);
    ReturnedSumsToNamedRows(v.counts, v.rows, page, limit);
    var r := ResultOf(page, limit, f, flag, rowAnswer, countAnswer);
    assert r.meta == MetaOf(v.counts, v.rows, page, limit) && r.rows == v.rows;
    forall k | 0 <= k < |v.rows| ensures v.rows[k].collection in NameSet(v.counts) {
      var c := v.rows[k].collection;
      assert Named(r.meta, c);
      NamedIffReported(v.counts, v.rows, page, limit, c);
      var d :| d in v.counts && d.collection == c;
      assert d.collection in NameSet(v.counts);
    }
    CountRowsInAll(v.rows, NameSet(v.counts));
  }

  /** A search without collections (an identifier search among them) reports
      no metadata and pages with `LIMIT`. */
  lemma NoMetaWithoutCollections(page: int, limit: int, f: Filter, flag: string,
                                 rowAnswer: Option<seq<Scene>>, countAnswer: Option<seq<CountEntry>>)
    requires f.params.collections.None?
    ensures var r := ResultOf(page, limit, f, flag, rowAnswer, countAnswer);
      r.meta == [] && r.query.window == Global(f.params.page, f.params.limit)
  {
  }

  /** An identifier search never fails, reports no metadata and pages with `LIMIT page - 1, limit`. */
  lemma IdSearchResult(req: Request, flag: string,
                       rowAnswer: Option<seq<Scene>>, countAnswer: Option<seq<CountEntry>>)
    requires IdSearch(req)
    ensures var r := SearchOf(req, flag, rowAnswer, countAnswer);
      && r.Success?
      && r.value.meta == []
      && r.value.query.window == Global(req.page - 1, req.limit)
      && r.value.matched == SumMatched(StoreCounts(countAnswer))
  {
    IdSearchTakesPrecedence(req);
  }

  /** The rows returned are the store's rows, None standing for no rows. */
  lemma RowsAreTheStoreRows(page: int, limit: int, f: Filter, flag: string,
                            rowAnswer: Option<seq<Scene>>, countAnswer: Option<seq<CountEntry>>)
    ensures var r := ResultOf(page, limit, f, flag, rowAnswer, countAnswer);
      |r.rows| == Util.LenResult(rowAnswer) && (rowAnswer.Some? ==> r.rows == rowAnswer.value)
  {
  }
}
