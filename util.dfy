/** inpe_stac/util.py: paging arithmetic, the query-string builder, the
    soft-delete clause and the result-length helper. */
module Util {
  import opened Wrappers
  import opened Text

  /** `calc_offset`: a 1-indexed page number to the offset of its first row;
      pages before the first are clamped to it. */
  function CalcOffset(page: int, limit: int): (offset: int)
    ensures page <= 1 ==> offset == 0
    ensures limit >= 0 ==> offset >= 0
  {
    var p := page - 1;
    var p' := if p < 0 then 0 else p;
    p' * limit
  }

  /** Consecutive pages are adjacent windows: no gap and no overlap. */
  lemma ContiguousPages(page: int, limit: int)
    requires page >= 1
    ensures CalcOffset(page + 1, limit) == CalcOffset(page, limit) + limit
  {
  }

  lemma MulStep(a: int, b: int, limit: int)
    requires a < b && limit > 0
    ensures a * limit + limit <= b * limit
  {
    var d := b - a - 1;
    assert d * limit >= 0;
    assert b * limit == a * limit + limit + d * limit;
  }

  /** With a positive limit, row `n` (0-indexed) falls on page `n / limit + 1`
      and on no other page. */
  lemma RowOnExactlyOnePage(n: int, limit: int, page: int)
    requires n >= 0 && limit > 0 && page >= 1
    ensures CalcOffset(page, limit) <= n < CalcOffset(page, limit) + limit
            <==> page == n / limit + 1
  {
    var q := n / limit;
    var p := page - 1;
    assert n == q * limit + n % limit;
    assert CalcOffset(page, limit) == p * limit;
    if p < q {
      MulStep(p, q, limit);
    } else if p > q {
      MulStep(q, p, limit);
    }
  }

  /** The `k=v` strings `get_query_string` joins: one per entry whose value is
      not None, in the dict's order. */
  function RenderedPairs(params: seq<(string, Option<string>)>): (r: seq<string>)
    ensures |r| <= |params|
  {
    if |params| == 0 then []
    else
      var (k, v) := params[0];
      (if v.Some? then [k + "=" + v.value] else []) + RenderedPairs(params[1..])
  }

  /** `get_query_string`. */
  function QueryString(params: seq<(string, Option<string>)>): (r: string)
  {
    Join(RenderedPairs(params), '&')
  }

  predicate AllNone(params: seq<(string, Option<string>)>)
  {
    forall k :: 0 <= k < |params| ==> params[k].1.None?
  }

  lemma {:induction false} RenderedPairsEmpty(params: seq<(string, Option<string>)>)
    ensures RenderedPairs(params) == [] <==> AllNone(params)
    decreases |params|
  {
    if |params| > 0 {
      RenderedPairsEmpty(params[1..]);
      if params[0].1.None? {
        assert AllNone(params) <==> AllNone(params[1..]) by {
          if AllNone(params[1..]) {
            forall k | 0 <= k < |params| ensures params[k].1.None? {
              if k > 0 { assert params[k] == params[1..][k - 1]; }
            }
          }
          if AllNone(params) {
            forall k | 0 <= k < |params[1..]| ensures params[1..][k].1.None? {
              assert params[1..][k] == params[k + 1];
            }
          }
        }
      }
    }
  }

  lemma JoinNonEmpty(parts: seq<string>, sep: char)
    requires |parts| >= 1 && |parts[0]| > 0
    ensures |Join(parts, sep)| > 0
  {
  }

  lemma {:induction false} RenderedPairsNonEmpty(params: seq<(string, Option<string>)>)
    requires RenderedPairs(params) != []
    ensures |RenderedPairs(params)[0]| > 0
    decreases |params|
  {
    if params[0].1.None? {
      RenderedPairsNonEmpty(params[1..]);
    }
  }

  /** The query string is empty exactly when every value is None. */
  lemma QueryStringEmpty(params: seq<(string, Option<string>)>)
    ensures QueryString(params) == "" <==> AllNone(params)
  {
    RenderedPairsEmpty(params);
    if !AllNone(params) {
      RenderedPairsNonEmpty(params);
      JoinNonEmpty(RenderedPairs(params), '&');
    }
  }

  predicate NoAmpersand(params: seq<(string, Option<string>)>)
  {
    forall k :: 0 <= k < |params| ==>
      '&' !in params[k].0 && (params[k].1.Some? ==> '&' !in params[k].1.value)
  }

  lemma {:induction false} RenderedPairsNoAmpersand(params: seq<(string, Option<string>)>)
    requires NoAmpersand(params)
    ensures forall k :: 0 <= k < |RenderedPairs(params)| ==> '&' !in RenderedPairs(params)[k]
    decreases |params|
  {
    if |params| > 0 {
      assert NoAmpersand(params[1..]) by {
        forall k | 0 <= k < |params[1..]|
          ensures '&' !in params[1..][k].0 && (params[1..][k].1.Some? ==> '&' !in params[1..][k].1.value)
        {
          assert params[1..][k] == params[k + 1];
        }
      }
      RenderedPairsNoAmpersand(params[1..]);
      var (key, v) := params[0];
      if v.Some? {
        assert '&' !in key + "=" + v.value by {
          assert '&' !in key && '&' !in v.value;
          assert forall c :: c in key + "=" + v.value ==> c in key || c == '=' || c in v.value;
        }
      }
    }
  }

  /** When no key or value contains '&', splitting the query string on '&'
      gives back exactly the rendered `k=v` pairs, in order. */
  lemma QueryStringSplits(params: seq<(string, Option<string>)>)
    requires NoAmpersand(params) && !AllNone(params)
    ensures Split(QueryString(params), '&') == RenderedPairs(params)
  {
    RenderedPairsEmpty(params);
    RenderedPairsNoAmpersand(params);
    SplitJoin(RenderedPairs(params), '&');
  }

  /** `insert_deleted_flag_to_where` of util.py on the SQL text of the clauses:
      flag "0" or "1" puts `deleted = <flag>` in front, any other flag changes nothing. */
  function WithDeletedFlag(flag: string, clauses: seq<string>): (r: seq<string>)
    ensures flag == "0" || flag == "1" ==>
      |r| == |clauses| + 1 && r[0] == "deleted = " + flag && r[1..] == clauses
    ensures flag != "0" && flag != "1" ==> r == clauses
  {
    if flag == "0" then ["deleted = 0"] + clauses
    else if flag == "1" then ["deleted = 1"] + clauses
    else clauses
  }

  /** The list of WHERE clauses the caller passes and that the insertion updates. */
  class WhereList {
    var clauses: seq<string>

    constructor (clauses: seq<string>)
      ensures this.clauses == clauses
    {
      this.clauses := clauses;
    }

    method InsertDeletedFlag(flag: string)
      modifies this
      ensures clauses == WithDeletedFlag(flag, old(clauses))
    {
      if flag == "0" {
        clauses := ["deleted = 0"] + clauses;
      } else if flag == "1" {
        clauses := ["deleted = 1"] + clauses;
      }
    }
  }

  /** `len_result`: the length of a query result, None counting as empty. */
  function LenResult<T>(result: Option<seq<T>>): (n: nat)
    ensures result.None? ==> n == 0
    ensures result.Some? ==> n == |result.value|
  {
    match result
    case None => 0
    case Some(rows) => |rows|
  }
}
