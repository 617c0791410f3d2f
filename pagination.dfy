/**
  The list-endpoint arithmetic shared by the order and admin routes
  (server/src/routes/orders.ts, server/src/routes/admin.ts): query defaults with
  `parseInt(...) || d`, `skip = (page - 1) * limit`, `pages = Math.ceil(total / limit)`,
  and the `.skip(...).limit(...)` window the database applies to a sorted result.
 */
module Pagination {
  import opened Wrappers

  /**
    `parseInt(q) || d`: `parsed` is what `parseInt` gives (None for NaN). NaN and 0
    are falsy, so both give the default; any other parsed value is kept.
   */
  function OrDefault(parsed: Option<int>, default: int): (r: int)
    ensures parsed.Some? && parsed.value != 0 ==> r == parsed.value
    ensures parsed.None? || parsed.value == 0 ==> r == default
    ensures default != 0 ==> r != 0
  {
    if parsed.Some? && parsed.value != 0 then parsed.value else default
  }

  /** Documents skipped before `page`. */
  function Skip(page: int, limit: int): int
  {
    (page - 1) * limit
  }

  lemma FloorFraction(m: int, b: int)
    requires b > 0 && 0 <= m < b
    ensures 0.0 <= m as real / b as real < 1.0
  {
    var f := m as real / b as real;
    assert f * b as real == m as real;
    if f >= 1.0 {
      assert false;
    }
  }

  /** `Math.ceil(a / b)` for integers and a divisor of either sign: the least integer not below `a / b`. */
  function CeilDiv(a: int, b: int): (r: int)
    requires b != 0
    ensures r as real - 1.0 < a as real / b as real <= r as real
  {
    if b > 0 then
      var q, m := (-a) / b, (-a) % b;
      assert a as real / b as real == -(q as real) - m as real / b as real by {
        assert a == -(b * q) - m;
        assert (-(q as real) - m as real / b as real) * b as real == a as real;
      }
      FloorFraction(m, b);
      -q
    else
      var q, m := a / b, a % b;
      assert a as real / b as real == q as real - m as real / (-b) as real by {
        assert a == b * q + m;
        assert (q as real - m as real / (-b) as real) * b as real == a as real;
      }
      FloorFraction(m, -b);
      q
  }

  /** `pages` in a list response. */
  function PageCount(total: int, limit: int): int
    requires limit != 0
  {
    CeilDiv(total, limit)
  }

  lemma DivBounds(k: nat, limit: int)
    requires limit > 0
    ensures (k / limit) * limit <= k < (k / limit) * limit + limit
  {
  }

  /** For a positive limit, the page count in integer terms: the pages hold `total`, one fewer would not. */
  lemma PageCountCovers(total: int, limit: int)
    requires limit > 0
    ensures (PageCount(total, limit) - 1) * limit < total <= PageCount(total, limit) * limit
  {
    var q, m := (-total) / limit, (-total) % limit;
    assert -total == limit * q + m;
  }

  lemma ScaleMonotone(x: int, y: int, b: int)
    requires b > 0 && x * b > y * b
    ensures x > y
  {
    if x <= y {
      assert false;
    }
  }

  /**
    With a positive limit, the k-th document (from 0) of `total` is on page
    `k / limit + 1`, which lies in 1..pages, and on no other page.
   */
  lemma PageOfItem(total: nat, limit: int, k: nat)
    requires limit > 0 && k < total
    ensures 1 <= k / limit + 1 <= PageCount(total, limit)
    ensures Skip(k / limit + 1, limit) <= k < Skip(k / limit + 1, limit) + limit
    ensures forall q :: Skip(q, limit) <= k < Skip(q, limit) + limit ==> q == k / limit + 1
  {
    var p := k / limit + 1;
    DivBounds(k, limit);
    assert Skip(p, limit) == (k / limit) * limit;
    PageCountCovers(total, limit);
    ScaleMonotone(PageCount(total, limit), k / limit, limit);
    forall q | Skip(q, limit) <= k < Skip(q, limit) + limit
      ensures q == p
    {
      SkipOrder(q, p, limit);
      SkipOrder(p, q, limit);
    }
  }

  /** Pages before `p` end where page `p` starts or earlier. */
  lemma SkipOrder(q: int, p: int, limit: int)
    requires limit > 0
    ensures q < p ==> Skip(q, limit) + limit <= Skip(p, limit)
  {
    if q < p {
      var gap: nat := p - q - 1;
      assert Skip(p, limit) == Skip(q, limit) + gap * limit + limit by {
        assert p - 1 == (q - 1) + gap + 1;
      }
      MulNonNegative(gap, limit);
    }
  }

  lemma MulNonNegative(a: nat, b: nat)
    ensures a * b >= 0
  {
  }

  /**
    `.skip(skip).limit(limit)` on a result list. The database refuses a negative skip;
    a limit of 0 means no limit, and a negative limit returns as many documents as
    its absolute value.
   */
  function PageSlice<T>(rows: seq<T>, skip: int, limit: int): (r: Option<seq<T>>)
    ensures r.None? <==> skip < 0
    ensures r.Some? ==> forall i :: 0 <= i < |r.value| ==> skip + i < |rows| && r.value[i] == rows[skip + i]
    ensures r.Some? && skip <= |rows| ==>
      |r.value| == if limit == 0 || |rows| - skip <= Abs(limit) then |rows| - skip else Abs(limit)
    ensures r.Some? && skip > |rows| ==> r.value == []
  {
    if skip < 0 then None
    else if skip >= |rows| then Some([])
    else
      var rest := rows[skip..];
      if limit == 0 || |rest| <= Abs(limit) then Some(rest) else Some(rest[..Abs(limit)])
  }

  function Abs(x: int): nat
  {
    if x < 0 then -x else x
  }
  /** The `pagination` object of a list response. */
  datatype PageInfo = PageInfo(page: int, limit: int, total: nat, pages: int)

  /**
    A list endpoint's window and metadata: page defaults to 1 and limit to
    `defaultLimit`; the matching documents, in the order the store returns them, are
    windowed at `(page - 1) * limit`. None stands for the database refusing a negative skip
    (a 500 response).
   */
  function Paginate<T>(rows: seq<T>, pageQuery: Option<int>, limitQuery: Option<int>, defaultLimit: int)
    : (r: Option<(seq<T>, PageInfo)>)
    requires defaultLimit > 0
    ensures var page, limit := OrDefault(pageQuery, 1), OrDefault(limitQuery, defaultLimit);
      && (r.None? <==> Skip(page, limit) < 0)
      && (limit > 0 ==> (r.None? <==> page < 1))
      && (r.Some? ==> r.value.1 == PageInfo(page, limit, |rows|, PageCount(|rows|, limit)))
      && (r.Some? && limit > 0 ==> |r.value.0| <= limit)
      && (r.Some? ==> Some(r.value.0) == PageSlice(rows, Skip(page, limit), limit))
      && (r.Some? ==> forall i :: 0 <= i < |r.value.0| ==>
            0 <= Skip(page, limit) + i < |rows| && r.value.0[i] == rows[Skip(page, limit) + i])
  {
    var page := OrDefault(pageQuery, 1);
    var limit := OrDefault(limitQuery, defaultLimit);
    match PageSlice(rows, Skip(page, limit), limit)
    case None => None
    case Some(window) => Some((window, PageInfo(page, limit, |rows|, PageCount(|rows|, limit))))
  }
}
