/** `LIMIT`/`OFFSET` pagination and the `totalPages` figure reported beside it. */
module Paging {

  /** `rows` after skipping `offset` rows and keeping at most `limit` of the rest. */
  function Window<T>(rows: seq<T>, offset: nat, limit: nat): (r: seq<T>)
    ensures |r| <= limit
    ensures offset >= |rows| ==> r == []
    ensures offset < |rows| ==> |r| == if limit <= |rows| - offset then limit else |rows| - offset
    ensures forall i :: 0 <= i < |r| ==> r[i] == rows[offset + i]
  {
    if offset >= |rows| then []
    else if limit <= |rows| - offset then rows[offset..offset + limit]
    else rows[offset..]
  }

  /** `Math.ceil(total / limit)` for a positive `limit`. */
  function CeilDiv(total: nat, limit: nat): nat
    requires limit > 0
  {
    (total + limit - 1) / limit
  }

  /** `CeilDiv` is the least page count whose pages hold `total` rows. */
  lemma CeilDivIsLeastCover(total: nat, limit: nat)
    requires limit > 0
    ensures CeilDiv(total, limit) * limit >= total
    ensures CeilDiv(total, limit) > 0 ==> (CeilDiv(total, limit) - 1) * limit < total
  {
    var q := CeilDiv(total, limit);
    var r := (total + limit - 1) % limit;
    assert total + limit - 1 == q * limit + r;
    if q > 0 {
      assert (q - 1) * limit == q * limit - limit;
    }
  }

  /** Pages 1 to `k` (each of `limit` rows), one after the other. */
  function FirstPages<T>(rows: seq<T>, limit: nat, k: nat): seq<T> {
    if k == 0 then [] else FirstPages(rows, limit, k - 1) + Window(rows, (k - 1) * limit, limit)
  }

  lemma {:induction false} FirstPagesIsPrefix<T>(rows: seq<T>, limit: nat, k: nat)
    ensures FirstPages(rows, limit, k) == rows[..if k * limit <= |rows| then k * limit else |rows|]
  {
    if k > 0 {
      FirstPagesIsPrefix(rows, limit, k - 1);
      assert (k - 1) * limit + limit == k * limit;
      assert (k - 1) * limit <= k * limit;
    }
  }

  /** Reading all `totalPages` pages in order gives back every matching row exactly once. */
  lemma AllPagesReassemble<T>(rows: seq<T>, limit: nat)
    requires limit > 0
    ensures FirstPages(rows, limit, CeilDiv(|rows|, limit)) == rows
  {
    CeilDivIsLeastCover(|rows|, limit);
    FirstPagesIsPrefix(rows, limit, CeilDiv(|rows|, limit));
  }
}
