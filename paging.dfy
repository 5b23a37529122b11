/**
 * Query-string pagination shared by the product listing and the user
 * search: `skip = (page - 1) * limit`, at most `limit` entries per page,
 * and `totalPages = Math.ceil(total / limit)`.  Page and limit are taken as
 * positive integers (the `parseInt` of the query string is not modelled).
 */
module Paging {

  /** Page and limit are positive once parsed. */
  type Pos = n: nat | n >= 1 witness 1

  const DefaultPage: nat := 1
  const DefaultLimit: nat := 10

  /** The number of entries on the pages before `page`. */
  function Skip(page: nat, limit: nat): (s: nat)
    requires page >= 1
    ensures s + limit == page * limit
    ensures s == 0 <==> page == 1 || limit == 0
  {
    (page - 1) * limit
  }

  /** `Math.ceil(total / limit)`: the fewest pages of `limit` entries that hold `total` entries. */
  function TotalPages(total: nat, limit: nat): (n: nat)
    requires limit >= 1
    ensures n * limit >= total
    ensures n == 0 || (n - 1) * limit < total
  {
    var q := total / limit;
    var r := total % limit;
    assert total == q * limit + r;
    if r == 0 then q
    else
      assert (q + 1) * limit == q * limit + limit;
      q + 1
  }

  /** Any page count that holds all entries, with no empty last page, is `TotalPages`. */
  lemma TotalPagesUnique(total: nat, limit: nat, n: nat)
    requires limit >= 1
    requires n * limit >= total && (n == 0 || (n - 1) * limit < total)
    ensures n == TotalPages(total, limit)
  {
    var m := TotalPages(total, limit);
    if n < m {
      assert n <= m - 1;
      MulMonotone(n, m - 1, limit);
    } else if m < n {
      assert m <= n - 1;
      MulMonotone(m, n - 1, limit);
    }
  }

  lemma MulMonotone(a: nat, b: nat, c: nat)
    requires a <= b
    ensures a * c <= b * c
  {
  }

  lemma MulCancel(a: nat, b: nat, c: nat)
    requires a * c > b * c
    ensures a > b
  {
  }

  /** `.skip(skip).limit(limit)` on a listing: the entries of one page. */
  function Page<T>(listing: seq<T>, page: nat, limit: nat): (r: seq<T>)
    requires page >= 1
    ensures |r| <= limit
    ensures forall k :: 0 <= k < |r| ==> Skip(page, limit) + k < |listing| && r[k] == listing[Skip(page, limit) + k]
  {
    var from := Skip(page, limit);
    if from >= |listing| then []
    else if from + limit >= |listing| then listing[from..]
    else listing[from..from + limit]
  }

  /** Every entry of the listing is on page `k / limit + 1`, at position `k % limit`, and that page exists. */
  lemma EntryOnPage<T>(listing: seq<T>, limit: nat, k: nat)
    requires limit >= 1 && k < |listing|
    ensures var p := k / limit + 1;
      && p <= TotalPages(|listing|, limit)
      && k % limit < |Page(listing, p, limit)|
      && Page(listing, p, limit)[k % limit] == listing[k]
  {
    var p := k / limit + 1;
    var q, r := k / limit, k % limit;
    assert k == q * limit + r;
    assert Skip(p, limit) == q * limit;
    var n := TotalPages(|listing|, limit);
    MulCancel(n, q, limit);
  }

  /** A page is empty exactly when it starts at or beyond the end of the listing. */
  lemma EmptyPage<T>(listing: seq<T>, page: nat, limit: nat)
    requires page >= 1 && limit >= 1
    ensures Page(listing, page, limit) == [] <==> Skip(page, limit) >= |listing|
  {
  }

  /** With a non-empty listing, page `p` is non-empty exactly when `p <= TotalPages`. */
  lemma PageNonEmptyIff<T>(listing: seq<T>, page: nat, limit: nat)
    requires page >= 1 && limit >= 1
    ensures Page(listing, page, limit) != [] <==> page <= TotalPages(|listing|, limit)
  {
    var n := TotalPages(|listing|, limit);
    if page <= n {
      MulMonotone(page - 1, n - 1, limit);
    } else {
      MulMonotone(n, page - 1, limit);
    }
  }
}
