/** The pagination helper: every listing view hands its ordered post list to a
    paginator with a fixed page size and returns the page named by the
    request's `page` query parameter. */
module Paging {
  import opened Basics

  /** Number of posts per page. */
  const PageSize: nat := 10

  /** The `page` query parameter as the paginator receives it: absent, present
      but not an integer, or an integer. */
  datatype PageParam = NoPage | NotANumber | PageNo(n: int)

  /** Number of pages for `count` items; an empty list still has one (empty) page. */
  function NumPages(count: nat): (k: nat)
    ensures k >= 1
    ensures count == 0 ==> k == 1
    ensures count > 0 ==> (k - 1) * PageSize < count <= k * PageSize
  {
    if count == 0 then 1 else (count + PageSize - 1) / PageSize
  }

  /** The 1-based page the paginator serves: page 1 when the parameter is absent
      or not a number, the requested page when it exists, the last page otherwise. */
  function PageNumber(count: nat, param: PageParam): (k: nat)
    ensures 1 <= k <= NumPages(count)
    ensures !param.PageNo? ==> k == 1
    ensures param.PageNo? && 1 <= param.n <= NumPages(count) ==> k == param.n
    ensures param.PageNo? && !(1 <= param.n <= NumPages(count)) ==> k == NumPages(count)
  {
    match param
    case PageNo(n) => if 1 <= n <= NumPages(count) then n else NumPages(count)
    case _ => 1
  }

  /** Index of the first item of page `k`. */
  function PageStart(k: nat): nat
    requires k >= 1
  {
    (k - 1) * PageSize
  }

  /** Page `k` of `items`: at most `PageSize` consecutive items starting at `PageStart(k)`. */
  function PageAt<T>(items: seq<T>, k: nat): (r: seq<T>)
    requires 1 <= k <= NumPages(|items|)
    ensures PageStart(k) <= |items|
    ensures |r| == Min(PageSize, |items| - PageStart(k))
    ensures r == items[PageStart(k)..PageStart(k) + |r|]
  {
    items[PageStart(k)..Min(PageStart(k) + PageSize, |items|)]
  }

  /** The page served for `items` when the request carries `param`. */
  function Page<T>(items: seq<T>, param: PageParam): (r: seq<T>)
    ensures |r| <= PageSize
    ensures items == [] ==> r == []
    ensures forall i :: 0 <= i < |r| ==> r[i] in items
  {
    PageAt(items, PageNumber(|items|, param))
  }

  /** Without a `page` parameter the first page is served: the first
      `min(N, PageSize)` items, starting with the list's first item. */
  lemma FirstPage<T>(items: seq<T>)
    ensures Page(items, NoPage) == items[..Min(|items|, PageSize)]
    ensures |Page(items, NoPage)| == Min(|items|, PageSize)
    ensures items != [] ==> Page(items, NoPage)[0] == items[0]
  {
  }

  /** With between 11 and 20 items, page 2 holds exactly the items after the first ten. */
  lemma SecondPage<T>(items: seq<T>)
    requires PageSize < |items| <= 2 * PageSize
    ensures Page(items, PageNo(2)) == items[PageSize..]
    ensures |Page(items, PageNo(2))| == |items| - PageSize
  {
  }

  /** Every served page is a contiguous run of the input, starting on a page boundary. */
  lemma PageIsSlice<T>(items: seq<T>, param: PageParam)
    ensures var k := PageNumber(|items|, param);
      PageStart(k) <= |items| &&
      Page(items, param) == items[PageStart(k)..PageStart(k) + |Page(items, param)|]
  {
  }

  /** The list cut into consecutive full pages followed by the remainder. */
  function Pages<T>(items: seq<T>): (ps: seq<seq<T>>)
    ensures |ps| == NumPages(|items|)
    decreases |items|
  {
    if |items| <= PageSize then [items]
    else [items[..PageSize]] + Pages(items[PageSize..])
  }

  function Flatten<T>(pss: seq<seq<T>>): seq<T>
  {
    if pss == [] then [] else pss[0] + Flatten(pss[1..])
  }

  /** Reading the pages in order gives back the whole list: nothing is lost,
      repeated or reordered. */
  lemma {:induction false} PagesCover<T>(items: seq<T>)
    ensures Flatten(Pages(items)) == items
    decreases |items|
  {
    if |items| <= PageSize {
      assert Pages(items)[1..] == [];
      assert Flatten(Pages(items)) == items + [];
    } else {
      PagesCover(items[PageSize..]);
      assert Pages(items)[1..] == Pages(items[PageSize..]);
      assert items == items[..PageSize] + items[PageSize..];
    }
  }

  /** Every page but the last is full; the last holds the remainder. */
  lemma {:induction false} PagesSizes<T>(items: seq<T>)
    ensures var ps := Pages(items);
      (forall i :: 0 <= i < |ps| - 1 ==> |ps[i]| == PageSize) &&
      |ps[|ps| - 1]| == |items| - (NumPages(|items|) - 1) * PageSize
    decreases |items|
  {
    if |items| > PageSize {
      var rest := items[PageSize..];
      PagesSizes(rest);
      var ps := Pages(items);
      assert ps[1..] == Pages(rest);
      forall i | 1 <= i < |ps| - 1
        ensures |ps[i]| == PageSize
      {
        assert ps[i] == Pages(rest)[i - 1];
      }
    }
  }

  /** Dropping the first page shifts every later page number down by one. */
  lemma NumPagesAfterFirst(count: nat)
    requires count > PageSize
    ensures NumPages(count - PageSize) == NumPages(count) - 1
  {
  }

  /** Page `k + 1` of a list is page `k` of the list without its first page. */
  lemma PageAtShift<T>(items: seq<T>, k: nat)
    requires |items| > PageSize && 1 <= k <= NumPages(|items|) - 1
    ensures NumPages(|items[PageSize..]|) == NumPages(|items|) - 1
    ensures PageAt(items, k + 1) == PageAt(items[PageSize..], k)
  {
    NumPagesAfterFirst(|items|);
    var rest := items[PageSize..];
    var lo := PageStart(k);
    assert PageStart(k + 1) == lo + PageSize;
    var hi := Min(lo + PageSize, |rest|);
    assert PageAt(rest, k) == rest[lo..hi];
    assert PageAt(items, k + 1) == items[lo + PageSize..hi + PageSize];
  }

  /** The page served for number `k` is the `k`-th block of `Pages`. */
  lemma {:induction false} PageAtIsBlock<T>(items: seq<T>, k: nat)
    requires 1 <= k <= NumPages(|items|)
    ensures PageAt(items, k) == Pages(items)[k - 1]
    decreases |items|
  {
    if k == 1 {
      if |items| <= PageSize {
        assert Pages(items)[0] == items;
      } else {
        assert Pages(items)[0] == items[..PageSize];
      }
    } else {
      assert |items| > PageSize;
      var rest := items[PageSize..];
      PageAtShift(items, k - 1);
      PageAtIsBlock(rest, k - 1);
      assert Pages(items)[k - 1] == Pages(rest)[k - 2];
    }
  }
}
