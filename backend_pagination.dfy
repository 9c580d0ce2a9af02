/** Page arithmetic for the list endpoints (backend/api/utils/pagination.py). */
module Pagination {
  import opened Wrappers
  import opened Seqs

  /** A query parameter as the request carries it: absent, not an integer, or an integer. */
  datatype Param = Absent | Unparsable | Parsed(n: int)

  datatype PaginationData = PaginationData(
    page: int,
    pageSize: int,
    nextPage: Option<int>,
    prevPage: Option<int>,
    totalPages: int,
    startItem: int,
    endItem: int,
    startIndex: int,
    endIndex: int,
    totalItems: int)

  const DEFAULT_PAGE: int := 1
  const DEFAULT_PAGE_SIZE: int := 10

  /** `int(request.GET.get(name, default))`, falling back to the default when it does not parse. */
  function ParamValue(p: Param, default: int): (v: int)
    ensures p.Parsed? ==> v == p.n
    ensures !p.Parsed? ==> v == default
  {
    match p
    case Parsed(n) => n
    case _ => default
  }

  /** `math.ceil(a / b)` for a non-negative `a` and a positive `b`. */
  function CeilDiv(a: nat, b: nat): (q: nat)
    requires b > 0
    ensures q * b >= a
    ensures q == 0 || (q - 1) * b < a
  {
    (a + b - 1) / b
  }

  function Max(a: int, b: int): int { if a >= b then a else b }
  function Min(a: int, b: int): int { if a <= b then a else b }

  /** `get_pagination_data(request, total_items)`. */
  function GetPaginationData(pageParam: Param, pageSizeParam: Param, totalItems: nat): (d: PaginationData)
    // a missing, unparsable or non-positive page falls back to 1; otherwise it is kept
    ensures d.page >= 1
    ensures d.page == (if pageParam.Parsed? && pageParam.n >= 1 then pageParam.n else 1)
    // a missing, unparsable or non-positive page size falls back to 10; otherwise it is kept
    ensures d.pageSize >= 1
    ensures d.pageSize == (if pageSizeParam.Parsed? && pageSizeParam.n >= 1 then pageSizeParam.n else 10)
    // at least one page; `TotalPagesFit` shows it is the fewest that hold every item
    ensures d.totalPages >= 1
    ensures d.nextPage == (if d.page < d.totalPages then Some(d.page + 1) else None)
    ensures d.prevPage == (if d.page > 1 then Some(d.page - 1) else None)
    ensures d.startIndex == (d.page - 1) * d.pageSize
    ensures d.endIndex == Min(d.page * d.pageSize, totalItems)
    ensures d.endIndex - d.startIndex <= d.pageSize
    ensures d.page <= d.totalPages ==> 0 <= d.startIndex <= d.endIndex <= totalItems
    ensures d.page > d.totalPages ==> d.endIndex <= d.startIndex
    ensures d.startItem == (if totalItems > 0 then d.startIndex + 1 else 0)
    ensures d.endItem == d.endIndex
    ensures d.totalItems == totalItems
  {
    var page0 := ParamValue(pageParam, DEFAULT_PAGE);
    var pageSize0 := ParamValue(pageSizeParam, DEFAULT_PAGE_SIZE);
    var page := if page0 < 1 then 1 else page0;
    var pageSize := if pageSize0 <= 0 then 10 else pageSize0;
    var totalPages := Max(1, CeilDiv(totalItems, pageSize));
    var nextPage := if page < totalPages then Some(page + 1) else None;
    var prevPage := if page > 1 then Some(page - 1) else None;
    var startIndex := Max(0, (page - 1) * pageSize);
    var endIndex := Min(page * pageSize, totalItems);
    var startItem := if totalItems > 0 then startIndex + 1 else 0;
    PageArithmetic(page, pageSize, totalItems, totalPages);
    PaginationData(page, pageSize, nextPage, prevPage, totalPages, startItem, endIndex, startIndex, endIndex, totalItems)
  }

  /** The page count is the fewest pages, at least one, that hold every item. */
  lemma TotalPagesFit(pageParam: Param, pageSizeParam: Param, totalItems: nat)
    ensures var d := GetPaginationData(pageParam, pageSizeParam, totalItems);
            && d.totalPages * d.pageSize >= totalItems
            && (d.totalPages == 1 || (d.totalPages - 1) * d.pageSize < totalItems)
  {
    var d := GetPaginationData(pageParam, pageSizeParam, totalItems);
    var q := CeilDiv(totalItems, d.pageSize);
    if q == 0 {
      assert totalItems == 0;
    }
  }

  /** Where the first index of a page falls, given a page count that fits the items tightly. */
  lemma PageArithmetic(page: int, pageSize: int, totalItems: nat, totalPages: int)
    requires page >= 1 && pageSize >= 1 && totalPages >= 1
    requires totalPages * pageSize >= totalItems
    requires totalPages == 1 || (totalPages - 1) * pageSize < totalItems
    ensures page * pageSize == (page - 1) * pageSize + pageSize
    ensures (page - 1) * pageSize >= 0
    ensures page > totalPages ==> (page - 1) * pageSize >= totalItems
    ensures page <= totalPages ==> (page - 1) * pageSize <= totalItems
  {
    var before := page - 1;
    MulSucc(before, pageSize);
    MulMonotone(0, before, pageSize);
    if page > totalPages {
      MulMonotone(totalPages, before, pageSize);
    } else if totalPages > 1 {
      MulMonotone(before, totalPages - 1, pageSize);
    }
  }

  lemma MulSucc(a: int, b: int)
    ensures (a + 1) * b == a * b + b
  {
  }

  lemma MulMonotone(a: nat, b: nat, c: nat)
    requires a <= b
    ensures a * c <= b * c
  {
  }

  /** The page of a list the view returns: Python `items[start_index:end_index]`. */
  function PageOf<T>(items: seq<T>, d: PaginationData): (r: seq<T>)
    requires 0 <= d.startIndex && 0 <= d.endIndex <= |items|
    ensures r == if d.startIndex < d.endIndex then items[d.startIndex..d.endIndex] else []
  {
    PySlice(items, d.startIndex, d.endIndex)
  }

  /** A page of the list is exactly the stretch of items the page numbers describe. */
  lemma PageContents<T>(items: seq<T>, page: Param, pageSize: Param)
    ensures var d := GetPaginationData(page, pageSize, |items|);
      && |PageOf(items, d)| <= d.pageSize
      && (d.page <= d.totalPages ==> PageOf(items, d) == items[d.startIndex..d.endIndex])
      && (d.page > d.totalPages ==> PageOf(items, d) == [])
  {
  }

  /** The pages of a list, concatenated, give the whole list back. */
  lemma PagesCover<T>(items: seq<T>, pageSize: nat)
    requires pageSize >= 1
    ensures Concat(Pages(items, pageSize, CeilDiv(|items|, pageSize))) == items
  {
    var q := CeilDiv(|items|, pageSize);
    if q > 1 {
      CoveredIsProduct(|items|, pageSize, q - 1);
    }
    PagesAreStretches(items, pageSize, q);
    StretchesCover(items, pageSize, q);
    CoveredIsProduct(|items|, pageSize, q);
  }

  /** How many items pages 1..upto hold together: one page size more per page, up to the whole list. */
  function Covered(n: nat, pageSize: nat, upto: nat): (c: nat)
    ensures c <= n
    decreases upto
  {
    if upto == 0 then 0 else Min(Covered(n, pageSize, upto - 1) + pageSize, n)
  }

  lemma {:induction false} CoveredIsProduct(n: nat, pageSize: nat, upto: nat)
    ensures Covered(n, pageSize, upto) == Min(upto * pageSize, n)
    decreases upto
  {
    if upto > 0 {
      CoveredIsProduct(n, pageSize, upto - 1);
      MulSucc(upto - 1, pageSize);
      MulMonotone(0, upto - 1, pageSize);
    }
  }

  /** The stretches of the list that pages 1..upto should hold, by the running count alone. */
  function Stretches<T>(items: seq<T>, pageSize: nat, upto: nat): (r: seq<seq<T>>)
    ensures |r| == upto
    decreases upto
  {
    if upto == 0 then []
    else
      var start := Covered(|items|, pageSize, upto - 1);
      var end := Covered(|items|, pageSize, upto);
      Stretches(items, pageSize, upto - 1) + [if start <= end then items[start..end] else []]
  }

  /** Stretches 1..upto, concatenated, are the items they cover. */
  lemma {:induction false} StretchesCover<T>(items: seq<T>, pageSize: nat, upto: nat)
    ensures Concat(Stretches(items, pageSize, upto)) == items[..Covered(|items|, pageSize, upto)]
    decreases upto
  {
    if upto > 0 {
      var n := |items|;
      var start := Covered(n, pageSize, upto - 1);
      var end := Covered(n, pageSize, upto);
      assert start <= end;
      StretchesCover(items, pageSize, upto - 1);
      ExtendCover(items, Stretches(items, pageSize, upto - 1), start, end, items[start..end]);
    }
  }

  /** As long as page `upto` exists, pages 1..upto are exactly the stretches of the running count. */
  lemma {:induction false} PagesAreStretches<T>(items: seq<T>, pageSize: nat, upto: nat)
    requires pageSize >= 1
    requires upto <= 1 || Covered(|items|, pageSize, upto - 1) < |items|
    ensures Pages(items, pageSize, upto) == Stretches(items, pageSize, upto)
    decreases upto
  {
    if upto > 0 {
      CoveredShort(|items|, pageSize, upto - 1);
      PagesAreStretches(items, pageSize, upto - 1);
      PageAt(items, pageSize, upto);
    }
  }

  /** While the pages so far fall short of the list, so did the pages before them. */
  lemma CoveredShort(n: nat, pageSize: nat, upto: nat)
    requires upto <= 1 || Covered(n, pageSize, upto) < n
    ensures upto <= 1 || Covered(n, pageSize, upto - 1) < n
  {
  }

  /** Adding the stretch that follows a covered prefix covers the longer prefix. */
  lemma ExtendCover<T>(items: seq<T>, pages: seq<seq<T>>, start: nat, end: nat, page: seq<T>)
    requires start <= end <= |items|
    requires Concat(pages) == items[..start] && page == items[start..end]
    ensures Concat(pages + [page]) == items[..end]
  {
    ConcatSnoc(pages, page);
    assert items[..start] + items[start..end] == items[..end];
  }

  /** An existing page `upto` holds the items after those of the pages before it. */
  lemma PageAt<T>(items: seq<T>, pageSize: nat, upto: nat)
    requires pageSize >= 1 && upto >= 1
    requires upto == 1 || Covered(|items|, pageSize, upto - 1) < |items|
    ensures Covered(|items|, pageSize, upto - 1) <= Covered(|items|, pageSize, upto)
    ensures PageOf(items, GetPaginationData(Parsed(upto), Parsed(pageSize), |items|))
            == items[Covered(|items|, pageSize, upto - 1)..Covered(|items|, pageSize, upto)]
  {
    var n := |items|;
    CoveredIsProduct(n, pageSize, upto - 1);
    CoveredIsProduct(n, pageSize, upto);
    MulSucc(upto - 1, pageSize);
    MulMonotone(0, upto - 1, pageSize);
    var d := GetPaginationData(Parsed(upto), Parsed(pageSize), n);
    var q := CeilDiv(n, pageSize);
    assert d.page == upto && d.pageSize == pageSize && d.totalPages == Max(1, q);
    if upto > 1 && upto > q {
      MulMonotone(q, upto - 1, pageSize);
    }
    assert d.page <= d.totalPages;
  }

  /** Pages 1..upto of a list, each as the view would return it. */
  function Pages<T>(items: seq<T>, pageSize: nat, upto: nat): seq<seq<T>>
    requires pageSize >= 1
    decreases upto
  {
    if upto == 0 then []
    else Pages(items, pageSize, upto - 1) + [PageOf(items, GetPaginationData(Parsed(upto), Parsed(pageSize), |items|))]
  }

  function Concat<T>(ss: seq<seq<T>>): seq<T>
    decreases |ss|
  {
    if ss == [] then [] else Concat(ss[..|ss| - 1]) + ss[|ss| - 1]
  }

  lemma ConcatSnoc<T>(ss: seq<seq<T>>, s: seq<T>)
    ensures Concat(ss + [s]) == Concat(ss) + s
  {
    assert (ss + [s])[..|ss|] == ss;
  }

  // Concrete cases

  lemma HundredItemsDefaults()
    ensures var d := GetPaginationData(Absent, Absent, 100);
      d.page == 1 && d.pageSize == 10 && d.totalPages == 10 && d.startIndex == 0 && d.endIndex == 10
      && d.nextPage == Some(2) && d.prevPage == None
  {
  }

  lemma HundredItemsThirdPage()
    ensures var d := GetPaginationData(Parsed(3), Absent, 100);
      d.startIndex == 20 && d.endIndex == 30 && d.startItem == 21 && d.endItem == 30
  {
  }

  lemma NoItems()
    ensures var d := GetPaginationData(Absent, Absent, 0);
      d.totalPages == 1 && d.startItem == 0 && d.endItem == 0 && d.nextPage == None
  {
  }

  lemma BadParameters()
    ensures var d := GetPaginationData(Unparsable, Parsed(-5), 35);
      d.page == 1 && d.pageSize == 10 && d.totalPages == 4
  {
  }
}
