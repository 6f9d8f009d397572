/** Spring Data's paging request and result, and the PageInfo summary built from them. */
module Paging {

  /** Java int and long. */
  type Int32 = x: int | -0x8000_0000 <= x < 0x8000_0000
  type Int64 = x: int | -0x8000_0000_0000_0000 <= x < 0x8000_0000_0000_0000

  /** Pageable: which page is asked for, and how big pages are. */
  datatype Pageable = Pageable(pageNumber: Int32, pageSize: Int32)

  /** Page: the content of one page and the totals of the whole result. */
  datatype Page<T> = Page(content: seq<T>, totalPages: Int32, totalElements: Int64)

  /** PageInfo has value equality over its four fields. */
  datatype PageInfo = PageInfo(currentPage: Int32, pageLimit: Int32, totalPages: Int32, totalElements: Int64) {

    /** PageInfo.of: the position from the request, the totals from the page. */
    static function Of<T>(pageable: Pageable, page: Page<T>): (info: PageInfo)
      ensures info.currentPage == pageable.pageNumber && info.pageLimit == pageable.pageSize
      ensures info.totalPages == page.totalPages && info.totalElements == page.totalElements
    {
      PageInfo(pageable.pageNumber, pageable.pageSize, page.totalPages, page.totalElements)
    }
  }

  /** Two PageInfos built by Of are equal exactly when the requests agree on page number
      and size and the pages agree on both totals; the page content plays no part. */
  lemma OfEquality<T>(p1: Pageable, g1: Page<T>, p2: Pageable, g2: Page<T>)
    ensures PageInfo.Of(p1, g1) == PageInfo.Of(p2, g2) <==>
      p1 == p2 && g1.totalPages == g2.totalPages && g1.totalElements == g2.totalElements
  {
  }
}
