/** The web bookings list (component/WebBooking.js): the bookings loaded from the server,
    the shown page of the filtered list, the pagination, and the search box. */
module WebBooking {
  import opened JsSemantics

  /** A booking as the list shows it. */
  datatype WebBookingRecord = WebBookingRecord(
    bookingNo: string,
    bookedByID: string,
    fullName: string,
    roomCategoryName: string,
    roomNumberName: string,
    hotelName: string,
    phone: string)

  // ---------------------------------------------------------------------------
  // Pagination

  function Min(a: int, b: int): int {
    if a <= b then a else b
  }

  /** `paginatedBookings`: `filteredBookings.slice((current - 1) * pageSize, current * pageSize)`. */
  function PageOf<T>(filtered: seq<T>, current: int, pageSize: int): seq<T> {
    Slice(filtered, (current - 1) * pageSize, current * pageSize)
  }

  /** A page holds at most `pageSize` bookings, and they are the filtered bookings from
      offset `(current - 1) * pageSize` on, in order. */
  lemma PageContents<T>(filtered: seq<T>, current: int, pageSize: int)
    requires current >= 1 && pageSize >= 0
    ensures |PageOf(filtered, current, pageSize)| <= pageSize
    ensures |PageOf(filtered, current, pageSize)| ==
              if (current - 1) * pageSize >= |filtered| then 0
              else Min(pageSize, |filtered| - (current - 1) * pageSize)
    ensures forall j :: 0 <= j < |PageOf(filtered, current, pageSize)| ==>
              PageOf(filtered, current, pageSize)[j] == filtered[(current - 1) * pageSize + j]
  {
    var start := (current - 1) * pageSize;
    assert current * pageSize == start + pageSize;
    assert 0 <= start;
  }

  /** Pages 1 to k, one after another. */
  function Pages<T>(filtered: seq<T>, k: nat, pageSize: int): seq<T> {
    if k == 0 then [] else Pages(filtered, k - 1, pageSize) + PageOf(filtered, k, pageSize)
  }

  /** Pages 1 to k together are exactly the first k * pageSize filtered bookings: no booking
      is skipped and none is shown on two pages. */
  lemma {:induction false} PagesArePrefix<T>(filtered: seq<T>, k: nat, pageSize: int)
    requires pageSize >= 0
    ensures Pages(filtered, k, pageSize) == filtered[..Min(k * pageSize, |filtered|)]
  {
    if k > 0 {
      PagesArePrefix(filtered, k - 1, pageSize);
      var a := Min((k - 1) * pageSize, |filtered|);
      var b := Min(k * pageSize, |filtered|);
      assert k * pageSize == (k - 1) * pageSize + pageSize;
      assert PageOf(filtered, k, pageSize) == filtered[a..b];
      assert filtered[..a] + filtered[a..b] == filtered[..b];
    }
  }

  /** The number of pages Ant Design's `Pagination` offers for the filtered list. */
  function PageCount(total: nat, pageSize: int): (r: nat)
    requires pageSize >= 1
    ensures r * pageSize >= total
    ensures r > 0 ==> (r - 1) * pageSize < total
  {
    var r := (total + pageSize - 1) / pageSize;
    assert r * pageSize + (total + pageSize - 1) % pageSize == total + pageSize - 1;
    r
  }

  /** Paging through all the pages shows every filtered booking once, in order. */
  lemma AllPagesShowEverything<T>(filtered: seq<T>, pageSize: int)
    requires pageSize >= 1
    ensures Pages(filtered, PageCount(|filtered|, pageSize), pageSize) == filtered
  {
    PagesArePrefix(filtered, PageCount(|filtered|, pageSize), pageSize);
  }

  // ---------------------------------------------------------------------------
  // The list's state

  class WebBookingView {
    var webBookingInfo: seq<WebBookingRecord>
    var filteredBookings: seq<WebBookingRecord>
    var current: int
    var pageSize: int
    var searchText: string

    constructor ()
      ensures webBookingInfo == [] && filteredBookings == [] && searchText == ""
      ensures current == 1 && pageSize == 10
    {
      webBookingInfo, filteredBookings, searchText := [], [], "";
      current, pageSize := 1, 10;
    }

    /** The bookings on the page shown. */
    function Shown(): seq<WebBookingRecord>
      reads this
    {
      PageOf(filteredBookings, current, pageSize)
    }

    /** `fetchWebBookingInfo`: a 200 answer replaces both lists; anything else changes nothing. */
    method FetchWebBookingInfo(status: Option<int>, data: seq<WebBookingRecord>)
      modifies this
      ensures status == Some(200) ==> webBookingInfo == data && filteredBookings == data
      ensures status != Some(200) ==>
                webBookingInfo == old(webBookingInfo) && filteredBookings == old(filteredBookings)
      ensures current == old(current) && pageSize == old(pageSize) && searchText == old(searchText)
    {
      if status == Some(200) {
        webBookingInfo, filteredBookings := data, data;
      }
    }

    /** The `Pagination` change handler: both the page and the page size are taken. */
    method OnPaginationChange(page: int, size: int)
      modifies this
      ensures current == page && pageSize == size
      ensures webBookingInfo == old(webBookingInfo) && filteredBookings == old(filteredBookings)
      ensures searchText == old(searchText)
    {
      current, pageSize := page, size;
    }

    /** `handleSearch`: the lower-cased query is stored; the filter that follows reads
        `bookings`, a name the component does not define, so the handler throws there and
        neither the shown list nor the pagination changes. */
    method HandleSearch(raw: string)
      modifies this
      ensures searchText == ToLower(raw)
      ensures filteredBookings == old(filteredBookings) && webBookingInfo == old(webBookingInfo)
      ensures current == old(current) && pageSize == old(pageSize)
    {
      searchText := ToLower(raw);
    }
  }
}
