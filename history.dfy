/**
 * The search history dialogue (handlers/custom_handlers/history.py): the page that
 * shows one stored request with its hotels, the paging callback and the delete
 * callback. A page is described by what it shows rather than by its exact text.
 */
module HistoryHandlers {
  import opened Common
  import opened Text
  import opened Models
  import opened Crud

  /** One found hotel as the page lists it: name, address, distance and the price paid. */
  datatype HotelLine = HotelLine(name: string, address: string, distance: int, price: int)

  /** The distance and price bounds of a `/bestdeals` request. */
  datatype Filters = Filters(distance: int, lowPrice: int, highPrice: int)

  /**
   * What `send_history_page` sends: `История пуста.`, or one request with its hotels,
   * the button `delete#<id>` and the pager over all the user's requests.
   */
  datatype Page =
    | EmptyHistory
    | RequestPage(request: Request, filters: Option<Filters>, hotels: seq<HotelLine>,
                  deleteData: string, pageCount: nat, currentPage: int)

  /**
   * What a history callback does: whether the message with the old page was deleted,
   * and the page sent (`None` when nothing was sent because a step raised).
   */
  datatype Outcome = Outcome(messageDeleted: bool, sent: Option<Page>)

  /** `rows[idx]` with Python's negative indexing; `None` stands for the `IndexError`. */
  function PyIndex(rows: seq<Request>, idx: int): (r: Option<Request>)
    ensures r.Some? <==> -|rows| <= idx < |rows|
    ensures 0 <= idx < |rows| ==> r == Some(rows[idx])
    ensures -|rows| <= idx < 0 ==> r == Some(rows[|rows| + idx])
  {
    if 0 <= idx < |rows| then Some(rows[idx])
    else if -|rows| <= idx < 0 then Some(rows[|rows| + idx])
    else None
  }

  /** The bounds are printed only when none of the three is NULL. */
  function ShownFilters(q: Query): (r: Option<Filters>)
    ensures r.Some? <==> q.distance.Some? && q.lowPrice.Some? && q.highPrice.Some?
  {
    if q.distance.Some? && q.lowPrice.Some? && q.highPrice.Some? then
      Some(Filters(q.distance.value, q.lowPrice.value, q.highPrice.value))
    else None
  }

  /** `lines` in front of the rest of a listing; a failure stays a failure. */
  function PrependLines(lines: seq<HotelLine>, rest: Option<seq<HotelLine>>): Option<seq<HotelLine>> {
    match rest
    case None => None
    case Some(more) => Some(lines + more)
  }

  /** The hotel lines of the links, reading each linked hotel; `None` when one is missing (`DoesNotExist`). */
  function HotelLines(links: seq<History>, hotels: map<string, Hotel>): Option<seq<HotelLine>>
    decreases |links|
  {
    if |links| == 0 then Some([])
    else if links[0].hotel !in hotels then None
    else
      var h := hotels[links[0].hotel];
      PrependLines([HotelLine(h.name, h.address, h.distance, links[0].hotelPrice)], HotelLines(links[1..], hotels))
  }

  /** A hotel line per link, in link order, carrying the linked hotel's columns and the link's price. */
  lemma {:induction false} HotelLinesAll(links: seq<History>, hotels: map<string, Hotel>)
    ensures HotelLines(links, hotels).Some? <==> forall i :: 0 <= i < |links| ==> links[i].hotel in hotels
    ensures HotelLines(links, hotels).Some? ==>
      var lines := HotelLines(links, hotels).value;
      && |lines| == |links|
      && forall i :: 0 <= i < |links| ==>
           var h := hotels[links[i].hotel];
           lines[i] == HotelLine(h.name, h.address, h.distance, links[i].hotelPrice)
    decreases |links|
  {
    if |links| > 0 {
      HotelLinesAll(links[1..], hotels);
      assert forall i :: 0 <= i < |links[1..]| ==> links[1..][i] == links[i + 1];
    }
  }

  /** The data of the delete button: `delete#<id>`. */
  function DeleteData(id: nat): string {
    "delete#" + NatToString(id)
  }

  /** The data of a pager button: `character#<page>`. */
  function PageData(page: nat): string {
    "character#" + NatToString(page)
  }

  /** The filter of `history_page_callback`. */
  predicate IsPageCallback(data: string) {
    Split(data, '#')[0] == "character"
  }

  /** The filter of `history_item_delete_callback`. */
  predicate IsDeleteCallback(data: string) {
    Split(data, '#')[0] == "delete"
  }

  /** `int(data.split('#')[1])`; `None` for the `IndexError` or `ValueError`. */
  function NumberOf(data: string): (r: Option<int>)
    ensures r.Some? ==> |Split(data, '#')| >= 2
  {
    var parts := Split(data, '#');
    if |parts| < 2 then None else ParseInt(parts[1])
  }

  /** `tag#n`: the tag and the digits of `n` as the two pieces, and `n` as its number. */
  lemma TaggedNumber(tag: string, n: nat)
    requires '#' !in tag
    ensures Split(tag + "#" + NatToString(n), '#') == [tag, NatToString(n)]
    ensures NumberOf(tag + "#" + NatToString(n)) == Some(n)
  {
    var digits := NatToString(n);
    forall k | 0 <= k < |digits| ensures digits[k] != '#' {
      assert IsDigitChar(digits[k]);
    }
    SplitAfterFirst(tag, digits, '#');
    SplitNoSeparator(digits, '#');
    assert tag + "#" + digits == tag + ['#'] + digits;
  }

  /** Round trip: the delete button reaches the delete callback, which reads back the request id. */
  lemma DeleteDataRoundTrip(id: nat)
    ensures IsDeleteCallback(DeleteData(id)) && !IsPageCallback(DeleteData(id))
    ensures NumberOf(DeleteData(id)) == Some(id)
  {
    assert DeleteData(id) == "delete" + "#" + NatToString(id);
    TaggedNumber("delete", id);
  }

  /** Round trip: a pager button reaches the page callback, which reads back the page number. */
  lemma PageDataRoundTrip(page: nat)
    ensures IsPageCallback(PageData(page)) && !IsDeleteCallback(PageData(page))
    ensures NumberOf(PageData(page)) == Some(page)
  {
    assert PageData(page) == "character" + "#" + NatToString(page);
    TaggedNumber("character", page);
  }

  /**
   * `send_history_page(message, user, page)`: the request at `page - 1` of the user's
   * requests (Python indexing, so page 0 is the latest), or `История пуста.` when
   * `get_user_requests` answers `False` (`openFails`) or there are no rows; `None`,
   * nothing sent, when running the query at `len()` raises (`selectFails`) or the
   * index or a hotel lookup raises.
   */
  function HistoryPage(t: Tables, user: UserId, page: int, openFails: bool, selectFails: bool): Option<Page> {
    var rows := UserRequests(t.requests, user);
    if openFails then Some(EmptyHistory)
    else if selectFails then None
    else if |rows| == 0 then Some(EmptyHistory)
    else
      match PyIndex(rows, page - 1)
      case None => None
      case Some(r) =>
        match HotelLines(LinksOf(t.history, r.id), t.hotels)
        case None => None
        case Some(lines) => Some(RequestPage(r, ShownFilters(r.query), lines, DeleteData(r.id), |rows|, page))
  }

  /**
   * On valid tables every page in range shows that request: its bounds iff all three
   * are stored, one line per stored link in link order, a delete button that leads
   * back to its id, and a pager over all of the user's requests.
   */
  lemma PageShowsRequest(t: Tables, user: UserId, page: int)
    requires Valid(t)
    requires var n := |UserRequests(t.requests, user)|; 1 <= page <= n || (page <= 0 && -n < page)
    ensures var rows := UserRequests(t.requests, user);
      var r := if page >= 1 then rows[page - 1] else rows[|rows| + page - 1];
      var links := LinksOf(t.history, r.id);
      match HistoryPage(t, user, page, false, false)
      case Some(RequestPage(shown, filters, lines, deleteData, count, current)) =>
        && shown == r && r.query.user == user
        && (filters.Some? <==> r.query.distance.Some? && r.query.lowPrice.Some? && r.query.highPrice.Some?)
        && |lines| == |links|
        && (forall i :: 0 <= i < |links| ==>
              links[i].hotel in t.hotels && lines[i].price == links[i].hotelPrice && lines[i].name == t.hotels[links[i].hotel].name)
        && NumberOf(deleteData) == Some(r.id) && IsDeleteCallback(deleteData)
        && count == |rows| && current == page
      case _ => false
  {
    var rows := UserRequests(t.requests, user);
    var r := if page >= 1 then rows[page - 1] else rows[|rows| + page - 1];
    assert r in rows;
    var links := LinksOf(t.history, r.id);
    forall i | 0 <= i < |links| ensures links[i].hotel in t.hotels {
      assert links[i] in links;
      assert links[i] in t.history;
    }
    HotelLinesAll(links, t.hotels);
    DeleteDataRoundTrip(r.id);
  }

  /** The `/history` command shows the user's oldest request; page 0 shows the latest. */
  lemma FirstAndLatestPages(t: Tables, user: UserId)
    requires Valid(t) && |UserRequests(t.requests, user)| > 0
    ensures HistoryPage(t, user, 1, false, false).Some?
    ensures HistoryPage(t, user, 1, false, false).value.request == UserRequests(t.requests, user)[0]
    ensures HistoryPage(t, user, 0, false, false).Some?
    ensures var rows := UserRequests(t.requests, user);
      HistoryPage(t, user, 0, false, false).value.request == rows[|rows| - 1]
  {
    PageShowsRequest(t, user, 1);
    PageShowsRequest(t, user, 0);
  }

  /** A page number past the user's requests raises: nothing is sent. */
  lemma PageOutOfRange(t: Tables, user: UserId, page: int)
    requires var n := |UserRequests(t.requests, user)|; n > 0 && (page > n || page <= -n)
    ensures HistoryPage(t, user, page, false, false).None?
  {
  }

  /** The hotel lines of `send_history_page` for one request, read from the store. */
  method ListHotels(store: HistoryStore, request: nat) returns (lines: Option<seq<HotelLine>>)
    ensures lines == HotelLines(LinksOf(store.history, request), store.hotels)
  {
    lines := CollectLines(LinksOf(store.history, request), store.hotels);
  }

  /** The loop of `send_history_page` over the request's links. */
  method CollectLines(links: seq<History>, hotels: map<string, Hotel>) returns (lines: Option<seq<HotelLine>>)
    ensures lines == HotelLines(links, hotels)
  {
    var done: seq<HotelLine> := [];
    var i := 0;
    assert links[0..] == links;
    NoLinesBefore(HotelLines(links, hotels));
    while i < |links|
      invariant 0 <= i <= |links|
      invariant PrependLines(done, HotelLines(links[i..], hotels)) == HotelLines(links, hotels)
    {
      assert links[i..][0] == links[i] && links[i..][1..] == links[i + 1..];
      if links[i].hotel !in hotels {
        return None;
      }
      var h := hotels[links[i].hotel];
      var line := HotelLine(h.name, h.address, h.distance, links[i].hotelPrice);
      LinesTwice(done, [line], HotelLines(links[i + 1..], hotels));
      done := done + [line];
      i := i + 1;
    }
    assert links[i..] == [];
    assert done + [] == done;
    return Some(done);
  }

  lemma NoLinesBefore(rest: Option<seq<HotelLine>>)
    ensures PrependLines([], rest) == rest
  {
    if rest.Some? {
      assert [] + rest.value == rest.value;
    }
  }

  lemma LinesTwice(a: seq<HotelLine>, b: seq<HotelLine>, rest: Option<seq<HotelLine>>)
    ensures PrependLines(a, PrependLines(b, rest)) == PrependLines(a + b, rest)
  {
    if rest.Some? {
      assert a + (b + rest.value) == (a + b) + rest.value;
    }
  }

  /** `send_history_page`, reading the store. */
  method SendHistoryPage(store: HistoryStore, user: UserId, page: int, fails: DbOp -> bool)
    returns (sent: Option<Page>)
    ensures sent == HistoryPage(store.Snapshot(), user, page, fails(OpenListing(user)), fails(SelectRequests(user)))
  {
    var ok, query := store.GetUserRequests(user, fails);
    if !ok {
      return Some(EmptyHistory);
    }
    var raised, rows := store.Execute(query.value, fails);
    if raised {
      return None;
    }
    if |rows| == 0 {
      return Some(EmptyHistory);
    }
    var picked := PyIndex(rows, page - 1);
    if picked.None? {
      return None;
    }
    var r := picked.value;
    var lines := ListHotels(store, r.id);
    if lines.None? {
      return None;
    }
    sent := Some(RequestPage(r, ShownFilters(r.query), lines.value, DeleteData(r.id), |rows|, page));
  }

  /** `get_character`: the `/history` command shows page 1, the oldest stored request. */
  method GetCharacter(store: HistoryStore, user: UserId, fails: DbOp -> bool) returns (sent: Option<Page>)
    ensures sent == HistoryPage(store.Snapshot(), user, 1, fails(OpenListing(user)), fails(SelectRequests(user)))
  {
    sent := SendHistoryPage(store, user, 1, fails);
  }

  /** `history_page_callback`: read the page, delete the old message, send that page. */
  function PageCallback(t: Tables, data: string, user: UserId, fails: DbOp -> bool): (r: Outcome)
    ensures NumberOf(data).None? ==> r == Outcome(false, None)
  {
    match NumberOf(data)
    case None => Outcome(false, None)
    case Some(page) => Outcome(true, HistoryPage(t, user, page, fails(OpenListing(user)), fails(SelectRequests(user))))
  }

  /**
   * A pager button shows its page: with a listing that succeeds and a page within the
   * user's requests, the old message goes and the request at that position is shown,
   * with a pager over all of the user's requests.
   */
  lemma PagerShowsItsPage(t: Tables, user: UserId, page: nat, fails: DbOp -> bool)
    requires Valid(t) && !fails(OpenListing(user)) && !fails(SelectRequests(user))
    requires 1 <= page <= |UserRequests(t.requests, user)|
    ensures var out := PageCallback(t, PageData(page), user, fails);
      && out.messageDeleted
      && out.sent.Some? && out.sent.value.RequestPage?
      && out.sent.value.request == UserRequests(t.requests, user)[page - 1]
      && out.sent.value.pageCount == |UserRequests(t.requests, user)| && out.sent.value.currentPage == page
  {
    PageDataRoundTrip(page);
    PageShowsRequest(t, user, page);
  }

  method HistoryPageCallback(store: HistoryStore, data: string, user: UserId, fails: DbOp -> bool)
    returns (out: Outcome)
    ensures out == PageCallback(store.Snapshot(), data, user, fails)
  {
    var page := NumberOf(data);
    if page.None? {
      return Outcome(false, None);
    }
    var sent := SendHistoryPage(store, user, page.value, fails);
    out := Outcome(true, sent);
  }

  /**
   * `history_item_delete_callback`: read the id, delete that request (a failed delete
   * changes nothing and is not reported), delete the old message, send page 0. The id
   * is not checked against the user who pressed the button.
   */
  function DeleteCallback(t: Tables, data: string, user: UserId, fails: DbOp -> bool): (r: (Tables, Outcome))
    ensures NumberOf(data).None? ==> r == (t, Outcome(false, None))
  {
    match NumberOf(data)
    case None => (t, Outcome(false, None))
    case Some(id) =>
      var t' := if id >= 0 then DeleteRequest(t, id, fails).0 else t;
      (t', Outcome(true, HistoryPage(t', user, 0, fails(OpenListing(user)), fails(SelectRequests(user)))))
  }

  method HistoryItemDeleteCallback(store: HistoryStore, data: string, user: UserId, fails: DbOp -> bool)
    returns (out: Outcome)
    modifies store
    ensures (store.Snapshot(), out) == DeleteCallback(old(store.Snapshot()), data, user, fails)
    ensures old(store.Valid()) ==> store.Valid()
  {
    var id := NumberOf(data);
    if id.None? {
      return Outcome(false, None);
    }
    if id.value >= 0 {
      var _ := store.DeleteUserRequest(id.value, fails);
    }
    var sent := SendHistoryPage(store, user, 0, fails);
    out := Outcome(true, sent);
  }

  /** Request ids are unique in valid tables. */
  lemma SameIdSameRequest(t: Tables, x: Request, y: Request)
    requires Valid(t) && x in t.requests && y in t.requests && x.id == y.id
    ensures x == y
  {
    var i :| 0 <= i < |t.requests| && t.requests[i] == x;
    var j :| 0 <= j < |t.requests| && t.requests[j] == y;
    assert t.requests[i].id == t.requests[j].id;
  }

  /** Deleting a stored request of the user leaves exactly the user's other requests. */
  lemma DeleteLeavesOthers(t: Tables, r: Request, user: UserId, fails: DbOp -> bool)
    requires Valid(t) && r in UserRequests(t.requests, user) && !fails(DeleteRows(r.id))
    ensures DeleteRequest(t, r.id, fails).1
    ensures var t' := DeleteRequest(t, r.id, fails).0;
      && Valid(t')
      && !HasRequest(t', r.id)
      && LinksOf(t'.history, r.id) == []
      && forall x :: x in UserRequests(t'.requests, user) <==> x in UserRequests(t.requests, user) && x != r
  {
    var k :| 0 <= k < |t.requests| && t.requests[k] == r;
    assert HasRequest(t, r.id);
    DeleteThenList(t, r.id, user, fails);
    DeleteRequestValid(t, r.id, fails);
    var t' := DeleteRequest(t, r.id, fails).0;
    forall x | x in UserRequests(t.requests, user) && x.id == r.id ensures x == r {
      SameIdSameRequest(t, x, r);
    }
  }

  /**
   * Pressing the delete button of a shown page deletes the old message and sends
   * page 0, the latest of the user's requests left, or `История пуста.` when none is
   * left. When the delete succeeds the request and its links are gone and the user's
   * other requests stay; when it raises, the transaction is rolled back and the
   * request is still listed.
   */
  lemma DeleteFromShownPage(t: Tables, user: UserId, page: int, fails: DbOp -> bool)
    requires Valid(t) && !fails(OpenListing(user)) && !fails(SelectRequests(user))
    requires HistoryPage(t, user, page, false, false).Some? && HistoryPage(t, user, page, false, false).value.RequestPage?
    ensures var shown := HistoryPage(t, user, page, false, false).value;
      var (t', out) := DeleteCallback(t, shown.deleteData, user, fails);
      var left := UserRequests(t'.requests, user);
      && out.messageDeleted
      && (fails(DeleteRows(shown.request.id)) ==> t' == t && shown.request in left)
      && (!fails(DeleteRows(shown.request.id)) ==>
            && !HasRequest(t', shown.request.id)
            && LinksOf(t'.history, shown.request.id) == []
            && (forall x :: x in left <==> x in UserRequests(t.requests, user) && x != shown.request))
      && (|left| == 0 ==> out.sent == Some(EmptyHistory))
      && (|left| > 0 ==> out.sent.Some? && out.sent.value.RequestPage? && out.sent.value.request == left[|left| - 1])
  {
    var shown := HistoryPage(t, user, page, false, false).value;
    var r := shown.request;
    var rows := UserRequests(t.requests, user);
    assert r in rows;
    DeleteDataRoundTrip(r.id);
    DeleteRequestValid(t, r.id, fails);
    if !fails(DeleteRows(r.id)) {
      DeleteLeavesOthers(t, r, user, fails);
    }
    var t' := DeleteRequest(t, r.id, fails).0;
    assert DeleteCallback(t, shown.deleteData, user, fails) == (t', Outcome(true, HistoryPage(t', user, 0, false, false)));
    if |UserRequests(t'.requests, user)| > 0 {
      PageShowsRequest(t', user, 0);
    }
  }

  /**
   * The two ways the listing fails: when `get_user_requests` cannot open the connection
   * it answers `False` and `История пуста.` is sent; when the query raises as
   * `send_history_page` first measures it, the handler ends and nothing is sent.
   */
  lemma FailedListing(t: Tables, user: UserId, page: int, fails: DbOp -> bool)
    ensures fails(OpenListing(user)) ==>
      HistoryPage(t, user, page, fails(OpenListing(user)), fails(SelectRequests(user))) == Some(EmptyHistory)
    ensures !fails(OpenListing(user)) && fails(SelectRequests(user)) ==>
      HistoryPage(t, user, page, fails(OpenListing(user)), fails(SelectRequests(user))).None?
  {
  }
}
