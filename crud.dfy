/**
 * The history store (database/tools/CRUD.py): insert-or-get of hotels, requests and
 * their links, the multi-row write of one search, the per-user listing and the
 * deletion of one request. Each operation is first stated as a function on `Tables`;
 * the class `HistoryStore` then performs it on its tables in place and is proved
 * against that function.
 */
module Crud {
  import opened Common
  import opened Models

  /**
   * A write or read the database engine is asked to perform. An engine error other than
   * a unique-index violation is not modelled as such; the parameter `fails` of each
   * operation says which of these calls raise one.
   */
  datatype DbOp =
    | InsertHotel(hotelId: string)
    | InsertRequest(createdAt: string, user: UserId)
    | InsertHistory(request: nat, hotel: string)
    | OpenListing(user: UserId)
    | SelectRequests(user: UserId)
    | DeleteRows(request: nat)

  /** `Request.filter(Request.user == user)` as a query that has not been run yet. */
  datatype RequestQuery = RequestsOf(user: UserId)

  /** One found hotel as the dialogue hands it over for saving (the `hotel_info` dictionary). */
  datatype SavedHotel = SavedHotel(id: string, name: string, address: string, destination: int, hotelPrice: int)

  /** The id of the request stored under `(created_at, user)`, if any. */
  function FindRequest(requests: seq<Request>, createdAt: string, user: UserId): (r: Option<nat>)
    ensures r.None? <==> forall k :: 0 <= k < |requests| ==>
      requests[k].query.createdAt != createdAt || requests[k].query.user != user
    ensures r.Some? ==> (exists k :: 0 <= k < |requests| && requests[k].id == r.value
                                     && requests[k].query.createdAt == createdAt && requests[k].query.user == user)
    decreases |requests|
  {
    if |requests| == 0 then None
    else if requests[0].query.createdAt == createdAt && requests[0].query.user == user then Some(requests[0].id)
    else
      var r := FindRequest(requests[1..], createdAt, user);
      assert forall k :: 1 <= k < |requests| ==> requests[k] == requests[1..][k - 1];
      r
  }

  /**
   * `create_and_return_hotel`: insert the row, or on a duplicate id return the row
   * already stored and leave it as it is.
   */
  function CreateHotel(t: Tables, h: Hotel, fails: DbOp -> bool): (r: (Tables, Option<Hotel>))
    ensures r.1.Some? <==> !fails(InsertHotel(h.id))
    ensures h.id in t.hotels && r.1.Some? ==> r == (t, Some(t.hotels[h.id]))
    ensures h.id !in t.hotels && r.1.Some? ==> r.1 == Some(h) && r.0.hotels == t.hotels[h.id := h]
    ensures r.1.None? ==> r.0 == t
    ensures r.0.requests == t.requests && r.0.history == t.history
    ensures HotelsKeyed(t) ==> HotelsKeyed(r.0) && (r.1.Some? ==> r.1.value.id == h.id)
  {
    if fails(InsertHotel(h.id)) then (t, None)
    else if h.id in t.hotels then (t, Some(t.hotels[h.id]))
    else (t.(hotels := t.hotels[h.id := h]), Some(h))
  }

  /**
   * `create_and_return_request`: insert a row under the id SQLite hands out next, or on
   * a duplicate `(created_at, user)` return the id already stored and insert nothing.
   */
  function CreateRequest(t: Tables, q: Query, fails: DbOp -> bool): (r: (Tables, Option<nat>))
    ensures r.1.Some? <==> !fails(InsertRequest(q.createdAt, q.user))
    ensures r.1.None? ==> r.0 == t
    ensures r.0.hotels == t.hotels && r.0.history == t.history
    ensures FindRequest(t.requests, q.createdAt, q.user).Some? && r.1.Some? ==>
      r == (t, FindRequest(t.requests, q.createdAt, q.user))
    ensures FindRequest(t.requests, q.createdAt, q.user).None? && r.1.Some? ==>
      r.1 == Some(NextRequestId(t.requests)) && r.0.requests == t.requests + [Request(NextRequestId(t.requests), q)]
  {
    if fails(InsertRequest(q.createdAt, q.user)) then (t, None)
    else match FindRequest(t.requests, q.createdAt, q.user)
      case Some(id) => (t, Some(id))
      case None =>
        var id := NextRequestId(t.requests);
        (t.(requests := t.requests + [Request(id, q)]), Some(id))
  }

  /** `create_and_return_history`: add the link, or count a duplicate `(request, hotel)` as done. */
  function CreateHistory(t: Tables, request: nat, hotel: string, price: int, fails: DbOp -> bool): (r: (Tables, bool))
    ensures r.1 <==> !fails(InsertHistory(request, hotel))
    ensures r.1 ==> HasLink(r.0.history, request, hotel)
    ensures r.1 && !HasLink(t.history, request, hotel) ==> r.0.history == t.history + [History(request, hotel, price)]
    ensures !r.1 || HasLink(t.history, request, hotel) ==> r.0.history == t.history
    ensures r.0.hotels == t.hotels && r.0.requests == t.requests
  {
    if fails(InsertHistory(request, hotel)) then (t, false)
    else if HasLink(t.history, request, hotel) then (t, true)
    else
      var h := t.history + [History(request, hotel, price)];
      assert h[|h| - 1] == History(request, hotel, price);
      (t.(history := h), true)
  }

  /**
   * The loop of `write_request_to_history`: for each hotel in order a hotel row, then
   * a link carrying its price; the first step that fails ends the write with `false`.
   */
  function WriteHotels(t: Tables, request: nat, hotels: seq<SavedHotel>, fails: DbOp -> bool): (r: (Tables, bool))
    decreases |hotels|
  {
    if |hotels| == 0 then (t, true)
    else
      var h := hotels[0];
      var (t1, row) := CreateHotel(t, Hotel(h.id, h.name, h.address, h.destination), fails);
      if row.None? then (t1, false)
      else
        var (t2, linked) := CreateHistory(t1, request, row.value.id, h.hotelPrice, fails);
        if !linked then (t2, false) else WriteHotels(t2, request, hotels[1..], fails)
  }

  /** `write_request_to_history`: nothing for an empty list, else the request row and then the hotels. */
  function RecordSearch(t: Tables, q: Query, hotels: seq<SavedHotel>, fails: DbOp -> bool): (r: (Tables, bool))
    ensures |hotels| == 0 ==> r == (t, false)
  {
    if |hotels| < 1 then (t, false)
    else
      var (t1, id) := CreateRequest(t, q, fails);
      if id.None? then (t1, false) else WriteHotels(t1, id.value, hotels, fails)
  }

  // ---------------------------------------------------------------------------
  // The link write as the code performs it

  /**
   * What `write_request_to_history` hands to `create_and_return_history` as `request`:
   * the code passes the select query `create_and_return_request` returns, over every
   * column of the rows under `(created_at, user)`; the intended argument is the row's id.
   */
  datatype RequestArg = RowId(id: nat) | SelectQuery(createdAt: string, user: UserId)

  /**
   * `create_and_return_history` for either argument. peewee writes a select query given
   * as a column value as a sub-select in the `INSERT`, SQLite refuses a sub-select of
   * thirteen columns where one value is expected, and the handler answers `False`.
   */
  function CreateHistoryFor(t: Tables, request: RequestArg, hotel: string, price: int, fails: DbOp -> bool)
    : (r: (Tables, bool))
    ensures request.SelectQuery? ==> r == (t, false)
    ensures request.RowId? ==> r == CreateHistory(t, request.id, hotel, price, fails)
  {
    match request
    case RowId(id) => CreateHistory(t, id, hotel, price, fails)
    case SelectQuery(_, _) => (t, false)
  }

  /** The hotel loop of `write_request_to_history` for either argument of the link write. */
  function WriteHotelsFor(t: Tables, request: RequestArg, hotels: seq<SavedHotel>, fails: DbOp -> bool): (r: (Tables, bool))
    decreases |hotels|
  {
    if |hotels| == 0 then (t, true)
    else
      var h := hotels[0];
      var (t1, row) := CreateHotel(t, Hotel(h.id, h.name, h.address, h.destination), fails);
      if row.None? then (t1, false)
      else
        var (t2, linked) := CreateHistoryFor(t1, request, row.value.id, h.hotelPrice, fails);
        if !linked then (t2, false) else WriteHotelsFor(t2, request, hotels[1..], fails)
  }

  /** Passing the id, as intended, is the loop `WriteHotels` states. */
  lemma {:induction false} WriteHotelsForId(t: Tables, id: nat, hotels: seq<SavedHotel>, fails: DbOp -> bool)
    ensures WriteHotelsFor(t, RowId(id), hotels, fails) == WriteHotels(t, id, hotels, fails)
    decreases |hotels|
  {
    if |hotels| > 0 {
      var h := hotels[0];
      var (t1, row) := CreateHotel(t, Hotel(h.id, h.name, h.address, h.destination), fails);
      if row.Some? {
        var (t2, linked) := CreateHistory(t1, id, row.value.id, h.hotelPrice, fails);
        if linked {
          WriteHotelsForId(t2, id, hotels[1..], fails);
        }
      }
    }
  }

  /** Passing the select query, as written, stops the loop at the first hotel's link. */
  lemma WriteHotelsForSelect(t: Tables, q: Query, hotels: seq<SavedHotel>, fails: DbOp -> bool)
    requires |hotels| > 0
    ensures var h := hotels[0];
      WriteHotelsFor(t, SelectQuery(q.createdAt, q.user), hotels, fails)
        == (CreateHotel(t, Hotel(h.id, h.name, h.address, h.destination), fails).0, false)
  {
  }

  /** `write_request_to_history` as written: the link write receives the select query. */
  function RecordSearchAsWritten(t: Tables, q: Query, hotels: seq<SavedHotel>, fails: DbOp -> bool): (r: (Tables, bool))
    ensures |hotels| == 0 ==> r == (t, false)
  {
    if |hotels| < 1 then (t, false)
    else
      var (t1, id) := CreateRequest(t, q, fails);
      if id.None? then (t1, false) else WriteHotelsFor(t1, SelectQuery(q.createdAt, q.user), hotels, fails)
  }

  /**
   * As written, a search never stores a link: the write answers `False` after the request
   * row and at most the first hotel. A fault-free search under a new `(created_at, user)`
   * stores the request and its first hotel and leaves the request without links, where
   * `WriteThenList` states one link per hotel.
   */
  lemma AsWrittenStoresNoLink(t: Tables, q: Query, hotels: seq<SavedHotel>, fails: DbOp -> bool)
    requires Valid(t)
    ensures !RecordSearchAsWritten(t, q, hotels, fails).1
    ensures RecordSearchAsWritten(t, q, hotels, fails).0.history == t.history
    ensures |hotels| >= 1 && NeverFails(fails) && FindRequest(t.requests, q.createdAt, q.user).None? ==>
      var t' := RecordSearchAsWritten(t, q, hotels, fails).0;
      && t'.requests == t.requests + [Request(NextRequestId(t.requests), q)]
      && hotels[0].id in t'.hotels
      && LinksOf(t'.history, NextRequestId(t.requests)) == []
      && ExpectedLinks(NextRequestId(t.requests), hotels) != []
  {
    if |hotels| >= 1 {
      var r1 := CreateRequest(t, q, fails);
      if r1.1.Some? {
        WriteHotelsForSelect(r1.0, q, hotels, fails);
        if NeverFails(fails) && FindRequest(t.requests, q.createdAt, q.user).None? {
          CreateRequestNew(t, q, fails);
          assert !fails(InsertHotel(hotels[0].id));
          NoLinksToFreshId(t, NextRequestId(t.requests));
        }
      }
    }
  }

  /** `Request.filter(Request.user == user)`: that user's requests in table order. */
  function UserRequests(requests: seq<Request>, user: UserId): seq<Request>
  {
    Filter(requests, (r: Request) => r.query.user == user)
  }

  /** The links of one request in table order (the `history_request` back-reference). */
  function LinksOf(history: seq<History>, request: nat): seq<History>
  {
    Filter(history, (h: History) => h.request == request)
  }

  /**
   * `delete_user_request`: the links of the request, then the request row, in one
   * transaction. An engine error while deleting (`DeleteRows`) and the `DoesNotExist`
   * of an unknown id both roll the transaction back and answer a false value.
   */
  function DeleteRequest(t: Tables, id: nat, fails: DbOp -> bool): (r: (Tables, bool))
    ensures r.1 <==> HasRequest(t, id) && !fails(DeleteRows(id))
    ensures !r.1 ==> r.0 == t
    ensures r.0.hotels == t.hotels
  {
    if fails(DeleteRows(id)) || !HasRequest(t, id) then (t, false)
    else
      (t.(history := Filter(t.history, (h: History) => h.request != id),
          requests := Filter(t.requests, (r: Request) => r.id != id)), true)
  }

  // ---------------------------------------------------------------------------
  // Properties of the operations

  /** Rows are only ever added by a write: stored hotels keep their values, links keep their order. */
  ghost predicate Grows(t: Tables, t': Tables) {
    && (forall id :: id in t.hotels ==> id in t'.hotels && t'.hotels[id] == t.hotels[id])
    && |t.history| <= |t'.history| && t'.history[..|t.history|] == t.history
  }

  lemma {:induction false} WriteHotelsGrows(t: Tables, request: nat, hotels: seq<SavedHotel>, fails: DbOp -> bool)
    ensures Grows(t, WriteHotels(t, request, hotels, fails).0)
    ensures WriteHotels(t, request, hotels, fails).0.requests == t.requests
    decreases |hotels|
  {
    if |hotels| > 0 {
      var h := hotels[0];
      var (t1, row) := CreateHotel(t, Hotel(h.id, h.name, h.address, h.destination), fails);
      if row.Some? {
        var (t2, linked) := CreateHistory(t1, request, row.value.id, h.hotelPrice, fails);
        if linked {
          WriteHotelsGrows(t2, request, hotels[1..], fails);
          var t3 := WriteHotels(t2, request, hotels[1..], fails).0;
          assert t3.history[..|t.history|] == t3.history[..|t2.history|][..|t.history|];
        }
      }
    }
  }

  /** A successful write leaves every hotel of the list stored and linked to the request. */
  lemma {:induction false} WriteHotelsLinksAll(t: Tables, request: nat, hotels: seq<SavedHotel>, fails: DbOp -> bool)
    requires HotelsKeyed(t)
    requires WriteHotels(t, request, hotels, fails).1
    ensures forall i :: 0 <= i < |hotels| ==>
      var t' := WriteHotels(t, request, hotels, fails).0;
      hotels[i].id in t'.hotels && HasLink(t'.history, request, hotels[i].id)
    decreases |hotels|
  {
    if |hotels| > 0 {
      var h := hotels[0];
      var (t1, row) := CreateHotel(t, Hotel(h.id, h.name, h.address, h.destination), fails);
      var (t2, linked) := CreateHistory(t1, request, row.value.id, h.hotelPrice, fails);
      WriteHotelsLinksAll(t2, request, hotels[1..], fails);
      WriteHotelsGrows(t2, request, hotels[1..], fails);
      var t' := WriteHotels(t2, request, hotels[1..], fails).0;
      var k :| 0 <= k < |t2.history| && t2.history[k].request == request && t2.history[k].hotel == h.id;
      assert t'.history[k] == t2.history[k];
      forall i | 1 <= i < |hotels|
        ensures hotels[i].id in t'.hotels && HasLink(t'.history, request, hotels[i].id)
      {
        assert hotels[i] == hotels[1..][i - 1];
      }
    }
  }

  /**
   * A failed write stops at the failing hotel: hotels after it are not attempted, so
   * appending more of them to the list changes nothing.
   */
  lemma {:induction false} WriteHotelsStopsAtFailure(t: Tables, request: nat, hotels: seq<SavedHotel>, more: seq<SavedHotel>, fails: DbOp -> bool)
    requires !WriteHotels(t, request, hotels, fails).1
    ensures WriteHotels(t, request, hotels + more, fails) == WriteHotels(t, request, hotels, fails)
    decreases |hotels|
  {
    assert |hotels| > 0;
    assert (hotels + more)[0] == hotels[0];
    assert (hotels + more)[1..] == hotels[1..] + more;
    var h := hotels[0];
    var (t1, row) := CreateHotel(t, Hotel(h.id, h.name, h.address, h.destination), fails);
    if row.Some? {
      var (t2, linked) := CreateHistory(t1, request, row.value.id, h.hotelPrice, fails);
      if linked {
        WriteHotelsStopsAtFailure(t2, request, hotels[1..], more, fails);
      }
    }
  }

  // ---------------------------------------------------------------------------
  // The unique indexes and foreign keys survive every operation

  lemma CreateHotelValid(t: Tables, h: Hotel, fails: DbOp -> bool)
    requires Valid(t)
    ensures Valid(CreateHotel(t, h, fails).0)
  {
    var t' := CreateHotel(t, h, fails).0;
    forall k | 0 <= k < |t'.history| ensures HasRequest(t', t'.history[k].request) {
      assert HasRequest(t, t.history[k].request);
      var j :| 0 <= j < |t.requests| && t.requests[j].id == t.history[k].request;
      assert t'.requests[j].id == t'.history[k].request;
    }
  }

  lemma CreateRequestValid(t: Tables, q: Query, fails: DbOp -> bool)
    requires Valid(t)
    ensures Valid(CreateRequest(t, q, fails).0)
  {
    if CreateRequest(t, q, fails).0 != t {
      AppendRequestValid(t, Request(NextRequestId(t.requests), q));
    }
  }

  /** Appending a request above every stored id under a new `(created_at, user)` keeps the tables valid. */
  lemma AppendRequestValid(t: Tables, r: Request)
    requires Valid(t) && 0 < r.id
    requires forall i :: 0 <= i < |t.requests| ==> t.requests[i].id < r.id
    requires FindRequest(t.requests, r.query.createdAt, r.query.user).None?
    ensures Valid(t.(requests := t.requests + [r]))
  {
    var t' := t.(requests := t.requests + [r]);
    var n := |t.requests|;
    assert forall i :: 0 <= i < n ==> t'.requests[i] == t.requests[i];
    assert t'.requests[n] == r;
    assert RequestIdsOrdered(t') by {
      forall i, j | 0 <= i < j < |t'.requests| ensures t'.requests[i].id < t'.requests[j].id {
        if j == n {
          assert t.requests[i].id < r.id;
        }
      }
    }
    assert RequestKeysUnique(t');
    forall k | 0 <= k < |t'.history| ensures HasRequest(t', t'.history[k].request) {
      assert HasRequest(t, t.history[k].request);
      var j :| 0 <= j < n && t.requests[j].id == t.history[k].request;
      assert t'.requests[j].id == t'.history[k].request;
    }
  }

  /** A request stays stored while the request table is left as it is. */
  lemma RequestKept(t: Tables, t': Tables, id: nat)
    requires HasRequest(t, id) && t'.requests == t.requests
    ensures HasRequest(t', id)
  {
    var j :| 0 <= j < |t.requests| && t.requests[j].id == id;
    assert t'.requests[j].id == id;
  }

  lemma CreateHistoryValid(t: Tables, request: nat, hotel: string, price: int, fails: DbOp -> bool)
    requires Valid(t) && HasRequest(t, request) && hotel in t.hotels
    ensures Valid(CreateHistory(t, request, hotel, price, fails).0)
  {
    var t' := CreateHistory(t, request, hotel, price, fails).0;
    if t'.history != t.history {
      assert !HasLink(t.history, request, hotel);
      assert t'.history == t.history + [History(request, hotel, price)];
      forall i, j | 0 <= i < j < |t'.history|
        ensures t'.history[i].request != t'.history[j].request || t'.history[i].hotel != t'.history[j].hotel
      {
        assert t'.history[i] == t.history[i];
      }
      forall k | 0 <= k < |t'.history| ensures HasRequest(t', t'.history[k].request) && t'.history[k].hotel in t'.hotels {
        RequestKept(t, t', t'.history[k].request);
      }
    }
  }

  lemma {:induction false} WriteHotelsValid(t: Tables, request: nat, hotels: seq<SavedHotel>, fails: DbOp -> bool)
    requires Valid(t) && HasRequest(t, request)
    ensures Valid(WriteHotels(t, request, hotels, fails).0)
    decreases |hotels|
  {
    if |hotels| > 0 {
      var h := hotels[0];
      var hotel := Hotel(h.id, h.name, h.address, h.destination);
      var r1 := CreateHotel(t, hotel, fails);
      CreateHotelValid(t, hotel, fails);
      RequestKept(t, r1.0, request);
      if r1.1.Some? {
        var r2 := CreateHistory(r1.0, request, r1.1.value.id, h.hotelPrice, fails);
        CreateHistoryValid(r1.0, request, r1.1.value.id, h.hotelPrice, fails);
        RequestKept(r1.0, r2.0, request);
        if r2.1 {
          assert WriteHotels(t, request, hotels, fails) == WriteHotels(r2.0, request, hotels[1..], fails);
          WriteHotelsValid(r2.0, request, hotels[1..], fails);
        }
      }
    }
  }

  /** The write of a whole search keeps the unique indexes and the foreign keys. */
  lemma RecordSearchValid(t: Tables, q: Query, hotels: seq<SavedHotel>, fails: DbOp -> bool)
    requires Valid(t)
    ensures Valid(RecordSearch(t, q, hotels, fails).0)
  {
    if |hotels| >= 1 {
      CreateRequestValid(t, q, fails);
      var (t1, id) := CreateRequest(t, q, fails);
      if id.Some? {
        var found := FindRequest(t.requests, q.createdAt, q.user);
        if found.Some? {
          var k :| 0 <= k < |t.requests| && t.requests[k].id == found.value;
          assert HasRequest(t1, id.value);
        } else {
          assert t1.requests[|t1.requests| - 1].id == id.value;
        }
        WriteHotelsValid(t1, id.value, hotels, fails);
      }
    }
  }

  /** Deleting a request keeps the unique indexes and the foreign keys. */
  lemma DeleteRequestValid(t: Tables, id: nat, fails: DbOp -> bool)
    requires Valid(t)
    ensures Valid(DeleteRequest(t, id, fails).0)
  {
    var t' := DeleteRequest(t, id, fails).0;
    if t' != t {
      var keepLink := (h: History) => h.request != id;
      var keepRequest := (r: Request) => r.id != id;
      FilterPairwise(t.requests, keepRequest, (a: Request, b: Request) => a.id < b.id);
      FilterPairwise(t.requests, keepRequest,
        (a: Request, b: Request) => a.query.createdAt != b.query.createdAt || a.query.user != b.query.user);
      FilterPairwise(t.history, keepLink,
        (a: History, b: History) => a.request != b.request || a.hotel != b.hotel);
      forall i | 0 <= i < |t'.requests| ensures 0 < t'.requests[i].id {
        assert t'.requests[i] in t.requests;
      }
      forall k | 0 <= k < |t'.history|
        ensures HasRequest(t', t'.history[k].request) && t'.history[k].hotel in t'.hotels
      {
        var link := t'.history[k];
        assert link in t.history;
        var m :| 0 <= m < |t.history| && t.history[m] == link;
        var j :| 0 <= j < |t.requests| && t.requests[j].id == link.request;
        assert t.requests[j] in t'.requests;
      }
    }
  }

  // ---------------------------------------------------------------------------
  // Writing a search and reading it back

  /** The links a write of `hotels` under `request` adds, one per hotel, in list order. */
  function ExpectedLinks(request: nat, hotels: seq<SavedHotel>): (r: seq<History>)
    ensures |r| == |hotels|
    decreases |hotels|
  {
    if |hotels| == 0 then []
    else [History(request, hotels[0].id, hotels[0].hotelPrice)] + ExpectedLinks(request, hotels[1..])
  }

  /** One step of a fault-free write whose first hotel is not linked yet: store it, append its link. */
  lemma WriteHotelsStep(t: Tables, request: nat, hotels: seq<SavedHotel>, fails: DbOp -> bool)
    requires HotelsKeyed(t) && |hotels| > 0
    requires NeverFails(fails)
    requires !HasLink(t.history, request, hotels[0].id)
    ensures var h := hotels[0];
      var t1 := CreateHotel(t, Hotel(h.id, h.name, h.address, h.destination), fails).0;
      WriteHotels(t, request, hotels, fails)
        == WriteHotels(t1.(history := t.history + [History(request, h.id, h.hotelPrice)]), request, hotels[1..], fails)
  {
    var h := hotels[0];
    var hotel := Hotel(h.id, h.name, h.address, h.destination);
    assert !fails(InsertHotel(h.id)) && !fails(InsertHistory(request, h.id));
    var (t1, row) := CreateHotel(t, hotel, fails);
    assert row.Some? && row.value.id == h.id;
  }

  lemma LinksOfAppendOne(history: seq<History>, link: History)
    ensures LinksOf(history + [link], link.request) == LinksOf(history, link.request) + [link]
  {
    FilterAppend(history, [link], (x: History) => x.request == link.request);
    assert [link][1..] == [];
  }

  /** The engine raises on no call. */
  ghost predicate NeverFails(fails: DbOp -> bool) {
    forall op :: !fails(op)
  }

  /** The hotel ids of the list are distinct and none is linked to `request` yet. */
  ghost predicate FreshFor(history: seq<History>, request: nat, hotels: seq<SavedHotel>) {
    && (forall i, j :: 0 <= i < j < |hotels| ==> hotels[i].id != hotels[j].id)
    && (forall i :: 0 <= i < |hotels| ==> !HasLink(history, request, hotels[i].id))
  }

  /** The rest of a fresh list stays fresh once the link of its head is added. */
  lemma FreshTail(history: seq<History>, request: nat, hotels: seq<SavedHotel>)
    requires |hotels| > 0 && FreshFor(history, request, hotels)
    ensures FreshFor(history + [History(request, hotels[0].id, hotels[0].hotelPrice)], request, hotels[1..])
  {
    var history' := history + [History(request, hotels[0].id, hotels[0].hotelPrice)];
    forall i | 0 <= i < |hotels[1..]| ensures !HasLink(history', request, hotels[1..][i].id) {
      assert hotels[1..][i] == hotels[i + 1];
      assert !HasLink(history, request, hotels[i + 1].id);
    }
  }

  lemma {:induction false} WriteHotelsFreshLinks(t: Tables, request: nat, hotels: seq<SavedHotel>, fails: DbOp -> bool)
    requires HotelsKeyed(t) && NeverFails(fails) && FreshFor(t.history, request, hotels)
    ensures WriteHotels(t, request, hotels, fails).1
    ensures LinksOf(WriteHotels(t, request, hotels, fails).0.history, request)
         == LinksOf(t.history, request) + ExpectedLinks(request, hotels)
    decreases |hotels|
  {
    if |hotels| > 0 {
      var h := hotels[0];
      assert !HasLink(t.history, request, h.id);
      WriteHotelsStep(t, request, hotels, fails);
      var link := History(request, h.id, h.hotelPrice);
      var t1 := CreateHotel(t, Hotel(h.id, h.name, h.address, h.destination), fails).0;
      var t2 := t1.(history := t.history + [link]);
      assert HotelsKeyed(t2);
      LinksOfAppendOne(t.history, link);
      FreshTail(t.history, request, hotels);
      WriteHotelsFreshLinks(t2, request, hotels[1..], fails);
      assert ExpectedLinks(request, hotels) == [link] + ExpectedLinks(request, hotels[1..]);
      Associative(LinksOf(t.history, request), [link], ExpectedLinks(request, hotels[1..]));
    }
  }

  /**
   * Round trip: a fault-free write of a search under a new `(created_at, user)` with
   * distinct hotel ids succeeds; listing the user's requests afterwards gives the old
   * list plus the new row, and that row's links are one per hotel, in list order,
   * each with its price.
   */
  lemma WriteThenList(t: Tables, q: Query, hotels: seq<SavedHotel>, fails: DbOp -> bool)
    requires Valid(t)
    requires |hotels| >= 1
    requires FindRequest(t.requests, q.createdAt, q.user).None?
    requires NeverFails(fails)
    requires forall i, j :: 0 <= i < j < |hotels| ==> hotels[i].id != hotels[j].id
    ensures RecordSearch(t, q, hotels, fails).1
    ensures UserRequests(RecordSearch(t, q, hotels, fails).0.requests, q.user)
         == UserRequests(t.requests, q.user) + [Request(NextRequestId(t.requests), q)]
    ensures LinksOf(RecordSearch(t, q, hotels, fails).0.history, NextRequestId(t.requests))
         == ExpectedLinks(NextRequestId(t.requests), hotels)
  {
    NoLinksToFreshId(t, NextRequestId(t.requests));
    assert FreshFor(t.history, NextRequestId(t.requests), hotels);
    RecordSearchFresh(t, q, hotels, fails);
  }

  /** `WriteThenList` once the new id is known to carry no links yet. */
  lemma RecordSearchFresh(t: Tables, q: Query, hotels: seq<SavedHotel>, fails: DbOp -> bool)
    requires HotelsKeyed(t) && |hotels| >= 1 && NeverFails(fails)
    requires FindRequest(t.requests, q.createdAt, q.user).None?
    requires FreshFor(t.history, NextRequestId(t.requests), hotels)
    requires LinksOf(t.history, NextRequestId(t.requests)) == []
    ensures RecordSearch(t, q, hotels, fails).1
    ensures UserRequests(RecordSearch(t, q, hotels, fails).0.requests, q.user)
         == UserRequests(t.requests, q.user) + [Request(NextRequestId(t.requests), q)]
    ensures LinksOf(RecordSearch(t, q, hotels, fails).0.history, NextRequestId(t.requests))
         == ExpectedLinks(NextRequestId(t.requests), hotels)
  {
    var rid := NextRequestId(t.requests);
    CreateRequestNew(t, q, fails);
    var t1 := Tables(t.hotels, t.requests + [Request(rid, q)], t.history);
    assert RecordSearch(t, q, hotels, fails) == WriteHotels(t1, rid, hotels, fails);
    UserRequestsAppendOne(t.requests, Request(rid, q));
    WriteHotelsFreshLinks(t1, rid, hotels, fails);
    WriteHotelsGrows(t1, rid, hotels, fails);
    assert [] + ExpectedLinks(rid, hotels) == ExpectedLinks(rid, hotels);
  }

  /** A fault-free insert under a new `(created_at, user)` appends the row under SQLite's next id. */
  lemma CreateRequestNew(t: Tables, q: Query, fails: DbOp -> bool)
    requires NeverFails(fails) && FindRequest(t.requests, q.createdAt, q.user).None?
    ensures CreateRequest(t, q, fails)
         == (Tables(t.hotels, t.requests + [Request(NextRequestId(t.requests), q)], t.history),
             Some(NextRequestId(t.requests)))
  {
    assert !fails(InsertRequest(q.createdAt, q.user));
  }

  /**
   * Request ids are handed out again: a new request that is deleted leaves its id free,
   * and the next new request gets that same id. A delete button still carrying the old
   * id then deletes the new request.
   */
  lemma DeletedIdReused(t: Tables, q1: Query, q2: Query, fails: DbOp -> bool)
    requires Valid(t) && NeverFails(fails)
    requires FindRequest(t.requests, q1.createdAt, q1.user).None?
    requires FindRequest(t.requests, q2.createdAt, q2.user).None?
    ensures CreateRequest(t, q1, fails).1 == Some(NextRequestId(t.requests))
    ensures var t2 := DeleteRequest(CreateRequest(t, q1, fails).0, NextRequestId(t.requests), fails).0;
      && t2.requests == t.requests
      && CreateRequest(t2, q2, fails).1 == Some(NextRequestId(t.requests))
  {
    var id := NextRequestId(t.requests);
    CreateRequestNew(t, q1, fails);
    var t1 := Tables(t.hotels, t.requests + [Request(id, q1)], t.history);
    assert HasRequest(t1, id) by {
      assert t1.requests[|t1.requests| - 1].id == id;
    }
    var keep := (r: Request) => r.id != id;
    FilterAppend(t.requests, [Request(id, q1)], keep);
    FilterAll(t.requests, keep);
    assert Filter([Request(id, q1)], keep) == [];
    CreateRequestNew(t1.(requests := t.requests), q2, fails);
  }

  lemma UserRequestsAppendOne(requests: seq<Request>, r: Request)
    ensures UserRequests(requests + [r], r.query.user) == UserRequests(requests, r.query.user) + [r]
  {
    FilterAppend(requests, [r], (x: Request) => x.query.user == r.query.user);
    assert [r][1..] == [];
  }

  /** No link refers to an id above every stored request id. */
  lemma NoLinksToFreshId(t: Tables, rid: nat)
    requires Valid(t) && forall i :: 0 <= i < |t.requests| ==> t.requests[i].id < rid
    ensures LinksOf(t.history, rid) == []
    ensures forall hotel :: !HasLink(t.history, rid, hotel)
  {
    forall k | 0 <= k < |t.history| ensures t.history[k].request != rid {
      assert HasRequest(t, t.history[k].request);
      var j :| 0 <= j < |t.requests| && t.requests[j].id == t.history[k].request;
    }
    FilterNone(t.history, (h: History) => h.request == rid);
  }

  /** After a delete the request and its links are gone and every listing omits it; nothing else changes. */
  lemma DeleteThenList(t: Tables, id: nat, user: UserId, fails: DbOp -> bool)
    requires DeleteRequest(t, id, fails).1
    ensures var t' := DeleteRequest(t, id, fails).0;
      && !HasRequest(t', id)
      && LinksOf(t'.history, id) == []
      && t'.hotels == t.hotels
      && (forall r :: r in UserRequests(t'.requests, user) <==> r in UserRequests(t.requests, user) && r.id != id)
      && (forall other :: other != id ==> LinksOf(t'.history, other) == LinksOf(t.history, other))
  {
    var t' := DeleteRequest(t, id, fails).0;
    forall k | 0 <= k < |t'.requests| ensures t'.requests[k].id != id {
      assert t'.requests[k] in t'.requests;
    }
    forall k | 0 <= k < |t'.history| ensures t'.history[k].request != id {
      assert t'.history[k] in t'.history;
    }
    FilterNone(t'.history, (h: History) => h.request == id);
    forall other | other != id ensures LinksOf(t'.history, other) == LinksOf(t.history, other) {
      FilterOfFilter(t.history, (h: History) => h.request != id, (h: History) => h.request == other);
    }
  }

  /** Filtering twice with the second test implying the first is filtering once. */
  lemma {:induction false} FilterOfFilter(s: seq<History>, keep: History -> bool, pick: History -> bool)
    requires forall h :: pick(h) ==> keep(h)
    ensures Filter(Filter(s, keep), pick) == Filter(s, pick)
    decreases |s|
  {
    if |s| > 0 {
      FilterOfFilter(s[1..], keep, pick);
      var rest := Filter(s[1..], keep);
      if keep(s[0]) {
        assert Filter(s, keep) == [s[0]] + rest;
        assert ([s[0]] + rest)[0] == s[0] && ([s[0]] + rest)[1..] == rest;
      } else {
        assert Filter(s, keep) == rest;
      }
    }
  }

  // ---------------------------------------------------------------------------
  // The store the bot talks to

  /** The SQLite database file: the three tables, changed in place by each call. */
  class HistoryStore {
    var hotels: map<string, Hotel>
    var requests: seq<Request>
    var history: seq<History>

    function Snapshot(): Tables
      reads this
    {
      Tables(hotels, requests, history)
    }

    ghost predicate Valid()
      reads this
    {
      Models.Valid(Snapshot())
    }

    /** A new database file: `create_tables` on an empty file. */
    constructor()
      ensures Snapshot() == EmptyTables && Valid()
    {
      hotels, requests, history := map[], [], [];
      EmptyTablesValid();
    }

    /** `create_and_return_hotel`: `(True, row)` for a new or an already stored id, `(False, None)` on an engine error. */
    method CreateAndReturnHotel(h: Hotel, fails: DbOp -> bool) returns (ok: bool, row: Option<Hotel>)
      modifies this
      ensures (Snapshot(), row) == CreateHotel(old(Snapshot()), h, fails)
      ensures ok <==> row.Some?
      ensures old(Valid()) ==> Valid()
    {
      ghost var t0 := Snapshot();
      if fails(InsertHotel(h.id)) {
        return false, None;
      }
      if h.id !in hotels {
        hotels := hotels[h.id := h];
      }
      ok, row := true, Some(hotels[h.id]);
      if old(Valid()) {
        CreateHotelValid(t0, h, fails);
      }
    }

    /**
     * `create_and_return_request`: `(True, id)` of the new row or of the row already
     * stored under `(created_at, user)`, `(False, None)` on an engine error. The three
     * filter columns are set only when given.
     */
    method CreateAndReturnRequest(q: Query, fails: DbOp -> bool) returns (ok: bool, id: Option<nat>)
      modifies this
      ensures (Snapshot(), id) == CreateRequest(old(Snapshot()), q, fails)
      ensures ok <==> id.Some?
      ensures old(Valid()) ==> Valid()
    {
      ghost var t0 := Snapshot();
      if fails(InsertRequest(q.createdAt, q.user)) {
        return false, None;
      }
      var found := FindRequest(requests, q.createdAt, q.user);
      if found.Some? {
        return true, found;
      }
      var row := NewQuery(q.createdAt, q.user, q.command, q.city, q.startDate, q.endDate,
                          q.hotelsCount, q.isImagesNeeded, q.imagesCount);
      if q.distance.Some? {
        row := row.(distance := q.distance);
      }
      if q.lowPrice.Some? {
        row := row.(lowPrice := q.lowPrice);
      }
      if q.highPrice.Some? {
        row := row.(highPrice := q.highPrice);
      }
      var next := NextRequestId(requests);
      requests := requests + [Request(next, row)];
      ok, id := true, Some(next);
      if old(Valid()) {
        CreateRequestValid(t0, q, fails);
      }
    }

    /** `create_and_return_history`: `True` for a new or an already stored link, `False` on an engine error. */
    method CreateAndReturnHistory(request: nat, hotel: string, price: int, fails: DbOp -> bool) returns (ok: bool)
      modifies this
      ensures (Snapshot(), ok) == CreateHistory(old(Snapshot()), request, hotel, price, fails)
      ensures old(Valid()) && HasRequest(old(Snapshot()), request) && hotel in old(hotels) ==> Valid()
    {
      ghost var t0 := Snapshot();
      if fails(InsertHistory(request, hotel)) {
        return false;
      }
      if !HasLink(history, request, hotel) {
        history := history + [History(request, hotel, price)];
      }
      ok := true;
      if old(Valid()) && HasRequest(t0, request) && hotel in t0.hotels {
        CreateHistoryValid(t0, request, hotel, price, fails);
      }
    }

    /**
     * `write_request_to_history`: `False` for an empty list; else the request row, then
     * per hotel its row and its link, stopping with `False` at the first failing call.
     * What was written before a failure stays written.
     */
    method WriteRequestToHistory(q: Query, found: seq<SavedHotel>, fails: DbOp -> bool) returns (ok: bool)
      modifies this
      ensures (Snapshot(), ok) == RecordSearch(old(Snapshot()), q, found, fails)
      ensures old(Valid()) ==> Valid()
    {
      ghost var t0 := Snapshot();
      if old(Valid()) {
        RecordSearchValid(t0, q, found, fails);
      }
      if |found| < 1 {
        return false;
      }
      var created, id := CreateAndReturnRequest(q, fails);
      if !created {
        return false;
      }
      var rid := id.value;
      ghost var goal := WriteHotels(Snapshot(), rid, found, fails);
      assert goal == RecordSearch(t0, q, found, fails);
      var i := 0;
      while i < |found|
        invariant 0 <= i <= |found|
        invariant WriteHotels(Snapshot(), rid, found[i..], fails) == goal
      {
        var h := found[i];
        assert found[i..][0] == h && found[i..][1..] == found[i + 1..];
        var stored, row := CreateAndReturnHotel(Hotel(h.id, h.name, h.address, h.destination), fails);
        if !stored {
          return false;
        }
        var linked := CreateAndReturnHistory(rid, row.value.id, h.hotelPrice, fails);
        if !linked {
          return false;
        }
        i := i + 1;
      }
      ok := true;
    }

    /**
     * `get_user_requests`: its `try` only opens the connection and builds the query, so
     * it answers `(True, query)` unless opening fails (`OpenListing`), and `(False, None)`
     * then. The rows are read when the caller first runs the query.
     */
    method GetUserRequests(user: UserId, fails: DbOp -> bool) returns (ok: bool, query: Option<RequestQuery>)
      ensures ok <==> !fails(OpenListing(user))
      ensures ok ==> query == Some(RequestsOf(user))
      ensures !ok ==> query.None?
    {
      if fails(OpenListing(user)) {
        return false, None;
      }
      ok, query := true, Some(RequestsOf(user));
    }

    /**
     * Running a request query, as `len()` does on it: the rows of its user in table
     * order, or the engine error of the select (`SelectRequests`), which the caller
     * does not catch.
     */
    method Execute(query: RequestQuery, fails: DbOp -> bool) returns (raised: bool, rows: seq<Request>)
      ensures raised <==> fails(SelectRequests(query.user))
      ensures !raised ==> forall r :: r in rows <==> r in requests && r.query.user == query.user
      ensures !raised ==> rows == UserRequests(requests, query.user)
      ensures raised ==> rows == []
    {
      if fails(SelectRequests(query.user)) {
        return true, [];
      }
      raised, rows := false, UserRequests(requests, query.user);
    }

    /**
     * `delete_user_request`: the request's links, then the request; an engine error or
     * an unknown id rolls the transaction back and answers a false value.
     */
    method DeleteUserRequest(id: nat, fails: DbOp -> bool) returns (ok: bool)
      modifies this
      ensures (Snapshot(), ok) == DeleteRequest(old(Snapshot()), id, fails)
      ensures old(Valid()) ==> Valid()
    {
      ghost var t0 := Snapshot();
      if fails(DeleteRows(id)) || !HasRequest(Snapshot(), id) {
        return false;
      }
      history := Filter(history, (h: History) => h.request != id);
      requests := Filter(requests, (r: Request) => r.id != id);
      ok := true;
      if old(Valid()) {
        DeleteRequestValid(t0, id, fails);
      }
    }
  }
}
