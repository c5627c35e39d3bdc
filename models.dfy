/**
 * The three tables of the search history (database/models.py) as values, with the
 * unique indexes and the foreign keys as an invariant.
 */
module Models {
  import opened Common

  type UserId = int

  /** A calendar date as a day number; differences are numbers of days. */
  type Date = int

  /** A row of `Hotel`; `id` is unique. */
  datatype Hotel = Hotel(id: string, name: string, address: string, distance: int)

  /** The columns of a `Request` row other than its automatic id. */
  datatype Query = Query(
    createdAt: string,
    user: UserId,
    command: string,
    city: string,
    startDate: Date,
    endDate: Date,
    hotelsCount: int,
    isImagesNeeded: bool,
    imagesCount: int,
    distance: Option<int>,
    lowPrice: Option<int>,
    highPrice: Option<int>)

  /** A row of `Request`; `(created_at, user)` is unique. */
  datatype Request = Request(id: nat, query: Query)

  /** A row of `History`: the link of a request to a hotel with the price found; `(request, hotel)` is unique. */
  datatype History = History(request: nat, hotel: string, hotelPrice: int)

  /**
   * The database. Requests and links keep insertion order, the order in which the
   * database returns them.
   */
  datatype Tables = Tables(
    hotels: map<string, Hotel>,
    requests: seq<Request>,
    history: seq<History>)

  const EmptyTables: Tables := Tables(map[], [], [])

  /**
   * The id SQLite gives a new `Request` row: `id` is an integer primary key without
   * AUTOINCREMENT, so a new row gets one more than the largest id stored, and 1 in an
   * empty table. The id of a deleted newest row is handed out again.
   */
  function NextRequestId(requests: seq<Request>): (r: nat)
    ensures r > 0
    ensures forall i :: 0 <= i < |requests| ==> requests[i].id < r
    ensures |requests| == 0 ==> r == 1
    ensures |requests| > 0 ==> exists i :: 0 <= i < |requests| && requests[i].id + 1 == r
    decreases |requests|
  {
    if |requests| == 0 then 1
    else
      var rest := NextRequestId(requests[..|requests| - 1]);
      var last := requests[|requests| - 1].id + 1;
      assert forall i :: 0 <= i < |requests| - 1 ==> requests[i] == requests[..|requests| - 1][i];
      if last > rest then last else rest
  }

  /**
   * A new request row as `Request.create` makes it: the image columns default to
   * `False` and `0`, the three filter columns to NULL.
   */
  function NewQuery(createdAt: string, user: UserId, command: string, city: string,
                    startDate: Date, endDate: Date, hotelsCount: int,
                    isImagesNeeded: bool := false, imagesCount: int := 0): (q: Query)
    ensures q.distance.None? && q.lowPrice.None? && q.highPrice.None?
  {
    Query(createdAt, user, command, city, startDate, endDate, hotelsCount,
          isImagesNeeded, imagesCount, None, None, None)
  }

  predicate HasRequest(t: Tables, id: nat) {
    exists k :: 0 <= k < |t.requests| && t.requests[k].id == id
  }

  predicate HasLink(history: seq<History>, request: nat, hotel: string) {
    exists k :: 0 <= k < |history| && history[k].request == request && history[k].hotel == hotel
  }

  /** `Hotel.id` is unique: each row is stored under its own id. */
  ghost predicate HotelsKeyed(t: Tables) {
    forall id :: id in t.hotels ==> t.hotels[id].id == id
  }

  /** Request ids are positive and grow with insertion order. */
  ghost predicate RequestIdsOrdered(t: Tables) {
    && (forall i, j :: 0 <= i < j < |t.requests| ==> t.requests[i].id < t.requests[j].id)
    && (forall i :: 0 <= i < |t.requests| ==> 0 < t.requests[i].id)
  }

  /** The unique index on `(created_at, user)`. */
  ghost predicate RequestKeysUnique(t: Tables) {
    forall i, j :: 0 <= i < j < |t.requests| ==>
      t.requests[i].query.createdAt != t.requests[j].query.createdAt
      || t.requests[i].query.user != t.requests[j].query.user
  }

  /** The unique index on `(request, hotel)`. */
  ghost predicate HistoryKeysUnique(t: Tables) {
    forall i, j :: 0 <= i < j < |t.history| ==>
      t.history[i].request != t.history[j].request || t.history[i].hotel != t.history[j].hotel
  }

  /** Every link points at a stored request and a stored hotel. */
  ghost predicate ForeignKeysHold(t: Tables) {
    forall k :: 0 <= k < |t.history| ==> HasRequest(t, t.history[k].request) && t.history[k].hotel in t.hotels
  }

  ghost predicate Valid(t: Tables) {
    HotelsKeyed(t) && RequestIdsOrdered(t) && RequestKeysUnique(t) && HistoryKeysUnique(t) && ForeignKeysHold(t)
  }

  lemma EmptyTablesValid()
    ensures Valid(EmptyTables)
  {
  }
}
