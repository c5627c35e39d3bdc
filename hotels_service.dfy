/**
 * The hotel API client (api/hotels_service.py): the city lookup, the hotel search with
 * its payload and its client-side sorting, and the hotel details. The HTTP exchange is
 * a parameter: each endpoint is a function from what is sent to the reply received.
 */
module HotelsService {
  import opened Common
  import opened JsonValue
  import opened Models

  /** What `make_api_request` hands back: whether the status was 200, and the decoded body. */
  datatype ApiReply = ApiReply(ok: bool, body: Json)

  /** One button's worth of the city lookup: `(shortName, gaiaId)`. */
  datatype CityOption = CityOption(name: string, id: string)

  /** One hotel of the list endpoint: `(id, name, price, distance)`. */
  datatype HotelSummary = HotelSummary(id: string, name: string, price: int, distance: int)

  // ---------------------------------------------------------------------------
  // request_cities

  /** How the loop of `request_cities` treats one item of `sr`. */
  datatype ItemKind = Malformed | OtherKind | CityItem(city: CityOption)

  function ClassifyItem(item: Json): ItemKind {
    match Get(item, "type")
    case None => Malformed
    case Some(kind) =>
      if kind != JStr("CITY") then OtherKind
      else match (StringAt(item, ["regionNames", "shortName"]), StringAt(item, ["gaiaId"]))
        case (Some(name), Some(id)) => CityItem(CityOption(name, id))
        case _ => Malformed
  }

  /** The items of `sr` as the loop of `request_cities` reads them, in order. */
  function Kinds(items: seq<Json>): (r: seq<ItemKind>)
    ensures |r| == |items|
    ensures forall i :: 0 <= i < |items| ==> r[i] == ClassifyItem(items[i])
  {
    seq(|items|, i requires 0 <= i < |items| => ClassifyItem(items[i]))
  }

  /** What one item adds in front of the cities of the items after it. */
  function Collect(kind: ItemKind, rest: seq<CityOption>): seq<CityOption> {
    match kind
    case Malformed => []
    case OtherKind => rest
    case CityItem(c) => [c] + rest
  }

  /** The cities collected from the classified items up to the first item whose reading raises. */
  function CitiesOf(kinds: seq<ItemKind>): (r: seq<CityOption>)
    ensures |r| <= |kinds|
    ensures forall c :: c in r ==> CityItem(c) in kinds
    decreases |kinds|
  {
    if |kinds| == 0 then []
    else
      assert forall x :: x in kinds[1..] ==> x in kinds;
      Collect(kinds[0], CitiesOf(kinds[1..]))
  }

  function ParsedCities(body: Json): seq<CityOption> {
    match Get(body, "sr")
    case None => []
    case Some(sr) =>
      match Elements(sr)
      case None => []
      case Some(items) => CitiesOf(Kinds(items))
  }

  predicate NoMalformed(kinds: seq<ItemKind>) {
    Malformed !in kinds
  }

  /** A malformed item ends the collection: nothing after it is read. */
  lemma {:induction false} CitiesOfStopsAt(kinds: seq<ItemKind>, k: nat)
    requires k < |kinds| && kinds[k].Malformed?
    ensures CitiesOf(kinds) == CitiesOf(kinds[..k])
    decreases k
  {
    if k > 0 {
      assert kinds[1..][k - 1] == kinds[k];
      CitiesOfStopsAt(kinds[1..], k - 1);
      assert kinds[1..][..k - 1] == kinds[..k][1..];
    }
  }

  lemma CollectAppend(kind: ItemKind, x: seq<CityOption>, y: seq<CityOption>)
    requires !kind.Malformed?
    ensures Collect(kind, x + y) == Collect(kind, x) + y
  {
    if kind.CityItem? {
      Associative([kind.city], x, y);
    }
  }

  /** Over well-formed items the collection is compositional: it keeps the city items in order. */
  lemma {:induction false} CitiesOfAppend(a: seq<ItemKind>, b: seq<ItemKind>)
    requires NoMalformed(a)
    ensures CitiesOf(a + b) == CitiesOf(a) + CitiesOf(b)
    decreases |a|
  {
    if |a| == 0 {
      assert a + b == b;
    } else {
      assert (a + b)[0] == a[0] && (a + b)[1..] == a[1..] + b;
      assert a[0] in a && forall x :: x in a[1..] ==> x in a;
      CitiesOfAppend(a[1..], b);
      CollectAppend(a[0], CitiesOf(a[1..]), CitiesOf(b));
    }
  }

  /** Over well-formed items every city item becomes a city option. */
  lemma {:induction false} CitiesOfComplete(kinds: seq<ItemKind>, k: nat)
    requires NoMalformed(kinds) && k < |kinds| && kinds[k].CityItem?
    ensures kinds[k].city in CitiesOf(kinds)
    decreases k
  {
    assert kinds[0] in kinds;
    if k > 0 {
      assert kinds[1..][k - 1] == kinds[k];
      assert forall x :: x in kinds[1..] ==> x in kinds;
      CitiesOfComplete(kinds[1..], k - 1);
    }
  }

  /**
   * `request_cities`: `(False, [])` on a failed request; otherwise `True` and the cities
   * read before the first item that raised. The `finally` clause overrides the error
   * return, so a reading error still answers `True`.
   */
  method RequestCities(locationName: string, locations: string -> ApiReply)
    returns (ok: bool, cities: seq<CityOption>)
    ensures ok == locations(locationName).ok
    ensures cities == if ok then ParsedCities(locations(locationName).body) else []
  {
    var reply := locations(locationName);
    if !reply.ok {
      return false, [];
    }
    ok, cities := true, [];
    var sr := Get(reply.body, "sr");
    if sr.None? {
      return;
    }
    var walked := Elements(sr.value);
    if walked.None? {
      return;
    }
    cities := CollectCities(Kinds(walked.value));
  }

  /** The loop of `request_cities` over the items of `sr`, each as it reads it. */
  method CollectCities(kinds: seq<ItemKind>) returns (cities: seq<CityOption>)
    ensures cities == CitiesOf(kinds)
  {
    cities := [];
    var i := 0;
    while i < |kinds|
      invariant 0 <= i <= |kinds|
      invariant cities + CitiesOf(kinds[i..]) == CitiesOf(kinds)
    {
      assert kinds[i..][0] == kinds[i] && kinds[i..][1..] == kinds[i + 1..];
      var kind := kinds[i];
      if kind.Malformed? {
        assert cities + [] == cities;
        break;
      }
      if kind.CityItem? {
        Associative(cities, [kind.city], CitiesOf(kinds[i + 1..]));
        cities := cities + [kind.city];
      }
      i := i + 1;
    }
  }

  // ---------------------------------------------------------------------------
  // Stable sorting, as Python's `sorted`

  /** Sort keys compare lexicographically, like Python tuples. */
  predicate KeyLe(a: (int, int), b: (int, int)) {
    a.0 < b.0 || (a.0 == b.0 && a.1 <= b.1)
  }

  predicate SortedBy(s: seq<HotelSummary>, key: HotelSummary -> (int, int)) {
    forall i, j :: 0 <= i < j < |s| ==> KeyLe(key(s[i]), key(s[j]))
  }

  /** Insert `h` before the first element whose key is not below its own. */
  function Insert(h: HotelSummary, s: seq<HotelSummary>, key: HotelSummary -> (int, int)): (r: seq<HotelSummary>)
    ensures multiset(r) == multiset(s) + multiset{h}
    decreases |s|
  {
    if |s| == 0 || KeyLe(key(h), key(s[0])) then [h] + s
    else
      assert s == [s[0]] + s[1..];
      [s[0]] + Insert(h, s[1..], key)
  }

  /** `sorted(s, key=key)`: insertion sort from the back, which keeps equal keys in input order. */
  function SortBy(s: seq<HotelSummary>, key: HotelSummary -> (int, int)): (r: seq<HotelSummary>)
    ensures multiset(r) == multiset(s)
    decreases |s|
  {
    if |s| == 0 then []
    else
      assert s == [s[0]] + s[1..];
      Insert(s[0], SortBy(s[1..], key), key)
  }

  /** The elements with key `k`, in order. */
  function WithKey(s: seq<HotelSummary>, key: HotelSummary -> (int, int), k: (int, int)): seq<HotelSummary> {
    Filter(s, (x: HotelSummary) => key(x) == k)
  }

  lemma {:induction false} InsertSorted(h: HotelSummary, s: seq<HotelSummary>, key: HotelSummary -> (int, int))
    requires SortedBy(s, key)
    ensures SortedBy(Insert(h, s, key), key)
    decreases |s|
  {
    if |s| > 0 && !KeyLe(key(h), key(s[0])) {
      InsertSorted(h, s[1..], key);
      var tail := Insert(h, s[1..], key);
      forall x | x in multiset(tail) ensures KeyLe(key(s[0]), key(x)) {
        assert x in multiset(s[1..]) + multiset{h};
        if x in multiset(s[1..]) {
          var j :| 0 <= j < |s[1..]| && s[1..][j] == x;
          assert s[j + 1] == x;
        }
      }
      forall j | 0 <= j < |tail| ensures KeyLe(key(s[0]), key(tail[j])) {
        assert tail[j] in multiset(tail);
      }
    }
  }

  lemma {:induction false} SortBySorted(s: seq<HotelSummary>, key: HotelSummary -> (int, int))
    ensures SortedBy(SortBy(s, key), key)
    decreases |s|
  {
    if |s| > 0 {
      SortBySorted(s[1..], key);
      InsertSorted(s[0], SortBy(s[1..], key), key);
    }
  }

  lemma WithKeyOne(x: HotelSummary, key: HotelSummary -> (int, int), k: (int, int))
    ensures WithKey([x], key, k) == if key(x) == k then [x] else []
  {
    assert [x][1..] == [];
  }

  lemma WithKeyAppend(a: seq<HotelSummary>, b: seq<HotelSummary>, key: HotelSummary -> (int, int), k: (int, int))
    ensures WithKey(a + b, key, k) == WithKey(a, key, k) + WithKey(b, key, k)
  {
    FilterAppend(a, b, (x: HotelSummary) => key(x) == k);
  }

  lemma {:induction false} InsertStable(h: HotelSummary, s: seq<HotelSummary>, key: HotelSummary -> (int, int), k: (int, int))
    ensures WithKey(Insert(h, s, key), key, k) == WithKey([h] + s, key, k)
    decreases |s|
  {
    if |s| > 0 && !KeyLe(key(h), key(s[0])) {
      var tail := Insert(h, s[1..], key);
      assert Insert(h, s, key) == [s[0]] + tail;
      assert s == [s[0]] + s[1..];
      InsertStable(h, s[1..], key, k);
      WithKeyAppend([s[0]], tail, key, k);
      WithKeyAppend([h], s[1..], key, k);
      WithKeyAppend([s[0]], s[1..], key, k);
      WithKeyAppend([h], s, key, k);
      WithKeyOne(h, key, k);
      WithKeyOne(s[0], key, k);
      var first, other, rest := WithKey([s[0]], key, k), WithKey([h], key, k), WithKey(s[1..], key, k);
      assert first == [] || other == [];
      Associative(first, other, rest);
      Associative(other, first, rest);
    }
  }

  lemma {:induction false} SortByStable(s: seq<HotelSummary>, key: HotelSummary -> (int, int), k: (int, int))
    ensures WithKey(SortBy(s, key), key, k) == WithKey(s, key, k)
    decreases |s|
  {
    if |s| > 0 {
      SortByStable(s[1..], key, k);
      InsertStable(s[0], SortBy(s[1..], key), key, k);
      WithKeyAppend([s[0]], SortBy(s[1..], key), key, k);
      assert s == [s[0]] + s[1..];
      WithKeyAppend([s[0]], s[1..], key, k);
    }
  }

  /**
   * `sorted(s, key=key)[:n]` keeps the `n` least elements: sorted, drawn from `s`, no
   * element left out has a smaller key than one kept, and equal keys keep input order.
   */
  lemma TopK(s: seq<HotelSummary>, key: HotelSummary -> (int, int), n: nat)
    ensures var r := Take(SortBy(s, key), n);
      && |r| == (if n <= |s| then n else |s|)
      && SortedBy(r, key)
      && multiset(r) <= multiset(s)
      && (forall x, i :: x in multiset(s) - multiset(r) && 0 <= i < |r| ==> KeyLe(key(r[i]), key(x)))
      && (forall k :: IsPrefixOf(WithKey(r, key, k), WithKey(s, key, k)))
  {
    var sorted := SortBy(s, key);
    SortBySorted(s, key);
    assert |sorted| == |s| by {
      assert |multiset(sorted)| == |multiset(s)|;
    }
    var m := if n <= |sorted| then n else |sorted|;
    var r := Take(sorted, n);
    assert r == sorted[..m];
    assert sorted == r + sorted[m..];
    SortedSplit(sorted, m, key);
    assert multiset(s) - multiset(r) == multiset(sorted[m..]);
    forall k ensures IsPrefixOf(WithKey(r, key, k), WithKey(s, key, k)) {
      SortByStable(s, key, k);
      WithKeyAppend(r, sorted[m..], key, k);
    }
  }

  /** Cutting a sorted sequence: the front stays sorted and no key behind the cut is smaller. */
  lemma SortedSplit(sorted: seq<HotelSummary>, m: nat, key: HotelSummary -> (int, int))
    requires SortedBy(sorted, key) && m <= |sorted|
    ensures SortedBy(sorted[..m], key)
    ensures forall x, i :: x in multiset(sorted[m..]) && 0 <= i < m ==> KeyLe(key(sorted[..m][i]), key(x))
  {
    forall x, i | x in multiset(sorted[m..]) && 0 <= i < m ensures KeyLe(key(sorted[..m][i]), key(x)) {
      var j :| 0 <= j < |sorted[m..]| && sorted[m..][j] == x;
      assert sorted[m + j] == x && sorted[i] == sorted[..m][i];
    }
  }

  predicate IsPrefixOf(a: seq<HotelSummary>, b: seq<HotelSummary>) {
    |a| <= |b| && b[..|a|] == a
  }

  // ---------------------------------------------------------------------------
  // The client-side orderings of the search

  function PriceDescending(h: HotelSummary): (int, int) { (-h.price, 0) }

  function PriceThenDistance(h: HotelSummary): (int, int) { (h.price, h.distance) }

  /** `_sort_hotels_from_high_to_low`: by price, dearest first, cut to `limit`. */
  function SortHotelsFromHighToLow(hotels: seq<HotelSummary>, limit: nat): seq<HotelSummary> {
    Take(SortBy(hotels, PriceDescending), limit)
  }

  /**
   * The `limit` dearest hotels, dearest first; among equal prices the input order is
   * kept (a reverse sort in Python is stable too); a hotel left out costs no more than
   * any kept one.
   */
  lemma HighToLowKeepsDearest(hotels: seq<HotelSummary>, limit: nat)
    ensures var r := SortHotelsFromHighToLow(hotels, limit);
      && |r| == (if limit <= |hotels| then limit else |hotels|)
      && (forall i, j :: 0 <= i < j < |r| ==> r[i].price >= r[j].price)
      && multiset(r) <= multiset(hotels)
      && (forall x, i :: x in multiset(hotels) - multiset(r) && 0 <= i < |r| ==> x.price <= r[i].price)
      && (forall p :: IsPrefixOf(WithPrice(r, p), WithPrice(hotels, p)))
  {
    var r := SortHotelsFromHighToLow(hotels, limit);
    TopK(hotels, PriceDescending, limit);
    DescendingKeysArePrices(r, multiset(hotels) - multiset(r));
    SamePriceOrder(r, hotels);
  }

  /** Keeping the order among equal `PriceDescending` keys is keeping it among equal prices. */
  lemma SamePriceOrder(r: seq<HotelSummary>, hotels: seq<HotelSummary>)
    requires forall k :: IsPrefixOf(WithKey(r, PriceDescending, k), WithKey(hotels, PriceDescending, k))
    ensures forall p :: IsPrefixOf(WithPrice(r, p), WithPrice(hotels, p))
  {
    forall p ensures IsPrefixOf(WithPrice(r, p), WithPrice(hotels, p)) {
      WithPriceIsWithKey(r, p);
      WithPriceIsWithKey(hotels, p);
      assert IsPrefixOf(WithKey(r, PriceDescending, (-p, 0)), WithKey(hotels, PriceDescending, (-p, 0)));
    }
  }

  /** Ordered by `PriceDescending` means ordered by price, dearest first, and so for the hotels left out. */
  lemma DescendingKeysArePrices(r: seq<HotelSummary>, out: multiset<HotelSummary>)
    requires SortedBy(r, PriceDescending)
    requires forall x, i :: x in out && 0 <= i < |r| ==> KeyLe(PriceDescending(r[i]), PriceDescending(x))
    ensures forall i, j :: 0 <= i < j < |r| ==> r[i].price >= r[j].price
    ensures forall x, i :: x in out && 0 <= i < |r| ==> x.price <= r[i].price
  {
    forall i, j | 0 <= i < j < |r| ensures r[i].price >= r[j].price {
      assert KeyLe(PriceDescending(r[i]), PriceDescending(r[j]));
    }
    forall x, i | x in out && 0 <= i < |r| ensures x.price <= r[i].price {
      assert KeyLe(PriceDescending(r[i]), PriceDescending(x));
    }
  }

  lemma {:induction false} WithPriceIsWithKey(s: seq<HotelSummary>, p: int)
    ensures WithPrice(s, p) == WithKey(s, PriceDescending, (-p, 0))
    decreases |s|
  {
    if |s| > 0 {
      WithPriceIsWithKey(s[1..], p);
      assert PriceDescending(s[0]) == (-p, 0) <==> s[0].price == p;
      assert WithPrice(s, p) == (if s[0].price == p then [s[0]] else []) + WithPrice(s[1..], p);
      assert WithKey(s, PriceDescending, (-p, 0))
          == (if PriceDescending(s[0]) == (-p, 0) then [s[0]] else []) + WithKey(s[1..], PriceDescending, (-p, 0));
    }
  }

  /** The hotels priced `p`, in order. */
  function WithPrice(s: seq<HotelSummary>, p: int): seq<HotelSummary> {
    Filter(s, (x: HotelSummary) => x.price == p)
  }

  /**
   * `_sort_hotels_by_distance_limit`: the hotels closer than `distance`, by price and
   * then by distance, cheapest first, cut to `limit`.
   */
  function SortHotelsByDistanceLimit(hotels: seq<HotelSummary>, distance: int, limit: nat): seq<HotelSummary> {
    Take(SortBy(Filter(hotels, (h: HotelSummary) => h.distance < distance), PriceThenDistance), limit)
  }

  lemma {:induction false} FilterMultiset(s: seq<HotelSummary>, p: HotelSummary -> bool)
    ensures multiset(Filter(s, p)) <= multiset(s)
    decreases |s|
  {
    if |s| > 0 {
      FilterMultiset(s[1..], p);
      assert s == [s[0]] + s[1..];
    }
  }

  /**
   * Only hotels strictly closer than the cutoff are kept, cheapest first (nearer first at
   * equal price), at most `limit` of them; a close enough hotel left out is not
   * cheaper than, and at equal price not nearer than, any kept one.
   */
  lemma DistanceLimitKeepsCheapestClose(hotels: seq<HotelSummary>, distance: int, limit: nat)
    ensures var r := SortHotelsByDistanceLimit(hotels, distance, limit);
      var close := Filter(hotels, (h: HotelSummary) => h.distance < distance);
      && |r| == (if limit <= |close| then limit else |close|)
      && (forall i :: 0 <= i < |r| ==> r[i].distance < distance)
      && (forall i, j :: 0 <= i < j < |r| ==> KeyLe(PriceThenDistance(r[i]), PriceThenDistance(r[j])))
      && multiset(r) <= multiset(hotels)
      && (forall x, i :: x in multiset(close) - multiset(r) && 0 <= i < |r| ==>
            KeyLe(PriceThenDistance(r[i]), PriceThenDistance(x)))
      && (forall k :: IsPrefixOf(WithKey(r, PriceThenDistance, k), WithKey(close, PriceThenDistance, k)))
  {
    var close := Filter(hotels, (h: HotelSummary) => h.distance < distance);
    var r := SortHotelsByDistanceLimit(hotels, distance, limit);
    TopK(close, PriceThenDistance, limit);
    FilterMultiset(hotels, (h: HotelSummary) => h.distance < distance);
    forall i | 0 <= i < |r| ensures r[i].distance < distance {
      assert r[i] in multiset(r);
      assert r[i] in close;
    }
  }

  // ---------------------------------------------------------------------------
  // search_hotels_for_location

  /** `{"max": high_price, "min": low_price}`; a missing bound is sent as `null`. */
  datatype PriceFilter = PriceFilter(max: Option<int>, min: Option<int>)

  /**
   * The parts of the list payload that vary; the currency, locales, site id, room,
   * starting index and availability filter are the same in every search.
   */
  datatype ListPayload = ListPayload(
    regionId: string,
    checkIn: Date,
    checkOut: Date,
    resultsSize: int,
    sort: Option<string>,
    price: Option<PriceFilter>)

  predicate IsSearchCommand(command: string) {
    command == "/low" || command == "/high" || command == "/bestdeals"
  }

  /** The payload for a command; `None` for any other command, which is answered `(False, [])`. */
  function SearchPayload(regionId: string, limit: int, checkIn: Date, checkOut: Date,
                         lowPrice: Option<int>, highPrice: Option<int>, command: string): (r: Option<ListPayload>)
    ensures r.Some? <==> IsSearchCommand(command)
    ensures r.Some? ==> r.value.regionId == regionId && r.value.checkIn == checkIn && r.value.checkOut == checkOut
    ensures r.Some? ==> (r.value.resultsSize == limit <==> command == "/low" || limit == 200)
    ensures r.Some? && command != "/low" ==> r.value.resultsSize == 200
    ensures r.Some? ==> (r.value.sort.None? <==> command == "/high")
    ensures command == "/low" ==> r.value.sort == Some("PRICE_LOW_TO_HIGH")
    ensures command == "/bestdeals" ==> r.value.sort == Some("DISTANCE")
    ensures r.Some? ==> (r.value.price.Some? <==> command == "/bestdeals")
    ensures command == "/bestdeals" ==> r.value.price == Some(PriceFilter(highPrice, lowPrice))
  {
    var base := ListPayload(regionId, checkIn, checkOut, limit, None, None);
    if command == "/low" then Some(base.(sort := Some("PRICE_LOW_TO_HIGH")))
    else if command == "/high" then Some(base.(resultsSize := 200))
    else if command == "/bestdeals" then
      Some(base.(sort := Some("DISTANCE"), resultsSize := 200, price := Some(PriceFilter(highPrice, lowPrice))))
    else None
  }

  /** One property: its id and name, the amount of its lead price, its distance. */
  function ParseHotel(item: Json): Option<HotelSummary> {
    match (StringAt(item, ["id"]), StringAt(item, ["name"]),
           NumberAt(item, ["price", "lead", "amount"]),
           NumberAt(item, ["destinationInfo", "distanceFromDestination", "value"]))
    case (Some(id), Some(name), Some(price), Some(distance)) => Some(HotelSummary(id, name, price, distance))
    case _ => None
  }

  /** Each property as the loop of `search_hotels_for_location` reads it, in order. */
  function ParsedItems(items: seq<Json>): (r: seq<Option<HotelSummary>>)
    ensures |r| == |items|
    ensures forall i :: 0 <= i < |items| ==> r[i] == ParseHotel(items[i])
  {
    seq(|items|, i requires 0 <= i < |items| => ParseHotel(items[i]))
  }

  /** All properties, or `None` as soon as one raises. */
  function ParseHotels(parsed: seq<Option<HotelSummary>>): Option<seq<HotelSummary>>
    decreases |parsed|
  {
    if |parsed| == 0 then Some([])
    else
      match parsed[0]
      case None => None
      case Some(h) => Prepend([h], ParseHotels(parsed[1..]))
  }

  function Prepend(parsed: seq<HotelSummary>, rest: Option<seq<HotelSummary>>): Option<seq<HotelSummary>> {
    match rest
    case None => None
    case Some(hotels) => Some(parsed + hotels)
  }

  lemma PrependNothing(rest: Option<seq<HotelSummary>>)
    ensures Prepend([], rest) == rest
  {
    if rest.Some? {
      assert [] + rest.value == rest.value;
    }
  }

  lemma PrependTwice(a: seq<HotelSummary>, b: seq<HotelSummary>, rest: Option<seq<HotelSummary>>)
    ensures Prepend(a, Prepend(b, rest)) == Prepend(a + b, rest)
  {
    if rest.Some? {
      assert a + (b + rest.value) == (a + b) + rest.value;
    }
  }

  /** The list parses exactly when every property does, and then item by item. */
  lemma {:induction false} ParseHotelsAll(parsed: seq<Option<HotelSummary>>)
    ensures ParseHotels(parsed).Some? <==> forall i :: 0 <= i < |parsed| ==> parsed[i].Some?
    ensures ParseHotels(parsed).Some? ==> |ParseHotels(parsed).value| == |parsed|
    ensures ParseHotels(parsed).Some? ==>
      forall i :: 0 <= i < |parsed| ==> parsed[i] == Some(ParseHotels(parsed).value[i])
    decreases |parsed|
  {
    if |parsed| > 0 {
      ParseHotelsAll(parsed[1..]);
      var head := parsed[0];
      var rest := ParseHotels(parsed[1..]);
      if head.Some? && rest.Some? {
        var all := [head.value] + rest.value;
        assert ParseHotels(parsed) == Some(all);
        forall i | 0 <= i < |parsed| ensures parsed[i] == Some(all[i]) {
          if i > 0 {
            assert parsed[i] == parsed[1..][i - 1];
          }
        }
      } else if head.Some? {
        var k :| 0 <= k < |parsed[1..]| && parsed[1..][k].None?;
        assert parsed[k + 1] == parsed[1..][k];
      }
    }
  }

  function PropertiesOf(body: Json): Option<seq<HotelSummary>> {
    match At(body, ["data", "propertySearch", "properties"])
    case None => None
    case Some(properties) =>
      match Elements(properties)
      case None => None
      case Some(items) => ParseHotels(ParsedItems(items))
  }

  /**
   * What `search_hotels_for_location` answers: `(False, [])` for an unknown command, a
   * failed request or a reply that does not parse; otherwise `True` and the hotels as
   * sent for `/low`, re-sorted and cut for `/high` and `/bestdeals`. Without a distance
   * `/bestdeals` answers `(True, None)` as soon as one hotel was found: the comparison
   * with `None` raises inside the sorting helper, whose wrapper returns `None`. With no
   * hotel the filter never compares, and the answer is `(True, [])`.
   */
  function SearchResult(hotels: Option<seq<HotelSummary>>, limit: nat, distance: Option<int>, command: string)
    : (r: (bool, Option<seq<HotelSummary>>))
    ensures !r.0 ==> r.1 == Some([])
    ensures r.0 <==> hotels.Some? && IsSearchCommand(command)
  {
    if !IsSearchCommand(command) || hotels.None? then (false, Some([]))
    else if command == "/high" then (true, Some(SortHotelsFromHighToLow(hotels.value, limit)))
    else if command == "/bestdeals" then
      match distance
      case None => if |hotels.value| == 0 then (true, Some([])) else (true, None)
      case Some(d) => (true, Some(SortHotelsByDistanceLimit(hotels.value, d, limit)))
    else (true, hotels)
  }

  /**
   * What a successful search hands back, per command: `/low` the hotels as the API
   * sorted them; `/high` the `limit` dearest, dearest first; `/bestdeals` with a
   * distance only hotels closer than it, cheapest and then nearest first, at most
   * `limit`; `/bestdeals` without one fails to answer a list exactly when a hotel was found.
   */
  lemma SearchAnswers(hotels: seq<HotelSummary>, limit: nat, distance: Option<int>, command: string)
    requires IsSearchCommand(command)
    ensures SearchResult(Some(hotels), limit, distance, command).0
    ensures command == "/low" ==> SearchResult(Some(hotels), limit, distance, command).1 == Some(hotels)
    ensures command == "/high" ==>
      var r := SearchResult(Some(hotels), limit, distance, command).1;
      && r.Some?
      && |r.value| == (if limit <= |hotels| then limit else |hotels|)
      && (forall i, j :: 0 <= i < j < |r.value| ==> r.value[i].price >= r.value[j].price)
      && multiset(r.value) <= multiset(hotels)
      && (forall x, i :: x in multiset(hotels) - multiset(r.value) && 0 <= i < |r.value| ==> x.price <= r.value[i].price)
    ensures command == "/bestdeals" && distance.Some? ==>
      var r := SearchResult(Some(hotels), limit, distance, command).1;
      && r.Some?
      && |r.value| <= limit
      && (forall i :: 0 <= i < |r.value| ==> r.value[i].distance < distance.value)
      && (forall i, j :: 0 <= i < j < |r.value| ==> KeyLe(PriceThenDistance(r.value[i]), PriceThenDistance(r.value[j])))
      && multiset(r.value) <= multiset(hotels)
    ensures command == "/bestdeals" && distance.None? ==>
      (SearchResult(Some(hotels), limit, distance, command).1.None? <==> |hotels| > 0)
  {
    if command == "/high" {
      assert SearchResult(Some(hotels), limit, distance, command).1 == Some(SortHotelsFromHighToLow(hotels, limit));
      HighToLowKeepsDearest(hotels, limit);
    } else if command == "/bestdeals" && distance.Some? {
      assert SearchResult(Some(hotels), limit, distance, command).1
          == Some(SortHotelsByDistanceLimit(hotels, distance.value, limit));
      DistanceLimitKeepsCheapestClose(hotels, distance.value, limit);
    }
  }

  /** The parsing loop of `search_hotels_for_location`: every property in order, or a reading error. */
  method ParseProperties(items: seq<Option<HotelSummary>>) returns (parsed: Option<seq<HotelSummary>>)
    ensures parsed == ParseHotels(items)
  {
    var hotels: seq<HotelSummary> := [];
    var i := 0;
    assert items[0..] == items;
    PrependNothing(ParseHotels(items));
    while i < |items|
      invariant 0 <= i <= |items|
      invariant Prepend(hotels, ParseHotels(items[i..])) == ParseHotels(items)
    {
      assert items[i..][0] == items[i] && items[i..][1..] == items[i + 1..];
      var h := items[i];
      if h.None? {
        return None;
      }
      PrependTwice(hotels, [h.value], ParseHotels(items[i + 1..]));
      hotels := hotels + [h.value];
      i := i + 1;
    }
    assert items[i..] == [];
    assert hotels + [] == hotels;
    return Some(hotels);
  }

  /** What the search answers for the reply `properties` gives to its payload. */
  function SearchOutcome(regionId: string, limit: nat, checkIn: Date, checkOut: Date,
                         distance: Option<int>, lowPrice: Option<int>, highPrice: Option<int>,
                         command: string, properties: ListPayload -> ApiReply): (r: (bool, Option<seq<HotelSummary>>))
    ensures !IsSearchCommand(command) ==> r == (false, Some([]))
  {
    match SearchPayload(regionId, limit, checkIn, checkOut, lowPrice, highPrice, command)
    case None => (false, Some([]))
    case Some(payload) =>
      var reply := properties(payload);
      SearchResult(if reply.ok then PropertiesOf(reply.body) else None, limit, distance, command)
  }

  /** `search_hotels_for_location`, with the list endpoint given as `properties`. */
  method SearchHotelsForLocation(regionId: string, limit: nat, checkIn: Date, checkOut: Date,
                                 distance: Option<int>, lowPrice: Option<int>, highPrice: Option<int>,
                                 command: string, properties: ListPayload -> ApiReply)
    returns (ok: bool, hotels: Option<seq<HotelSummary>>)
    ensures (ok, hotels)
         == SearchOutcome(regionId, limit, checkIn, checkOut, distance, lowPrice, highPrice, command, properties)
  {
    var payload := SearchPayload(regionId, limit, checkIn, checkOut, lowPrice, highPrice, command);
    if payload.None? {
      return false, Some([]);
    }
    var reply := properties(payload.value);
    if !reply.ok {
      return false, Some([]);
    }
    var found := At(reply.body, ["data", "propertySearch", "properties"]);
    if found.None? {
      return false, Some([]);
    }
    var walked := Elements(found.value);
    if walked.None? {
      return false, Some([]);
    }
    var parsed := ParseProperties(ParsedItems(walked.value));
    if parsed.None? {
      return false, Some([]);
    }
    if command == "/high" {
      hotels := Some(SortHotelsFromHighToLow(parsed.value, limit));
    } else if command == "/bestdeals" {
      if distance.None? && |parsed.value| > 0 {
        return true, None;
      }
      if distance.None? {
        return true, Some([]);
      }
      hotels := Some(SortHotelsByDistanceLimit(parsed.value, distance.value, limit));
    } else {
      hotels := parsed;
    }
    ok := true;
  }

  // ---------------------------------------------------------------------------
  // get_hotel_details

  /** The address line of the details, or the placeholder `не найден` when it cannot be read. */
  function AddressOf(body: Json): string {
    match StringAt(body, ["data", "propertyInfo", "summary", "location", "address", "addressLine"])
    case Some(address) => address
    case None => "не найден"
  }

  /** The urls of the images up to the first one that cannot be read. */
  function UrlsOf(items: seq<Json>): (r: seq<string>)
    ensures |r| <= |items|
    ensures forall i :: 0 <= i < |r| ==> StringAt(items[i], ["image", "url"]) == Some(r[i])
    ensures (forall i :: 0 <= i < |items| ==> StringAt(items[i], ["image", "url"]).Some?) ==> |r| == |items|
    decreases |items|
  {
    if |items| == 0 then []
    else
      assert forall i :: 0 <= i < |items[1..]| ==> items[1..][i] == items[i + 1];
      match StringAt(items[0], ["image", "url"])
      case None => []
      case Some(url) => [url] + UrlsOf(items[1..])
  }

  /** The first `limit` entries of `propertyGallery.images`, as far as they can be read. */
  function ImageUrls(body: Json, limit: nat): seq<string> {
    match Gallery(body)
    case None => []
    case Some(gallery) =>
      match SliceTo(gallery, limit)
      case None => []
      case Some(cut) =>
        match Elements(cut)
        case None => []
        case Some(items) => UrlsOf(items)
  }

  /** The images endpoint path of the details. */
  function Gallery(body: Json): Option<Json> {
    At(body, ["data", "propertyInfo", "propertyGallery", "images"])
  }

  /** Never more than `limit` photos. */
  lemma ImageUrlsBounded(body: Json, limit: nat)
    ensures |ImageUrls(body, limit)| <= limit
  {
    match Gallery(body)
    case None =>
    case Some(gallery) =>
      match gallery
      case JArr(items) =>
        assert |Take(items, limit)| <= limit;
      case JStr(s) =>
        assert |Elements(JStr(Take(s, limit))).value| == |Take(s, limit)|;
      case _ =>
  }

  /** With a readable gallery list the photos are exactly the urls of its first `limit` entries. */
  lemma ImageUrlsOfList(body: Json, limit: nat, items: seq<Json>)
    requires Gallery(body) == Some(JArr(items))
    requires forall i :: 0 <= i < |items| ==> StringAt(items[i], ["image", "url"]).Some?
    ensures |ImageUrls(body, limit)| == if limit <= |items| then limit else |items|
    ensures forall i :: 0 <= i < |ImageUrls(body, limit)| ==>
      StringAt(items[i], ["image", "url"]) == Some(ImageUrls(body, limit)[i])
  {
    var cut := Take(items, limit);
    assert forall i :: 0 <= i < |cut| ==> cut[i] == items[i];
    assert ImageUrls(body, limit) == UrlsOf(cut);
  }

  /**
   * `get_hotel_details`: `(False, '', [])` when the request fails; otherwise `True`, the
   * address (or its placeholder), and the photo urls only when they were asked for.
   */
  method GetHotelDetails(hotelId: string, isImagesNeeded: bool, imageLimit: nat, details: string -> ApiReply)
    returns (ok: bool, address: string, images: seq<string>)
    ensures ok == details(hotelId).ok
    ensures !ok ==> address == "" && images == []
    ensures ok ==> address == AddressOf(details(hotelId).body)
    ensures ok ==> images == if isImagesNeeded then ImageUrls(details(hotelId).body, imageLimit) else []
    ensures |images| <= imageLimit
  {
    var reply := details(hotelId);
    if !reply.ok {
      return false, "", [];
    }
    ok, address, images := true, AddressOf(reply.body), [];
    if !isImagesNeeded {
      return;
    }
    ImageUrlsBounded(reply.body, imageLimit);
    var gallery := Gallery(reply.body);
    if gallery.None? {
      return;
    }
    var cut := SliceTo(gallery.value, imageLimit);
    if cut.None? {
      return;
    }
    var walked := Elements(cut.value);
    if walked.None? {
      return;
    }
    images := CollectUrls(walked.value);
  }

  /** The loop of `get_hotel_details` over the gallery: the urls up to the first image without one. */
  method CollectUrls(items: seq<Json>) returns (urls: seq<string>)
    ensures urls == UrlsOf(items)
  {
    urls := [];
    var i := 0;
    while i < |items|
      invariant 0 <= i <= |items|
      invariant urls + UrlsOf(items[i..]) == UrlsOf(items)
    {
      assert items[i..][0] == items[i] && items[i..][1..] == items[i + 1..];
      var url := StringAt(items[i], ["image", "url"]);
      if url.None? {
        assert urls + [] == urls;
        return;
      }
      Associative(urls, [url.value], UrlsOf(items[i + 1..]));
      urls := urls + [url.value];
      i := i + 1;
    }
    assert items[i..] == [];
    assert urls + [] == urls;
  }
}
