/**
 * The hotel-search dialogue (handlers/custom_handlers/hotels.py). A conversation is
 * the chat library's stored entry for one private chat: the current state, absent
 * when no entry is stored, and the data record the handlers fill in. Each handler is
 * a step function over the conversation and, for the last step, the history tables;
 * the `Dialogue` class runs the same handlers by updating its fields in place.
 *
 * A handler that raises is stopped by its exception-logging wrapper: what it sent and
 * wrote before the raise stays, the rest does not happen.
 */
module HotelsHandlers {
  import opened Common
  import opened Text
  import opened Config
  import opened Models
  import opened Crud
  import opened HotelQuery
  import opened HotelsService
  import opened CitiesKeyboard

  /** The data dictionary of a conversation; `None` is a key that was never written. */
  datatype Record = Record(
    command: Option<string>,
    city: Option<string>,
    cityId: Option<string>,
    hotelsCount: Option<nat>,
    enterDate: Option<Date>,
    endDate: Option<Date>,
    totalDays: Option<int>,
    isImagesNeeded: Option<bool>,
    imagesCount: Option<nat>,
    distance: Option<int>,
    lowPrice: Option<int>,
    highPrice: Option<int>)

  const EmptyRecord: Record := Record(None, None, None, None, None, None, None, None, None, None, None, None)

  /** The stored entry of the chat: no state means no entry at all. */
  datatype Conv = Conv(state: Option<QueryState>, data: Record)

  const Idle: Conv := Conv(None, EmptyRecord)

  /**
   * What every handler keeps true: without an entry there is no data, and
   * `total_days` is stored exactly when `end_date` is, as their difference.
   */
  predicate Consistent(c: Conv) {
    && (c.state.None? ==> c.data == EmptyRecord)
    && (c.data.endDate.Some? <==> c.data.totalDays.Some?)
    && (c.data.endDate.Some? ==> c.data.enterDate.Some? && c.data.totalDays.value == c.data.endDate.value - c.data.enterDate.value)
  }

  /** The messages the bot sends, each standing for its fixed text or for its keyboard. */
  datatype Reply =
    | AskCityName
    | ChooseCity(keyboard: seq<seq<Button>>)
    | NothingFound(city: string)
    | CitiesRequestFailed
    | AskHotelsCount
    | HotelsCountError
    | ShowCalendar
    | CalendarPage
    | AskEndDate
    | CloseCalendar
    | AskImagesNeeded
    | AskImagesCount
    | ImagesCountError
    | AskDistance
    | AskLowPrice
    | NegativePrice
    | AskHighPrice
    | HighBelowLow
    | HotelCard(name: string, price: int, total: int, distance: int, address: string)
    | Photo(url: string)
    | DetailsFailed(name: string)
    | SearchDone
    | NoResults
    | BadCityName
    | NotANumber

  /**
   * What the calendar widget makes of a pressed button: a page turn, a picked day,
   * or nothing. The widget is given the earliest day it may offer.
   */
  datatype CalendarPick = Navigate | Picked(day: Date) | NoPick

  /** The widget never offers a day before the minimum it was given. */
  ghost predicate RespectsMinimum(calendar: Date -> CalendarPick) {
    forall earliest: Date :: calendar(earliest).Picked? ==> calendar(earliest).day >= earliest
  }

  /**
   * The outside world of a dialogue step: the three endpoints of the hotel API, the
   * calendar widget, today's date, the current time as stored in `created_at`, and
   * which database calls fail.
   */
  datatype Services = Services(
    locations: string -> ApiReply,
    properties: ListPayload -> ApiReply,
    details: string -> ApiReply,
    calendar: Date -> CalendarPick,
    today: Date,
    now: string,
    fails: DbOp -> bool)

  /** The stored data as `set_state` leaves it: a missing entry is created empty. */
  function Entry(c: Conv): Record {
    if c.state.None? then EmptyRecord else c.data
  }

  function SetState(c: Conv, s: QueryState): Conv {
    Conv(Some(s), Entry(c))
  }

  /** A text the `/high`, `/low` and `/bestdeals` handler takes. */
  predicate IsSearchCommandText(text: string) {
    var name := CommandOf(text);
    name == Some("high") || name == Some("low") || name == Some("bestdeals")
  }

  /** A number the bot accepts: all digits, above 0 and at most `limit`. */
  predicate InRange(text: string, limit: nat) {
    IsDigits(text) && 0 < DigitsValue(text) <= limit
  }

  // ---------------------------------------------------------------------------
  // The handlers as step functions

  /** `initial_point`: the command text is stored as typed and the city is asked for. */
  function CommandStep(c: Conv, text: string): (r: (Conv, seq<Reply>))
    ensures r.0.state == Some(City) && r.1 == [AskCityName]
    ensures r.0.data == Entry(c).(command := Some(text))
    ensures Consistent(c) ==> Consistent(r.0)
  {
    (Conv(Some(City), Entry(c).(command := Some(text))), [AskCityName])
  }

  /**
   * `ask_city`: the city choice is offered, and the state moves to `city_id`, only when
   * the lookup succeeds with at least one city and every button can be built; an empty
   * result and a failed lookup get their own messages. The data never changes.
   */
  function CityStep(c: Conv, text: string, locations: string -> ApiReply): (r: (Conv, seq<Reply>))
    ensures var reply := locations(text); var cities := ParsedCities(reply.body);
      && (reply.ok && |cities| > 0 && Keyboard(cities).Some? ==>
            r == (SetState(c, CityId), [ChooseCity(Keyboard(cities).value)]))
      && (reply.ok && |cities| > 0 && Keyboard(cities).None? ==> r == (c, []))
      && (reply.ok && |cities| == 0 ==> r == (c, [NothingFound(text)]))
      && (!reply.ok ==> r == (c, [CitiesRequestFailed]))
    ensures c.state.Some? ==> r.0.data == c.data
    ensures Consistent(c) ==> Consistent(r.0)
  {
    var reply := locations(text);
    var cities := ParsedCities(reply.body);
    if reply.ok && |cities| > 0 then
      match Keyboard(cities)
      case None => (c, [])
      case Some(rows) => (SetState(c, CityId), [ChooseCity(rows)])
    else if reply.ok then (c, [NothingFound(text)])
    else (c, [CitiesRequestFailed])
  }

  /**
   * `city_callback`, in any state: the second `:`-piece of the data is stored as the
   * city id, the third as the city name, and the hotel count is asked for.
   */
  function CityChosenStep(c: Conv, data: string): (r: (Conv, seq<Reply>))
    ensures |Split(data, ':')| < 3 ==> r == (c, [])
    ensures |Split(data, ':')| >= 3 ==>
      && r.0.state == Some(HotelsCount) && r.1 == [AskHotelsCount]
      && r.0.data == Entry(c).(cityId := Some(Split(data, ':')[1]), city := Some(Split(data, ':')[2]))
    ensures Consistent(c) ==> Consistent(r.0)
  {
    match ChosenCity(data)
    case None => (c, [])
    case Some((id, name)) => (Conv(Some(HotelsCount), Entry(c).(city := Some(name), cityId := Some(id))), [AskHotelsCount])
  }

  /**
   * `ask_enter_date`: the count is accepted iff it is all digits and between 1 and
   * `HOTEL_REQUESTS_LIMIT`; then it is stored and the check-in calendar shown;
   * otherwise an error is sent and nothing changes.
   */
  function HotelsCountStep(c: Conv, text: string): (r: (Conv, seq<Reply>))
    ensures InRange(text, HOTEL_REQUESTS_LIMIT) ==>
      r == (Conv(Some(EnterDate), Entry(c).(hotelsCount := Some(DigitsValue(text)))), [ShowCalendar])
    ensures !InRange(text, HOTEL_REQUESTS_LIMIT) ==> r == (c, [HotelsCountError])
    ensures Consistent(c) ==> Consistent(r.0)
  {
    if InRange(text, HOTEL_REQUESTS_LIMIT) then
      (Conv(Some(EnterDate), Entry(c).(hotelsCount := Some(DigitsValue(text)))), [ShowCalendar])
    else (c, [HotelsCountError])
  }

  /**
   * `start_end_date_call`, in any state with a stored entry. The first picked day is
   * the check-in, kept once set; the next one, offered from the day after check-in,
   * is the check-out, and then `total_days` is stored and the images question asked.
   * Once both days are stored, presses change nothing and send nothing.
   */
  function DateStep(c: Conv, calendar: Date -> CalendarPick, today: Date): (r: (Conv, seq<Reply>))
    ensures c.state.None? || (c.data.enterDate.Some? && c.data.endDate.Some?) ==> r == (c, [])
    ensures c.data.enterDate.Some? ==> r.0.data.enterDate == c.data.enterDate
    ensures r.0.data.enterDate != c.data.enterDate ==>
      && c.data.enterDate.None? && r.0.state == c.state && r.1 == [AskEndDate]
      && r.0.data == c.data.(enterDate := r.0.data.enterDate)
      && (RespectsMinimum(calendar) ==> r.0.data.enterDate.value >= today)
    ensures r.0.data.endDate != c.data.endDate ==>
      && c.data.enterDate.Some? && c.data.endDate.None?
      && r.0.state == Some(IsImagesNeeded) && r.1 == [CloseCalendar, AskImagesNeeded]
      && r.0.data == c.data.(endDate := r.0.data.endDate, totalDays := r.0.data.totalDays)
      && r.0.data.totalDays == Some(r.0.data.endDate.value - c.data.enterDate.value)
      && (RespectsMinimum(calendar) ==> r.0.data.totalDays.value >= 1)
    ensures r.0.data.enterDate == c.data.enterDate && r.0.data.endDate == c.data.endDate ==> r.0 == c
    ensures Consistent(c) ==> Consistent(r.0)
  {
    if c.state.None? then (c, [])
    else
      var d := c.data;
      var pick :=
        if d.enterDate.None? then calendar(today)
        else if d.endDate.None? then calendar(d.enterDate.value + 1)
        else NoPick;
      match pick
      case Navigate => (c, [CalendarPage])
      case NoPick => (c, [])
      case Picked(day) =>
        if d.enterDate.None? then (Conv(c.state, d.(enterDate := Some(day))), [AskEndDate])
        else if d.endDate.None? then
          (Conv(Some(IsImagesNeeded), d.(endDate := Some(day), totalDays := Some(day - d.enterDate.value))),
           [CloseCalendar, AskImagesNeeded])
        else (c, [])
  }

  /** `final_step` reads these keys in its log line; a missing one raises `KeyError`. */
  predicate HasSearchKeys(d: Record) {
    && d.command.Some? && d.city.Some? && d.cityId.Some? && d.enterDate.Some? && d.endDate.Some?
    && d.hotelsCount.Some? && d.isImagesNeeded.Some? && d.imagesCount.Some?
  }

  /** The search `final_step` runs with the stored values. */
  function Search(d: Record, properties: ListPayload -> ApiReply): (bool, Option<seq<HotelSummary>>)
    requires HasSearchKeys(d)
  {
    SearchOutcome(d.cityId.value, d.hotelsCount.value, d.enterDate.value, d.endDate.value,
                  d.distance, d.lowPrice, d.highPrice, d.command.value, properties)
  }

  /** The request row `final_step` stores: the dialogue's values, the user and the time. */
  function QueryOf(d: Record, user: UserId, now: string): (q: Query)
    requires HasSearchKeys(d)
    ensures q.user == user && q.createdAt == now && q.command == d.command.value && q.city == d.city.value
    ensures q.startDate == d.enterDate.value && q.endDate == d.endDate.value && q.hotelsCount == d.hotelsCount.value
    ensures q.distance == d.distance && q.lowPrice == d.lowPrice && q.highPrice == d.highPrice
  {
    Query(now, user, d.command.value, d.city.value, d.enterDate.value, d.endDate.value, d.hotelsCount.value,
          d.isImagesNeeded.value, d.imagesCount.value, d.distance, d.lowPrice, d.highPrice)
  }

  function Photos(urls: seq<string>): seq<Reply> {
    seq(|urls|, i requires 0 <= i < |urls| => Photo(urls[i]))
  }

  /**
   * One found hotel in `final_step`: with its details, a card priced for the whole
   * stay, its photos and the row to store; without, a message and nothing to store.
   */
  function Visit(h: HotelSummary, needImages: bool, imageLimit: nat, days: int, details: string -> ApiReply)
    : (seq<Reply>, seq<SavedHotel>)
  {
    var reply := details(h.id);
    if !reply.ok then ([DetailsFailed(h.name)], [])
    else
      var address := AddressOf(reply.body);
      var images := if needImages then ImageUrls(reply.body, imageLimit) else [];
      ([HotelCard(h.name, h.price, days * h.price, h.distance, address)] + Photos(images),
       [SavedHotel(h.id, h.name, address, h.distance, h.price)])
  }

  /** All found hotels in search order: the messages sent and the hotels to store. */
  function Visits(hotels: seq<HotelSummary>, needImages: bool, imageLimit: nat, days: int,
                  details: string -> ApiReply): (r: (seq<Reply>, seq<SavedHotel>))
    ensures |r.0| >= |hotels| && |r.1| <= |hotels|
    decreases |hotels|
  {
    if |hotels| == 0 then ([], [])
    else
      var v := Visit(hotels[0], needImages, imageLimit, days, details);
      var rest := Visits(hotels[1..], needImages, imageLimit, days, details);
      (v.0 + rest.0, v.1 + rest.1)
  }

  /** Every hotel card prices the whole stay at its nightly price times the number of days. */
  predicate CardsPriced(r: seq<Reply>, days: int) {
    forall i :: 0 <= i < |r| && r[i].HotelCard? ==> r[i].total == days * r[i].price
  }

  predicate NoPhotos(r: seq<Reply>) {
    forall i :: 0 <= i < |r| ==> !r[i].Photo?
  }

  lemma ConcatReplies(a: seq<Reply>, b: seq<Reply>, days: int)
    requires CardsPriced(a, days) && CardsPriced(b, days)
    ensures CardsPriced(a + b, days)
    ensures NoPhotos(a) && NoPhotos(b) ==> NoPhotos(a + b)
  {
    forall i | 0 <= i < |a + b| ensures (a + b)[i] == if i < |a| then a[i] else b[i - |a|] {
    }
  }

  /** Every card prices the whole stay at the nightly price times the number of days; no photo unless asked for. */
  lemma {:induction false} VisitsCards(hotels: seq<HotelSummary>, needImages: bool, imageLimit: nat, days: int,
                                       details: string -> ApiReply)
    ensures CardsPriced(Visits(hotels, needImages, imageLimit, days, details).0, days)
    ensures !needImages ==> NoPhotos(Visits(hotels, needImages, imageLimit, days, details).0)
    decreases |hotels|
  {
    if |hotels| > 0 {
      VisitsCards(hotels[1..], needImages, imageLimit, days, details);
      VisitCards(hotels[0], needImages, imageLimit, days, details);
      ConcatReplies(Visit(hotels[0], needImages, imageLimit, days, details).0,
                    Visits(hotels[1..], needImages, imageLimit, days, details).0, days);
    }
  }

  lemma VisitCards(h: HotelSummary, needImages: bool, imageLimit: nat, days: int, details: string -> ApiReply)
    ensures CardsPriced(Visit(h, needImages, imageLimit, days, details).0, days)
    ensures !needImages ==> NoPhotos(Visit(h, needImages, imageLimit, days, details).0)
  {
    var reply := details(h.id);
    if reply.ok {
      var images := if needImages then ImageUrls(reply.body, imageLimit) else [];
      var v := Visit(h, needImages, imageLimit, days, details).0;
      assert v == [HotelCard(h.name, h.price, days * h.price, h.distance, AddressOf(reply.body))] + Photos(images);
      forall i | 0 < i < |v| ensures v[i].Photo? {
        assert v[i] == Photos(images)[i - 1];
      }
    }
  }

  /** The found hotels whose details could be fetched, in search order. */
  function Detailed(hotels: seq<HotelSummary>, details: string -> ApiReply): seq<HotelSummary> {
    Filter(hotels, (h: HotelSummary) => details(h.id).ok)
  }

  /** The row stored for a hotel with details. */
  function SavedOf(h: HotelSummary, details: string -> ApiReply): SavedHotel {
    SavedHotel(h.id, h.name, AddressOf(details(h.id).body), h.distance, h.price)
  }

  function SavedList(hotels: seq<HotelSummary>, details: string -> ApiReply): (r: seq<SavedHotel>)
    ensures |r| == |hotels|
    ensures forall i :: 0 <= i < |hotels| ==> r[i] == SavedOf(hotels[i], details)
  {
    seq(|hotels|, i requires 0 <= i < |hotels| => SavedOf(hotels[i], details))
  }

  /** The rows for a list with a first hotel: that hotel's row, then the rows of the rest. */
  lemma SavedListCons(h: HotelSummary, rest: seq<HotelSummary>, details: string -> ApiReply)
    ensures SavedList([h] + rest, details) == [SavedOf(h, details)] + SavedList(rest, details)
  {
    var a := SavedList([h] + rest, details);
    var b := [SavedOf(h, details)] + SavedList(rest, details);
    assert |a| == |b|;
    forall i | 0 <= i < |a| ensures a[i] == b[i] {
      if i > 0 {
        assert ([h] + rest)[i] == rest[i - 1];
      }
    }
  }

  /** The hotels with details of a non-empty list: its first hotel if it has details, then those of the rest. */
  lemma DetailedCons(hotels: seq<HotelSummary>, details: string -> ApiReply)
    requires |hotels| > 0
    ensures Detailed(hotels, details)
         == (if details(hotels[0].id).ok then [hotels[0]] else []) + Detailed(hotels[1..], details)
  {
  }

  /** The stored hotels are exactly those with details, in search order, with the fetched address. */
  lemma {:induction false} VisitsStoreDetailed(hotels: seq<HotelSummary>, needImages: bool, imageLimit: nat,
                                               days: int, details: string -> ApiReply)
    ensures Visits(hotels, needImages, imageLimit, days, details).1 == SavedList(Detailed(hotels, details), details)
    decreases |hotels|
  {
    if |hotels| > 0 {
      VisitsStoreDetailed(hotels[1..], needImages, imageLimit, days, details);
      var h := hotels[0];
      var rest := Detailed(hotels[1..], details);
      var restSaved := Visits(hotels[1..], needImages, imageLimit, days, details).1;
      DetailedCons(hotels, details);
      if details(h.id).ok {
        assert Visit(h, needImages, imageLimit, days, details).1 == [SavedOf(h, details)];
        SavedListCons(h, rest, details);
      } else {
        assert Visit(h, needImages, imageLimit, days, details).1 == [];
        assert [] + rest == rest;
        assert [] + restSaved == restSaved;
      }
    }
  }

  /**
   * `final_step`. A missing key stops it before anything is sent, state kept. A failed
   * search sends "no data"; a successful one sends the hotels, then "search finished",
   * then stores the request with the hotels that had details. Both end the entry.
   */
  function FinalOutcome(c: Conv, t: Tables, user: UserId, env: Services): (r: (Conv, Tables, seq<Reply>))
    requires Consistent(c)
    ensures r.0 == c || r.0 == Idle
    ensures !HasSearchKeys(c.data) ==> r == (c, t, [])
    ensures r.1 != t ==> HasSearchKeys(c.data) && Search(c.data, env.properties).0
    ensures HasSearchKeys(c.data) && !Search(c.data, env.properties).0 ==> r == (Idle, t, [NoResults])
    ensures HasSearchKeys(c.data) && Search(c.data, env.properties).0 && Search(c.data, env.properties).1.Some? ==>
      var d := c.data;
      var found := Search(d, env.properties).1.value;
      var v := Visits(found, d.isImagesNeeded.value, d.imagesCount.value, d.totalDays.value, env.details);
      && r.0 == Idle
      && r.2 == v.0 + [SearchDone]
      && r.1 == RecordSearch(t, QueryOf(d, user, env.now), v.1, env.fails).0
  {
    var d := c.data;
    if !HasSearchKeys(d) then (c, t, [])
    else
      var (ok, found) := Search(d, env.properties);
      if !ok then (Idle, t, [NoResults])
      else
        match found
        case None => (c, t, [])
        case Some(hotels) =>
          var v := Visits(hotels, d.isImagesNeeded.value, d.imagesCount.value, d.totalDays.value, env.details);
          (Idle, RecordSearch(t, QueryOf(d, user, env.now), v.1, env.fails).0, v.0 + [SearchDone])
  }

  /**
   * `ask_is_images_needed`: `Да` asks for the number of photos; any other answer
   * stores "no photos", then `/bestdeals` asks for the distance and the other
   * commands run the final step. Without a stored command the answer raises.
   */
  function ImagesNeededStep(c: Conv, t: Tables, text: string, user: UserId, env: Services): (r: (Conv, Tables, seq<Reply>))
    requires Consistent(c)
    ensures text == "Да" ==>
      r == (Conv(Some(ImagesCount), Entry(c).(isImagesNeeded := Some(true), imagesCount := Some(0))), t, [Reply.AskImagesCount])
    ensures text != "Да" && (c.state.None? || c.data.command.None?) ==> r == (c, t, [])
    ensures text != "Да" && c.state.Some? && c.data.command == Some("/bestdeals") ==>
      r == (Conv(Some(Distance), c.data.(isImagesNeeded := Some(false), imagesCount := Some(0))), t, [Reply.AskDistance])
    ensures text != "Да" && c.state.Some? && c.data.command.Some? && c.data.command != Some("/bestdeals") ==>
      r == FinalOutcome(Conv(c.state, c.data.(isImagesNeeded := Some(false), imagesCount := Some(0))), t, user, env)
    ensures Consistent(r.0)
  {
    if text == "Да" then
      (Conv(Some(ImagesCount), Entry(c).(isImagesNeeded := Some(true), imagesCount := Some(0))), t, [Reply.AskImagesCount])
    else if c.state.None? || c.data.command.None? then (c, t, [])
    else
      var c1 := Conv(c.state, c.data.(isImagesNeeded := Some(false), imagesCount := Some(0)));
      if c.data.command == Some("/bestdeals") then (SetState(c1, Distance), t, [Reply.AskDistance])
      else FinalOutcome(c1, t, user, env)
  }

  /**
   * `ask_images_count`: the count is accepted iff it is all digits and between 1 and
   * `HOTEL_PHOTOS_LIMIT`. Then it is stored; `/low` and `/high` run the final step,
   * `/bestdeals` asks for the distance, any other command stays where it is.
   */
  function ImagesCountStep(c: Conv, t: Tables, text: string, user: UserId, env: Services): (r: (Conv, Tables, seq<Reply>))
    requires Consistent(c)
    ensures !InRange(text, HOTEL_PHOTOS_LIMIT) ==> r == (c, t, [ImagesCountError])
    ensures InRange(text, HOTEL_PHOTOS_LIMIT) && c.state.Some? && c.data.command.Some? ==>
      var c1 := Conv(c.state, c.data.(imagesCount := Some(DigitsValue(text))));
      var command := c.data.command.value;
      && (command == "/low" || command == "/high" ==> r == FinalOutcome(c1, t, user, env))
      && (command == "/bestdeals" ==> r == (Conv(Some(Distance), c1.data), t, [Reply.AskDistance]))
      && (!IsSearchCommand(command) ==> r == (c1, t, []))
    ensures r.0.state == Some(Distance) && c.state != Some(Distance) ==> c.data.command == Some("/bestdeals")
    ensures Consistent(r.0)
  {
    if !InRange(text, HOTEL_PHOTOS_LIMIT) then (c, t, [ImagesCountError])
    else if c.state.None? || c.data.command.None? then (c, t, [])
    else
      var c1 := Conv(c.state, c.data.(imagesCount := Some(DigitsValue(text))));
      var command := c.data.command.value;
      if command == "/low" || command == "/high" then FinalOutcome(c1, t, user, env)
      else if command == "/bestdeals" then (SetState(c1, Distance), t, [Reply.AskDistance])
      else (c1, t, [])
  }

  /** `ask_distance`: any digit string is a distance, `0` included; then the lowest price is asked for. */
  function DistanceStep(c: Conv, text: string): (r: (Conv, seq<Reply>))
    requires IsDigits(text)
    ensures r == (Conv(Some(LowPrice), Entry(c).(distance := Some(DigitsValue(text)))), [Reply.AskLowPrice])
    ensures Consistent(c) ==> Consistent(r.0)
  {
    (Conv(Some(LowPrice), Entry(c).(distance := Some(DigitsValue(text)))), [Reply.AskLowPrice])
  }

  /**
   * `ask_low_price`: the price is stored and the highest price asked for. Its check
   * for a negative price never fires, since only digit strings reach it.
   */
  function LowPriceStep(c: Conv, text: string): (r: (Conv, seq<Reply>))
    requires IsDigits(text)
    ensures r.1 == [AskHighPrice] && r.1 != [NegativePrice]
    ensures r.0 == Conv(Some(HighPrice), Entry(c).(lowPrice := Some(DigitsValue(text))))
    ensures Consistent(c) ==> Consistent(r.0)
  {
    var price := DigitsValue(text) as int;
    if price < 0 then (c, [NegativePrice])
    else (Conv(Some(HighPrice), Entry(c).(lowPrice := Some(price))), [AskHighPrice])
  }

  /** `get_high_price` also logs these keys before the final step. */
  predicate HasAllKeys(d: Record) {
    HasSearchKeys(d) && d.distance.Some? && d.lowPrice.Some? && d.highPrice.Some?
  }

  /**
   * `get_high_price`: a price below the stored lowest price is refused with its own
   * message and changes nothing; otherwise it is stored, the final step runs and the
   * entry is deleted whatever the final step did.
   */
  function HighPriceStep(c: Conv, t: Tables, text: string, user: UserId, env: Services): (r: (Conv, Tables, seq<Reply>))
    requires IsDigits(text) && Consistent(c)
    ensures c.state.None? || c.data.lowPrice.None? ==> r == (c, t, [])
    ensures c.state.Some? && c.data.lowPrice.Some? ==>
      var price := DigitsValue(text) as int;
      var c1 := Conv(c.state, c.data.(highPrice := Some(price)));
      && (price < c.data.lowPrice.value ==> r == (c, t, [HighBelowLow]))
      && (price >= c.data.lowPrice.value && !HasAllKeys(c1.data) ==> r == (c1, t, []))
      && (price >= c.data.lowPrice.value && HasAllKeys(c1.data) ==>
            r.0 == Idle && (r.1, r.2) == (FinalOutcome(c1, t, user, env).1, FinalOutcome(c1, t, user, env).2))
    ensures Consistent(r.0)
  {
    if c.state.None? || c.data.lowPrice.None? then (c, t, [])
    else
      var low := c.data.lowPrice.value;
      var price := DigitsValue(text) as int;
      if price < 0 then (c, t, [NegativePrice])
      else if price < low then (c, t, [HighBelowLow])
      else
        var c1 := Conv(c.state, c.data.(highPrice := Some(price)));
        if !HasAllKeys(c1.data) then (c1, t, [])
        else
          var (_, t2, replies) := FinalOutcome(c1, t, user, env);
          (Idle, t2, replies)
  }

  // ---------------------------------------------------------------------------
  // Dispatch of text messages

  /** The text handlers of the dialogue, in the order they are registered. */
  datatype Handler =
    | InitialPoint
    | AskCity
    | AskEnterDate
    | AskIsImagesNeeded
    | AskImagesCount
    | AskDistance
    | AskLowPrice
    | GetHighPrice
    | CityNameIncorrect
    | DigitIncorrect

  /**
   * The first handler whose filters accept the text: the command filter, then the
   * state filter together with the pattern or digit filter. `None` when no handler
   * of the dialogue takes the text.
   */
  function Route(state: Option<QueryState>, text: string): (h: Option<Handler>)
    ensures IsSearchCommandText(text) ==> h == Some(InitialPoint)
    ensures h.Some? && h != Some(InitialPoint) ==> state.Some?
    ensures !IsSearchCommandText(text) && state.Some? && IsNumericState(state.value) ==>
      if state == Some(HotelsCount) then h == Some(AskEnterDate)
      else if IsDigits(text) then h.Some? && h.value in {Handler.AskImagesCount, Handler.AskDistance, Handler.AskLowPrice, GetHighPrice}
      else h == Some(DigitIncorrect)
    ensures !IsSearchCommandText(text) && state == Some(City) ==>
      h == Some(if MatchesCityPattern(text) then AskCity else CityNameIncorrect)
    ensures h == Some(Handler.AskImagesCount) || h == Some(Handler.AskDistance) || h == Some(Handler.AskLowPrice) || h == Some(GetHighPrice) ==>
      IsDigits(text)
  {
    if IsSearchCommandText(text) then Some(InitialPoint)
    else if state == Some(City) && MatchesCityPattern(text) then Some(AskCity)
    else if state == Some(HotelsCount) then Some(AskEnterDate)
    else if state == Some(IsImagesNeeded) then Some(AskIsImagesNeeded)
    else if state == Some(ImagesCount) && IsDigits(text) then Some(Handler.AskImagesCount)
    else if state == Some(Distance) && IsDigits(text) then Some(Handler.AskDistance)
    else if state == Some(LowPrice) && IsDigits(text) then Some(Handler.AskLowPrice)
    else if state == Some(HighPrice) && IsDigits(text) then Some(GetHighPrice)
    else if state == Some(City) then Some(CityNameIncorrect)
    else if state.Some? && IsNumericState(state.value) && !IsDigits(text) then Some(DigitIncorrect)
    else None
  }

  /** A text message: the routed handler's step; the two fallbacks only reply. */
  function TextStep(c: Conv, t: Tables, text: string, user: UserId, env: Services): (r: (Conv, Tables, seq<Reply>))
    requires Consistent(c)
    ensures Consistent(r.0)
    ensures r.0.state != c.state ==> r.0.state.None? || IsEnteredState(r.0.state.value)
    ensures r.1 != t ==> r.0 == Idle
  {
    match Route(c.state, text)
    case None => (c, t, [])
    case Some(InitialPoint) => var (c1, out) := CommandStep(c, text); (c1, t, out)
    case Some(AskCity) => var (c1, out) := CityStep(c, text, env.locations); (c1, t, out)
    case Some(AskEnterDate) => var (c1, out) := HotelsCountStep(c, text); (c1, t, out)
    case Some(AskIsImagesNeeded) => ImagesNeededStep(c, t, text, user, env)
    case Some(AskImagesCount) => ImagesCountStep(c, t, text, user, env)
    case Some(AskDistance) => var (c1, out) := DistanceStep(c, text); (c1, t, out)
    case Some(AskLowPrice) => var (c1, out) := LowPriceStep(c, text); (c1, t, out)
    case Some(GetHighPrice) => HighPriceStep(c, t, text, user, env)
    case Some(CityNameIncorrect) => (c, t, [BadCityName])
    case Some(DigitIncorrect) => (c, t, [NotANumber])
  }

  // ---------------------------------------------------------------------------
  // Properties of the dialogue

  /** Pressing the button of a listed city stores that city's id and name and asks for the hotel count. */
  lemma ButtonStoresCity(c: Conv, cities: seq<CityOption>, i: nat)
    requires Keyboard(cities).Some? && i < |cities|
    ensures var r := CityChosenStep(c, Keyboard(cities).value[i][0].callbackData);
      && r.0.state == Some(HotelsCount)
      && r.0.data.cityId == Some(cities[i].id) && r.0.data.city == Some(cities[i].name)
  {
    KeyboardRoundTrip(cities, i);
  }

  /**
   * A text that is not a number, in a state that expects one, changes nothing and
   * gets an error: the hotel count's own error in `hotels_count`, whose handler is
   * registered before the fallback, and "not a number" in the others.
   */
  lemma NotANumberChangesNothing(c: Conv, t: Tables, text: string, user: UserId, env: Services)
    requires Consistent(c) && c.state.Some? && IsNumericState(c.state.value)
    requires !IsDigits(text) && !IsSearchCommandText(text)
    ensures TextStep(c, t, text, user, env)
         == (c, t, [if c.state == Some(HotelsCount) then HotelsCountError else NotANumber])
  {
  }

  /** `/low` and `/high` never reach the distance and price questions. */
  lemma NoBoundsForLowAndHigh(c: Conv, t: Tables, text: string, user: UserId, env: Services)
    requires Consistent(c) && (c.data.command == Some("/low") || c.data.command == Some("/high"))
    requires c.state == Some(IsImagesNeeded) || c.state == Some(ImagesCount)
    ensures var s := TextStep(c, t, text, user, env).0.state;
      s != Some(Distance) && s != Some(LowPrice) && s != Some(HighPrice)
  {
    if IsSearchCommandText(text) {
      CommandRoute(c, t, text, user, env);
    } else if c.state == Some(IsImagesNeeded) {
      ImagesNeededRoute(c, t, text, user, env);
    } else if IsDigits(text) {
      NumberRoute(c, t, text, user, env);
    } else {
      NotANumberChangesNothing(c, t, text, user, env);
    }
  }

  /**
   * Once a conversation holds both dates, the calendar is dead for every later
   * search through the same entry: a new command, the city, the city button and the
   * hotel count all keep the stored dates, and presses in the calendar then change
   * nothing and send nothing. Only the final step clears the entry.
   */
  lemma StoredDatesStallCalendar(c: Conv, command: string, cityData: string, count: string,
                                 calendar: Date -> CalendarPick, today: Date)
    requires Consistent(c) && c.data.endDate.Some?
    requires InRange(count, HOTEL_REQUESTS_LIMIT) && |Split(cityData, ':')| >= 3
    ensures var c1 := CommandStep(c, command).0;
      var c2 := CityChosenStep(c1, cityData).0;
      var c3 := HotelsCountStep(c2, count).0;
      && c3.state == Some(EnterDate)
      && DateStep(c3, calendar, today) == (c3, [])
  {
  }

  /** `/high`, `/low` and `/bestdeals` as typed are caught by the command filter. */
  lemma SearchCommandText(text: string)
    requires text == "/high" || text == "/low" || text == "/bestdeals"
    ensures IsSearchCommandText(text)
  {
    var command := text[1..];
    assert command == "high" || command == "low" || command == "bestdeals";
    WordHeadPlain(command);
  }

  /** A number is never a command. */
  lemma DigitsAreNoCommand(text: string)
    requires IsDigits(text)
    ensures !IsSearchCommandText(text)
  {
    assert IsDigitChar(text[0]);
  }

  /** The visits from position `i` on: the visit of hotel `i`, then the visits after it. */
  lemma VisitsFrom(hotels: seq<HotelSummary>, i: nat, needImages: bool, imageLimit: nat, days: int,
                   details: string -> ApiReply)
    requires i < |hotels|
    ensures var v := Visit(hotels[i], needImages, imageLimit, days, details);
      var rest := Visits(hotels[i + 1..], needImages, imageLimit, days, details);
      Visits(hotels[i..], needImages, imageLimit, days, details) == (v.0 + rest.0, v.1 + rest.1)
  {
    assert hotels[i..][0] == hotels[i] && hotels[i..][1..] == hotels[i + 1..];
  }

  /** A search command goes to `initial_point`. */
  lemma CommandRoute(c: Conv, t: Tables, text: string, user: UserId, env: Services)
    requires Consistent(c) && IsSearchCommandText(text)
    ensures TextStep(c, t, text, user, env) == (CommandStep(c, text).0, t, CommandStep(c, text).1)
  {
    assert Route(c.state, text) == Some(InitialPoint);
  }

  /** A city name in `city` goes to `ask_city`. */
  lemma CityRoute(c: Conv, t: Tables, text: string, user: UserId, env: Services)
    requires Consistent(c) && c.state == Some(City) && MatchesCityPattern(text) && !IsSearchCommandText(text)
    ensures TextStep(c, t, text, user, env).0 == CityStep(c, text, env.locations).0
  {
    assert Route(c.state, text) == Some(AskCity);
  }

  /** Any other text in `hotels_count` goes to `ask_enter_date`. */
  lemma CountRoute(c: Conv, t: Tables, text: string, user: UserId, env: Services)
    requires Consistent(c) && c.state == Some(HotelsCount) && !IsSearchCommandText(text)
    ensures TextStep(c, t, text, user, env).0 == HotelsCountStep(c, text).0
  {
    assert Route(c.state, text) == Some(Handler.AskEnterDate);
  }

  /** Any other text in `is_images_needed` goes to `ask_is_images_needed`. */
  lemma ImagesNeededRoute(c: Conv, t: Tables, text: string, user: UserId, env: Services)
    requires Consistent(c) && c.state == Some(IsImagesNeeded) && !IsSearchCommandText(text)
    ensures TextStep(c, t, text, user, env) == ImagesNeededStep(c, t, text, user, env)
  {
    assert Route(c.state, text) == Some(Handler.AskIsImagesNeeded);
  }

  /** A number in a numeric state after the count goes to that state's handler. */
  lemma NumberRoute(c: Conv, t: Tables, text: string, user: UserId, env: Services)
    requires Consistent(c) && IsDigits(text)
    ensures c.state == Some(ImagesCount) ==> TextStep(c, t, text, user, env) == ImagesCountStep(c, t, text, user, env)
    ensures c.state == Some(Distance) ==> TextStep(c, t, text, user, env).0 == DistanceStep(c, text).0
    ensures c.state == Some(LowPrice) ==> TextStep(c, t, text, user, env).0 == LowPriceStep(c, text).0
    ensures c.state == Some(HighPrice) ==> TextStep(c, t, text, user, env) == HighPriceStep(c, t, text, user, env)
  {
    DigitsAreNoCommand(text);
  }

  /** The first part of a search: command, city, city button and hotel count. */
  lemma {:induction false} WalkToCalendar(c0: Conv, t: Tables, user: UserId, env: Services, command: string,
                                          city: string, button: nat, count: string, s1: Conv, s2: Conv, s3: Conv, s4: Conv)
    requires Consistent(c0) && c0.data.enterDate.None?
    requires command == "/high" || command == "/low" || command == "/bestdeals"
    requires MatchesCityPattern(city) && !IsSearchCommandText(city)
    requires env.locations(city).ok
    requires Keyboard(ParsedCities(env.locations(city).body)).Some? && button < |ParsedCities(env.locations(city).body)|
    requires InRange(count, HOTEL_REQUESTS_LIMIT)
    requires s1 == TextStep(c0, t, command, user, env).0
    requires s2 == TextStep(s1, t, city, user, env).0
    requires s3 == CityChosenStep(s2, Keyboard(ParsedCities(env.locations(city).body)).value[button][0].callbackData).0
    requires s4 == TextStep(s3, t, count, user, env).0
    ensures s1.state == Some(City) && s2.state == Some(CityId) && s3.state == Some(HotelsCount) && s4.state == Some(EnterDate)
    ensures Consistent(s4) && s4.data.enterDate.None?
    ensures var cities := ParsedCities(env.locations(city).body);
      && s4.data.command == Some(command)
      && s4.data.cityId == Some(cities[button].id) && s4.data.city == Some(cities[button].name)
      && s4.data.hotelsCount == Some(DigitsValue(count))
  {
    var cities := ParsedCities(env.locations(city).body);
    SearchCommandText(command);
    CommandRoute(c0, t, command, user, env);
    assert s1 == CommandStep(c0, command).0;
    CityRoute(s1, t, city, user, env);
    assert s2 == SetState(s1, CityId);
    ButtonStoresCity(s2, cities, button);
    DigitsAreNoCommand(count);
    CountRoute(s3, t, count, user, env);
  }

  /** Two picked days: check-in, then check-out, then the images question. */
  lemma {:induction false} WalkThroughDates(s4: Conv, env: Services, s5: Conv, s6: Conv)
    requires Consistent(s4) && s4.state.Some? && s4.data.enterDate.None?
    requires env.calendar(env.today).Picked? && env.calendar(env.calendar(env.today).day + 1).Picked?
    requires s5 == DateStep(s4, env.calendar, env.today).0
    requires s6 == DateStep(s5, env.calendar, env.today).0
    ensures s5.state == s4.state && s6.state == Some(IsImagesNeeded) && Consistent(s6)
    ensures var enter := env.calendar(env.today).day; var end := env.calendar(enter + 1).day;
      s6.data == s4.data.(enterDate := Some(enter), endDate := Some(end), totalDays := Some(end - enter))
  {
    assert s5.data.enterDate == Some(env.calendar(env.today).day) && s5.data.endDate.None?;
  }

  /** `/bestdeals` after the dates: `Да` and a photo count lead to the distance question. */
  lemma {:induction false} WalkToDistance(s6: Conv, t: Tables, user: UserId, env: Services, images: string, s7: Conv, s8: Conv)
    requires Consistent(s6) && s6.state == Some(IsImagesNeeded) && s6.data.command == Some("/bestdeals")
    requires InRange(images, HOTEL_PHOTOS_LIMIT)
    requires s7 == TextStep(s6, t, "Да", user, env).0
    requires s8 == TextStep(s7, t, images, user, env).0
    ensures s7.state == Some(ImagesCount) && s8.state == Some(Distance) && Consistent(s8)
    ensures s8.data == s6.data.(isImagesNeeded := Some(true), imagesCount := Some(DigitsValue(images)))
  {
    assert !IsSearchCommandText("Да");
    ImagesNeededRoute(s6, t, "Да", user, env);
    assert s7 == Conv(Some(ImagesCount), s6.data.(isImagesNeeded := Some(true), imagesCount := Some(0)));
    NumberRoute(s7, t, images, user, env);
    assert s8 == Conv(Some(Distance), s7.data.(imagesCount := Some(DigitsValue(images))));
  }

  /** `/bestdeals` at the distance question: a distance and a lowest price lead to `high_price`; a high enough price ends the entry. */
  lemma {:induction false} WalkToPrices(s8: Conv, t: Tables, user: UserId, env: Services,
                                        distance: string, low: string, high: string, s9: Conv, s10: Conv)
    requires Consistent(s8) && s8.state == Some(Distance) && HasSearchKeys(s8.data)
    requires IsDigits(distance) && IsDigits(low) && IsDigits(high) && DigitsValue(low) <= DigitsValue(high)
    requires s9 == TextStep(s8, t, distance, user, env).0
    requires s10 == TextStep(s9, t, low, user, env).0
    ensures s9.state == Some(LowPrice) && s10.state == Some(HighPrice)
    ensures s10.data == s8.data.(distance := Some(DigitsValue(distance)), lowPrice := Some(DigitsValue(low) as int))
    ensures TextStep(s10, t, high, user, env).0 == Idle
  {
    NumberRoute(s8, t, distance, user, env);
    assert s9 == Conv(Some(LowPrice), s8.data.(distance := Some(DigitsValue(distance))));
    NumberRoute(s9, t, low, user, env);
    assert s10 == Conv(Some(HighPrice), s9.data.(lowPrice := Some(DigitsValue(low) as int)));
    NumberRoute(s10, t, high, user, env);
    assert HasAllKeys(s10.data.(highPrice := Some(DigitsValue(high) as int)));
  }

  /**
   * The states a `/bestdeals` search with photos passes through: `city`, `city_id`,
   * `hotels_count`, `enter_date` (twice, one per picked day), `is_images_needed`,
   * `images_count`, `distance`, `low_price`, `high_price`, and then no entry. The
   * final step searches with the values entered on the way.
   */
  lemma {:induction false} BestDealsWalk(c0: Conv, t: Tables, user: UserId, env: Services, city: string, button: nat,
                      count: string, images: string, distance: string, low: string, high: string,
                      s1: Conv, s2: Conv, s3: Conv, s4: Conv, s5: Conv, s6: Conv, s7: Conv, s8: Conv, s9: Conv, s10: Conv)
    requires Consistent(c0) && c0.data.enterDate.None?
    requires MatchesCityPattern(city) && !IsSearchCommandText(city)
    requires env.locations(city).ok
    requires Keyboard(ParsedCities(env.locations(city).body)).Some? && button < |ParsedCities(env.locations(city).body)|
    requires InRange(count, HOTEL_REQUESTS_LIMIT) && InRange(images, HOTEL_PHOTOS_LIMIT)
    requires env.calendar(env.today).Picked? && env.calendar(env.calendar(env.today).day + 1).Picked?
    requires IsDigits(distance) && IsDigits(low) && IsDigits(high) && DigitsValue(low) <= DigitsValue(high)
    requires s1 == TextStep(c0, t, "/bestdeals", user, env).0
    requires s2 == TextStep(s1, t, city, user, env).0
    requires s3 == CityChosenStep(s2, Keyboard(ParsedCities(env.locations(city).body)).value[button][0].callbackData).0
    requires s4 == TextStep(s3, t, count, user, env).0
    requires s5 == DateStep(s4, env.calendar, env.today).0
    requires s6 == DateStep(s5, env.calendar, env.today).0
    requires s7 == TextStep(s6, t, "Да", user, env).0
    requires s8 == TextStep(s7, t, images, user, env).0
    requires s9 == TextStep(s8, t, distance, user, env).0
    requires s10 == TextStep(s9, t, low, user, env).0
    ensures s1.state == Some(City) && s2.state == Some(CityId) && s3.state == Some(HotelsCount)
    ensures s4.state == Some(EnterDate) && s5.state == Some(EnterDate) && s6.state == Some(IsImagesNeeded)
    ensures s7.state == Some(ImagesCount) && s8.state == Some(Distance) && s9.state == Some(LowPrice)
    ensures s10.state == Some(HighPrice)
    ensures var cities := ParsedCities(env.locations(city).body);
      && s10.data.command == Some("/bestdeals")
      && s10.data.cityId == Some(cities[button].id) && s10.data.city == Some(cities[button].name)
      && s10.data.hotelsCount == Some(DigitsValue(count)) && s10.data.imagesCount == Some(DigitsValue(images))
      && s10.data.distance == Some(DigitsValue(distance)) && s10.data.lowPrice == Some(DigitsValue(low) as int)
    ensures TextStep(s10, t, high, user, env).0 == Idle
  {
    WalkToCalendar(c0, t, user, env, "/bestdeals", city, button, count, s1, s2, s3, s4);
    WalkThroughDates(s4, env, s5, s6);
    WalkToDistance(s6, t, user, env, images, s7, s8);
    WalkToPrices(s8, t, user, env, distance, low, high, s9, s10);
  }

  // ---------------------------------------------------------------------------
  // The dialogue as an object

  /** One private chat's stored entry, updated in place by the handlers. */
  class Dialogue {
    var state: Option<QueryState>
    var data: Record

    function Snapshot(): Conv
      reads this
    {
      Conv(state, data)
    }

    ghost predicate Valid()
      reads this
    {
      Consistent(Snapshot())
    }

    /** A chat with no stored entry. */
    constructor()
      ensures Snapshot() == Idle && Valid()
    {
      state, data := None, EmptyRecord;
    }

    /** `set_state`: creates an empty entry when none is stored. */
    method Enter(s: QueryState)
      modifies this
      ensures Snapshot() == SetState(old(Snapshot()), s)
    {
      if state.None? {
        data := EmptyRecord;
      }
      state := Some(s);
    }

    /** `delete_state`: the entry and its data are removed. */
    method Clear()
      modifies this
      ensures Snapshot() == Idle
    {
      state, data := None, EmptyRecord;
    }

    method InitialPoint(text: string) returns (replies: seq<Reply>)
      requires Valid()
      modifies this
      ensures (Snapshot(), replies) == CommandStep(old(Snapshot()), text)
      ensures Valid()
    {
      Enter(City);
      replies := [AskCityName];
      data := data.(command := Some(text));
    }

    method AskCity(text: string, locations: string -> ApiReply) returns (replies: seq<Reply>)
      requires Valid()
      modifies this
      ensures (Snapshot(), replies) == CityStep(old(Snapshot()), text, locations)
      ensures Valid()
    {
      var ok, cities := RequestCities(text, locations);
      if ok && |cities| > 0 {
        var rows := Keyboard(cities);
        if rows.None? {
          return [];
        }
        replies := [ChooseCity(rows.value)];
        Enter(CityId);
      } else if ok {
        replies := [NothingFound(text)];
      } else {
        replies := [CitiesRequestFailed];
      }
    }

    method CityCallback(callbackData: string) returns (replies: seq<Reply>)
      requires Valid()
      modifies this
      ensures (Snapshot(), replies) == CityChosenStep(old(Snapshot()), callbackData)
      ensures Valid()
    {
      var chosen := ChosenCity(callbackData);
      if chosen.None? {
        return [];
      }
      var (id, name) := chosen.value;
      replies := [AskHotelsCount];
      Enter(HotelsCount);
      data := data.(city := Some(name), cityId := Some(id));
    }

    method AskEnterDate(text: string) returns (replies: seq<Reply>)
      requires Valid()
      modifies this
      ensures (Snapshot(), replies) == HotelsCountStep(old(Snapshot()), text)
      ensures Valid()
    {
      if InRange(text, HOTEL_REQUESTS_LIMIT) {
        replies := [ShowCalendar];
        Enter(EnterDate);
        data := data.(hotelsCount := Some(DigitsValue(text)));
      } else {
        replies := [HotelsCountError];
      }
    }

    method StartEndDateCall(calendar: Date -> CalendarPick, today: Date) returns (replies: seq<Reply>)
      requires Valid()
      modifies this
      ensures (Snapshot(), replies) == DateStep(old(Snapshot()), calendar, today)
      ensures Valid()
    {
      if state.None? {
        return [];
      }
      var pick := NoPick;
      if data.enterDate.None? {
        pick := calendar(today);
      } else if data.endDate.None? {
        pick := calendar(data.enterDate.value + 1);
      }
      match pick
      case Navigate =>
        replies := [CalendarPage];
      case NoPick =>
        replies := [];
      case Picked(day) =>
        if data.enterDate.None? {
          data := data.(enterDate := Some(day));
          replies := [AskEndDate];
        } else if data.endDate.None? {
          data := data.(endDate := Some(day));
          data := data.(totalDays := Some(day - data.enterDate.value));
          replies := [CloseCalendar, AskImagesNeeded];
          state := Some(IsImagesNeeded);
        } else {
          replies := [];
        }
    }

    /** One pass of the loop of `final_step`: the details of one hotel, then its card or the failure message. */
    static method VisitOne(h: HotelSummary, needImages: bool, imageLimit: nat, days: int, details: string -> ApiReply)
      returns (replies: seq<Reply>, saved: seq<SavedHotel>)
      ensures (replies, saved) == Visit(h, needImages, imageLimit, days, details)
    {
      var ok, address, images := GetHotelDetails(h.id, needImages, imageLimit, details);
      if ok {
        replies := [HotelCard(h.name, h.price, days * h.price, h.distance, address)] + Photos(images);
        saved := [SavedHotel(h.id, h.name, address, h.distance, h.price)];
      } else {
        replies, saved := [DetailsFailed(h.name)], [];
      }
    }

    /** The loop of `final_step` over the found hotels. */
    static method VisitAll(hotels: seq<HotelSummary>, needImages: bool, imageLimit: nat, days: int,
                    details: string -> ApiReply) returns (replies: seq<Reply>, saved: seq<SavedHotel>)
      ensures (replies, saved) == Visits(hotels, needImages, imageLimit, days, details)
    {
      replies, saved := [], [];
      var i := 0;
      assert hotels[0..] == hotels;
      assert [] + Visits(hotels, needImages, imageLimit, days, details).0 == Visits(hotels, needImages, imageLimit, days, details).0;
      assert [] + Visits(hotels, needImages, imageLimit, days, details).1 == Visits(hotels, needImages, imageLimit, days, details).1;
      while i < |hotels|
        invariant 0 <= i <= |hotels|
        invariant replies + Visits(hotels[i..], needImages, imageLimit, days, details).0
               == Visits(hotels, needImages, imageLimit, days, details).0
        invariant saved + Visits(hotels[i..], needImages, imageLimit, days, details).1
               == Visits(hotels, needImages, imageLimit, days, details).1
      {
        var h := hotels[i];
        VisitsFrom(hotels, i, needImages, imageLimit, days, details);
        ghost var v := Visit(h, needImages, imageLimit, days, details);
        ghost var rest := Visits(hotels[i + 1..], needImages, imageLimit, days, details);
        ghost var before, savedBefore := replies, saved;
        var more, row := VisitOne(h, needImages, imageLimit, days, details);
        replies, saved := replies + more, saved + row;
        Associative(before, v.0, rest.0);
        Associative(savedBefore, v.1, rest.1);
        i := i + 1;
      }
      assert hotels[i..] == [];
      assert replies + [] == replies && saved + [] == saved;
    }

    /** `final_step`; the search it runs before reading the keys has no visible effect and is left out of that path. */
    method FinalStep(store: HistoryStore, user: UserId, env: Services) returns (replies: seq<Reply>)
      requires Valid()
      modifies this, store
      ensures (Snapshot(), store.Snapshot(), replies) == FinalOutcome(old(Snapshot()), old(store.Snapshot()), user, env)
      ensures old(store.Valid()) ==> store.Valid()
      ensures Valid()
    {
      var d := data;
      if !HasSearchKeys(d) {
        return [];
      }
      var ok, found := SearchHotelsForLocation(d.cityId.value, d.hotelsCount.value, d.enterDate.value, d.endDate.value,
                                               d.distance, d.lowPrice, d.highPrice, d.command.value, env.properties);
      if !ok {
        replies := [NoResults];
        Clear();
        return;
      }
      if found.None? {
        return [];
      }
      var saved;
      replies, saved := VisitAll(found.value, d.isImagesNeeded.value, d.imagesCount.value, d.totalDays.value, env.details);
      replies := replies + [SearchDone];
      var _ := store.WriteRequestToHistory(QueryOf(d, user, env.now), saved, env.fails);
      Clear();
    }

    method AskIsImagesNeeded(text: string, store: HistoryStore, user: UserId, env: Services) returns (replies: seq<Reply>)
      requires Valid()
      modifies this, store
      ensures (Snapshot(), store.Snapshot(), replies) == ImagesNeededStep(old(Snapshot()), old(store.Snapshot()), text, user, env)
      ensures old(store.Valid()) ==> store.Valid()
      ensures Valid()
    {
      if text == "Да" {
        replies := [Reply.AskImagesCount];
        Enter(ImagesCount);
        data := data.(isImagesNeeded := Some(true), imagesCount := Some(0));
        return;
      }
      if state.None? || data.command.None? {
        return [];
      }
      var command := data.command.value;
      data := data.(isImagesNeeded := Some(false), imagesCount := Some(0));
      if command == "/bestdeals" {
        replies := [Reply.AskDistance];
        Enter(Distance);
      } else {
        replies := FinalStep(store, user, env);
      }
    }

    method AskImagesCount(text: string, store: HistoryStore, user: UserId, env: Services) returns (replies: seq<Reply>)
      requires Valid()
      modifies this, store
      ensures (Snapshot(), store.Snapshot(), replies) == ImagesCountStep(old(Snapshot()), old(store.Snapshot()), text, user, env)
      ensures old(store.Valid()) ==> store.Valid()
      ensures Valid()
    {
      if !InRange(text, HOTEL_PHOTOS_LIMIT) {
        return [ImagesCountError];
      }
      if state.None? || data.command.None? {
        return [];
      }
      var command := data.command.value;
      data := data.(imagesCount := Some(DigitsValue(text)));
      if command == "/low" || command == "/high" {
        replies := FinalStep(store, user, env);
      } else if command == "/bestdeals" {
        replies := [Reply.AskDistance];
        Enter(Distance);
      } else {
        replies := [];
      }
    }

    method AskDistance(text: string) returns (replies: seq<Reply>)
      requires IsDigits(text) && Valid()
      modifies this
      ensures (Snapshot(), replies) == DistanceStep(old(Snapshot()), text)
      ensures Valid()
    {
      replies := [Reply.AskLowPrice];
      Enter(LowPrice);
      data := data.(distance := Some(DigitsValue(text)));
    }

    method AskLowPrice(text: string) returns (replies: seq<Reply>)
      requires IsDigits(text) && Valid()
      modifies this
      ensures (Snapshot(), replies) == LowPriceStep(old(Snapshot()), text)
      ensures Valid()
    {
      var price := DigitsValue(text) as int;
      if price < 0 {
        replies := [NegativePrice];
      } else {
        replies := [AskHighPrice];
        Enter(HighPrice);
        data := data.(lowPrice := Some(price));
      }
    }

    method GetHighPrice(text: string, store: HistoryStore, user: UserId, env: Services) returns (replies: seq<Reply>)
      requires IsDigits(text) && Valid()
      modifies this, store
      ensures (Snapshot(), store.Snapshot(), replies) == HighPriceStep(old(Snapshot()), old(store.Snapshot()), text, user, env)
      ensures old(store.Valid()) ==> store.Valid()
      ensures Valid()
    {
      if state.None? || data.lowPrice.None? {
        return [];
      }
      var low := data.lowPrice.value;
      var price := DigitsValue(text) as int;
      if price < 0 {
        replies := [NegativePrice];
      } else if price < low {
        replies := [HighBelowLow];
      } else {
        data := data.(highPrice := Some(price));
        if !HasAllKeys(data) {
          return [];
        }
        replies := FinalStep(store, user, env);
        Clear();
      }
    }

    /** A text message in this chat, handed to the first handler whose filters accept it. */
    method OnText(text: string, store: HistoryStore, user: UserId, env: Services) returns (replies: seq<Reply>)
      requires Valid()
      modifies this, store
      ensures (Snapshot(), store.Snapshot(), replies) == TextStep(old(Snapshot()), old(store.Snapshot()), text, user, env)
      ensures old(store.Valid()) ==> store.Valid()
      ensures Valid()
    {
      match Route(state, text)
      case None =>
        replies := [];
      case Some(InitialPoint) =>
        replies := InitialPoint(text);
      case Some(AskCity) =>
        replies := AskCity(text, env.locations);
      case Some(AskEnterDate) =>
        replies := AskEnterDate(text);
      case Some(AskIsImagesNeeded) =>
        replies := AskIsImagesNeeded(text, store, user, env);
      case Some(AskImagesCount) =>
        replies := AskImagesCount(text, store, user, env);
      case Some(AskDistance) =>
        replies := AskDistance(text);
      case Some(AskLowPrice) =>
        replies := AskLowPrice(text);
      case Some(GetHighPrice) =>
        replies := GetHighPrice(text, store, user, env);
      case Some(CityNameIncorrect) =>
        replies := [BadCityName];
      case Some(DigitIncorrect) =>
        replies := [NotANumber];
    }
  }
}
