# Hotel search bot — a Dafny model

This project models the core of a Telegram bot that searches hotels through a
hotel API and keeps a per-user search history in SQLite:

- the hotel-search dialogue (`/low`, `/high`, `/bestdeals`): city name, city
  button, hotel count, check-in and check-out days, photos, and for
  `/bestdeals` the distance and the price bounds, then the search, the hotel
  cards and the write of the search to the history;
- the API client: the city lookup, the search payload per command, the
  client-side re-sorting and cutting of the result, and the hotel details
  (address and photos);
- the history store: insert-or-get of hotels, requests and their links, the
  write of one search, the per-user listing and the deletion of a request;
- the history dialogue (`/history`): one page per stored request, paging and
  deleting;
- the inline keyboard of the city choice and the data its buttons carry.

Each handler is stated twice: as a step function over the chat's stored entry
(`Conv`: the state and the stored fields) and, where the bot changes that entry
or the database in place, as a method of a class (`HotelsHandlers.Dialogue`,
`Crud.HistoryStore`) proved to produce exactly what the step function says.
The properties of the dialogue and of the store are lemmas over the step
functions. The HTTP endpoints, the calendar widget, the clock and database
engine errors are parameters (`Services`, `fails`).

Modules: `Common` (optional values, `[:n]`, `filter`), `Text` (Python string
operations the handlers use), `JsonValue` (decoded API bodies and Python's
subscript behaviour on them), `Config`, `HotelQuery` (the dialogue states),
`Models` (rows and tables with their unique indexes and foreign keys), `Crud`,
`HotelsService`, `CitiesKeyboard`, `HistoryHandlers`, `HotelsHandlers`.

Where the behaviour of the code and its documentation differ, the model follows
the code:

- `set_state` keeps the data already stored for the chat, so a new command
  starts with the fields of the previous search still stored. A chat that once
  picked both dates keeps them, and the calendar then does nothing for every
  later search until a final step clears the entry
  (`HotelsHandlers.StoredDatesStallCalendar`).
- `_sort_hotels_by_distance_limit` keeps the hotels closer than the distance and
  orders them by price and then distance, cheapest first; its docstring speaks of
  distance only.
- `request_cities` returns from its `finally` clause, so a reading error in the
  middle of the answer still reports success with the cities read so far.
- The `hotels_count` state has its own handler without a digit filter, registered
  before the fallback, so a non-number there gets the hotel-count error and never
  the fallback's "not a number".
- `ask_low_price` rejects a negative price, but only digit strings reach it, so
  that branch never runs; `ask_distance` accepts `0`.
- `final_step` catches its own exceptions, so `get_high_price` deletes the entry
  after it whatever the final step did. A value the final step needs and does not
  find has already stopped `get_high_price`, whose log line reads every such value.
- Request ids are SQLite row ids: a new request gets one more than the largest id
  stored, so the id of a deleted newest request is handed out again, and a delete
  button still showing that id then deletes the new request (`Crud.DeletedIdReused`).
- The delete button's request id is not checked against the user who presses it.
- "Поиск завершен." is sent even when nothing was found, and then the write of
  the empty list answers `False` and stores nothing.

## Model

| member | source | states |
|---|---|---|
| Common.Take | api/hotels_service.py:67 | `s[:n]` keeps the first `n` elements, or all when there are fewer |
| Common.Filter | api/hotels_service.py:76 | `filter` keeps exactly the elements that pass the test and never lengthens the list |
| Text.ParseInt | handlers/custom_handlers/history.py:20 | `int()` reads an optionally signed digit string as its signed value, and accepts nothing else among ASCII strings without blanks or `_` |
| Text.NatToString | handlers/custom_handlers/history.py:63 | `str(id)` is a digit string that `int()` reads back as the same id |
| Text.Split | handlers/custom_handlers/hotels.py:97-98 | `split` gives at least one piece and no piece holds the separator |
| Text.SplitJoin | keyboards/inline/cities_keyboard.py:17-18 | splitting joined pieces gives the pieces back when none holds the separator |
| Text.JoinSplit | handlers/custom_handlers/hotels.py:97-98 | joining the pieces of a split gives the original string |
| Text.Utf8Length | keyboards/inline/cities_keyboard.py:17-18 | the byte length used by the 64-byte callback limit lies between the character count and four times it |
| Text.CommandOf | handlers/custom_handlers/hotels.py:18 | a text carries a command exactly when it starts with `/` |
| Text.WordHeadPlain | handlers/custom_handlers/hotels.py:18 | a command word without spaces or `@` is its own command |
| Models.NextRequestId | database/models.py:25 | a new request's id is one more than the largest stored id, and 1 in an empty table |
| Models.EmptyTablesValid | database/models.py:59-61 | freshly created tables satisfy the unique indexes and the foreign keys |
| JsonValue.Lookup | api/hotels_service.py:47-50 | `d[key]` finds a value exactly when the object has that key, and the value is one stored under it |
| JsonValue.Get | api/hotels_service.py:136 | subscripting by a key succeeds only on an object |
| JsonValue.SliceTo | api/hotels_service.py:207-208 | `[:n]` succeeds exactly on lists and strings |
| CitiesKeyboard.CityCallbackData | keyboards/inline/cities_keyboard.py:6 | the data of a button is built only from non-empty parts without `:` and fits in 64 bytes |
| CitiesKeyboard.Keyboard | keyboards/inline/cities_keyboard.py:9-23 | one row per city with one button labelled with its name; the keyboard fails exactly when some city's data cannot be built |
| CitiesKeyboard.ChosenCity | handlers/custom_handlers/hotels.py:97-98 | `city_callback` can read an id and a name exactly when the data has at least three `:`-pieces |
| CitiesKeyboard.CityDataRoundTrip | handlers/custom_handlers/hotels.py:90-98 | a button's data passes the `city:` filter and reads back as that button's id and name |
| CitiesKeyboard.KeyboardRoundTrip | keyboards/inline/cities_keyboard.py:12-23 | every button of the keyboard gives back, through `city_callback`, exactly its city's id and name |
| HotelsService.CitiesOf | api/hotels_service.py:46-50 | at most one city per item, each read from a `CITY` item |
| HotelsService.CollectCities | api/hotels_service.py:46-50 | the loop over the items of `sr` collects exactly what `CitiesOf` says |
| HotelsService.CitiesOfStopsAt | api/hotels_service.py:46-57 | an item whose reading raises ends the loop: nothing after it is read |
| HotelsService.CitiesOfAppend | api/hotels_service.py:47-50 | over readable items the cities of two lists are the cities of each, in order |
| HotelsService.CitiesOfComplete | api/hotels_service.py:47-50 | over readable items every `CITY` item yields its city |
| HotelsService.RequestCities | api/hotels_service.py:25-57 | success is the request's status; the cities are those read before any reading error, or none when the request failed |
| HotelsService.Insert | api/hotels_service.py:65-66 | one insertion step adds exactly the inserted hotel |
| HotelsService.SortBy | api/hotels_service.py:65-66 | `sorted` is a permutation of its input |
| HotelsService.SortBySorted | api/hotels_service.py:77 | the result of `sorted` is ordered by the key |
| HotelsService.SortByStable | api/hotels_service.py:77 | hotels with equal keys keep their input order |
| HotelsService.TopK | api/hotels_service.py:77-78 | `sorted(s)[:n]` keeps `n` hotels of `s`, ordered, none left out below a kept one, equal keys in input order |
| HotelsService.HighToLowKeepsDearest | api/hotels_service.py:60-67 | the `limit` dearest hotels, dearest first, equal prices in input order, none left out dearer than a kept one |
| HotelsService.DistanceLimitKeepsCheapestClose | api/hotels_service.py:70-78 | only hotels closer than the distance, cheapest and then nearest first, hotels with equal keys in input order, at most `limit`, none left out before a kept one |
| HotelsService.SearchPayload | api/hotels_service.py:95-125 | a payload exists exactly for the three commands; `/low` sorts by `PRICE_LOW_TO_HIGH` and asks `limit` results, `/high` asks 200 unsorted, `/bestdeals` asks 200 sorted by `DISTANCE` with the price bounds |
| HotelsService.ParseHotelsAll | api/hotels_service.py:135-147 | the property list parses exactly when every property does, and then item by item |
| HotelsService.ParseProperties | api/hotels_service.py:135-147 | the parsing loop gives every property in order, or the reading error |
| HotelsService.SearchResult | api/hotels_service.py:133-164 | success exactly when the reply parsed and the command is known; a failure answers an empty list |
| HotelsService.SearchAnswers | api/hotels_service.py:148-157 | a success answers `/low`'s hotels as sent, `/high`'s `limit` dearest dearest first, `/bestdeals`' hotels closer than the distance cheapest first; without a distance `/bestdeals` answers no list exactly when a hotel was found |
| HotelsService.SearchOutcome | api/hotels_service.py:116-125 | an unknown command answers `(False, [])` without a request |
| HotelsService.SearchHotelsForLocation | api/hotels_service.py:81-164 | the search answers what the payload, the reply and the client-side ordering determine |
| HotelsService.UrlsOf | api/hotels_service.py:209-210 | the photo urls are those of the gallery entries in order, up to the first unreadable one |
| HotelsService.CollectUrls | api/hotels_service.py:209-210 | the loop over the gallery entries collects exactly what `UrlsOf` says |
| HotelsService.ImageUrlsBounded | api/hotels_service.py:207-208 | never more photos than the limit |
| HotelsService.ImageUrlsOfList | api/hotels_service.py:207-210 | with a readable gallery the photos are exactly the urls of its first `limit` entries |
| HotelsService.GetHotelDetails | api/hotels_service.py:167-215 | a failed request answers `(False, '', [])`; otherwise the address or `не найден`, and photos only when asked for, at most the limit |
| Crud.FindRequest | database/models.py:41-43 | the id stored under `(created_at, user)`, absent exactly when no row has that pair |
| Crud.CreateHotel | database/tools/CRUD.py:9-29 | a new id is inserted, a stored id returns the stored row unchanged, an engine error changes nothing |
| Crud.CreateRequest | database/tools/CRUD.py:32-80 | a new `(created_at, user)` is appended under SQLite's next row id, a stored one returns its id and inserts nothing, an engine error changes nothing |
| Crud.CreateHistory | database/tools/CRUD.py:141-162 | the link is added once; an existing link counts as done; an engine error answers `False` |
| Crud.RecordSearch | database/tools/CRUD.py:99-101 | an empty hotel list stores nothing and answers `False` |
| Crud.WriteHotelsGrows | database/tools/CRUD.py:120-137 | writing hotels only adds rows: stored hotels keep their values, links keep their order |
| Crud.WriteHotelsLinksAll | database/tools/CRUD.py:120-138 | a successful write leaves every hotel stored and linked to the request |
| Crud.WriteHotelsStopsAtFailure | database/tools/CRUD.py:127-137 | a failed write stops at the failing hotel; later hotels are not attempted |
| Crud.WriteHotelsFreshLinks | database/tools/CRUD.py:120-138 | a fault-free write of distinct new hotels links them in list order with their prices |
| Crud.CreateHotelValid | database/tools/CRUD.py:9-29 | inserting a hotel keeps the unique indexes and foreign keys |
| Crud.CreateRequestValid | database/tools/CRUD.py:32-80 | inserting a request keeps the unique indexes and foreign keys |
| Crud.AppendRequestValid | database/tools/CRUD.py:48-65 | a request above every stored id under a new `(created_at, user)` keeps the unique indexes and foreign keys |
| Crud.CreateHistoryValid | database/tools/CRUD.py:141-162 | linking a stored request to a stored hotel keeps the unique indexes and foreign keys |
| Crud.WriteHotelsValid | database/tools/CRUD.py:120-138 | the hotel loop keeps the unique indexes and foreign keys |
| Crud.RecordSearchValid | database/tools/CRUD.py:83-138 | writing a whole search keeps the unique indexes and foreign keys |
| Crud.DeleteRequest | database/tools/CRUD.py:179-195 | the delete succeeds exactly for a stored id when the engine raises no error; an unknown id or an engine error rolls the transaction back and nothing changes; hotels are never deleted |
| Crud.DeleteRequestValid | database/tools/CRUD.py:179-195 | deleting a request keeps the unique indexes and foreign keys |
| Crud.CreateRequestNew | database/tools/CRUD.py:32-80 | a fault-free insert under a new `(created_at, user)` appends the row under one more than the largest stored id |
| Crud.DeletedIdReused | database/tools/CRUD.py:32-80 | a new request that is deleted frees its id, and the next new request gets that same id |
| Crud.CreateHistoryFor | database/tools/CRUD.py:130-134 | given the select query, as the code passes it, the link write answers `False` and changes nothing; given the id it is `CreateHistory` |
| Crud.WriteHotelsForId | database/tools/CRUD.py:120-137 | the hotel loop passing the request's id is the loop `WriteHotels` states |
| Crud.AsWrittenStoresNoLink | database/tools/CRUD.py:99-137 | as written, a search answers `False` and stores no link; a fault-free new search stores only the request and its first hotel |
| Crud.RecordSearchFresh | database/tools/CRUD.py:83-176 | a fault-free write under a new request id with no links yet succeeds, lists the new request last and links the hotels in order |
| Crud.WriteThenList | database/tools/CRUD.py:83-176 | after a fault-free write of a new search the user's listing is the old one plus the new request, whose links are the hotels in order with their prices |
| Crud.DeleteThenList | database/tools/CRUD.py:179-195 | after a delete the request and its links are gone, every listing omits it, and nothing else changes |
| Crud.HistoryStore.constructor | database/models.py:59-61 | a new database holds empty, valid tables |
| Crud.HistoryStore.CreateAndReturnHotel | database/tools/CRUD.py:9-29 | performs `CreateHotel` in place, success iff a row is returned, tables stay valid |
| Crud.HistoryStore.CreateAndReturnRequest | database/tools/CRUD.py:32-80 | performs `CreateRequest` in place, success iff an id is returned, tables stay valid |
| Crud.HistoryStore.CreateAndReturnHistory | database/tools/CRUD.py:141-162 | performs `CreateHistory` in place; valid for a stored request and hotel |
| Crud.HistoryStore.WriteRequestToHistory | database/tools/CRUD.py:83-138 | performs `RecordSearch` in place, keeping what was written before a failure; tables stay valid |
| Crud.HistoryStore.GetUserRequests | database/tools/CRUD.py:165-176 | the user's query, not yet run; only a failure to open the connection answers `False` and no query |
| Crud.HistoryStore.Execute | handlers/custom_handlers/history.py:54 | running the query gives the user's requests in table order, exactly those of the user, or raises on an engine error of the select |
| Crud.HistoryStore.DeleteUserRequest | database/tools/CRUD.py:179-195 | performs `DeleteRequest` in place; tables stay valid |
| HistoryHandlers.PyIndex | handlers/custom_handlers/history.py:55 | Python indexing: defined exactly for `-n <= i < n`, negative indices count from the end |
| HistoryHandlers.ShownFilters | handlers/custom_handlers/history.py:73-82 | the bounds are shown exactly when none of the three is NULL |
| HistoryHandlers.HotelLinesAll | handlers/custom_handlers/history.py:84-89 | the hotel lines (`HotelLines`) exist exactly when every linked hotel is stored, one line per link with its name and price |
| HistoryHandlers.TaggedNumber | handlers/custom_handlers/history.py:18-21 | `tag#n` splits into the tag and the digits of `n`, and its number (`NumberOf`, also at lines 32-35) reads back as `n` |
| HistoryHandlers.DeleteDataRoundTrip | handlers/custom_handlers/history.py:31-34 | the delete button's data passes the delete filter and reads back as the request id |
| HistoryHandlers.PageDataRoundTrip | handlers/custom_handlers/history.py:17-20 | a pager button's data passes the paging filter and reads back as its page |
| HistoryHandlers.PageShowsRequest | handlers/custom_handlers/history.py:47-95 | `HistoryPage` for a page in range shows that request of the user, its bounds iff all are stored, one line per link in order, a delete button for its id and a pager over all requests |
| HistoryHandlers.FirstAndLatestPages | handlers/custom_handlers/history.py:9-13 | `/history` shows the user's oldest request and page 0 the latest |
| HistoryHandlers.PageOutOfRange | handlers/custom_handlers/history.py:55 | a page past the user's requests raises and nothing is sent |
| HistoryHandlers.ListHotels | handlers/custom_handlers/history.py:84-89 | reads the hotel lines of a request's links from the store |
| HistoryHandlers.CollectLines | handlers/custom_handlers/history.py:84-89 | the loop over a request's links yields exactly the hotel lines of its links, or the lookup failure |
| HistoryHandlers.SendHistoryPage | handlers/custom_handlers/history.py:47-100 | sends the page `HistoryPage` describes for the stored tables: "История пуста." when the connection cannot be opened, nothing when the select raises at `len()` |
| HistoryHandlers.FailedListing | handlers/custom_handlers/history.py:52-54 | a connection that cannot be opened sends "История пуста."; a select that raises sends nothing |
| HistoryHandlers.GetCharacter | handlers/custom_handlers/history.py:9-13 | `/history` sends page 1 |
| HistoryHandlers.PageCallback | handlers/custom_handlers/history.py:16-27 | unreadable data does nothing and deletes no message |
| HistoryHandlers.PagerShowsItsPage | handlers/custom_handlers/history.py:16-27 | a pager button within the user's requests deletes the old message and sends the request at its position, with a pager over all requests |
| HistoryHandlers.HistoryPageCallback | handlers/custom_handlers/history.py:16-27 | performs `PageCallback` on the store |
| HistoryHandlers.DeleteCallback | handlers/custom_handlers/history.py:30-44 | unreadable data does nothing and deletes no message |
| HistoryHandlers.HistoryItemDeleteCallback | handlers/custom_handlers/history.py:30-44 | performs `DeleteCallback` on the store; tables stay valid |
| HistoryHandlers.SameIdSameRequest | database/models.py:25-43 | request ids identify requests |
| HistoryHandlers.DeleteLeavesOthers | handlers/custom_handlers/history.py:37 | deleting one of the user's requests without an engine error succeeds and leaves exactly the others |
| HistoryHandlers.DeleteFromShownPage | handlers/custom_handlers/history.py:30-44 | the delete button of a shown page deletes the old message; without an engine error it removes that request and its links and keeps the others, with one the request stays listed; then the latest remaining request or "История пуста." is sent |
| HotelsHandlers.CommandStep | handlers/custom_handlers/hotels.py:17-36 | a command moves to `city`, asks for the city and stores the command as typed, keeping the other stored fields |
| HotelsHandlers.CityStep | handlers/custom_handlers/hotels.py:39-86 | cities found: keyboard and state `city_id`; none found or a failed lookup: their message and no change; a keyboard error: nothing sent and no change; the data never changes |
| HotelsHandlers.CityChosenStep | handlers/custom_handlers/hotels.py:89-116 | a readable button stores the city id and name and asks for the hotel count, in any state |
| HotelsHandlers.HotelsCountStep | handlers/custom_handlers/hotels.py:119-151 | a count from 1 to 15 is stored and the calendar shown; anything else gets the error and changes nothing |
| HotelsHandlers.DateStep | handlers/custom_handlers/hotels.py:154-208 | the first picked day is the check-in and is kept; the next is the check-out, with the stay length and the images question; after both, presses do nothing |
| HotelsHandlers.Visits | handlers/custom_handlers/hotels.py:272-306 | over `Visit` of each hotel: at least one message per hotel, at most one stored row per hotel |
| HotelsHandlers.VisitCards | handlers/custom_handlers/hotels.py:276-292 | a hotel's card carries its price for the whole stay, and no photo follows it unless photos were asked for |
| HotelsHandlers.VisitsCards | handlers/custom_handlers/hotels.py:272-306 | every card of the search carries its hotel's price for the whole stay, and no photo is sent unless photos were asked for |
| HotelsHandlers.SavedList | handlers/custom_handlers/hotels.py:293-300 | one stored row per hotel, built from its details |
| HotelsHandlers.VisitsStoreDetailed | handlers/custom_handlers/hotels.py:283-306 | the stored hotels are exactly those whose details were fetched, in search order |
| HotelsHandlers.FinalOutcome | handlers/custom_handlers/hotels.py:245-338 | a missing value stops it; the search (`Search`) gets the stored values and the stored request (`QueryOf`) the dialogue's values, the user and the time; a failed search says "no data"; a successful one sends the cards and "search finished" and stores the search; the database changes only after a successful search |
| HotelsHandlers.ImagesNeededStep | handlers/custom_handlers/hotels.py:211-242 | `Да` asks for the photo count; anything else stores "no photos", then `/bestdeals` asks for the distance and the others run the final step |
| HotelsHandlers.ImagesCountStep | handlers/custom_handlers/hotels.py:341-368 | a count from 1 to 10 is stored, then `/low` and `/high` run the final step and `/bestdeals` asks for the distance; anything else gets the error |
| HotelsHandlers.DistanceStep | handlers/custom_handlers/hotels.py:371-385 | any number, 0 included, is stored as the distance and the lowest price asked for |
| HotelsHandlers.LowPriceStep | handlers/custom_handlers/hotels.py:388-406 | every number reaching it is stored; the negative-price message is never sent |
| HotelsHandlers.HighPriceStep | handlers/custom_handlers/hotels.py:409-447 | a price below the lowest is refused and changes nothing; otherwise it is stored, the final step runs and the entry ends |
| HotelsHandlers.Route | handlers/custom_handlers/hotels.py:17-465 | commands go to `initial_point`; in a numeric state a non-number goes to the fallback except in `hotels_count`; the city pattern picks between `ask_city` and its fallback |
| HotelsHandlers.TextStep | handlers/custom_handlers/hotels.py:17-465 | every text keeps the stored entry consistent, moves only to a state some handler sets, and touches the database only when the entry ends |
| HotelsHandlers.ButtonStoresCity | keyboards/inline/cities_keyboard.py:9-23 | pressing a city's button stores that city's id and name and moves to `hotels_count` |
| HotelsHandlers.NotANumberChangesNothing | handlers/custom_handlers/hotels.py:458-465 | a non-number where a number is expected changes nothing and gets an error, the hotel count's own in `hotels_count` |
| HotelsHandlers.NoBoundsForLowAndHigh | handlers/custom_handlers/hotels.py:211-368 | `/low` and `/high` never reach the distance and price questions |
| HotelsHandlers.StoredDatesStallCalendar | handlers/custom_handlers/hotels.py:159-170 | once both dates are stored, a new search through the same entry reaches the calendar, whose presses then do nothing |
| HotelsHandlers.SearchCommandText | handlers/custom_handlers/hotels.py:18 | `/high`, `/low` and `/bestdeals` are caught by the command filter |
| HotelsHandlers.DigitsAreNoCommand | handlers/custom_handlers/hotels.py:18 | a number is never a command |
| HotelsHandlers.WalkToCalendar | handlers/custom_handlers/hotels.py:17-151 | a command, a city, its button and a valid count lead to `enter_date` with those values stored |
| HotelsHandlers.WalkThroughDates | handlers/custom_handlers/hotels.py:154-208 | two picked days store both dates and the stay length and move to `is_images_needed` |
| HotelsHandlers.WalkToDistance | handlers/custom_handlers/hotels.py:211-368 | for `/bestdeals`, `Да` and a photo count lead to `distance` with both stored |
| HotelsHandlers.WalkToPrices | handlers/custom_handlers/hotels.py:371-447 | a distance and a lowest price lead to `high_price` with both stored, and a high enough price ends the entry |
| HotelsHandlers.BestDealsWalk | handlers/custom_handlers/hotels.py:17-447 | a complete `/bestdeals` search passes through every entered state in order, stores each value, and ends the entry |
| HotelsHandlers.Dialogue.constructor | handlers/custom_handlers/hotels.py:25-28 | a chat starts with no stored entry |
| HotelsHandlers.Dialogue.Enter | handlers/custom_handlers/hotels.py:25-28 | `set_state` creates an empty entry when none exists and keeps the stored data otherwise |
| HotelsHandlers.Dialogue.Clear | handlers/custom_handlers/hotels.py:338 | `delete_state` removes the entry and its data |
| HotelsHandlers.Dialogue.InitialPoint | handlers/custom_handlers/hotels.py:17-36 | performs `CommandStep` on the entry |
| HotelsHandlers.Dialogue.AskCity | handlers/custom_handlers/hotels.py:39-86 | performs `CityStep` on the entry |
| HotelsHandlers.Dialogue.CityCallback | handlers/custom_handlers/hotels.py:89-116 | performs `CityChosenStep` on the entry |
| HotelsHandlers.Dialogue.AskEnterDate | handlers/custom_handlers/hotels.py:119-151 | performs `HotelsCountStep` on the entry |
| HotelsHandlers.Dialogue.StartEndDateCall | handlers/custom_handlers/hotels.py:154-208 | performs `DateStep` on the entry |
| HotelsHandlers.Dialogue.VisitOne | handlers/custom_handlers/hotels.py:276-306 | one pass of the loop sends and collects what `Visit` says for that hotel |
| HotelsHandlers.Dialogue.VisitAll | handlers/custom_handlers/hotels.py:272-306 | the loop over the found hotels sends and collects what `Visits` says |
| HotelsHandlers.Dialogue.FinalStep | handlers/custom_handlers/hotels.py:245-338 | performs `FinalOutcome` on the entry and the store; both stay valid |
| HotelsHandlers.Dialogue.AskIsImagesNeeded | handlers/custom_handlers/hotels.py:211-242 | performs `ImagesNeededStep` on the entry and the store |
| HotelsHandlers.Dialogue.AskImagesCount | handlers/custom_handlers/hotels.py:341-368 | performs `ImagesCountStep` on the entry and the store |
| HotelsHandlers.Dialogue.AskDistance | handlers/custom_handlers/hotels.py:371-385 | performs `DistanceStep` on the entry |
| HotelsHandlers.Dialogue.AskLowPrice | handlers/custom_handlers/hotels.py:388-406 | performs `LowPriceStep` on the entry |
| HotelsHandlers.Dialogue.GetHighPrice | handlers/custom_handlers/hotels.py:409-447 | performs `HighPriceStep` on the entry and the store |
| HotelsHandlers.Dialogue.OnText | handlers/custom_handlers/hotels.py:17-465 | a text message performs `TextStep` on the entry and the store; both stay valid |

## Left out

- The HTTP transport (`make_api_request`, `make_get_request`, `make_post_request`): each endpoint is a function parameter from the request to the status and decoded body; headers, timeouts and status codes other than success or failure are not modelled.
- Telegram I/O: messages are values of `Reply` and `Page`; their exact wording, HTML markup, photo sending, message editing and deleting are reduced to which message is sent.
- The calendar widget is a parameter that, for the minimum day offered, says whether a press navigates, picks a day or does nothing; its one-year maximum is not modelled.
- Floating point: prices and distances are integers, so `round(x, 2)` is the identity and the stay's total is `days * price`.
- The clock: today's date and the creation time of a request are parameters.
- The database engine: SQLite and peewee are replaced by three tables with their unique indexes and foreign keys; which calls raise an engine error is a parameter. The cascade delete and foreign key enforcement of SQLite are not used by the code and not modelled.
- An exception raised in a handler ends it: `@logger.catch` stands above the registration decorator, so the chat library runs the undecorated handler and its worker logs the exception. Writes made inside a `with bot.retrieve_data` block before the exception are kept. `final_step` carries its own `@logger.catch`, so its exceptions end only the final step.
- Logging, configuration loading and bot start-up; the limits 15 and 10 are constants.
- Text.IsDigits: only the ASCII digits `0`-`9` count as digits. Python's `isdigit()` and `int()` also accept other Unicode decimal digits (an Arabic-Indic `٣` is stored as 3), and `isdigit()` holds for characters such as `²` that `int()` then refuses; the model sends the state's error message and changes nothing for all of these. With such a `²`, `ask_enter_date`, `ask_images_count`, `ask_low_price` and `get_high_price` raise at `int()` before sending or storing anything, so the handler stops silently. `ask_distance` first asks for the lowest price and moves the chat to `low_price` (handlers/custom_handlers/hotels.py:377-383), and only then raises at `int()` (line 385): the chat goes on without a stored distance, and every high price it is later given stops at `get_high_price`'s log of `data['distance']` (line 442), so that search never runs.
- Text.ParseInt: `int()` also accepts surrounding blanks, `_` between digits and non-ASCII digits; the model refuses them. Callback data built by the bot never contains them.
- Text.IsWhitespace: only ASCII whitespace splits a command from its arguments; `str.split()` also splits at other Unicode spaces such as U+00A0.
- JsonValue.StringAt: a JSON value of another type where the code reads a string or a number (`gaiaId`, `shortName`, `id`, `name`, `addressLine`, `url`, a distance) is treated as a reading error. Python keeps such a value as it is, for example an integer `gaiaId` in the button data.
- Crud.CreateHotel: a hotel is stored under the API's id string. The `Hotel.id` column is an integer field, so peewee converts the id with `int()`: ids such as `"012"` and `"12"` share one row (the second insert breaks the unique index and returns the first row), and an id that is not a number makes the insert fail, which ends the write with `False`. The model stores each distinct string as its own row and never fails on a non-numeric id.
- Models.NextRequestId: SQLite picks an unused id at random once the largest id reaches 2^63 - 1; the model always adds one.
- Group chats: the chat id is taken to be the user id, so each chat has one stored entry; concurrent updates are not modelled.
- Handlers registered in other files than `hotels.py` (`/start`, `/help` and the catch-all echo): texts that no dialogue handler takes are left to them and change nothing here; the modules' import order, which decides whether the echo handler runs before the dialogue's, is not part of this model, and the dialogue's handlers are taken to be asked first.
- HotelsHandlers.FinalOutcome: when a value is missing, the search request `final_step` sends before reading the values is not modelled; it has no visible effect.
- Crud.RecordSearch: the dialogue and the store use the corrected write, which passes the request's id to the link write (see Findings); the write as the code performs it is `Crud.RecordSearchAsWritten`.
- HotelsHandlers.Route: the state filter is matched against the state of the chat; the library's exact matching of the state's name is not modelled.
- HistoryHandlers.HistoryPage: of the reads in `send_history_page`, only opening the connection and the select of the user's requests are made to fail. The reads of a request's links and of each linked hotel (handlers/custom_handlers/history.py:84-85) are taken not to raise; a raising one would end the handler with nothing sent, as a raising select does.
- HistoryHandlers.PageCallback: the pager's markup (which page buttons are shown) is reduced to the page count and the current page.

## Findings

| source | as written | input that shows it | evidently intended | confidence | as-written member | corrected member |
|---|---|---|---|---|---|---|
| database/tools/CRUD.py:130-134 | the link write receives the select query `create_and_return_request` returns (every column of the rows under `(created_at, user)`) as its `request`; peewee writes it as a sub-select, SQLite refuses a thirteen-column sub-select, and the write answers `False` | any search with at least one hotel: the request and its first hotel are stored, no link, and the write answers `False` | the link refers to the stored request's id, and every hotel of the search is linked in order | not executed; rests on how peewee writes a query value and on SQLite refusing a multi-column sub-select | Crud.AsWrittenStoresNoLink | Crud.WriteThenList |
