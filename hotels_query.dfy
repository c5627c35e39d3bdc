/** The states of the hotel-search dialogue (states/hotels_query.py). */
module HotelQuery {

  /** One value per `State()` of `HotelQueryState`, in declaration order. */
  datatype QueryState =
    | Command
    | City
    | CityId
    | EnterDate
    | EndDate
    | TotalDays
    | HotelsCount
    | IsImagesNeeded
    | ImagesCount
    | Distance
    | LowPrice
    | HighPrice

  /** The states some handler of the dialogue sets; the other three are declared and never entered. */
  predicate IsEnteredState(s: QueryState) {
    s != Command && s != EndDate && s != TotalDays
  }

  /** The states whose handlers expect a number. */
  predicate IsNumericState(s: QueryState) {
    s == HotelsCount || s == ImagesCount || s == Distance || s == LowPrice || s == HighPrice
  }
}
