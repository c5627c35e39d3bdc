/**
 * The inline keyboard of the city choice (keyboards/inline/cities_keyboard.py) and the
 * callback data its buttons carry, `city:<city_id>:<city_name>`, as the chat library's
 * `CallbackData('city_id', 'city_name', prefix='city')` builds it.
 */
module CitiesKeyboard {
  import opened Common
  import opened Text
  import opened HotelsService

  /** An inline button: its label and the data sent back when it is pressed. */
  datatype Button = Button(text: string, callbackData: string)

  /** The library refuses an empty part, a part holding the separator, and data over 64 bytes. */
  const CallbackDataLimit: nat := 64

  /**
   * `cities_factory.new(city_id=..., city_name=...)`: the prefix and the two parts
   * joined by `:`; `None` stands for the `ValueError` the library raises.
   */
  function CityCallbackData(id: string, name: string): (r: Option<string>)
    ensures r.Some? ==> |id| > 0 && |name| > 0 && ':' !in id && ':' !in name
    ensures r.Some? ==> Utf8Length(r.value) <= CallbackDataLimit
  {
    if |id| == 0 || |name| == 0 || ':' in id || ':' in name then None
    else
      var data := Join(["city", id, name], ':');
      if Utf8Length(data) > CallbackDataLimit then None else Some(data)
  }

  /** `cities_keyboard`: one row per city, one button labelled with its name; `None` if any button raises. */
  function Keyboard(cities: seq<CityOption>): (rows: Option<seq<seq<Button>>>)
    ensures rows.Some? ==> |rows.value| == |cities|
    ensures rows.Some? ==> forall i :: 0 <= i < |cities| ==>
      && |rows.value[i]| == 1
      && rows.value[i][0].text == cities[i].name
      && Some(rows.value[i][0].callbackData) == CityCallbackData(cities[i].id, cities[i].name)
    ensures rows.None? <==> exists i :: 0 <= i < |cities| && CityCallbackData(cities[i].id, cities[i].name).None?
    decreases |cities|
  {
    if |cities| == 0 then Some([])
    else
      var c := cities[0];
      var rest := Keyboard(cities[1..]);
      assert forall i :: 0 <= i < |cities[1..]| ==> cities[1..][i] == cities[i + 1];
      match (CityCallbackData(c.id, c.name), rest)
      case (Some(data), Some(rows)) => Some([[Button(c.name, data)]] + rows)
      case (None, _) => None
      case (_, None) => None
  }

  /** The filter of `city_callback`: the data holds `city:`. */
  predicate IsCityCallback(data: string) {
    Contains(data, "city:")
  }

  /** What `city_callback` reads from the data: the second and third `:`-pieces; `None` for the `IndexError`. */
  function ChosenCity(data: string): (r: Option<(string, string)>)
    ensures r.Some? <==> |Split(data, ':')| >= 3
  {
    var parts := Split(data, ':');
    if |parts| >= 3 then Some((parts[1], parts[2])) else None
  }

  lemma {:induction false} PrefixContains(s: string, p: string)
    requires IsPrefix(p, s)
    ensures Contains(s, p)
  {
  }

  /** The data of one city's button passes the filter of `city_callback`, which reads back its id and name. */
  lemma CityDataRoundTrip(id: string, name: string)
    requires CityCallbackData(id, name).Some?
    ensures IsCityCallback(CityCallbackData(id, name).value)
    ensures ChosenCity(CityCallbackData(id, name).value) == Some((id, name))
  {
    var data := CityCallbackData(id, name).value;
    Join3("city", id, name, ':');
    assert data[..5] == "city:";
    PrefixContains(data, "city:");
    SplitJoin(["city", id, name], ':');
  }

  /**
   * Round trip: every button of the keyboard is caught by the city filter and gives
   * back, through `city_callback`, exactly the id and name of its city.
   */
  lemma KeyboardRoundTrip(cities: seq<CityOption>, i: nat)
    requires Keyboard(cities).Some? && i < |cities|
    ensures var button := Keyboard(cities).value[i][0];
      IsCityCallback(button.callbackData)
      && ChosenCity(button.callbackData) == Some((cities[i].id, cities[i].name))
  {
    CityDataRoundTrip(cities[i].id, cities[i].name);
  }
}
