/** The display rules of a city card: temperature text, icon URL, favourite label. */
module CityCard {
  import opened Text
  import opened WeatherData

  /** The temperature text: `temp_c` + "°C" for unit "C", `temp_f` + "°F" for any other unit. */
  function TempLabel(city: City, unit: string): (r: string)
    ensures unit == "C" ==> r == city.current.tempC.text + "°C"
    ensures unit != "C" ==> r == city.current.tempF.text + "°F"
    ensures |r| >= 2 && r[|r| - 2] == '°'
    ensures r[|r| - 1] == 'C' <==> unit == "C"
  {
    if unit == "C" then city.current.tempC.text + "°C" else city.current.tempF.text + "°F"
  }

  /** The icon URL: a protocol-relative "//host/path" gets "https:" in front. */
  function IconUrl(icon: string): (r: string)
    ensures !StartsWith(r, "//")
    ensures StartsWith(icon, "//") ==> r == "https:" + icon
    ensures !StartsWith(icon, "//") ==> r == icon
  {
    if StartsWith(icon, "//") then
      var r := "https:" + icon;
      assert r[0] == 'h';
      r
    else icon
  }

  /** Normalising an icon URL twice is normalising it once. */
  lemma IconUrlIdempotent(icon: string)
    ensures IconUrl(IconUrl(icon)) == IconUrl(icon)
  {
  }

  /** The favourite button's label. */
  function FavLabel(isFav: bool): (r: string)
    ensures r == "Favorited" <==> isFav
    ensures r == "Favorite" <==> !isFav
  {
    if isFav then "Favorited" else "Favorite"
  }
}
