/** The countries of the phone widgets (`ITI_COUNTRIES` in `scripts/mock_ats.py`). */
module Countries {
  import opened Wrappers

  datatype Country = Country(iso: string, code: string)

  const ITI_COUNTRIES: seq<Country> := [
    Country("af", "93"), Country("ar", "54"), Country("au", "61"), Country("at", "43"),
    Country("be", "32"), Country("br", "55"), Country("ca", "1"), Country("cl", "56"),
    Country("co", "57"), Country("dk", "45"), Country("fr", "33"), Country("de", "49"),
    Country("in", "91"), Country("ie", "353"), Country("il", "972"), Country("it", "39"),
    Country("jp", "81"), Country("mx", "52"), Country("nl", "31"), Country("nz", "64"),
    Country("no", "47"), Country("ph", "63"), Country("pl", "48"), Country("pt", "351"),
    Country("sg", "65"), Country("za", "27"), Country("kr", "82"), Country("es", "34"),
    Country("se", "46"), Country("ch", "41"), Country("gb", "44"), Country("us", "1")]

  /** The first country with this ISO code. */
  function ByIso(countries: seq<Country>, iso: string): Option<Country> {
    if countries == [] then None
    else if countries[0].iso == iso then Some(countries[0])
    else ByIso(countries[1..], iso)
  }
}
