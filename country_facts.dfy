/** What the popups show for particular codes of the country tables. These
    lemmas sit apart from `Display` so that the large table definitions are in
    scope only where a lookup needs them. */
module CountryTableFacts {
  import opened Wrappers
  import CountryTables
  import Display

  /** Line 129 of `AppSimple.jsx` names "CD" "Democratic Republic of the Congo". */
  lemma CongoOnLine129()
    ensures "CD" in CountryTables.AppSimpleLines129To137
    ensures CountryTables.AppSimpleLines129To137["CD"] == "Democratic Republic of the Congo"
  {
  }

  /** "CD" is listed twice in `AppSimple.jsx` (lines 100 and 129); the popup
      shows the second name, not "DR Congo". */
  lemma CongoNames()
    ensures Display.CountryShown(CountryTables.AppSimpleCountries, Some("CD")) == "Democratic Republic of the Congo"
  {
    CongoOnLine129();
  }

  /** Line 140 of `AppFinal.jsx` names "PR" "Puerto Rico", and line 141 names
      "VG" "British Virgin Islands": the popup shows those names. */
  lemma AppFinalIslands()
    ensures Display.CountryShown(CountryTables.AppFinalCountries, Some("PR")) == "Puerto Rico"
    ensures Display.CountryShown(CountryTables.AppFinalCountries, Some("VG")) == "British Virgin Islands"
  {
  }

  /** `getCountryName` of `AppWithAuth.jsx` names "PR" from its own table
      (line 167), and the popup shows that name. */
  lemma AuthLookups()
    ensures Display.AuthCountryName(CountryTables.AppWithAuthCountries, Some("PR")) == Some("Puerto Rico")
    ensures Display.Or(Display.AuthCountryName(CountryTables.AppWithAuthCountries, Some("PR")), "Unknown") == "Puerto Rico"
  {
  }
}
