/** The toolbar's search query.

    `App.jsx`, `AppFinal.jsx` and `AppSimple.jsx` build a conjunction: the
    clause `searchType:searchValue`, then `country:<country>`, then
    `actor:<actor>`, each only when its input is non-empty, joined by `" AND "`.
    `AppWithAuth.jsx` builds at most one clause, chosen by the search type, and
    writes the theme clause without its `theme:` prefix. */
module SearchQuery {
  import opened Text

  const Separator: string := " AND "

  /** The clauses `buildQuery` pushes, in push order. */
  function Clauses(searchType: string, searchValue: string, country: string, actor: string): seq<string> {
    (if searchType != "" && searchValue != "" then [searchType + ":" + searchValue] else [])
    + (if country != "" then ["country:" + country] else [])
    + (if actor != "" then ["actor:" + actor] else [])
  }

  function Query(searchType: string, searchValue: string, country: string, actor: string): string {
    Join(Clauses(searchType, searchValue, country, actor), Separator)
  }

  /** `buildQuery`: push the applicable clauses onto `conditions`, then join them. */
  method BuildQuery(searchType: string, searchValue: string, country: string, actor: string) returns (q: string)
    ensures q == Query(searchType, searchValue, country, actor)
  {
    var conditions: seq<string> := [];
    if searchType != "" && searchValue != "" {
      conditions := conditions + [searchType + ":" + searchValue];
    }
    if country != "" {
      conditions := conditions + ["country:" + country];
    }
    if actor != "" {
      conditions := conditions + ["actor:" + actor];
    }
    assert conditions == Clauses(searchType, searchValue, country, actor);
    q := Join(conditions, Separator);
  }

  /** What the toolbar shows next to the Search button. */
  function QueryLabel(q: string): string {
    if q == "" then "No filters applied" else q
  }

  /** The query is empty exactly when no clause applies; the toolbar then shows
      "No filters applied". */
  lemma QueryEmptyIff(searchType: string, searchValue: string, country: string, actor: string)
    ensures Query(searchType, searchValue, country, actor) == "" <==>
      (searchType == "" || searchValue == "") && country == "" && actor == ""
    ensures QueryLabel(Query(searchType, searchValue, country, actor)) == "No filters applied" <==>
      (searchType == "" || searchValue == "") && country == "" && actor == ""
  {
    var cs := Clauses(searchType, searchValue, country, actor);
    JoinEmpty(cs, Separator);
    if |cs| >= 1 {
      // every clause holds a ':', so a non-empty query is never the label text
      JoinEnds(cs, Separator);
      var q := Join(cs, Separator);
      assert ':' in cs[0];
      var i :| 0 <= i < |cs[0]| && cs[0][i] == ':';
      assert q[i] == ':';
      assert ':' in q;
      assert ':' !in "No filters applied";
    }
  }

  /** The first applicable clause opens the query and the last one closes it:
      no separator is written before or after the clauses. */
  lemma QueryEnds(searchType: string, searchValue: string, country: string, actor: string)
    requires country != ""
    ensures searchType != "" && searchValue != "" ==>
      searchType + ":" + searchValue <= Query(searchType, searchValue, country, actor)
    ensures (searchType == "" || searchValue == "") ==>
      "country:" + country <= Query(searchType, searchValue, country, actor)
    ensures actor == "" ==>
      var q, last := Query(searchType, searchValue, country, actor), "country:" + country;
      |last| <= |q| && q[|q| - |last|..] == last
    ensures actor != "" ==>
      var q, last := Query(searchType, searchValue, country, actor), "actor:" + actor;
      |last| <= |q| && q[|q| - |last|..] == last
  {
    JoinEnds(Clauses(searchType, searchValue, country, actor), Separator);
  }

  /** All three clauses, in the fixed order. */
  lemma QueryAllClauses(searchType: string, searchValue: string, country: string, actor: string)
    requires searchType != "" && searchValue != "" && country != "" && actor != ""
    ensures Query(searchType, searchValue, country, actor)
      == searchType + ":" + searchValue + " AND country:" + country + " AND actor:" + actor
  {
    var a, b, c := searchType + ":" + searchValue, "country:" + country, "actor:" + actor;
    assert Clauses(searchType, searchValue, country, actor) == [a, b, c];
    assert [a, b, c][1..] == [b, c];
    assert [b, c][1..] == [c];
    assert Join([b, c], Separator) == b + Separator + c;
    assert Join([a, b, c], Separator) == a + Separator + (b + Separator + c);
  }

  /** theme HEALTH, country CN, no actor. */
  lemma QueryExample()
    ensures Query("theme", "HEALTH", "CN", "") == "theme:HEALTH AND country:CN"
  {
  }

  // ---------------------------------------------------------------------
  // AppWithAuth.jsx

  /** The single clause of `AppWithAuth`'s `handleSearch`. */
  function AuthQuery(searchType: string, searchValue: string, country: string, actor: string): string {
    if searchType == "theme" && searchValue != "" then searchValue
    else if searchType == "country" && country != "" then "country:" + country
    else if searchType == "actor" && actor != "" then "actor:" + actor
    else ""
  }

  /** The single-clause query is the conjunction restricted to the field the
      search type selects; the theme clause loses its `theme:` prefix, and the
      fields the search type does not select are ignored. */
  lemma AuthQueryIsSelectedClause(searchType: string, searchValue: string, country: string, actor: string)
    ensures searchType == "country" ==> AuthQuery(searchType, searchValue, country, actor) == Query("", "", country, "")
    ensures searchType == "actor" ==> AuthQuery(searchType, searchValue, country, actor) == Query("", "", "", actor)
    ensures searchType == "theme" && searchValue != "" ==>
      Query(searchType, searchValue, "", "") == "theme:" + AuthQuery(searchType, searchValue, country, actor)
    ensures searchType == "theme" ==> AuthQuery(searchType, searchValue, country, actor) == searchValue
  {
  }

  /** The query is empty whenever the field the search type selects is empty,
      even when other fields are filled, and for any other search type. */
  lemma AuthQueryEmptyIff(searchType: string, searchValue: string, country: string, actor: string)
    ensures AuthQuery(searchType, searchValue, country, actor) == "" <==>
      (searchType == "theme" ==> searchValue == "") &&
      (searchType == "country" ==> country == "") &&
      (searchType == "actor" ==> actor == "")
  {
  }
}
