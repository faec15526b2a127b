/** The small display expressions of the map popups, the results table and
    `SimpleApp`'s login form. A property that may be absent is an
    `Option<string>`; `None` and `Some("")` are the falsy ones. */
module Display {
  import opened Wrappers
  import opened Text

  predicate Given(s: Option<string>) {
    s.Some? && s.value != ""
  }

  /** `a || b`. */
  function Or(a: Option<string>, b: string): string {
    if Given(a) then a.value else b
  }

  // ---------------------------------------------------------------------
  // Country names

  /** `countryMap[country] || country || 'Unknown'` (`AppFinal.jsx`, `AppSimple.jsx`). */
  function CountryShown(table: map<string, string>, country: Option<string>): string {
    if country.Some? && country.value in table && table[country.value] != "" then table[country.value]
    else Or(country, "Unknown")
  }

  /** `getCountryName` of `AppWithAuth.jsx`: `countryMap[countryCode] || countryCode`,
      with that file's table as `table`. */
  function AuthCountryName(table: map<string, string>, code: Option<string>): Option<string> {
    if code.Some? && code.value in table && table[code.value] != "" then Some(table[code.value])
    else code
  }

  /** The table's name for a listed code, the code itself for an unlisted one,
      and "Unknown" exactly when there is no code. */
  lemma CountryShownCases(table: map<string, string>, country: Option<string>)
    requires forall c :: c in table ==> table[c] != ""
    requires "" !in table
    ensures Given(country) && country.value in table ==> CountryShown(table, country) == table[country.value]
    ensures Given(country) && country.value !in table ==> CountryShown(table, country) == country.value
    ensures CountryShown(table, country) == "Unknown" <==>
      !Given(country) || (country.value in table && table[country.value] == "Unknown")
      || (country.value !in table && country.value == "Unknown")
  {
  }

  /** `getCountryName(code) || 'Unknown'` shows what the other apps' lookup
      shows with the same table. */
  lemma AuthCountryAgrees(table: map<string, string>, code: Option<string>)
    ensures Or(AuthCountryName(table, code), "Unknown") == CountryShown(table, code)
  {
  }

  // ---------------------------------------------------------------------
  // Titles and headings

  /** The popup title of `AppFinal.jsx`. */
  function EventTitle(actor1: Option<string>, actor2: Option<string>, theme: Option<string>): string {
    Or(actor1, "Unknown Actor") + (if Given(actor2) then " vs " + actor2.value else "") + " - " + Or(theme, "Global Event")
  }

  /** The title opens with the first actor (or "Unknown Actor"), names the
      second actor only when there is one, and closes with " - " and the
      theme (or "Global Event"). */
  lemma EventTitleShape(actor1: Option<string>, actor2: Option<string>, theme: Option<string>)
    ensures var t, a, e := EventTitle(actor1, actor2, theme), Or(actor1, "Unknown Actor"), " - " + Or(theme, "Global Event");
      a <= t && |a| + |e| <= |t| && t[|t| - |e|..] == e
    ensures Given(actor2) ==>
      var t, a := EventTitle(actor1, actor2, theme), Or(actor1, "Unknown Actor");
      t[|a|..|a| + 4 + |actor2.value|] == " vs " + actor2.value
    ensures !Given(actor2) ==>
      EventTitle(actor1, actor2, theme) == Or(actor1, "Unknown Actor") + " - " + Or(theme, "Global Event")
  {
    var a, m, e := Or(actor1, "Unknown Actor"), (if Given(actor2) then " vs " + actor2.value else ""), " - " + Or(theme, "Global Event");
    assert EventTitle(actor1, actor2, theme) == a + m + e;
    assert (a + m + e)[..|a|] == a;
    assert (a + m + e)[|a|..|a| + |m|] == m;
  }

  /** The first given property, else the default: the marker title of
      `AppSimple.jsx` (theme), the popup heading of `AppWithAuth.jsx` (theme,
      themes) and the popup title of `App.jsx` (theme_name, theme). */
  function Heading(candidates: seq<Option<string>>, default: string): (h: string)
    ensures h == default || exists i :: 0 <= i < |candidates| && Given(candidates[i]) && h == candidates[i].value
  {
    if candidates == [] then default
    else if Given(candidates[0]) then candidates[0].value
    else
      var h := Heading(candidates[1..], default);
      assert forall i :: 1 <= i < |candidates| ==> candidates[i] == candidates[1..][i - 1];
      h
  }

  /** The heading is the first given candidate, and the default only when
      none is given. */
  lemma {:induction false} HeadingFirstGiven(candidates: seq<Option<string>>, default: string, i: nat)
    requires i < |candidates| && Given(candidates[i])
    requires forall j :: 0 <= j < i ==> !Given(candidates[j])
    ensures Heading(candidates, default) == candidates[i].value
  {
    if i > 0 {
      HeadingFirstGiven(candidates[1..], default, i - 1);
    }
  }

  lemma {:induction false} HeadingDefault(candidates: seq<Option<string>>, default: string)
    requires forall j :: 0 <= j < |candidates| ==> !Given(candidates[j])
    ensures Heading(candidates, default) == default
  {
    if candidates != [] {
      HeadingDefault(candidates[1..], default);
    }
  }

  /** The three headings as the apps write them. */
  lemma Headings(theme: Option<string>, themes: Option<string>, themeName: Option<string>)
    ensures Heading([theme], "Global News Event") == Or(theme, "Global News Event")
    ensures Heading([theme, themes], "Global News Event") == Or(theme, Or(themes, "Global News Event"))
    ensures Heading([themeName, theme], "Global News Event") == Or(themeName, Or(theme, "Global News Event"))
  {
    assert [theme][1..] == [];
    assert [theme, themes][1..] == [themes];
    assert [themeName, theme][1..] == [theme];
  }

  // ---------------------------------------------------------------------
  // Results table and login

  /** `source_file ? source_file.split('/').pop() : '-'` (`App.jsx`). */
  function SourceBasename(sourceFile: Option<string>): (r: string)
    ensures Given(sourceFile) ==> '/' !in r
  {
    if Given(sourceFile) then
      var parts := Split(sourceFile.value, '/');
      assert parts[|parts| - 1] in parts;
      parts[|parts| - 1]
    else "-"
  }

  /** A path of directories and a file name shows the file name; a missing
      path shows "-". */
  lemma SourceBasenameOfPath(dirs: seq<string>, file: string)
    requires forall i :: 0 <= i < |dirs| ==> '/' !in dirs[i]
    requires '/' !in file && (dirs != [] || file != "")
    ensures SourceBasename(Some(Join(dirs + [file], "/"))) == file
    ensures SourceBasename(None) == "-" && SourceBasename(Some("")) == "-"
  {
    var parts := dirs + [file];
    forall i | 0 <= i < |parts| ensures '/' !in parts[i] {
      if i < |dirs| {
        assert parts[i] == dirs[i];
      }
    }
    assert "/" == ['/'];
    SplitJoin(parts, '/');
    JoinEmpty(parts, "/");
    assert parts != [""] by {
      if |dirs| == 0 { assert parts == [file]; }
    }
    var path := Join(parts, "/");
    assert Split(path, '/') == parts;
    assert Given(Some(path));
  }

  /** `email.split('@')[0]`. */
  function LoginName(email: string): (name: string)
    ensures '@' !in name && name <= email
  {
    if '@' in email then email[..IndexOf(email, '@')] else email
  }

  /** `handleLogin`: the user handed to `onLogin`, when both fields are filled. */
  function HandleLogin(email: string, password: string): Option<(string, string)> {
    if email != "" && password != "" then Some((email, Split(email, '@')[0])) else None
  }

  /** Login goes ahead exactly when both fields are filled, and the name is
      the part of the address before its first '@'. */
  lemma HandleLoginShape(email: string, password: string)
    ensures HandleLogin(email, password).Some? <==> email != "" && password != ""
    ensures HandleLogin(email, password).Some? ==> HandleLogin(email, password).value == (email, LoginName(email))
  {
    if '@' in email {
      var i := IndexOf(email, '@');
      assert Split(email, '@')[0] == email[..i];
    }
  }

  /** "alice@example.com" logs in as "alice". */
  lemma LoginNameExample()
    ensures LoginName("alice@example.com") == "alice"
  {
    var e := "alice@example.com";
    assert e[..5] == "alice";
    assert e[5] == '@' && '@' !in e[..5];
    IndexOfFirst(e, '@', 5);
    assert LoginName(e) == e[..5];
  }


  // ---------------------------------------------------------------------
  // List caps

  /** `.slice(0, n)`. */
  function Take<T>(xs: seq<T>, n: nat): (r: seq<T>)
    ensures |r| == if |xs| < n then |xs| else n
    ensures r <= xs
  {
    if |xs| <= n then xs else xs[..n]
  }

  const FeatureCap := 1000
  const SimpleMarkerCap := 500
  const SimpleResultRows := 10

  /** The caps keep the leading items in their order and drop only the rest;
      a list under the cap is kept whole. */
  lemma TakeKeepsPrefix<T>(xs: seq<T>, n: nat, i: nat)
    requires i < |xs| && i < n
    ensures i < |Take(xs, n)| && Take(xs, n)[i] == xs[i]
    ensures |xs| <= n ==> Take(xs, n) == xs
  {
  }
}
