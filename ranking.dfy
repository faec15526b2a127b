/** The ranked charts of `src/components/Charts.jsx` drawn from search hits:
    `CountryDistributionChart` and `ThemeHeatChart`.

    Both count the hits per name in an object (`count[k] = (count[k] || 0) + 1`),
    sort `Object.entries` of it by descending count with the stable
    `Array.prototype.sort`, and keep the first eight. The theme chart also
    shortens long names and grades each count. */
module Ranking {
  import opened Wrappers
  import opened JsObject
  import Decimal

  type Entries = seq<(string, nat)>

  // ---------------------------------------------------------------------
  // Counting

  /** `count[k] = (count[k] || 0) + 1`. */
  function Bump(ps: Entries, k: string): Entries {
    Assign(ps, k, Get(ps, k).GetOr(0) + 1)
  }

  /** The counting object after the `forEach` over `ks`. */
  function Tally(ks: seq<string>): Entries {
    if ks == [] then [] else Bump(Tally(ks[..|ks| - 1]), ks[|ks| - 1])
  }

  /** The names of `ks` in the order they first occur. */
  function FirstOccurrences(ks: seq<string>): seq<string> {
    if ks == [] then []
    else
      var p := FirstOccurrences(ks[..|ks| - 1]);
      if ks[|ks| - 1] in ks[..|ks| - 1] then p else p + [ks[|ks| - 1]]
  }

  /** How many times `k` occurs in `ks`. */
  function Occurrences(ks: seq<string>, k: string): nat {
    if ks == [] then 0 else Occurrences(ks[..|ks| - 1], k) + (if ks[|ks| - 1] == k then 1 else 0)
  }

  /** The sum of the counts. */
  function Total(ps: Entries): nat {
    if ps == [] then 0 else ps[0].1 + Total(ps[1..])
  }

  /** The counting `forEach`. */
  method CountNames(ks: seq<string>) returns (counts: Entries)
    ensures counts == Tally(ks)
  {
    counts := [];
    var i := 0;
    while i < |ks|
      invariant 0 <= i <= |ks|
      invariant counts == Tally(ks[..i])
    {
      var k := ks[i];
      var current := Get(counts, k);
      var n := if current.Some? then current.value else 0;
      counts := Assign(counts, k, n + 1);
      assert ks[..i + 1][..i] == ks[..i];
      i := i + 1;
    }
    assert ks[..i] == ks;
  }

  lemma {:induction false} FirstOccurrencesElements(ks: seq<string>, k: string)
    ensures k in FirstOccurrences(ks) <==> k in ks
  {
    if ks != [] {
      var p := ks[..|ks| - 1];
      FirstOccurrencesElements(p, k);
      assert ks == p + [ks[|ks| - 1]];
    }
  }

  /** Each name gets one entry, and the entries follow the order in which the
      names first occur. */
  lemma {:induction false} TallyKeys(ks: seq<string>)
    ensures DistinctKeys(Tally(ks))
    ensures Keys(Tally(ks)) == FirstOccurrences(ks)
  {
    if ks != [] {
      var p, k := ks[..|ks| - 1], ks[|ks| - 1];
      var t := Tally(p);
      var v := Get(t, k).GetOr(0) + 1;
      assert Tally(ks) == Assign(t, k, v);
      assert FirstOccurrences(ks) == if k in p then FirstOccurrences(p) else FirstOccurrences(p) + [k];
      TallyKeys(p);
      FirstOccurrencesElements(p, k);
      AssignKeys(t, k, v);
    }
  }

  /** A name's entry holds the number of times it occurs; names that never
      occur have no entry. */
  lemma {:induction false} TallyGet(ks: seq<string>, k: string)
    ensures Get(Tally(ks), k) == if k in ks then Some(Occurrences(ks, k)) else None
  {
    if ks != [] {
      var p, x := ks[..|ks| - 1], ks[|ks| - 1];
      var t := Tally(p);
      TallyStep(ks, k);
      BumpGet(t, x, k);
      TallyGet(p, k);
      if k != x {
        assert Get(Tally(ks), k) == Get(t, k);
      } else if k in p {
        var n := Occurrences(p, k);
        assert Get(t, x) == Some(n);
        assert Get(Bump(t, x), k) == Some(n + 1);
      } else {
        OccurrencesAbsent(p, k);
        assert Get(Tally(ks), k) == Some(1);
      }
    }
  }

  /** What the last hit adds to the tally, the counts and the names seen. */
  lemma TallyStep(ks: seq<string>, k: string)
    requires ks != []
    ensures var p, x := ks[..|ks| - 1], ks[|ks| - 1];
      Tally(ks) == Bump(Tally(p), x) &&
      Occurrences(ks, k) == Occurrences(p, k) + (if x == k then 1 else 0) &&
      (k in ks <==> k in p || k == x)
  {
    assert ks == ks[..|ks| - 1] + [ks[|ks| - 1]];
  }

  /** A bump adds one to the name's count, or starts it at one, and leaves the others alone. */
  lemma BumpGet(t: Entries, x: string, k: string)
    ensures Get(Bump(t, x), k) == if k != x then Get(t, k) else if Get(t, x).Some? then Some(Get(t, x).value + 1) else Some(1)
  {
    AssignGet(t, x, Get(t, x).GetOr(0) + 1, k);
  }

  lemma {:induction false} OccurrencesAbsent(ks: seq<string>, k: string)
    requires k !in ks
    ensures Occurrences(ks, k) == 0
  {
    if ks != [] {
      OccurrencesAbsent(ks[..|ks| - 1], k);
    }
  }

  /** Assigning a key replaces its old count in the total. */
  lemma {:induction false} TotalAssign(ps: Entries, k: string, v: nat)
    requires DistinctKeys(ps)
    ensures Total(Assign(ps, k, v)) + Get(ps, k).GetOr(0) == Total(ps) + v
  {
    if ps != [] {
      var rest := ps[1..];
      assert Keys(ps) == [ps[0].0] + Keys(rest);
      if ps[0].0 == k {
        RemoveKeyAbsent(rest, k);
        assert ([(k, v)] + rest)[1..] == rest;
      } else {
        TotalAssign(rest, k, v);
        assert ([ps[0]] + Assign(rest, k, v))[1..] == Assign(rest, k, v);
      }
    }
  }

  /** The counts add up to the number of hits. */
  lemma {:induction false} TallyTotal(ks: seq<string>)
    ensures Total(Tally(ks)) == |ks|
  {
    if ks != [] {
      var p, x := ks[..|ks| - 1], ks[|ks| - 1];
      var t := Tally(p);
      var v := Get(t, x).GetOr(0) + 1;
      assert Tally(ks) == Assign(t, x, v);
      TallyTotal(p);
      TallyKeys(p);
      TotalAssign(t, x, v);
    }
  }

  // ---------------------------------------------------------------------
  // Sorting: `.sort(([,a], [,b]) => b - a)`, which is stable

  predicate Descending(ps: Entries) {
    forall i, j :: 0 <= i < j < |ps| ==> ps[i].1 >= ps[j].1
  }

  /** Insert `e` after every entry whose count is at least its own. */
  function InsertDesc(s: Entries, e: (string, nat)): Entries {
    if s == [] then [e]
    else if s[0].1 >= e.1 then [s[0]] + InsertDesc(s[1..], e)
    else [e] + s
  }

  /** Stable insertion sort by descending count. */
  function SortDesc(ps: Entries): Entries {
    if ps == [] then [] else InsertDesc(SortDesc(ps[..|ps| - 1]), ps[|ps| - 1])
  }

  /** The entries with count `c`, in order. */
  function WithCount(ps: Entries, c: nat): Entries {
    if ps == [] then [] else (if ps[0].1 == c then [ps[0]] else []) + WithCount(ps[1..], c)
  }

  lemma {:induction false} InsertDescPerm(s: Entries, e: (string, nat))
    ensures multiset(InsertDesc(s, e)) == multiset(s) + multiset{e}
  {
    if s != [] {
      assert s == [s[0]] + s[1..];
      if s[0].1 >= e.1 {
        InsertDescPerm(s[1..], e);
      }
    }
  }

  lemma {:induction false} InsertDescSorted(s: Entries, e: (string, nat))
    requires Descending(s)
    ensures Descending(InsertDesc(s, e))
  {
    if s != [] && s[0].1 >= e.1 {
      var t := InsertDesc(s[1..], e);
      InsertDescSorted(s[1..], e);
      InsertDescPerm(s[1..], e);
      forall j | 0 <= j < |t| ensures s[0].1 >= t[j].1 {
        assert t[j] in multiset(t);
        if t[j] != e {
          assert t[j] in multiset(s[1..]);
          var m :| 0 <= m < |s[1..]| && s[1..][m] == t[j];
          assert s[m + 1] == t[j];
        }
      }
      var r := [s[0]] + t;
      forall i, j | 0 <= i < j < |r| ensures r[i].1 >= r[j].1 {
        if i == 0 {
          assert r[j] == t[j - 1];
        } else {
          assert r[i] == t[i - 1] && r[j] == t[j - 1];
        }
      }
    }
  }

  /** The sort orders by descending count and loses or adds no entry. */
  lemma {:induction false} SortDescSorted(ps: Entries)
    ensures Descending(SortDesc(ps))
    ensures multiset(SortDesc(ps)) == multiset(ps)
  {
    if ps != [] {
      var p := ps[..|ps| - 1];
      SortDescSorted(p);
      InsertDescSorted(SortDesc(p), ps[|ps| - 1]);
      InsertDescPerm(SortDesc(p), ps[|ps| - 1]);
      assert ps == p + [ps[|ps| - 1]];
    }
  }

  lemma {:induction false} WithCountNone(s: Entries, c: nat)
    requires forall i :: 0 <= i < |s| ==> s[i].1 < c
    ensures WithCount(s, c) == []
  {
    if s != [] {
      WithCountNone(s[1..], c);
    }
  }

  lemma {:induction false} WithCountAppend(p: Entries, x: (string, nat), c: nat)
    ensures WithCount(p + [x], c) == WithCount(p, c) + (if x.1 == c then [x] else [])
  {
    var q := p + [x];
    var tail := if x.1 == c then [x] else [];
    if p == [] {
      assert q[1..] == [];
    } else {
      var head := if p[0].1 == c then [p[0]] else [];
      assert q[0] == p[0] && q[1..] == p[1..] + [x];
      WithCountAppend(p[1..], x, c);
      calc {
        WithCount(q, c);
        head + WithCount(p[1..] + [x], c);
        head + (WithCount(p[1..], c) + tail);
        (head + WithCount(p[1..], c)) + tail;
        WithCount(p, c) + tail;
      }
    }
  }

  lemma {:induction false} WithCountInsert(s: Entries, e: (string, nat), c: nat)
    requires Descending(s)
    ensures WithCount(InsertDesc(s, e), c) == WithCount(s, c) + (if e.1 == c then [e] else [])
  {
    if s == [] {
      assert ([e])[1..] == [];
    } else if s[0].1 >= e.1 {
      WithCountInsert(s[1..], e, c);
      assert ([s[0]] + InsertDesc(s[1..], e))[1..] == InsertDesc(s[1..], e);
    } else {
      assert ([e] + s)[1..] == s;
      if e.1 == c {
        WithCountNone(s, c);
      }
    }
  }

  /** Stability: entries with equal counts keep their relative order. */
  lemma {:induction false} SortDescStable(ps: Entries, c: nat)
    ensures WithCount(SortDesc(ps), c) == WithCount(ps, c)
  {
    if ps != [] {
      var p, x := ps[..|ps| - 1], ps[|ps| - 1];
      SortDescStable(p, c);
      SortDescSorted(p);
      WithCountInsert(SortDesc(p), x, c);
      assert ps == p + [x];
      WithCountAppend(p, x, c);
    }
  }

  /** `.slice(0, 8)`. */
  function Top(s: Entries): (r: Entries)
    ensures |r| <= 8
  {
    if |s| <= 8 then s else s[..8]
  }

  /** The entries drawn: counted, sorted, cut to eight. */
  function Ranked(ks: seq<string>): Entries {
    Top(SortDesc(Tally(ks)))
  }

  /** What a ranked chart shows: at most eight names, each with the number
      of hits it has; no name left out has more hits than a name shown; and
      eight names are shown unless there are fewer distinct names. */
  lemma RankedCharacterised(ks: seq<string>)
    ensures forall e :: e in Ranked(ks) ==> e.0 in ks && e.1 == Occurrences(ks, e.0)
    ensures forall e, f :: e in Ranked(ks) && f in Tally(ks) && f !in Ranked(ks) ==> f.1 <= e.1
    ensures |Ranked(ks)| == if |FirstOccurrences(ks)| < 8 then |FirstOccurrences(ks)| else 8
  {
    RankedSize(ks);
    forall e | e in Ranked(ks) ensures e.0 in ks && e.1 == Occurrences(ks, e.0) {
      RankedEntry(ks, e);
    }
    forall e, f | e in Ranked(ks) && f in Tally(ks) && f !in Ranked(ks) ensures f.1 <= e.1 {
      RankedFirst(ks, e, f);
    }
  }

  lemma SortDescLength(ps: Entries)
    ensures |SortDesc(ps)| == |ps|
  {
    SortDescSorted(ps);
    assert |multiset(SortDesc(ps))| == |multiset(ps)|;
  }

  lemma RankedSize(ks: seq<string>)
    ensures |Ranked(ks)| == if |FirstOccurrences(ks)| < 8 then |FirstOccurrences(ks)| else 8
  {
    SortDescLength(Tally(ks));
    TallyKeys(ks);
  }

  lemma RankedEntry(ks: seq<string>, e: (string, nat))
    requires e in Ranked(ks)
    ensures e.0 in ks && e.1 == Occurrences(ks, e.0)
  {
    var t := Tally(ks);
    SortDescSorted(t);
    TallyKeys(ks);
    assert e in multiset(SortDesc(t));
    var i :| 0 <= i < |t| && t[i] == e;
    GetAt(t, i);
    TallyGet(ks, e.0);
  }

  lemma RankedFirst(ks: seq<string>, e: (string, nat), f: (string, nat))
    requires e in Ranked(ks) && f in Tally(ks) && f !in Ranked(ks)
    ensures f.1 <= e.1
  {
    var t := Tally(ks);
    var s := SortDesc(t);
    SortDescSorted(t);
    var i :| 0 <= i < |Ranked(ks)| && Ranked(ks)[i] == e;
    assert f in multiset(t);
    var j :| 0 <= j < |s| && s[j] == f;
    assert i < j;
  }

  // ---------------------------------------------------------------------
  // The names counted

  /** `item._source?.country || 'Unknown'`. */
  function CountryName(country: Option<string>): string {
    if country.Some? && country.value != "" then country.value else "Unknown"
  }

  /** The characters `String.prototype.trim` removes. */
  predicate IsSpace(c: char) {
    c == ' ' || c == '\t' || c == '\n' || c == '\r' || c == '\U{000B}' || c == '\U{000C}'
    || c == '\U{00A0}' || c == '\U{1680}' || ('\U{2000}' <= c <= '\U{200A}')
    || c == '\U{2028}' || c == '\U{2029}' || c == '\U{202F}' || c == '\U{205F}'
    || c == '\U{3000}' || c == '\U{FEFF}'
  }

  function TrimStart(s: string): string {
    if s != [] && IsSpace(s[0]) then TrimStart(s[1..]) else s
  }

  function TrimEnd(s: string): string {
    if s != [] && IsSpace(s[|s| - 1]) then TrimEnd(s[..|s| - 1]) else s
  }

  function Trim(s: string): string {
    TrimEnd(TrimStart(s))
  }

  lemma {:induction false} TrimStartShape(s: string)
    ensures var r := TrimStart(s); |r| <= |s| && r == s[|s| - |r|..]
    ensures var r := TrimStart(s); r == [] || !IsSpace(r[0])
    ensures forall i :: 0 <= i < |s| - |TrimStart(s)| ==> IsSpace(s[i])
  {
    if s != [] && IsSpace(s[0]) {
      TrimStartShape(s[1..]);
      var r := TrimStart(s[1..]);
      assert s[1..][|s| - 1 - |r|..] == s[|s| - |r|..];
    }
  }

  lemma {:induction false} TrimEndShape(s: string)
    ensures var r := TrimEnd(s); |r| <= |s| && r == s[..|r|]
    ensures var r := TrimEnd(s); r == [] || !IsSpace(r[|r| - 1])
    ensures forall i :: |TrimEnd(s)| <= i < |s| ==> IsSpace(s[i])
  {
    if s != [] && IsSpace(s[|s| - 1]) {
      TrimEndShape(s[..|s| - 1]);
    }
  }

  /** `trim()` cuts the white space at both ends and nothing else: the result
      is a middle part of `s` that starts and ends with a non-space, and every
      character cut away is a space. */
  lemma TrimShape(s: string)
    ensures var r, a := Trim(s), |s| - |TrimStart(s)|;
      0 <= a && a + |r| <= |s| && r == s[a..a + |r|] &&
      (r == [] || (!IsSpace(r[0]) && !IsSpace(r[|r| - 1]))) &&
      (forall i :: 0 <= i < a ==> IsSpace(s[i])) &&
      (forall i :: a + |r| <= i < |s| ==> IsSpace(s[i]))
    ensures Trim(s) == [] <==> forall i :: 0 <= i < |s| ==> IsSpace(s[i])
  {
    var t := TrimStart(s);
    TrimStartShape(s);
    TrimEndShape(t);
    var a := |s| - |t|;
    forall i | a <= i < |s| ensures s[i] == t[i - a] {
    }
  }

  /** `(item.theme || 'General').toString().trim()`. */
  function ThemeName(theme: Option<string>): string {
    Trim(if theme.Some? && theme.value != "" then theme.value else "General")
  }

  /** A missing or empty theme counts as "General", but a theme of spaces
      only is truthy and counts under the empty name. */
  lemma ThemeNameFallbacks()
    ensures ThemeName(None) == "General" && ThemeName(Some("")) == "General"
    ensures ThemeName(Some("  ")) == ""
    ensures ThemeName(Some(" HEALTH ")) == ThemeName(Some("HEALTH")) == "HEALTH"
  {
    assert Trim("General") == "General";
    assert Trim("HEALTH") == "HEALTH";
    assert TrimStart(" HEALTH ") == "HEALTH ";
    assert TrimEnd("HEALTH ") == "HEALTH";
    assert TrimStart("  ") == "";
  }

  // ---------------------------------------------------------------------
  // The two charts

  /** The slices of the country pie. */
  function CountrySlices(countries: seq<Option<string>>): Entries {
    Ranked(seq(|countries|, i requires 0 <= i < |countries| => CountryName(countries[i])))
  }

  datatype ThemeBar = ThemeBar(theme: string, heat: nat, intensity: string, key: string)

  /** Names longer than twelve characters are cut to twelve and marked with "...". */
  function Label(name: string): string {
    if |name| > 12 then name[..12] + "..." else name
  }

  function Intensity(count: nat): string {
    if count > 50 then "High" else if count > 20 then "Medium" else "Low"
  }

  /** The bars of the theme heat chart. */
  function ThemeBars(themes: seq<Option<string>>): seq<ThemeBar> {
    var ranked := Ranked(seq(|themes|, i requires 0 <= i < |themes| => ThemeName(themes[i])));
    seq(|ranked|, i requires 0 <= i < |ranked| =>
      ThemeBar(Label(ranked[i].0), ranked[i].1, Intensity(ranked[i].1), "theme-" + Decimal.NatToDecimal(i)))
  }

  /** A label is the name itself up to twelve characters, otherwise its first
      twelve characters and "..."; so two long names sharing twelve
      characters get the same label. */
  lemma LabelShape(name: string)
    ensures |name| <= 12 ==> Label(name) == name
    ensures |name| > 12 ==> |Label(name)| == 15 && name[..12] <= Label(name)
    ensures Label("PROTEST_VIOLENT") == Label("PROTEST_VIOLATION")
  {
  }

  /** The grade rises with the count. */
  lemma IntensityMonotone(a: nat, b: nat)
    requires a <= b
    ensures Intensity(a) == "High" ==> Intensity(b) == "High"
    ensures Intensity(a) == "Medium" ==> Intensity(b) != "Low"
  {
  }

  /** The bars are the ranked themes in rank order: each bar's label is its
      theme's label, its heat the number of hits of that theme, and its grade
      comes from that number. */
  lemma ThemeBarsCharacterised(themes: seq<Option<string>>)
    ensures var names := seq(|themes|, i requires 0 <= i < |themes| => ThemeName(themes[i]));
      var bars, ranked := ThemeBars(themes), Ranked(names);
      |bars| == |ranked| <= 8 &&
      forall i :: 0 <= i < |bars| ==>
        (ranked[i].0 in names && bars[i].theme == Label(ranked[i].0) &&
         bars[i].heat == Occurrences(names, ranked[i].0) && bars[i].intensity == Intensity(bars[i].heat))
  {
    var names := seq(|themes|, i requires 0 <= i < |themes| => ThemeName(themes[i]));
    RankedCharacterised(names);
    var ranked := Ranked(names);
    forall i | 0 <= i < |ranked|
      ensures ranked[i].0 in names && ranked[i].1 == Occurrences(names, ranked[i].0)
    {
      assert ranked[i] in ranked;
    }
  }
}
