/** `src/api/index.ts`: the query string of the typed API client and the three
    endpoint URLs built on it.

    `buildQs` walks `Object.entries(obj)` and calls `URLSearchParams.set(k, String(v))`
    for every entry whose value is not `undefined`, `null` or `""`. The query is kept
    as its list of name/value pairs; `Serialize` writes them as `k=v` joined by `&`
    (the percent-encoding of `URLSearchParams.toString` is not part of this model). */
module QueryString {
  import opened Wrappers
  import opened JsObject
  import opened Text

  /** The values `buildQs` skips: `undefined`, `null` and `""`. */
  predicate Omitted(v: JsValue) {
    v.Undefined? || v.Null? || v == Str("")
  }

  /** The values `buildQs` keeps; `0` and `false` among them. */
  predicate Present(v: JsValue) {
    !Omitted(v)
  }

  /** The entries whose value passes `keep`, in entry order, each value as `String(v)`. */
  function Kept(obj: seq<(string, JsValue)>, keep: JsValue -> bool): seq<(string, string)> {
    if obj == [] then []
    else (if keep(obj[0].1) then [(obj[0].0, ToStr(obj[0].1))] else []) + Kept(obj[1..], keep)
  }

  /** The loop both query builders run over `Object.entries(obj)`:
      `searchParams.set(k, String(v))` for each entry whose value passes `keep`. */
  method SetKept(obj: seq<(string, JsValue)>, keep: JsValue -> bool) returns (u: seq<(string, string)>)
    ensures u == Spread([], Kept(obj, keep))
  {
    u := [];
    var i := 0;
    while i < |obj|
      invariant 0 <= i <= |obj|
      invariant u == Spread([], Kept(obj[..i], keep))
    {
      var k, v := obj[i].0, obj[i].1;
      KeptConcat(obj[..i], [obj[i]], keep);
      assert obj[..i + 1] == obj[..i] + [obj[i]];
      if keep(v) {
        u := Assign(u, k, ToStr(v));
        assert Kept(obj[..i + 1], keep) == Kept(obj[..i], keep) + [(k, ToStr(v))];
      } else {
        assert Kept(obj[..i + 1], keep) == Kept(obj[..i], keep);
      }
      i := i + 1;
    }
    assert obj[..i] == obj;
  }

  /** The pairs of the `URLSearchParams` that `buildQs` fills. */
  function QsPairs(obj: seq<(string, JsValue)>): seq<(string, string)> {
    Spread([], Kept(obj, Present))
  }

  /** `buildQs`, up to the final `toString()`. */
  method BuildQs(obj: seq<(string, JsValue)>) returns (u: seq<(string, string)>)
    ensures u == QsPairs(obj)
  {
    u := SetKept(obj, Present);
  }

  /** `URLSearchParams.toString()` without percent-encoding: `k=v` pairs joined by `&`. */
  function Serialize(ps: seq<(string, string)>): string {
    Join(seq(|ps|, i requires 0 <= i < |ps| => ps[i].0 + "=" + ps[i].1), "&")
  }

  function BuildMapUrl(base: string, params: seq<(string, JsValue)>): string {
    base + "/map?" + Serialize(QsPairs(params))
  }

  function BuildStatsUrl(base: string, params: seq<(string, JsValue)>): string {
    base + "/stats?" + Serialize(QsPairs(params))
  }

  function BuildSearchUrl(base: string, params: seq<(string, JsValue)>): string {
    base + "/search?" + Serialize(QsPairs(params))
  }

  // ---------------------------------------------------------------------
  // What the query contains

  /** Keeping is done entry by entry, so the kept keys follow the entry order. */
  lemma {:induction false} KeptConcat(a: seq<(string, JsValue)>, b: seq<(string, JsValue)>, keep: JsValue -> bool)
    ensures Kept(a + b, keep) == Kept(a, keep) + Kept(b, keep)
  {
    if a != [] {
      assert (a + b)[1..] == a[1..] + b;
      KeptConcat(a[1..], b, keep);
    } else {
      assert a + b == b;
    }
  }

  lemma {:induction false} KeptKeys(obj: seq<(string, JsValue)>, keep: JsValue -> bool)
    ensures forall j :: j in Keys(Kept(obj, keep)) ==> j in Keys(obj)
  {
    if obj != [] {
      KeptKeys(obj[1..], keep);
      var head := if keep(obj[0].1) then [(obj[0].0, ToStr(obj[0].1))] else [];
      KeysConcat(head, Kept(obj[1..], keep));
      assert Keys(obj) == [obj[0].0] + Keys(obj[1..]);
    }
  }

  lemma {:induction false} KeptDistinct(obj: seq<(string, JsValue)>, keep: JsValue -> bool)
    requires DistinctKeys(obj)
    ensures DistinctKeys(Kept(obj, keep))
  {
    if obj != [] && keep(obj[0].1) {
      KeptDistinct(obj[1..], keep);
      KeptKeys(obj[1..], keep);
      assert Keys(obj) == [obj[0].0] + Keys(obj[1..]);
      var r := Kept(obj, keep);
      assert r == [(obj[0].0, ToStr(obj[0].1))] + Kept(obj[1..], keep);
      forall i, j | 0 <= i < j < |r| ensures r[i].0 != r[j].0 {
        if i == 0 {
          assert r[j] == Kept(obj[1..], keep)[j - 1];
          assert r[j].0 in Keys(Kept(obj[1..], keep));
        }
      }
    } else if obj != [] {
      KeptDistinct(obj[1..], keep);
    }
  }

  /** What the query holds for a key that reads `o` in the object. */
  function Selected(o: Option<JsValue>, keep: JsValue -> bool): Option<string> {
    match o
    case Some(v) => if keep(v) then Some(ToStr(v)) else None
    case None => None
  }

  lemma {:induction false} KeptGet(obj: seq<(string, JsValue)>, k: string, keep: JsValue -> bool)
    requires DistinctKeys(obj)
    ensures Get(Kept(obj, keep), k) == Selected(Get(obj, k), keep)
  {
    if obj != [] {
      var e, rest := obj[0], obj[1..];
      assert DistinctKeys(rest) by {
        forall i, j | 0 <= i < j < |rest| ensures rest[i].0 != rest[j].0 {
          assert rest[i] == obj[i + 1] && rest[j] == obj[j + 1];
        }
      }
      KeptGet(rest, k, keep);
      if !keep(e.1) {
        assert Kept(obj, keep) == Kept(rest, keep);
        if e.0 == k {
          KeptKeys(rest, keep);
          assert Keys(obj) == [e.0] + Keys(rest);
          GetNone(Kept(rest, keep), k);
          GetNone(rest, k);
        }
      } else {
        assert Kept(obj, keep) == [(e.0, ToStr(e.1))] + Kept(rest, keep);
      }
    }
  }

  lemma KeysConcat<V>(a: seq<(string, V)>, b: seq<(string, V)>)
    ensures Keys(a + b) == Keys(a) + Keys(b)
  {
  }

  /** On an object (distinct keys) the loop's repeated `set` only appends: the
      query is exactly the kept entries. */
  lemma QsPairsIsKept(obj: seq<(string, JsValue)>)
    requires DistinctKeys(obj)
    ensures QsPairs(obj) == Kept(obj, Present)
  {
    KeptDistinct(obj, Present);
    SpreadOntoEmpty(Kept(obj, Present));
  }

  /** `buildQs` drops a key whose value is `undefined`, `null` or `""`, and gives
      every other key the value `String(v)`; a key not in the object is not in
      the query. */
  lemma QsGet(obj: seq<(string, JsValue)>, k: string)
    requires DistinctKeys(obj)
    ensures Get(QsPairs(obj), k) == Selected(Get(obj, k), Present)
  {
    QsPairsIsKept(obj);
    KeptGet(obj, k, Present);
  }

  /** Every key appears in the query at most once. */
  lemma QsDistinct(obj: seq<(string, JsValue)>)
    ensures DistinctKeys(QsPairs(obj))
  {
    SpreadDistinct([], Kept(obj, Present));
  }

  /** A numeric `0` is kept, written "0" (a tone bound of zero reaches the server). */
  lemma ZeroIsKept(k: string)
    ensures QsPairs([(k, Num(0))]) == [(k, "0")]
  {
    assert Kept([(k, Num(0))], Present) == [(k, "0")];
    assert DistinctKeys([(k, "0")]);
    SpreadOntoEmpty([(k, "0")]);
  }

  /** The query is empty exactly when every value of the object is omitted. */
  lemma QsEmpty(obj: seq<(string, JsValue)>)
    ensures QsPairs(obj) == [] <==> forall i :: 0 <= i < |obj| ==> Omitted(obj[i].1)
  {
    KeptEmpty(obj, Present);
    SpreadEmpty(Kept(obj, Present));
  }

  /** Setting at least one pair leaves the query non-empty. */
  lemma SpreadEmpty(b: seq<(string, string)>)
    ensures Spread([], b) == [] <==> b == []
  {
    if b != [] {
      assert Spread([], b) == Assign(Spread([], b[..|b| - 1]), b[|b| - 1].0, b[|b| - 1].1);
      AssignNonEmpty(Spread([], b[..|b| - 1]), b[|b| - 1].0, b[|b| - 1].1);
    }
  }

  lemma AssignNonEmpty<V>(ps: seq<(string, V)>, k: string, v: V)
    ensures Assign(ps, k, v) != []
  {
  }

  lemma {:induction false} KeptEmpty(obj: seq<(string, JsValue)>, keep: JsValue -> bool)
    ensures Kept(obj, keep) == [] <==> forall i :: 0 <= i < |obj| ==> !keep(obj[i].1)
  {
    if obj != [] {
      KeptEmpty(obj[1..], keep);
      assert forall i :: 1 <= i < |obj| ==> obj[i] == obj[1..][i - 1];
    }
  }

  /** The serialized query is empty exactly when there are no pairs. */
  lemma SerializeEmpty(ps: seq<(string, string)>)
    ensures Serialize(ps) == "" <==> ps == []
  {
    var parts := seq(|ps|, i requires 0 <= i < |ps| => ps[i].0 + "=" + ps[i].1);
    JoinEmpty(parts, "&");
    if |ps| == 1 {
      assert parts[0] != "";
    }
  }

  /** With no value set, `buildMapUrl(base, {})` is `base + "/map?"`, keeping the `?`. */
  lemma EmptyParamsUrls(base: string, params: seq<(string, JsValue)>)
    requires forall i :: 0 <= i < |params| ==> Omitted(params[i].1)
    ensures BuildMapUrl(base, params) == base + "/map?"
    ensures BuildStatsUrl(base, params) == base + "/stats?"
    ensures BuildSearchUrl(base, params) == base + "/search?"
  {
    QsEmpty(params);
    SerializeEmpty(QsPairs(params));
  }

  /** The three builders write the same query after their own path. */
  lemma UrlsShareQuery(base: string, params: seq<(string, JsValue)>)
    ensures BuildMapUrl(base, params)[|base| + 5..] == BuildStatsUrl(base, params)[|base| + 7..]
    ensures BuildStatsUrl(base, params)[|base| + 7..] == BuildSearchUrl(base, params)[|base| + 8..]
    ensures BuildMapUrl(base, params)[|base| + 5..] == Serialize(QsPairs(params))
  {
  }

  // ---------------------------------------------------------------------
  // Reading the query back

  /** One `name=value` piece read back: the name ends at the first `=`. */
  function ParsePair(s: string): (string, string) {
    if '=' in s then (s[..IndexOf(s, '=')], s[IndexOf(s, '=') + 1..]) else (s, "")
  }

  /** The pairs of a query string (without percent-decoding). */
  function Parse(q: string): seq<(string, string)> {
    if q == "" then []
    else
      var pieces := Split(q, '&');
      seq(|pieces|, i requires 0 <= i < |pieces| => ParsePair(pieces[i]))
  }

  /** A query whose names contain no `=` or `&` and whose values contain no `&`
      (what percent-encoding guarantees) reads back as the pairs that were written. */
  lemma SerializeRoundTrip(ps: seq<(string, string)>)
    requires forall i :: 0 <= i < |ps| ==> '=' !in ps[i].0 && '&' !in ps[i].0 && '&' !in ps[i].1
    ensures Parse(Serialize(ps)) == ps
  {
    SerializeEmpty(ps);
    if ps != [] {
      var parts := seq(|ps|, i requires 0 <= i < |ps| => ps[i].0 + "=" + ps[i].1);
      forall i | 0 <= i < |parts| ensures '&' !in parts[i] {
        assert parts[i] == ps[i].0 + "=" + ps[i].1;
      }
      SplitJoin(parts, '&');
      forall i | 0 <= i < |ps| ensures ParsePair(parts[i]) == ps[i] {
        var s := parts[i];
        assert s[|ps[i].0|] == '=' && s[..|ps[i].0|] == ps[i].0;
        IndexOfFirst(s, '=', |ps[i].0|);
        assert s[|ps[i].0| + 1..] == ps[i].1;
      }
    }
  }
}
