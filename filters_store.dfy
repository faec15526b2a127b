/** `src/store/filters.ts`: the zustand store of the typed client's filters.

    The state holds four strings and two optional tone bounds; `set(partial)`
    replaces the state by `{ ...s, ...partial }`, with no validation of what
    the partial holds. */
module FiltersStore {
  import opened Wrappers
  import opened JsObject
  import opened QueryString

  datatype Filters = Filters(gte: string, lte: string, bbox: string, q: string,
                             toneMin: Option<int>, toneMax: Option<int>)

  /** A `Partial<FiltersState>`: `None` is a key the partial does not have.
      For the tone bounds, `Some(None)` is a key present with no number. */
  datatype Partial = Partial(gte: Option<string>, lte: Option<string>, bbox: Option<string>, q: Option<string>,
                             toneMin: Option<Option<int>>, toneMax: Option<Option<int>>)

  const Defaults := Filters("2019-04-01", "2019-04-30", "70,15,135,55", "", None, None)

  const NoChange := Partial(None, None, None, None, None, None)

  /** `{ ...s, ...partial }`. */
  function Merge(s: Filters, p: Partial): Filters {
    Filters(p.gte.GetOr(s.gte), p.lte.GetOr(s.lte), p.bbox.GetOr(s.bbox), p.q.GetOr(s.q),
            p.toneMin.GetOr(s.toneMin), p.toneMax.GetOr(s.toneMax))
  }

  /** `{ ...p1, ...p2 }`: the keys of both partials, `p2` winning. */
  function Combine(p1: Partial, p2: Partial): Partial {
    Partial(if p2.gte.Some? then p2.gte else p1.gte,
            if p2.lte.Some? then p2.lte else p1.lte,
            if p2.bbox.Some? then p2.bbox else p1.bbox,
            if p2.q.Some? then p2.q else p1.q,
            if p2.toneMin.Some? then p2.toneMin else p1.toneMin,
            if p2.toneMax.Some? then p2.toneMax else p1.toneMax)
  }

  /** The store object: its six fields, replaced together by `set`. */
  class Store {
    var gte: string
    var lte: string
    var bbox: string
    var q: string
    var toneMin: Option<int>
    var toneMax: Option<int>

    function State(): Filters
      reads this
    {
      Filters(gte, lte, bbox, q, toneMin, toneMax)
    }

    /** The initial state passed to `create`: no tone bounds. */
    constructor ()
      ensures State() == Defaults
    {
      gte, lte, bbox, q := "2019-04-01", "2019-04-30", "70,15,135,55", "";
      toneMin, toneMax := None, None;
    }

    /** `set(partial)`: every key of the partial overwrites its field. */
    method Set(p: Partial)
      modifies this
      ensures State() == Merge(old(State()), p)
    {
      if p.gte.Some? { gte := p.gte.value; }
      if p.lte.Some? { lte := p.lte.value; }
      if p.bbox.Some? { bbox := p.bbox.value; }
      if p.q.Some? { q := p.q.value; }
      if p.toneMin.Some? { toneMin := p.toneMin.value; }
      if p.toneMax.Some? { toneMax := p.toneMax.value; }
    }
  }

  /** An empty partial changes nothing. */
  lemma MergeNoChange(s: Filters)
    ensures Merge(s, NoChange) == s
  {
  }

  /** Setting the same partial twice is setting it once. */
  lemma MergeIdempotent(s: Filters, p: Partial)
    ensures Merge(Merge(s, p), p) == Merge(s, p)
  {
  }

  /** Two `set` calls in a row are one `set` of the combined partial. */
  lemma MergeCombine(s: Filters, p1: Partial, p2: Partial)
    ensures Merge(Merge(s, p1), p2) == Merge(s, Combine(p1, p2))
  {
  }

  /** A partial that names every key replaces the whole state: the result no
      longer depends on the previous state. */
  lemma MergeTotal(s: Filters, t: Filters, p: Partial)
    requires p.gte.Some? && p.lte.Some? && p.bbox.Some? && p.q.Some? && p.toneMin.Some? && p.toneMax.Some?
    ensures Merge(s, p) == Merge(t, p)
  {
  }

  /** Nothing is validated: a reversed date range or tone range is stored as given. */
  lemma NoValidation()
    ensures var s := Merge(Defaults, Partial(Some("2020-01-01"), Some("2019-01-01"), None, None, Some(Some(5)), Some(Some(-5))));
      s.gte == "2020-01-01" && s.lte == "2019-01-01" && s.toneMin == Some(5) && s.toneMax == Some(-5)
  {
  }

  /** Two successive sets give the same state as their combination, seen
      through the store. */
  method SetTwice(store: Store, p1: Partial, p2: Partial)
    modifies store
    ensures store.State() == Merge(old(store.State()), Combine(p1, p2))
  {
    store.Set(p1);
    store.Set(p2);
    MergeCombine(old(store.State()), p1, p2);
  }

  // ---------------------------------------------------------------------
  // The store as the object handed to `buildQs`

  /** The state as an object: the tone keys exist only once a number was set. */
  function AsObject(s: Filters): seq<(string, JsValue)> {
    [("gte", Str(s.gte)), ("lte", Str(s.lte)), ("bbox", Str(s.bbox)), ("q", Str(s.q))]
    + (if s.toneMin.Some? then [("toneMin", Num(s.toneMin.value))] else [])
    + (if s.toneMax.Some? then [("toneMax", Num(s.toneMax.value))] else [])
  }

  /** The default filters give `gte`, `lte` and `bbox`; the empty `q` is omitted. */
  lemma DefaultsQuery()
    ensures QsPairs(AsObject(Defaults)) == [("gte", "2019-04-01"), ("lte", "2019-04-30"), ("bbox", "70,15,135,55")]
  {
    var o := AsObject(Defaults);
    var kept := [("gte", "2019-04-01"), ("lte", "2019-04-30"), ("bbox", "70,15,135,55")];
    assert Kept(o, Present) == kept by {
      var o1 := o[1..];
      var o2 := o1[1..];
      var o3 := o2[1..];
      assert o3 == [("q", Str(""))] && o3[1..] == [];
      assert Kept(o3, Present) == [];
      assert Kept(o2, Present) == kept[2..];
      assert Kept(o1, Present) == kept[1..];
    }
    assert DistinctKeys(kept);
    SpreadOntoEmpty(kept);
  }

  /** A tone bound of zero is still sent by `buildQs`. */
  lemma ZeroToneSent(s: Filters)
    requires s.toneMin == Some(0)
    ensures Get(QsPairs(AsObject(s)), "toneMin") == Some("0")
  {
    var o := AsObject(s);
    assert DistinctKeys(o);
    assert o[4] == ("toneMin", Num(0));
    GetAt(o, 4);
    QsGet(o, "toneMin");
  }
}
