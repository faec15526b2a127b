/** JavaScript values and plain objects as the dashboard handles them.

    A plain object (the `params` state, the `Partial` given to a store, the
    `searchParams` of a URL) is an ordered list of key/value entries:
    JavaScript keeps string keys in insertion order, and `Object.entries`
    walks them in that order. Three operations are built on that list:
    `Assign` is `URLSearchParams.set` (and, on an object, `o[k] = v`),
    `Spread(a, b)` is `{...a, ...b}`, and `Get` reads a key. */
module JsObject {
  import opened Wrappers
  import Decimal

  /** The values parameter objects hold. Numbers are the integers the
      parameters carry (tone bounds, page numbers, result sizes). */
  datatype JsValue = Undefined | Null | Str(s: string) | Num(n: int) | Bool(b: bool)

  /** JavaScript truthiness: `undefined`, `null`, `""`, `0` and `false` are falsy. */
  predicate Truthy(v: JsValue) {
    match v
    case Undefined => false
    case Null => false
    case Str(s) => s != ""
    case Num(n) => n != 0
    case Bool(b) => b
  }

  /** `String(v)`. */
  function ToStr(v: JsValue): (r: string)
    ensures v.Num? ==> |r| >= 1
    ensures v.Str? ==> r == v.s
  {
    match v
    case Undefined => "undefined"
    case Null => "null"
    case Str(s) => s
    case Num(n) => Decimal.IntToDecimal(n)
    case Bool(b) => if b then "true" else "false"
  }

  function Keys<V>(ps: seq<(string, V)>): (ks: seq<string>)
    ensures |ks| == |ps|
    ensures forall i :: 0 <= i < |ps| ==> ks[i] == ps[i].0
  {
    if ps == [] then [] else [ps[0].0] + Keys(ps[1..])
  }

  /** Every key occurs once, as in any JavaScript object. */
  predicate DistinctKeys<V>(ps: seq<(string, V)>) {
    forall i, j :: 0 <= i < j < |ps| ==> ps[i].0 != ps[j].0
  }

  /** The value of the first entry with key `k` (`obj[k]`, `URLSearchParams.get`). */
  function Get<V>(ps: seq<(string, V)>, k: string): Option<V>
  {
    if ps == [] then None
    else if ps[0].0 == k then Some(ps[0].1)
    else Get(ps[1..], k)
  }

  /** A key reads `undefined` exactly when the object has no entry for it. */
  lemma {:induction false} GetNone<V>(ps: seq<(string, V)>, k: string)
    ensures Get(ps, k).None? <==> k !in Keys(ps)
  {
    if ps != [] {
      GetNone(ps[1..], k);
    }
  }

  /** `ps` without any entry whose key is `k`. */
  function RemoveKey<V>(ps: seq<(string, V)>, k: string): seq<(string, V)>
  {
    if ps == [] then []
    else if ps[0].0 == k then RemoveKey(ps[1..], k)
    else [ps[0]] + RemoveKey(ps[1..], k)
  }

  /** `URLSearchParams.set(k, v)`: the first entry with key `k` takes the value
      `v` and any later entry with that key is removed; without such an entry,
      `(k, v)` is appended. On an object (distinct keys) this is `o[k] = v`. */
  function Assign<V>(ps: seq<(string, V)>, k: string, v: V): seq<(string, V)>
  {
    if ps == [] then [(k, v)]
    else if ps[0].0 == k then [(k, v)] + RemoveKey(ps[1..], k)
    else [ps[0]] + Assign(ps[1..], k, v)
  }

  /** `{...a, ...b}`: the entries of `b`, in order, assigned onto `a`. */
  function Spread<V>(a: seq<(string, V)>, b: seq<(string, V)>): seq<(string, V)>
    decreases |b|
  {
    if b == [] then a
    else Assign(Spread(a, b[..|b| - 1]), b[|b| - 1].0, b[|b| - 1].1)
  }

  // ---------------------------------------------------------------------
  // Lookup

  lemma {:induction false} GetAt<V>(ps: seq<(string, V)>, i: nat)
    requires DistinctKeys(ps) && i < |ps|
    ensures Get(ps, ps[i].0) == Some(ps[i].1)
  {
    if i > 0 {
      GetAt(ps[1..], i - 1);
    }
  }

  lemma {:induction false} GetAppend<V>(ps: seq<(string, V)>, e: (string, V), k: string)
    ensures Get(ps + [e], k) == if k in Keys(ps) then Get(ps, k) else if k == e.0 then Some(e.1) else None
  {
    if ps != [] {
      assert (ps + [e])[1..] == ps[1..] + [e];
      GetAppend(ps[1..], e, k);
    }
  }

  lemma GetDropLast<V>(b: seq<(string, V)>, k: string)
    requires b != []
    ensures var b', e := b[..|b| - 1], b[|b| - 1];
      Get(b, k) == if k in Keys(b') then Get(b', k) else if k == e.0 then Some(e.1) else None
  {
    assert b == b[..|b| - 1] + [b[|b| - 1]];
    GetAppend(b[..|b| - 1], b[|b| - 1], k);
  }

  lemma {:induction false} GetRemoveKey<V>(ps: seq<(string, V)>, k: string, j: string)
    requires j != k
    ensures Get(RemoveKey(ps, k), j) == Get(ps, j)
  {
    if ps != [] {
      GetRemoveKey(ps[1..], k, j);
    }
  }

  /** After `set(k, v)`, `k` reads `v` and every other key reads what it read before. */
  lemma {:induction false} AssignGet<V>(ps: seq<(string, V)>, k: string, v: V, j: string)
    ensures Get(Assign(ps, k, v), j) == if j == k then Some(v) else Get(ps, j)
  {
    if ps != [] && ps[0].0 != k {
      AssignGet(ps[1..], k, v, j);
    } else if ps != [] && j != k {
      GetRemoveKey(ps[1..], k, j);
    }
  }

  lemma {:induction false} RemoveKeyAbsent<V>(ps: seq<(string, V)>, k: string)
    requires k !in Keys(ps)
    ensures RemoveKey(ps, k) == ps
  {
    if ps != [] {
      assert Keys(ps) == [ps[0].0] + Keys(ps[1..]);
      RemoveKeyAbsent(ps[1..], k);
    }
  }

  /** On an object, `set` of a key it has replaces the value in place; of a new
      key, appends it: the key order of the object is kept. */
  lemma {:induction false} AssignKeys<V>(ps: seq<(string, V)>, k: string, v: V)
    requires DistinctKeys(ps)
    ensures Keys(Assign(ps, k, v)) == if k in Keys(ps) then Keys(ps) else Keys(ps) + [k]
    ensures DistinctKeys(Assign(ps, k, v))
  {
    if ps != [] {
      var e, rest := ps[0], ps[1..];
      DropFirst(ps);
      if e.0 == k {
        RemoveKeyAbsent(rest, k);
        KeysCons((k, v), rest);
        ConsDistinct((k, v), rest);
      } else {
        AssignKeys(rest, k, v);
        KeysCons(e, Assign(rest, k, v));
        ConsDistinct(e, Assign(rest, k, v));
      }
    }
  }

  lemma KeysCons<V>(e: (string, V), ps: seq<(string, V)>)
    ensures Keys([e] + ps) == [e.0] + Keys(ps)
  {
    assert ([e] + ps)[1..] == ps;
  }

  /** Dropping the first entry of an object leaves an object without that entry's key. */
  lemma DropFirst<V>(ps: seq<(string, V)>)
    requires DistinctKeys(ps) && ps != []
    ensures DistinctKeys(ps[1..])
    ensures ps[0].0 !in Keys(ps[1..])
    ensures Keys(ps) == [ps[0].0] + Keys(ps[1..])
  {
    var rest := ps[1..];
    forall i, j | 0 <= i < j < |rest| ensures rest[i].0 != rest[j].0 {
      assert rest[i] == ps[i + 1] && rest[j] == ps[j + 1];
    }
    forall i | 0 <= i < |rest| ensures Keys(rest)[i] != ps[0].0 {
      assert rest[i] == ps[i + 1];
    }
  }

  /** An entry whose key is new, put in front of an object, makes an object. */
  lemma ConsDistinct<V>(e: (string, V), ps: seq<(string, V)>)
    requires DistinctKeys(ps) && e.0 !in Keys(ps)
    ensures DistinctKeys([e] + ps)
  {
    var r := [e] + ps;
    forall i, j | 0 <= i < j < |r| ensures r[i].0 != r[j].0 {
      if i == 0 {
        assert r[j].0 == Keys(ps)[j - 1];
      } else {
        assert r[i] == ps[i - 1] && r[j] == ps[j - 1];
      }
    }
  }

  // ---------------------------------------------------------------------
  // Spread

  /** Dropping the last entry of an object leaves an object without that entry's key. */
  lemma DropLast<V>(b: seq<(string, V)>)
    requires DistinctKeys(b) && b != []
    ensures DistinctKeys(b[..|b| - 1])
    ensures b[|b| - 1].0 !in Keys(b[..|b| - 1])
  {
    var b' := b[..|b| - 1];
    forall i, j | 0 <= i < j < |b'| ensures b'[i].0 != b'[j].0 {
      assert b'[i] == b[i] && b'[j] == b[j];
    }
    forall i | 0 <= i < |b'| ensures Keys(b')[i] != b[|b| - 1].0 {
      assert b'[i] == b[i];
    }
  }

  lemma {:induction false} KeysDropLast<V>(b: seq<(string, V)>)
    requires b != []
    ensures Keys(b) == Keys(b[..|b| - 1]) + [b[|b| - 1].0]
  {
    if |b| > 1 {
      var init, rest := b[..|b| - 1], b[1..];
      KeysDropLast(rest);
      assert rest[..|rest| - 1] == init[1..];
      assert rest[|rest| - 1] == b[|b| - 1];
      assert init[0] == b[0];
    }
  }

  lemma {:induction false} SpreadDistinct<V>(a: seq<(string, V)>, b: seq<(string, V)>)
    requires DistinctKeys(a)
    ensures DistinctKeys(Spread(a, b))
    ensures forall k :: k in Keys(Spread(a, b)) <==> k in Keys(a) || k in Keys(b)
    decreases |b|
  {
    if b != [] {
      var b', e := b[..|b| - 1], b[|b| - 1];
      var s' := Spread(a, b');
      SpreadDistinct(a, b');
      AssignKeys(s', e.0, e.1);
      KeysDropLast(b);
    }
  }

  /** `{...a, ...b}`: a key of `b` reads its value in `b`, any other key its value in `a`. */
  lemma {:induction false} SpreadGet<V>(a: seq<(string, V)>, b: seq<(string, V)>, k: string)
    requires DistinctKeys(b)
    ensures Get(Spread(a, b), k) == if k in Keys(b) then Get(b, k) else Get(a, k)
    decreases |b|
  {
    if b != [] {
      var b', e := b[..|b| - 1], b[|b| - 1];
      KeysDropLast(b);
      DropLast(b);
      SpreadGet(a, b', k);
      AssignGet(Spread(a, b'), e.0, e.1, k);
      GetDropLast(b, k);
    }
  }

  /** Spreading keeps the key order of `a` and appends the new keys after it. */
  lemma {:induction false} SpreadKeysPrefix<V>(a: seq<(string, V)>, b: seq<(string, V)>)
    requires DistinctKeys(a)
    ensures Keys(a) <= Keys(Spread(a, b))
    decreases |b|
  {
    if b != [] {
      var b' := b[..|b| - 1];
      SpreadKeysPrefix(a, b');
      SpreadDistinct(a, b');
      AssignKeys(Spread(a, b'), b[|b| - 1].0, b[|b| - 1].1);
    }
  }

  /** Spreading only keys that `a` already has leaves the key order unchanged. */
  lemma {:induction false} SpreadExistingKeys<V>(a: seq<(string, V)>, b: seq<(string, V)>)
    requires DistinctKeys(a)
    requires forall k :: k in Keys(b) ==> k in Keys(a)
    ensures Keys(Spread(a, b)) == Keys(a)
    decreases |b|
  {
    if b != [] {
      var b' := b[..|b| - 1];
      KeysDropLast(b);
      SpreadExistingKeys(a, b');
      SpreadDistinct(a, b');
      AssignKeys(Spread(a, b'), b[|b| - 1].0, b[|b| - 1].1);
    }
  }

  /** Spreading `b` and then `c` is spreading the entries of `b` followed by those of `c`. */
  lemma {:induction false} SpreadConcat<V>(a: seq<(string, V)>, b: seq<(string, V)>, c: seq<(string, V)>)
    ensures Spread(Spread(a, b), c) == Spread(a, b + c)
    decreases |c|
  {
    if c != [] {
      var c', e := c[..|c| - 1], c[|c| - 1];
      var bc := b + c;
      assert bc != [] && bc[..|bc| - 1] == b + c' && bc[|bc| - 1] == e;
      SpreadConcat(a, b, c');
      calc {
        Spread(a, bc);
        Assign(Spread(a, b + c'), e.0, e.1);
        Assign(Spread(Spread(a, b), c'), e.0, e.1);
        Spread(Spread(a, b), c);
      }
    } else {
      assert b + c == b;
    }
  }

  /** Spreading a list of distinct entries onto `{}` gives those entries. */
  lemma {:induction false} SpreadOntoEmpty<V>(b: seq<(string, V)>)
    requires DistinctKeys(b)
    ensures Spread([], b) == b
    decreases |b|
  {
    if b != [] {
      var b', e := b[..|b| - 1], b[|b| - 1];
      DropLast(b);
      SpreadOntoEmpty(b');
      assert Spread([], b) == Assign(b', e.0, e.1);
      AppendNew(b', e.0, e.1);
      assert b == b' + [(e.0, e.1)];
    }
  }

  lemma {:induction false} AppendNew<V>(ps: seq<(string, V)>, k: string, v: V)
    requires k !in Keys(ps)
    ensures Assign(ps, k, v) == ps + [(k, v)]
  {
    if ps != [] {
      assert ps[0].0 != k && k !in Keys(ps[1..]) by {
        assert Keys(ps) == [ps[0].0] + Keys(ps[1..]);
      }
      AppendNew(ps[1..], k, v);
      assert ps + [(k, v)] == [ps[0]] + (ps[1..] + [(k, v)]);
    }
  }

  /** Two objects with the same key order that read alike on every key are equal. */
  lemma EntriesEqual<V>(p: seq<(string, V)>, q: seq<(string, V)>)
    requires DistinctKeys(p) && DistinctKeys(q) && Keys(p) == Keys(q)
    requires forall k :: Get(p, k) == Get(q, k)
    ensures p == q
  {
    forall i | 0 <= i < |p| ensures p[i] == q[i] {
      GetAt(p, i);
      GetAt(q, i);
    }
  }

  /** Spreading the same object twice is spreading it once. */
  lemma SpreadIdempotent<V>(a: seq<(string, V)>, b: seq<(string, V)>)
    requires DistinctKeys(a) && DistinctKeys(b)
    ensures Spread(Spread(a, b), b) == Spread(a, b)
  {
    var ab := Spread(a, b);
    SpreadDistinct(a, b);
    SpreadDistinct(ab, b);
    SpreadExistingKeys(ab, b);
    forall k ensures Get(Spread(ab, b), k) == Get(ab, k) {
      SpreadGet(ab, b, k);
      SpreadGet(a, b, k);
    }
    EntriesEqual(Spread(ab, b), ab);
  }

  /** Setting the same key twice keeps only the second value. */
  lemma AssignTwice<V>(ps: seq<(string, V)>, k: string, v: V, w: V)
    requires DistinctKeys(ps)
    ensures Assign(Assign(ps, k, v), k, w) == Assign(ps, k, w)
  {
    var once := Assign(ps, k, v);
    AssignKeys(ps, k, v);
    AssignKeys(once, k, w);
    AssignKeys(ps, k, w);
    forall j ensures Get(Assign(once, k, w), j) == Get(Assign(ps, k, w), j) {
      AssignGet(once, k, w, j);
      AssignGet(ps, k, v, j);
      AssignGet(ps, k, w, j);
    }
    EntriesEqual(Assign(once, k, w), Assign(ps, k, w));
  }

  /** Spreading a one-entry object is one assignment. */
  lemma SpreadOne<V>(a: seq<(string, V)>, k: string, v: V)
    ensures Spread(a, [(k, v)]) == Assign(a, k, v)
  {
    assert [(k, v)][..0] == [];
  }
}
