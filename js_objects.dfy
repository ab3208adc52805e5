/**
 * Plain JavaScript objects as the source builds them with literals, spreads,
 * property assignment and rest destructuring: their own entries in insertion
 * order. A `Date` is held as its number of milliseconds.
 */
module JsObjects {
  import opened Text

  datatype JsValue = Undefined | Null | Str(s: string) | Num(n: int) | Bool(b: bool) | Strings(xs: seq<string>)

  /** `String(v)`, which is also what a template literal inserts; an array is joined with ','. */
  function ToJsString(v: JsValue): string {
    match v
    case Undefined => "undefined"
    case Null => "null"
    case Str(s) => s
    case Num(n) => IntToString(n)
    case Bool(b) => if b then "true" else "false"
    case Strings(xs) => Join(xs, ',')
  }

  /** A value `!== undefined && !== null`. */
  predicate Defined(v: JsValue) {
    !v.Undefined? && !v.Null?
  }

  /** An object's own entries, in insertion order. */
  type Entries = seq<(string, JsValue)>

  function KeySet(o: Entries): set<string> {
    if o == [] then {} else {o[0].0} + KeySet(o[1..])
  }

  /** An object never holds two entries with the same key. */
  predicate DistinctKeys(o: Entries) {
    o == [] || (o[0].0 !in KeySet(o[1..]) && DistinctKeys(o[1..]))
  }

  /** `o[k]`: `undefined` when the object has no such key. */
  function Get(o: Entries, k: string): (v: JsValue)
    ensures k !in KeySet(o) ==> v == Undefined
  {
    if o == [] then Undefined else if o[0].0 == k then o[0].1 else Get(o[1..], k)
  }

  /** `o[k] = v`: an existing key keeps its place, a new one goes last. */
  function Set(o: Entries, k: string, v: JsValue): (r: Entries)
    ensures KeySet(r) == KeySet(o) + {k}
    ensures Get(r, k) == v
    ensures forall j :: j != k ==> Get(r, j) == Get(o, j)
    ensures DistinctKeys(o) ==> DistinctKeys(r)
  {
    if o == [] then [(k, v)]
    else if o[0].0 == k then
      assert ([(k, v)] + o[1..])[1..] == o[1..];
      [(k, v)] + o[1..]
    else
      var rest := Set(o[1..], k, v);
      assert ([o[0]] + rest)[1..] == rest;
      [o[0]] + rest
  }

  /** `{...a, ...b}`: `b`'s entries written over `a` one after the other. */
  function Spread(a: Entries, b: Entries): (r: Entries)
    ensures KeySet(r) == KeySet(a) + KeySet(b)
    ensures DistinctKeys(b) ==> forall k :: Get(r, k) == if k in KeySet(b) then Get(b, k) else Get(a, k)
    ensures DistinctKeys(a) ==> DistinctKeys(r)
    decreases |b|
  {
    if b == [] then a
    else Spread(Set(a, b[0].0, b[0].1), b[1..])
  }

  /** `const {k, ...rest} = o`: the object without that key. */
  function Omit(o: Entries, k: string): (r: Entries)
    ensures KeySet(r) == KeySet(o) - {k}
    ensures DistinctKeys(o) ==> Get(r, k) == Undefined
    ensures forall j :: j != k ==> Get(r, j) == Get(o, j)
    ensures DistinctKeys(o) ==> DistinctKeys(r)
  {
    if o == [] then []
    else
      var rest := Omit(o[1..], k);
      if o[0].0 == k then rest
      else
        assert ([o[0]] + rest)[1..] == rest;
        [o[0]] + rest
  }

  /** Leaving out a key the object does not have changes nothing. */
  lemma {:induction false} OmitAbsent(o: Entries, k: string)
    requires k !in KeySet(o)
    ensures Omit(o, k) == o
  {
    if o != [] {
      OmitAbsent(o[1..], k);
      assert [o[0]] + o[1..] == o;
    }
  }

  /** A key no entry carries is not a key of the object. */
  lemma {:induction false} KeyAbsent(o: Entries, k: string)
    requires forall i :: 0 <= i < |o| ==> o[i].0 != k
    ensures k !in KeySet(o)
  {
    if o != [] {
      assert forall i :: 0 <= i < |o[1..]| ==> o[1..][i] == o[i + 1];
      KeyAbsent(o[1..], k);
    }
  }
}
