/**
 * The JavaScript values the builders store and produce: filter and update
 * fragments, projections, population descriptors and update options.
 *
 * A plain object is an association list in insertion order (the order
 * `Object.keys` and `Object.entries` report for string keys); assigning to a
 * key that is present replaces its value in place, assigning to a new key
 * appends it.
 */
module Js {
  import opened Wrappers

  datatype Value =
    | Undef
    | Null
    | Bool(b: bool)
    | Num(n: int)
    | Str(s: string)
      /** `new RegExp(pattern, 'i')`; regular-expression semantics are not modelled. */
    | Regex(pattern: string)
      /** An identifier built by the driver's `ObjectId` constructor; opaque. */
    | ObjectId(hex: string)
    | Arr(items: seq<Value>)
    | Obj(fields: seq<(string, Value)>)

  type Fields = seq<(string, Value)>

  /** JavaScript truthiness: `undefined`, `null`, `false`, `0` and `""` are falsy. */
  predicate Truthy(v: Value) {
    match v
    case Undef => false
    case Null => false
    case Bool(b) => b
    case Num(n) => n != 0
    case Str(s) => s != ""
    case _ => true
  }

  /** `typeof v === 'object'` (true of `null`, arrays, regular expressions and identifiers). */
  predicate IsObjectType(v: Value) {
    v.Null? || v.Regex? || v.ObjectId? || v.Arr? || v.Obj?
  }

  /** The own enumerable entries of a plain object; other values are treated as having none. */
  function OwnFields(v: Value): Fields {
    if v.Obj? then v.fields else []
  }

  /** The one-key object `{k: v}`. */
  function Single(k: string, v: Value): Value {
    Obj([(k, v)])
  }

  function Keys(fs: Fields): seq<string> {
    seq(|fs|, i requires 0 <= i < |fs| => fs[i].0)
  }

  ghost predicate UniqueKeys(fs: Fields) {
    forall i, j :: 0 <= i < j < |fs| ==> fs[i].0 != fs[j].0
  }

  /** `obj[k]`, with `None` for a missing key. */
  function Lookup(fs: Fields, k: string): Option<Value> {
    if fs == [] then None
    else if fs[0].0 == k then Some(fs[0].1)
    else Lookup(fs[1..], k)
  }

  /** `obj[k] = v`: replace the value in place, or append the key. */
  function Assign(fs: Fields, k: string, v: Value): Fields {
    if fs == [] then [(k, v)]
    else if fs[0].0 == k then [(k, v)] + fs[1..]
    else [fs[0]] + Assign(fs[1..], k, v)
  }

  /** Assign every entry of `es`, first to last: `es.forEach(([k, v]) => obj[k] = v)`. */
  function AssignAll(fs: Fields, es: Fields): Fields
    decreases |es|
  {
    if es == [] then fs
    else
      var n := |es| - 1;
      Assign(AssignAll(fs, es[..n]), es[n].0, es[n].1)
  }

  /** The value of the last entry of `es` with key `k`. */
  function LastWrite(es: Fields, k: string): Option<Value>
    decreases |es|
  {
    if es == [] then None
    else if es[|es| - 1].0 == k then Some(es[|es| - 1].1)
    else LastWrite(es[..|es| - 1], k)
  }

  /** An optional object, array or number read back as a JavaScript value: absent is `undefined`. */
  function OptionalObject(o: Option<Fields>): Value {
    match o
    case Some(fs) => Obj(fs)
    case None => Undef
  }

  function OptionalArray(o: Option<seq<Value>>): Value {
    match o
    case Some(xs) => Arr(xs)
    case None => Undef
  }

  function OptionalNum(o: Option<int>): Value {
    match o
    case Some(n) => Num(n)
    case None => Undef
  }

  /** `a || b`. */
  function OrElse(a: Value, b: Value): Value {
    if Truthy(a) then a else b
  }

  // ---------------------------------------------------------------------------
  // Objects as association lists

  lemma {:induction false} LookupPresent(fs: Fields, k: string)
    ensures Lookup(fs, k).Some? <==> k in Keys(fs)
  {
    if fs != [] {
      LookupPresent(fs[1..], k);
      assert Keys(fs) == [fs[0].0] + Keys(fs[1..]);
    }
  }

  lemma {:induction false} LastWritePresent(es: Fields, k: string)
    ensures LastWrite(es, k).Some? <==> k in Keys(es)
  {
    if es != [] {
      var n := |es| - 1;
      LastWritePresent(es[..n], k);
      assert Keys(es) == Keys(es[..n]) + [es[n].0];
    }
  }

  /** With unique keys the first and the last entry for a key are the same one. */
  lemma {:induction false} UniqueLastWriteIsLookup(fs: Fields, k: string)
    requires UniqueKeys(fs)
    ensures LastWrite(fs, k) == Lookup(fs, k)
  {
    if fs != [] {
      var n := |fs| - 1;
      assert UniqueKeys(fs[..n]);
      UniqueLastWriteIsLookup(fs[..n], k);
      if fs[n].0 == k {
        assert k !in Keys(fs[..n]);
        LookupPresent(fs[..n], k);
        LookupAppend(fs[..n], fs[n], k);
      } else {
        LookupAppend(fs[..n], fs[n], k);
      }
      assert fs[..n] + [fs[n]] == fs;
    }
  }

  lemma {:induction false} LookupAppend(fs: Fields, e: (string, Value), k: string)
    ensures Lookup(fs + [e], k) == if Lookup(fs, k).Some? then Lookup(fs, k) else if e.0 == k then Some(e.1) else None
  {
    if fs != [] {
      assert (fs + [e])[1..] == fs[1..] + [e];
      LookupAppend(fs[1..], e, k);
    }
  }

  /** Assignment sets the key and leaves every other key's value as it was. */
  lemma {:induction false} LookupAssign(fs: Fields, k: string, v: Value, j: string)
    ensures Lookup(Assign(fs, k, v), j) == if j == k then Some(v) else Lookup(fs, j)
  {
    if fs != [] && fs[0].0 != k {
      LookupAssign(fs[1..], k, v, j);
    }
  }

  /** Assignment keeps the key order: a present key stays where it is, a new key goes last. */
  lemma {:induction false} KeysAssign(fs: Fields, k: string, v: Value)
    ensures Keys(Assign(fs, k, v)) == if k in Keys(fs) then Keys(fs) else Keys(fs) + [k]
  {
    if fs != [] {
      assert Keys(fs) == [fs[0].0] + Keys(fs[1..]);
      if fs[0].0 == k {
        assert Keys(Assign(fs, k, v)) == [k] + Keys(fs[1..]);
      } else {
        KeysAssign(fs[1..], k, v);
        assert Keys(Assign(fs, k, v)) == [fs[0].0] + Keys(Assign(fs[1..], k, v));
      }
    }
  }

  lemma UniqueAssign(fs: Fields, k: string, v: Value)
    requires UniqueKeys(fs)
    ensures UniqueKeys(Assign(fs, k, v))
  {
    KeysAssign(fs, k, v);
    var r := Assign(fs, k, v);
    forall i, j | 0 <= i < j < |r| ensures r[i].0 != r[j].0 {
      assert Keys(r)[i] == r[i].0 && Keys(r)[j] == r[j].0;
      if k !in Keys(fs) && j == |fs| {
        assert Keys(r)[i] == Keys(fs)[i];
      } else {
        assert Keys(r)[i] == Keys(fs)[i] && Keys(r)[j] == Keys(fs)[j];
      }
    }
  }

  /** After assigning all of `es`, a key holds its last write in `es`, or its old value if `es` never writes it. */
  lemma {:induction false} LookupAssignAll(fs: Fields, es: Fields, k: string)
    ensures Lookup(AssignAll(fs, es), k) == if LastWrite(es, k).Some? then LastWrite(es, k) else Lookup(fs, k)
    decreases |es|
  {
    if es != [] {
      var n := |es| - 1;
      LookupAssignAll(fs, es[..n], k);
      LookupAssign(AssignAll(fs, es[..n]), es[n].0, es[n].1, k);
    }
  }

  /** The keys already present keep their positions; the result holds exactly the old and the written keys. */
  lemma {:induction false} KeysAssignAll(fs: Fields, es: Fields)
    ensures Keys(fs) <= Keys(AssignAll(fs, es))
    ensures forall k :: k in Keys(AssignAll(fs, es)) <==> k in Keys(fs) || k in Keys(es)
    decreases |es|
  {
    if es != [] {
      var n := |es| - 1;
      KeysAssignAll(fs, es[..n]);
      KeysAssign(AssignAll(fs, es[..n]), es[n].0, es[n].1);
      assert Keys(es) == Keys(es[..n]) + [es[n].0];
    }
  }

  lemma {:induction false} UniqueAssignAll(fs: Fields, es: Fields)
    requires UniqueKeys(fs)
    ensures UniqueKeys(AssignAll(fs, es))
    decreases |es|
  {
    if es != [] {
      var n := |es| - 1;
      UniqueAssignAll(fs, es[..n]);
      UniqueAssign(AssignAll(fs, es[..n]), es[n].0, es[n].1);
    }
  }

  // ---------------------------------------------------------------------------
  // String conversion and the identifier constructor

  function DigitChar(d: nat): char
    requires d < 10
  {
    "0123456789"[d]
  }

  function NatToString(n: nat): string
  {
    if n < 10 then [DigitChar(n)] else NatToString(n / 10) + [DigitChar(n % 10)]
  }

  /** `String(v)`. A regular expression prints as `/pattern/i` (escaping is not modelled). */
  function JsString(v: Value): string
    decreases v, 1
  {
    match v
    case Undef => "undefined"
    case Null => "null"
    case Bool(b) => if b then "true" else "false"
    case Num(n) => if n < 0 then "-" + NatToString(-n) else NatToString(n)
    case Str(s) => s
    case Regex(p) => "/" + p + "/i"
    case ObjectId(h) => h
    case Arr(items) => ArrayText(v, |items|)
    case Obj(_) => "[object Object]"
  }

  /** `Array.prototype.join(',')` of the first `n` items; `null` and `undefined` print as "". */
  function ArrayText(v: Value, n: nat): string
    requires v.Arr? && n <= |v.items|
    decreases v, 0, n
  {
    if n == 0 then ""
    else
      var last := v.items[n - 1];
      var text := if last.Undef? || last.Null? then "" else JsString(last);
      if n == 1 then text else ArrayText(v, n - 1) + "," + text
  }

  /** `ObjectId(id)`: the driver's constructor, opaque here (it throws on malformed input, which is not modelled). */
  function MakeObjectId(id: Value): Value {
    ObjectId(JsString(id))
  }

  /** `[...v]` for the values a spread accepts: arrays and strings; anything else throws. */
  function Spread(v: Value): Option<seq<Value>> {
    match v
    case Arr(items) => Some(items)
    case Str(s) => Some(seq(|s|, i requires 0 <= i < |s| => Str([s[i]])))
    case _ => None
  }

  // ---------------------------------------------------------------------------
  // Heap cells: a JavaScript array or object that several builders may share

  /** A mutable JavaScript array. */
  class JsArray {
    var items: seq<Value>

    constructor (items: seq<Value>)
      ensures this.items == items
    {
      this.items := items;
    }

    /** `xs.forEach(x => this.push(x))`. */
    method PushEach(xs: seq<Value>)
      modifies this
      ensures items == old(items) + xs
    {
      var i := 0;
      while i < |xs|
        invariant 0 <= i <= |xs|
        invariant items == old(items) + xs[..i]
      {
        assert xs[..i + 1] == xs[..i] + [xs[i]];
        items := items + [xs[i]];
        i := i + 1;
      }
      assert xs[..i] == xs;
    }
  }

  /** A mutable JavaScript plain object. */
  class JsObject {
    var fields: Fields

    constructor (fields: Fields)
      ensures this.fields == fields
    {
      this.fields := fields;
    }

    /** `Object.keys(src).forEach(k => this[k] = src[k])`, where `es` are the entries of `src`. */
    method AssignEach(es: Fields)
      modifies this
      ensures fields == AssignAll(old(fields), es)
    {
      var j := 0;
      while j < |es|
        invariant 0 <= j <= |es|
        invariant fields == AssignAll(old(fields), es[..j])
      {
        assert es[..j + 1][..j] == es[..j];
        fields := Assign(fields, es[j].0, es[j].1);
        j := j + 1;
      }
      assert es[..j] == es;
    }
  }

  /** The driver's model (collection) handle; the builders only hold it. */
  class Model {
  }

  /** The class that results are cast to; the builders only hold it. */
  class Metatype {
  }
}
