/**
 * The fragments the builders store: one filter predicate or one update
 * operator per builder call (or per entry of the object passed to it).
 */
module Fragments {
  import opened Wrappers
  import opened Js

  /** How a predicate joins the others: `'and'` (the default) or `'or'`. */
  datatype Mode = And | Or

  /** The comparison modes of `whereDate`. */
  datatype DateMode = Gte | Gt | Lt | Lte | Eq

  /** A `{lat, lng}` pair passed to the geographic helpers. */
  datatype Coord = Coord(lat: Value, lng: Value)

  /** The options of the source-tree builder's `push`: whether `each` is truthy, and `$sort` (`undefined` when absent). */
  datatype PushOptions = PushOptions(each: bool, sortBy: Value)

  /** One entry of `modifyArrayElements`: `{value, where?}`. */
  datatype ArrayEdit = ArrayEdit(value: Value, where: Value)

  /** `"$" + mode`. */
  function DateOperator(mode: DateMode): string {
    match mode
    case Gte => "$gte"
    case Gt => "$gt"
    case Lt => "$lt"
    case Lte => "$lte"
    case Eq => "$eq"
  }

  /** `{key: {op: value}}`: one predicate on one field. */
  function FieldPredicate(key: string, op: string, value: Value): Value {
    Single(key, Single(op, value))
  }

  /** One field predicate per entry of `what`, in entry order. */
  function FieldPredicates(op: string, what: Fields): seq<Value> {
    seq(|what|, i requires 0 <= i < |what| => FieldPredicate(what[i].0, op, what[i].1))
  }

  /** `{op: {key: value}}`: one update operator on one field. */
  function OpFragment(op: string, key: string, value: Value): Value {
    Single(op, Single(key, value))
  }

  /** One update fragment per entry of `entry`, in entry order. */
  function OperatorFragments(op: string, entry: Fields): seq<Value> {
    seq(|entry|, i requires 0 <= i < |entry| => OpFragment(op, entry[i].0, entry[i].1))
  }

  /** `{key: {$geoWithin: {$center: [[lat, lng], radius]}}}`. */
  function GeoFragment(key: string, c: Coord, radius: Value): Value {
    Single(key, Single("$geoWithin", Single("$center", Arr([Arr([c.lat, c.lng]), radius]))))
  }

  /** The pattern `new RegExp(v, 'i')` gets: empty for `undefined`, the source of a regular expression, else `String(v)`. */
  function RegexSource(v: Value): string {
    match v
    case Undef => ""
    case Regex(p) => p
    case _ => JsString(v)
  }

  /** `{key: new RegExp(value, 'i')}`. */
  function TextFragment(key: string, value: Value): Value {
    Single(key, Regex(RegexSource(value)))
  }

  /** The text-like predicates of the data builder: one per entry whose value is truthy, in entry order. */
  function TextLikeFragments(keyVal: Fields): seq<Value>
    decreases |keyVal|
  {
    if keyVal == [] then []
    else
      var n := |keyVal| - 1;
      TextLikeFragments(keyVal[..n]) + (if Truthy(keyVal[n].1) then [TextFragment(keyVal[n].0, keyVal[n].1)] else [])
  }

  /** `{_id: {$in: ids.map(i => ({_id: i}))}}`. */
  function WhiteListFragment(ids: seq<Value>): Value {
    FieldPredicate("_id", "$in", Arr(seq(|ids|, i requires 0 <= i < |ids| => Single("_id", ids[i]))))
  }

  /** What one `andWhere`/`orWhere` call appends: the elements of an array, or the value itself. */
  function Appended(v: Value): seq<Value> {
    if v.Arr? then v.items else [v]
  }

  /** The fragment the source-tree builder's `where(c, mode)` appends. */
  function WhereFragment(c: Value, mode: Mode): Value {
    match mode
    case And => c
    case Or => Single("$or", c)
  }

  /** `{$each: options.each ? value : [value]}`, with `$sort` added when it is truthy. */
  function PushUpdate(value: Value, options: PushOptions): Value {
    var each := if options.each then value else Arr([value]);
    Obj([("$each", each)] + (if Truthy(options.sortBy) then [("$sort", options.sortBy)] else []))
  }

  function PushFragments(entry: Fields, options: PushOptions): seq<Value> {
    seq(|entry|, i requires 0 <= i < |entry| => OpFragment("$push", entry[i].0, PushUpdate(entry[i].1, options)))
  }

  // ---------------------------------------------------------------------------
  // Array-element paths

  /** `parts.join('.')`. */
  function JoinDots(parts: seq<string>): string
    decreases |parts|
  {
    if parts == [] then ""
    else if |parts| == 1 then parts[0]
    else JoinDots(parts[..|parts| - 1]) + "." + parts[|parts| - 1]
  }

  /** `(where && Object.keys(where).map(k => '$[' + k + ']').join('.')) || '$[]'`. */
  function ArrayFilterKey(where: Value): string {
    var keys := Keys(OwnFields(where));
    if Truthy(where) && |keys| > 0 then
      JoinDots(seq(|keys|, i requires 0 <= i < |keys| => "$[" + keys[i] + "]"))
    else
      "$[]"
  }

  /** The rewritten path `key.<filter key>` that `modifyArrayElements` sets. */
  function ArrayElementsPath(key: string, where: Value): string {
    key + "." + ArrayFilterKey(where)
  }

  /** A filter with named keys targets `key.$[k1].$[k2]…`; a missing or key-less filter targets every element. */
  lemma ArrayElementsPathShape(key: string, where: Value, k: string)
    ensures !Truthy(where) ==> ArrayElementsPath(key, where) == key + ".$[]"
    ensures where.Obj? && where.fields == [] ==> ArrayElementsPath(key, where) == key + ".$[]"
    ensures where.Obj? && |where.fields| == 1 && where.fields[0].0 == k ==>
      ArrayElementsPath(key, where) == key + ".$[" + k + "]"
  {
  }

  // ---------------------------------------------------------------------------
  // Population paths of the source-tree builder

  /** `s.split('.')`. */
  function SplitDots(s: string): (parts: seq<string>)
    ensures |parts| >= 1
    ensures '.' in s ==> |parts| >= 2
  {
    if s == [] then [""]
    else
      var rest := SplitDots(s[1..]);
      assert '.' in s && s[0] != '.' ==> '.' in s[1..];
      if s[0] == '.' then [""] + rest else [[s[0]] + rest[0]] + rest[1..]
  }

  /**
   * One step of the `reduce` in `populate`: set `total.path`, add `total.populate = {}`
   * unless this is the last segment, and return `total.populate`.
   */
  function PopulateStep(total: Value, segment: string, isLast: bool): Value {
    var t := Assign(OwnFields(total), "path", Str(segment));
    var t' := if isLast then t else Assign(t, "populate", Obj([]));
    Lookup(t', "populate").GetOr(Undef)
  }

  function ReducePopulate(segments: seq<string>, i: nat, total: Value): Value
    requires i <= |segments|
    decreases |segments| - i
  {
    if i == |segments| then total
    else ReducePopulate(segments, i + 1, PopulateStep(total, segments[i], i == |segments| - 1))
  }

  /** What `populate` stores for one entry: a dotted path goes through the `reduce`, anything else is kept. */
  function ExpandPopulation(v: Value): Value {
    if v.Str? && '.' in v.s then ReducePopulate(SplitDots(v.s), 0, Obj([])) else v
  }

  lemma {:induction false} ReducePopulateUndefined(segments: seq<string>, i: nat)
    requires i < |segments|
    ensures ReducePopulate(segments, i, Obj([])) == Undef
    decreases |segments| - i
  {
    if i == |segments| - 1 {
      LookupAssign([], "path", Str(segments[i]), "populate");
    } else {
      var t := Assign([], "path", Str(segments[i]));
      LookupAssign(t, "populate", Obj([]), "populate");
      assert PopulateStep(Obj([]), segments[i], false) == Obj([]);
      ReducePopulateUndefined(segments, i + 1);
    }
  }

  /**
   * A dotted population path is stored as `undefined`: the `reduce` returns the last
   * segment's `populate` field, which is never set, rather than the root descriptor.
   */
  lemma DottedPopulationIsUndefined(s: string)
    requires '.' in s
    ensures ExpandPopulation(Str(s)) == Undef
  {
    ReducePopulateUndefined(SplitDots(s), 0);
  }

  /** The text-like predicates are the truthy entries only: all-falsy input yields none. */
  lemma {:induction false} TextLikeFragmentsFalsy(keyVal: Fields)
    ensures |TextLikeFragments(keyVal)| <= |keyVal|
    ensures (forall i :: 0 <= i < |keyVal| ==> !Truthy(keyVal[i].1)) <==> TextLikeFragments(keyVal) == []
    decreases |keyVal|
  {
    if keyVal != [] {
      var n := |keyVal| - 1;
      TextLikeFragmentsFalsy(keyVal[..n]);
      assert forall i :: 0 <= i < n ==> keyVal[..n][i] == keyVal[i];
    }
  }
}
