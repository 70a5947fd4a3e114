/**
 * The executor subclass of the data builder: the defaults and the page
 * arithmetic around the paginate call, the default projection of the find
 * calls, the `patch` guard, and the recursive `_id` stringifier. The driver
 * calls themselves are not modelled; the paginate result enters as parameters.
 */
module Executor {
  import opened Wrappers
  import opened Js
  import opened Fragments
  import opened Merge
  import opened DataQuery

  const DEFAULT_LIMIT := 20
  const PATCH_ERROR := "id must be provided when using patch"

  // ---------------------------------------------------------------------------
  // `query`: defaults and the page envelope

  /** The options object handed to the paginate call. */
  datatype PageOptions = PageOptions(
    projection: Value,
    populate: Value,
    limit: Value,
    offset: Value,
    sort: Value,
    lean: bool,
    pagination: bool,
    leanWithId: bool)

  /**
   * `query` replaces a falsy projection with `{}`, a falsy skip with 0 and a falsy limit with
   * 20, so a limit of 0 becomes 20 while any other limit is kept.
   */
  function QueryOptions(q: DataSnapshot): (o: PageOptions)
    ensures o.projection == Obj(q.projection.GetOr([]))
    ensures o.offset == Num(if q.skip.Some? then q.skip.value else 0)
    ensures o.limit == Num(if q.limit.Some? && q.limit.value != 0 then q.limit.value else DEFAULT_LIMIT)
    ensures o.limit.n != 0
    ensures o.populate == OptionalArray(q.populations) && o.lean && o.pagination && !o.leanWithId
  {
    PageOptions(
      OrElse(OptionalObject(q.projection), Obj([])),
      OptionalArray(q.populations),
      OrElse(OptionalNum(q.limit), Num(DEFAULT_LIMIT)),
      OrElse(OptionalNum(q.skip), Num(0)),
      q.sort.GetOr(Undef),
      true, true, false)
  }

  /** What `query` resolves to. */
  datatype PageEnvelope = PageEnvelope(total: nat, currentPageIndex: real, maxPageIndex: int, results: seq<Value>)

  /** `Math.floor((total + limit - 1) / limit) - 1` in floating point. */
  function MaxPageIndex(total: nat, limit: int): int
    requires limit != 0
  {
    (((total + limit - 1) as real) / (limit as real)).Floor - 1
  }

  /** The envelope built from the paginate result (`totalDocs`, `docs`) and the defaulted options. */
  function Envelope(q: DataSnapshot, totalDocs: nat, docs: seq<Value>): (e: PageEnvelope)
    ensures e.total == totalDocs && e.results == docs
    ensures e.maxPageIndex == MaxPageIndex(totalDocs, QueryOptions(q).limit.n)
    ensures e.currentPageIndex == (QueryOptions(q).offset.n as real) / (QueryOptions(q).limit.n as real)
  {
    var o := QueryOptions(q);
    PageEnvelope(totalDocs, (o.offset.n as real) / (o.limit.n as real), MaxPageIndex(totalDocs, o.limit.n), docs)
  }

  lemma CastProduct(q: int, l: int)
    ensures ((q * l) as real) == (q as real) * (l as real)
  {
  }

  /** Floating-point floor of a quotient by a positive divisor is the integer (floor) quotient. */
  lemma FloorOfQuotient(a: int, l: int)
    requires l > 0
    ensures ((a as real) / (l as real)).Floor == a / l
  {
    var q, r := a / l, a % l;
    CastProduct(q, l);
    assert (a as real) == (q as real) * (l as real) + (r as real);
    var x := (a as real) / (l as real);
    assert x == q as real + (r as real) / (l as real);
    assert 0.0 <= (r as real) / (l as real) < 1.0;
  }

  /**
   * For a positive limit the last page index `m` is `ceil(total / limit) - 1`: the pages
   * `0..m` hold every document and page `m` is not empty (so `m` is -1 for no documents).
   */
  lemma MaxPageIndexIsLastPage(total: nat, limit: int)
    requires limit > 0
    ensures var m := MaxPageIndex(total, limit);
      m * limit < total <= (m + 1) * limit && m >= -1
  {
    FloorOfQuotient(total + limit - 1, limit);
    var q := (total + limit - 1) / limit;
    assert total + limit - 1 == q * limit + (total + limit - 1) % limit;
    assert (q - 1) * limit == q * limit - limit;
  }

  /** The three worked examples: 47 documents in pages of 20 end at page 2, none at page -1, and skip 40 is page 2. */
  lemma EnvelopeExamples(q: DataSnapshot)
    requires q.skip == Some(40) && q.limit == Some(20)
    ensures Envelope(q, 47, []).maxPageIndex == 2
    ensures Envelope(q, 0, []).maxPageIndex == -1
    ensures Envelope(q, 47, []).currentPageIndex == 2.0
  {
    assert QueryOptions(q).limit.n == 20 && QueryOptions(q).offset.n == 40;
    MaxPageIndexIsLastPage(47, 20);
    MaxPageIndexIsLastPage(0, 20);
  }

  // ---------------------------------------------------------------------------
  // `findMany`/`findOne` and `patch`

  /** `query.projection || {__v: 0}`: a projection that was set, even `{}`, is kept. */
  function FindProjection(q: DataSnapshot): (p: Fields)
    ensures q.projection.Some? ==> p == q.projection.value
    ensures q.projection.None? ==> Lookup(p, "__v") == Some(Num(0)) && |p| == 1
  {
    OwnFields(OrElse(OptionalObject(q.projection), Obj([("__v", Num(0))])))
  }

  /** The update call `patch` issues: filter by the recorded id, update with the merged updates. */
  datatype UpdateCall = UpdateCall(filter: Value, update: Fields)

  /** The filter of `patch`, or its error when no id was recorded (`undefined` or the empty string). */
  function PatchFilter(id: Option<string>): (r: Result<Value>)
    ensures r.Err? <==> id.None? || id.value == ""
    ensures r.Err? ==> r.message == PATCH_ERROR
    ensures r.Ok? ==> r.value == Single("_id", MakeObjectId(Str(id.value)))
  {
    if !Truthy(OptionalString(id)) then Err(PATCH_ERROR)
    else Ok(Single("_id", MakeObjectId(Str(id.value))))
  }

  function OptionalString(o: Option<string>): Value {
    match o
    case Some(s) => Str(s)
    case None => Undef
  }

  /** Whether `getId()` reads a truthy id: `undefined` and the empty string fail the guard. */
  predicate HasId(b: DataQueryBuilder)
    requires b.Linked()
    reads b, b.ancestors
  {
    b.GetId().Some? && b.GetId().value != ""
  }

  /**
   * `patch`: throw before any update when no id was recorded; otherwise the update is by that
   * id, with the updates merged field-wise under each operator (the corrected `getUpdates`).
   * A null or undefined update fragment makes the merge throw.
   */
  method Patch(b: DataQueryBuilder) returns (r: Result<UpdateCall>)
    requires b.Linked()
    ensures !HasId(b) ==> r == Err(PATCH_ERROR)
    ensures HasId(b) && !Keyable(b.updates.items) ==> r == Err(KEYS_ERROR)
    ensures r.Ok? <==> HasId(b) && Keyable(b.updates.items)
    ensures r.Ok? ==> r.value == UpdateCall(Single("_id", MakeObjectId(Str(b.GetId().value))), OperatorUnion(b.updates.items))
  {
    var id := b.GetId();
    var filter := PatchFilter(id);
    if filter.Err? {
      return Err(filter.message);
    }
    var update := b.GetUpdatesFieldwise();
    if update.Err? {
      return Err(update.message);
    }
    r := Ok(UpdateCall(filter.value, update.value));
  }

  /**
   * `patch` as written: the same guard, but the update is `getUpdates()`, where a later
   * fragment's operator replaces an earlier fragment's whole operator object.
   */
  method PatchAsWritten(b: DataQueryBuilder) returns (r: Result<UpdateCall>)
    requires b.Linked()
    ensures !HasId(b) ==> r == Err(PATCH_ERROR)
    ensures HasId(b) && !Keyable(b.updates.items) ==> r == Err(KEYS_ERROR)
    ensures r.Ok? <==> HasId(b) && Keyable(b.updates.items)
    ensures r.Ok? ==> r.value == UpdateCall(Single("_id", MakeObjectId(Str(b.GetId().value))), MergeFragments(b.updates.items))
  {
    var id := b.GetId();
    var filter := PatchFilter(id);
    if filter.Err? {
      return Err(filter.message);
    }
    var update := b.GetUpdates();
    if update.Err? {
      return Err(update.message);
    }
    r := Ok(UpdateCall(filter.value, update.value));
  }

  /**
   * `withId("7")`, then `addToSet({a: 1, b: 2})` (two fragments under `$addToSet`): the
   * as-written `patch` adds only `b` to its set, the corrected one adds both.
   */
  method PatchDropsEarlierField(db: Model, mt: Metatype) returns (written: Result<UpdateCall>, corrected: Result<UpdateCall>)
    ensures written.Ok? && corrected.Ok?
    ensures written.value.filter == corrected.value.filter == Single("_id", ObjectId("7"))
    ensures FieldOf(written.value.update, "$addToSet", "a") == None
    ensures FieldOf(written.value.update, "$addToSet", "b") == Some(Num(2))
    ensures FieldOf(corrected.value.update, "$addToSet", "a") == Some(Num(1))
    ensures FieldOf(corrected.value.update, "$addToSet", "b") == Some(Num(2))
  {
    var b := new DataQueryBuilder(db, mt);
    b.WithId(Str("7"));
    b.AddToSet([("a", Num(1)), ("b", Num(2))]);
    var frags := OperatorFragments("$addToSet", [("a", Num(1)), ("b", Num(2))]);
    assert b.updates.items == frags;
    assert frags == [OpFragment("$addToSet", "a", Num(1)), OpFragment("$addToSet", "b", Num(2))];
    AddToSetTwoFieldsLosesFirst();
    assert JsString(Str("7")) == "7";
    assert HasId(b) && b.GetId().value == "7";
    assert Keyable(b.updates.items);
    written := PatchAsWritten(b);
    corrected := Patch(b);
  }

  /** `withId(x)` then `patch()`: the update is filtered by `ObjectId(String(x))`. */
  method WithIdThenPatch(b: DataQueryBuilder, x: Value) returns (r: Result<UpdateCall>)
    requires b.Valid()
    requires JsString(x) != ""
    modifies b`id, b.conditions
    ensures Keyable(b.updates.items) ==> r == Ok(UpdateCall(Single("_id", MakeObjectId(Str(JsString(x)))), OperatorUnion(b.updates.items)))
    ensures !Keyable(b.updates.items) ==> r == Err(KEYS_ERROR)
  {
    b.WithId(x);
    r := Patch(b);
  }

  // ---------------------------------------------------------------------------
  // `convertIdFields`

  /**
   * The value after `convertIdFields`: every property named `_id` becomes `String(value)`;
   * every other object-typed property (arrays included, whose keys are indices) is converted
   * in turn; anything else, and any non-object input, is left as it is.
   */
  function ConvertedIds(v: Value): Value
    decreases v, 1
  {
    match v
    case Obj(fs) => Obj(ConvertedFields(v, |fs|))
    case Arr(items) => Arr(ConvertedItems(v, |items|))
    case _ => v
  }

  /** The first `n` properties of the object `v`, converted. */
  function ConvertedFields(v: Value, n: nat): seq<(string, Value)>
    requires v.Obj? && n <= |v.fields|
    decreases v, 0, n
  {
    if n == 0 then []
    else
      var (k, x) := v.fields[n - 1];
      ConvertedFields(v, n - 1) + [(k, if k == "_id" then Str(JsString(x)) else if IsObjectType(x) then ConvertedIds(x) else x)]
  }

  /** The first `n` elements of the array `v`, converted. */
  function ConvertedItems(v: Value, n: nat): seq<Value>
    requires v.Arr? && n <= |v.items|
    decreases v, 0, n
  {
    if n == 0 then []
    else
      var x := v.items[n - 1];
      ConvertedItems(v, n - 1) + [if IsObjectType(x) then ConvertedIds(x) else x]
  }

  /** No property named `_id`, at any depth reachable through object-typed values, holds anything but a string. */
  ghost predicate IdsAreStrings(v: Value)
    decreases v
  {
    match v
    case Obj(fs) => forall i :: 0 <= i < |fs| ==>
      if fs[i].0 == "_id" then fs[i].1.Str? else IdsAreStrings(fs[i].1)
    case Arr(items) => forall i :: 0 <= i < |items| ==> IdsAreStrings(items[i])
    case _ => true
  }

  /** `convertIdFields`, walking the properties in order and recursing into object-typed ones. */
  method ConvertIdFields(v: Value) returns (r: Value)
    ensures r == ConvertedIds(v)
    decreases v
  {
    if !Truthy(v) {
      return v;
    }
    match v {
      case Obj(fs) =>
        var out: seq<(string, Value)> := [];
        var i := 0;
        while i < |fs|
          invariant 0 <= i <= |fs|
          invariant out == ConvertedFields(v, i)
        {
          var (k, x) := fs[i];
          if k == "_id" {
            out := out + [(k, Str(JsString(x)))];
          } else if IsObjectType(x) {
            assert x < v;
            var y := ConvertIdFields(x);
            out := out + [(k, y)];
          } else {
            out := out + [(k, x)];
          }
          i := i + 1;
        }
        r := Obj(out);
      case Arr(items) =>
        var out: seq<Value> := [];
        var i := 0;
        while i < |items|
          invariant 0 <= i <= |items|
          invariant out == ConvertedItems(v, i)
        {
          var x := items[i];
          if IsObjectType(x) {
            var y := ConvertIdFields(x);
            out := out + [y];
          } else {
            out := out + [x];
          }
          i := i + 1;
        }
        r := Arr(out);
      case _ =>
        r := v;
    }
  }

  /** The keys of an object are kept, in order; only values change. */
  lemma {:induction false} ConvertedIdsKeepsKeys(v: Value)
    ensures v.Obj? ==> ConvertedIds(v).Obj? && Keys(ConvertedIds(v).fields) == Keys(v.fields)
    ensures v.Arr? ==> ConvertedIds(v).Arr? && |ConvertedIds(v).items| == |v.items|
    ensures !v.Obj? && !v.Arr? ==> ConvertedIds(v) == v
  {
    if v.Obj? {
      ConvertedFieldsKeys(v, |v.fields|);
    } else if v.Arr? {
      ConvertedItemsLength(v, |v.items|);
    }
  }

  lemma {:induction false} ConvertedFieldsKeys(v: Value, n: nat)
    requires v.Obj? && n <= |v.fields|
    ensures Keys(ConvertedFields(v, n)) == Keys(v.fields[..n])
    decreases n
  {
    if n > 0 {
      ConvertedFieldsKeys(v, n - 1);
      assert v.fields[..n] == v.fields[..n - 1] + [v.fields[n - 1]];
      assert Keys(v.fields[..n]) == Keys(v.fields[..n - 1]) + [v.fields[n - 1].0];
      assert Keys(ConvertedFields(v, n)) == Keys(ConvertedFields(v, n - 1)) + [v.fields[n - 1].0];
    }
  }

  lemma {:induction false} ConvertedItemsLength(v: Value, n: nat)
    requires v.Arr? && n <= |v.items|
    ensures |ConvertedItems(v, n)| == n
    decreases n
  {
    if n > 0 {
      ConvertedItemsLength(v, n - 1);
    }
  }

  lemma {:induction false} ConvertedFieldsPrefix(v: Value, n: nat, m: nat)
    requires v.Obj? && m <= n <= |v.fields|
    ensures |ConvertedFields(v, n)| == n
    ensures ConvertedFields(v, n)[..m] == ConvertedFields(v, m)
    decreases n
  {
    if n > m {
      ConvertedFieldsPrefix(v, n - 1, m);
      assert ConvertedFields(v, n)[..n - 1] == ConvertedFields(v, n - 1);
    } else if n > 0 {
      ConvertedFieldsPrefix(v, n - 1, n - 1);
    }
  }

  lemma {:induction false} ConvertedItemsPrefix(v: Value, n: nat, m: nat)
    requires v.Arr? && m <= n <= |v.items|
    ensures |ConvertedItems(v, n)| == n
    ensures ConvertedItems(v, n)[..m] == ConvertedItems(v, m)
    decreases n
  {
    if n > m {
      ConvertedItemsPrefix(v, n - 1, m);
      assert ConvertedItems(v, n)[..n - 1] == ConvertedItems(v, n - 1);
    } else if n > 0 {
      ConvertedItemsPrefix(v, n - 1, n - 1);
    }
  }

  /** Property by property: an `_id` becomes `String(value)`, an object-typed value is converted, anything else is kept. */
  lemma ConvertedFieldAt(v: Value, i: nat)
    requires v.Obj? && i < |v.fields|
    ensures ConvertedIds(v).Obj? && |ConvertedIds(v).fields| == |v.fields|
    ensures var (k, x) := v.fields[i];
      ConvertedIds(v).fields[i] == (k, if k == "_id" then Str(JsString(x)) else if IsObjectType(x) then ConvertedIds(x) else x)
  {
    ConvertedFieldsPrefix(v, |v.fields|, i + 1);
    assert ConvertedIds(v).fields[i] == ConvertedIds(v).fields[..i + 1][i];
  }

  /** Element by element: an object-typed element is converted, anything else is kept. */
  lemma ConvertedItemAt(v: Value, i: nat)
    requires v.Arr? && i < |v.items|
    ensures ConvertedIds(v).Arr? && |ConvertedIds(v).items| == |v.items|
    ensures ConvertedIds(v).items[i] == if IsObjectType(v.items[i]) then ConvertedIds(v.items[i]) else v.items[i]
  {
    ConvertedItemsPrefix(v, |v.items|, i + 1);
    assert ConvertedIds(v).items[i] == ConvertedIds(v).items[..i + 1][i];
  }

  /** After the conversion every `_id`, at any depth, is a string. */
  lemma {:induction false} ConvertedIdsAreStrings(v: Value)
    ensures IdsAreStrings(ConvertedIds(v))
    decreases v
  {
    match v {
      case Obj(fs) =>
        ConvertedFieldsPrefix(v, |fs|, 0);
        forall i | 0 <= i < |fs|
          ensures var e := ConvertedIds(v).fields[i]; if e.0 == "_id" then e.1.Str? else IdsAreStrings(e.1)
        {
          ConvertedFieldAt(v, i);
          if fs[i].0 != "_id" && IsObjectType(fs[i].1) {
            ConvertedIdsAreStrings(fs[i].1);
          }
        }
      case Arr(items) =>
        ConvertedItemsPrefix(v, |items|, 0);
        forall i | 0 <= i < |items| ensures IdsAreStrings(ConvertedIds(v).items[i]) {
          ConvertedItemAt(v, i);
          if IsObjectType(items[i]) {
            ConvertedIdsAreStrings(items[i]);
          }
        }
      case _ =>
    }
  }

  /**
   * Converting twice is converting once, so an object reachable along two paths of the
   * tree (and so visited twice by the in-place walk) ends the same as one visited once.
   */
  lemma {:induction false} ConvertedIdsIdempotent(v: Value)
    ensures ConvertedIds(ConvertedIds(v)) == ConvertedIds(v)
    decreases v
  {
    var w := ConvertedIds(v);
    match v {
      case Obj(fs) =>
        ConvertedFieldsPrefix(v, |fs|, 0);
        ConvertedFieldsPrefix(w, |fs|, 0);
        forall i | 0 <= i < |fs| ensures ConvertedIds(w).fields[i] == w.fields[i] {
          ConvertedFieldAt(v, i);
          ConvertedFieldAt(w, i);
          var (k, x) := fs[i];
          if k != "_id" && IsObjectType(x) {
            ConvertedIdsKeepsKeys(x);
            ConvertedIdsIdempotent(x);
          }
        }
      case Arr(items) =>
        ConvertedItemsPrefix(v, |items|, 0);
        ConvertedItemsPrefix(w, |items|, 0);
        forall i | 0 <= i < |items| ensures ConvertedIds(w).items[i] == w.items[i] {
          ConvertedItemAt(v, i);
          ConvertedItemAt(w, i);
          if IsObjectType(items[i]) {
            ConvertedIdsKeepsKeys(items[i]);
            ConvertedIdsIdempotent(items[i]);
          }
        }
      case _ =>
    }
  }
}
