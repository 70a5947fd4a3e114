/**
 * The source-tree builder: conditions are kept as a raw list (an or-mode
 * `where` wraps its fragment inline as `{$or: c}`), every update call appends
 * one single-field fragment per entry, and update options such as array
 * filters are merged by a three-way rule.
 */
module Query {
  import opened Wrappers
  import opened Js
  import opened Fragments
  import opened Merge

  // ---------------------------------------------------------------------------
  // Update options (`addUpdateFilter`)

  /** The options after merging some entries, and whether a merge threw part-way. */
  datatype FilterMerge = FilterMerge(filters: Fields, threw: bool)

  const NOT_ITERABLE_ERROR := "value is not iterable"

  /**
   * Merge one option entry: a missing, falsy or non-object existing value is overwritten;
   * an existing array gets the new elements pushed after its own (`push(...value)`, which
   * throws when `value` cannot be spread); any other existing object is shallow-merged,
   * the new keys winning.
   */
  function FilterStep(filters: Fields, key: string, value: Value): (r: Option<Fields>)
    ensures r.None? <==>
      Lookup(filters, key).Some? && Lookup(filters, key).value.Arr? && Spread(value).None?
  {
    var existing := Lookup(filters, key);
    if existing.None? || !Truthy(existing.value) || !IsObjectType(existing.value) then
      Some(Assign(filters, key, value))
    else if existing.value.Arr? then
      match Spread(value)
      case None => None
      case Some(xs) => Some(Assign(filters, key, Arr(existing.value.items + xs)))
    else
      Some(Assign(filters, key, Obj(AssignAll(AssignAll([], OwnFields(existing.value)), OwnFields(value)))))
  }

  /** `Object.entries(options).forEach(...)` over `FilterStep`; a throw stops the loop with the entries so far applied. */
  function MergeFilters(filters: Fields, options: Fields): FilterMerge
    decreases |options|
  {
    if options == [] then FilterMerge(filters, false)
    else
      match FilterStep(filters, options[0].0, options[0].1)
      case None => FilterMerge(filters, true)
      case Some(f) => MergeFilters(f, options[1..])
  }

  /** The three-way rule of `addUpdateFilter`, and that keys not mentioned keep their values. */
  lemma FilterStepSpec(filters: Fields, key: string, value: Value, k: string)
    ensures FilterStep(filters, key, value).Some? && k != key ==>
      Lookup(FilterStep(filters, key, value).value, k) == Lookup(filters, k)
    ensures (Lookup(filters, key).None? || !Truthy(Lookup(filters, key).value) || !IsObjectType(Lookup(filters, key).value)) ==>
      Lookup(FilterStep(filters, key, value).value, key) == Some(value)
    ensures Lookup(filters, key).Some? && Lookup(filters, key).value.Arr? && value.Arr? ==>
      Lookup(FilterStep(filters, key, value).value, key) == Some(Arr(Lookup(filters, key).value.items + value.items))
    ensures Lookup(filters, key).Some? && Lookup(filters, key).value.Obj? ==>
      var merged := Lookup(FilterStep(filters, key, value).value, key);
      && merged.Some? && merged.value.Obj?
      && Lookup(merged.value.fields, k) ==
         if k in Keys(OwnFields(value)) then LastWrite(OwnFields(value), k)
         else LastWrite(Lookup(filters, key).value.fields, k)
  {
    var existing := Lookup(filters, key);
    if existing.None? || !Truthy(existing.value) || !IsObjectType(existing.value) {
      LookupAssign(filters, key, value, k);
      LookupAssign(filters, key, value, key);
    } else if existing.value.Arr? {
      if Spread(value).Some? {
        var v := Arr(existing.value.items + Spread(value).value);
        LookupAssign(filters, key, v, k);
        LookupAssign(filters, key, v, key);
      }
    } else {
      var a := OwnFields(existing.value);
      var m := AssignAll(AssignAll([], a), OwnFields(value));
      LookupAssign(filters, key, Obj(m), k);
      LookupAssign(filters, key, Obj(m), key);
      LookupAssignAll(AssignAll([], a), OwnFields(value), k);
      LookupAssignAll([], a, k);
      LastWritePresent(OwnFields(value), k);
    }
  }

  /** The `$set` fragment `modifyArrayElements` appends for each entry, in order. */
  function ArrayElementsFragments(entry: seq<(string, ArrayEdit)>): seq<Value>
    decreases |entry|
  {
    if entry == [] then []
    else
      var n := |entry| - 1;
      ArrayElementsFragments(entry[..n]) + [OpFragment("$set", ArrayElementsPath(entry[n].0, entry[n].1.where), entry[n].1.value)]
  }

  /** The filters after registering `{arrayFilters: [where]}` for every entry whose `where` is truthy, in order. */
  function RegisterArrayFilters(filters: Option<Fields>, entry: seq<(string, ArrayEdit)>): Option<Fields>
    decreases |entry|
  {
    if entry == [] then filters
    else
      var n := |entry| - 1;
      var prev := RegisterArrayFilters(filters, entry[..n]);
      if Truthy(entry[n].1.where) then
        Some(MergeFilters(prev.GetOr([]), [("arrayFilters", Arr([entry[n].1.where]))]).filters)
      else
        prev
  }

  /** Registering array filters never throws, and each registration appends its filter after the earlier ones. */
  lemma ArrayFilterRegistration(filters: Fields, where: Value, xs: seq<Value>)
    requires Lookup(filters, "arrayFilters") == Some(Arr(xs))
    ensures MergeFilters(filters, [("arrayFilters", Arr([where]))]).threw == false
    ensures Lookup(MergeFilters(filters, [("arrayFilters", Arr([where]))]).filters, "arrayFilters")
      == Some(Arr(xs + [where]))
  {
    FilterStepSpec(filters, "arrayFilters", Arr([where]), "arrayFilters");
    assert [("arrayFilters", Arr([where]))][1..] == [];
  }

  // ---------------------------------------------------------------------------
  // Snapshot and paging options

  /** What `getQuery` returns. */
  datatype QuerySnapshot = QuerySnapshot(
    condition: seq<Value>,
    projection: Option<Fields>,
    populate: Option<seq<Value>>,
    limit: Option<int>,
    skip: Option<int>,
    sort: Option<Value>)

  /**
   * The options `query` passes to the paginate call: `skip` defaults to 0 and `limit` to 20
   * only when undefined (a destructuring default), then the caller's options override.
   */
  function PaginateOptions(q: QuerySnapshot, options: Fields): Fields {
    AssignAll([
      ("populate", OptionalArray(q.populate)),
      ("projection", OptionalObject(q.projection)),
      ("offset", Num(q.skip.GetOr(0))),
      ("limit", Num(q.limit.GetOr(20))),
      ("sort", q.sort.GetOr(Undef)),
      ("lean", Bool(false)),
      ("pagination", Bool(true)),
      ("leanWithId", Bool(false))], options)
  }

  /** Defaults apply only to undefined values (a limit of 0 stays 0); every caller option overrides. */
  lemma PaginateDefaults(q: QuerySnapshot, options: Fields, k: string)
    ensures "offset" !in Keys(options) ==>
      Lookup(PaginateOptions(q, options), "offset") == Some(Num(if q.skip.None? then 0 else q.skip.value))
    ensures "limit" !in Keys(options) ==>
      Lookup(PaginateOptions(q, options), "limit") == Some(Num(if q.limit.None? then 20 else q.limit.value))
    ensures k in Keys(options) ==> Lookup(PaginateOptions(q, options), k) == LastWrite(options, k)
  {
    var base := [
      ("populate", OptionalArray(q.populate)),
      ("projection", OptionalObject(q.projection)),
      ("offset", Num(q.skip.GetOr(0))),
      ("limit", Num(q.limit.GetOr(20))),
      ("sort", q.sort.GetOr(Undef)),
      ("lean", Bool(false)),
      ("pagination", Bool(true)),
      ("leanWithId", Bool(false))];
    assert base[2].0 == "offset" && base[3].0 == "limit";
    assert Lookup(base, "offset") == Lookup(base[1..], "offset") == Lookup(base[2..], "offset");
    assert Lookup(base, "limit") == Lookup(base[1..], "limit") == Lookup(base[2..], "limit") == Lookup(base[3..], "limit");
    LookupAssignAll(base, options, k);
    LookupAssignAll(base, options, "offset");
    LookupAssignAll(base, options, "limit");
    LastWritePresent(options, k);
    LastWritePresent(options, "offset");
    LastWritePresent(options, "limit");
  }

  // ---------------------------------------------------------------------------
  // The builder

  class QueryBuilder {
    var model: Model
    var conditions: seq<Value>
    var updates: seq<Value>
    var updateFilters: Option<Fields>
    var projection: Option<Fields>
    var populations: Option<seq<Value>>
    var skip: Option<int>
    var limit: Option<int>
    var sort: Option<Value>

    constructor (model: Model)
      ensures this.model == model
      ensures conditions == [] && updates == []
      ensures updateFilters == None && projection == None && populations == None
      ensures skip == None && limit == None && sort == None
    {
      this.model := model;
      conditions, updates := [], [];
      updateFilters, projection, populations := None, None, None;
      skip, limit, sort := None, None, None;
    }

    /** `where(c, mode)`: append `c` as it is, or `{$or: c}` in or-mode. */
    method Where(c: Value, mode: Mode)
      modifies this`conditions
      ensures conditions == old(conditions) + [WhereFragment(c, mode)]
      ensures |conditions| == |old(conditions)| + 1 && conditions[..|old(conditions)|] == old(conditions)
      ensures conditions[|conditions| - 1] == if mode == Mode.And then c else Single("$or", c)
    {
      conditions := conditions + [WhereFragment(c, mode)];
    }

    method And(c: Value)
      modifies this`conditions
      ensures conditions == old(conditions) + [c]
    {
      Where(c, Mode.And);
    }

    method Or(c: Value)
      modifies this`conditions
      ensures conditions == old(conditions) + [Single("$or", c)]
    {
      Where(c, Mode.Or);
    }

    method WithId(id: Value)
      modifies this`conditions
      ensures conditions == old(conditions) + [Single("_id", MakeObjectId(id))]
    {
      Where(Single("_id", MakeObjectId(id)), Mode.And);
    }

    /** Append each fragment through `where(f, mode)`, in order. */
    method WhereEach(frags: seq<Value>, mode: Mode)
      modifies this`conditions
      ensures conditions == old(conditions) + seq(|frags|, i requires 0 <= i < |frags| => WhereFragment(frags[i], mode))
    {
      var i := 0;
      while i < |frags|
        invariant 0 <= i <= |frags|
        invariant conditions == old(conditions) + seq(i, j requires 0 <= j < i => WhereFragment(frags[j], mode))
      {
        Where(frags[i], mode);
        i := i + 1;
      }
    }

    method ArrayIncludes(what: Fields)
      modifies this`conditions
      ensures conditions == old(conditions) + FieldPredicates("$in", what)
    {
      WhereEach(FieldPredicates("$in", what), Mode.And);
    }

    method ValueMatches(what: Fields)
      modifies this`conditions
      ensures conditions == old(conditions) + FieldPredicates("$in", what)
    {
      WhereEach(FieldPredicates("$in", what), Mode.And);
    }

    method ValueNotMatches(what: Fields)
      modifies this`conditions
      ensures conditions == old(conditions) + FieldPredicates("$nin", what)
    {
      WhereEach(FieldPredicates("$nin", what), Mode.And);
    }

    /** `whiteListIds(ids = [])`: always exactly one `{_id: {$in: ids}}`, even for an empty or missing list. */
    method WhiteListIds(ids: Option<seq<Value>>)
      modifies this`conditions
      ensures conditions == old(conditions) + [FieldPredicate("_id", "$in", Arr(ids.GetOr([])))]
    {
      ValueMatches([("_id", Arr(ids.GetOr([])))]);
    }

    method TextLike(keyVal: Fields, mode: Mode)
      modifies this`conditions
      ensures conditions == old(conditions) +
        seq(|keyVal|, i requires 0 <= i < |keyVal| => WhereFragment(TextFragment(keyVal[i].0, keyVal[i].1), mode))
    {
      WhereEach(seq(|keyVal|, i requires 0 <= i < |keyVal| => TextFragment(keyVal[i].0, keyVal[i].1)), mode);
    }

    /** `geoNear`; `radius` stands for `distanceKilometers / 6371`. */
    method GeoNear(entry: seq<(string, Coord)>, radius: Value, mode: Mode)
      modifies this`conditions
      ensures conditions == old(conditions) +
        seq(|entry|, i requires 0 <= i < |entry| => WhereFragment(GeoFragment(entry[i].0, entry[i].1, radius), mode))
    {
      WhereEach(seq(|entry|, i requires 0 <= i < |entry| => GeoFragment(entry[i].0, entry[i].1, radius)), mode);
    }

    /** `populate`: a missing list changes nothing; otherwise every entry is appended after expansion. */
    method Populate(pops: Option<seq<Value>>)
      modifies this`populations
      ensures pops.None? ==> populations == old(populations)
      ensures pops.Some? ==>
        populations == Some(old(populations).GetOr([]) + seq(|pops.value|, i requires 0 <= i < |pops.value| => ExpandPopulation(pops.value[i])))
    {
      if pops.Some? {
        var ps := pops.value;
        populations := Some(populations.GetOr([]) + seq(|ps|, i requires 0 <= i < |ps| => ExpandPopulation(ps[i])));
      }
    }

    method Project(p: Value)
      modifies this`projection
      ensures projection == Projected(old(projection), p)
      decreases p
    {
      if Truthy(p) {
        if projection.None? {
          projection := Some([]);
        }
        if p.Arr? {
          var i := 0;
          while i < |p.items|
            invariant 0 <= i <= |p.items|
            invariant ProjectEach(projection, p, i) == Projected(old(projection), p)
          {
            Project(p.items[i]);
            i := i + 1;
          }
        } else {
          var fs := OwnFields(p);
          var j := 0;
          while j < |fs|
            invariant 0 <= j <= |fs|
            invariant projection == Some(AssignAll(old(projection).GetOr([]), fs[..j]))
          {
            assert fs[..j + 1][..j] == fs[..j];
            projection := Some(Assign(projection.value, fs[j].0, fs[j].1));
            j := j + 1;
          }
          assert fs[..j] == fs;
        }
      }
    }

    method Skip(n: int)
      modifies this`skip
      ensures skip == Some(n)
    {
      skip := Some(n);
    }

    method Limit(n: int)
      modifies this`limit
      ensures limit == Some(n)
    {
      limit := Some(n);
    }

    method Sort(s: Value)
      modifies this`sort
      ensures sort == Some(s)
    {
      sort := Some(s);
    }

    /** Append each update fragment, in order. */
    method PushUpdates(frags: seq<Value>)
      modifies this`updates
      ensures updates == old(updates) + frags
    {
      var i := 0;
      while i < |frags|
        invariant 0 <= i <= |frags|
        invariant updates == old(updates) + frags[..i]
      {
        assert frags[..i + 1] == frags[..i] + [frags[i]];
        updates := updates + [frags[i]];
        i := i + 1;
      }
      assert frags[..i] == frags;
    }

    method Set(entry: Fields)
      modifies this`updates
      ensures updates == old(updates) + OperatorFragments("$set", entry)
    {
      PushUpdates(OperatorFragments("$set", entry));
    }

    method Unset(entry: Fields)
      modifies this`updates
      ensures updates == old(updates) + OperatorFragments("$unset", entry)
    {
      PushUpdates(OperatorFragments("$unset", entry));
    }

    method SetCurrentDateOn(entry: Fields)
      modifies this`updates
      ensures updates == old(updates) + OperatorFragments("$currentDate", entry)
    {
      PushUpdates(OperatorFragments("$currentDate", entry));
    }

    method AddToSet(entry: Fields)
      modifies this`updates
      ensures updates == old(updates) + OperatorFragments("$addToSet", entry)
    {
      PushUpdates(OperatorFragments("$addToSet", entry));
    }

    method Pull(entry: Fields)
      modifies this`updates
      ensures updates == old(updates) + OperatorFragments("$pull", entry)
    {
      PushUpdates(OperatorFragments("$pull", entry));
    }

    method Push(entry: Fields, options: PushOptions)
      modifies this`updates
      ensures updates == old(updates) + PushFragments(entry, options)
    {
      PushUpdates(PushFragments(entry, options));
    }

    /** `modifyArrayElement`: set `key.$` (the first element matching the query) for each entry. */
    method ModifyArrayElement(entry: Fields)
      modifies this`updates
      ensures updates == old(updates) +
        seq(|entry|, i requires 0 <= i < |entry| => OpFragment("$set", entry[i].0 + ".$", entry[i].1))
    {
      var i := 0;
      while i < |entry|
        invariant 0 <= i <= |entry|
        invariant updates == old(updates) +
          seq(i, j requires 0 <= j < i => OpFragment("$set", entry[j].0 + ".$", entry[j].1))
      {
        Set([(entry[i].0 + ".$", entry[i].1)]);
        i := i + 1;
      }
    }

    /**
     * `modifyArrayElements`: set the rewritten path of each entry and, when its `where` is
     * truthy, register `{arrayFilters: [where]}`.
     */
    method ModifyArrayElements(entry: seq<(string, ArrayEdit)>)
      modifies this`updates, this`updateFilters
      ensures updates == old(updates) + ArrayElementsFragments(entry)
      ensures updateFilters == RegisterArrayFilters(old(updateFilters), entry)
    {
      var i := 0;
      while i < |entry|
        invariant 0 <= i <= |entry|
        invariant updates == old(updates) + ArrayElementsFragments(entry[..i])
        invariant updateFilters == RegisterArrayFilters(old(updateFilters), entry[..i])
      {
        assert entry[..i + 1][..i] == entry[..i];
        ModifyArrayElementsEntry(entry[i].0, entry[i].1);
        i := i + 1;
      }
      assert entry[..i] == entry;
    }

    /** One entry of `modifyArrayElements`: the `$set` of its rewritten path, then its filter when `where` is truthy. */
    method ModifyArrayElementsEntry(key: string, edit: ArrayEdit)
      modifies this`updates, this`updateFilters
      ensures updates == old(updates) + [OpFragment("$set", ArrayElementsPath(key, edit.where), edit.value)]
      ensures updateFilters == if Truthy(edit.where) then Some(MergeFilters(old(updateFilters).GetOr([]), [("arrayFilters", Arr([edit.where]))]).filters) else old(updateFilters)
    {
      Set([(ArrayElementsPath(key, edit.where), edit.value)]);
      if Truthy(edit.where) {
        var threw := AddUpdateFilter([("arrayFilters", Arr([edit.where]))]);
      }
    }

    /** `addUpdateFilter`: merge each option entry in order; `threw` reports a `push` of a non-iterable. */
    method AddUpdateFilter(options: Fields) returns (threw: bool)
      modifies this`updateFilters
      ensures updateFilters.Some?
      ensures FilterMerge(updateFilters.value, threw) == MergeFilters(old(updateFilters).GetOr([]), options)
    {
      var filters := updateFilters.GetOr([]);
      var i := 0;
      threw := false;
      while i < |options|
        invariant 0 <= i <= |options|
        invariant MergeFilters(filters, options[i..]) == MergeFilters(old(updateFilters).GetOr([]), options)
      {
        assert options[i..][1..] == options[i + 1..];
        var step := FilterStep(filters, options[i].0, options[i].1);
        if step.None? {
          threw := true;
          break;
        }
        filters := step.value;
        i := i + 1;
      }
      updateFilters := Some(filters);
    }

    /** `getCondition`: the accumulated fragments themselves, in call order, unmerged. */
    function GetCondition(): (r: seq<Value>)
      reads this
      ensures r == conditions
    {
      conditions
    }

    /**
     * `getModified`, taken as the per-operator field union of the update fragments: the value
     * under `op` of `field` is the one the last fragment writing it gave, unless a later
     * fragment set `op` itself to a non-object.
     */
    function GetModified(): (r: Fields)
      reads this
      ensures forall op, field :: FieldOf(r, op, field) == LastFieldWrite(Entries(updates), op, field)
    {
      var r := OperatorUnion(updates);
      assert forall op, field :: FieldOf(r, op, field) == LastFieldWrite(Entries(updates), op, field) by {
        forall op, field ensures FieldOf(r, op, field) == LastFieldWrite(Entries(updates), op, field) {
          OperatorUnionFieldWrite(updates, op, field);
        }
      }
      r
    }

    /** `getQuery`: the condition is what `getCondition` returns, the unmerged fragments; the rest is read as stored. */
    function GetQuery(): (q: QuerySnapshot)
      reads this
      ensures q.condition == GetCondition() && |q.condition| == |conditions|
      ensures q.projection == projection && q.populate == populations
      ensures q.limit == limit && q.skip == skip && q.sort == sort
    {
      QuerySnapshot(conditions, projection, populations, limit, skip, sort)
    }

    /** `clone`: a new builder sharing the model, with copies of the accumulated state; this builder is not changed. */
    method Clone() returns (c: QueryBuilder)
      ensures fresh(c) && c.model == model
      ensures c.conditions == conditions && c.updates == updates && c.updateFilters == updateFilters
      ensures c.projection == projection && c.populations == populations
      ensures c.skip == skip && c.limit == limit && c.sort == sort
    {
      c := new QueryBuilder(model);
      c.conditions, c.updates, c.updateFilters := conditions, updates, updateFilters;
      c.projection, c.populations := projection, populations;
      c.skip, c.limit, c.sort := skip, limit, sort;
    }
  }

  // ---------------------------------------------------------------------------
  // Properties over several calls

  /** Every update method of this builder appends builder-made `{op: {field: value}}` fragments. */
  lemma OperatorFragmentsAreSingleField(op: string, entry: Fields, options: PushOptions)
    ensures forall i :: 0 <= i < |entry| ==> IsOpFragment(OperatorFragments(op, entry)[i])
    ensures forall i :: 0 <= i < |entry| ==> IsOpFragment(PushFragments(entry, options)[i])
  {
  }

  /** `push({key: value})` on top of any builder-made updates makes `getModified().$push[key]` equal `{$each: [value]}`. */
  lemma PushThenModified(updates: seq<Value>, key: string, value: Value)
    requires forall i :: 0 <= i < |updates| ==> IsOpFragment(updates[i])
    ensures FieldOf(OperatorUnion(updates + PushFragments([(key, value)], PushOptions(false, Undef))), "$push", key)
      == Some(Single("$each", Arr([value])))
  {
    var frag := OpFragment("$push", key, Single("$each", Arr([value])));
    assert [("$each", Arr([value]))] + [] == [("$each", Arr([value]))];
    assert PushUpdate(value, PushOptions(false, Undef)) == Single("$each", Arr([value]));
    assert PushFragments([(key, value)], PushOptions(false, Undef)) == [frag];
    var all := updates + [frag];
    forall i | 0 <= i < |all| ensures IsOpFragment(all[i]) {
      if i < |updates| {
        assert all[i] == updates[i];
      }
    }
    OperatorUnionLastWrite(all, "$push", key);
    assert all[..|all| - 1] == updates && all[|all| - 1] == frag;
  }

  /** `push({key: xs}, {each: true})` stores `{$each: xs}`, and `$sort` only when it is truthy. */
  lemma PushEachAndSort(key: string, value: Value, sortBy: Value)
    ensures !Truthy(sortBy) ==> PushFragments([(key, value)], PushOptions(true, sortBy)) == [OpFragment("$push", key, Single("$each", value))]
    ensures Truthy(sortBy) ==>
      PushFragments([(key, value)], PushOptions(true, sortBy)) == [OpFragment("$push", key, Obj([("$each", value), ("$sort", sortBy)]))]
  {
    assert [("$each", value)] + [] == [("$each", value)];
    assert [("$each", value)] + [("$sort", sortBy)] == [("$each", value), ("$sort", sortBy)];
  }

  /** `clone(modifier)` runs the modifier on the copy: the copy gets the new fragment, the original does not. */
  method CloneAppliesModifierToCopy(b: QueryBuilder, c0: Value) returns (c: QueryBuilder)
    ensures c != b && c.model == b.model
    ensures c.conditions == b.conditions + [c0]
  {
    c := b.Clone();
    c.Where(c0, Mode.And);
  }

  /** `where({status: 'active'}).sort({createdAt: -1}).skip(10).limit(5).getQuery()`. */
  method QueryScenario(m: Model) returns (q: QuerySnapshot)
    ensures q == QuerySnapshot([Single("status", Str("active"))], None, None, Some(5), Some(10), Some(Single("createdAt", Num(-1))))
  {
    var b := new QueryBuilder(m);
    b.Where(Single("status", Str("active")), Mode.And);
    b.Sort(Single("createdAt", Num(-1)));
    b.Skip(10);
    b.Limit(5);
    q := b.GetQuery();
  }

  /** `modifyArrayElements({tags: {value: 'x', where: {elem: {$eq: 'y'}}}})` on a new builder. */
  method ArrayElementsScenario(m: Model) returns (updates: seq<Value>, filters: Option<Fields>)
    ensures updates == [OpFragment("$set", "tags.$[elem]", Str("x"))]
    ensures filters == Some([("arrayFilters", Arr([Single("elem", Single("$eq", Str("y")))]))])
  {
    var b := new QueryBuilder(m);
    var where := Single("elem", Single("$eq", Str("y")));
    b.ModifyArrayElements([("tags", ArrayEdit(Str("x"), where))]);
    assert Keys(OwnFields(where)) == ["elem"];
    assert ArrayElementsPath("tags", where) == "tags.$[elem]";
    updates, filters := b.updates, b.updateFilters;
    var entry := [("tags", ArrayEdit(Str("x"), where))];
    assert entry[..0] == [];
    assert RegisterArrayFilters(None, entry) == Some(MergeFilters([], [("arrayFilters", Arr([where]))]).filters);
  }
}
