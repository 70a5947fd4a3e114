/**
 * The abstract data builder (and the fields its executor subclass adds): and-
 * and or-predicates are kept in two lists that `getCondition` merges key by
 * key, update fragments are merged by operator key, and `clone` makes the
 * original the clone's prototype and copies its own properties, so that a
 * clone and its original share their lists and the clone reads every field
 * it has not written from the original.
 *
 * The lists are heap cells (`JsArray`, `JsObject`) so that this sharing is
 * part of the model.
 */
module DataQuery {
  import opened Wrappers
  import opened Js
  import opened Fragments
  import opened Merge

  /** What `getQuery` returns once the condition has been built. */
  datatype DataSnapshot = DataSnapshot(
    condition: Fields,
    projection: Option<Fields>,
    populations: Option<seq<Value>>,
    limit: Option<int>,
    skip: Option<int>,
    sort: Option<Value>)

  /**
   * The key-wise shallow merge as the source's nested loops compute it; `Object.keys`
   * throws on a `null` or `undefined` fragment.
   */
  method MergeInto(frags: seq<Value>) returns (r: Result<Fields>)
    ensures r == if Keyable(frags) then Ok(MergeFragments(frags)) else Err(KEYS_ERROR)
  {
    var acc: Fields := [];
    var i := 0;
    while i < |frags|
      invariant 0 <= i <= |frags|
      invariant Keyable(frags[..i])
      invariant acc == MergeFragments(frags[..i])
    {
      if frags[i].Null? || frags[i].Undef? {
        return Err(KEYS_ERROR);
      }
      var fs := OwnFields(frags[i]);
      ghost var before := acc;
      var j := 0;
      while j < |fs|
        invariant 0 <= j <= |fs|
        invariant acc == AssignAll(before, fs[..j])
      {
        assert fs[..j + 1][..j] == fs[..j];
        acc := Assign(acc, fs[j].0, fs[j].1);
        j := j + 1;
      }
      assert fs[..j] == fs;
      assert frags[..i + 1][..i] == frags[..i];
      i := i + 1;
    }
    assert frags[..i] == frags;
    r := Ok(acc);
  }

  /** The per-operator field union, computed fragment by fragment and field by field. */
  method UnionInto(frags: seq<Value>) returns (r: Result<Fields>)
    ensures r == if Keyable(frags) then Ok(OperatorUnion(frags)) else Err(KEYS_ERROR)
  {
    var acc: Fields := [];
    var i := 0;
    while i < |frags|
      invariant 0 <= i <= |frags|
      invariant Keyable(frags[..i])
      invariant acc == OperatorUnion(frags[..i])
    {
      if frags[i].Null? || frags[i].Undef? {
        return Err(KEYS_ERROR);
      }
      var fs := OwnFields(frags[i]);
      ghost var before := acc;
      var j := 0;
      while j < |fs|
        invariant 0 <= j <= |fs|
        invariant acc == UnionAll(before, fs[..j])
      {
        assert fs[..j + 1][..j] == fs[..j];
        acc := UnionEntry(acc, fs[j].0, fs[j].1);
        j := j + 1;
      }
      assert fs[..j] == fs;
      assert frags[..i + 1][..i] == frags[..i];
      i := i + 1;
    }
    assert frags[..i] == frags;
    r := Ok(acc);
  }

  /**
   * The builder fields declared without an initialiser: each becomes an own property of a
   * builder only when that builder writes it.
   */
  datatype Slot = IdSlot | ProjectionSlot | PopulationsSlot | SkipSlot | LimitSlot | SortSlot

  /**
   * Each builder's prototype is the next one in `chain`, the last one's is null, and each
   * builder's recorded ancestors are the rest of the chain.
   */
  ghost predicate ChainLinked(chain: seq<DataQueryBuilder>)
    decreases |chain|
  {
    chain != [] ==>
      && chain[0].proto == (if |chain| > 1 then chain[1] else null)
      && chain[0].ancestors == chain[1..]
      && ChainLinked(chain[1..])
  }

  class DataQueryBuilder {
    var id: Option<string>
    var updates: JsArray
    var conditions: JsArray
    var ors: JsArray
    var projection: JsObject?
    var populations: JsArray?
    var skip: Option<int>
    var limit: Option<int>
    var sort: Option<Value>
    /** The driver model and the result class, set by the executor subclass. */
    var db: Model
    var metatype: Metatype
    /**
     * The builder `clone` was called on, which `Object.create` made this one's prototype;
     * null for a builder made by `new`. A field this builder never wrote is read from it.
     */
    const proto: DataQueryBuilder?
    /** The prototype chain above this builder, nearest first. */
    ghost const ancestors: seq<DataQueryBuilder>

    /** Whether this builder has written `s`, making it an own property. */
    predicate Owns(s: Slot)
      reads this
    {
      match s
      case IdSlot => id.Some?
      case ProjectionSlot => projection != null
      case PopulationsSlot => populations != null
      case SkipSlot => skip.Some?
      case LimitSlot => limit.Some?
      case SortSlot => sort.Some?
    }

    /** `ancestors` lists `proto`, `proto.proto`, … up to a builder made by `new`. */
    ghost predicate Linked() {
      ChainLinked(Chain())
    }

    ghost function Chain(): seq<DataQueryBuilder> {
      [this] + ancestors
    }

    /**
     * The builder a read of `s` lands on, as JavaScript's property lookup finds it: this one
     * when it owns `s`, otherwise its prototype's answer; at the end of the chain, the builder
     * made by `new`, whose unwritten field reads as `undefined`.
     */
    function Resolved(s: Slot): (h: DataQueryBuilder)
      requires Linked()
      reads this, ancestors
      ensures h in Chain()
      ensures Owns(s) ==> h == this
      ensures h.Owns(s) || h.proto == null
      decreases |ancestors|
    {
      if Owns(s) || proto == null then this
      else
        assert Chain()[1..] == ancestors && proto == ancestors[0];
        assert ChainLinked(ancestors) && proto.ancestors == ancestors[1..];
        assert proto.Chain() == [ancestors[0]] + ancestors[1..] == ancestors;
        proto.Resolved(s)
    }

    /**
     * The chain is linked, the three lists are distinct cells, and no population list on
     * the chain is one of them, so pushing onto one leaves the others as they are.
     */
    ghost predicate Valid()
      reads this, ancestors
    {
      && Linked()
      && conditions != ors && conditions != updates && ors != updates
      && forall b :: b in Chain() && b.populations != null ==>
           b.populations != conditions && b.populations != ors && b.populations != updates
    }

    /**
     * `getId()`: `this.id`, read through the prototype chain: an own id, else the
     * prototype's answer, else `undefined` at the end of the chain.
     */
    function GetId(): (r: Option<string>)
      requires Linked()
      reads this, ancestors
      ensures id.Some? ==> r == id
      ensures id.None? && proto == null ==> r == None
      ensures id.None? && proto != null ==>
        assert Chain()[1..] == ancestors && proto == ancestors[0] && ChainLinked(ancestors);
        assert proto.Chain() == [ancestors[0]] + ancestors[1..] == ancestors;
        proto.Linked() && r == proto.GetId()
      decreases |ancestors|
    {
      Resolved(IdSlot).id
    }

    /** What `this._projection`, `this._populations`, `this._skip`, … read, through the prototype chain. */
    function ProjectionRef(): JsObject?
      requires Linked()
      reads this, ancestors
    {
      Resolved(ProjectionSlot).projection
    }

    function ProjectionValue(): Option<Fields>
      requires Linked()
      reads this, ancestors, ProjectionRef()
    {
      if ProjectionRef() == null then None else Some(ProjectionRef().fields)
    }

    function PopulationsRef(): JsArray?
      requires Linked()
      reads this, ancestors
    {
      Resolved(PopulationsSlot).populations
    }

    function PopulationsValue(): Option<seq<Value>>
      requires Linked()
      reads this, ancestors, PopulationsRef()
    {
      if PopulationsRef() == null then None else Some(PopulationsRef().items)
    }

    function SkipValue(): Option<int>
      requires Linked()
      reads this, ancestors
    {
      Resolved(SkipSlot).skip
    }

    function LimitValue(): Option<int>
      requires Linked()
      reads this, ancestors
    {
      Resolved(LimitSlot).limit
    }

    function SortValue(): Option<Value>
      requires Linked()
      reads this, ancestors
    {
      Resolved(SortSlot).sort
    }

    constructor (db: Model, metatype: Metatype)
      ensures Valid()
      ensures this.db == db && this.metatype == metatype && id == None
      ensures proto == null && ancestors == []
      ensures conditions.items == [] && ors.items == [] && updates.items == []
      ensures fresh(conditions) && fresh(ors) && fresh(updates)
      ensures projection == null && populations == null
      ensures skip == None && limit == None && sort == None
    {
      this.db, this.metatype := db, metatype;
      id := None;
      updates := new JsArray([]);
      conditions := new JsArray([]);
      ors := new JsArray([]);
      projection, populations := null, null;
      skip, limit, sort := None, None, None;
      proto, ancestors := null, [];
    }

    /**
     * `Object.assign(Object.create(original), original)`: `original` becomes the prototype
     * and its own properties are copied, so the list cells are shared, and a field the
     * original never wrote stays unwritten here.
     */
    constructor Derived(original: DataQueryBuilder)
      requires original.Valid()
      ensures Valid()
      ensures proto == original && ancestors == [original] + original.ancestors
      ensures id == original.id && projection == original.projection && populations == original.populations
      ensures skip == original.skip && limit == original.limit && sort == original.sort
      ensures conditions == original.conditions && ors == original.ors && updates == original.updates
      ensures db == original.db && metatype == original.metatype
    {
      proto, ancestors := original, [original] + original.ancestors;
      id, skip, limit, sort := original.id, original.skip, original.limit, original.sort;
      conditions, ors, updates := original.conditions, original.ors, original.updates;
      projection, populations := original.projection, original.populations;
      db, metatype := original.db, original.metatype;
      new;
      assert Chain()[1..] == original.Chain();
    }

    /** `withId`: record `String(id)` as an own property and append `{_id: ObjectId(id)}` to the and-list. */
    method WithId(x: Value)
      requires Valid()
      modifies this`id, conditions
      ensures Valid()
      ensures id == Some(JsString(x)) && GetId() == Some(JsString(x))
      ensures conditions.items == old(conditions.items) + [Single("_id", MakeObjectId(x))]
      ensures ors.items == old(ors.items)
    {
      id := Some(JsString(x));
      conditions.items := conditions.items + [Single("_id", MakeObjectId(x))];
    }

    /** `getId`: the recorded id, read through the prototype chain. */
    method Where(entry: Value)
      requires Valid()
      modifies conditions
      ensures conditions.items == old(conditions.items) + [entry]
      ensures ors.items == old(ors.items)
    {
      conditions.items := conditions.items + [entry];
    }

    /** `andWhere`: append the fragment, or every element of an array of fragments, to the and-list only. */
    method AndWhere(v: Value)
      requires Valid()
      modifies conditions
      ensures conditions.items == old(conditions.items) + Appended(v)
      ensures |conditions.items| == |old(conditions.items)| + (if v.Arr? then |v.items| else 1)
      ensures ors.items == old(ors.items) && updates.items == old(updates.items)
    {
      if v.Arr? {
        conditions.items := conditions.items + v.items;
      } else {
        conditions.items := conditions.items + [v];
      }
    }

    /** `orWhere`: append the fragment, or every element of an array of fragments, to the or-list only. */
    method OrWhere(v: Value)
      requires Valid()
      modifies ors
      ensures ors.items == old(ors.items) + Appended(v)
      ensures |ors.items| == |old(ors.items)| + (if v.Arr? then |v.items| else 1)
      ensures conditions.items == old(conditions.items) && updates.items == old(updates.items)
    {
      if v.Arr? {
        ors.items := ors.items + v.items;
      } else {
        ors.items := ors.items + [v];
      }
    }

    /** Route each plain-object fragment, in order, to `andWhere` or `orWhere`. */
    method RouteEach(frags: seq<Value>, method_: Mode)
      requires Valid()
      requires forall i :: 0 <= i < |frags| ==> frags[i].Obj?
      modifies conditions, ors
      ensures method_ == Mode.And ==> conditions.items == old(conditions.items) + frags && ors.items == old(ors.items)
      ensures method_ == Mode.Or ==> ors.items == old(ors.items) + frags && conditions.items == old(conditions.items)
    {
      var i := 0;
      while i < |frags|
        invariant 0 <= i <= |frags|
        invariant method_ == Mode.And ==> conditions.items == old(conditions.items) + frags[..i] && ors.items == old(ors.items)
        invariant method_ == Mode.Or ==> ors.items == old(ors.items) + frags[..i] && conditions.items == old(conditions.items)
      {
        assert frags[..i + 1] == frags[..i] + [frags[i]];
        if method_ == Mode.And {
          AndWhere(frags[i]);
        } else {
          OrWhere(frags[i]);
        }
        i := i + 1;
      }
      assert frags[..i] == frags;
    }

    /** `whereDate`: `{key: {"$" + mode: value}}` per entry, routed by `method`. */
    method WhereDate(what: Fields, mode: DateMode, method_: Mode)
      requires Valid()
      modifies conditions, ors
      ensures method_ == Mode.And ==>
        conditions.items == old(conditions.items) + FieldPredicates(DateOperator(mode), what) && ors.items == old(ors.items)
      ensures method_ == Mode.Or ==>
        ors.items == old(ors.items) + FieldPredicates(DateOperator(mode), what) && conditions.items == old(conditions.items)
    {
      RouteEach(FieldPredicates(DateOperator(mode), what), method_);
    }

    /** `whereArrayIncludes`: `{key: {$in: value}}` per entry, routed by `method`. */
    method WhereArrayIncludes(what: Fields, method_: Mode)
      requires Valid()
      modifies conditions, ors
      ensures method_ == Mode.And ==>
        conditions.items == old(conditions.items) + FieldPredicates("$in", what) && ors.items == old(ors.items)
      ensures method_ == Mode.Or ==>
        ors.items == old(ors.items) + FieldPredicates("$in", what) && conditions.items == old(conditions.items)
    {
      RouteEach(FieldPredicates("$in", what), method_);
    }

    /** `whereTextLike`: collect a case-insensitive pattern per truthy value, then hand them all to one list. */
    method WhereTextLike(keyVal: Fields, method_: Mode)
      requires Valid()
      modifies conditions, ors
      ensures method_ == Mode.And ==>
        conditions.items == old(conditions.items) + TextLikeFragments(keyVal) && ors.items == old(ors.items)
      ensures method_ == Mode.Or ==>
        ors.items == old(ors.items) + TextLikeFragments(keyVal) && conditions.items == old(conditions.items)
    {
      var objects: seq<Value> := [];
      var i := 0;
      while i < |keyVal|
        invariant 0 <= i <= |keyVal|
        invariant objects == TextLikeFragments(keyVal[..i])
      {
        assert keyVal[..i + 1][..i] == keyVal[..i];
        if Truthy(keyVal[i].1) {
          objects := objects + [TextFragment(keyVal[i].0, keyVal[i].1)];
        }
        i := i + 1;
      }
      assert keyVal[..i] == keyVal;
      if method_ == Mode.And {
        AndWhere(Arr(objects));
      } else {
        OrWhere(Arr(objects));
      }
    }

    /** `nearCoordinates`: one `$geoWithin`/`$center` predicate per entry, always on the and-list; `radius` stands for `km / 6371`. */
    method NearCoordinates(entry: seq<(string, Coord)>, radius: Value)
      requires Valid()
      modifies conditions
      ensures conditions.items == old(conditions.items) +
        seq(|entry|, i requires 0 <= i < |entry| => GeoFragment(entry[i].0, entry[i].1, radius))
      ensures ors.items == old(ors.items)
    {
      var i := 0;
      while i < |entry|
        invariant 0 <= i <= |entry|
        invariant conditions.items == old(conditions.items) +
          seq(i, j requires 0 <= j < i => GeoFragment(entry[j].0, entry[j].1, radius))
      {
        conditions.items := conditions.items + [GeoFragment(entry[i].0, entry[i].1, radius)];
        i := i + 1;
      }
    }

    /** `whiteList(ids = [])`: exactly one and-fragment, even for an empty or missing list. */
    method WhiteList(ids: Option<seq<Value>>)
      requires Valid()
      modifies conditions
      ensures conditions.items == old(conditions.items) + [WhiteListFragment(ids.GetOr([]))]
      ensures ors.items == old(ors.items)
    {
      AndWhere(WhiteListFragment(ids.GetOr([])));
    }

    /**
     * `populate`: a missing list changes nothing; otherwise, when no list is reachable through
     * the chain, an own one is created, and every entry is appended, as given, to the list
     * the chain reaches (an original's list when this is a clone that never made its own).
     */
    method Populate(pops: Option<seq<Value>>)
      requires Valid()
      modifies this`populations, PopulationsRef()
      ensures Valid()
      ensures pops.None? ==> populations == old(populations) && PopulationsValue() == old(PopulationsValue())
      ensures pops.Some? ==> PopulationsValue() == Some(old(PopulationsValue()).GetOr([]) + pops.value)
      ensures old(PopulationsRef()) != null ==> populations == old(populations) && PopulationsRef() == old(PopulationsRef())
      ensures conditions.items == old(conditions.items) && ors.items == old(ors.items) && updates.items == old(updates.items)
    {
      if pops.Some? {
        var list := PopulationsCell();
        list.PushEach(pops.value);
      }
    }

    /**
     * `if (!this._populations) this._populations = []`, read through the chain: the population
     * list the chain reaches, or else a new own `[]`, which is none of the three fragment lists.
     */
    method PopulationsCell() returns (list: JsArray)
      requires Valid()
      modifies this`populations
      ensures Valid() && list == PopulationsRef()
      ensures old(PopulationsRef()) != null ==> populations == old(populations) && list == old(PopulationsRef())
      ensures old(PopulationsRef()) == null ==> fresh(list) && list.items == []
    {
      var h := Resolved(PopulationsSlot);
      if h.populations == null {
        list := new JsArray([]);
        populations := list;
      } else {
        list := h.populations;
      }
    }

    /** `populateFile(path, select)`: one descriptor `{path, model: 'fs.files', select}`. */
    method PopulateFile(path: string, select: Value)
      requires Valid()
      modifies this`populations, PopulationsRef()
      ensures Valid()
      ensures PopulationsValue() ==
        Some(old(PopulationsValue()).GetOr([]) + [Obj([("path", Str(path)), ("model", Str("fs.files")), ("select", select)])])
    {
      Populate(Some([Obj([("path", Str(path)), ("model", Str("fs.files")), ("select", select)])]));
    }

    /**
     * `if (!this._projection) this._projection = {}`, read through the chain: the projection
     * object the chain reaches, or else a new own `{}`.
     */
    method ProjectionCell() returns (obj: JsObject)
      requires Valid()
      modifies this`projection
      ensures Valid() && obj == ProjectionRef()
      ensures old(ProjectionRef()) != null ==> projection == old(projection) && obj == old(ProjectionRef())
      ensures old(ProjectionRef()) == null ==> fresh(obj) && obj.fields == []
    {
      var h := Resolved(ProjectionSlot);
      if h.projection == null {
        obj := new JsObject([]);
        projection := obj;
      } else {
        obj := h.projection;
      }
    }

    /**
     * `project(p)`: a falsy `p` changes nothing. Otherwise, when no projection is reachable
     * through the chain, an own `{}` is created; then `p`'s keys are written into the
     * projection the chain reaches, or each element of an array `p` is projected in turn.
     */
    method Project(p: Value)
      requires Valid()
      modifies this`projection, ProjectionRef()
      ensures Valid()
      ensures ProjectionValue() == Projected(old(ProjectionValue()), p)
      ensures old(ProjectionRef()) != null ==> projection == old(projection) && ProjectionRef() == old(ProjectionRef())
      ensures ProjectionRef() == old(ProjectionRef()) || fresh(ProjectionRef())
      decreases p
    {
      if Truthy(p) {
        var obj := ProjectionCell();
        if p.Arr? {
          var i := 0;
          while i < |p.items|
            invariant 0 <= i <= |p.items|
            invariant Valid() && obj == ProjectionRef()
            invariant old(ProjectionRef()) != null ==> projection == old(projection) && obj == old(ProjectionRef())
            invariant obj == old(ProjectionRef()) || fresh(obj)
            invariant ProjectEach(ProjectionValue(), p, i) == Projected(old(ProjectionValue()), p)
          {
            Project(p.items[i]);
            i := i + 1;
          }
        } else {
          obj.AssignEach(OwnFields(p));
        }
      }
    }

    /** `skip(n)`: an own property from now on, whatever the original holds. */
    method Skip(n: int)
      requires Linked()
      modifies this`skip
      ensures skip == Some(n) && SkipValue() == Some(n)
    {
      skip := Some(n);
    }

    method Limit(n: int)
      requires Linked()
      modifies this`limit
      ensures limit == Some(n) && LimitValue() == Some(n)
    {
      limit := Some(n);
    }

    method Sort(s: Value)
      requires Linked()
      modifies this`sort
      ensures sort == Some(s) && SortValue() == Some(s)
    {
      sort := Some(s);
    }

    /** `set(entry)`: the whole update document is appended as one fragment. */
    method Set(entry: Value)
      requires Valid()
      modifies updates
      ensures updates.items == old(updates.items) + [entry]
      ensures conditions.items == old(conditions.items) && ors.items == old(ors.items)
    {
      updates.items := updates.items + [entry];
    }

    /** Append one `{op: {key: value}}` fragment per entry, in entry order. */
    method PushOperator(op: string, entry: Fields)
      requires Valid()
      modifies updates
      ensures updates.items == old(updates.items) + OperatorFragments(op, entry)
      ensures conditions.items == old(conditions.items) && ors.items == old(ors.items)
    {
      var i := 0;
      while i < |entry|
        invariant 0 <= i <= |entry|
        invariant updates.items == old(updates.items) + OperatorFragments(op, entry[..i])
      {
        assert OperatorFragments(op, entry[..i + 1]) == OperatorFragments(op, entry[..i]) + [OpFragment(op, entry[i].0, entry[i].1)];
        updates.items := updates.items + [OpFragment(op, entry[i].0, entry[i].1)];
        i := i + 1;
      }
      assert entry[..i] == entry;
    }

    method AddToSet(entry: Fields)
      requires Valid()
      modifies updates
      ensures updates.items == old(updates.items) + OperatorFragments("$addToSet", entry)
      ensures conditions.items == old(conditions.items) && ors.items == old(ors.items)
    {
      PushOperator("$addToSet", entry);
    }

    method Pull(entry: Fields)
      requires Valid()
      modifies updates
      ensures updates.items == old(updates.items) + OperatorFragments("$pull", entry)
      ensures conditions.items == old(conditions.items) && ors.items == old(ors.items)
    {
      PushOperator("$pull", entry);
    }

    /** The data builder's `push` stores the value itself, without `$each`. */
    method Push(entry: Fields)
      requires Valid()
      modifies updates
      ensures updates.items == old(updates.items) + OperatorFragments("$push", entry)
      ensures conditions.items == old(conditions.items) && ors.items == old(ors.items)
    {
      PushOperator("$push", entry);
    }

    /**
     * The condition `getCondition` returns: the key-wise merge of the and-list, then, when
     * the or-list is non-empty, its elements appended to a fresh copy of the `$or` array.
     * This read leaves the fragments unchanged.
     */
    method GetCondition() returns (r: Result<Fields>)
      ensures r == ConditionOf(conditions.items, ors.items)
    {
      var merged := MergeInto(conditions.items);
      if merged.Err? {
        return Err(merged.message);
      }
      var condition := merged.value;
      var orList := ors.items;
      if |orList| == 0 {
        return Ok(condition);
      }
      var existing := Lookup(condition, "$or");
      var list: seq<Value>;
      if existing.None? || !Truthy(existing.value) {
        list := [];
      } else if existing.value.Arr? {
        list := existing.value.items;
      } else {
        return Err(OR_PUSH_ERROR);
      }
      ghost var prior := list;
      var i := 0;
      while i < |orList|
        invariant 0 <= i <= |orList|
        invariant list == prior + orList[..i]
      {
        assert orList[..i + 1] == orList[..i] + [orList[i]];
        list := list + [orList[i]];
        i := i + 1;
      }
      assert orList[..i] == orList;
      assert prior == [] ==> list == orList;
      r := Ok(Assign(condition, "$or", Arr(list)));
    }

    /**
     * `getCondition` as written: the same result, but the ors are pushed into the `$or`
     * array object of the and-fragment that supplied it, so that fragment grows.
     */
    method GetConditionAsWritten() returns (r: Result<Fields>)
      requires Valid()
      modifies conditions
      ensures r == ConditionOf(old(conditions.items), ors.items)
      ensures conditions.items == OrAliasedAfterRead(old(conditions.items), ors.items)
      ensures ors.items == old(ors.items)
    {
      r := GetCondition();
      conditions.items := OrAliasedAfterRead(conditions.items, ors.items);
    }

    /** `getUpdates` as written: merged by operator key only, a later operator object replacing an earlier one. */
    method GetUpdates() returns (r: Result<Fields>)
      ensures r == if Keyable(updates.items) then Ok(MergeFragments(updates.items)) else Err(KEYS_ERROR)
    {
      r := MergeInto(updates.items);
    }

    /** `getUpdates` as intended: the fields written under each operator are collected. */
    method GetUpdatesFieldwise() returns (r: Result<Fields>)
      ensures r == if Keyable(updates.items) then Ok(OperatorUnion(updates.items)) else Err(KEYS_ERROR)
    {
      r := UnionInto(updates.items);
    }

    /** `getQuery` over the corrected condition read, which leaves the fragments as they were. */
    method GetQuery() returns (r: Result<DataSnapshot>)
      requires Linked()
      ensures r.Ok? <==> ConditionOf(conditions.items, ors.items).Ok?
      ensures r.Err? ==> r.message == ConditionOf(conditions.items, ors.items).message
      ensures r.Ok? ==>
        r.value == DataSnapshot(ConditionOf(conditions.items, ors.items).value, ProjectionValue(), PopulationsValue(), LimitValue(), SkipValue(), SortValue())
    {
      var c := GetCondition();
      if c.Err? {
        return Err(c.message);
      }
      r := Ok(DataSnapshot(c.value, ProjectionValue(), PopulationsValue(), LimitValue(), SkipValue(), SortValue()));
    }

    /** `getQuery` as written: it reads the condition through `getCondition` as written, so an and-fragment's `$or` grows. */
    method GetQueryAsWritten() returns (r: Result<DataSnapshot>)
      requires Valid()
      modifies conditions
      ensures conditions.items == OrAliasedAfterRead(old(conditions.items), ors.items)
      ensures r.Ok? <==> ConditionOf(old(conditions.items), ors.items).Ok?
      ensures r.Err? ==> r.message == ConditionOf(old(conditions.items), ors.items).message
      ensures r.Ok? ==>
        r.value == DataSnapshot(ConditionOf(old(conditions.items), ors.items).value, ProjectionValue(), PopulationsValue(), LimitValue(), SkipValue(), SortValue())
    {
      var c := GetConditionAsWritten();
      if c.Err? {
        return Err(c.message);
      }
      r := Ok(DataSnapshot(c.value, ProjectionValue(), PopulationsValue(), LimitValue(), SkipValue(), SortValue()));
    }

    /**
     * `clone`: `Object.assign(Object.create(this), this)`. The copy has this builder as its
     * prototype and copies its own properties, so it holds the very same list cells, and a
     * field this builder never wrote stays unwritten in the copy and is read from this builder.
     */
    method Clone() returns (c: DataQueryBuilder)
      requires Valid()
      ensures fresh(c) && c.Valid()
      ensures c.proto == this && c.ancestors == [this] + ancestors
      ensures c.id == id && c.projection == projection && c.populations == populations
      ensures c.skip == skip && c.limit == limit && c.sort == sort
      ensures c.conditions == conditions && c.ors == ors && c.updates == updates
      ensures c.db == db && c.metatype == metatype
      ensures c.GetId() == GetId() && c.SkipValue() == SkipValue() && c.LimitValue() == LimitValue() && c.SortValue() == SortValue()
      ensures c.ProjectionRef() == ProjectionRef() && c.PopulationsRef() == PopulationsRef()
    {
      c := new DataQueryBuilder.Derived(this);
      assert c.Chain()[1..] == Chain();
      forall s: Slot ensures c.Resolved(s).Owns(s) == Resolved(s).Owns(s) && (c.Resolved(s) == c || c.Resolved(s) == Resolved(s)) {
        assert c.Owns(s) == Owns(s);
      }
    }
  }

  // ---------------------------------------------------------------------------
  // Properties over several calls

  /** `addToSet({a: 1, b: 2})` then `getUpdates()`: the merge by operator keeps only `b`, the field union keeps both. */
  lemma AddToSetTwoFieldsLosesFirst()
    ensures
      var frags := OperatorFragments("$addToSet", [("a", Num(1)), ("b", Num(2))]);
      && FieldOf(MergeFragments(frags), "$addToSet", "a") == None
      && FieldOf(MergeFragments(frags), "$addToSet", "b") == Some(Num(2))
      && FieldOf(OperatorUnion(frags), "$addToSet", "a") == Some(Num(1))
      && FieldOf(OperatorUnion(frags), "$addToSet", "b") == Some(Num(2))
  {
    var frags := OperatorFragments("$addToSet", [("a", Num(1)), ("b", Num(2))]);
    assert frags == [OpFragment("$addToSet", "a", Num(1)), OpFragment("$addToSet", "b", Num(2))];
    assert frags[..1] == [OpFragment("$addToSet", "a", Num(1))];
    assert frags[..1][..0] == [];
    assert MergeFragments(frags[..1]) == [("$addToSet", Single("a", Num(1)))];
    assert MergeFragments(frags) == [("$addToSet", Single("b", Num(2)))];
    forall i | 0 <= i < |frags| ensures IsOpFragment(frags[i]) { }
    OperatorUnionLastWrite(frags, "$addToSet", "a");
    OperatorUnionLastWrite(frags, "$addToSet", "b");
    assert LastOpWrite(frags[..1], "$addToSet", "a") == Some(Num(1));
  }

  /** `clone(modifier)` runs the modifier on the original; a later push through the copy shows up in the original too. */
  method CloneSharesLists(b: DataQueryBuilder, x: Value, y: Value) returns (c: DataQueryBuilder)
    requires b.Valid()
    modifies b.conditions
    ensures c.conditions == b.conditions
    ensures b.conditions.items == old(b.conditions.items) + Appended(x) + Appended(y)
  {
    b.AndWhere(x);
    assert b.conditions.items == old(b.conditions.items) + Appended(x);
    c := b.Clone();
    assert c.conditions == b.conditions;
    c.AndWhere(y);
    assert c.conditions == b.conditions;
  }

  /**
   * `c = b.clone(); b.skip(5)`: the clone never wrote `skip`, so it reads the original's
   * later write.
   */
  method CloneReadsOriginalSkip(db: Model, mt: Metatype) returns (before: Option<int>, after: Option<int>)
    ensures before == None && after == Some(5)
  {
    var b := new DataQueryBuilder(db, mt);
    var c := b.Clone();
    assert c.Chain()[1..] == [b];
    before := c.SkipValue();
    b.Skip(5);
    assert !c.Owns(SkipSlot) && c.Resolved(SkipSlot) == b;
    after := c.SkipValue();
  }

  /** Once the clone writes its own `skip`, it reads that, and the original keeps its own. */
  method CloneOwnSkip(b: DataQueryBuilder) returns (own: Option<int>, original: Option<int>)
    requires b.Valid()
    ensures own == Some(7) && original == b.SkipValue()
  {
    var c := b.Clone();
    c.Skip(7);
    own := c.SkipValue();
    original := b.SkipValue();
  }

  /** Projecting `{z: 1}` onto the projection `{a: 1}` keeps `a` and appends `z`. */
  lemma ProjectedOneThenAnother()
    ensures Projected(None, Single("a", Num(1))) == Some([("a", Num(1))])
    ensures Projected(Some([("a", Num(1))]), Single("z", Num(1))) == Some([("a", Num(1)), ("z", Num(1))])
  {
    var z: Fields := [("z", Num(1))];
    assert z[..0] == [];
    assert Truthy(Single("z", Num(1))) && OwnFields(Single("z", Num(1))) == z;
    assert AssignAll([("a", Num(1))], z) == Assign([("a", Num(1))], "z", Num(1));
    assert Some([("a", Num(1))]).GetOr([]) == [("a", Num(1))];
    assert Projected(Some([("a", Num(1))]), Single("z", Num(1))) == Some(AssignAll([("a", Num(1))], z));
    var a: Fields := [("a", Num(1))];
    assert "a" != "z" && a[1..] == [];
    assert Assign(a, "z", Num(1)) == a + Assign([], "z", Num(1)) == a + z;
    assert a + z == [("a", Num(1)), ("z", Num(1))];
  }

  /**
   * `c = b.clone(); b.project({a: 1}); c.project({z: 1})`: the clone has no projection of its
   * own, so its write lands in the original's projection object.
   */
  method CloneProjectsIntoOriginal(db: Model, mt: Metatype) returns (seen: Option<Fields>)
    ensures seen == Some([("a", Num(1)), ("z", Num(1))])
  {
    var b := new DataQueryBuilder(db, mt);
    var c := b.Clone();
    assert c.Chain()[1..] == [b];
    ProjectedOneThenAnother();
    b.Project(Single("a", Num(1)));
    ghost var shared := b.projection;
    assert shared != null && shared.fields == [("a", Num(1))];
    assert !c.Owns(ProjectionSlot) && c.Resolved(ProjectionSlot) == b;
    c.Project(Single("z", Num(1)));
    assert shared.fields == [("a", Num(1)), ("z", Num(1))];
    seen := b.ProjectionValue();
  }

  /** Two snapshots after an and-fragment supplied an `$or` array differ under the as-written read. */
  method RereadConditionGrows(db: Model, mt: Metatype) returns (first: Result<DataSnapshot>, second: Result<DataSnapshot>)
    ensures first.Ok? && first.value.condition == [("$or", Arr([Single("a", Num(1)), Single("b", Num(2))]))]
    ensures second.Ok? && second.value.condition == [("$or", Arr([Single("a", Num(1)), Single("b", Num(2)), Single("b", Num(2))]))]
  {
    var b := new DataQueryBuilder(db, mt);
    b.AndWhere(Single("$or", Arr([Single("a", Num(1))])));
    b.OrWhere(Single("b", Num(2)));
    var conds := [Single("$or", Arr([Single("a", Num(1))]))];
    var ors := [Single("b", Num(2))];
    assert b.conditions.items == conds && b.ors.items == ors;
    ConditionReadTwiceDiffers();
    first := b.GetQueryAsWritten();
    assert b.conditions.items == OrAliasedAfterRead(conds, ors) && b.ors.items == ors;
    second := b.GetQueryAsWritten();
  }

  /** The same two snapshots under the corrected read: both have each alternative once. */
  method RereadConditionStable(db: Model, mt: Metatype) returns (first: Result<DataSnapshot>, second: Result<DataSnapshot>)
    ensures first.Ok? && first.value.condition == [("$or", Arr([Single("a", Num(1)), Single("b", Num(2))]))]
    ensures second == first
  {
    var b := new DataQueryBuilder(db, mt);
    b.AndWhere(Single("$or", Arr([Single("a", Num(1))])));
    b.OrWhere(Single("b", Num(2)));
    assert b.conditions.items == [Single("$or", Arr([Single("a", Num(1))]))] && b.ors.items == [Single("b", Num(2))];
    ConditionReadTwiceDiffers();
    first := b.GetQuery();
    second := b.GetQuery();
  }
}
