/**
 * The merge rules that turn accumulated fragments into one document:
 * the data builder's key-wise shallow merge (`getCondition`, `getUpdates`),
 * the per-operator field union, and the projection writes both builders share.
 */
module Merge {
  import opened Wrappers
  import opened Js

  // ---------------------------------------------------------------------------
  // Key-wise shallow merge

  /**
   * `const r = {}; frags.forEach(f => Object.keys(f).forEach(k => r[k] = f[k]))`:
   * every top-level key of every fragment, in order, the later write winning.
   */
  function MergeFragments(frags: seq<Value>): Fields
    decreases |frags|
  {
    if frags == [] then []
    else
      var n := |frags| - 1;
      AssignAll(MergeFragments(frags[..n]), OwnFields(frags[n]))
  }

  const KEYS_ERROR := "Cannot convert undefined or null to object"

  /** No fragment is `null` or `undefined`, the two values `Object.keys` throws on. */
  predicate Keyable(frags: seq<Value>) {
    forall i :: 0 <= i < |frags| ==> !frags[i].Null? && !frags[i].Undef?
  }

  /** The value the last fragment that writes `k` gives it. */
  function LastFragmentWrite(frags: seq<Value>, k: string): Option<Value>
    decreases |frags|
  {
    if frags == [] then None
    else
      var n := |frags| - 1;
      var w := LastWrite(OwnFields(frags[n]), k);
      if w.Some? then w else LastFragmentWrite(frags[..n], k)
  }

  /** Some fragment in `frags` has `k` among its own keys. */
  ghost predicate Writes(frags: seq<Value>, k: string) {
    exists i :: 0 <= i < |frags| && k in Keys(OwnFields(frags[i]))
  }

  /** The merged document holds, for each key, exactly the last fragment's write of it. */
  lemma {:induction false} MergeLookup(frags: seq<Value>, k: string)
    ensures Lookup(MergeFragments(frags), k) == LastFragmentWrite(frags, k)
    decreases |frags|
  {
    if frags != [] {
      var n := |frags| - 1;
      MergeLookup(frags[..n], k);
      LookupAssignAll(MergeFragments(frags[..n]), OwnFields(frags[n]), k);
    }
  }

  lemma {:induction false} LastFragmentWritePresent(frags: seq<Value>, k: string)
    ensures LastFragmentWrite(frags, k).Some? <==> Writes(frags, k)
    decreases |frags|
  {
    if frags != [] {
      var n := |frags| - 1;
      LastWritePresent(OwnFields(frags[n]), k);
      LastFragmentWritePresent(frags[..n], k);
      if Writes(frags, k) && !(k in Keys(OwnFields(frags[n]))) {
        var i :| 0 <= i < |frags| && k in Keys(OwnFields(frags[i]));
        assert frags[..n][i] == frags[i];
      }
      if Writes(frags[..n], k) {
        var i :| 0 <= i < n && k in Keys(OwnFields(frags[..n][i]));
        assert frags[i] == frags[..n][i];
      }
    }
  }

  lemma {:induction false} LastFragmentWriteConcat(x: seq<Value>, y: seq<Value>, k: string)
    ensures LastFragmentWrite(x + y, k) ==
      if LastFragmentWrite(y, k).Some? then LastFragmentWrite(y, k) else LastFragmentWrite(x, k)
    decreases |y|
  {
    if y == [] {
      assert x + y == x;
    } else {
      var n := |y| - 1;
      assert (x + y)[..|x + y| - 1] == x + y[..n];
      assert (x + y)[|x + y| - 1] == y[n];
      LastFragmentWriteConcat(x, y[..n], k);
    }
  }

  /** A key written by fragment `i` and by no later fragment holds fragment `i`'s value: the later write wins. */
  lemma MergeLaterWins(frags: seq<Value>, i: nat, k: string)
    requires i < |frags| && k in Keys(OwnFields(frags[i]))
    requires UniqueKeys(OwnFields(frags[i]))
    requires forall j :: i < j < |frags| ==> k !in Keys(OwnFields(frags[j]))
    ensures Lookup(MergeFragments(frags), k) == Lookup(OwnFields(frags[i]), k)
  {
    MergeLookup(frags, k);
    LastWriterWins(frags, i, k);
    UniqueLastWriteIsLookup(OwnFields(frags[i]), k);
  }

  /** The last fragment that writes `k` gives it its value. */
  lemma LastWriterWins(frags: seq<Value>, i: nat, k: string)
    requires i < |frags| && k in Keys(OwnFields(frags[i]))
    requires forall j :: i < j < |frags| ==> k !in Keys(OwnFields(frags[j]))
    ensures LastFragmentWrite(frags, k) == LastWrite(OwnFields(frags[i]), k)
  {
    var pre, post := frags[..i + 1], frags[i + 1..];
    NoLaterWrite(frags, i, k);
    assert frags == pre + post;
    LastFragmentWriteConcat(pre, post, k);
    LastWritePresent(OwnFields(frags[i]), k);
    assert pre[i] == frags[i];
  }

  /** No fragment after `i` writes `k`, so none of them gives it a value. */
  lemma NoLaterWrite(frags: seq<Value>, i: nat, k: string)
    requires i < |frags|
    requires forall j :: i < j < |frags| ==> k !in Keys(OwnFields(frags[j]))
    ensures LastFragmentWrite(frags[i + 1..], k) == None
  {
    var post := frags[i + 1..];
    forall j | 0 <= j < |post| ensures k !in Keys(OwnFields(post[j])) {
      assert post[j] == frags[i + 1 + j];
    }
    LastFragmentWritePresent(post, k);
  }

  /** Every key of every fragment survives the merge, and no other key appears. */
  lemma MergeKeys(frags: seq<Value>, k: string)
    ensures k in Keys(MergeFragments(frags)) <==> Writes(frags, k)
  {
    MergeLookup(frags, k);
    LookupPresent(MergeFragments(frags), k);
    LastFragmentWritePresent(frags, k);
  }

  /** The merged document has at most one entry per key. */
  lemma {:induction false} MergeUnique(frags: seq<Value>)
    ensures UniqueKeys(MergeFragments(frags))
    decreases |frags|
  {
    if frags != [] {
      var n := |frags| - 1;
      MergeUnique(frags[..n]);
      UniqueAssignAll(MergeFragments(frags[..n]), OwnFields(frags[n]));
    }
  }

  /** Two adjacent fragments with disjoint keys can be swapped without changing any key's merged value. */
  lemma MergeDisjointSwap(pre: seq<Value>, a: Value, b: Value, post: seq<Value>, k: string)
    requires forall key :: key in Keys(OwnFields(a)) ==> key !in Keys(OwnFields(b))
    ensures Lookup(MergeFragments(pre + [a, b] + post), k) == Lookup(MergeFragments(pre + [b, a] + post), k)
  {
    MergeLookup(pre + [a, b] + post, k);
    MergeLookup(pre + [b, a] + post, k);
    LastFragmentWriteConcat(pre + [a, b], post, k);
    LastFragmentWriteConcat(pre + [b, a], post, k);
    LastFragmentWriteConcat(pre, [a, b], k);
    LastFragmentWriteConcat(pre, [b, a], k);
    LastFragmentWriteConcat([a], [b], k);
    LastFragmentWriteConcat([b], [a], k);
    LastWritePresent(OwnFields(a), k);
    LastWritePresent(OwnFields(b), k);
    assert [a, b] == [a] + [b] && [b, a] == [b] + [a];
    assert [a][..0] == [] && [b][..0] == [];
  }

  // ---------------------------------------------------------------------------
  // The data builder's condition

  const OR_PUSH_ERROR := "condition.$or.push is not a function"

  /**
   * The data builder's `getCondition`: the shallow merge of the and-fragments, then, when
   * or-fragments exist, `condition.$or = condition.$or || []` followed by one push per
   * or-fragment. A `null` or `undefined` and-fragment makes `Object.keys` throw, and a
   * truthy `$or` that is not an array has no `push`, so the call throws.
   */
  function ConditionOf(conds: seq<Value>, ors: seq<Value>): Result<Fields> {
    var base := MergeFragments(conds);
    if !Keyable(conds) then Err(KEYS_ERROR)
    else if ors == [] then Ok(base)
    else
      var existing := Lookup(base, "$or");
      if existing.None? || !Truthy(existing.value) then Ok(Assign(base, "$or", Arr(ors)))
      else if existing.value.Arr? then Ok(Assign(base, "$or", Arr(existing.value.items + ors)))
      else Err(OR_PUSH_ERROR)
  }

  /** The `$or` alternatives already present among the and-fragments, when they form an array. */
  function PriorOrs(conds: seq<Value>): seq<Value> {
    match LastFragmentWrite(conds, "$or")
    case Some(Arr(xs)) => xs
    case _ => []
  }

  /**
   * The effective condition: without or-fragments it is the merge; with them every key but
   * `$or` is the merge's, and `$or` lists any array already there followed by every
   * or-fragment once, in call order. It throws exactly when an and-fragment is `null` or
   * `undefined`, or when that `$or` is truthy and not an array.
   */
  lemma ConditionOfSpec(conds: seq<Value>, ors: seq<Value>)
    ensures !Keyable(conds) ==> ConditionOf(conds, ors) == Err(KEYS_ERROR)
    ensures Keyable(conds) && ors == [] ==> ConditionOf(conds, ors) == Ok(MergeFragments(conds))
    ensures ConditionOf(conds, ors).Err? <==>
      !Keyable(conds) ||
      (ors != [] && LastFragmentWrite(conds, "$or").Some? &&
       Truthy(LastFragmentWrite(conds, "$or").value) && !LastFragmentWrite(conds, "$or").value.Arr?)
    ensures Keyable(conds) && ConditionOf(conds, ors).Err? ==> ConditionOf(conds, ors).message == OR_PUSH_ERROR
    ensures ConditionOf(conds, ors).Ok? ==>
      forall k :: k != "$or" ==> Lookup(ConditionOf(conds, ors).value, k) == LastFragmentWrite(conds, k)
    ensures ConditionOf(conds, ors).Ok? && ors != [] ==>
      Lookup(ConditionOf(conds, ors).value, "$or") == Some(Arr(PriorOrs(conds) + ors))
  {
    var base := MergeFragments(conds);
    var existing := Lookup(base, "$or");
    MergeLookup(conds, "$or");
    forall k | k != "$or"
      ensures ConditionOf(conds, ors).Ok? ==> Lookup(ConditionOf(conds, ors).value, k) == LastFragmentWrite(conds, k)
    {
      MergeLookup(conds, k);
      LookupAssign(base, "$or", Arr(ors), k);
      if existing.Some? && existing.value.Arr? {
        LookupAssign(base, "$or", Arr(existing.value.items + ors), k);
      }
    }
    if ors != [] {
      if existing.None? || !Truthy(existing.value) {
        LookupAssign(base, "$or", Arr(ors), "$or");
        assert PriorOrs(conds) == [];
        assert PriorOrs(conds) + ors == ors;
      } else if existing.value.Arr? {
        LookupAssign(base, "$or", Arr(existing.value.items + ors), "$or");
        assert PriorOrs(conds) == existing.value.items;
      }
    }
  }

  /** No and-fragment writes `$or`: the or-fragments form the whole `$or` array. */
  lemma ConditionOrsOnly(conds: seq<Value>, ors: seq<Value>)
    requires ors != [] && !Writes(conds, "$or") && Keyable(conds)
    ensures ConditionOf(conds, ors).Ok?
    ensures Lookup(ConditionOf(conds, ors).value, "$or") == Some(Arr(ors))
  {
    LastFragmentWritePresent(conds, "$or");
    ConditionOfSpec(conds, ors);
    assert PriorOrs(conds) + ors == ors;
  }

  /** The index of the last fragment that has `k` among its own keys. */
  function LastWriterIndex(frags: seq<Value>, k: string): (r: Option<nat>)
    ensures r.Some? ==> r.value < |frags|
    decreases |frags|
  {
    if frags == [] then None
    else if k in Keys(OwnFields(frags[|frags| - 1])) then Some(|frags| - 1)
    else LastWriterIndex(frags[..|frags| - 1], k)
  }

  /**
   * The and-fragments after the data builder's `getCondition` AS WRITTEN: `condition[key] = cond[key]`
   * copies a reference to the last `$or` array, so the pushes append the or-fragments to that
   * and-fragment's own `$or` array. A read that throws while merging changes nothing.
   */
  function OrAliasedAfterRead(conds: seq<Value>, ors: seq<Value>): seq<Value> {
    if ors == [] || !Keyable(conds) then conds
    else
      match (Lookup(MergeFragments(conds), "$or"), LastWriterIndex(conds, "$or"))
      case (Some(Arr(xs)), Some(j)) =>
        conds[j := Obj(Assign(OwnFields(conds[j]), "$or", Arr(xs + ors)))]
      case _ => conds
  }

  /**
   * Reading the condition twice gives two answers when an and-fragment carries an `$or` array:
   * `where({$or: [{a: 1}]}).orWhere({b: 2})` reads `$or: [{a: 1}, {b: 2}]` the first time and
   * `$or: [{a: 1}, {b: 2}, {b: 2}]` the second.
   */
  lemma ConditionReadTwiceDiffers()
    ensures
      var conds := [Single("$or", Arr([Single("a", Num(1))]))];
      var ors := [Single("b", Num(2))];
      && ConditionOf(conds, ors) == Ok([("$or", Arr([Single("a", Num(1)), Single("b", Num(2))]))])
      && ConditionOf(OrAliasedAfterRead(conds, ors), ors)
         == Ok([("$or", Arr([Single("a", Num(1)), Single("b", Num(2)), Single("b", Num(2))]))])
  {
    var conds := [Single("$or", Arr([Single("a", Num(1))]))];
    var ors := [Single("b", Num(2))];
    assert conds[..0] == [];
    assert MergeFragments(conds) == [("$or", Arr([Single("a", Num(1))]))];
    assert Keys(OwnFields(conds[0]))[0] == "$or";
    assert LastWriterIndex(conds, "$or") == Some(0);
    assert Lookup(MergeFragments(conds), "$or") == Some(Arr([Single("a", Num(1))]));
    assert [Single("a", Num(1))] + ors == [Single("a", Num(1)), Single("b", Num(2))];
    assert Assign(OwnFields(conds[0]), "$or", Arr([Single("a", Num(1)), Single("b", Num(2))]))
      == [("$or", Arr([Single("a", Num(1)), Single("b", Num(2))]))];
    var after := OrAliasedAfterRead(conds, ors);
    assert after == [Single("$or", Arr([Single("a", Num(1)), Single("b", Num(2))]))];
    assert after[..0] == [];
    assert MergeFragments(after) == [("$or", Arr([Single("a", Num(1)), Single("b", Num(2))]))];
    assert Lookup(MergeFragments(after), "$or") == Some(Arr([Single("a", Num(1)), Single("b", Num(2))]));
    assert [Single("a", Num(1)), Single("b", Num(2))] + ors
      == [Single("a", Num(1)), Single("b", Num(2)), Single("b", Num(2))];
    assert ConditionOf(conds, ors) == Ok([("$or", Arr([Single("a", Num(1)), Single("b", Num(2))]))]);
    var three := Arr([Single("a", Num(1)), Single("b", Num(2)), Single("b", Num(2))]);
    assert Assign(MergeFragments(after), "$or", three) == [("$or", three)];
    assert ConditionOf(after, ors) == Ok([("$or", Arr([Single("a", Num(1)), Single("b", Num(2)), Single("b", Num(2))]))]);
  }

  // ---------------------------------------------------------------------------
  // Per-operator field union

  /** Merge one top-level entry: two objects are merged field by field, anything else is replaced. */
  function UnionEntry(acc: Fields, op: string, inner: Value): Fields {
    var prior := OwnFields(Lookup(acc, op).GetOr(Undef));
    Assign(acc, op, if inner.Obj? then Obj(AssignAll(prior, inner.fields)) else inner)
  }

  function UnionAll(acc: Fields, es: Fields): Fields
    decreases |es|
  {
    if es == [] then acc
    else
      var n := |es| - 1;
      UnionEntry(UnionAll(acc, es[..n]), es[n].0, es[n].1)
  }

  /**
   * The update document as a per-operator union: one entry per operator whose value
   * collects every field written under that operator, the later write of a field winning.
   */
  function OperatorUnion(frags: seq<Value>): Fields
    decreases |frags|
  {
    if frags == [] then []
    else
      var n := |frags| - 1;
      UnionAll(OperatorUnion(frags[..n]), OwnFields(frags[n]))
  }

  /** `doc[op][field]`. */
  function FieldOf(doc: Fields, op: string, field: string): Option<Value> {
    match Lookup(doc, op)
    case None => None
    case Some(x) => Lookup(OwnFields(x), field)
  }

  /** A builder-made update fragment `{op: {field: value}}`. */
  predicate IsOpFragment(v: Value) {
    v.Obj? && |v.fields| == 1 && v.fields[0].1.Obj? && |v.fields[0].1.fields| == 1
  }

  /** The value of the last fragment `{op: {field: value}}` in `frags`. */
  function LastOpWrite(frags: seq<Value>, op: string, field: string): Option<Value>
    decreases |frags|
  {
    if frags == [] then None
    else
      var v := frags[|frags| - 1];
      if IsOpFragment(v) && v.fields[0].0 == op && v.fields[0].1.fields[0].0 == field then
        Some(v.fields[0].1.fields[0].1)
      else
        LastOpWrite(frags[..|frags| - 1], op, field)
  }

  /** Under the union, every (operator, field) pair holds its last write, whatever other fields the operator got. */
  lemma {:induction false} OperatorUnionLastWrite(frags: seq<Value>, op: string, field: string)
    requires forall i :: 0 <= i < |frags| ==> IsOpFragment(frags[i])
    ensures FieldOf(OperatorUnion(frags), op, field) == LastOpWrite(frags, op, field)
    decreases |frags|
  {
    if frags != [] {
      var n := |frags| - 1;
      var prev := OperatorUnion(frags[..n]);
      OperatorUnionLastWrite(frags[..n], op, field);
      var v := frags[n];
      var op', inner := v.fields[0].0, v.fields[0].1;
      var f', x := inner.fields[0].0, inner.fields[0].1;
      assert OwnFields(v) == [(op', inner)];
      assert OwnFields(v)[..0] == [];
      assert UnionAll(prev, OwnFields(v)) == UnionEntry(UnionAll(prev, []), op', inner);
      assert OperatorUnion(frags) == UnionAll(prev, OwnFields(v));
      var prior := OwnFields(Lookup(prev, op').GetOr(Undef));
      assert inner.fields[..0] == [];
      assert AssignAll(prior, inner.fields) == Assign(prior, f', x);
      LookupAssign(prev, op', Obj(Assign(prior, f', x)), op);
      LookupAssign(prior, f', x, field);
    }
  }

  /** The union has at most one entry per operator. */
  lemma {:induction false} OperatorUnionUnique(frags: seq<Value>)
    ensures UniqueKeys(OperatorUnion(frags))
    decreases |frags|
  {
    if frags != [] {
      var n := |frags| - 1;
      OperatorUnionUnique(frags[..n]);
      UnionAllUnique(OperatorUnion(frags[..n]), OwnFields(frags[n]));
    }
  }

  /** The top-level entries of all fragments, in order. */
  function Entries(frags: seq<Value>): Fields
    decreases |frags|
  {
    if frags == [] then [] else Entries(frags[..|frags| - 1]) + OwnFields(frags[|frags| - 1])
  }

  /**
   * `doc[op][field]` read by scanning the entries from the last: the last entry for `op`
   * whose object writes `field` gives its value, unless a later entry set `op` to a non-object.
   */
  function LastFieldWrite(es: Fields, op: string, field: string): Option<Value>
    decreases |es|
  {
    if es == [] then None
    else
      var (o, inner) := es[|es| - 1];
      if o != op then LastFieldWrite(es[..|es| - 1], op, field)
      else if !inner.Obj? then None
      else if LastWrite(inner.fields, field).Some? then LastWrite(inner.fields, field)
      else LastFieldWrite(es[..|es| - 1], op, field)
  }

  /**
   * For any update fragments, with any number of operators and fields each, the union holds
   * every field written under an operator with its last write: a later fragment writing
   * another field of the same operator loses nothing.
   */
  lemma OperatorUnionFieldWrite(frags: seq<Value>, op: string, field: string)
    ensures FieldOf(OperatorUnion(frags), op, field) == LastFieldWrite(Entries(frags), op, field)
  {
    OperatorUnionEntries(frags);
    UnionAllFieldWrite(Entries(frags), op, field);
  }

  lemma {:induction false} UnionAllFieldWrite(es: Fields, op: string, field: string)
    ensures FieldOf(UnionAll([], es), op, field) == LastFieldWrite(es, op, field)
    decreases |es|
  {
    if es != [] {
      var n := |es| - 1;
      UnionAllFieldWrite(es[..n], op, field);
      var prev := UnionAll([], es[..n]);
      var (o, inner) := es[n];
      var prior := OwnFields(Lookup(prev, o).GetOr(Undef));
      var v := if inner.Obj? then Obj(AssignAll(prior, inner.fields)) else inner;
      LookupAssign(prev, o, v, op);
      if o == op && inner.Obj? {
        LookupAssignAll(prior, inner.fields, field);
      }
    }
  }

  lemma {:induction false} UnionAllConcat(acc: Fields, x: Fields, y: Fields)
    ensures UnionAll(acc, x + y) == UnionAll(UnionAll(acc, x), y)
    decreases |y|
  {
    if y == [] {
      assert x + y == x;
    } else {
      var n := |y| - 1;
      assert (x + y)[..|x + y| - 1] == x + y[..n];
      assert (x + y)[|x + y| - 1] == y[n];
      UnionAllConcat(acc, x, y[..n]);
    }
  }

  lemma {:induction false} OperatorUnionEntries(frags: seq<Value>)
    ensures OperatorUnion(frags) == UnionAll([], Entries(frags))
    decreases |frags|
  {
    if frags != [] {
      var n := |frags| - 1;
      OperatorUnionEntries(frags[..n]);
      UnionAllConcat([], Entries(frags[..n]), OwnFields(frags[n]));
    }
  }

  lemma {:induction false} UnionAllUnique(acc: Fields, es: Fields)
    requires UniqueKeys(acc)
    ensures UniqueKeys(UnionAll(acc, es))
    decreases |es|
  {
    if es != [] {
      var n := |es| - 1;
      UnionAllUnique(acc, es[..n]);
      var a := UnionAll(acc, es[..n]);
      var prior := OwnFields(Lookup(a, es[n].0).GetOr(Undef));
      UniqueAssign(a, es[n].0, if es[n].1.Obj? then Obj(AssignAll(prior, es[n].1.fields)) else es[n].1);
    }
  }

  // ---------------------------------------------------------------------------
  // Projection

  /**
   * The projection after `project(p)`: a falsy `p` changes nothing; otherwise a missing
   * projection becomes `{}`, an array applies each element in order, and an object
   * writes each of its keys.
   */
  function Projected(proj: Option<Fields>, p: Value): (r: Option<Fields>)
    ensures Truthy(p) || proj.Some? ==> r.Some?
    decreases p, 1
  {
    if !Truthy(p) then proj
    else if p.Arr? then ProjectEach(Some(proj.GetOr([])), p, 0)
    else Some(AssignAll(proj.GetOr([]), OwnFields(p)))
  }

  function ProjectEach(proj: Option<Fields>, p: Value, i: nat): (r: Option<Fields>)
    requires p.Arr? && i <= |p.items|
    ensures proj.Some? ==> r.Some?
    decreases p, 0, |p.items| - i
  {
    if i == |p.items| then proj else ProjectEach(Projected(proj, p.items[i]), p, i + 1)
  }

  /** Projecting each of `items` in turn, first to last. */
  function ProjectFold(proj: Option<Fields>, items: seq<Value>): Option<Fields>
    decreases |items|
  {
    if items == [] then proj else ProjectFold(Projected(proj, items[0]), items[1..])
  }

  /** Projecting an object: each of its keys takes the written value (the later write winning), other keys keep theirs. */
  lemma ProjectObject(proj: Option<Fields>, fs: Fields, k: string)
    ensures Projected(proj, Obj(fs)).Some?
    ensures Lookup(Projected(proj, Obj(fs)).value, k) ==
      if k in Keys(fs) then LastWrite(fs, k) else Lookup(proj.GetOr([]), k)
  {
    LookupAssignAll(proj.GetOr([]), fs, k);
    LastWritePresent(fs, k);
  }

  /**
   * Projecting an array, of any length: a missing projection first becomes `{}` (an array is
   * truthy even when empty), then each element is projected in order; falsy elements add nothing.
   */
  lemma ProjectArray(proj: Option<Fields>, items: seq<Value>)
    ensures Projected(proj, Arr(items)) == ProjectFold(Some(proj.GetOr([])), items)
    ensures (forall i :: 0 <= i < |items| ==> !Truthy(items[i])) ==> Projected(proj, Arr(items)) == Some(proj.GetOr([]))
  {
    ProjectEachFold(Some(proj.GetOr([])), Arr(items), 0);
    assert items[0..] == items;
    if forall i :: 0 <= i < |items| ==> !Truthy(items[i]) {
      ProjectFoldFalsy(Some(proj.GetOr([])), items);
    }
  }

  lemma {:induction false} ProjectEachFold(proj: Option<Fields>, p: Value, i: nat)
    requires p.Arr? && i <= |p.items|
    ensures ProjectEach(proj, p, i) == ProjectFold(proj, p.items[i..])
    decreases |p.items| - i
  {
    if i < |p.items| {
      ProjectEachFold(Projected(proj, p.items[i]), p, i + 1);
      assert p.items[i..][1..] == p.items[i + 1..];
    }
  }

  lemma {:induction false} ProjectFoldFalsy(proj: Option<Fields>, items: seq<Value>)
    requires forall i :: 0 <= i < |items| ==> !Truthy(items[i])
    ensures ProjectFold(proj, items) == proj
    decreases |items|
  {
    if items != [] {
      assert !Truthy(items[0]);
      ProjectFoldFalsy(proj, items[1..]);
    }
  }
}
