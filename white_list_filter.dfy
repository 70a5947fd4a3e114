/** The package entry point's guarded append of an id white-list to a data builder. */
module WhiteListFilter {
  import opened Wrappers
  import opened Js
  import opened Fragments
  import opened DataQuery

  /** The and-fragments `addWhiteListFilter` appends: none for a missing or empty list, else one `{_id: {$in: [{_id: i}, …]}}`. */
  function WhiteListAddition(whiteList: Option<seq<Value>>): (r: seq<Value>)
    ensures whiteList.None? || whiteList.value == [] <==> r == []
    ensures |r| <= 1
    ensures r != [] ==> r == [WhiteListFragment(whiteList.value)]
  {
    if whiteList.Some? && |whiteList.value| != 0 then [WhiteListFragment(whiteList.value)] else []
  }

  /** Each id is wrapped as `{_id: i}`, in order and one for one. */
  lemma WhiteListWrapsEachId(ids: seq<Value>, i: nat)
    requires i < |ids|
    ensures WhiteListFragment(ids) == Single("_id", Single("$in", Arr(seq(|ids|, j requires 0 <= j < |ids| => Single("_id", ids[j])))))
    ensures OwnFields(OwnFields(WhiteListFragment(ids))[0].1)[0].1.items[i] == Single("_id", ids[i])
    ensures |OwnFields(OwnFields(WhiteListFragment(ids))[0].1)[0].1.items| == |ids|
  {
  }

  /** `addWhiteListFilter(query, whiteList)`: the guarded `andWhere`; the or-list is never touched. */
  method AddWhiteListFilter(query: DataQueryBuilder, whiteList: Option<seq<Value>>)
    requires query.Valid()
    modifies query.conditions
    ensures query.conditions.items == old(query.conditions.items) + WhiteListAddition(whiteList)
    ensures query.ors.items == old(query.ors.items) && query.updates.items == old(query.updates.items)
  {
    if whiteList.Some? && |whiteList.value| != 0 {
      query.AndWhere(WhiteListFragment(whiteList.value));
    }
  }
}
