# mongoose-builder accumulators, modelled in Dafny

This project models the two fluent query/update builders of `mongoose-builder`. Each builder call appends filter or update fragments to in-memory lists and returns the same builder. On demand, the accumulated state is turned into one condition, one update document and one query snapshot. Both builders are modelled with their own merge rules. They follow the code as written, except for the two defects under Findings; each of those is modelled twice, once as written and once corrected:

- **`QueryBuilder`** (`src/query.builder.ts`), module `Query`.
  - Conditions are kept as a raw list. `where(c, 'or')` appends `{$or: c}` inline, and `getCondition` returns that list unmerged.
  - Every update call appends one single-field fragment `{op: {field: value}}` per entry.
  - Update options (array filters) are merged by a three-way rule: overwrite, concatenate or shallow-merge.
- **`DataQueryBuilder`** (`src/data.query.builder.ts`, plus the fields its executor subclass in `dist/src/query.builder.js` adds), module `DataQuery`.
  - And-fragments and or-fragments are kept in two lists. `getCondition` merges them key by key and puts the or-list under one `$or` key.
  - `getUpdates` merges by operator key.
  - The lists are heap cells (`Js.JsArray`, `Js.JsObject`), so sharing between builders is part of the model.
  - `clone` makes a builder whose prototype is the original and copies the original's own properties. Every builder carries its prototype link, and reads of `id`, `_projection`, `_populations`, `_skip`, `_limit` and `_sort` walk that chain. A clone therefore shares the list cells, and it reads through to its original any field the original had not written when it was cloned.
- **The executor subclass** (`dist/src/query.builder.js`), module `Executor`. It covers the paging defaults, the page envelope, the default projection of the find calls, the `patch` guard and the recursive `_id` stringifier `convertIdFields`.
- **`addWhiteListFilter`** (`index.ts`), module `WhiteListFilter`.

Shared layers:
- `Js` holds JavaScript values. Objects are association lists in insertion order; `obj[k] = v` replaces a present key in place or appends a new one. `Js` also holds truthiness, `typeof`, `String(v)` and spread.
- `Fragments` holds the fragment shapes every builder call produces, the array-element paths and the population-path `reduce`.
- `Merge` holds the key-wise merge, the condition with its `$or` list, the per-operator field union and the projection.

Every builder method is a method on a class with `modifies` frames. Its `ensures` clause states the new state through a function of the old state. The properties of those functions are proved as lemmas.

Behaviours of the code that the model keeps:
- `whiteListIds([])` and `whiteList([])` still add an `{_id: {$in: []}}` clause; only `addWhiteListFilter` skips an empty list.
- A dotted population path is stored as `undefined`, not as nested descriptors.
- The two builders treat or-mode differently: inline `{$or: c}` in one, a separate or-list in the other.
- The data builder's `clone` runs the modifier on the original, not on the copy.
- The executor's `query` replaces a limit of 0 by 20, because it uses `||`.
- `push` reads `options.$sort`.
- `Object.keys` throws on a `null` or `undefined` fragment, so reading the condition or the updates then fails with that error.

## Model

| member | source | states |
|---|---|---|
| Js.LookupAssign | src/query.builder.ts:79-81 | `obj[k] = v` sets `k` to `v` and leaves every other key's value as it was |
| Js.KeysAssign | src/query.builder.ts:79-81 | a present key keeps its position; a new key is appended last |
| Js.LookupAssignAll | src/data.query.builder.ts:212-216 | after assigning a list of entries in order, each key holds its last write, or its old value when the list never writes it |
| Js.KeysAssignAll | src/data.query.builder.ts:212-216 | assignment keeps the old key order and adds exactly the written keys |
| Js.UniqueAssignAll | src/data.query.builder.ts:212-216 | an object built by assignment never holds a key twice |
| Fragments.SplitDots | src/query.builder.ts:55-56 | `split('.')` yields at least one part, and at least two when the string contains a dot |
| Fragments.DottedPopulationIsUndefined | src/query.builder.ts:54-66 | a dotted population path is stored as `undefined`, because the `reduce` returns the last segment's unset `populate` |
| Fragments.ReducePopulateUndefined | src/query.builder.ts:57-63 | from any segment on, the `reduce` over a fresh `{}` ends in `undefined` |
| Fragments.ArrayElementsPathShape | src/query.builder.ts:159-160 | a falsy or key-less `where` targets `key.$[]`; a one-key `where` `{k: …}` targets `key.$[k]` |
| Fragments.TextLikeFragmentsFalsy | src/data.query.builder.ts:119-125 | there are never more patterns than entries, and there are none exactly when every value is falsy |
| Merge.MergeLookup | src/data.query.builder.ts:211-216 | the merged condition holds, for every key, the value the last fragment that writes the key gives it |
| Merge.LastFragmentWritePresent | src/data.query.builder.ts:211-216 | a key has a merged value exactly when some fragment writes it |
| Merge.LastFragmentWriteConcat | src/data.query.builder.ts:211-216 | the merge of `x + y` takes a key from `y` when `y` writes it, otherwise from `x` |
| Merge.MergeLaterWins | src/data.query.builder.ts:212-216 | a key written by fragment `i` and by no later fragment holds fragment `i`'s value |
| Merge.LastWriterWins | src/data.query.builder.ts:212-216 | the last fragment that writes a key decides its value in the merge |
| Merge.MergeKeys | src/data.query.builder.ts:212-216 | fragments with disjoint keys all survive: a key is present exactly when some fragment writes it |
| Merge.MergeUnique | src/data.query.builder.ts:226-234 | the merged document has at most one entry per key, so at most one per operator for updates |
| Merge.MergeDisjointSwap | src/data.query.builder.ts:212-216 | swapping two adjacent fragments with disjoint keys changes no merged value |
| Merge.ConditionOfSpec | src/data.query.builder.ts:210-224 | a `null` or `undefined` and-fragment makes `Object.keys` throw. Otherwise, no ors means the plain merge; with ors, it throws exactly when the merged `$or` is truthy and not an array. Keys other than `$or` keep their merged values, and `$or` is the earlier `$or` array followed by every or-fragment in call order |
| Merge.ConditionOrsOnly | src/data.query.builder.ts:217-222 | when no and-fragment writes `$or`, the result's `$or` is exactly the or-list |
| Merge.ConditionReadTwiceDiffers | src/data.query.builder.ts:214-221 | the as-written read pushes the ors into an and-fragment's own `$or` array, so a second read returns the ors twice |
| Merge.OperatorUnionLastWrite | src/query.builder.ts:226-228 | in the per-operator union of single-field fragments, `doc[op][field]` is the last value written for that operator and field |
| Merge.OperatorUnionUnique | src/query.builder.ts:226-228 | the union has at most one entry per operator |
| Merge.ProjectObject | src/data.query.builder.ts:82-98 | projecting an object writes each of its keys (the later write winning) and keeps the other keys' values |
| Merge.ProjectArray | src/data.query.builder.ts:85-92 | an array of any length first creates `{}` when there is no projection (even when empty), then projects its elements in order; an array of falsy elements leaves just that projection |
| Merge.OperatorUnionFieldWrite | src/data.query.builder.ts:184-234 | for any fragments, `doc[op][field]` of the per-operator union is the last write of `field` under `op`, unless a later fragment set `op` itself to a non-object |
| Query.FilterStep | src/query.builder.ts:170-182 | merging one option throws exactly when the existing value is an array and the new value cannot be spread |
| Query.FilterStepSpec | src/query.builder.ts:168-184 | a missing, falsy or non-object value is overwritten; an array gets the new elements after its own; an object is shallow-merged with the new keys winning; keys not mentioned keep their values |
| Query.ArrayFilterRegistration | src/query.builder.ts:161-163 | registering `{arrayFilters: [where]}` never throws and appends `where` after the filters already registered |
| Query.PaginateDefaults | src/query.builder.ts:249-262 | `skip` defaults to 0 and `limit` to 20 only when undefined; every caller option overrides |
| Query.QueryBuilder.constructor | src/query.builder.ts:15-24 | a new builder holds its model and nothing accumulated |
| Query.QueryBuilder.Where | src/query.builder.ts:26-33 | appends `c` (and-mode) or `{$or: c}` (or-mode) as the one new last fragment; earlier fragments are untouched |
| Query.QueryBuilder.And | src/query.builder.ts:35-38 | appends the fragment unchanged |
| Query.QueryBuilder.Or | src/query.builder.ts:40-42 | appends `{$or: c}` |
| Query.QueryBuilder.WithId | src/query.builder.ts:44-46 | appends `{_id: ObjectId(id)}` |
| Query.QueryBuilder.WhereEach | src/query.builder.ts:112-120 | appends, in order, what `where(f, mode)` appends for each fragment |
| Query.QueryBuilder.ArrayIncludes | src/query.builder.ts:48-51 | one `{key: {$in: value}}` per entry, in entry order |
| Query.QueryBuilder.ValueMatches | src/query.builder.ts:129-132 | one `{key: {$in: value}}` per entry, in entry order |
| Query.QueryBuilder.ValueNotMatches | src/query.builder.ts:124-127 | one `{key: {$nin: value}}` per entry, in entry order |
| Query.QueryBuilder.WhiteListIds | src/query.builder.ts:134-136 | exactly one `{_id: {$in: ids}}`, also for an empty or missing list |
| Query.QueryBuilder.TextLike | src/query.builder.ts:101-104 | one case-insensitive pattern per entry (no truthiness filter), routed through `where` with the mode |
| Query.QueryBuilder.GeoNear | src/query.builder.ts:106-122 | one `$geoWithin`/`$center` fragment per entry, routed through `where` with the mode |
| Query.QueryBuilder.Populate | src/query.builder.ts:53-68 | a missing list changes nothing; otherwise every entry is appended after expansion, the list being created when needed |
| Query.QueryBuilder.Project | src/query.builder.ts:70-84 | the projection becomes the result of the projection rule (falsy: no-op; array: elementwise; object: keywise) |
| Query.QueryBuilder.Skip | src/query.builder.ts:86-89 | overwrites `skip` |
| Query.QueryBuilder.Limit | src/query.builder.ts:91-94 | overwrites `limit` |
| Query.QueryBuilder.Sort | src/query.builder.ts:96-99 | overwrites `sort` |
| Query.QueryBuilder.PushUpdates | src/query.builder.ts:138-141 | appends the fragments in order and leaves the conditions alone |
| Query.QueryBuilder.Set | src/query.builder.ts:138-141 | one `{$set: {key: value}}` per entry, in entry order |
| Query.QueryBuilder.Unset | src/query.builder.ts:143-146 | one `{$unset: {key: value}}` per entry, in entry order |
| Query.QueryBuilder.SetCurrentDateOn | src/query.builder.ts:189-192 | one `{$currentDate: {key: value}}` per entry, in entry order |
| Query.QueryBuilder.AddToSet | src/query.builder.ts:194-197 | one `{$addToSet: {key: value}}` per entry, in entry order |
| Query.QueryBuilder.Pull | src/query.builder.ts:199-202 | one `{$pull: {key: value}}` per entry, in entry order |
| Query.QueryBuilder.Push | src/query.builder.ts:207-216 | one `{$push: {key: {$each: …}}}` per entry, with `$sort` when given |
| Query.QueryBuilder.ModifyArrayElement | src/query.builder.ts:148-151 | one `{$set: {"key.$": value}}` per entry |
| Query.QueryBuilder.ModifyArrayElements | src/query.builder.ts:157-166 | sets each rewritten path `key.$[k…]`/`key.$[]` and registers `{arrayFilters: [where]}` exactly for the truthy `where`s |
| Query.QueryBuilder.ModifyArrayElementsEntry | src/query.builder.ts:159-164 | one entry: a single `$set` of the rewritten path, and `{arrayFilters: [where]}` merged into the update filters only when `where` is truthy |
| Query.QueryBuilder.AddUpdateFilter | src/query.builder.ts:168-184 | the filters become the entry-by-entry merge of the options, stopping at (and reporting) a throw |
| Query.QueryBuilder.GetCondition | src/query.builder.ts:222-224 | returns the accumulated fragment list itself, unmerged |
| Query.QueryBuilder.GetModified | src/query.builder.ts:226-228 | the update document as a per-operator field union: `doc[op][field]` is the last value written for it, unless a later fragment set `op` to a non-object |
| Query.QueryBuilder.GetQuery | src/query.builder.ts:230-247 | the condition is what `getCondition` returns, the fragments unmerged and in call order; projection, populate, limit, skip and sort are read as stored |
| Query.QueryBuilder.Clone | src/query.builder.ts:309-315 | a new builder sharing the model with equal copies of the accumulated state |
| Query.OperatorFragmentsAreSingleField | src/query.builder.ts:138-216 | every update method appends only `{op: {field: value}}` fragments |
| Query.PushThenModified | src/query.builder.ts:207-228 | after `push({key: v})`, the per-operator field union's `$push[key]` is `{$each: [v]}`, whatever was pushed before |
| Query.PushEachAndSort | src/query.builder.ts:209-212 | with `each`, the value is stored as `$each` itself; `$sort` is added only when truthy |
| Query.CloneAppliesModifierToCopy | src/query.builder.ts:309-315 | the modifier's fragment lands in the copy; the original is not changed |
| Query.QueryScenario | src/query.builder.ts:230-247 | `where({status:'active'}).sort({createdAt:-1}).skip(10).limit(5).getQuery()` gives that condition, sort, skip and limit with no projection or populate |
| Query.ArrayElementsScenario | src/query.builder.ts:157-184 | `modifyArrayElements({tags: {value: 'x', where: {elem: …}}})` sets `tags.$[elem]` and registers `arrayFilters: [where]` |
| DataQuery.MergeInto | src/data.query.builder.ts:211-216 | the nested `forEach` loops compute the key-wise merge, or stop with the `Object.keys` error at the first `null` or `undefined` fragment |
| DataQuery.UnionInto | src/data.query.builder.ts:226-234 | the loops compute the per-operator field union, with the same error |

| DataQuery.DataQueryBuilder.Resolved | src/data.query.builder.ts:285-288 | a read of a field lands on this builder when it owns the field, otherwise on the first builder up the prototype chain that owns it, or on the chain's root |
| DataQuery.DataQueryBuilder.constructor | dist/src/query.builder.js:9-26 | a new builder has no prototype builder and holds `db`, `metatype` and three distinct empty lists; no other field is written |
| DataQuery.DataQueryBuilder.Derived | src/data.query.builder.ts:285-288 | `Object.assign(Object.create(original), original)`: the original becomes the prototype and its own properties are copied, list cells included |
| DataQuery.DataQueryBuilder.WithId | src/data.query.builder.ts:25-29 | records `String(id)` as an own property, which every read now sees, and appends `{_id: ObjectId(id)}` to the and-list only |
| DataQuery.DataQueryBuilder.GetId | src/data.query.builder.ts:255-257 | JavaScript's lookup of `this.id`: an own id is returned, a builder made by `new` without one gives `undefined`, and a clone without one gives its prototype's `getId()` |
| DataQuery.DataQueryBuilder.Where | src/data.query.builder.ts:31-34 | appends the fragment as given |
| DataQuery.DataQueryBuilder.AndWhere | src/data.query.builder.ts:134-143 | appends the fragment, or all elements of an array in order, to the and-list; the or-list is untouched |
| DataQuery.DataQueryBuilder.OrWhere | src/data.query.builder.ts:145-152 | appends the fragment, or all elements of an array in order, to the or-list; the and-list is untouched |
| DataQuery.DataQueryBuilder.RouteEach | src/data.query.builder.ts:41-47 | routes each fragment, in order, to exactly one of the two lists |
| DataQuery.DataQueryBuilder.WhereDate | src/data.query.builder.ts:36-49 | `{key: {"$"+mode: value}}` per entry, on the and-list or the or-list by `method` |
| DataQuery.DataQueryBuilder.WhereArrayIncludes | src/data.query.builder.ts:51-63 | `{key: {$in: value}}` per entry, on the list `method` chooses |
| DataQuery.DataQueryBuilder.WhereTextLike | src/data.query.builder.ts:115-132 | one pattern per truthy value, in order, all on the list `method` chooses |
| DataQuery.DataQueryBuilder.NearCoordinates | src/data.query.builder.ts:154-169 | one geo fragment per entry, always on the and-list |
| DataQuery.DataQueryBuilder.WhiteList | src/data.query.builder.ts:171-177 | exactly one `{_id: {$in: ids.map(i => ({_id: i}))}}`, also for an empty list |
| DataQuery.DataQueryBuilder.Populate | src/data.query.builder.ts:65-75 | a missing list changes nothing. Otherwise the entries are appended, as given, to the list the chain reaches (an original's list for a clone without its own), and an own list is created only when none is reachable |
| DataQuery.DataQueryBuilder.PopulationsCell | src/data.query.builder.ts:67-69 | the list `this._populations` reaches through the chain, unchanged; when none is reachable, a fresh empty list becomes an own property |
| Js.JsArray.PushEach | src/data.query.builder.ts:70-72 | the list grows by the given items, in order, and nothing else changes |
| DataQuery.DataQueryBuilder.PopulateFile | src/data.query.builder.ts:77-80 | appends `{path, model: 'fs.files', select}` to the population list the chain reaches |
| DataQuery.DataQueryBuilder.Project | src/data.query.builder.ts:82-98 | the projection the chain reaches becomes the result of the projection rule, in the same cell once one exists; an own `{}` is created only when none is reachable |
| DataQuery.DataQueryBuilder.ProjectionCell | src/data.query.builder.ts:86-88 | the object `this._projection` reaches through the chain, unchanged; when none is reachable, a fresh `{}` becomes an own property |
| Js.JsObject.AssignEach | src/data.query.builder.ts:93-95 | the object becomes the old one with the entries assigned in order |
| DataQuery.DataQueryBuilder.Skip | src/data.query.builder.ts:100-103 | writes an own `skip`, which every read now sees |
| DataQuery.DataQueryBuilder.Limit | src/data.query.builder.ts:105-108 | writes an own `limit`, which every read now sees |
| DataQuery.DataQueryBuilder.Sort | src/data.query.builder.ts:110-113 | writes an own `sort`, which every read now sees |
| DataQuery.DataQueryBuilder.Set | src/data.query.builder.ts:179-182 | appends the whole update document as one fragment |
| DataQuery.DataQueryBuilder.PushOperator | src/data.query.builder.ts:187-191 | one `{op: {key: value}}` per entry, in order; conditions untouched |
| DataQuery.DataQueryBuilder.AddToSet | src/data.query.builder.ts:184-192 | one `{$addToSet: {key: value}}` per entry |
| DataQuery.DataQueryBuilder.Pull | src/data.query.builder.ts:194-200 | one `{$pull: {key: value}}` per entry |
| DataQuery.DataQueryBuilder.Push | src/data.query.builder.ts:202-208 | one `{$push: {key: value}}` per entry, without `$each` |
| DataQuery.DataQueryBuilder.GetCondition | src/data.query.builder.ts:210-224 | corrected read: the merged condition with the ors appended under `$or`, or the `Object.keys` error; no fragment changes |
| DataQuery.DataQueryBuilder.GetConditionAsWritten | src/data.query.builder.ts:210-224 | as-written read: the same result, while the and-fragment that supplied `$or` grows by the ors |
| DataQuery.DataQueryBuilder.GetUpdates | src/data.query.builder.ts:226-234 | as written: the merge by operator key, a later operator object replacing an earlier one; the `Object.keys` error for a `null` or `undefined` fragment |
| DataQuery.DataQueryBuilder.GetUpdatesFieldwise | src/data.query.builder.ts:226-234 | corrected: the per-operator field union, with the same error |
| DataQuery.DataQueryBuilder.GetQuery | src/data.query.builder.ts:236-253 | corrected: the snapshot of the condition, every other field read through the chain; the condition's error exactly when the condition fails; no fragment changes |
| DataQuery.DataQueryBuilder.GetQueryAsWritten | src/data.query.builder.ts:236-253 | as written: the same result and error, computed from the and-list as it was, while the and-fragment that supplied `$or` grows by the ors |
| DataQuery.DataQueryBuilder.Clone | src/data.query.builder.ts:285-288 | a new builder whose prototype is this one, with this builder's own properties copied: the same list cells, and the same value for every chain-aware read |
| DataQuery.AddToSetTwoFieldsLosesFirst | src/data.query.builder.ts:184-234 | `addToSet({a: 1, b: 2})`: the as-written merge keeps only `b`, the field union keeps `a` and `b` |
| DataQuery.CloneSharesLists | src/data.query.builder.ts:285-288 | a fragment added through the clone shows up in the original's and-list |
| DataQuery.CloneReadsOriginalSkip | src/data.query.builder.ts:285-288 | a clone of a builder with no `skip` reads none, and reads 5 after `skip(5)` on the original |
| DataQuery.CloneOwnSkip | src/data.query.builder.ts:285-288 | once a clone calls `skip(7)` it reads 7, and the original keeps its own value |
| DataQuery.ProjectedOneThenAnother | src/data.query.builder.ts:82-98 | projecting `{a: 1}` onto nothing gives `{a: 1}`; projecting `{z: 1}` onto that gives `{a: 1, z: 1}` |
| DataQuery.CloneProjectsIntoOriginal | src/data.query.builder.ts:82-98 | `c = b.clone(); b.project({a: 1}); c.project({z: 1})` leaves `{a: 1, z: 1}` as `b`'s projection |
| DataQuery.RereadConditionGrows | src/data.query.builder.ts:210-224 | a builder whose and-fragment carries `$or: [{a:1}]` with or `{b:2}` reads `[{a:1},{b:2}]`, then `[{a:1},{b:2},{b:2}]` |
| DataQuery.RereadConditionStable | src/data.query.builder.ts:210-224 | the same builder under the corrected read: both reads give `$or` `[{a:1},{b:2}]` |
| Executor.QueryOptions | dist/src/query.builder.js:55-68 | a falsy projection becomes `{}`, a falsy skip 0, a falsy limit 20 (so never 0); `lean`, `pagination` on, `leanWithId` off |
| Executor.Envelope | dist/src/query.builder.js:72-77 | `currentPageIndex = skip / limit` and `maxPageIndex = floor((total + limit - 1) / limit) - 1`, with the defaulted options |
| Executor.FloorOfQuotient | dist/src/query.builder.js:75 | the floor of the real quotient is the integer quotient for a positive divisor |
| Executor.MaxPageIndexIsLastPage | dist/src/query.builder.js:75 | for a positive limit, `maxPageIndex` is `ceil(total / limit) - 1`: `m·limit < total ≤ (m+1)·limit` |
| Executor.EnvelopeExamples | dist/src/query.builder.js:72-77 | 47 documents in pages of 20 end at page 2, none at page -1, and skip 40 is page 2 |
| Executor.FindProjection | dist/src/query.builder.js:31 | a projection that was set is kept; otherwise `{__v: 0}` |
| Executor.PatchFilter | dist/src/query.builder.js:92-96 | error "id must be provided when using patch" exactly when no id (or an empty one) was recorded; otherwise filter by `ObjectId(id)` |
| Executor.Patch | dist/src/query.builder.js:90-99 | corrected: throws before any update when the id read through the chain is missing or empty; throws the `Object.keys` error for a `null` or `undefined` update fragment; otherwise updates by that id with the field-wise merged updates |
| Executor.PatchAsWritten | dist/src/query.builder.js:90-99 | as written: the same guard and errors, with `getUpdates()` (the merge by operator key) as the update document |
| Executor.PatchDropsEarlierField | dist/src/query.builder.js:90-99 | `withId('7')`, `addToSet({a: 1, b: 2})`: the as-written `patch` sends only `b` under `$addToSet`, the corrected one both |
| Executor.WithIdThenPatch | dist/src/query.builder.js:90-99 | after `withId(x)` with a non-empty `String(x)`, `patch` filters by `ObjectId(String(x))`, or fails only with the `Object.keys` error |
| Executor.ConvertIdFields | dist/src/query.builder.js:11-23 | the walk over properties computes the converted value |
| Executor.ConvertedFieldAt | dist/src/query.builder.js:15-21 | property by property: `_id` becomes `String(value)`, an object-typed value is converted, anything else is kept |
| Executor.ConvertedItemAt | dist/src/query.builder.js:15-21 | array elements (index keys) that are object-typed are converted, others kept |
| Executor.ConvertedIdsKeepsKeys | dist/src/query.builder.js:11-23 | keys and their order are kept; non-object input is returned unchanged |
| Executor.ConvertedIdsAreStrings | dist/src/query.builder.js:11-23 | afterwards every `_id` at any depth is a string |
| Executor.ConvertedIdsIdempotent | dist/src/query.builder.js:11-23 | converting twice is converting once |
| WhiteListFilter.WhiteListAddition | index.ts:10-14 | nothing for an undefined or empty list, otherwise exactly one `{_id: {$in: …}}` |
| WhiteListFilter.WhiteListWrapsEachId | index.ts:12 | each id is wrapped as `{_id: i}`, in order and one for one |
| WhiteListFilter.AddWhiteListFilter | index.ts:10-14 | appends the addition to the and-list; the or-list and the updates are untouched |

## Left out

- All driver calls are left out: `paginate`, `find`, `findOne`, `updateOne`/`updateMany`, `deleteOne`/`deleteMany`, `create`, and the stray `model.find({})` in `and`. So are the asynchronous plumbing and result casting with `plainToInstance`. Only the arguments these calls receive are modelled. The paginate result enters `Executor.Envelope` as parameters.
- `getModel` (`src/query.builder.ts`) is a plain read of the model field and carries no contract of its own.
- `ObjectId(id)` is an opaque constructor over `String(id)`. Its throwing on malformed input and `isValidObjectId` are not modelled.
- `new RegExp(v, 'i')` is the opaque value `Regex(pattern)`. Regular-expression semantics are not modelled, and neither is the escaping in its `String` form.
- The geo radius `km / 6371` is floating point. It is passed in as a value, and only the `$geoWithin`/`$center` shape is modelled.
- Numbers are integers. Fractional numbers are not modelled; the page index is computed over reals.
- `Object.keys` of a string or an array, and spreading them into an object, produce index keys; the model treats them as having no keys. This matters for a string `where` in `modifyArrayElements`, for a string projection and for spreading a string or array value in `addUpdateFilter`.
- Integer-like keys, which JavaScript orders first, are kept in insertion order like any other key.
- Aliasing of objects the caller passes in is not modelled. Examples: a later `addUpdateFilter` pushing into the caller's own array, and `populate` storing the caller's entries. The data builder's own list cells are modelled. `getQuery` returns the live projection and population objects; the snapshot holds their contents at the time of the call, so a later write through the builder does not show up in an earlier snapshot as it would in JavaScript.
- Only the data builder's fields are read through the prototype chain. A clone of a clone is covered, but a builder's methods, `db` and `metatype` are own copies, as `Object.assign` makes them.
- Query.QueryBuilder.Clone: the JSON round trip is taken as an exact copy. Losses such as `undefined` dropping out and `RegExp` or `ObjectId` values becoming plain data are not modelled.
- Query.QueryBuilder.GetModified: lodash `_.merge` is modelled only as the per-operator field union of the fragments. Its deep merge of nested values is not modelled: an array under the same operator and field is merged index by index, and an earlier object value keeps keys the later one lacks. Its mutation of the first fragment is not modelled either.
- Query.PushThenModified: the property holds for the field union, not for lodash `_.merge` itself. Under `_.merge`, an earlier `push` to the same key with a longer `$each` array would keep its tail elements, and its `$sort` would survive.
- Query.QueryBuilder.Push: `options.each` is taken as a boolean, not as an arbitrary truthy value.
- Executor.ConvertIdFields: the in-place mutation is modelled on values. A sub-object shared along two paths is converted once per path, which `Executor.ConvertedIdsIdempotent` shows gives the same result. `ObjectId` and `RegExp` values are taken to have no enumerable keys.
- Executor.ConvertIdFields: values are finite trees, so a cyclic object, on which the source recurses until the stack overflows, cannot be expressed.
- The clone modifier is not a callback parameter. `Query.CloneAppliesModifierToCopy` and `DataQuery.CloneSharesLists` apply a fixed modifier: one condition, added to the copy or to the original as each source does.
- DataQuery.DataQueryBuilder.GetConditionAsWritten: the growth of the and-fragment's `$or` array is stated as a rewrite of that fragment in the and-list. It is not a heap cell shared with the returned condition.
- Executor.Patch: the update document is the corrected field-wise merge (see Findings). `Executor.PatchAsWritten` models the as-written `getUpdates` update.
- The `.d.ts` files declare types only.

## Findings

| source | as written | input that shows it | evidently intended | confidence | as-written member | corrected member |
|---|---|---|---|---|---|---|
| src/data.query.builder.ts:214-221 | `condition[key] = cond[key]` keeps a reference to an and-fragment's `$or` array, and `condition.$or.push(val)` then pushes the ors into that fragment | `andWhere({$or: [{a: 1}]})`, `orWhere({b: 2})`, `getCondition()` twice: the second read has `$or` `[{a:1},{b:2},{b:2}]` | reading the condition changes no fragment, so repeated reads agree | not executed | DataQuery.DataQueryBuilder.GetConditionAsWritten, DataQuery.DataQueryBuilder.GetQueryAsWritten, Merge.ConditionReadTwiceDiffers, DataQuery.RereadConditionGrows | DataQuery.DataQueryBuilder.GetCondition, DataQuery.DataQueryBuilder.GetQuery, Merge.ConditionOfSpec, DataQuery.RereadConditionStable |
| src/data.query.builder.ts:184-192, 226-234 | `addToSet` pushes one `{$addToSet: {k: v}}` per key, but `getUpdates` assigns each fragment's whole operator object, so the last one replaces the others | `addToSet({a: 1, b: 2}).getUpdates()` gives `{$addToSet: {b: 2}}` | `{$addToSet: {a: 1, b: 2}}`: the fields under one operator are united | not executed | DataQuery.DataQueryBuilder.GetUpdates, Executor.PatchAsWritten, DataQuery.AddToSetTwoFieldsLosesFirst, Executor.PatchDropsEarlierField | DataQuery.DataQueryBuilder.GetUpdatesFieldwise, Executor.Patch, Merge.OperatorUnionFieldWrite |
