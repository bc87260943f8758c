# ReaKtive propagation core in Dafny

This project models the part of the ReaKtive library that keeps derived values consistent with their sources. It also proves that they stay consistent.

- **Observers and bindings.** An `Observer` is a registration that can be killed. A `Binding` is a value cell, plus the dependency observers it owns, plus a disposed flag. Disposing a binding kills what it owns.
  - `binding(dependencies, compute)` recomputes its value while its dependency observer is live.
  - `asBinding` and `constantBinding` return wrappers whose `dispose` does nothing.
- **Event streams** (`AbstractEventStream`). The model has a registry of subscriptions and `doEmit`, which reaches every live subscription and no killed one. It also has the `lastFired` binding, which starts at `null` (`None`) and is updated by an updater subscription that `lastFired` owns.
- **Existence aggregates** (`existence.kt`).
  - `all(predicate)` is modelled with its `nonFulfilling` set, its element-to-observer map and one predicate cell per element. Once its binding is disposed, every observer of `all` is killed, and its value no longer changes.
  - `count(pred)` is modelled twice:
    - exactly as written, with the `removed` callback that raises the count;
    - as its documentation describes it.
  - `any`, `contains` and both `containsAll` overloads are compositions of these two.
- **Set views** whose behaviour the set-binding and numeric-binding specifications fix:
  - map, filter, flatten, union, difference, intersection, values, flattenToSet, and the integer `sum`.
  - Each view is a class holding its sources and a cached result.
  - Every change of a source is one method call. It updates the cache incrementally, returns the changes the view emits, and keeps `cached == expected(sources)`.
  - Where contributions can coincide (map, flatten, values), the view counts occurrences in a multiset. An element is emitted as `Added` only when its first occurrence arrives, and as `Removed` only when its last one goes.
- **Scenarios.** Each concrete step-by-step scenario of the two specifications is replayed by a method. These methods return the view after every step; their `ensures` give the literal expected values.

Files:
- `observers.dfy`, `bindings.dfy`, `events.dfy`: observers, bindings, event streams.
- `setchange.dfy`: the `Added`/`Removed` change datatype and its replay.
- `bags.dfy`, `counting.dfy`: multiset and sum bookkeeping.
- `existence.dfy`: the existence aggregates.
- `element_views.dfy`, `binary_views.dfy`, `nested_views.dfy`, `numeric.dfy`: the set views.
- `set_scenarios.dfy`, `flatten_scenario.dfy`, `values_scenario.dfy`, `binding_scenarios.dfy`: the scenario replays.

Two conventions hold throughout:
- A set change is a real mutation (`Fits`): nothing is added twice or removed when absent. A sequence of changes is then `FitsAll`.
- `Leads(before, out, after)` says that the emitted changes `out`, applied in order, take a view holding `before` to one holding `after`, and that each change is a real mutation when it is emitted.

## Model

| member | source | states |
|---|---|---|
| Existence.ContainsAllMeansSubset | src/main/kotlin/reaktive/collection/binding/existence.kt:19-20 | for the documented `contains`, taken as a snapshot of the collection: `containsAll(elements)`, i.e. `elements.all { contains(it) }`, holds exactly when every element of `elements` is in the collection (the as-written `contains` breaks this after a removal, see Findings) |
| Existence.ContainsAllOfListMeansEvery | src/main/kotlin/reaktive/collection/binding/existence.kt:25-26 | for the documented `contains`, as a snapshot: the plain-collection overload wraps the list and holds exactly when every list entry is in the collection |
| Existence.ObserveElement | src/main/kotlin/reaktive/collection/binding/existence.kt:35-46 | `observeElement` puts the element into `nonFulfilling` exactly when its cell is false, creates a live observer, and hands it to `addObserver` (it is appended to the owned observers) |
| Existence.ObserveAll | src/main/kotlin/reaktive/collection/binding/existence.kt:48 | after the pass over the initial elements, each one has its own fresh, live, owned observer that knows its element, and `nonFulfilling` holds exactly the elements whose cell is false |
| Existence.SetUpAll | src/main/kotlin/reaktive/collection/binding/existence.kt:33-49 | the body of `all` ends with the value equal to `nonFulfilling.isEmpty()`; the element observers and the collection observer are owned by the binding |
| Existence.TrackedMeansAll | src/main/kotlin/reaktive/collection/binding/existence.kt:42 | when the bookkeeping is in order, `nonFulfilling.isEmpty()` holds exactly when every current element's cell is true |
| Existence.AllBinding.ValueMeansAll | src/main/kotlin/reaktive/collection/binding/existence.kt:28-32 | until the binding is disposed, the value of `all` is true exactly when every current element's predicate cell is true |
| Existence.AllBinding.constructor | src/main/kotlin/reaktive/collection/binding/existence.kt:32-62 | after construction, the value is true iff every initial element satisfies the predicate; the elements with a false cell are exactly `nonFulfilling`; all observers are fresh, live and owned |
| Existence.AllBinding.OnPredicateChanged | src/main/kotlin/reaktive/collection/binding/existence.kt:40-43 | a live observer moves its element out of or into `nonFulfilling` per the new cell value, and the value is reset; a killed observer changes nothing; after dispose every element observer is killed, so the value stays |
| Existence.AdmitElement | src/main/kotlin/reaktive/collection/binding/existence.kt:50-54 | the bookkeeping of `added`: a fresh owned observer, `nonFulfilling` updated by the new cell, and the invariant of `all` restored with the new map entries |
| Existence.AllBinding.Admit | src/main/kotlin/reaktive/collection/binding/existence.kt:50-54 | the live case of `added`: the new element gets a fresh observer, both maps gain exactly that entry and the binding owns exactly one more observer, `nonFulfilling` follows its cell, and the invariant of `all` is kept |
| Existence.AllBinding.OnAdded | src/main/kotlin/reaktive/collection/binding/existence.kt:50-54 | while the collection observer is live, the added element is observed, recorded in both maps with a fresh observer that the binding now also owns (no other entry changes), and the value is recomputed: true iff every current cell is true; after dispose (collection observer killed, line 61) the value, `nonFulfilling`, the cells, both maps and the owned observers stay as they were |
| Existence.AllBinding.OnRemoved | src/main/kotlin/reaktive/collection/binding/existence.kt:55-60 | while the collection observer is live, the element's observer is killed (so later flips of its cell are ignored), the element leaves `nonFulfilling`, the map keeps its stale entry, and the value is recomputed; after dispose the value and `nonFulfilling` stay |
| Existence.AllBinding.Dispose | src/main/kotlin/reaktive/collection/binding/existence.kt:44-61 | `all` hands every element observer and the collection observer to `addObserver`, so `dispose` kills them all; the value is kept and the disposed state is preserved by every later callback |
| Existence.CountBinding.constructor | src/main/kotlin/reaktive/collection/binding/existence.kt:67-69 | `count` starts at the number of current elements satisfying `pred`, and `matchingElements` is exactly those elements |
| Existence.CountBinding.OnAdded | src/main/kotlin/reaktive/collection/binding/existence.kt:71-76 | a matching element is inserted into `matchingElements` and raises the value by exactly 1; a non-matching one changes nothing; starting from an exact state, the result is exact |
| Existence.CountBinding.OnRemoved | src/main/kotlin/reaktive/collection/binding/existence.kt:77-79 | as written: an element in `matchingElements` raises the value by 1, and `matchingElements` is left untouched |
| Existence.CountBinding.Dispose | src/main/kotlin/reaktive/collection/binding/existence.kt:69-80 | as written: the collection observer was never handed to `addObserver`, so disposing leaves it live |
| Existence.CountCorrected.constructor | src/main/kotlin/reaktive/collection/binding/existence.kt:64-69 | the corrected `count` starts at the number of initial elements satisfying `pred`, with `matchingElements` exactly those elements and the live collection observer as the one observer the binding owns |
| Existence.CountCorrected.OnAdded | src/main/kotlin/reaktive/collection/binding/existence.kt:64-76 | while the collection observer is live, the value after an addition is the number of current elements satisfying `pred`; once it is killed, nothing changes |
| Existence.CountCorrected.OnRemoved | src/main/kotlin/reaktive/collection/binding/existence.kt:64-66 | the intended removal: the value after a removal is again the number of current elements satisfying `pred` (or unchanged once disposed) |
| Existence.CountCorrected.Handle | src/main/kotlin/reaktive/collection/binding/existence.kt:64-82 | for every real change of the collection, the corrected `count` equals the number of matching current elements while live, and is frozen after dispose |
| Existence.CountCorrected.Dispose | src/main/kotlin/reaktive/collection/binding/existence.kt:69-80 | the corrected `count` owns its collection observer; disposing kills it and keeps the value |
| Existence.CountCorrected.ValidMeansExpected | src/main/kotlin/reaktive/collection/binding/existence.kt:64-66 | while live, the value is `|{e in now \| pred e}|` |
| Existence.AnyMeansSome | src/main/kotlin/reaktive/collection/binding/existence.kt:88-89 | for the documented `count`, as a snapshot of the collection: `any(pred)`, defined as `count(pred) > 0`, holds exactly when some element satisfies `pred` (the as-written `count` breaks this after a removal, see Findings) |
| Existence.CountCorrected.AnyMeansSomeMatches | src/main/kotlin/reaktive/collection/binding/existence.kt:84-89 | on the live corrected `count`, `value > 0` holds exactly when some current element satisfies `pred` |
| Existence.ContainsMeansMember | src/main/kotlin/reaktive/collection/binding/existence.kt:94 | for the documented `count`, as a snapshot: `contains(x)`, defined as `any { it == x }`, holds exactly when `x` is in the collection |
| Bindings.Binding.constructor | src/main/kotlin/reaktive/value/binding/create.kt:15-16 | a new binding holds `initialValue`, owns no observers and is not disposed |
| Bindings.Binding.Set | src/main/kotlin/reaktive/value/binding/create.kt:25 | `set` in a binding body replaces the value with the given one |
| Bindings.Binding.AddObserver | src/main/kotlin/reaktive/value/binding/create.kt:27 | `addObserver` appends the observer to those the binding owns, which are exactly the ones `dispose` kills (also existence.kt lines 44 and 61) |
| Bindings.Binding.Dispose | src/main/kotlin/reaktive/value/binding/create.kt:23-27 | disposing kills every observer the binding body handed to `addObserver` (as `binding(dependencies, compute)` does at line 27, `all` at existence.kt lines 44 and 61, and `lastFired` at line 33 of the event stream); the value is kept |
| Bindings.DependentBinding.constructor | src/main/kotlin/reaktive/value/binding/create.kt:22-28 | the initial value is one evaluation of `compute` on the current dependencies; the one dependency observer is live and is the only observer the binding owns |
| Bindings.DependentBinding.Invalidate | src/main/kotlin/reaktive/value/binding/create.kt:24-26 | on invalidation, a live observer sets the value to a fresh `compute`; a killed one (after dispose) leaves it unchanged; the binding still owns only the dependency observer |
| Bindings.DependentBinding.Dispose | src/main/kotlin/reaktive/value/binding/create.kt:22-28 | disposing kills the dependency observer, so later invalidations are ignored |
| Bindings.AsBinding | src/main/kotlin/reaktive/value/binding/create.kt:34-39 | `asBinding` returns a binding as the same object; any other value becomes a wrapper around that very receiver |
| Bindings.ObserveRef | src/main/kotlin/reaktive/value/binding/create.kt:34-39 | `observe` on a wrapper registers with the receiver and changes no value |
| Bindings.DisposeRef | src/main/kotlin/reaktive/value/binding/create.kt:30-39 | `dispose` on a wrapper changes nothing; on a real binding it disposes it and keeps its value |
| Bindings.ConstantBinding | src/main/kotlin/reaktive/value/binding/create.kt:45-47 | `constantBinding(v)` is a wrapper around a fresh variable holding `v` |
| BindingScenarios.ConstantScenario | src/main/kotlin/reaktive/value/binding/create.kt:41-47 | `constantBinding(5)` reads 5 before and after `dispose` |
| BindingScenarios.DependentScenario | src/main/kotlin/reaktive/value/binding/create.kt:22-28 | `binding(deps) { 2 * x }` reads 6, then 10 after `x` becomes 5, and stays 10 after dispose and a further change |
| Events.EventStream.constructor | src/main/kotlin/org/nikok/reaktive/event/AbstractEventStream.kt:19 | `lastFired` is built at construction: it starts as `None`, and its updater is the first subscription and is owned by `lastFired` |
| Events.EventStream.Subscribe | src/main/kotlin/org/nikok/reaktive/event/AbstractEventStream.kt:13-17 | `subscribe` goes through the handler manager (created on first use), appending a fresh live subscription; the invariant linking `lastFired` to its updater is kept |
| Events.EventStream.DoEmit | src/main/kotlin/org/nikok/reaktive/event/AbstractEventStream.kt:24-26 | `doEmit(v)` appends `v` to the log of every live subscription and of no killed one; afterwards `lastFired` is `Some(v)` while its updater is live |
| BindingScenarios.LastFiredScenario | src/main/kotlin/org/nikok/reaktive/event/AbstractEventStream.kt:28-35 | `lastFired` goes `None`, `Some(42)`, `Some(7)`; a subscriber killed between the two emissions receives only 42 |
| SetChanges.AddChange | src/test/kotlin/reaktive/set/SetBindingsSpec.kt:18-23 | `add(x)` emits a change exactly when `x` is new, and that change is a real mutation taking `s` to `s + {x}` |
| SetChanges.RemoveChange | src/test/kotlin/reaktive/set/SetBindingsSpec.kt:18-23 | `remove(x)` emits a change exactly when `x` was present, and that change takes `s` to `s - {x}` |
| SetChanges.FitsAllStep | src/test/kotlin/reaktive/set/SetBindingsSpec.kt:24-26 | a sequence of mutations replayed from the front: each change is a real mutation of the set the earlier ones lead to |
| SetChanges.EmitAll | src/test/kotlin/reaktive/set/SetBindingsSpec.kt:16 | emitted change sequences compose: `cs` followed by `ds` replays to the replay of `ds` after `cs` |
| SetChanges.SilentIffUnchanged | src/test/kotlin/reaktive/set/SetBindingsSpec.kt:105-107 | a view that emits at most one change emits none exactly when it did not change |
| Counting.Insert | src/test/kotlin/reaktive/set/SetBindingsSpec.kt:60-66 | one more occurrence of a value: `Added` is emitted exactly when it was not counted before; the cache stays the support of the counts |
| Counting.Withdraw | src/test/kotlin/reaktive/set/SetBindingsSpec.kt:60-66 | one occurrence fewer: `Removed` is emitted exactly when it was the last one |
| Counting.InsertAll | src/test/kotlin/reaktive/set/SetBindingsSpec.kt:69-71 | a whole set of contributions is counted once more; the emitted changes lead from the old cache to the new one |
| Counting.WithdrawAll | src/test/kotlin/reaktive/set/SetBindingsSpec.kt:78-83 | a whole set of contributions is counted once less; the emitted changes lead from the old cache to the new one |
| ElementViews.Join | src/test/kotlin/reaktive/set/SetBindingsSpec.kt:18-20 | an added source element's image is counted once more, keeping the counts equal to one image per source element |
| ElementViews.Leave | src/test/kotlin/reaktive/set/SetBindingsSpec.kt:21-23 | a removed source element's image is counted once less |
| ElementViews.MapBinding.constructor | src/test/kotlin/reaktive/set/SetBindingsSpec.kt:13-15 | initially the map view is `{f(x) \| x in source}` |
| ElementViews.MapBinding.Handle | src/test/kotlin/reaktive/set/SetBindingsSpec.kt:18-23 | after any add or remove on the source, the view equals `{f(x) \| x in source}`, and it emits at most one change, which takes the old view to the new one |
| ElementViews.MapBinding.ValidMeansExpected | src/test/kotlin/reaktive/set/SetBindingsSpec.kt:15 | the invariant implies `cached == expected()` |
| ElementViews.MapBinding.HandleAll | src/test/kotlin/reaktive/set/SetBindingsSpec.kt:24-26 | after any sequence of source mutations the view still equals the mapped source, and the emitted changes replay the view |
| ElementViews.MapBinding.Clear | src/test/kotlin/reaktive/set/SetBindingsSpec.kt:27-29 | `clear()` empties the source and the view, and the emitted changes lead from the old view to the empty one |
| SetScenarios.MapScenario | src/test/kotlin/reaktive/set/SetBindingsSpec.kt:12-31 | squares of `{1, 2, 3}`, then after add 4, remove 2 and clear: `{1,4,9}`, `{1,4,9,16}`, `{1,9,16}`, `{}` |
| ElementViews.FilterBinding.constructor | src/test/kotlin/reaktive/set/SetBindingsSpec.kt:34-36 | initially the view is the kept elements of the source |
| ElementViews.FilterBinding.Handle | src/test/kotlin/reaktive/set/SetBindingsSpec.kt:39-50 | the view stays the kept elements of the source; a change of a dropped (odd) element changes nothing and emits nothing |
| ElementViews.FilterBinding.HandleAll | src/test/kotlin/reaktive/set/SetBindingsSpec.kt:51-53 | after any sequence of source mutations the view is still the filtered source, and the emitted changes replay it |
| ElementViews.FilterBinding.Clear | src/test/kotlin/reaktive/set/SetBindingsSpec.kt:54-56 | `clear()` empties the view |
| SetScenarios.FilterScenario | src/test/kotlin/reaktive/set/SetBindingsSpec.kt:33-58 | even elements of `{1, 2, 3}`: `{2}`, `{2,4}`, `{4}`, `{4}`, `{4}`, `{}`; the odd steps emit nothing; each step's change is the one `AddChange`/`RemoveChange` yields for the source set |
| NestedViews.AdmitPart | src/test/kotlin/reaktive/set/SetBindingsSpec.kt:69-71 | a part joining the outer set has each of its elements counted once more |
| NestedViews.DropPart | src/test/kotlin/reaktive/set/SetBindingsSpec.kt:78-83 | a part leaving has each of its elements counted once less; elements held by other parts stay |
| NestedViews.AdmitElement | src/test/kotlin/reaktive/set/SetBindingsSpec.kt:72-74 | an element added to an observed part is counted once more |
| NestedViews.DropElement | src/test/kotlin/reaktive/set/SetBindingsSpec.kt:75-77 | an element removed from an observed part is counted once less |
| NestedViews.FlattenBinding.constructor | src/test/kotlin/reaktive/set/SetBindingsSpec.kt:61-66 | initially the view is the union of the contents of the current parts |
| NestedViews.FlattenBinding.HandleOuter | src/test/kotlin/reaktive/set/SetBindingsSpec.kt:69-83 | after a part is added to or removed from the outer set, the view is the union of the current parts' contents |
| NestedViews.FlattenBinding.HandlePart | src/test/kotlin/reaktive/set/SetBindingsSpec.kt:72-89 | after a change inside a part, the view is the union again; a part outside the outer set is not observed, so the view neither changes nor emits |
| NestedViews.FlattenBinding.ValidMeansExpected | src/test/kotlin/reaktive/set/SetBindingsSpec.kt:66 | the invariant implies `cached == expected()` |
| FlattenScenario.FlattenScenario | src/test/kotlin/reaktive/set/SetBindingsSpec.kt:60-89 | the eight views of the flatten scenario, from `{0..5}` to `{0,2,3,5}`; the addition to a departed part emits nothing |
| BinaryViews.UnionBinding.constructor | src/test/kotlin/reaktive/set/SetBindingsSpec.kt:96-100 | `set1 + set2` starts as the union of the two operands |
| BinaryViews.UnionBinding.Handle | src/test/kotlin/reaktive/set/SetBindingsSpec.kt:96-114 | the view stays `set1 + set2` under changes of either side; at most one change is emitted, and none when the other side already provides or still holds the element |
| SetScenarios.UnionScenario | src/test/kotlin/reaktive/set/SetBindingsSpec.kt:96-114 | views and emitted changes of the union scenario; removing the common 3 from one side emits nothing, removing it from both emits `Removed(3)`; each step's change is the one `AddChange`/`RemoveChange` yields for the mutated operand |
| BinaryViews.DifferenceBinding.constructor | src/test/kotlin/reaktive/set/SetBindingsSpec.kt:116-120 | `set1 - set2` starts as the elements of the first operand that are not in the second |
| BinaryViews.DifferenceBinding.Handle | src/test/kotlin/reaktive/set/SetBindingsSpec.kt:116-157 | the view stays `set1 - set2` for adds and removes on either side |
| SetScenarios.DifferenceScenario | src/test/kotlin/reaktive/set/SetBindingsSpec.kt:116-150 | views and emitted changes for all eight deterministic steps of the difference scenario |
| BinaryViews.IntersectionBinding.constructor | src/test/kotlin/reaktive/set/SetBindingsSpec.kt:159-163 | `set1 * set2` starts as the elements both operands hold |
| BinaryViews.IntersectionBinding.Handle | src/test/kotlin/reaktive/set/SetBindingsSpec.kt:159-183 | the view stays `set1 ∩ set2` for adds and removes on either side |
| SetScenarios.IntersectionScenario | src/test/kotlin/reaktive/set/SetBindingsSpec.kt:159-176 | views and emitted changes of the intersection scenario |
| NestedViews.Join | src/test/kotlin/reaktive/set/SetBindingsSpec.kt:202-204 | a variable joining the source set has its current value counted once more |
| NestedViews.Leave | src/test/kotlin/reaktive/set/SetBindingsSpec.kt:196-198 | a variable leaving has its value counted once less |
| NestedViews.Replace | src/test/kotlin/reaktive/set/SetBindingsSpec.kt:193-195 | a member variable taking a new value: its old value counted once less, the new one once more, with at most two changes emitted |
| NestedViews.ValuesBinding.constructor | src/test/kotlin/reaktive/set/SetBindingsSpec.kt:186-191 | initially the view is the set of the member variables' current values |
| NestedViews.ValuesBinding.HandleMembers | src/test/kotlin/reaktive/set/SetBindingsSpec.kt:196-216 | after a variable joins or leaves, the view is the set of the members' current values; a re-added variable contributes its current value |
| NestedViews.ValuesBinding.SetVariable | src/test/kotlin/reaktive/set/SetBindingsSpec.kt:193-220 | after `set`, the view is the set of the members' current values; setting a non-member changes nothing and emits nothing |
| NestedViews.ValuesBinding.ValidMeansExpected | src/test/kotlin/reaktive/set/SetBindingsSpec.kt:191 | the invariant implies `cached == expected()` |
| ValuesScenario.ValuesScenario | src/test/kotlin/reaktive/set/SetBindingsSpec.kt:185-220 | the ten views of the values scenario; modifying a removed or departed variable emits nothing |
| NestedViews.FlattenToSetBinding.constructor | src/test/kotlin/reaktive/set/SetBindingsSpec.kt:230-234 | `v.flattenToSet()` starts as the contents of the set the variable holds |
| NestedViews.FlattenToSetBinding.HandleElement | src/test/kotlin/reaktive/set/SetBindingsSpec.kt:235-240 | a change of the set the variable holds reaches the view; a change of any other set neither changes it nor emits |
| NestedViews.FlattenToSetBinding.NewSet | src/test/kotlin/reaktive/set/SetBindingsSpec.kt:241-242 | creating the set `reactiveSet(4, 5, 6)` makes it known without touching the variable, the view or its contents |
| NestedViews.FlattenToSetBinding.Reassign | src/test/kotlin/reaktive/set/SetBindingsSpec.kt:241-243 | reassigning the variable switches the view to the new set's contents, and the emitted changes lead from the old view to the new one |
| SetScenarios.FlattenToSetScenario | src/test/kotlin/reaktive/set/SetBindingsSpec.kt:230-250 | views and emitted changes of the flattenToSet scenario, including after the variable is set to `{4, 5, 6}` |
| NumericBindings.SumBinding.constructor | src/test/kotlin/reaktive/collection/bindings/NumericBindingsSpec.kt:17-20 | the initial sum is the sum of the source's elements |
| NumericBindings.SumBinding.Handle | src/test/kotlin/reaktive/collection/bindings/NumericBindingsSpec.kt:22-33 | adding `x` adds `x` to the sum and removing it subtracts it, negative `x` included; the sum stays the sum of the elements |
| NumericBindings.SumBinding.HandleAll | src/test/kotlin/reaktive/collection/bindings/NumericBindingsSpec.kt:35-37 | after any sequence of source mutations, the sum is the sum of the elements |
| Bags.SetSumAdd | src/test/kotlin/reaktive/collection/bindings/NumericBindingsSpec.kt:22-27 | the sum of a set with a new element `x` is the old sum plus `x` |
| Bags.SetSumRemove | src/test/kotlin/reaktive/collection/bindings/NumericBindingsSpec.kt:28-33 | the sum of a set including `x` is `x` plus the sum without it |
| BindingScenarios.SumScenario | src/test/kotlin/reaktive/collection/bindings/NumericBindingsSpec.kt:15-34 | sums 10, 17, 14, 10, 13 over the four deterministic steps |
| BindingScenarios.AllScenario | src/main/kotlin/reaktive/collection/binding/existence.kt:32-62 | `all { it == 1 }` over `{1, 2}`: false; true after removing 2; still true after 2's cell changes; false after adding 3 with a false cell; true once 3's cell turns true |
| BindingScenarios.CountRemovalAsWritten | src/main/kotlin/reaktive/collection/binding/existence.kt:77-79 | as written, removing 1 from `{1}` under `count { it > 0 }` yields 2 where the true count is 0 |
| BindingScenarios.CountRemovalCorrected | src/main/kotlin/reaktive/collection/binding/existence.kt:64-66 | the corrected count yields 0 after the same removal |
| BindingScenarios.AllDisposeScenario | src/main/kotlin/reaktive/collection/binding/existence.kt:61 | `all` over `{}` reads true; after `dispose`, adding 1 with a false cell is not seen and it still reads true (unlike `count`, whose collection observer is not owned) |
| BindingScenarios.ContainsAllAsWritten | src/main/kotlin/reaktive/collection/binding/existence.kt:19-20 | as written, `containsAll({1})` over `{1}` stays true after 1 is removed, because its cell `contains(1)` never turns false |
| BindingScenarios.ContainsAllCorrected | src/main/kotlin/reaktive/collection/binding/existence.kt:16-20 | with the corrected `count`, the cell `contains(1)` turns false on the removal and `containsAll({1})` becomes false |
| BindingScenarios.ContainsAsWritten | src/main/kotlin/reaktive/collection/binding/existence.kt:88-94 | as written, `contains(1)` over `{1}` stays true after 1 is removed |
| BindingScenarios.CountDisposeAsWritten | src/main/kotlin/reaktive/collection/binding/existence.kt:69-80 | as written, a disposed `count` over `{}` still reaches 1 when 5 is added |
| BindingScenarios.CountDisposeCorrected | src/main/kotlin/reaktive/collection/binding/existence.kt:69-80 | the corrected count stays 0 after dispose and the same addition |

## Left out

- Random mutation steps (`mutateRandomly`, `Gen`) and the Spek test DSL are not replayed as steps. They are replaced by contracts over every change: each `Handle` holds for any real change, and `HandleAll` holds for any sequence of changes (map, filter, sum). A random step of the other views is one `Handle` call, each keeping the view's invariant.
- The implementations of the set views are not part of this model; the set views whose behaviour is modelled here are specified only by the documented expected results and scenarios. The occurrence counting in map, flatten and values is this model's way to meet those expectations.
- `BindingImpl`, `EventHandlerManager`, `observeCollection`, `Dependencies`, `withValue`, `greaterThan` and `unmodifiableReactiveList` are not part of this model. They are modelled abstractly:
  - an observer is a record with a `killed` flag;
  - the handler registry is a sequence whose killed entries are skipped when firing;
  - `set` is a field update;
  - a collection's structural changes arrive as calls of `OnAdded`/`OnRemoved` or `Handle`;
  - a reactive predicate cell's change arrives as a call of `OnPredicateChanged`.
- Events.EventStream.DoEmit: `EventHandlerManager.fire` is not part of this model, so the order in which subscriptions are reached is not stated; only what each subscription receives is.
- Events.EventStream.constructor: the lazy creation of the handler manager is a flag. It becomes set during construction, because building `lastFired` subscribes the updater at once. The manager itself and its `fire` are abstracted as the loop in `DoEmit`.
- Bindings.Binding.Dispose: `BindingImpl` is not part of this model; that `dispose` kills every observer registered through `addObserver` and keeps the value is assumed from how `binding(dependencies, compute)`, `all` and `lastFired` register their observers.
- Bindings.Variable and Bindings.Binding.Observe stand in for `reactiveVariable` and `observe` from the part of the library that is not part of this model; their contracts state only the field they update, and they have no row.
- `binding(initialValue, body)` runs an arbitrary body. The model gives it the constructor plus the `Set`/`AddObserver` operations a body calls; each client (`all`, `count`, `lastFired`, `binding(dependencies, compute)`) spells out its own body.
- Description strings of bindings and event streams, weak references, garbage collection and threading are not modelled.
- NumericBindings.SumBinding.Handle: the sum is an unbounded integer, so Kotlin's 32-bit `Int` wrap-around is not modelled. The specification's values stay far from the bounds.
- Existence.CountBinding.OnAdded: the `Int` value is unbounded as well (no wrap-around).
- Elements are distinct values in a set. Duplicate initial elements (`reactiveSet(5, 0, 5)`) collapse as in a set, and the list-based collections of `containsAll` are modelled by their element sets.
- The reactive list specification and the reactive value setter specification (garbage collection through weak references) are not modelled. Neither is the abstract reactive set skeleton, whose combinators are stubs; only its change shape `Added`/`Removed(element, source)` is used.

## Findings

| source | as written | input that shows it | evidently intended | confidence | as-written member | corrected member |
|---|---|---|---|---|---|---|
| src/main/kotlin/reaktive/collection/binding/existence.kt:77-79 | `removed` runs `set(it + 1)` for an element of `matchingElements` and never removes it from that set | `count { it > 0 }` over `{1}`, then remove 1: value 2, true count 0 | lower the value by one and forget the element, so that the value stays the number of matching elements, as documented at lines 64-66 | not executed | BindingScenarios.CountRemovalAsWritten | Existence.CountCorrected.OnRemoved |
| src/main/kotlin/reaktive/collection/binding/existence.kt:88-94 | `any` and `contains` are `count(...) > 0`, so they inherit the wrong removal (and `containsAll`, which is built on `contains`, see the next row) | `contains(1)` over `{1}`, then remove 1: still true | `contains(x)` holds exactly when `x` is present | not executed | BindingScenarios.ContainsAsWritten | Existence.CountCorrected.AnyMeansSomeMatches |
| src/main/kotlin/reaktive/collection/binding/existence.kt:19-26 | `containsAll(elements)` is `elements.all { contains(it) }`, so each cell inherits the wrong removal of `contains` | `containsAll({1})` over `{1}`, then remove 1: still true | `containsAll(elements)` holds exactly when every element is present | not executed | BindingScenarios.ContainsAllAsWritten | BindingScenarios.ContainsAllCorrected |
| src/main/kotlin/reaktive/collection/binding/existence.kt:69-80 | the observer returned by `observeCollection` is not passed to `addObserver` (unlike `all` at line 61, shown by BindingScenarios.AllDisposeScenario), so `dispose` does not release it | `count` over `{}`, dispose, then add 5: the disposed binding reads 1 | the collection observer belongs to the binding and is killed by `dispose` | not executed | BindingScenarios.CountDisposeAsWritten | BindingScenarios.CountDisposeCorrected |
