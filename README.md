# ngx-virtual-dnd-list, modelled in Dafny

ngx-virtual-dnd-list is an Angular list component. It renders only a window
of a long list, with spacers standing in for the rest, and lets the user
reorder the items by dragging. This project models the four parts that
decide what is shown and in which order:

- **The windowing engine `Virtual`** (`windowing.dfy`). It measures the
  items, moves the sizing mode `INIT → FIXED → DYNAMIC`, and keeps the
  total and the rounded average. From these it computes prefix offsets and
  the scrolled index (by direct division in FIXED mode, by bisection
  otherwise). It then clamps the window of `keeps` items and computes the
  front and behind spacers.
  - The component file carries a second copy of the engine. That copy
    estimates an unmeasured item by the `average` first and the configured
    `size` second; `virtual.ts` does the reverse. Both copies are the
    same class here, with the precedence (`SizeFallback`) fixed at
    construction. The copy's `scrollToIndex` adds no start offset: it is
    `ScrollToIndex` with `startOffset` 0.
- **The drag adapter `Sortable`** (`drag_list.dfy`). It keeps a copy of
  the list, finds items by their key, and edits the copy on drag, remove,
  add and change. Its store records the dragged item's origin, from and to
  indices, and `onDrop` reports whether anything changed.
- **The utilities** (`data_key.dfy`, `rate_limit.dfy`).
  - `getDataKey` tokenises a key path and folds `(o || {})[k]` over it.
  - `throttle`, `debounce` and `cancel` are timer-slot state machines,
    with the timer firing as an explicit event.
- **The host component** (`list_view.dfy`). It owns the model array and
  shares the key list with the engine. It shifts the window when the list
  grows at the bottom, recomputes once the first screen is measured, keeps
  the offset after a load at the top, and adopts a changed drop.

The supporting modules are:

- `js_values.dfy`: JavaScript values, truthiness, string-to-number
  conversion and loose equality `==`.
- `array_ops.dfy`: `splice`, `slice` and first-match scans, with
  ECMAScript's rules for negative and out-of-range indices.
- `wrappers.dfy`: `Option`.

Each method that changes state is proved against specification functions
(`PrefixOffset`, `ScrolledIndex`, `Spaced`, `ClampedUpdate`,
`Pruned`, `Splice`, `KeyIndex`, `ListChangeRange`, …). The lemmas
state what the code promises about those functions.

Three behaviours of the code worth noting:

- `onUpdate` emits `rangeChange` only when the window's start moved, not
  on every update.
- `getOffsetByIndex` counts a stored size of 0 as a size (`typeof size ===
  'number'`), while `getSize` falls back to the estimate for it (`||`).
- A reverted drag restores the list the adapter was created with.
  `option('list')` updates only the copy, never `options.list`.

## Model

| member | source | states |
|---|---|---|
| JsValues.ToNumber | projects/ngx-virtual-dnd-list/src/lib/ngx-virtual-dnd-list.component.ts:421-428 | the empty string converts to 0 and a digit string to its decimal value (how `==` compares a numeric key with a `data-key` attribute) |
| JsValues.LooseEqualsSymmetric | projects/ngx-virtual-dnd-list/src/lib/ngx-virtual-dnd-list.component.ts:421-428 | the loose `==` used to match keys is symmetric |
| JsValues.NumberKeyEqualsItsAttribute | projects/ngx-virtual-dnd-list/src/lib/ngx-virtual-dnd-list.component.ts:421-428 | a numeric key loosely equals the decimal string of its `data-key` attribute, so `getIndex` finds number-keyed items |
| JsValues.DigitsOfNatToString | projects/ngx-virtual-dnd-list/src/lib/ngx-virtual-dnd-list.component.ts:421-428 | the decimal rendering of a number reads back as that number |
| JsValues.ZeroEqualsEmptyString | projects/ngx-virtual-dnd-list/src/lib/ngx-virtual-dnd-list.component.ts:421-428 | a concrete edge of key matching: the key 0 matches an item whose `data-key` attribute is empty, but an item with no key does not match it |
| ArrayOps.RelativeIndex | projects/ngx-virtual-dnd-list/src/lib/ngx-virtual-dnd-list.component.ts:325 | a splice/slice index argument inside the array is itself, a negative one counts from the end, one past the end is the length and one before the start is 0 |
| ArrayOps.Splice | projects/ngx-virtual-dnd-list/src/lib/ngx-virtual-dnd-list.component.ts:325 | the length after `splice` is the old length minus what was deleted plus what was inserted |
| ArrayOps.SpliceDeleted | projects/ngx-virtual-dnd-list/src/lib/ngx-virtual-dnd-list.component.ts:325 | `splice` deletes nothing for a non-positive count, `deleteCount` elements when they exist, and everything up to the end otherwise |
| ArrayOps.SpliceRemoveAt | projects/ngx-virtual-dnd-list/src/lib/ngx-virtual-dnd-list.component.ts:325 | `splice(i, 1)` at a valid index removes exactly element i |
| ArrayOps.SpliceRemoveMinusOne | projects/ngx-virtual-dnd-list/src/lib/ngx-virtual-dnd-list.component.ts:325 | `splice(-1, 1)` (the key was not found) removes the last element |
| ArrayOps.SpliceInsertAt | projects/ngx-virtual-dnd-list/src/lib/ngx-virtual-dnd-list.component.ts:342 | `splice(i, 0, x)` at a valid position inserts x just before the old element i |
| ArrayOps.MoveKeepsElements | projects/ngx-virtual-dnd-list/src/lib/ngx-virtual-dnd-list.component.ts:386-387 | remove-at-i then insert-at-j keeps the length and the multiset, puts the moved item at j, and leaves the other positions as a shift |
| ArrayOps.Slice | src/lib/virtual-dnd-list.component.ts:131-133 | in bounds, `slice(b, e)` is `s[b..e]`; it never holds more than `e - b` items, and item i of the result is `s[b + i]` |
| ArrayOps.FirstIndex | projects/ngx-virtual-dnd-list/src/lib/ngx-virtual-dnd-list.component.ts:421-428 | the result is the first index satisfying the predicate, or -1 when none does |
| ArrayOps.IndexOf | src/lib/virtual-dnd-list.component.ts:170-175 | `indexOf` is non-negative iff the element occurs, and then it is the first occurrence |
| DataKey.Normalize | projects/ngx-virtual-dnd-list/src/lib/utils.ts:42 | every `[` and `]` becomes `.`, and every other character is kept in place |
| DataKey.Split | projects/ngx-virtual-dnd-list/src/lib/utils.ts:42 | `split('.')` gives at least one segment, and no segment contains a dot |
| DataKey.JoinSplit | projects/ngx-virtual-dnd-list/src/lib/utils.ts:42 | joining the split pieces with dots gives back the string |
| DataKey.SplitJoin | projects/ngx-virtual-dnd-list/src/lib/utils.ts:42 | splitting dot-free segments joined with dots gives back the segments |
| DataKey.SplitNoDot | projects/ngx-virtual-dnd-list/src/lib/utils.ts:42 | a dot-free string is a single segment |
| DataKey.StringPathTokens | projects/ngx-virtual-dnd-list/src/lib/utils.ts:41-43 | a string path's segments contain no `.`, `[` or `]`, and joined with dots they are the normalised path |
| DataKey.JoinHasSegment | projects/ngx-virtual-dnd-list/src/lib/utils.ts:42 | every character of a segment occurs in the joined path |
| DataKey.BracketThenDotLeavesEmptySegment | projects/ngx-virtual-dnd-list/src/lib/utils.ts:42 | `a[0].b` tokenises to `a`, `0`, `''`, `b` |
| DataKey.Get | projects/ngx-virtual-dnd-list/src/lib/utils.ts:44 | a falsy holder resolves any key to `undefined` |
| DataKey.WalkAppend | projects/ngx-virtual-dnd-list/src/lib/utils.ts:44 | resolving a path in two parts is resolving it whole |
| DataKey.WalkUndefined | projects/ngx-virtual-dnd-list/src/lib/utils.ts:44 | resolving anything from `undefined` gives `undefined`, and nothing is thrown |
| DataKey.FalsyPrefixResolvesUndefined | projects/ngx-virtual-dnd-list/src/lib/utils.ts:44 | once an intermediate value is falsy, every longer path resolves to `undefined` |
| RateLimit.CancelTimer | projects/ngx-virtual-dnd-list/src/lib/utils.ts:16-21 | `cancel` clears the pending call and delivers nothing |
| RateLimit.PendingIgnoresCalls | projects/ngx-virtual-dnd-list/src/lib/utils.ts:5 | while a timer is pending, any burst of calls changes nothing |
| RateLimit.ThrottleDeliversFirst | projects/ngx-virtual-dnd-list/src/lib/utils.ts:4-13 | with a positive wait, a burst leaves the first call's argument pending, and the timer delivers exactly it |
| RateLimit.ThrottleWithoutWaitIsSynchronous | projects/ngx-virtual-dnd-list/src/lib/utils.ts:7-8 | with `wait <= 0`, every call is delivered at once, in order, and no timer is ever set |
| RateLimit.DebounceDeliversLast | projects/ngx-virtual-dnd-list/src/lib/utils.ts:26-31 | a debounced burst leaves only the last call's argument pending, and the timer delivers exactly it |
| RateLimit.CancelThenCall | projects/ngx-virtual-dnd-list/src/lib/utils.ts:16-21 | a cancelled call is never delivered, and the next call schedules afresh |
| RateLimit.Throttled.constructor | projects/ngx-virtual-dnd-list/src/lib/utils.ts:2 | a new throttle has no timer and has delivered nothing |
| RateLimit.Throttled.Call | projects/ngx-virtual-dnd-list/src/lib/utils.ts:4-14 | a call changes the slot as `ThrottleCall` says |
| RateLimit.Throttled.Fire | projects/ngx-virtual-dnd-list/src/lib/utils.ts:10-13 | the timer firing empties the slot and then delivers the pending argument |
| RateLimit.Throttled.Cancel | projects/ngx-virtual-dnd-list/src/lib/utils.ts:16-21 | `cancel` changes the slot as `CancelTimer` says |
| RateLimit.Debounced.constructor | projects/ngx-virtual-dnd-list/src/lib/utils.ts:26-27 | a debounce wraps a fresh throttle with the same wait |
| RateLimit.Debounced.Call | projects/ngx-virtual-dnd-list/src/lib/utils.ts:28-31 | a debounced call cancels first, then calls the throttle |
| RateLimit.Debounced.Cancel | projects/ngx-virtual-dnd-list/src/lib/utils.ts:32-34 | the debounce's `cancel` cancels the throttle |
| Windowing.NextModeIsOneWay | projects/ngx-virtual-dnd-list/src/lib/virtual.ts:201-210 | a measurement never returns to INIT, never leaves DYNAMIC, and a FIXED result carries the measured size |
| Windowing.DynamicIsFinal | projects/ngx-virtual-dnd-list/src/lib/virtual.ts:204-210 | once DYNAMIC, every later series of measurements stays DYNAMIC |
| Windowing.FixedRun | projects/ngx-virtual-dnd-list/src/lib/virtual.ts:207-210 | FIXED(f) survives a series of measurements iff every one equals f, and otherwise ends DYNAMIC |
| Windowing.ModeAfterMeasurements | projects/ngx-virtual-dnd-list/src/lib/virtual.ts:201-210 | starting from INIT, the mode is FIXED at the first size iff all sizes are equal, else DYNAMIC |
| Windowing.FallbackPrecedenceDiffers | projects/ngx-virtual-dnd-list/src/lib/ngx-virtual-dnd-list.component.ts:802-806 | the two engine copies' estimates differ iff a configured size and a different nonzero average both exist |
| Windowing.SumValuesRemove | projects/ngx-virtual-dnd-list/src/lib/virtual.ts:213 | the total of stored sizes is any one entry plus the total of the rest |
| Windowing.RoundHalfUp | projects/ngx-virtual-dnd-list/src/lib/virtual.ts:214 | the average is `total / count` rounded half up (`Math.round` for non-negative values) |
| Windowing.PrefixMonotone | projects/ngx-virtual-dnd-list/src/lib/virtual.ts:391-401 | `getOffsetByIndex` is non-decreasing in the index |
| Windowing.PrefixStrict | projects/ngx-virtual-dnd-list/src/lib/virtual.ts:391-401 | with positive sizes, `getOffsetByIndex` is strictly increasing |
| Windowing.PrefixUniform | projects/ngx-virtual-dnd-list/src/lib/virtual.ts:391-401 | with every size equal to f, the offset of index i is `f * i`, which is what FIXED mode computes |
| Windowing.ScrollIndexBrackets | projects/ngx-virtual-dnd-list/src/lib/virtual.ts:316-345 | with positive sizes, the scrolled index is the item containing the offset: its start is at or before the offset, and the next item's start is after it |
| Windowing.ScrollIndexUnique | projects/ngx-virtual-dnd-list/src/lib/virtual.ts:316-345 | with positive sizes, at most one index meets the bisection's result condition |
| Windowing.FixedIndexAgrees | projects/ngx-virtual-dnd-list/src/lib/virtual.ts:323-325 | with uniform sizes, `floor(offset / fixed)` meets the same condition the bisection establishes |
| Windowing.WindowShape | projects/ngx-virtual-dnd-list/src/lib/virtual.ts:347-361 | for any non-negative start and the end derived from it, the window is ordered, shows a short list whole, and shows a longer one `keeps` items at a time within the list |
| Windowing.ClampIdempotent | projects/ngx-virtual-dnd-list/src/lib/virtual.ts:347-361 | clamping a clamped window changes nothing, so repeating `checkIfUpdate` emits nothing |
| Windowing.FixedFrontAgrees | projects/ngx-virtual-dnd-list/src/lib/virtual.ts:372-378 | in FIXED mode, `fixed * start` is the prefix offset of `start` |
| Windowing.Classify | projects/ngx-virtual-dnd-list/src/lib/virtual.ts:278-282 | the direction is STATIONARY, FRONT or BEHIND iff the offset is equal, smaller or larger |
| Windowing.Pruned | projects/ngx-virtual-dnd-list/src/lib/virtual.ts:175-181 | exactly the size entries whose key is not among the new keys are dropped, and the rest keep their values |
| Windowing.Virtual.FixedIsUniform | projects/ngx-virtual-dnd-list/src/lib/virtual.ts:201-210 | in FIXED mode, every stored size and the estimate equal the fixed size |
| Windowing.Virtual.constructor | projects/ngx-virtual-dnd-list/src/lib/virtual.ts:81-111 | the engine starts in INIT with no sizes, zero totals and a zero range, and the initial `checkIfUpdate` emits nothing |
| Windowing.Virtual.GetSize | projects/ngx-virtual-dnd-list/src/lib/virtual.ts:125-127 | a stored nonzero size, else the estimate |
| Windowing.Virtual.GetSizeAgreesWithOffsetSize | projects/ngx-virtual-dnd-list/src/lib/virtual.ts:125-127 | for a listed key, `getSize` equals the size `getOffsetByIndex` adds (virtual.ts:396-397), except for a stored 0, which `getOffsetByIndex` counts as 0 while `getSize` falls back to the estimate |
| Windowing.Virtual.TotalSize | projects/ngx-virtual-dnd-list/src/lib/virtual.ts:213 | the loop's result is the sum of the stored sizes |
| Windowing.Virtual.OnItemResized | projects/ngx-virtual-dnd-list/src/lib/virtual.ts:201-216 | records the size and advances the mode; outside FIXED, `total` is the sum and `average` its rounded mean; in FIXED both are left alone; FIXED keeps every stored size equal |
| Windowing.Virtual.GetOffsetByIndex | projects/ngx-virtual-dnd-list/src/lib/virtual.ts:391-401 | the loop's result is the prefix sum of the sizes before the index, an unmeasured item counting as the estimate |
| Windowing.Virtual.GetScrollItems | projects/ngx-virtual-dnd-list/src/lib/virtual.ts:316-345 | 0 for a non-positive offset, `floor(offset / fixed)` in FIXED mode, else a bisection result in `[0, length]` with exactly that offset or the last prefix offset below it |
| Windowing.Virtual.HandleUpdate | projects/ngx-virtual-dnd-list/src/lib/virtual.ts:363-389 | stores and emits `[start, end]` with the front spacer equal to the items before the window and the behind spacer equal to the estimated items after it |
| Windowing.Virtual.CheckIfUpdate | projects/ngx-virtual-dnd-list/src/lib/virtual.ts:347-361 | clamps the proposed window, and updates and emits only when its start differs from the current one |
| Windowing.Virtual.UpdateRange | projects/ngx-virtual-dnd-list/src/lib/virtual.ts:189-199 | a given window is adopted; otherwise the current start (at least 0) and its derived end are used; it always emits |
| Windowing.Virtual.HandleScrollFront | projects/ngx-virtual-dnd-list/src/lib/virtual.ts:298-305 | nothing changes while the scrolled index is past the window's start; otherwise the window restarts `buffer` items before it |
| Windowing.Virtual.HandleScrollBehind | projects/ngx-virtual-dnd-list/src/lib/virtual.ts:307-314 | nothing changes until the scrolled index reaches `start + buffer`; then the window restarts at it |
| Windowing.Virtual.HandleScroll | projects/ngx-virtual-dnd-list/src/lib/virtual.ts:273-296 | stores the offset and its direction, reports top iff FRONT at offset ≤ 0 and bottom iff BEHIND at the end, and moves the window as the front/behind rules say |
| Windowing.Virtual.Option | projects/ngx-virtual-dnd-list/src/lib/virtual.ts:170-187 | a size, `keeps` or `buffer` option sets that value alone; new unique keys prune the size store to them and leave everything else alone |
| Windowing.Virtual.ScrollToIndex | projects/ngx-virtual-dnd-list/src/lib/virtual.ts:145-153 | from the last index on (`index >= uniqueKeys.length - 1`), it asks to scroll to the bottom; otherwise to the item's offset plus the start offset |
| DragList.KeyIndex | projects/ngx-virtual-dnd-list/src/lib/ngx-virtual-dnd-list.component.ts:421-428 | the first item whose resolved key loosely equals the key, or -1 when none does |
| DragList.TargetIndex | projects/ngx-virtual-dnd-list/src/lib/ngx-virtual-dnd-list.component.ts:372-381 | the target index moves only on a drag back to the origin: down by one iff `relative` is 1 and the last index is before it, up by one iff `relative` is -1 and the last index is after it |
| DragList.Sortable.constructor | projects/ngx-virtual-dnd-list/src/lib/ngx-virtual-dnd-list.component.ts:254-263 | the adapter starts with a copy of the list, an empty store and `reRendered` false |
| DragList.Sortable.Option | projects/ngx-virtual-dnd-list/src/lib/ngx-virtual-dnd-list.component.ts:271-279 | `list` replaces the copy, `reRendered` sets the flag, and any other key touches neither |
| DragList.Sortable.GetIndex | projects/ngx-virtual-dnd-list/src/lib/ngx-virtual-dnd-list.component.ts:421-428 | the loop returns the first index whose key loosely equals the given one, else -1 |
| DragList.Sortable.OnDrag | projects/ngx-virtual-dnd-list/src/lib/ngx-virtual-dnd-list.component.ts:299-315 | the list is untouched; the store records the item and key, with the origin, from and to indices all at the key's index |
| DragList.Sortable.OnRemove | projects/ngx-virtual-dnd-list/src/lib/ngx-virtual-dnd-list.component.ts:317-328 | exactly the element at the key's index is removed (the length drops by one when present), and the store records key and item |
| DragList.Sortable.OnAdd | projects/ngx-virtual-dnd-list/src/lib/ngx-virtual-dnd-list.component.ts:330-351 | the source store's item is inserted at the target's index (one further when `relative` is -1), the length grows by one, and `store.to` records the index |
| DragList.Sortable.OnChange | projects/ngx-virtual-dnd-list/src/lib/ngx-virtual-dnd-list.component.ts:353-394 | a revert restores the initial list and points `from` at the origin; otherwise the item moves from its key's index to the target index, length and multiset are kept, and `from` and `to` both record the target |
| DragList.Sortable.OnDrop | projects/ngx-virtual-dnd-list/src/lib/ngx-virtual-dnd-list.component.ts:397-419 | `changed` iff the containers differ or the origin and final indices differ; the dragged node is removed iff this container is the source and it re-rendered; `reRendered` is false afterwards |
| DragList.RemoveThenAddRestores | projects/ngx-virtual-dnd-list/src/lib/ngx-virtual-dnd-list.component.ts:317-351 | removing an item and adding it back at the same index restores the list |
| DragList.MissingKeyRemovesLast | projects/ngx-virtual-dnd-list/src/lib/ngx-virtual-dnd-list.component.ts:317-325 | a key no item carries makes `onRemove` drop the last item |
| DragList.ReorderExample | projects/ngx-virtual-dnd-list/src/lib/ngx-virtual-dnd-list.component.ts:353-419 | dragging `a` onto `c` in `[a, b, c, d]` gives `[b, c, a, d]`, and the drop reports a change |
| ListView.ListChangeRange | src/lib/virtual-dnd-list.component.ts:281-300 | nothing happens iff the length did not change (both-empty is a special case); otherwise `end`, `front` and `behind` are kept, and the start moves by one iff the list grew past `keeps` while the window showed the old last item at the bottom |
| ListView.KeptOffsetIndex | src/lib/virtual-dnd-list.component.ts:262-270 | a scroll happens iff a length was remembered, `keepOffset` is on and the list grew past it; the index is the new length minus the remembered one |
| ListView.KeptOffsetKeepsFirstItem | src/lib/virtual-dnd-list.component.ts:262-270 | after items were prepended to the remembered list, the kept-offset index is where the formerly first item now is |
| ListView.EngineBottomIsScrolledToBottom | src/lib/virtual-dnd-list.component.ts:302-307 | whenever the engine reports the bottom of a scroll, the host counts as scrolled to the bottom; the host allows one pixel more, so the converse fails |
| ListView.StoredCounts | src/lib/virtual-dnd-list.component.ts:368-372 | one stored-key count per measurement in the series |
| ListView.FreshMeasurementsCount | src/lib/virtual-dnd-list.component.ts:368-372 | when every measurement is of a key not stored before, the i-th one finds the initial count plus i keys |
| ListView.FirstScreenOnFreshMeasurements | src/lib/virtual-dnd-list.component.ts:363-375 | items measured one after another, each for the first time, from an empty store: exactly the `min(keeps, len)`-th measurement recomputes the window |
| ListView.RemeasureRecomputesAgain | src/lib/virtual-dnd-list.component.ts:368-374 | the recompute condition depends only on the store size: re-measuring a stored key while the store is one short of the first screen recomputes again |
| ListView.KeysOf | src/lib/virtual-dnd-list.component.ts:274-276 | the key list has one key per item, each item's key resolved with the key path |
| ListView.VirtualDndList.RenderList | src/lib/virtual-dnd-list.component.ts:131-133 | a window inside the list renders exactly `modelValue[start..end + 1]`, one running past the end renders `modelValue[start..]`; in every case at most `end + 1 - start` items, rendered item i being model item `start + i` |
| ListView.VirtualDndList.constructor | src/lib/virtual-dnd-list.component.ts:358-391 | the component starts with an empty model, the range `(0, 29, 0, 0)` (its initialiser reads `keeps` at its default 30 from line 94, before the inputs are bound), no drag mark, no chosen key, and an engine built with the bound `keeps` and buffer `round(keeps / 3)` |
| ListView.VirtualDndList.OnUpdate | src/lib/virtual-dnd-list.component.ts:412-425 | the new range is always adopted; `rangeChange` is emitted, and the drag is marked re-ranged while dragging, only when the start moved |
| ListView.VirtualDndList.DetectRangeUpdate | src/lib/virtual-dnd-list.component.ts:281-300 | the engine re-spaces and emits the window `ListChangeRange` gives, or nothing is touched; the component adopts the emission, reports `rangeChange` and marks the drag only when the start moved |
| ListView.VirtualDndList.WriteValue | src/lib/virtual-dnd-list.component.ts:256-279 | the model is the value or `[]`; engine and adapter get its keys and list, with sizes pruned to the keys and the engine's size, `keeps` and buffer unchanged; the window follows the length change as in `detectRangeUpdate`, including the drag mark; the kept offset is scrolled to; `lastLength` is zeroed when it was nonzero and `keepOffset` is on, else kept; `lastList` is the model |
| ListView.VirtualDndList.KeepOffset | src/lib/virtual-dnd-list.component.ts:262-269 | with a remembered length and `keepOffset`, a scroll to the new length minus it when positive, and the length is zeroed; otherwise nothing |
| ListView.VirtualDndList.OnSizeChange | src/lib/virtual-dnd-list.component.ts:363-375 | the chosen item's size is ignored (sizes, mode, total and average unchanged); any other is recorded and advances the mode, and outside FIXED the total becomes the sum of the stored sizes and the average its rounded mean; the window is recomputed from the current range exactly when this measurement completes the first screen, and then the drag is marked if dragging and the start moved |
| ListView.VirtualDndList.ScrollToKey | src/lib/virtual-dnd-list.component.ts:170-175 | a scroll is requested iff the key is in the key list, and then to its first index |
| ListView.VirtualDndList.OnSortableChoose | src/lib/virtual-dnd-list.component.ts:332-334 | the chosen key is the node's `data-key` attribute, or `null` without one |
| ListView.VirtualDndList.OnSortableUnchoose | src/lib/virtual-dnd-list.component.ts:336-338 | the chosen key becomes the empty string |
| ListView.VirtualDndList.OnSortableDrag | src/lib/virtual-dnd-list.component.ts:340-343 | dragging starts, and the event is passed on |
| ListView.VirtualDndList.OnSortableDrop | src/lib/virtual-dnd-list.component.ts:345-355 | dragging ends and the drag mark is kept; a changed drop replaces the model and reports it, with all of `writeValue`'s guarantees (pruned sizes, the window following the length, the kept-offset scroll); an unchanged one touches neither model, window nor sizes; the engine's settings never change; the event is always passed on |
| ListView.VirtualDndList.OnScroll | src/lib/virtual-dnd-list.component.ts:393-401 | the remembered length is zeroed, and the top/bottom handlers are triggered as the event says |
| ListView.VirtualDndList.HandleToTopFired | src/lib/virtual-dnd-list.component.ts:403-406 | the top handler remembers the current model length |
| ListView.VirtualDndList.Scroll | src/lib/virtual-dnd-list.component.ts:377-421 | a scroll stores the engine offset and its direction, leaves `lastLength` zero, moves the engine window by `handleScroll`'s rule (scrolling front: unchanged while the scrolled index is past the start, else clamped from the index minus the buffer; behind: unchanged within the buffer, else clamped from the scrolled index), and the component's range follows the engine's window, emitting `rangeChange` and marking the drag while dragging only when the start moved |

## Left out

- The component's inline engine copy scrolls to `_getOffsetByIndex(index)` alone in `scrollToIndex` (projects/ngx-virtual-dnd-list/src/lib/ngx-virtual-dnd-list.component.ts:565-571), without `virtual.ts`'s `getScrollStartOffset()`. The model has one `ScrollToIndex`; the copy's behaviour is that member with `startOffset` 0, and it is not modelled as a separate member.
- DOM reads and writes are parameters or results. The viewport offset, client size, scroll size and the list's start offset (`getScrollStartOffset`) are method parameters. Scrolling is returned as a `ScrollRequest` instead of being performed.
- The `scrollToBottom` retry is an unbounded `setTimeout` poll. Only its condition is modelled, as `BottomNotReached`.
- Event listeners, `enableScroll` and the `preventDefault` handlers are framework side effects and are not modelled.
- Real timers are not modelled. `setTimeout`/`clearTimeout` become the explicit `Fire` and `Cancel` events, and `this`/`arguments` forwarding becomes a single argument.
- The component file's own throttle/debounce copies (lines 840-877: a debounce with an `immediate` flag, and a throttle with no `wait <= 0` branch and no `cancel`) are not modelled. The inline engine copy rate-limits its scroll handler with them (`_updateOnScrollFunction`, lines 649-660); the model's scroll steps are the handler's calls after rate limiting.
- The sortable-dnd library is not modelled. The from/to stores, `revertDrag`, `backToOrigin`, `relative`, `pullMode` and "same container" are parameters. Removing `Dnd.dragged` and `Dnd.clone` becomes the two booleans `OnDrop` returns.
- `destroy`, `init`, `getStore` and `dispatchEvent` are not modelled. They are library wiring; the adapter's callbacks return their event instead of dispatching it.
- Angular glue is not modelled. This covers templates, `ngOnChanges`/`ngDoCheck`, `ControlValueAccessor` plumbing, the spacer padding style, `cdr`/`zone` and the observers. `keeps`, `keepOffset` and `dataKey` are fixed at construction.
- The item directives and components, the module declarations and `constant.ts` are not modelled. The constants appear as datatypes.
- The host imports `./core`, which is not part of this model. Its engine is modelled as the `Virtual` class above with the option-size-first estimate. Of its drag adapter, only the list copy and `rangeChanged` flag the host writes are kept. Its `isSameValue` is taken to be loose equality.
- The host's sortable `uniqueKeys` option is not modelled, because only the missing adapter reads it.
- Lists are values. Object identity and aliasing are not modelled: the store's `list` references and the shared `options.list` array do not appear. Keys compare structurally, where JavaScript's `Map`, `includes` and `===` compare objects by identity.
- Sizes, offsets and keys are integers. NaN, Infinity and fractional pixels are not modelled. `ToNumber` covers the empty string and optionally signed decimal digits, without whitespace, hex, exponents or a decimal point. So `"3.0" == 3`, true in JavaScript, is false in the model.
- Windowing.Virtual.GetScrollItems: it requires a positive fixed size in FIXED mode. A measured 0 would make JavaScript divide by zero (Infinity). `HandleScroll`, `HandleScrollFront`, `HandleScrollBehind` and `ListView.VirtualDndList.Scroll` inherit the same requirement.
- `DataKey.Get` does not model reading properties of strings, numbers or booleans. It gives `undefined` for a truthy primitive. It also reads only an object's own properties: the prototype chain `(o || {})[k]` consults (an array's `length`, `toString`) is not modelled.
- `handleSlotSizeChange` and the `header` size of the inline engine copy are not modelled as state. `_getScrollStartOffset` starts from the header size, so the header is folded into the `startOffset` parameter. The copy's initial direction `''` is modelled as STATIONARY; both mean neither front nor behind.
- The `scroller` option (the inline copy's scroll element) is not modelled. It only re-registers listeners: `ViewportSetting` leaves the model state alone.
