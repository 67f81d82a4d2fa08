/**
 * The host list component (`VirtualDndListComponent`): it owns the model
 * array, keeps the key list the windowing engine and the drag adapter
 * share, and decides when a change of the list, a measurement, a drop or a
 * scroll moves the rendered window.
 *
 * The engine is the `Virtual` class of the windowing model (with the
 * option-size-first estimate); of the drag adapter only what the host
 * writes into it is kept: its list copy and its `rangeChanged` flag.
 * Viewport readings (offset, client size, scroll size) and the list's start
 * offset are parameters; scroll requests are returned instead of performed.
 */
module ListView {
  import opened Wrappers
  import opened JsValues
  import opened ArrayOps
  import opened DataKey
  import opened Windowing
  import DragList

  /** `offset + clientSize + 1 >= scrollSize`: within one pixel of the end. */
  predicate ScrolledToBottom(offset: int, clientSize: int, scrollSize: int) {
    offset + clientSize + 1 >= scrollSize
  }

  /**
   * Whenever the engine reports reaching the bottom of a scroll, the host
   * counts as scrolled to the bottom; the host's test allows one pixel more,
   * so the converse fails.
   */
  lemma EngineBottomIsScrolledToBottom(offset: int, clientSize: int, scrollSize: int)
    ensures clientSize + offset >= scrollSize ==> ScrolledToBottom(offset, clientSize, scrollSize)
    ensures ScrolledToBottom(offset, clientSize, offset + clientSize + 1)
    ensures !(clientSize + offset >= offset + clientSize + 1)
  {
  }

  /**
   * The window `detectRangeUpdate` hands to `updateRange` when the list
   * went from `lastLen` to `newLen` items, or None when it does nothing.
   * Lists that grow while the window shows the old last item and the
   * viewport sits at the bottom keep following the end: the start moves
   * one item on.
   */
  function ListChangeRange(range: Range, lastLen: nat, newLen: nat, keeps: nat, atBottom: bool): (r: Option<Range>)
    ensures r.None? <==> newLen == lastLen
    ensures r.Some? ==> r.value.end == range.end && r.value.front == range.front && r.value.behind == range.behind
    ensures r.Some? ==> r.value.start == range.start || r.value.start == range.start + 1
    ensures r.Some? ==> (r.value.start == range.start + 1 <==>
      lastLen > keeps && newLen > lastLen && range.end == lastLen - 1 && atBottom)
  {
    if newLen == 0 && lastLen == 0 then None
    else if newLen == lastLen then None
    else if lastLen > keeps && newLen > lastLen && range.end == lastLen - 1 && atBottom then
      Some(range.(start := range.start + 1))
    else Some(range)
  }

  /** `onSizeChange` recomputes the window when the size store held one key fewer than the first screen's item count. */
  predicate CompletesFirstScreen(storedBefore: nat, keeps: nat, len: nat) {
    storedBefore == (if keeps < len then keeps else len) - 1
  }

  /** The number of stored keys before each of a series of measurements, starting from the keys `stored`. */
  function StoredCounts(stored: set<Value>, measured: seq<Value>): (r: seq<nat>)
    ensures |r| == |measured|
    decreases |measured|
  {
    if measured == [] then [] else [|stored|] + StoredCounts(stored + {measured[0]}, measured[1..])
  }

  /** When every measurement is of a key not stored before, the i-th one finds `|stored| + i` keys. */
  lemma {:induction false} FreshMeasurementsCount(stored: set<Value>, measured: seq<Value>)
    requires forall i, j :: 0 <= i < j < |measured| ==> measured[i] != measured[j]
    requires forall i :: 0 <= i < |measured| ==> measured[i] !in stored
    ensures forall i :: 0 <= i < |measured| ==> StoredCounts(stored, measured)[i] == |stored| + i
    decreases |measured|
  {
    if measured != [] {
      var rest := measured[1..];
      FreshMeasurementsCount(stored + {measured[0]}, rest);
      assert |stored + {measured[0]}| == |stored| + 1;
      forall i | 0 <= i < |measured|
        ensures StoredCounts(stored, measured)[i] == |stored| + i
      {
        if i > 0 {
          assert StoredCounts(stored, measured)[i] == StoredCounts(stored + {measured[0]}, rest)[i - 1];
        }
      }
    }
  }

  /**
   * Items measured one after another, each for the first time, from an
   * empty store: exactly the `min(keeps, len)`-th measurement recomputes.
   */
  lemma FirstScreenOnFreshMeasurements(measured: seq<Value>, keeps: nat, len: nat)
    requires forall i, j :: 0 <= i < j < |measured| ==> measured[i] != measured[j]
    ensures forall i :: 0 <= i < |measured| ==>
      (CompletesFirstScreen(StoredCounts({}, measured)[i], keeps, len) <==> i + 1 == (if keeps < len then keeps else len))
  {
    FreshMeasurementsCount({}, measured);
  }

  /**
   * But the condition depends only on the store's size: re-measuring a key
   * already stored while the store is one short of the first screen leaves
   * the count alone and recomputes again.
   */
  lemma RemeasureRecomputesAgain(stored: set<Value>, k: Value, keeps: nat, len: nat)
    requires k in stored && CompletesFirstScreen(|stored|, keeps, len)
    ensures StoredCounts(stored, [k, k]) == [|stored|, |stored|]
    ensures CompletesFirstScreen(StoredCounts(stored, [k, k])[1], keeps, len)
  {
    assert stored + {k} == stored;
  }

  /** The key list: every item's key resolved with the key path. */
  function KeysOf(model: seq<Value>, path: KeyPath): (r: seq<Value>)
    ensures |r| == |model|
    ensures forall i :: 0 <= i < |model| ==> r[i] == GetDataKey(model[i], path)
  {
    seq(|model|, i requires 0 <= i < |model| => GetDataKey(model[i], path))
  }

  /** The scroll `scrollToIndex(index)` asks for: to the bottom from the last item on, else to the item's offset. */
  function IndexRequest(l: Layout, index: int, startOffset: int): ScrollRequest {
    if index >= |l.keys| - 1 then ToBottom else ToOffset(PrefixOffset(l, index) + startOffset)
  }

  /** The index `writeValue` scrolls to when it keeps the offset after items were prepended, if any. */
  function KeptOffsetIndex(lastLength: nat, keepOffset: bool, newLen: nat): (r: Option<nat>)
    ensures r.Some? <==> lastLength != 0 && keepOffset && newLen > lastLength
    ensures r.Some? ==> 0 < r.value < newLen && r.value + lastLength == newLen
  {
    if lastLength != 0 && keepOffset && newLen - lastLength > 0 then Some(newLen - lastLength) else None
  }

  /**
   * The window a grown list keeps: `lastLength` items were there when the
   * top was reached, so the prepended ones are the first `index`, and the
   * item that was first now sits at that index.
   */
  lemma KeptOffsetKeepsFirstItem(remembered: seq<Value>, prepended: seq<Value>, lastLength: nat)
    requires |remembered| == lastLength && lastLength > 0 && prepended != []
    ensures var r := KeptOffsetIndex(lastLength, true, |prepended + remembered|);
      r.Some? && (prepended + remembered)[r.value] == remembered[0]
  {
  }

  /** The `keeps` input's default, which the field initialiser of `range` reads before the inputs are bound. */
  const DefaultKeeps: nat := 30

  class VirtualDndList {
    const virtual: Virtual
    const dataKey: KeyPath
    const keeps: nat
    const keepOffset: bool

    var modelValue: seq<Value>
    var lastList: seq<Value>
    var lastLength: nat
    var uniqueKeys: seq<Value>
    var range: Range
    var dragging: bool
    /** The `data-key` attribute of the chosen node: `undefined` before any choice, `null` when absent. */
    var chosenKey: Value
    /** The drag adapter's list copy and `rangeChanged` flag. */
    var dndList: seq<Value>
    var dndRangeChanged: bool

    /** The engine is consistent and sees the host's key list, which is the model's keys. */
    ghost predicate Valid()
      reads this, virtual
    {
      && virtual.Valid()
      && virtual.uniqueKeys == uniqueKeys
      && uniqueKeys == KeysOf(modelValue, dataKey)
      && dndList == modelValue
    }

    /** `renderList`: the items of the window, `modelValue.slice(start, end + 1)`. */
    function RenderList(): (r: seq<Value>)
      reads this
      ensures 0 <= range.start && 0 <= range.end + 1 ==>
        |r| <= if range.end + 1 > range.start then range.end + 1 - range.start else 0
      ensures 0 <= range.start ==> forall i :: 0 <= i < |r| ==> range.start + i < |modelValue| && r[i] == modelValue[range.start + i]
      ensures 0 <= range.start <= range.end + 1 <= |modelValue| ==> r == modelValue[range.start..range.end + 1]
      ensures 0 <= range.start <= |modelValue| < range.end + 1 ==> r == modelValue[range.start..]
    {
      Slice(modelValue, range.start, range.end + 1)
    }

    /**
     * The outcome of handing window `g` to `updateRange` (None: not called),
     * from a state with host range `oldRange`, engine range `oldEngine` and
     * drag mark `oldMark`: the engine re-spaces the window and emits it, and
     * `onUpdate` adopts it, reporting and marking only a moved start.
     */
    ghost predicate WindowFollows(oldRange: Range, oldEngine: Range, oldMark: bool, g: Option<Range>, rangeChange: Option<Range>)
      reads this`range, this`dragging, this`dndRangeChanged, virtual
    {
      && (g.None? ==> range == oldRange && virtual.range == oldEngine && rangeChange == None && dndRangeChanged == oldMark)
      && (g.Some? ==>
            && virtual.range == Spaced(virtual.Geometry(), g.value.start, g.value.end) && range == virtual.range
            && rangeChange == (if range.start != oldRange.start then Some(range) else None)
            && dndRangeChanged == (oldMark || (dragging && range.start != oldRange.start)))
    }

    /**
     * The fields' initial values followed by `installVirtual` and
     * `installSortable`: the range is initialised with the default `keeps`,
     * the engine with the bound one.
     */
    constructor (dataKey: string, keeps: nat, size: nat, keepOffset: bool)
      ensures Valid()
      ensures this.dataKey == PathString(dataKey) && this.keeps == keeps && this.keepOffset == keepOffset
      ensures modelValue == [] && lastList == [] && lastLength == 0 && uniqueKeys == []
      ensures range == Range(0, DefaultKeeps - 1, 0, 0) && !dragging && chosenKey == Undefined && !dndRangeChanged
      ensures fresh(virtual) && virtual.optSize == size && virtual.keeps == keeps
      ensures virtual.buffer == RoundHalfUp(keeps, 3) && virtual.fallback == OptionSizeFirst
    {
      this.dataKey := PathString(dataKey);
      this.keeps := keeps;
      this.keepOffset := keepOffset;
      modelValue := [];
      lastList := [];
      lastLength := 0;
      uniqueKeys := [];
      range := Range(0, DefaultKeeps - 1, 0, 0);
      dragging := false;
      chosenKey := Undefined;
      virtual := new Virtual(OptionSizeFirst, size, keeps, RoundHalfUp(keeps, 3), []);
      dndList := [];
      dndRangeChanged := false;
    }

    /** `onUpdate`: adopt the engine's window; report `rangeChange` and mark the drag only when the start moved. */
    method OnUpdate(r: Range) returns (rangeChange: Option<Range>)
      modifies this`range, this`dndRangeChanged
      ensures range == r
      ensures rangeChange == if r.start != old(range.start) then Some(r) else None
      ensures dndRangeChanged == (old(dndRangeChanged) || (dragging && r.start != old(range.start)))
    {
      var rangeChanged := r.start != range.start;
      if dragging && rangeChanged {
        dndRangeChanged := true;
      }
      range := r;
      rangeChange := if rangeChanged then Some(r) else None;
    }

    /** `detectRangeUpdate`: after the list changed length, push the (possibly shifted) window through `updateRange`. */
    method DetectRangeUpdate(offset: int, clientSize: int, scrollSize: int) returns (rangeChange: Option<Range>)
      modifies this`range, this`dndRangeChanged, virtual`range
      ensures WindowFollows(old(range), old(virtual.range), old(dndRangeChanged),
                            ListChangeRange(old(range), |lastList|, |modelValue|, keeps,
                                            ScrolledToBottom(offset, clientSize, scrollSize)),
                            rangeChange)
    {
      rangeChange := None;
      if |modelValue| == 0 && |lastList| == 0 {
        return;
      }
      if |modelValue| == |lastList| {
        return;
      }
      var next := range;
      if |lastList| > keeps && |modelValue| > |lastList| && range.end == |lastList| - 1
         && ScrolledToBottom(offset, clientSize, scrollSize) {
        next := next.(start := next.start + 1);
      }
      var emitted := virtual.UpdateRange(Some(next));
      rangeChange := OnUpdate(emitted);
    }

    /**
     * `writeValue`: adopt the new model (`value || []`), hand its keys to the
     * engine and the list to the drag adapter, follow a change of length,
     * keep the offset after a load at the top, and remember the list.
     */
    method WriteValue(value: Option<seq<Value>>, offset: int, clientSize: int, scrollSize: int, startOffset: int)
      returns (rangeChange: Option<Range>, scrollTo: Option<ScrollRequest>)
      requires Valid()
      modifies this`modelValue, this`uniqueKeys, this`dndList, this`range, this`dndRangeChanged,
               this`lastLength, this`lastList, virtual`optSize, virtual`keeps, virtual`buffer, virtual`uniqueKeys, virtual`sizes, virtual`range
      ensures Valid()
      ensures modelValue == value.GetOr([]) && lastList == modelValue
      ensures virtual.sizes == Pruned(old(virtual.sizes), KeysOf(modelValue, dataKey))
      ensures virtual.optSize == old(virtual.optSize) && virtual.keeps == old(virtual.keeps) && virtual.buffer == old(virtual.buffer)
      ensures WindowFollows(old(range), old(virtual.range), old(dndRangeChanged),
                            ListChangeRange(old(range), |old(lastList)|, |modelValue|, keeps,
                                            ScrolledToBottom(offset, clientSize, scrollSize)),
                            rangeChange)
      ensures var k := KeptOffsetIndex(old(lastLength), keepOffset, |modelValue|);
        && (k.Some? ==> scrollTo == Some(IndexRequest(virtual.Geometry(), k.value, startOffset)))
        && (k.None? ==> scrollTo == None)
      ensures lastLength == if old(lastLength) != 0 && keepOffset then 0 else old(lastLength)
    {
      ghost var range0, engine0, mark0 := range, virtual.range, dndRangeChanged;
      modelValue := value.GetOr([]);
      uniqueKeys := KeysOf(modelValue, dataKey);
      virtual.Option(UniqueKeysSetting(uniqueKeys));
      dndList := modelValue;
      ghost var g := ListChangeRange(range0, |lastList|, |modelValue|, keeps, ScrolledToBottom(offset, clientSize, scrollSize));
      rangeChange := DetectRangeUpdate(offset, clientSize, scrollSize);
      assert WindowFollows(range0, engine0, mark0, g, rangeChange);
      scrollTo := KeepOffset(startOffset);
      lastList := modelValue;
    }

    /** The part of `writeValue` that scrolls back to the kept offset after a load at the top. */
    method KeepOffset(startOffset: int) returns (scrollTo: Option<ScrollRequest>)
      modifies this`lastLength
      ensures var k := KeptOffsetIndex(old(lastLength), keepOffset, |modelValue|);
        && (k.Some? ==> scrollTo == Some(IndexRequest(virtual.Geometry(), k.value, startOffset)))
        && (k.None? ==> scrollTo == None)
      ensures lastLength == if old(lastLength) != 0 && keepOffset then 0 else old(lastLength)
    {
      scrollTo := None;
      if lastLength != 0 && keepOffset {
        var index := |modelValue| - lastLength;
        if index > 0 {
          var request := virtual.ScrollToIndex(index, startOffset);
          scrollTo := Some(request);
        }
        lastLength := 0;
      }
    }

    /** `onSizeChange`: record a measurement unless it is the chosen item's; recompute once the first screen is measured. */
    method OnSizeChange(key: Value, size: nat) returns (rangeChange: Option<Range>)
      requires Valid()
      modifies virtual`sizes, virtual`mode, virtual`total, virtual`average, virtual`range,
               this`range, this`dndRangeChanged
      ensures Valid()
      ensures LooseEquals(key, chosenKey) ==>
        && virtual.sizes == old(virtual.sizes) && virtual.mode == old(virtual.mode)
        && virtual.total == old(virtual.total) && virtual.average == old(virtual.average)
      ensures !LooseEquals(key, chosenKey) ==>
        && virtual.sizes == old(virtual.sizes)[key := size]
        && virtual.mode == NextMode(old(virtual.mode), size)
        && (!virtual.mode.Fixed? ==> virtual.total == SumValues(virtual.sizes)
                                     && virtual.average == RoundHalfUp(virtual.total, |virtual.sizes|))
        && (virtual.mode.Fixed? ==> virtual.total == old(virtual.total) && virtual.average == old(virtual.average))
      ensures WindowFollows(old(range), old(virtual.range), old(dndRangeChanged),
                            if !LooseEquals(key, chosenKey) && CompletesFirstScreen(|old(virtual.sizes)|, keeps, |modelValue|)
                            then Some(old(range)) else None,
                            rangeChange)
    {
      rangeChange := None;
      if LooseEquals(key, chosenKey) {
        return;
      }
      var stored := |virtual.sizes|;
      var renders := if keeps < |modelValue| then keeps else |modelValue|;
      virtual.OnItemResized(key, size);
      if stored == renders - 1 {
        var emitted := virtual.UpdateRange(Some(range));
        rangeChange := OnUpdate(emitted);
      }
    }

    /** `scrollToKey`: scroll to the first index of the key, and only when it is in the key list. */
    method ScrollToKey(key: Value, startOffset: int) returns (request: Option<ScrollRequest>)
      requires Valid()
      ensures request.Some? <==> key in uniqueKeys
      ensures request.Some? ==> var i := IndexOf(uniqueKeys, key);
        uniqueKeys[i] == key && key !in uniqueKeys[..i]
        && request.value == IndexRequest(virtual.Geometry(), i, startOffset)
    {
      var index := IndexOf(uniqueKeys, key);
      if index > -1 {
        var r := virtual.ScrollToIndex(index, startOffset);
        request := Some(r);
      } else {
        request := None;
      }
    }

    /** `onSortableChoose`: remember the chosen node's `data-key` attribute (`null` when it has none). */
    method OnSortableChoose(attribute: Option<string>)
      modifies this`chosenKey
      ensures chosenKey == if attribute.Some? then Str(attribute.value) else Null
    {
      chosenKey := if attribute.Some? then Str(attribute.value) else Null;
    }

    /** `onSortableUnchoose`: the chosen key becomes the empty string. */
    method OnSortableUnchoose()
      modifies this`chosenKey
      ensures chosenKey == Str("")
    {
      chosenKey := Str("");
    }

    /** `onSortableDrag`: a drag is in progress; the event is passed on unchanged. */
    method OnSortableDrag(event: DragList.ItemEvent) returns (emitted: DragList.ItemEvent)
      modifies this`dragging
      ensures dragging && emitted == event
    {
      dragging := true;
      emitted := event;
    }

    /**
     * `onSortableDrop`: the drag is over; a changed drop replaces the model
     * by the adapter's list (through `writeValue`) and reports it as the new
     * model value. The drop event is passed on in every case.
     */
    method OnSortableDrop(event: DragList.DropEvent, offset: int, clientSize: int, scrollSize: int, startOffset: int)
      returns (modelChange: Option<seq<Value>>, emitted: DragList.DropEvent,
               rangeChange: Option<Range>, scrollTo: Option<ScrollRequest>)
      requires Valid()
      modifies this`dragging, this`modelValue, this`uniqueKeys, this`dndList, this`range, this`dndRangeChanged,
               this`lastLength, this`lastList, virtual`optSize, virtual`keeps, virtual`buffer, virtual`uniqueKeys, virtual`sizes, virtual`range
      ensures Valid() && !dragging && emitted == event
      ensures virtual.optSize == old(virtual.optSize) && virtual.keeps == old(virtual.keeps) && virtual.buffer == old(virtual.buffer)
      ensures dndRangeChanged == old(dndRangeChanged)
      ensures event.changed ==>
        && modelValue == event.list && lastList == event.list && modelChange == Some(event.list)
        && virtual.sizes == Pruned(old(virtual.sizes), KeysOf(event.list, dataKey))
        && WindowFollows(old(range), old(virtual.range), old(dndRangeChanged),
                         ListChangeRange(old(range), |old(lastList)|, |event.list|, keeps,
                                         ScrolledToBottom(offset, clientSize, scrollSize)),
                         rangeChange)
        && (var k := KeptOffsetIndex(old(lastLength), keepOffset, |event.list|);
            && (k.Some? ==> scrollTo == Some(IndexRequest(virtual.Geometry(), k.value, startOffset)))
            && (k.None? ==> scrollTo == None))
        && lastLength == (if old(lastLength) != 0 && keepOffset then 0 else old(lastLength))
      ensures !event.changed ==>
        && modelChange == None && rangeChange == None && scrollTo == None
        && modelValue == old(modelValue) && lastList == old(lastList) && lastLength == old(lastLength)
        && range == old(range) && virtual.range == old(virtual.range) && virtual.sizes == old(virtual.sizes)
    {
      dragging := false;
      modelChange, rangeChange, scrollTo := None, None, None;
      if event.changed {
        rangeChange, scrollTo := WriteValue(Some(event.list), offset, clientSize, scrollSize, startOffset);
        modelChange := Some(modelValue);
      }
      emitted := event;
    }

    /** `onScroll`: forget the remembered length; report which of the debounced top/bottom handlers to trigger. */
    method OnScroll(event: ScrollEvent) returns (toTop: bool, toBottom: bool)
      modifies this`lastLength
      ensures lastLength == 0 && toTop == event.top && toBottom == event.bottom
    {
      lastLength := 0;
      toTop := event.top;
      toBottom := event.bottom;
    }

    /** The debounced `handleToTop` firing: remember how long the list was when the top was reached. */
    method HandleToTopFired()
      modifies this`lastLength
      ensures lastLength == |modelValue|
    {
      lastLength := |modelValue|;
    }

    /** A scroll event of the engine: `handleScroll`, its `onScroll` callback, then `onUpdate` when the window moved. */
    method Scroll(newOffset: int, clientSize: int, scrollSize: int, startOffset: int)
      returns (toTop: bool, toBottom: bool, rangeChange: Option<Range>, ghost scrolled: int)
      requires virtual.mode.Fixed? ==> virtual.mode.size > 0
      modifies virtual`offset, virtual`direction, virtual`range, this`lastLength, this`range, this`dndRangeChanged
      ensures lastLength == 0 && virtual.offset == newOffset
      ensures virtual.direction == Classify(old(virtual.offset), newOffset)
      ensures dndRangeChanged == (old(dndRangeChanged) || (dragging && range.start != old(range.start)))
      ensures toTop <==> virtual.direction == Front && newOffset <= 0
      ensures toBottom <==> virtual.direction == Behind && clientSize + newOffset >= scrollSize
      ensures virtual.range == old(virtual.range) || virtual.range.start != old(virtual.range.start)
      ensures virtual.range == old(virtual.range) ==> range == old(range) && rangeChange == None
      ensures virtual.range.start != old(virtual.range.start) ==>
        && range == virtual.range
        && rangeChange == (if range.start != old(range.start) then Some(range) else None)
      ensures virtual.direction == Stationary ==> virtual.range == old(virtual.range)
      ensures virtual.direction != Stationary ==> ScrolledIndex(virtual.Geometry(), newOffset - startOffset, scrolled)
      ensures virtual.direction == Front ==> (virtual.range ==
        if scrolled > old(virtual.range.start) then old(virtual.range)
        else var s := if scrolled - virtual.buffer > 0 then scrolled - virtual.buffer else 0;
          var u := ClampedUpdate(virtual.Geometry(), old(virtual.range.start), s, EndByStart(virtual.Geometry(), s));
          if u.Some? then u.value else old(virtual.range))
      ensures virtual.direction == Behind ==> (virtual.range ==
        if scrolled < old(virtual.range.start) + virtual.buffer then old(virtual.range)
        else var u := ClampedUpdate(virtual.Geometry(), old(virtual.range.start), scrolled, EndByStart(virtual.Geometry(), scrolled));
          if u.Some? then u.value else old(virtual.range))
    {
      var event, update;
      event, update, scrolled := virtual.HandleScroll(newOffset, clientSize, scrollSize, startOffset);
      toTop, toBottom := OnScroll(event);
      rangeChange := None;
      if update.Some? {
        rangeChange := OnUpdate(update.value);
      }
    }
  }
}
