/**
 * The drag-list adapter (`Sortable` in the list component): a shadow copy
 * of the backing list, edited in place by the drag gesture's callbacks and
 * located by item key rather than by mounted position, plus the "store"
 * that records where the dragged item came from and went to.
 *
 * The gesture library is not modelled: what its callbacks carry (the
 * `data-key` attributes of the dragged and target nodes, `relative`,
 * `revertDrag`, `backToOrigin`, whether `from` and `to` are one container)
 * and the stores of the other containers are parameters.
 */
module DragList {
  import opened Wrappers
  import opened JsValues
  import opened ArrayOps
  import opened DataKey

  /** The index part of the store's `{index, list}` records. */
  datatype Pos = Pos(index: int)

  /** The store; a field that was never assigned is None. */
  datatype Store = Store(item: Option<Value>, key: Option<string>, origin: Option<Pos>, from: Option<Pos>, to: Option<Pos>)

  const EmptyStore: Store := Store(None, None, None, None, None)

  /** The `onDrag`, `onRemove` and `onAdd` callbacks' payload. */
  datatype ItemEvent = ItemEvent(item: Value, key: Option<string>, index: int)

  /** The `onDrop` callback's payload. */
  datatype DropEvent = DropEvent(changed: bool, list: seq<Value>, item: Option<Value>, key: Option<string>, from: Option<Pos>, to: Option<Pos>)

  /** The settings `option(key, value)` distinguishes; every other key goes to the gesture library. */
  datatype SortableSetting = ListSetting(list: seq<Value>) | ReRenderedSetting(reRendered: bool) | GestureSetting

  /** The item's key, resolved with the key path, loosely equals the attribute string. */
  predicate HasKey(item: Value, path: KeyPath, key: string) {
    LooseEquals(GetDataKey(item, path), Str(key))
  }

  /** `getIndex(list, key)`: the first item whose key loosely equals `key`, or -1. */
  function KeyIndex(list: seq<Value>, path: KeyPath, key: string): (r: int)
    ensures -1 <= r < |list|
    ensures r >= 0 ==> HasKey(list[r], path, key) && forall j :: 0 <= j < r ==> !HasKey(list[j], path, key)
    ensures r == -1 ==> forall j :: 0 <= j < |list| ==> !HasKey(list[j], path, key)
  {
    FirstIndex(list, v => HasKey(v, path, key))
  }

  /** `list[index]`: `undefined` outside the array. */
  function ItemAt(list: seq<Value>, i: int): Value {
    if 0 <= i < |list| then list[i] else Undefined
  }

  /** The target index of a same-container move, nudged by one only on a drag back towards the origin. */
  function TargetIndex(toIndex: int, relative: int, backToOrigin: bool, storeFrom: Option<Pos>): (r: int)
    requires backToOrigin && (relative == 1 || relative == -1) ==> storeFrom.Some?
    ensures r != toIndex ==> backToOrigin && storeFrom.Some?
    ensures r == toIndex - 1 <==> backToOrigin && relative == 1 && storeFrom.value.index < toIndex
    ensures r == toIndex + 1 <==> backToOrigin && relative == -1 && storeFrom.value.index > toIndex
  {
    var t := if backToOrigin && relative == 1 && storeFrom.value.index < toIndex then toIndex - 1 else toIndex;
    if backToOrigin && relative == -1 && storeFrom.value.index > t then t + 1 else t
  }

  /** `changed` of a drop: the item changed container, or its final index differs from where it started. */
  function DropChanged(sameContainer: bool, fromStore: Store, toStore: Store): bool
    requires sameContainer ==> fromStore.origin.Some? && toStore.to.Some?
  {
    !sameContainer || fromStore.origin.value.index != toStore.to.value.index
  }

  class Sortable {
    const dataKey: KeyPath
    /** `options.list`, the list the adapter was created with. */
    const initialList: seq<Value>
    var list: seq<Value>
    var store: Store
    var reRendered: bool

    constructor (dataKey: KeyPath, list: seq<Value>)
      ensures this.dataKey == dataKey && initialList == list
      ensures this.list == list && store == EmptyStore && !reRendered
    {
      this.dataKey := dataKey;
      initialList := list;
      this.list := list;
      store := EmptyStore;
      reRendered := false;
    }

    /** `option(key, value)`: `list` replaces the shadow copy, `reRendered` sets the flag, nothing else is stored here. */
    method Option(setting: SortableSetting)
      modifies this`list, this`reRendered
      ensures setting.ListSetting? ==> list == setting.list && reRendered == old(reRendered)
      ensures setting.ReRenderedSetting? ==> reRendered == setting.reRendered && list == old(list)
      ensures setting.GestureSetting? ==> list == old(list) && reRendered == old(reRendered)
    {
      match setting
      case ListSetting(l) => list := l;
      case ReRenderedSetting(b) => reRendered := b;
      case GestureSetting =>
    }

    /** `getIndex(list, key)`. */
    method GetIndex(items: seq<Value>, key: string) returns (r: int)
      ensures r == KeyIndex(items, dataKey, key)
    {
      for i := 0 to |items|
        invariant forall j :: 0 <= j < i ==> !HasKey(items[j], dataKey, key)
      {
        if HasKey(items[i], dataKey, key) {
          return i;
        }
      }
      return -1;
    }

    /** `onDrag`: find the dragged item by key and record it as origin, from and to; the list is untouched. */
    method OnDrag(key: string) returns (event: ItemEvent)
      modifies this`store
      ensures var i := KeyIndex(list, dataKey, key);
        && store == Store(Some(ItemAt(list, i)), Some(key), Some(Pos(i)), Some(Pos(i)), Some(Pos(i)))
        && event == ItemEvent(ItemAt(list, i), Some(key), i)
    {
      var index := GetIndex(list, key);
      var item := ItemAt(list, index);
      store := Store(Some(item), Some(key), Some(Pos(index)), Some(Pos(index)), Some(Pos(index)));
      event := ItemEvent(item, Some(key), index);
    }

    /** `onRemove`: the item leaves this container; `splice(index, 1)` with the key's index. */
    method OnRemove(key: string) returns (event: ItemEvent)
      modifies this`list, this`store
      ensures var i := KeyIndex(old(list), dataKey, key);
        && list == Splice(old(list), i, 1, [])
        && store == old(store).(key := Some(key), item := Some(ItemAt(old(list), i)))
        && event == ItemEvent(ItemAt(old(list), i), Some(key), i)
      ensures var i := KeyIndex(old(list), dataKey, key);
        i >= 0 ==> list == old(list)[..i] + old(list)[i + 1..] && |list| == |old(list)| - 1
    {
      var index := GetIndex(list, key);
      var item := ItemAt(list, index);
      if index >= 0 {
        SpliceRemoveAt(list, index);
      }
      list := Splice(list, index, 1, []);
      store := store.(key := Some(key), item := Some(item));
      event := ItemEvent(item, Some(key), index);
    }

    /** `onAdd`: the item arrives from the `from` container's store, and goes in at the target's index (one further when `relative == -1`). */
    method OnAdd(fromStore: Store, targetKey: string, relative: int) returns (event: ItemEvent)
      modifies this`list, this`store
      ensures var t := KeyIndex(old(list), dataKey, targetKey);
        var i := if relative == -1 then t + 1 else t;
        var item := fromStore.item.GetOr(Undefined);
        && list == Splice(old(list), i, 0, [item])
        && store == old(store).(to := Some(Pos(i)))
        && event == ItemEvent(item, fromStore.key, i)
      ensures |list| == |old(list)| + 1
      ensures var t := KeyIndex(old(list), dataKey, targetKey);
        var i := if relative == -1 then t + 1 else t;
        0 <= i <= |old(list)| ==> list == old(list)[..i] + [fromStore.item.GetOr(Undefined)] + old(list)[i..]
    {
      var item := fromStore.item.GetOr(Undefined);
      var index := GetIndex(list, targetKey);
      if relative == -1 {
        index := index + 1;
      }
      if 0 <= index <= |list| {
        SpliceInsertAt(list, index, item);
      }
      list := Splice(list, index, 0, [item]);
      store := store.(to := Some(Pos(index)));
      event := ItemEvent(item, fromStore.key, index);
    }

    /**
     * `onChange`: a move inside the container. A reverted drag restores the
     * initial list and points `from` back at the origin; otherwise the dragged
     * item is taken out at its key's index and put back at the target's.
     */
    method OnChange(fromStore: Store, revertDrag: bool, nodeKey: string, targetKey: string,
                    relative: int, backToOrigin: bool)
      requires !revertDrag && backToOrigin && (relative == 1 || relative == -1) ==> fromStore.from.Some?
      modifies this`list, this`store
      ensures revertDrag ==> list == initialList && store == old(store).(from := fromStore.origin)
      ensures !revertDrag ==>
        var f := KeyIndex(old(list), dataKey, nodeKey);
        var t := TargetIndex(KeyIndex(old(list), dataKey, targetKey), relative, backToOrigin, fromStore.from);
        && list == Splice(Splice(old(list), f, 1, []), t, 0, [ItemAt(old(list), f)])
        && store == old(store).(from := Some(Pos(t)), to := Some(Pos(t)))
      ensures !revertDrag ==>
        var f := KeyIndex(old(list), dataKey, nodeKey);
        var t := TargetIndex(KeyIndex(old(list), dataKey, targetKey), relative, backToOrigin, fromStore.from);
        f >= 0 && 0 <= t < |old(list)| ==>
          |list| == |old(list)| && multiset(list) == multiset(old(list)) && list[t] == old(list)[f]
    {
      if revertDrag {
        list := initialList;
        store := store.(from := fromStore.origin);
        return;
      }
      var fromIndex := GetIndex(list, nodeKey);
      var fromItem := ItemAt(list, fromIndex);
      var toIndex := GetIndex(list, targetKey);
      ghost var targetIndex := toIndex;
      if backToOrigin {
        if relative == 1 && fromStore.from.value.index < toIndex {
          toIndex := toIndex - 1;
        }
        if relative == -1 && fromStore.from.value.index > toIndex {
          toIndex := toIndex + 1;
        }
      }
      assert toIndex == TargetIndex(targetIndex, relative, backToOrigin, fromStore.from);
      ghost var before := list;
      list := Splice(list, fromIndex, 1, []);
      list := Splice(list, toIndex, 0, [fromItem]);
      if fromIndex >= 0 && 0 <= toIndex < |before| {
        MoveKeepsElements(before, fromIndex, toIndex);
      }
      store := store.(from := Some(Pos(toIndex)), to := Some(Pos(toIndex)));
    }

    /**
     * `onDrop`: report the result and clear `reRendered`. `removeDragged` is
     * the clean-up the source does on the dragged node when this container was
     * the source and the window re-rendered during the drag; `removeClone`
     * the clean-up of the clone left by a cross-container drag in clone mode.
     */
    method OnDrop(fromStore: Store, toStore: Store, sameContainer: bool, fromIsThis: bool, pullMode: string)
      returns (event: DropEvent, removeDragged: bool, removeClone: bool)
      requires sameContainer ==> fromStore.origin.Some? && toStore.to.Some?
      modifies this`reRendered
      ensures event == DropEvent(DropChanged(sameContainer, fromStore, toStore), list,
                                 fromStore.item, fromStore.key, fromStore.origin, toStore.to)
      ensures removeDragged == (fromIsThis && old(reRendered))
      ensures removeClone == (!sameContainer && pullMode == "clone")
      ensures !reRendered
    {
      var changed := !sameContainer || fromStore.origin.value.index != toStore.to.value.index;
      event := DropEvent(changed, list, fromStore.item, fromStore.key, fromStore.origin, toStore.to);
      removeDragged := fromIsThis && reRendered;
      removeClone := !sameContainer && pullMode == "clone";
      reRendered := false;
    }
  }

  /**
   * What `onRemove` takes out at an index, `onAdd` puts back at the same
   * index: a drag that leaves and re-enters a container at the same place
   * restores its shadow list.
   */
  lemma RemoveThenAddRestores(list: seq<Value>, i: int)
    requires 0 <= i < |list|
    ensures Splice(Splice(list, i, 1, []), i, 0, [list[i]]) == list
  {
    SpliceRemoveAt(list, i);
    var rest := list[..i] + list[i + 1..];
    SpliceInsertAt(rest, i, list[i]);
    assert rest[..i] == list[..i];
    assert rest[i..] == list[i + 1..];
    assert list == list[..i] + [list[i]] + list[i + 1..];
  }

  /** A key no item carries gives index -1, and `splice(-1, 1)` drops the last item instead. */
  lemma MissingKeyRemovesLast(list: seq<Value>, path: KeyPath, key: string)
    requires list != [] && forall j :: 0 <= j < |list| ==> !HasKey(list[j], path, key)
    ensures Splice(list, KeyIndex(list, path, key), 1, []) == list[..|list| - 1]
  {
    SpliceRemoveMinusOne(list);
  }

  /** An item `{id: <key>}` keyed by the path "id". */
  function Item(id: string): Value {
    Obj(map["id" := Str(id)])
  }

  /**
   * Dragging `a` onto `c` with `relative = 1` in `[a, b, c, d]` gives
   * `[b, c, a, d]`, and the drop reports a change.
   */
  lemma ReorderExample()
    ensures var l := [Item("a"), Item("b"), Item("c"), Item("d")];
      var p := PathString("id");
      var f := KeyIndex(l, p, "a");
      var t := TargetIndex(KeyIndex(l, p, "c"), 1, false, Some(Pos(f)));
      && f == 0 && t == 2
      && Splice(Splice(l, f, 1, []), t, 0, [ItemAt(l, f)]) == [Item("b"), Item("c"), Item("a"), Item("d")]
      && DropChanged(true, Store(None, None, Some(Pos(f)), None, None), Store(None, None, None, None, Some(Pos(t))))
  {
    var l := [Item("a"), Item("b"), Item("c"), Item("d")];
    var p := PathString("id");
    ItemKey("a"); ItemKey("b"); ItemKey("c"); ItemKey("d");
    assert KeyIndex(l, p, "a") == 0;
    assert !HasKey(l[0], p, "c") && !HasKey(l[1], p, "c") && HasKey(l[2], p, "c");
    assert KeyIndex(l, p, "c") == 2;
    SpliceRemoveAt(l, 0);
    SpliceInsertAt(l[1..], 2, l[0]);
  }

  lemma ItemKey(x: string)
    ensures GetDataKey(Item(x), PathString("id")) == Str(x)
  {
    SplitNoDot("id");
    assert Normalize("id") == "id";
    assert Segments(PathString("id")) == ["id"];
  }
}
