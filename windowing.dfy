/**
 * The windowing engine (`Virtual`): per-key measured sizes, the one-way
 * sizing-mode machine, prefix-sum offsets, the bisection from a scroll
 * offset to an item index, and the clamped `[start, end]` window with its
 * `front`/`behind` spacer sizes.
 *
 * The DOM is not modelled: the viewport's scroll offset, client size and
 * scroll size, and the offset at which the list starts inside the scroller,
 * are parameters of the methods that read them, and a programmatic scroll
 * is returned as a `ScrollRequest` instead of being written to the element.
 * The `onScroll` and `onUpdate` callbacks are the methods' results.
 */
module Windowing {
  import opened Wrappers
  import opened JsValues

  /** `calcType` together with `calcSize.fixed` (0 while INIT, undefined once DYNAMIC). */
  datatype CalcMode = Init | Fixed(size: nat) | Dynamic

  datatype Direction = Front | Behind | Stationary

  datatype Range = Range(start: int, end: int, front: int, behind: int)

  datatype ScrollEvent = ScrollEvent(top: bool, bottom: bool, offset: int, direction: Direction)

  /**
   * Which estimate an unmeasured item gets outside FIXED mode: `virtual.ts`
   * prefers the configured `size` over the running average, the copy inside
   * the list component prefers the average.
   */
  datatype SizeFallback = OptionSizeFirst | AverageFirst

  /** The options `option(key, value)` can change; scroller, direction and the rate-limit times only rewire the DOM. */
  datatype Setting =
    | SizeSetting(size: nat)
    | KeepsSetting(keeps: nat)
    | BufferSetting(buffer: nat)
    | UniqueKeysSetting(keys: seq<Value>)
    | ViewportSetting

  datatype ScrollRequest = ToBottom | ToOffset(offset: int)

  datatype Window = Window(start: int, end: int)

  /** What the offset and range arithmetic reads: keys, stored sizes, mode, the estimate for unmeasured items, `keeps`. */
  datatype Layout = Layout(keys: seq<Value>, sizes: map<Value, nat>, mode: CalcMode, est: nat, keeps: nat)

  // ---------------------------------------------------------------- sizing mode

  /** The mode after one measurement of `size`. */
  function NextMode(m: CalcMode, size: nat): CalcMode {
    match m
    case Init => Fixed(size)
    case Fixed(f) => if f != size then Dynamic else m
    case Dynamic => Dynamic
  }

  /** The mode after a series of measurements. */
  function ModeAfter(m: CalcMode, measured: seq<nat>): CalcMode
    decreases |measured|
  {
    if measured == [] then m else ModeAfter(NextMode(m, measured[0]), measured[1..])
  }

  /** No measurement leads back to INIT, and DYNAMIC is never left. */
  lemma NextModeIsOneWay(m: CalcMode, size: nat)
    ensures !NextMode(m, size).Init?
    ensures m.Dynamic? ==> NextMode(m, size).Dynamic?
    ensures NextMode(m, size).Fixed? ==> NextMode(m, size) == Fixed(size)
  {
  }

  lemma {:induction false} DynamicIsFinal(measured: seq<nat>)
    ensures ModeAfter(Dynamic, measured) == Dynamic
    decreases |measured|
  {
    if measured != [] { DynamicIsFinal(measured[1..]); }
  }

  lemma {:induction false} FixedRun(f: nat, measured: seq<nat>)
    ensures ModeAfter(Fixed(f), measured)
      == if forall i :: 0 <= i < |measured| ==> measured[i] == f then Fixed(f) else Dynamic
    decreases |measured|
  {
    if measured != [] {
      if measured[0] == f {
        FixedRun(f, measured[1..]);
        assert (forall i :: 0 <= i < |measured| ==> measured[i] == f)
          <==> (forall i :: 0 <= i < |measured[1..]| ==> measured[1..][i] == f);
      } else {
        DynamicIsFinal(measured[1..]);
      }
    }
  }

  /**
   * From INIT, the list stays FIXED at the first measured size exactly as long
   * as every measurement equals it; one differing measurement makes it DYNAMIC.
   */
  lemma ModeAfterMeasurements(measured: seq<nat>)
    requires measured != []
    ensures ModeAfter(Init, measured)
      == if forall i :: 0 <= i < |measured| ==> measured[i] == measured[0] then Fixed(measured[0]) else Dynamic
  {
    FixedRun(measured[0], measured[1..]);
    assert (forall i :: 0 <= i < |measured| ==> measured[i] == measured[0])
      <==> (forall i :: 0 <= i < |measured[1..]| ==> measured[1..][i] == measured[0]);
  }

  /** `getItemSize`: the fixed size in FIXED mode, else the configured size and the average in the copy's order of precedence. */
  function EstimatedSize(mode: CalcMode, average: nat, optSize: nat, fallback: SizeFallback): nat {
    match mode
    case Fixed(f) => f
    case _ =>
      match fallback
      case OptionSizeFirst => if optSize != 0 then optSize else average
      case AverageFirst => if average != 0 then average else optSize
  }

  /** The two copies disagree exactly when both a configured size and a different nonzero average exist. */
  lemma FallbackPrecedenceDiffers(mode: CalcMode, average: nat, optSize: nat)
    requires !mode.Fixed?
    ensures EstimatedSize(mode, average, optSize, OptionSizeFirst) != EstimatedSize(mode, average, optSize, AverageFirst)
      <==> optSize != 0 && average != 0 && optSize != average
  {
  }

  // ---------------------------------------------------------------- sizes and totals

  lemma RemoveShrinks(m: map<Value, nat>, k: Value)
    requires k in m
    ensures |m - {k}| == |m| - 1
  {
    assert m.Keys == (m - {k}).Keys + {k};
  }

  /** The sum of all stored sizes. */
  ghost function SumValues(m: map<Value, nat>): nat
    decreases |m|
  {
    if m == map[] then 0
    else
      var k :| k in m;
      RemoveShrinks(m, k);
      m[k] + SumValues(m - {k})
  }

  /** The sum does not depend on which entry is taken out first. */
  lemma {:induction false} SumValuesRemove(m: map<Value, nat>, k: Value)
    requires k in m
    ensures SumValues(m) == m[k] + SumValues(m - {k})
    decreases |m|
  {
    var x :| x in m && SumValues(m) == m[x] + SumValues(m - {x});
    if x != k {
      RemoveShrinks(m, x);
      RemoveShrinks(m, k);
      var mx, mk := m - {x}, m - {k};
      assert k in mx && x in mk;
      SumValuesRemove(mx, k);
      SumValuesRemove(mk, x);
      assert mx - {k} == mk - {x};
    }
  }

  /** `Math.round(total / count)` for non-negative totals: the nearest integer, halves rounded up. */
  function RoundHalfUp(total: nat, count: nat): (r: nat)
    requires count > 0
    ensures count * (2 * r - 1) <= 2 * total < count * (2 * r + 1)
  {
    var r := (2 * total + count) / (2 * count);
    assert 2 * count * r <= 2 * total + count < 2 * count * (r + 1);
    r
  }

  // ---------------------------------------------------------------- offsets

  /** `uniqueKeys[i]`, which is `undefined` past the end. */
  function KeyAt(keys: seq<Value>, i: int): Value {
    if 0 <= i < |keys| then keys[i] else Undefined
  }

  /** The size `getOffsetByIndex` adds for index `i`: the stored one, else the estimate. */
  function SizeAt(l: Layout, i: int): nat {
    var k := KeyAt(l.keys, i);
    if k in l.sizes then l.sizes[k] else l.est
  }

  /** `getOffsetByIndex(i)`: the summed sizes of the items before index `i`. */
  function PrefixOffset(l: Layout, i: int): nat
    decreases i
  {
    if i <= 0 then 0 else PrefixOffset(l, i - 1) + SizeAt(l, i - 1)
  }

  lemma {:induction false} PrefixMonotone(l: Layout, i: int, j: int)
    requires i <= j
    ensures PrefixOffset(l, i) <= PrefixOffset(l, j)
    decreases j - i
  {
    if i < j { PrefixMonotone(l, i, j - 1); }
  }

  /** Every item has a positive size, measured or estimated. */
  ghost predicate PositiveSizes(l: Layout) {
    l.est > 0 && forall k :: k in l.sizes ==> l.sizes[k] > 0
  }

  lemma {:induction false} PrefixStrict(l: Layout, i: int, j: int)
    requires PositiveSizes(l) && 0 <= i < j
    ensures PrefixOffset(l, i) < PrefixOffset(l, j)
    decreases j - i
  {
    if i < j - 1 { PrefixStrict(l, i, j - 1); }
  }

  /** Every stored size and the estimate equal `f`: the invariant of FIXED mode. */
  ghost predicate Uniform(l: Layout, f: nat) {
    l.est == f && forall k :: k in l.sizes ==> l.sizes[k] == f
  }

  /** With uniform sizes the prefix sum is `f * i`, which is what FIXED mode computes in O(1). */
  lemma {:induction false} PrefixUniform(l: Layout, f: nat, i: nat)
    requires Uniform(l, f)
    ensures PrefixOffset(l, i) == f * i
  {
    if i > 0 { PrefixUniform(l, f, i - 1); }
  }

  // ---------------------------------------------------------------- the scrolled index

  /**
   * What the bisection of `getScrollItems` returns for a positive offset: an
   * index in `0..|keys|` whose prefix offset is the offset itself, or the
   * largest index whose prefix offset is below it.
   */
  ghost predicate IsScrollIndex(l: Layout, off: int, r: int) {
    && 0 <= r <= |l.keys|
    && (PrefixOffset(l, r) == off
        || (PrefixOffset(l, r) < off && forall j :: r < j <= |l.keys| ==> PrefixOffset(l, j) > off))
  }

  /** `getScrollItems` for a start-adjusted offset `off`. */
  ghost predicate ScrolledIndex(l: Layout, off: int, r: int) {
    && (off <= 0 ==> r == 0)
    && (off > 0 && l.mode.Fixed? ==> l.mode.size > 0 && r == off / l.mode.size)
    && (off > 0 && !l.mode.Fixed? ==> IsScrollIndex(l, off, r))
  }

  /**
   * When every item has a positive size, the scrolled index is the item the
   * offset falls into: its prefix offset is at most the offset, and the next
   * one is beyond it.
   */
  lemma ScrollIndexBrackets(l: Layout, off: int, r: int)
    requires PositiveSizes(l) && IsScrollIndex(l, off, r)
    ensures PrefixOffset(l, r) <= off
    ensures r < |l.keys| ==> off < PrefixOffset(l, r + 1)
  {
    if r < |l.keys| && PrefixOffset(l, r) == off {
      PrefixStrict(l, r, r + 1);
    }
  }

  /** ... and then the bisection's answer is the only one. */
  lemma ScrollIndexUnique(l: Layout, off: int, r1: int, r2: int)
    requires PositiveSizes(l) && IsScrollIndex(l, off, r1) && IsScrollIndex(l, off, r2)
    ensures r1 == r2
  {
    if r1 < r2 {
      ScrollIndexBrackets(l, off, r1);
      PrefixMonotone(l, r1 + 1, r2);
      ScrollIndexBrackets(l, off, r2);
    } else if r2 < r1 {
      ScrollIndexBrackets(l, off, r2);
      PrefixMonotone(l, r2 + 1, r1);
      ScrollIndexBrackets(l, off, r1);
    }
  }

  /** FIXED mode's `floor(offset / fixed)` is the answer the bisection specifies, within the list. */
  lemma FixedIndexAgrees(l: Layout, f: nat, off: int)
    requires Uniform(l, f) && f > 0 && off > 0 && off / f <= |l.keys|
    ensures IsScrollIndex(l, off, off / f)
  {
    var r := off / f;
    PrefixUniform(l, f, r);
    DivBounds(off, f);
    forall j | r < j <= |l.keys| ensures PrefixOffset(l, j) > off {
      PrefixUniform(l, f, j);
      MulMono(f, r + 1, j);
    }
  }

  lemma DivBounds(a: int, f: int)
    requires f > 0
    ensures f * (a / f) <= a < f * (a / f + 1)
  {
    assert a == f * (a / f) + a % f;
  }

  lemma MulMono(f: nat, a: int, b: int)
    requires a <= b
    ensures f * a <= f * b
  {
    assert f * b - f * a == f * (b - a);
  }

  // ---------------------------------------------------------------- the window

  /** `getLastIndex`: the last key's index, or `keeps - 1` when there are no keys. */
  function LastIndex(l: Layout): int {
    if |l.keys| > 0 then |l.keys| - 1 else l.keeps - 1
  }

  /** `getEndByStart`. */
  function EndByStart(l: Layout, start: int): int {
    if start + l.keeps - 1 < LastIndex(l) then start + l.keeps - 1 else LastIndex(l)
  }

  /** The window `checkIfUpdate` settles on for a proposed `[start, end]`. */
  function Clamp(l: Layout, start: int, end: int): Window {
    if |l.keys| <= l.keeps then Window(0, LastIndex(l))
    else if end - start < l.keeps - 1 then Window(end - l.keeps + 1, end)
    else Window(start, end)
  }

  /** `getFrontOffset`: the estimated extent of the items before `start`. */
  function FrontOffset(l: Layout, start: int): int {
    if l.mode.Fixed? then l.mode.size * start else PrefixOffset(l, start)
  }

  /** `getBehindOffset`: the estimated extent of the items after `end`. */
  function BehindOffset(l: Layout, end: int): int {
    (LastIndex(l) - end) * (if l.mode.Fixed? then l.mode.size else l.est)
  }

  /** The range `handleUpdate(start, end)` stores and emits. */
  function Spaced(l: Layout, start: int, end: int): Range {
    Range(start, end, FrontOffset(l, start), BehindOffset(l, end))
  }

  /** What `checkIfUpdate(start, end)` emits when the current range starts at `current`. */
  function ClampedUpdate(l: Layout, current: int, start: int, end: int): Option<Range> {
    var w := Clamp(l, start, end);
    if w.start == current then None else Some(Spaced(l, w.start, w.end))
  }

  /**
   * The window invariant: for any non-negative start and the end derived
   * from it, the clamped window is non-empty and ordered; a list no longer
   * than `keeps` is shown whole, a longer one exactly `keeps` items at a time
   * without running past its last item.
   */
  lemma WindowShape(l: Layout, start: int)
    requires l.keeps >= 1 && 0 <= start
    ensures var w := Clamp(l, start, EndByStart(l, start));
      && 0 <= w.start <= w.end
      && (|l.keys| <= l.keeps ==> w == Window(0, LastIndex(l)))
      && (|l.keys| > l.keeps ==> w.end - w.start + 1 == l.keeps && w.end <= |l.keys| - 1)
  {
  }

  /** Clamping a clamped window changes nothing, so a repeated `checkIfUpdate` emits nothing. */
  lemma ClampIdempotent(l: Layout, start: int, end: int)
    ensures var w := Clamp(l, start, end);
      Clamp(l, w.start, w.end) == w && ClampedUpdate(l, w.start, w.start, w.end) == None
  {
  }

  /** In FIXED mode the front spacer `fixed * start` equals the prefix offset of `start`. */
  lemma FixedFrontAgrees(l: Layout, start: nat)
    requires l.mode.Fixed? && Uniform(l, l.mode.size)
    ensures FrontOffset(l, start) == PrefixOffset(l, start)
  {
    PrefixUniform(l, l.mode.size, start);
  }

  /** The scroll direction from the previous and the new offset. */
  function Classify(previous: int, current: int): (d: Direction)
    ensures d == Stationary <==> current == previous
    ensures d == Front <==> current < previous
    ensures d == Behind <==> current > previous
  {
    if current == previous then Stationary
    else if current < previous then Front
    else Behind
  }

  /** The size map after `option('uniqueKeys', keys)`: exactly the entries whose key is still listed. */
  function Pruned(m: map<Value, nat>, keys: seq<Value>): (r: map<Value, nat>)
    ensures r.Keys == m.Keys - (m.Keys - set k | k in keys)
    ensures forall k :: k in r ==> r[k] == m[k]
  {
    map k | k in m && k in keys :: m[k]
  }

  // ---------------------------------------------------------------- the engine

  class Virtual {
    const fallback: SizeFallback
    var optSize: nat
    var keeps: nat
    var buffer: nat
    var uniqueKeys: seq<Value>

    var sizes: map<Value, nat>
    var range: Range
    var offset: int
    var mode: CalcMode
    var total: nat
    var average: nat
    var direction: Direction

    /** Nothing is stored before the first measurement, and FIXED mode means every stored size is the fixed one. */
    ghost predicate Valid()
      reads this
    {
      && (mode.Init? ==> sizes == map[])
      && (mode.Fixed? ==> forall k :: k in sizes ==> sizes[k] == mode.size)
    }

    function GetItemSize(): nat
      reads this
    {
      EstimatedSize(mode, average, optSize, fallback)
    }

    function Geometry(): Layout
      reads this
    {
      Layout(uniqueKeys, sizes, mode, GetItemSize(), keeps)
    }

    lemma FixedIsUniform()
      requires Valid() && mode.Fixed?
      ensures Uniform(Geometry(), mode.size)
    {
    }

    constructor (fallback: SizeFallback, size: nat, keeps: nat, buffer: nat, uniqueKeys: seq<Value>)
      ensures Valid()
      ensures this.fallback == fallback && optSize == size && this.keeps == keeps
      ensures this.buffer == buffer && this.uniqueKeys == uniqueKeys
      ensures sizes == map[] && mode == Init && total == 0 && average == 0
      ensures range == Range(0, 0, 0, 0) && offset == 0 && direction == Stationary
    {
      this.fallback := fallback;
      optSize := size;
      this.keeps := keeps;
      this.buffer := buffer;
      this.uniqueKeys := uniqueKeys;
      sizes := map[];
      range := Range(0, 0, 0, 0);
      offset := 0;
      mode := Init;
      total := 0;
      average := 0;
      direction := Stationary;
      new;
      var _ := CheckIfUpdate(0, keeps - 1);
    }

    /** `getSize(key)`: a stored nonzero size, else the estimate (a stored 0 falls back, through `||`). */
    function GetSize(key: Value): (r: nat)
      reads this
      ensures key in sizes && sizes[key] != 0 ==> r == sizes[key]
      ensures key !in sizes || sizes[key] == 0 ==> r == GetItemSize()
    {
      if key in sizes && sizes[key] != 0 then sizes[key] else GetItemSize()
    }

    /**
     * `getSize` and the size `getOffsetByIndex` adds for an item agree,
     * except on a stored 0: `getOffsetByIndex` counts it as 0 (`typeof`),
     * `getSize` falls back to the estimate (`||`).
     */
    lemma GetSizeAgreesWithOffsetSize(i: int)
      requires 0 <= i < |uniqueKeys|
      ensures !(uniqueKeys[i] in sizes && sizes[uniqueKeys[i]] == 0) ==> GetSize(uniqueKeys[i]) == SizeAt(Geometry(), i)
      ensures uniqueKeys[i] in sizes && sizes[uniqueKeys[i]] == 0 ==>
        SizeAt(Geometry(), i) == 0 && GetSize(uniqueKeys[i]) == GetItemSize()
    {
    }

    /** The summed stored sizes, as the `reduce` over `sizes.values()`. */
    method TotalSize() returns (t: nat)
      ensures t == SumValues(sizes)
    {
      var rest := sizes;
      t := 0;
      while rest != map[]
        invariant t + SumValues(rest) == SumValues(sizes)
        decreases |rest|
      {
        var k :| k in rest;
        SumValuesRemove(rest, k);
        assert |rest - {k}| < |rest| by { assert rest.Keys == (rest - {k}).Keys + {k}; }
        t := t + rest[k];
        rest := rest - {k};
      }
    }

    /** `onItemResized` (`handleItemSizeChange` in the component's copy). */
    method OnItemResized(key: Value, size: nat)
      requires Valid()
      modifies this`sizes, this`mode, this`total, this`average
      ensures Valid()
      ensures sizes == old(sizes)[key := size]
      ensures mode == NextMode(old(mode), size)
      ensures !mode.Fixed? ==> total == SumValues(sizes) && average == RoundHalfUp(total, |sizes|)
      ensures mode.Fixed? ==> total == old(total) && average == old(average)
    {
      sizes := sizes[key := size];
      if mode.Init? {
        mode := Fixed(size);
      } else if mode.Fixed? && mode.size != size {
        mode := Dynamic;
      }
      if !mode.Fixed? {
        total := TotalSize();
        assert key in sizes;
        average := RoundHalfUp(total, |sizes|);
      }
    }

    /** `getOffsetByIndex(index)`. */
    method GetOffsetByIndex(index: int) returns (r: nat)
      ensures r == PrefixOffset(Geometry(), index)
    {
      if index <= 0 {
        return 0;
      }
      r := 0;
      for i := 0 to index
        invariant r == PrefixOffset(Geometry(), i)
      {
        var k := KeyAt(uniqueKeys, i);
        r := r + (if k in sizes then sizes[k] else GetItemSize());
      }
    }

    /** `getScrollItems`: the item index at the current offset, less the list's start offset. */
    method GetScrollItems(startOffset: int) returns (r: int)
      requires mode.Fixed? ==> mode.size > 0
      ensures ScrolledIndex(Geometry(), offset - startOffset, r)
    {
      var off := offset - startOffset;
      if off <= 0 {
        return 0;
      }
      if mode.Fixed? {
        return off / mode.size;
      }
      ghost var l := Geometry();
      var low, high := 0, |uniqueKeys|;
      while low <= high
        invariant 0 <= low <= high + 1 <= |uniqueKeys| + 1
        invariant forall i :: 0 <= i < low ==> PrefixOffset(l, i) < off
        invariant forall i :: high < i <= |uniqueKeys| ==> PrefixOffset(l, i) > off
        decreases high - low + 1
      {
        var middle := low + (high - low) / 2;
        var middleOffset := GetOffsetByIndex(middle);
        if middleOffset == off {
          return middle;
        } else if middleOffset < off {
          forall i | 0 <= i <= middle ensures PrefixOffset(l, i) < off {
            PrefixMonotone(l, i, middle);
          }
          low := middle + 1;
        } else {
          forall i | middle <= i <= |uniqueKeys| ensures PrefixOffset(l, i) > off {
            PrefixMonotone(l, middle, i);
          }
          high := middle - 1;
        }
      }
      r := if low > 0 then low - 1 else 0;
    }

    /** `handleUpdate(start, end)`: store the window with its spacers and emit it. */
    method HandleUpdate(start: int, end: int) returns (emitted: Range)
      modifies this`range
      ensures range == emitted == Spaced(Geometry(), start, end)
    {
      range := range.(start := start, end := end);
      var front: int;
      if mode.Fixed? {
        front := mode.size * range.start;
      } else {
        front := GetOffsetByIndex(range.start);
      }
      var last := if |uniqueKeys| > 0 then |uniqueKeys| - 1 else keeps - 1;
      var behind := if mode.Fixed? then (last - range.end) * mode.size else (last - range.end) * GetItemSize();
      range := range.(front := front, behind := behind);
      emitted := range;
    }

    /** `checkIfUpdate(start, end)`: clamp the window and update only when its start moves. */
    method CheckIfUpdate(start: int, end: int) returns (update: Option<Range>)
      modifies this`range
      ensures update == ClampedUpdate(Geometry(), old(range.start), start, end)
      ensures range == if update.Some? then update.value else old(range)
    {
      var s, e := start, end;
      if |uniqueKeys| <= keeps {
        s := 0;
        e := if |uniqueKeys| > 0 then |uniqueKeys| - 1 else keeps - 1;
      } else if e - s < keeps - 1 {
        s := e - keeps + 1;
      }
      if range.start != s {
        var r := HandleUpdate(s, e);
        update := Some(r);
      } else {
        update := None;
      }
    }

    /** `updateRange(range?)`: adopt a given window, else recompute the end from the current start; always emits. */
    method UpdateRange(given: Option<Range>) returns (emitted: Range)
      modifies this`range
      ensures given.Some? ==> emitted == Spaced(Geometry(), given.value.start, given.value.end)
      ensures given.None? ==> var s := if old(range.start) > 0 then old(range.start) else 0;
        emitted == Spaced(Geometry(), s, EndByStart(Geometry(), s))
      ensures range == emitted
    {
      if given.Some? {
        emitted := HandleUpdate(given.value.start, given.value.end);
        return;
      }
      var start := if range.start > 0 then range.start else 0;
      var last := if |uniqueKeys| > 0 then |uniqueKeys| - 1 else keeps - 1;
      var end := if start + keeps - 1 < last then start + keeps - 1 else last;
      emitted := HandleUpdate(start, end);
    }

    /** `handleScrollFront`. */
    method HandleScrollFront(startOffset: int) returns (update: Option<Range>, ghost scrolled: int)
      requires mode.Fixed? ==> mode.size > 0
      modifies this`range
      ensures ScrolledIndex(Geometry(), offset - startOffset, scrolled)
      ensures update == if scrolled > old(range.start) then None
        else var s := if scrolled - buffer > 0 then scrolled - buffer else 0;
          ClampedUpdate(Geometry(), old(range.start), s, EndByStart(Geometry(), s))
      ensures range == if update.Some? then update.value else old(range)
    {
      var scrolls := GetScrollItems(startOffset);
      scrolled := scrolls;
      if scrolls > range.start {
        return None, scrolled;
      }
      var start := if scrolls - buffer > 0 then scrolls - buffer else 0;
      var last := if |uniqueKeys| > 0 then |uniqueKeys| - 1 else keeps - 1;
      var end := if start + keeps - 1 < last then start + keeps - 1 else last;
      update := CheckIfUpdate(start, end);
    }

    /** `handleScrollBehind`. */
    method HandleScrollBehind(startOffset: int) returns (update: Option<Range>, ghost scrolled: int)
      requires mode.Fixed? ==> mode.size > 0
      modifies this`range
      ensures ScrolledIndex(Geometry(), offset - startOffset, scrolled)
      ensures update == if scrolled < old(range.start) + buffer then None
        else ClampedUpdate(Geometry(), old(range.start), scrolled, EndByStart(Geometry(), scrolled))
      ensures range == if update.Some? then update.value else old(range)
    {
      var scrolls := GetScrollItems(startOffset);
      scrolled := scrolls;
      if scrolls < range.start + buffer {
        return None, scrolled;
      }
      var last := if |uniqueKeys| > 0 then |uniqueKeys| - 1 else keeps - 1;
      var end := if scrolls + keeps - 1 < last then scrolls + keeps - 1 else last;
      update := CheckIfUpdate(scrolls, end);
    }

    /**
     * `handleScroll` for a viewport now at `newOffset`: classify the
     * direction, report top/bottom, and move the window when the scrolled
     * index leaves the buffer zone.
     */
    method HandleScroll(newOffset: int, clientSize: int, scrollSize: int, startOffset: int)
      returns (event: ScrollEvent, update: Option<Range>, ghost scrolled: int)
      requires mode.Fixed? ==> mode.size > 0
      modifies this`offset, this`direction, this`range
      ensures direction == Classify(old(offset), newOffset) && offset == newOffset
      ensures event == ScrollEvent(direction == Front && newOffset <= 0,
                                   direction == Behind && clientSize + newOffset >= scrollSize,
                                   newOffset, direction)
      ensures direction == Stationary ==> update == None
      ensures direction != Stationary ==> ScrolledIndex(Geometry(), newOffset - startOffset, scrolled)
      ensures direction == Front ==> update == if scrolled > old(range.start) then None
        else var s := if scrolled - buffer > 0 then scrolled - buffer else 0;
          ClampedUpdate(Geometry(), old(range.start), s, EndByStart(Geometry(), s))
      ensures direction == Behind ==> update == if scrolled < old(range.start) + buffer then None
        else ClampedUpdate(Geometry(), old(range.start), scrolled, EndByStart(Geometry(), scrolled))
      ensures range == if update.Some? then update.value else old(range)
    {
      if newOffset == offset {
        direction := Stationary;
      } else {
        direction := if newOffset < offset then Front else Behind;
      }
      offset := newOffset;
      var top := direction == Front && newOffset <= 0;
      var bottom := direction == Behind && clientSize + newOffset >= scrollSize;
      event := ScrollEvent(top, bottom, newOffset, direction);
      scrolled := 0;
      update := None;
      if direction == Front {
        update, scrolled := HandleScrollFront(startOffset);
      } else if direction == Behind {
        update, scrolled := HandleScrollBehind(startOffset);
      }
    }

    /** `option(key, value)` (`updateOptions` in the component's copy). */
    method Option(setting: Setting)
      requires Valid()
      modifies this`optSize, this`keeps, this`buffer, this`uniqueKeys, this`sizes
      ensures Valid()
      ensures setting.SizeSetting? ==> optSize == setting.size && unchanged(this`keeps, this`buffer, this`uniqueKeys, this`sizes)
      ensures setting.KeepsSetting? ==> keeps == setting.keeps && unchanged(this`optSize, this`buffer, this`uniqueKeys, this`sizes)
      ensures setting.BufferSetting? ==> buffer == setting.buffer && unchanged(this`optSize, this`keeps, this`uniqueKeys, this`sizes)
      ensures setting.UniqueKeysSetting? ==>
        uniqueKeys == setting.keys && sizes == Pruned(old(sizes), setting.keys)
        && unchanged(this`optSize, this`keeps, this`buffer)
      ensures setting.ViewportSetting? ==> unchanged(this`optSize, this`keeps, this`buffer, this`uniqueKeys, this`sizes)
    {
      match setting
      case SizeSetting(n) => optSize := n;
      case KeepsSetting(n) => keeps := n;
      case BufferSetting(n) => buffer := n;
      case ViewportSetting =>
      case UniqueKeysSetting(ks) =>
        uniqueKeys := ks;
        var rest := sizes.Keys;
        while rest != {}
          invariant rest <= old(sizes).Keys
          invariant uniqueKeys == ks && unchanged(this`optSize, this`keeps, this`buffer)
          invariant sizes == map k | k in old(sizes) && (k in rest || k in ks) :: old(sizes)[k]
          decreases rest
        {
          var k :| k in rest;
          if k !in ks {
            sizes := sizes - {k};
          }
          rest := rest - {k};
        }
        assert sizes == Pruned(old(sizes), ks);
    }

    /** `scrollToIndex(index)`: from the last item on scroll to the bottom, else to the item's offset. */
    method ScrollToIndex(index: int, startOffset: int) returns (request: ScrollRequest)
      ensures index >= |uniqueKeys| - 1 ==> request == ToBottom
      ensures index < |uniqueKeys| - 1 ==> request == ToOffset(PrefixOffset(Geometry(), index) + startOffset)
    {
      if index >= |uniqueKeys| - 1 {
        request := ToBottom;
      } else {
        var indexOffset := GetOffsetByIndex(index);
        request := ToOffset(indexOffset + startOffset);
      }
    }
  }

  /** The condition on which `scrollToBottom` tries again after 5 ms: not yet within one pixel of the end. */
  predicate BottomNotReached(offset: int, clientSize: int, scrollSize: int) {
    offset + clientSize + 1 < scrollSize
  }
}
