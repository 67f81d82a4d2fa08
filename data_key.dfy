/**
 * Key resolution (`getDataKey`): a key path is either a list of property
 * names or one string in dot/bracket notation; the string is tokenised by
 * turning every `[` and `]` into `.` and splitting on `.`, and the item is
 * then walked one property at a time with `(o || {})[k]`.
 */
module DataKey {
  import opened JsValues

  datatype KeyPath =
    | PathString(path: string)
    | PathSegments(segments: seq<string>)

  /** The path string with every bracket replaced by a dot. */
  function Normalize(s: string): (r: string)
    ensures |r| == |s|
    ensures forall i :: 0 <= i < |s| ==> r[i] == (if s[i] == '[' || s[i] == ']' then '.' else s[i])
  {
    if s == [] then []
    else [if s[0] == '[' || s[0] == ']' then '.' else s[0]] + Normalize(s[1..])
  }

  predicate NoDot(t: string) { '.' !in t }

  /** `s.split(".")`: the pieces between dots, empty pieces included. */
  function Split(s: string): (r: seq<string>)
    ensures |r| >= 1
    ensures forall i :: 0 <= i < |r| ==> NoDot(r[i])
  {
    if s == [] then [""]
    else
      var rest := Split(s[1..]);
      if s[0] == '.' then [""] + rest
      else [[s[0]] + rest[0]] + rest[1..]
  }

  /** The segments joined back with dots. */
  function Join(segs: seq<string>): string
    requires |segs| >= 1
  {
    if |segs| == 1 then segs[0] else segs[0] + "." + Join(segs[1..])
  }

  /** Splitting loses nothing: joining the pieces gives the string back. */
  lemma {:induction false} JoinSplit(s: string)
    ensures Join(Split(s)) == s
  {
    if s != [] {
      JoinSplit(s[1..]);
      var rest := Split(s[1..]);
      if s[0] != '.' {
        if |rest| == 1 {
        } else {
          assert [[s[0]] + rest[0]] + rest[1..] == [[s[0]] + rest[0]] + rest[1..];
          assert Join([[s[0]] + rest[0]] + rest[1..]) == [s[0]] + rest[0] + "." + Join(rest[1..]);
        }
        assert s == [s[0]] + s[1..];
      } else {
        assert s == [s[0]] + s[1..];
      }
    }
  }

  /** Splitting is the only way to cut a string into dot-free pieces. */
  lemma {:induction false} SplitJoin(segs: seq<string>)
    requires |segs| >= 1
    requires forall i :: 0 <= i < |segs| ==> NoDot(segs[i])
    ensures Split(Join(segs)) == segs
    decreases |segs|, |segs[0]|
  {
    var s := Join(segs);
    if |segs| == 1 {
      SplitNoDot(segs[0]);
    } else if segs[0] == "" {
      assert s == "." + Join(segs[1..]);
      SplitJoin(segs[1..]);
      assert s[1..] == Join(segs[1..]);
    } else {
      var tail := [segs[0][1..]] + segs[1..];
      assert forall i :: 0 <= i < |tail| ==> NoDot(tail[i]) by {
        assert NoDot(segs[0][1..]) by { assert forall c :: c in segs[0][1..] ==> c in segs[0]; }
      }
      SplitJoin(tail);
      assert Join(tail) == segs[0][1..] + "." + Join(segs[1..]);
      assert s[1..] == Join(tail);
      assert s[0] == segs[0][0];
      assert s[0] != '.' by { assert segs[0][0] in segs[0]; }
      assert [s[0]] + segs[0][1..] == segs[0];
    }
  }

  lemma {:induction false} SplitNoDot(t: string)
    requires NoDot(t)
    ensures Split(t) == [t]
  {
    if t != [] {
      assert NoDot(t[1..]) by { assert forall c :: c in t[1..] ==> c in t; }
      SplitNoDot(t[1..]);
      assert t[0] in t;
      assert [t[0]] + t[1..] == t;
    }
  }

  /** The property names a key path walks, in order. */
  function Segments(p: KeyPath): seq<string> {
    match p
    case PathString(s) => Split(Normalize(s))
    case PathSegments(segs) => segs
  }

  /** `(o || {})[k]`: a falsy holder reads as an empty object. */
  function Get(o: Value, k: string): (r: Value)
    ensures !Truthy(o) ==> r == Undefined
  {
    if !Truthy(o) then Undefined
    else match o
      case Obj(props) => if k in props then props[k] else Undefined
      case _ => Undefined
  }

  /** The `reduce` walk over the property names. */
  function Walk(v: Value, segs: seq<string>): Value
    decreases segs
  {
    if segs == [] then v else Walk(Get(v, segs[0]), segs[1..])
  }

  /** `getDataKey(item, dataKey)`. */
  function GetDataKey(item: Value, p: KeyPath): Value {
    Walk(item, Segments(p))
  }

  /** Walking a path in two parts is walking it whole (the fold composes). */
  lemma {:induction false} WalkAppend(v: Value, p: seq<string>, q: seq<string>)
    ensures Walk(v, p + q) == Walk(Walk(v, p), q)
    decreases p
  {
    if p != [] {
      assert (p + q)[1..] == p[1..] + q;
      WalkAppend(Get(v, p[0]), p[1..], q);
    } else {
      assert p + q == q;
    }
  }

  lemma {:induction false} WalkUndefined(q: seq<string>)
    ensures Walk(Undefined, q) == Undefined
  {
    if q != [] { WalkUndefined(q[1..]); }
  }

  /**
   * Once an intermediate value is missing or falsy, the rest of the walk
   * yields `undefined`; resolution never fails.
   */
  lemma FalsyPrefixResolvesUndefined(v: Value, p: seq<string>, q: seq<string>)
    requires !Truthy(Walk(v, p)) && q != []
    ensures Walk(v, p + q) == Undefined
  {
    WalkAppend(v, p, q);
    WalkUndefined(q[1..]);
  }

  /**
   * The tokens of a string path: one more than the number of dots and
   * brackets, none holding a separator, and joining them with dots gives the
   * path with each bracket turned into a dot.
   */
  lemma StringPathTokens(s: string)
    ensures var t := Segments(PathString(s));
      && Join(t) == Normalize(s)
      && (forall i :: 0 <= i < |t| ==> NoDot(t[i]) && '[' !in t[i] && ']' !in t[i])
  {
    JoinSplit(Normalize(s));
    var t := Segments(PathString(s));
    forall i | 0 <= i < |t| ensures '[' !in t[i] && ']' !in t[i] {
      JoinHasSegment(t, i);
    }
  }

  lemma {:induction false} JoinHasSegment(t: seq<string>, i: int)
    requires |t| >= 1 && 0 <= i < |t|
    ensures forall c :: c in t[i] ==> c in Join(t)
  {
    if i > 0 { JoinHasSegment(t[1..], i - 1); }
  }

  /** `a[0].b` tokenises literally to `a`, `0`, `` and `b`: `].` leaves an empty segment. */
  lemma BracketThenDotLeavesEmptySegment()
    ensures Segments(PathString("a[0].b")) == ["a", "0", "", "b"]
  {
    assert Normalize("a[0].b") == "a.0..b";
    SplitJoin(["a", "0", "", "b"]);
    assert Join(["a", "0", "", "b"]) == "a.0..b";
  }
}
