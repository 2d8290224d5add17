/**
 * Sequence and string operations that the statement builders of run.py are
 * written with: `''.join`, `sep.join`, `str.split`, and the counting, cutting
 * and unwrapping that the properties of the statements are stated with.
 */
module Text {
  import opened Wrappers

  /** Concatenation of all parts in order: `''.join(parts)` for strings. */
  function Flatten<T>(parts: seq<seq<T>>): seq<T>
  {
    if parts == [] then [] else parts[0] + Flatten(parts[1..])
  }

  lemma {:induction false} FlattenAppend<T>(a: seq<seq<T>>, b: seq<seq<T>>)
    ensures Flatten(a + b) == Flatten(a) + Flatten(b)
  {
    if a == [] {
      assert a + b == b;
    } else {
      assert (a + b)[1..] == a[1..] + b;
      FlattenAppend(a[1..], b);
    }
  }

  lemma Associate<T>(a: seq<T>, b: seq<T>, c: seq<T>, d: seq<T>)
    ensures a + b + c == a + (b + c)
    ensures a + b + c + d == a + (b + c + d)
  {
  }

  /** The concatenation of `f(x)` over the elements `x` of `xs`, in order. */
  function FlatMap<A, B>(f: A -> seq<B>, xs: seq<A>): seq<B>
  {
    if xs == [] then [] else FlatMap(f, xs[..|xs| - 1]) + f(xs[|xs| - 1])
  }

  lemma {:induction false} FlatMapAppend<A, B>(f: A -> seq<B>, a: seq<A>, b: seq<A>)
    ensures FlatMap(f, a + b) == FlatMap(f, a) + FlatMap(f, b)
    decreases |b|
  {
    if b == [] {
      assert a + b == a;
    } else {
      var init := b[..|b| - 1];
      assert (a + b)[..|a + b| - 1] == a + init;
      assert (a + b)[|a + b| - 1] == b[|b| - 1];
      FlatMapAppend(f, a, init);
    }
  }

  lemma FlatMapPair<A, B>(f: A -> seq<B>, x: A, y: A)
    ensures FlatMap(f, [x, y]) == f(x) + f(y)
  {
    assert [x, y][..1] == [x];
    assert [x][..0] == [];
    assert FlatMap(f, [x]) == FlatMap(f, []) + f(x);
    assert FlatMap(f, [x, y]) == FlatMap(f, [x]) + f(y);
  }

  /** Mapping over a concatenation of parts is concatenating the mapped parts. */
  lemma {:induction false} FlatMapFlatten<A, B>(f: A -> seq<B>, parts: seq<seq<A>>)
    ensures FlatMap(f, Flatten(parts)) == Flatten(seq(|parts|, i requires 0 <= i < |parts| => FlatMap(f, parts[i])))
  {
    var mapped := seq(|parts|, i requires 0 <= i < |parts| => FlatMap(f, parts[i]));
    if parts != [] {
      FlatMapAppend(f, parts[0], Flatten(parts[1..]));
      FlatMapFlatten(f, parts[1..]);
      assert mapped[1..] == seq(|parts[1..]|, i requires 0 <= i < |parts[1..]| => FlatMap(f, parts[1..][i]));
    }
  }

  /** Flattening one more part appends that part. */
  lemma FlattenSnoc<T>(parts: seq<seq<T>>, k: nat)
    requires k < |parts|
    ensures Flatten(parts[..k + 1]) == Flatten(parts[..k]) + parts[k]
  {
    assert parts[..k + 1] == parts[..k] + [parts[k]];
    FlattenAppend(parts[..k], [parts[k]]);
    assert Flatten([parts[k]]) == parts[k] + Flatten([]);
  }

  /** Every element of a concatenation comes from one of its parts. */
  lemma {:induction false} FlattenContains<T>(parts: seq<seq<T>>, x: T)
    requires x in Flatten(parts)
    ensures exists i :: 0 <= i < |parts| && x in parts[i]
  {
    if x !in parts[0] {
      FlattenContains(parts[1..], x);
      var i :| 0 <= i < |parts[1..]| && x in parts[1..][i];
      assert x in parts[i + 1];
    }
  }

  /** Flattening parts of one common width: the length and where each element lands. */
  lemma {:induction false} FlattenLength<T>(parts: seq<seq<T>>, width: nat)
    requires forall k :: 0 <= k < |parts| ==> |parts[k]| == width
    ensures |Flatten(parts)| == |parts| * width
  {
    if parts != [] {
      FlattenLength(parts[1..], width);
      assert |parts| * width == width + (|parts| - 1) * width;
    }
  }

  lemma {:induction false} FlattenAt<T>(parts: seq<seq<T>>, width: nat, i: nat, j: nat)
    requires forall k :: 0 <= k < |parts| ==> |parts[k]| == width
    requires i < |parts| && j < width
    ensures |Flatten(parts)| == |parts| * width
    ensures i * width + j < |parts| * width
    ensures Flatten(parts)[i * width + j] == parts[i][j]
  {
    FlattenLength(parts, width);
    var rest := parts[1..];
    assert Flatten(parts) == parts[0] + Flatten(rest);
    if i > 0 {
      FlattenAt(rest, width, i - 1, j);
      var k := (i - 1) * width + j;
      assert i * width + j == width + k;
      assert |parts| * width == width + |rest| * width;
      assert Flatten(parts)[width + k] == Flatten(rest)[k];
    }
  }

  /** The first `i` parts of equal width, then a prefix of the next one. */
  lemma FlattenPrefix<T>(parts: seq<seq<T>>, width: nat, i: nat, r: nat)
    requires forall k :: 0 <= k < |parts| ==> |parts[k]| == width
    requires i < |parts| && r <= width
    ensures |Flatten(parts)| == |parts| * width
    ensures i * width + r <= |parts| * width
    ensures Flatten(parts)[..i * width + r] == Flatten(parts[..i]) + parts[i][..r]
  {
    FlattenLength(parts, width);
    var pre, post := parts[..i], parts[i..];
    assert parts == pre + post;
    FlattenAppend(pre, post);
    FlattenLength(pre, width);
    var front, part, back := Flatten(pre), parts[i], Flatten(post[1..]);
    assert Flatten(post) == part + back;
    assert (front + (part + back))[..|front| + r] == front + part[..r];
  }

  /** Decodes every piece with `f`, in order; fails when any piece fails. */
  function DecodeAll<A, B>(f: A -> Option<B>, pieces: seq<A>): (r: Option<seq<B>>)
    ensures r.Some? ==> |r.value| == |pieces|
  {
    if pieces == [] then Some([])
    else match (f(pieces[0]), DecodeAll(f, pieces[1..]))
      case (Some(x), Some(xs)) => Some([x] + xs)
      case _ => None
  }

  /** When each piece decodes to its value, all of them decode to the values in order. */
  lemma {:induction false} DecodeAllOf<A, B>(f: A -> Option<B>, pieces: seq<A>, xs: seq<B>)
    requires |pieces| == |xs|
    requires forall i :: 0 <= i < |pieces| ==> f(pieces[i]) == Some(xs[i])
    ensures DecodeAll(f, pieces) == Some(xs)
  {
    if pieces != [] {
      DecodeAllOf(f, pieces[1..], xs[1..]);
      assert xs == [xs[0]] + xs[1..];
    }
  }

  /** Decodes every piece with `f` into a run of values and concatenates the runs, in order. */
  function ConcatAll<A, B>(f: A -> Option<seq<B>>, pieces: seq<A>): Option<seq<B>>
  {
    if pieces == [] then Some([])
    else match (f(pieces[0]), ConcatAll(f, pieces[1..]))
      case (Some(x), Some(xs)) => Some(x + xs)
      case _ => None
  }

  /** When each piece decodes to its run, all of them decode to the runs laid end to end. */
  lemma {:induction false} ConcatAllOf<A, B>(f: A -> Option<seq<B>>, pieces: seq<A>, runs: seq<seq<B>>)
    requires |pieces| == |runs|
    requires forall i :: 0 <= i < |pieces| ==> f(pieces[i]) == Some(runs[i])
    ensures ConcatAll(f, pieces) == Some(Flatten(runs))
  {
    if pieces != [] {
      ConcatAllOf(f, pieces[1..], runs[1..]);
    }
  }

  /** Laying one-element runs end to end gives their elements in order. */
  lemma {:induction false} FlattenSingletons<T>(xs: seq<seq<T>>)
    requires forall k :: 0 <= k < |xs| ==> |xs[k]| == 1
    ensures Flatten(xs) == seq(|xs|, k requires 0 <= k < |xs| => xs[k][0])
  {
    if xs != [] {
      FlattenSingletons(xs[1..]);
    }
  }

  /** `sep.join(parts)`. */
  function Join<T>(parts: seq<seq<T>>, sep: seq<T>): seq<T>
  {
    if |parts| == 0 then []
    else if |parts| == 1 then parts[0]
    else parts[0] + sep + Join(parts[1..], sep)
  }

  /** An element in neither the parts nor the separator is not in their join. */
  lemma {:induction false} NotInJoin<T>(parts: seq<seq<T>>, sep: seq<T>, x: T)
    requires x !in sep
    requires forall k :: 0 <= k < |parts| ==> x !in parts[k]
    ensures x !in Join(parts, sep)
  {
    if |parts| > 1 {
      NotInJoin(parts[1..], sep, x);
    }
  }

  /** A separator followed by the join is the concatenation of separator-led parts. */
  lemma {:induction false} LeadJoin<T>(parts: seq<seq<T>>, sep: seq<T>)
    requires |parts| > 0
    ensures sep + Join(parts, sep) == Flatten(seq(|parts|, i requires 0 <= i < |parts| => sep + parts[i]))
  {
    var led := seq(|parts|, i requires 0 <= i < |parts| => sep + parts[i]);
    if |parts| == 1 {
      assert led[1..] == [];
    } else {
      LeadJoin(parts[1..], sep);
      assert led[1..] == seq(|parts| - 1, i requires 0 <= i < |parts| - 1 => sep + parts[1..][i]);
    }
  }

  /** Number of occurrences of `x` in `s`. */
  function Count<T(==)>(s: seq<T>, x: T): (n: nat)
    ensures n <= |s|
    ensures n == 0 <==> x !in s
  {
    if s == [] then 0 else (if s[0] == x then 1 else 0) + Count(s[1..], x)
  }

  lemma {:induction false} CountAppend<T>(a: seq<T>, b: seq<T>, x: T)
    ensures Count(a + b, x) == Count(a, x) + Count(b, x)
  {
    if a == [] {
      assert a + b == b;
    } else {
      assert (a + b)[1..] == a[1..] + b;
      CountAppend(a[1..], b, x);
    }
  }

  /** Joining parts free of a one-element separator leaves exactly |parts| - 1 separators. */
  lemma {:induction false} CountJoin<T>(parts: seq<seq<T>>, sep: T)
    requires |parts| > 0
    requires forall k :: 0 <= k < |parts| ==> sep !in parts[k]
    ensures Count(Join(parts, [sep]), sep) == |parts| - 1
  {
    if |parts| > 1 {
      CountJoin(parts[1..], sep);
      CountAppend(parts[0] + [sep], Join(parts[1..], [sep]), sep);
      CountAppend(parts[0], [sep], sep);
    }
  }

  /** Concatenating parts that each hold `x` exactly once gives |parts| occurrences. */
  lemma {:induction false} CountFlatten<T>(parts: seq<seq<T>>, x: T)
    requires forall k :: 0 <= k < |parts| ==> Count(parts[k], x) == 1
    ensures Count(Flatten(parts), x) == |parts|
  {
    if parts != [] {
      CountFlatten(parts[1..], x);
      CountAppend(parts[0], Flatten(parts[1..]), x);
    }
  }

  /** Index of the first `x` in `s`, or |s| when there is none. */
  function FirstIndex<T(==)>(s: seq<T>, x: T): (k: nat)
    ensures k <= |s|
    ensures k < |s| ==> s[k] == x
    ensures x !in s[..k]
  {
    if s == [] then 0
    else if s[0] == x then 0
    else
      var k := 1 + FirstIndex(s[1..], x);
      assert s[..k] == [s[0]] + s[1..][..k - 1];
      k
  }

  /** The first `x` of `a + b` is the first of `b` when `a` holds none. */
  lemma FirstIndexAfter<T>(a: seq<T>, b: seq<T>, x: T)
    requires x !in a
    requires |b| > 0 && b[0] == x
    ensures FirstIndex(a + b, x) == |a|
  {
    assert (a + b)[..|a|] == a;
    assert (a + b)[|a|] == x;
  }

  /** `s.split(sep)` for a one-element separator, as Python's str.split does it. */
  function Split<T(==)>(s: seq<T>, sep: T): (r: seq<seq<T>>)
    ensures |r| > 0
    decreases |s|
  {
    var k := FirstIndex(s, sep);
    if k == |s| then [s] else [s[..k]] + Split(s[k + 1..], sep)
  }

  /** Splitting at the first separator: the part before it, then the rest split. */
  lemma SplitStep<T>(a: seq<T>, rest: seq<T>, sep: T)
    requires sep !in a
    ensures Split(a + [sep] + rest, sep) == [a] + Split(rest, sep)
  {
    var s := a + [sep] + rest;
    assert s == a + ([sep] + rest);
    FirstIndexAfter(a, [sep] + rest, sep);
    assert s[..|a|] == a;
    assert s[|a| + 1..] == rest;
  }

  /** Splitting undoes joining, when no part holds the separator. */
  lemma {:induction false} SplitJoin<T>(parts: seq<seq<T>>, sep: T)
    requires |parts| > 0
    requires forall k :: 0 <= k < |parts| ==> sep !in parts[k]
    ensures Split(Join(parts, [sep]), sep) == parts
  {
    if |parts| == 1 {
      assert FirstIndex(parts[0], sep) == |parts[0]|;
    } else {
      var rest := Join(parts[1..], [sep]);
      assert Join(parts, [sep]) == parts[0] + [sep] + rest;
      SplitStep(parts[0], rest, sep);
      SplitJoin(parts[1..], sep);
      assert parts == [parts[0]] + parts[1..];
    }
  }

  /** `p` ends with `t` and holds no other `t`. */
  predicate Terminated<T(==)>(p: seq<T>, t: T)
  {
    |p| > 0 && p[|p| - 1] == t && t !in p[..|p| - 1]
  }

  /** Cuts `s` just after every `t`; a last piece without `t` is kept as it is. */
  function Chunks<T(==)>(s: seq<T>, t: T): (r: seq<seq<T>>)
    ensures Flatten(r) == s
    decreases |s|
  {
    if s == [] then []
    else
      var k := FirstIndex(s, t);
      var n := if k < |s| then k + 1 else |s|;
      var r := [s[..n]] + Chunks(s[n..], t);
      assert r[1..] == Chunks(s[n..], t);
      assert s == s[..n] + s[n..];
      r
  }

  /** Cutting after every `t` recovers the terminated pieces a sequence was made of. */
  lemma {:induction false} ChunksFlatten<T>(parts: seq<seq<T>>, t: T)
    requires forall k :: 0 <= k < |parts| ==> Terminated(parts[k], t)
    ensures Chunks(Flatten(parts), t) == parts
  {
    if parts != [] {
      var p, rest := parts[0], Flatten(parts[1..]);
      var s := p + rest;
      var m := |p| - 1;
      assert p == p[..m] + [t];
      assert s == p[..m] + ([t] + rest);
      FirstIndexAfter(p[..m], [t] + rest, t);
      assert s[..|p|] == p && s[|p|..] == rest;
      ChunksFlatten(parts[1..], t);
      assert parts == [p] + parts[1..];
    }
  }

  /** The middle of `s` when it starts with `pre` and ends with `suf`. */
  function Between<T(==)>(s: seq<T>, pre: seq<T>, suf: seq<T>): (r: Option<seq<T>>)
    ensures r.Some? ==> s == pre + r.value + suf
  {
    if |pre| + |suf| <= |s| && s[..|pre|] == pre && s[|s| - |suf|..] == suf then
      var m := s[|pre|..|s| - |suf|];
      assert s == s[..|pre|] + m + s[|s| - |suf|..];
      Some(m)
    else None
  }

  lemma BetweenWrapped<T>(pre: seq<T>, mid: seq<T>, suf: seq<T>)
    ensures Between(pre + mid + suf, pre, suf) == Some(mid)
  {
    var s := pre + mid + suf;
    assert s[..|pre|] == pre;
    assert s[|s| - |suf|..] == suf;
    assert s[|pre|..|s| - |suf|] == mid;
  }
}
