/** `split` and `join`. */
module Text {

  /** Position of the first `d` at or behind `i`, or the length (`std::find`). */
  function Find<T(==)>(c: seq<T>, d: T, i: nat): (p: nat)
    requires i <= |c|
    ensures i <= p <= |c| && (forall k :: i <= k < p ==> c[k] != d) && (p < |c| ==> c[p] == d)
    decreases |c| - i
  {
    if i == |c| || c[i] == d then i else Find(c, d, i + 1)
  }

  /** The parts between delimiters from position `i` on; nothing follows a trailing delimiter. */
  function SplitFrom<T(==)>(c: seq<T>, d: T, i: nat): seq<seq<T>>
    requires i <= |c|
    decreases |c| - i
  {
    if i == |c| then []
    else
      var p := Find(c, d, i);
      [c[i..p]] + SplitFrom(c, d, if p < |c| then p + 1 else p)
  }

  function Split<T(==)>(c: seq<T>, d: T): seq<seq<T>> {
    SplitFrom(c, d, 0)
  }

  /** The loop of `split`: one part per turn, then past the delimiter. */
  method SplitLoop<T(==)>(c: seq<T>, d: T) returns (results: seq<seq<T>>)
    ensures results == Split(c, d)
  {
    var iter := 0;
    results := [];
    while iter != |c|
      invariant 0 <= iter <= |c|
      invariant results + SplitFrom(c, d, iter) == Split(c, d)
      decreases |c| - iter
    {
      var possible := Find(c, d, iter);
      results := results + [c[iter..possible]];
      iter := possible;
      if iter != |c| { iter := iter + 1; }
    }
  }

  /** The parts with `sep` between neighbours. */
  function Join<T>(parts: seq<seq<T>>, sep: seq<T>): seq<T> {
    if parts == [] then []
    else if |parts| == 1 then parts[0]
    else parts[0] + sep + Join(parts[1..], sep)
  }

  lemma {:induction false} JoinSnoc<T>(parts: seq<seq<T>>, last: seq<T>, sep: seq<T>)
    requires parts != []
    ensures Join(parts + [last], sep) == Join(parts, sep) + sep + last
  {
    assert (parts + [last])[1..] == parts[1..] + [last];
    if |parts| > 1 { JoinSnoc(parts[1..], last, sep); }
  }

  /** `join`: every part but the last is written with the separator behind it. */
  method JoinLoop<T>(parts: seq<seq<T>>, sep: seq<T>) returns (out: seq<T>)
    ensures out == Join(parts, sep)
  {
    out := [];
    if parts != [] {
      for i := 0 to |parts| - 1
        invariant out == if i == 0 then [] else Join(parts[..i], sep) + sep
      {
        if i > 0 { JoinSnoc(parts[..i], parts[i], sep); }
        assert parts[..i + 1] == parts[..i] + [parts[i]];
        out := out + parts[i] + sep;
      }
      var n := |parts| - 1;
      if n > 0 { JoinSnoc(parts[..n], parts[n], sep); }
      assert parts == parts[..n] + [parts[n]];
      out := out + parts[n];
    }
  }

  lemma JoinCons<T>(t: seq<T>, parts: seq<seq<T>>, sep: seq<T>)
    ensures Join([t] + parts, sep) == if parts == [] then t else t + sep + Join(parts, sep)
  {
    assert ([t] + parts)[1..] == parts;
  }

  /** No part contains the delimiter. */
  lemma {:induction false} SplitPartsClean<T>(c: seq<T>, d: T, i: nat, j: nat)
    requires i <= |c| && j < |SplitFrom(c, d, i)|
    ensures d !in SplitFrom(c, d, i)[j]
    decreases |c| - i
  {
    var p := Find(c, d, i);
    if j > 0 { SplitPartsClean(c, d, if p < |c| then p + 1 else p, j - 1); }
  }

  predicate Clean<T(==)>(parts: seq<seq<T>>, d: T) {
    forall i :: 0 <= i < |parts| ==> d !in parts[i]
  }

  lemma {:induction false} FindShift<T>(c: seq<T>, k: nat, b: seq<T>, d: T, i: nat)
    requires k <= |c| && b == c[k..] && i <= |b|
    ensures Find(c, d, k + i) == k + Find(b, d, i)
    decreases |b| - i
  {
    if i < |b| && b[i] != d { FindShift(c, k, b, d, i + 1); }
  }

  /** What lies in front of the starting position does not matter. */
  lemma {:induction false} SplitShift<T>(c: seq<T>, k: nat, b: seq<T>, d: T, i: nat)
    requires k <= |c| && b == c[k..] && i <= |b|
    ensures SplitFrom(c, d, k + i) == SplitFrom(b, d, i)
    decreases |b| - i
  {
    if i < |b| {
      var p := Find(b, d, i);
      FindShift(c, k, b, d, i);
      assert c[k + i..k + p] == b[i..p];
      var next := if p < |b| then p + 1 else p;
      SplitShift(c, k, b, d, next);
      assert SplitFrom(b, d, i) == [b[i..p]] + SplitFrom(b, d, next);
      assert SplitFrom(c, d, k + i) == [c[k + i..k + p]] + SplitFrom(c, d, k + next);
    }
  }

  lemma SplitAtFirst<T>(c: seq<T>, d: T, n: nat)
    requires n < |c| && c[n] == d && forall k :: 0 <= k < n ==> c[k] != d
    ensures Split(c, d) == [c[0..n]] + Split(c[n + 1..], d)
  {
    assert Find(c, d, 0) == n;
    SplitShift(c, n + 1, c[n + 1..], d, 0);
  }

  /** A first part without the delimiter comes off whole. */
  lemma SplitHead<T>(t: seq<T>, d: T, rest: seq<T>)
    requires d !in t
    ensures Split(t + [d] + rest, d) == [t] + Split(rest, d)
  {
    var c := t + [d] + rest;
    var n := |t|;
    assert c[n] == d && forall k :: 0 <= k < n ==> c[k] == t[k];
    assert c[0..n] == t && c[n + 1..] == rest;
    SplitAtFirst(c, d, n);
  }

  lemma SplitWhole<T>(t: seq<T>, d: T)
    requires d !in t && t != []
    ensures Split(t, d) == [t]
  {
    assert Find(t, d, 0) == |t|;
    assert t[0..|t|] == t && SplitFrom(t, d, |t|) == [];
  }

  lemma {:induction false} SplitOfCleanJoin<T>(parts: seq<seq<T>>, d: T)
    requires Clean(parts, d) && parts != [] && parts[|parts| - 1] != []
    ensures Split(Join(parts, [d]), d) == parts
  {
    if |parts| == 1 {
      SplitWhole(parts[0], d);
    } else {
      SplitOfCleanJoin(parts[1..], d);
      SplitHead(parts[0], d, Join(parts[1..], [d]));
    }
  }

  lemma {:induction false} JoinEndsWith<T>(parts: seq<seq<T>>, d: T)
    requires |parts| >= 2 && parts[|parts| - 1] == []
    ensures Join(parts, [d]) != [] && Join(parts, [d])[|Join(parts, [d])| - 1] == d
  {
    if |parts| == 2 {
      assert Join(parts[1..], [d]) == [];
    } else {
      JoinEndsWith(parts[1..], d);
    }
  }

  /** The input without its last element if that is the delimiter. */
  function Trimmed<T(==)>(c: seq<T>, d: T): seq<T> {
    if c != [] && c[|c| - 1] == d then c[..|c| - 1] else c
  }

  lemma TrimmedTail<T>(t: seq<T>, d: T, rest: seq<T>)
    ensures Trimmed(t + [d] + rest, d) == if rest == [] then t else t + [d] + Trimmed(rest, d)
  {
    var c := t + [d] + rest;
    if rest == [] {
      assert c[..|c| - 1] == t;
    } else {
      assert c[|c| - 1] == rest[|rest| - 1];
      assert c[..|c| - 1] == t + [d] + rest[..|rest| - 1];
    }
  }

  /** Joining the parts gives the input back, without its last element exactly when that is the delimiter. */
  lemma {:induction false} JoinOfSplit<T>(c: seq<T>, d: T)
    ensures Join(Split(c, d), [d]) == Trimmed(c, d)
    decreases |c|
  {
    if d in c {
      var p := Find(c, d, 0);
      var (t, rest) := (c[..p], c[p + 1..]);
      assert c == t + [d] + rest;
      SplitHead(t, d, rest);
      JoinCons(t, Split(rest, d), [d]);
      TrimmedTail(t, d, rest);
      JoinOfSplit(rest, d);
    } else if c != [] {
      SplitWhole(c, d);
    }
  }

  lemma LastPartNotEmpty<T>(parts: seq<seq<T>>, d: T)
    requires parts != [] && Split(Join(parts, [d]), d) == parts
    ensures parts[|parts| - 1] != []
  {
    JoinOfSplit(Join(parts, [d]), d);
    if |parts| > 1 && parts[|parts| - 1] == [] { JoinEndsWith(parts, d); }
  }

  /** Splitting a join gives the parts back if and only if none contains the delimiter and the last is not empty. */
  lemma SplitOfJoinIff<T>(parts: seq<seq<T>>, d: T)
    ensures Split(Join(parts, [d]), d) == parts <==> Clean(parts, d) && (parts == [] || parts[|parts| - 1] != [])
  {
    if parts != [] {
      if Split(Join(parts, [d]), d) == parts {
        forall i | 0 <= i < |parts| ensures d !in parts[i] { SplitPartsClean(Join(parts, [d]), d, 0, i); }
        LastPartNotEmpty(parts, d);
      }
      if Clean(parts, d) && parts[|parts| - 1] != [] { SplitOfCleanJoin(parts, d); }
    }
  }
}
