/**
 * De-duplication that keeps the first element for each key, used for server
 * lists (keyed by identifier) and tool lists (keyed by name), and the
 * order-preserving filter of list comprehensions.
 */
module Sequences {
  import opened Wrappers

  /** The keys of the elements of `xs`. */
  function KeysOf<T(==), K(==)>(xs: seq<T>, key: T -> K): set<K>
  {
    set x | x in xs :: key(x)
  }

  /**
   * Walks `xs` left to right with the set of keys already taken, keeping an
   * element only when its key is new: the loop the sources write with a
   * `seen` set.
   */
  function DedupeFrom<T(==), K(==)>(xs: seq<T>, key: T -> K, seen: set<K>): (r: seq<T>)
    ensures forall y :: y in r ==> y in xs && key(y) !in seen
    ensures forall i, j :: 0 <= i < j < |r| ==> key(r[i]) != key(r[j])
    decreases |xs|
  {
    if xs == [] then []
    else if key(xs[0]) in seen then DedupeFrom(xs[1..], key, seen)
    else [xs[0]] + DedupeFrom(xs[1..], key, seen + {key(xs[0])})
  }

  /** The first element of `xs` for each key, in order. */
  function DedupeBy<T(==), K(==)>(xs: seq<T>, key: T -> K): (r: seq<T>)
    ensures forall y :: y in r ==> y in xs
    ensures forall i, j :: 0 <= i < j < |r| ==> key(r[i]) != key(r[j])
  {
    DedupeFrom(xs, key, {})
  }

  /**
   * The same selection defined the other way round: the last element of `xs`
   * is kept exactly when no earlier element has its key.
   */
  function FirstOccurrences<T(==), K(==)>(xs: seq<T>, key: T -> K): seq<T>
    decreases |xs|
  {
    if xs == [] then []
    else
      var init := xs[..|xs| - 1];
      FirstOccurrences(init, key) + (if key(xs[|xs| - 1]) in KeysOf(init, key) then [] else [xs[|xs| - 1]])
  }

  /** The keys of a non-empty sequence: those of its head and of its tail. */
  lemma KeysOfCons<T, K>(a: seq<T>, key: T -> K)
    requires a != []
    ensures KeysOf(a, key) == {key(a[0])} + KeysOf(a[1..], key)
  {
    assert a == [a[0]] + a[1..];
  }

  /** Deduplicating a concatenation deduplicates the second part against the keys of the first. */
  lemma {:induction false} DedupeFromAppend<T, K>(a: seq<T>, b: seq<T>, key: T -> K, seen: set<K>)
    ensures DedupeFrom(a + b, key, seen) == DedupeFrom(a, key, seen) + DedupeFrom(b, key, seen + KeysOf(a, key))
    decreases |a|
  {
    if a == [] {
      assert a + b == b;
      assert seen + KeysOf(a, key) == seen;
    } else {
      var x, rest := a[0], a[1..];
      assert (a + b)[0] == x && (a + b)[1..] == rest + b;
      KeysOfCons(a, key);
      if key(x) in seen {
        DedupeFromAppend(rest, b, key, seen);
        assert seen + KeysOf(a, key) == seen + KeysOf(rest, key);
      } else {
        DedupeFromAppend(rest, b, key, seen + {key(x)});
        assert seen + {key(x)} + KeysOf(rest, key) == seen + KeysOf(a, key);
        AppendAssoc([x], DedupeFrom(rest, key, seen + {key(x)}), DedupeFrom(b, key, seen + KeysOf(a, key)));
      }
    }
  }

  /** Appending one element keeps it exactly when its key is new. */
  lemma DedupeSnoc<T, K>(xs: seq<T>, x: T, key: T -> K)
    ensures DedupeBy(xs + [x], key) == DedupeBy(xs, key) + (if key(x) in KeysOf(xs, key) then [] else [x])
  {
    DedupeFromAppend(xs, [x], key, {});
    assert {} + KeysOf(xs, key) == KeysOf(xs, key);
    assert [x][1..] == [];
  }

  /** The left-to-right walk and the right-fold definition agree. */
  lemma {:induction false} DedupeIsFirstOccurrences<T, K>(xs: seq<T>, key: T -> K)
    ensures DedupeBy(xs, key) == FirstOccurrences(xs, key)
    decreases |xs|
  {
    if xs != [] {
      var init := xs[..|xs| - 1];
      assert xs == init + [xs[|xs| - 1]];
      DedupeSnoc(init, xs[|xs| - 1], key);
      DedupeIsFirstOccurrences(init, key);
    }
  }

  /** No key is lost: the result has one element for every key of the input. */
  lemma {:induction false} DedupeKeepsEveryKey<T, K>(xs: seq<T>, key: T -> K)
    ensures KeysOf(DedupeBy(xs, key), key) == KeysOf(xs, key)
    decreases |xs|
  {
    if xs != [] {
      var init, x := xs[..|xs| - 1], xs[|xs| - 1];
      assert xs == init + [x];
      DedupeSnoc(init, x, key);
      DedupeKeepsEveryKey(init, key);
      assert KeysOf(xs, key) == KeysOf(init, key) + {key(x)};
      var d := DedupeBy(init, key);
      if key(x) in KeysOf(init, key) {
        assert DedupeBy(xs, key) == d + [];
        assert d + [] == d;
      } else {
        assert KeysOf(d + [x], key) == KeysOf(d, key) + {key(x)};
      }
    }
  }

  /** Every element of the input is represented in the result by an element with its key. */
  lemma DedupeCovers<T, K>(xs: seq<T>, key: T -> K, x: T)
    requires x in xs
    ensures key(x) in KeysOf(DedupeBy(xs, key), key)
  {
    DedupeKeepsEveryKey(xs, key);
    assert key(x) in KeysOf(xs, key);
  }

  /** The method form of `DedupeBy`: one pass with a set of seen keys. */
  method Dedupe<T(==), K(==)>(xs: seq<T>, key: T -> K) returns (unique: seq<T>)
    ensures unique == DedupeBy(xs, key)
  {
    unique := [];
    var seen: set<K> := {};
    var i := 0;
    while i < |xs|
      invariant 0 <= i <= |xs|
      invariant unique == DedupeBy(xs[..i], key)
      invariant seen == KeysOf(xs[..i], key)
    {
      assert xs[..i + 1] == xs[..i] + [xs[i]];
      DedupeSnoc(xs[..i], xs[i], key);
      if key(xs[i]) !in seen {
        seen := seen + {key(xs[i])};
        unique := unique + [xs[i]];
      }
      i := i + 1;
    }
    assert xs[..i] == xs;
  }

  /** `[x for x in xs if p(x)]`. */
  function Filter<T(!new)>(xs: seq<T>, p: T -> bool): (r: seq<T>)
    ensures forall x :: x in r <==> x in xs && p(x)
    ensures |r| <= |xs|
    decreases |xs|
  {
    if xs == [] then []
    else Filter(xs[..|xs| - 1], p) + (if p(xs[|xs| - 1]) then [xs[|xs| - 1]] else [])
  }

  /** Filtering twice by the same condition changes nothing more. */
  lemma {:induction false} FilterIdempotent<T(!new)>(xs: seq<T>, p: T -> bool)
    ensures Filter(Filter(xs, p), p) == Filter(xs, p)
    decreases |xs|
  {
    if xs != [] {
      var init, last := xs[..|xs| - 1], xs[|xs| - 1];
      FilterIdempotent(init, p);
      var f := Filter(init, p);
      if p(last) {
        FilterSnoc(f, last, p);
      } else {
        assert Filter(xs, p) == f + [];
        assert f + [] == f;
      }
    }
  }

  lemma FilterSnoc<T(!new)>(xs: seq<T>, x: T, p: T -> bool)
    ensures Filter(xs + [x], p) == Filter(xs, p) + (if p(x) then [x] else [])
  {
    assert (xs + [x])[..|xs|] == xs;
  }

  /** Appending three pieces one at a time appends their concatenation. */
  /** Appending is associative. */
  lemma AppendAssoc<T>(a: seq<T>, b: seq<T>, c: seq<T>)
    ensures (a + b) + c == a + (b + c)
  {
  }

  /** A prefix one longer is the prefix and the next element. */
  lemma PrefixSnoc<T>(xs: seq<T>, j: nat)
    requires j < |xs|
    ensures xs[..j + 1] == xs[..j] + [xs[j]]
  {
  }

  /** The members of a prefix one longer: those of the prefix and the next element. */
  lemma InPrefixSnoc<T>(xs: seq<T>, j: nat)
    requires j < |xs|
    ensures forall x :: x in xs[..j + 1] <==> x in xs[..j] || x == xs[j]
  {
    PrefixSnoc(xs, j);
  }

  lemma AppendThree<T>(xs: seq<T>, a: seq<T>, b: seq<T>, c: seq<T>)
    ensures xs + a + b + c == xs + (a + b + c)
  {
  }

  /** What follows the first two of four appended pieces. */
  lemma TailAfterTwo<T>(a: seq<T>, b: seq<T>, c: seq<T>, e: seq<T>)
    ensures (a + b + c + e)[|a| + |b|..] == c + e
  {
  }

  lemma NothingInIsEmpty<T>(xs: seq<T>)
    ensures (forall x :: x !in xs) ==> xs == []
  {
    if xs != [] {
      assert xs[0] in xs;
    }
  }

  lemma FilterNone<T(!new)>(xs: seq<T>, p: T -> bool)
    requires forall x :: x in xs ==> !p(x)
    ensures Filter(xs, p) == []
  {
    NothingInIsEmpty(Filter(xs, p));
  }

  /** Filtering a concatenation filters each part. */
  lemma {:induction false} FilterAppend<T(!new)>(xs: seq<T>, ys: seq<T>, p: T -> bool)
    ensures Filter(xs + ys, p) == Filter(xs, p) + Filter(ys, p)
    decreases |ys|
  {
    if ys == [] {
      assert xs + ys == xs;
    } else {
      var init, last := ys[..|ys| - 1], ys[|ys| - 1];
      assert xs + ys == (xs + init) + [last];
      FilterSnoc(xs + init, last, p);
      FilterAppend(xs, init, p);
      FilterSnoc(init, last, p);
      assert ys == init + [last];
    }
  }

  /** The loop form of `Filter`: append each element that passes. */
  method Select<T(!new)>(xs: seq<T>, p: T -> bool) returns (r: seq<T>)
    ensures r == Filter(xs, p)
  {
    r := [];
    var i := 0;
    while i < |xs|
      invariant 0 <= i <= |xs|
      invariant r == Filter(xs[..i], p)
    {
      assert xs[..i + 1] == xs[..i] + [xs[i]];
      FilterSnoc(xs[..i], xs[i], p);
      if p(xs[i]) {
        r := r + [xs[i]];
      }
      i := i + 1;
    }
    assert xs[..i] == xs;
  }

  /** `[f(x) for x in xs]`. */
  function Map<T, U>(xs: seq<T>, f: T -> U): seq<U>
  {
    if xs == [] then [] else Map(xs[..|xs| - 1], f) + [f(xs[|xs| - 1])]
  }

  lemma {:induction false} MapAt<T, U>(xs: seq<T>, f: T -> U)
    ensures |Map(xs, f)| == |xs| && forall i :: 0 <= i < |xs| ==> Map(xs, f)[i] == f(xs[i])
  {
    if xs != [] {
      MapAt(xs[..|xs| - 1], f);
    }
  }

  /** A property holds of every element `p` selects exactly when it holds of all of `Filter(xs, p)`. */
  lemma FilterAll<T(!new)>(xs: seq<T>, p: T -> bool, q: T -> bool)
    ensures (forall x :: x in xs && p(x) ==> q(x)) <==> (forall x :: x in Filter(xs, p) ==> q(x))
  {
  }

  lemma MapAll<T, U>(xs: seq<T>, f: T -> U, q: U -> bool)
    ensures (forall y :: y in Map(xs, f) ==> q(y)) <==> (forall i :: 0 <= i < |xs| ==> q(f(xs[i])))
  {
    MapAt(xs, f);
    if forall i :: 0 <= i < |xs| ==> q(f(xs[i])) {
      forall y | y in Map(xs, f)
        ensures q(y)
      {
        var i :| 0 <= i < |xs| && Map(xs, f)[i] == y;
      }
    }
  }

  lemma InitLast<T>(xs: seq<T>)
    requires |xs| > 0
    ensures xs == xs[..|xs| - 1] + [xs[|xs| - 1]]
  {
  }

  lemma MapSnoc<T, U>(xs: seq<T>, x: T, f: T -> U)
    ensures Map(xs + [x], f) == Map(xs, f) + [f(x)]
  {
    assert (xs + [x])[..|xs|] == xs;
  }

  /** `[f(x) for x in xs]`, skipping the elements `f` rejects. */
  function Collect<T, U>(xs: seq<T>, f: T -> Option<U>): (r: seq<U>)
    ensures |r| <= |xs|
  {
    if xs == [] then []
    else
      var r := Collect(xs[..|xs| - 1], f);
      match f(xs[|xs| - 1])
      case Some(y) => r + [y]
      case None => r
  }

  lemma CollectSnoc<T, U>(xs: seq<T>, x: T, f: T -> Option<U>)
    ensures Collect(xs + [x], f) == Collect(xs, f) + match f(x) case Some(y) => [y] case None => []
  {
    assert (xs + [x])[..|xs|] == xs;
  }

  /** Collecting over a concatenation collects over each part, in order. */
  lemma {:induction false} CollectAppend<T, U>(xs: seq<T>, ys: seq<T>, f: T -> Option<U>)
    ensures Collect(xs + ys, f) == Collect(xs, f) + Collect(ys, f)
    decreases |ys|
  {
    if ys == [] {
      assert xs + ys == xs;
    } else {
      var init, last := ys[..|ys| - 1], ys[|ys| - 1];
      InitLast(ys);
      assert xs + ys == (xs + init) + [last];
      CollectSnoc(xs + init, last, f);
      CollectAppend(xs, init, f);
      CollectSnoc(init, last, f);
    }
  }

  /** The values `f` gives the members of `xs` it is defined on. */
  function CollectSet<T, U>(xs: set<T>, f: T -> Option<U>): set<U>
  {
    set x | x in xs && f(x).Some? :: f(x).value
  }

  /** The collection over a prefix one longer. */
  lemma CollectNext<T, U>(xs: seq<T>, i: nat, f: T -> Option<U>)
    requires i < |xs|
    ensures Collect(xs[..i + 1], f) == Collect(xs[..i], f) + match f(xs[i]) case Some(y) => [y] case None => []
  {
    PrefixSnoc(xs, i);
    CollectSnoc(xs[..i], xs[i], f);
  }

  /** Elements `f` hands back unchanged all survive. */
  lemma {:induction false} CollectKeeps<T>(xs: seq<T>, f: T -> Option<T>)
    requires forall x :: x in xs ==> f(x) == Some(x)
    ensures Collect(xs, f) == xs
    decreases |xs|
  {
    if xs != [] {
      var init, last := xs[..|xs| - 1], xs[|xs| - 1];
      assert forall x :: x in init ==> x in xs;
      CollectKeeps(init, f);
      assert last in xs;
      InitLast(xs);
    }
  }

  /** When `f` gives each element of `xs` the matching element of `ys`, `Collect` gathers `ys`. */
  lemma {:induction false} CollectAll<T, U>(xs: seq<T>, f: T -> Option<U>, ys: seq<U>)
    requires |xs| == |ys| && forall i :: 0 <= i < |xs| ==> f(xs[i]) == Some(ys[i])
    ensures Collect(xs, f) == ys
    decreases |xs|
  {
    if xs != [] {
      var n := |xs| - 1;
      assert forall i :: 0 <= i < n ==> xs[..n][i] == xs[i] && ys[..n][i] == ys[i];
      CollectAll(xs[..n], f, ys[..n]);
      InitLast(ys);
    }
  }

  /** What `Collect` gathers is exactly what `f` makes of some element. */
  lemma {:induction false} CollectMembers<T, U>(xs: seq<T>, f: T -> Option<U>)
    ensures forall y :: y in Collect(xs, f) <==> exists i :: 0 <= i < |xs| && f(xs[i]) == Some(y)
    decreases |xs|
  {
    if xs != [] {
      var init := xs[..|xs| - 1];
      CollectMembers(init, f);
      assert forall i :: 0 <= i < |init| ==> init[i] == xs[i];
      forall y | exists i :: 0 <= i < |xs| && f(xs[i]) == Some(y)
        ensures y in Collect(xs, f)
      {
        var i :| 0 <= i < |xs| && f(xs[i]) == Some(y);
        if i < |init| {
          assert f(init[i]) == Some(y);
        }
      }
    }
  }

  /** The first element of `xs` that satisfies `p`: the early-return search loop of the sources. */
  function First<T>(xs: seq<T>, p: T -> bool): (r: Option<T>)
    ensures r.None? <==> forall i :: 0 <= i < |xs| ==> !p(xs[i])
    ensures r.Some? ==>
      exists i :: 0 <= i < |xs| && xs[i] == r.value && p(xs[i]) && forall j :: 0 <= j < i ==> !p(xs[j])
  {
    if xs == [] then None
    else if p(xs[0]) then Some(xs[0])
    else
      var r := First(xs[1..], p);
      assert forall i :: 1 <= i < |xs| ==> xs[i] == xs[1..][i - 1];
      r
  }

  /** `First` picks the element at the earliest index that satisfies `p`. */
  lemma {:induction false} FirstAt<T>(xs: seq<T>, p: T -> bool, i: nat)
    requires i < |xs| && p(xs[i])
    requires forall j :: 0 <= j < i ==> !p(xs[j])
    ensures First(xs, p) == Some(xs[i])
  {
    if i > 0 {
      assert !p(xs[0]);
      FirstAt(xs[1..], p, i - 1);
    }
  }

  /** The index of the last element of `xs` that satisfies `p`. */
  function LastIndexWhere<T>(xs: seq<T>, p: T -> bool): (r: Option<nat>)
    ensures r.None? <==> forall k :: 0 <= k < |xs| ==> !p(xs[k])
    ensures r.Some? ==> r.value < |xs| && p(xs[r.value]) && forall j :: r.value < j < |xs| ==> !p(xs[j])
    decreases |xs|
  {
    if xs == [] then None
    else if p(xs[|xs| - 1]) then Some(|xs| - 1)
    else
      var init := xs[..|xs| - 1];
      assert forall k :: 0 <= k < |init| ==> init[k] == xs[k];
      LastIndexWhere(init, p)
  }

  /** The loop form of `First`. */
  method FindFirst<T>(xs: seq<T>, p: T -> bool) returns (r: Option<T>)
    ensures r == First(xs, p)
  {
    var i := 0;
    while i < |xs|
      invariant 0 <= i <= |xs|
      invariant First(xs, p) == First(xs[i..], p)
    {
      assert xs[i..][1..] == xs[i + 1..];
      if p(xs[i]) {
        return Some(xs[i]);
      }
      i := i + 1;
    }
    return None;
  }

  /** Lines gathered by a run of steps, and the commands the steps sent. */
  datatype Report<L> = Report(summary: seq<L>, commands: seq<L>)

  /**
   * Running `step` over `xs` and gathering what each step reports; each
   * step is told how many commands were sent before it.
   */
  function Fold<T, L>(xs: seq<T>, n: nat, step: (nat, T) -> Report<L>): Report<L>
    decreases |xs|
  {
    if xs == [] then Report([], [])
    else Then(Fold(xs[..|xs| - 1], n, step), step(n + |Fold(xs[..|xs| - 1], n, step).commands|, xs[|xs| - 1]))
  }

  /** What one more step adds after `r`. */
  function Then<L>(r: Report<L>, s: Report<L>): Report<L>
  {
    Report(r.summary + s.summary, r.commands + s.commands)
  }

  lemma FoldLast<T, L>(xs: seq<T>, n: nat, step: (nat, T) -> Report<L>)
    requires xs != []
    ensures Fold(xs, n, step) ==
      Report(Fold(xs[..|xs| - 1], n, step).summary + step(n + |Fold(xs[..|xs| - 1], n, step).commands|, xs[|xs| - 1]).summary,
             Fold(xs[..|xs| - 1], n, step).commands + step(n + |Fold(xs[..|xs| - 1], n, step).commands|, xs[|xs| - 1]).commands)
  {
  }

  /** The fold over one more element of `xs`, the `k` commands before it sent. */
  lemma FoldNext<T, L>(xs: seq<T>, j: nat, n: nat, step: (nat, T) -> Report<L>, k: nat)
    requires j < |xs| && k == n + |Fold(xs[..j], n, step).commands|
    ensures Fold(xs[..j + 1], n, step).summary == Fold(xs[..j], n, step).summary + step(k, xs[j]).summary
    ensures Fold(xs[..j + 1], n, step).commands == Fold(xs[..j], n, step).commands + step(k, xs[j]).commands
  {
    var ys := xs[..j + 1];
    assert ys[..|ys| - 1] == xs[..j];
    assert ys[|ys| - 1] == xs[j];
  }

  /** A property every step's lines have holds of every gathered line. */
  lemma {:induction false} FoldKeeps<T, L>(xs: seq<T>, n: nat, step: (nat, T) -> Report<L>, keep: L -> bool)
    requires forall m: nat, x :: x in xs ==> forall s :: s in step(m, x).summary ==> keep(s)
    ensures forall s :: s in Fold(xs, n, step).summary ==> keep(s)
    decreases |xs|
  {
    if xs != [] {
      var init := xs[..|xs| - 1];
      assert forall x :: x in init ==> x in xs;
      FoldKeeps(init, n, step, keep);
    }
  }

  /** A property every step's commands have holds of every command sent. */
  lemma {:induction false} FoldSends<T, L>(xs: seq<T>, n: nat, step: (nat, T) -> Report<L>, keep: L -> bool)
    requires forall m: nat, x :: x in xs ==> forall c :: c in step(m, x).commands ==> keep(c)
    ensures forall c :: c in Fold(xs, n, step).commands ==> keep(c)
    decreases |xs|
  {
    if xs != [] {
      var init := xs[..|xs| - 1];
      assert forall x :: x in init ==> x in xs;
      FoldSends(init, n, step, keep);
    }
  }

  /** The lines of `r` that pass `keep` are exactly `[y]`. */
  predicate SelectsOne<L(!new, ==)>(r: Report<L>, keep: L -> bool, y: L)
  {
    Filter(r.summary, keep) == [y]
  }

  /** When each step reports exactly one line passing `keep`, the gathered lines passing it are those, in order. */
  lemma {:induction false} FoldSelects<T, L(!new)>(xs: seq<T>, n: nat, step: (nat, T) -> Report<L>, keep: L -> bool, f: T -> L)
    requires forall m: nat, x :: x in xs ==> SelectsOne(step(m, x), keep, f(x))
    ensures Filter(Fold(xs, n, step).summary, keep) == Map(xs, f)
    decreases |xs|
  {
    if xs != [] {
      var init := xs[..|xs| - 1];
      var r := Fold(init, n, step);
      var s := step(n + |r.commands|, xs[|xs| - 1]);
      assert forall x :: x in init ==> x in xs;
      FoldSelects(init, n, step, keep, f);
      assert SelectsOne(s, keep, f(xs[|xs| - 1]));
      SelectsAppend(r.summary, s.summary, keep, xs, f);
      FoldLast(xs, n, step);
    }
  }

  lemma SelectsAppend<T, L(!new)>(a: seq<L>, b: seq<L>, keep: L -> bool, xs: seq<T>, f: T -> L)
    requires xs != []
    requires Filter(a, keep) == Map(xs[..|xs| - 1], f) && Filter(b, keep) == [f(xs[|xs| - 1])]
    ensures Filter(a + b, keep) == Map(xs, f)
  {
    FilterAppend(a, b, keep);
    InitLast(xs);
    MapSnoc(xs[..|xs| - 1], xs[|xs| - 1], f);
  }





}
