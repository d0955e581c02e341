/** The shuffle of engine/rng.py as a map from swap choices to orderings: a
    bijection on lists without repetition. */
module FisherYates {

  function Swap<T>(s: seq<T>, i: nat, j: nat): (r: seq<T>)
    requires i < |s| && j < |s|
    ensures |r| == |s|
  {
    s[i := s[j]][j := s[i]]
  }

  lemma SwapLast<T>(s: seq<T>, j: nat)
    requires j < |s|
    ensures Swap(s, |s| - 1, j)[|s| - 1] == s[j]
  {
  }

  lemma SwapPermutes<T>(s: seq<T>, i: nat, j: nat)
    requires i < |s| && j < |s|
    ensures multiset(Swap(s, i, j)) == multiset(s)
  {
  }

  /** One choice for each of the positions n-1, ..., 1, at most the position itself. */
  predicate ValidChoices(n: nat, js: seq<nat>) {
    |js| == (if n <= 1 then 0 else n - 1) && forall k :: 0 <= k < |js| ==> js[k] <= n - 1 - k
  }

  /** The shuffle, by recursion on the positions still open: position n-1 gets the
      chosen item, the rest is shuffled among itself. */
  function Shuffle<T>(items: seq<T>, js: seq<nat>): (r: seq<T>)
    requires ValidChoices(|items|, js)
    ensures |r| == |items|
    decreases |items|
  {
    if |items| <= 1 then items
    else
      var n := |items|;
      var swapped := Swap(items, n - 1, js[0]);
      RestValid(n, js);
      Shuffle(swapped[..n - 1], js[1..]) + [swapped[n - 1]]
  }

  lemma RestValid(n: nat, js: seq<nat>)
    requires n > 1 && ValidChoices(n, js)
    ensures ValidChoices(n - 1, js[1..])
  {
  }

  /** The swaps of the loop of shuffled_wall, for the positions top, top - 1, ... */
  predicate StepsFit(n: nat, top: nat, js: seq<nat>) {
    |js| <= top && (js == [] || top < n) && forall k :: 0 <= k < |js| ==> js[k] <= top - k
  }

  function Steps<T>(items: seq<T>, top: nat, js: seq<nat>): (r: seq<T>)
    requires StepsFit(|items|, top, js)
    ensures |r| == |items|
    decreases |js|
  {
    if js == [] then items else Steps(Swap(items, top, js[0]), top - 1, js[1..])
  }

  /** One more iteration of the loop. */
  lemma {:induction false} StepsSnoc<T>(items: seq<T>, top: nat, js: seq<nat>, j: nat)
    requires StepsFit(|items|, top, js) && |js| < top < |items| && j <= top - |js|
    ensures StepsFit(|items|, top, js + [j])
    ensures Steps(items, top, js + [j]) == Swap(Steps(items, top, js), top - |js|, j)
    decreases |js|
  {
    if js == [] {
      assert (js + [j])[1..] == [];
    } else {
      StepsSnoc(Swap(items, top, js[0]), top - 1, js[1..], j);
      assert (js + [j])[1..] == js[1..] + [j];
    }
  }

  /** Iterations never touch a position above their first. */
  lemma {:induction false} StepsOnFront<T>(front: seq<T>, last: T, top: nat, js: seq<nat>)
    requires StepsFit(|front|, top, js)
    ensures Steps(front + [last], top, js) == Steps(front, top, js) + [last]
    decreases |js|
  {
    if js != [] {
      assert Swap(front + [last], top, js[0]) == Swap(front, top, js[0]) + [last];
      StepsOnFront(Swap(front, top, js[0]), last, top - 1, js[1..]);
    }
  }

  /** The loop computes the recursive shuffle. */
  lemma {:induction false} LoopIsShuffle<T>(items: seq<T>, js: seq<nat>)
    requires ValidChoices(|items|, js)
    ensures StepsFit(|items|, if items == [] then 0 else |items| - 1, js)
    ensures Steps(items, if items == [] then 0 else |items| - 1, js) == Shuffle(items, js)
    decreases |items|
  {
    if |items| > 1 {
      var n := |items|;
      var swapped := Swap(items, n - 1, js[0]);
      RestValid(n, js);
      assert swapped == swapped[..n - 1] + [swapped[n - 1]];
      LoopIsShuffle(swapped[..n - 1], js[1..]);
      StepsOnFront(swapped[..n - 1], swapped[n - 1], n - 2, js[1..]);
    }
  }

  predicate IsPermutation<T(==)>(p: seq<T>, items: seq<T>) { multiset(p) == multiset(items) }

  /** A shuffle rearranges: no item is lost, duplicated or invented. */
  lemma {:induction false} ShufflePermutes<T>(items: seq<T>, js: seq<nat>)
    requires ValidChoices(|items|, js)
    ensures IsPermutation(Shuffle(items, js), items)
    decreases |items|
  {
    if |items| > 1 {
      var n := |items|;
      var swapped := Swap(items, n - 1, js[0]);
      RestValid(n, js);
      SwapPermutes(items, n - 1, js[0]);
      ShufflePermutes(swapped[..n - 1], js[1..]);
      assert swapped == swapped[..n - 1] + [swapped[n - 1]];
    }
  }

  // --- the bijection ---

  ghost predicate Distinct<T(!new)>(s: seq<T>) { forall i, j :: 0 <= i < j < |s| ==> s[i] != s[j] }

  function Position<T(==)>(s: seq<T>, x: T): (k: nat)
    requires x in s
    ensures k < |s| && s[k] == x
  {
    if s[0] == x then 0 else 1 + Position(s[1..], x)
  }

  lemma PositionOf<T(!new)>(s: seq<T>, k: nat)
    requires k < |s| && Distinct(s)
    ensures s[k] in s && Position(s, s[k]) == k
  {
  }

  lemma DistinctFront<T(!new)>(s: seq<T>)
    requires s != [] && Distinct(s)
    ensures Distinct(s[..|s| - 1])
  {
  }

  lemma DistinctSwap<T(!new)>(s: seq<T>, i: nat, j: nat)
    requires i < |s| && j < |s| && Distinct(s)
    ensures Distinct(Swap(s, i, j))
  {
  }

  lemma PermutationLength<T>(p: seq<T>, items: seq<T>)
    requires IsPermutation(p, items)
    ensures |p| == |items|
  {
    assert |multiset(p)| == |p| && |multiset(items)| == |items|;
  }

  lemma WithoutLast<T>(a: seq<T>, b: seq<T>, x: T)
    requires IsPermutation(a + [x], b + [x])
    ensures IsPermutation(a, b)
  {
    assert multiset(a + [x]) - multiset{x} == multiset(a);
    assert multiset(b + [x]) - multiset{x} == multiset(b);
  }

  /** What is left to choose once the last item of p has been brought to the end. */
  lemma FrontOfPermutation<T>(items: seq<T>, p: seq<T>, j: nat)
    requires items != [] && IsPermutation(p, items) && |p| == |items|
    requires j < |items| && items[j] == p[|p| - 1]
    ensures IsPermutation(p[..|p| - 1], Swap(items, |items| - 1, j)[..|items| - 1])
  {
    var n := |items|;
    var swapped := Swap(items, n - 1, j);
    assert IsPermutation(p[..n - 1] + [p[n - 1]], swapped[..n - 1] + [p[n - 1]]) by {
      SwapPermutes(items, n - 1, j);
      assert p == p[..n - 1] + [p[n - 1]];
      assert swapped == swapped[..n - 1] + [p[n - 1]];
    }
    hide IsPermutation;
    WithoutLast(p[..n - 1], swapped[..n - 1], p[n - 1]);
  }

  lemma SingletonPermutation<T>(items: seq<T>, p: seq<T>)
    requires IsPermutation(p, items) && |items| <= 1
    ensures p == items
  {
    PermutationLength(p, items);
    if |items| == 1 {
      assert p[0] in multiset(p);
    }
  }

  lemma LastIsAnItem<T>(items: seq<T>, p: seq<T>)
    requires items != [] && IsPermutation(p, items)
    ensures |p| == |items| && p[|p| - 1] in items
  {
    PermutationLength(p, items);
    assert p[|p| - 1] in multiset(p);
  }

  /** The choices that lead to an ordering: where its last item stands, and so on. */
  function Choices<T(==)>(items: seq<T>, p: seq<T>): (js: seq<nat>)
    requires IsPermutation(p, items)
    ensures ValidChoices(|items|, js)
    decreases |items|
  {
    if |items| <= 1 then []
    else
      LastIsAnItem(items, p);
      var n := |items|;
      var j := Position(items, p[n - 1]);
      FrontOfPermutation(items, p, j);
      [j] + Choices(Swap(items, n - 1, j)[..n - 1], p[..n - 1])
  }

  /** Every ordering of the items is reached: by its choices. */
  lemma {:induction false} EveryOrderingReached<T>(items: seq<T>, p: seq<T>)
    requires IsPermutation(p, items)
    ensures Shuffle(items, Choices(items, p)) == p
    decreases |items|
  {
    hide IsPermutation;
    hide Swap;
    var n := |items|;
    if n <= 1 {
      SingletonPermutation(items, p);
    } else {
      LastIsAnItem(items, p);
      var j := Position(items, p[n - 1]);
      FrontOfPermutation(items, p, j);
      var front := Swap(items, n - 1, j)[..n - 1];
      assert ([j] + Choices(front, p[..n - 1]))[1..] == Choices(front, p[..n - 1]);
      EveryOrderingReached(front, p[..n - 1]);
      SwapLast(items, j);
      assert p == p[..n - 1] + [p[n - 1]];
    }
  }

  /** No ordering of distinct items is reached twice: it gives its choices back. */
  lemma {:induction false} ChoicesRecovered<T(!new)>(items: seq<T>, js: seq<nat>)
    requires ValidChoices(|items|, js) && Distinct(items)
    ensures IsPermutation(Shuffle(items, js), items)
    ensures Choices(items, Shuffle(items, js)) == js
    decreases |items|
  {
    hide IsPermutation;
    hide Swap;
    hide Distinct;
    ShufflePermutes(items, js);
    var n := |items|;
    if n > 1 {
      var p := Shuffle(items, js);
      RestValid(n, js);
      SwapLast(items, js[0]);
      LastIsAnItem(items, p);
      PositionOf(items, js[0]);
      FrontOfPermutation(items, p, js[0]);
      DistinctSwap(items, n - 1, js[0]);
      DistinctFront(Swap(items, n - 1, js[0]));
      ChoicesRecovered(Swap(items, n - 1, js[0])[..n - 1], js[1..]);
      assert p[..n - 1] == Shuffle(Swap(items, n - 1, js[0])[..n - 1], js[1..]);
      assert js == [js[0]] + js[1..];
    }
  }

  ghost predicate Reaches<T(!new)>(items: seq<T>, js: seq<nat>, p: seq<T>) {
    ValidChoices(|items|, js) && Shuffle(items, js) == p
  }

  /** The bijection: on distinct items, of any number, the orderings are exactly the
      reached lists, and each comes from exactly one vector of choices. */
  lemma ShuffleIsBijection<T(!new)>(items: seq<T>)
    requires Distinct(items)
    ensures forall p :: IsPermutation(p, items) <==> exists js :: Reaches(items, js, p)
    ensures forall js, ks, p :: Reaches(items, js, p) && Reaches(items, ks, p) ==> js == ks
  {
    forall js, p | Reaches(items, js, p)
      ensures IsPermutation(p, items) && Choices(items, p) == js
    {
      ChoicesRecovered(items, js);
    }
    forall p | IsPermutation(p, items)
      ensures exists js :: Reaches(items, js, p)
    {
      EveryOrderingReached(items, p);
      assert Reaches(items, Choices(items, p), p);
    }
  }

  // --- relabelling ---

  function Relabel<S, T>(f: S -> T, s: seq<S>): (r: seq<T>)
    ensures |r| == |s| && forall k :: 0 <= k < |s| ==> r[k] == f(s[k])
  {
    seq(|s|, k requires 0 <= k < |s| => f(s[k]))
  }

  /** Shuffling looks at positions only: a deck with equal tiles is shuffled as its
      positions are, so each ordering of positions has its own choices. */
  lemma {:induction false} ShuffleIsNatural<S, T>(f: S -> T, items: seq<S>, js: seq<nat>)
    requires ValidChoices(|items|, js)
    ensures Shuffle(Relabel(f, items), js) == Relabel(f, Shuffle(items, js))
    decreases |items|
  {
    var n := |items|;
    if n > 1 {
      var swapped := Swap(items, n - 1, js[0]);
      RestValid(n, js);
      ShuffleIsNatural(f, swapped[..n - 1], js[1..]);
      assert Relabel(f, swapped) == Swap(Relabel(f, items), n - 1, js[0]);
      assert Relabel(f, swapped)[..n - 1] == Relabel(f, swapped[..n - 1]);
    }
  }
}
