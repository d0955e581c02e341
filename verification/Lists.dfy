/** Option and Result values, and the list operations the engine and the browser
    client share: removing the first or the last occurrence of an element,
    sorting, and finding the smallest element under a ranking. */
module Lists {
  import opened Tiles

  datatype Option<+T> = None | Some(value: T)

  /** What can go wrong when the rules engine, the table manager or the record
      replayer runs. Each constructor names the exception of the Python code. */
  datatype Error =
    | IllegalAction      // the action is not in legal_actions
    | ValueMissing       // list.remove / index of an element that is not there
    | AssertionFailed    // an assert statement
    | PopFromEmpty       // list.pop() on an empty list, or indexing past the end
    | BadArgument        // ValueError on an argument out of range
    | ReplyNotAMapping   // dict(action) on an adapter reply that is no mapping
    | Overflow           // int.to_bytes on a number that does not fit
    | NotRecordable      // json.dumps on a value that is no JSON
    | AdapterEscaped     // CancelledError out of an adapter call
    | StepStalled        // HandStepStalled: an adapter call that never returns

  datatype Result<+T> = Ok(value: T) | Err(error: Error) {
    predicate IsFailure() { Err? }
    function PropagateFailure<U>(): Result<U>
      requires Err?
    {
      Err(error)
    }
    function Extract(): T
      requires Ok?
    {
      value
    }
  }

  /** Appending step by step: what a list-building loop adds and what is still to come. */
  lemma Appended<T>(done: seq<T>, step: seq<T>, rest: seq<T>)
    ensures (done + step) + rest == done + (step + rest) && done + [] == done && [] + done == done
  {
  }

  /** The position of the first occurrence of x: list.index, indexOf. */
  function IndexOf(s: seq<Tile>, x: Tile): (k: nat)
    requires x in s
    ensures k < |s| && s[k] == x && x !in s[..k]
  {
    if s[0] == x then 0
    else
      assert s == [s[0]] + s[1..];
      1 + IndexOf(s[1..], x)
  }

  /** Python's list.remove without the exception, and the client's
      indexOf-and-splice: the first occurrence of x goes, if there is one. */
  function RemoveFirst(s: seq<Tile>, x: Tile): (r: seq<Tile>)
    ensures multiset(r) == multiset(s) - multiset{x}
    ensures |r| == if x in s then |s| - 1 else |s|
  {
    if x !in s then s
    else
      var k := IndexOf(s, x);
      assert s == s[..k] + [x] + s[k + 1..];
      s[..k] + s[k + 1..]
  }

  /** n successive removals of the first occurrence of x. */
  function RemoveTimes(s: seq<Tile>, x: Tile, n: nat): (r: seq<Tile>)
    decreases n
  {
    if n == 0 then s else RemoveTimes(RemoveFirst(s, x), x, n - 1)
  }

  lemma {:induction false} RemoveTimesLength(s: seq<Tile>, x: Tile, n: nat)
    requires multiset(s)[x] >= n
    ensures |RemoveTimes(s, x, n)| == |s| - n
    decreases n
  {
    hide RemoveFirst;
    if n > 0 {
      RemoveTimesLength(RemoveFirst(s, x), x, n - 1);
    }
  }

  lemma RemoveFirstCount(s: seq<Tile>, x: Tile, y: Tile)
    requires multiset(s)[x] >= 1
    ensures multiset(RemoveFirst(s, x))[y] == multiset(s)[y] - if y == x then 1 else 0
  {
    hide RemoveFirst;
  }

  lemma {:induction false} RemoveTimesCount(s: seq<Tile>, x: Tile, n: nat, y: Tile)
    requires multiset(s)[x] >= n
    ensures multiset(RemoveTimes(s, x, n))[y] == multiset(s)[y] - if y == x then n else 0
    decreases n
  {
    hide RemoveFirst;
    if n > 0 {
      RemoveFirstCount(s, x, x);
      RemoveFirstCount(s, x, y);
      RemoveTimesCount(RemoveFirst(s, x), x, n - 1, y);
    }
  }

  /** The client's backward search and splice: the last occurrence of x goes. */
  function RemoveLast(s: seq<Tile>, x: Tile): (r: seq<Tile>)
  {
    if s == [] then []
    else if s[|s| - 1] == x then s[..|s| - 1]
    else RemoveLast(s[..|s| - 1], x) + [s[|s| - 1]]
  }

  ghost predicate Sorted(s: seq<Tile>) {
    forall i, j :: 0 <= i < j < |s| ==> s[i] <= s[j]
  }

  /** Insert x behind every element that is not larger. */
  function Insert(s: seq<Tile>, x: Tile): (r: seq<Tile>)
    ensures multiset(r) == multiset(s) + multiset{x}
    ensures |r| == |s| + 1
  {
    if s == [] then [x]
    else if x < s[0] then [x] + s
    else
      assert s == [s[0]] + s[1..];
      [s[0]] + Insert(s[1..], x)
  }

  /** Tokens that stand for the tiles of a sorted hand. */
  ghost predicate SortedTokens(tokens: seq<string>, hand: seq<Tile>) {
    |hand| == |tokens| && Sorted(hand) && forall k :: 0 <= k < |hand| ==> Token(hand[k]) == tokens[k]
  }

  /** _check_concealed_sorted: accepts exactly the token lists of sorted hands. */
  method CheckConcealedSorted(tokens: seq<string>) returns (ok: bool)
    ensures ok <==> exists hand :: SortedTokens(tokens, hand)
  {
    var prev: Option<Tile> := None;
    ghost var hand: seq<Tile> := [];
    for k := 0 to |tokens|
      invariant SortedTokens(tokens[..k], hand)
      invariant prev == if k == 0 then None else Some(hand[k - 1])
    {
      if !ValidateTile(tokens[k]) {
        forall other | |other| == |tokens| ensures !SortedTokens(tokens, other) {
          TokenValid(tokens[k]);
          assert Token(other[k]) != tokens[k];
        }
        return false;
      }
      var tile := TileOfToken(tokens[k]);
      if prev.Some? && KeyBelow(TileSortKey(tile), TileSortKey(prev.value)) {
        forall other | SortedTokens(tokens, other) ensures false {
          TokenInjective(other[k], tile);
          TokenInjective(other[k - 1], prev.value);
          OneCanonicalOrder(tile, prev.value);
        }
        return false;
      }
      if prev.Some? {
        OneCanonicalOrder(tile, prev.value);
      }
      prev := Some(tile);
      hand := hand + [tile];
    }
    assert tokens[..|tokens|] == tokens;
    ok := true;
  }


  lemma {:induction false} InsertSorted(s: seq<Tile>, x: Tile)
    requires Sorted(s)
    ensures Sorted(Insert(s, x))
  {
    if s != [] && s[0] <= x {
      InsertSorted(s[1..], x);
      var rest := Insert(s[1..], x);
      forall i | 0 <= i < |rest| ensures s[0] <= rest[i] {
        assert rest[i] in multiset(s[1..]) + multiset{x};
        assert rest[i] == x || rest[i] in s[1..];
      }
    }
  }

  /** list.sort on tiles: see SortIsTheOnlySort for why the algorithm behind the
      library call does not matter. */
  function Sort(s: seq<Tile>): (r: seq<Tile>)
    ensures Sorted(r) && multiset(r) == multiset(s) && |r| == |s|
  {
    if s == [] then [] else
      assert s == s[..|s| - 1] + [s[|s| - 1]];
      InsertSorted(Sort(s[..|s| - 1]), s[|s| - 1]);
      Insert(Sort(s[..|s| - 1]), s[|s| - 1])
  }

  lemma SmallestFirst(a: seq<Tile>, b: seq<Tile>)
    requires Sorted(a) && Sorted(b) && multiset(a) == multiset(b) && a != []
    ensures b != [] && a[0] == b[0]
  {
    assert a[0] in multiset(b) && a[0] in b;
    assert b[0] in multiset(a) && b[0] in a;
  }

  lemma TailCounts(a: seq<Tile>)
    requires a != []
    ensures multiset(a[1..]) == multiset(a) - multiset{a[0]}
    ensures Sorted(a) ==> Sorted(a[1..])
  {
    assert a == [a[0]] + a[1..];
  }

  /** A sorted list is determined by how often each element occurs in it. */
  lemma {:induction false} SortedUnique(a: seq<Tile>, b: seq<Tile>)
    requires Sorted(a) && Sorted(b) && multiset(a) == multiset(b)
    ensures a == b
  {
    if a != [] {
      SmallestFirst(a, b);
      TailCounts(a);
      TailCounts(b);
      SortedUnique(a[1..], b[1..]);
      assert a == [a[0]] + a[1..] && b == [b[0]] + b[1..];
    } else if b != [] {
      SmallestFirst(b, a);
    }
  }

  /** Any routine that returns a sorted rearrangement returns Sort's result. */
  lemma SortIsTheOnlySort(s: seq<Tile>, r: seq<Tile>)
    requires Sorted(r) && multiset(r) == multiset(s)
    ensures r == Sort(s)
  {
    SortedUnique(r, Sort(s));
  }

  /** Removal keeps a list sorted. */
  lemma RemoveFirstSorted(s: seq<Tile>, x: Tile)
    requires Sorted(s)
    ensures Sorted(RemoveFirst(s, x))
  {
  }

  lemma {:induction false} RemoveTimesSorted(s: seq<Tile>, x: Tile, n: nat)
    requires Sorted(s)
    ensures Sorted(RemoveTimes(s, x, n))
    decreases n
  {
    hide RemoveFirst;
    if n > 0 {
      RemoveFirstSorted(s, x);
      var once := RemoveFirst(s, x);
      RemoveTimesSorted(once, x, n - 1);
      assert RemoveTimes(s, x, n) == RemoveTimes(once, x, n - 1);
    }
  }
}
