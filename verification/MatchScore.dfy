/** The running score of a match (table/match_score.py). */
module MatchScore {
  import opened Lists
  import opened GameTypes
  import opened Scoring
  import opened Invariant

  type Points = p: seq<int> | |p| == 4 witness [0, 0, 0, 0]

  const NO_POINTS: Points := [0, 0, 0, 0]

  /** hand_deltas. None stands for a hand without a terminal and for a score_delta
      that is missing or no list. */
  function HandDeltas(delta: Option<seq<int>>): (p: Points) {
    if delta.Some? && |delta.value| == 4 then delta.value else NO_POINTS
  }

  function Plus(p: Points, q: Points): Points {
    [p[0] + q[0], p[1] + q[1], p[2] + q[2], p[3] + q[3]]
  }

  /** The totals after some hands. */
  function Totals(hands: seq<Points>): (p: Points) {
    if hands == [] then NO_POINTS else Plus(Totals(hands[..|hands| - 1]), hands[|hands| - 1])
  }

  /** What one seat won and lost, hand by hand. */
  function Line(hands: seq<Points>, seat: SeatIx): (l: seq<int>)
    ensures |l| == |hands|
  {
    seq(|hands|, k requires 0 <= k < |hands| => hands[k][seat])
  }

  /** A seat's total is the sum of its own line, and of nothing else. */
  lemma {:induction false} TotalsAreLineSums(hands: seq<Points>, seat: SeatIx)
    ensures Totals(hands)[seat] == Sum(Line(hands, seat))
  {
    if hands != [] {
      var front := hands[..|hands| - 1];
      TotalsAreLineSums(front, seat);
      assert Line(hands, seat) == Line(front, seat) + [hands[|hands| - 1][seat]];
      SumSnoc(Line(front, seat), hands[|hands| - 1][seat]);
    }
  }

  lemma {:induction false} SumSnoc(l: seq<int>, x: int)
    ensures Sum(l + [x]) == Sum(l) + x
  {
    if l == [] {
      assert [] + [x] == [x];
    } else {
      SumSnoc(l[1..], x);
      assert (l + [x])[1..] == l[1..] + [x];
    }
  }

  /** If no hand makes or loses points, no sequence of hands does. */
  lemma {:induction false} TotalsZeroSum(hands: seq<Points>)
    requires forall k :: 0 <= k < |hands| ==> Sum(hands[k]) == 0
    ensures Sum(Totals(hands)) == 0
  {
    SumOfFour(Totals(hands));
    if hands != [] {
      var front, last := hands[..|hands| - 1], hands[|hands| - 1];
      TotalsZeroSum(front);
      SumOfFour(Totals(front));
      SumOfFour(last);
    }
  }

  /** The score_delta of a state's terminal. */
  function DeltaOf(s: State): Option<seq<int>> {
    if s.terminal.Some? then Some(s.terminal.value.delta) else None
  }

  /** What engine-produced hands contribute is what their terminals say, never the
      fallback for malformed ones, and a match of them is zero-sum after every hand. */
  lemma MatchIsZeroSum(finals: seq<State>, hands: seq<Points>)
    requires |hands| == |finals|
    requires forall k :: 0 <= k < |finals| ==> Inv(finals[k]) && finals[k].phase == TerminalPhase
    requires forall k :: 0 <= k < |finals| ==> hands[k] == HandDeltas(DeltaOf(finals[k]))
    ensures forall k :: 0 <= k < |finals| ==> DeltaOf(finals[k]) == Some(hands[k])
    ensures forall n :: 0 <= n <= |hands| ==> Sum(Totals(hands[..n])) == 0
  {
    forall k | 0 <= k < |finals|
      ensures DeltaOf(finals[k]) == Some(hands[k]) && Sum(hands[k]) == 0
    {
      assert Inv(finals[k]);
    }
    forall n | 0 <= n <= |hands| ensures Sum(Totals(hands[..n])) == 0 {
      forall k | 0 <= k < n ensures Sum(hands[..n][k]) == 0 {
        assert DeltaOf(finals[k]) == Some(hands[k]);
      }
      TotalsZeroSum(hands[..n]);
    }
  }

  class MatchScore {
    /** The four totals, updated in place. */
    const cumulative: array<int>
    var series: seq<Points>
    ghost var hands: seq<Points>

    /** The totals and the series say what the hands so far came to. */
    ghost predicate Valid()
      reads this, cumulative
    {
      && cumulative.Length == 4
      && cumulative[..] == Totals(hands)
      && |series| == |hands|
      && forall i :: 0 <= i < |series| ==> series[i] == Totals(hands[..i + 1])
    }

    constructor ()
      ensures Valid() && fresh(cumulative) && hands == [] && series == []
    {
      cumulative := new int[4](_ => 0);
      series := [];
      hands := [];
      new;
      assert cumulative[..] == NO_POINTS;
    }

    /** record_hand. */
    method RecordHand(delta: Option<seq<int>>)
      requires Valid()
      modifies this, cumulative
      ensures Valid()
      ensures hands == old(hands) + [HandDeltas(delta)]
      ensures series == old(series) + [cumulative[..]]
    {
      var deltas := HandDeltas(delta);
      var before: Points := cumulative[..];
      for seat := 0 to 4
        invariant forall i :: 0 <= i < 4 ==> cumulative[i] == before[i] + if i < seat then deltas[i] else 0
        invariant series == old(series) && hands == old(hands)
      {
        cumulative[seat] := cumulative[seat] + deltas[seat];
      }
      hands := hands + [deltas];
      assert hands[..|hands| - 1] == old(hands);
      assert cumulative[..] == Plus(before, deltas);
      series := series + [cumulative[..]];
      forall i | 0 <= i < |series|
        ensures series[i] == Totals(hands[..i + 1])
      {
        if i < |old(series)| {
          assert hands[..i + 1] == old(hands)[..i + 1];
        } else {
          assert hands[..i + 1] == hands;
        }
      }
    }
  }
}
