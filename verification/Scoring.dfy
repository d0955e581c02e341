/** Fan-to-points conversion (engine/scoring.py). */
module Scoring {
  import opened Lists
  import opened Tiles
  import opened GameTypes

  function Sum(xs: seq<int>): int {
    if xs == [] then 0 else xs[0] + Sum(xs[1..])
  }

  lemma SumUnfolds(xs: seq<int>)
    requires xs != []
    ensures Sum(xs) == xs[0] + Sum(xs[1..])
  {
  }

  lemma SumOfFour(xs: seq<int>)
    requires |xs| == 4
    ensures Sum(xs) == xs[0] + xs[1] + xs[2] + xs[3]
  {
    SumUnfolds(xs);
    SumUnfolds(xs[1..]);
    SumUnfolds(xs[1..][1..]);
    SumUnfolds(xs[1..][1..][1..]);
    assert Sum([]) == 0;
    hide Sum;
    assert xs[1..][1..][1..][1..] == [];
  }

  /** What the losers of a win pay: `seat` pays `payIn` if it dealt in (or on a
      self-draw, when nobody did) and `payOther` otherwise. */
  function Payment(winner: SeatIx, dealIn: Option<SeatIx>, payIn: int, payOther: int, seat: SeatIx): int {
    if seat == winner then 0
    else if dealIn.None? || dealIn.value == seat then payIn else payOther
  }

  function TotalPaid(winner: SeatIx, dealIn: Option<SeatIx>, payIn: int, payOther: int): int {
    Payment(winner, dealIn, payIn, payOther, 0) + Payment(winner, dealIn, payIn, payOther, 1)
    + Payment(winner, dealIn, payIn, payOther, 2) + Payment(winner, dealIn, payIn, payOther, 3)
  }

  /** The settlement of a win: every loser is debited its payment, and the
      winner is credited with what the losers pay. */
  function Settlement(winner: SeatIx, dealIn: Option<SeatIx>, payIn: int, payOther: int): (d: seq<int>)
    ensures |d| == 4
  {
    seq(4, i requires 0 <= i < 4 =>
      if i == winner then TotalPaid(winner, dealIn, payIn, payOther)
      else -Payment(winner, dealIn, payIn, payOther, i))
  }

  lemma SettlementZeroSum(winner: SeatIx, dealIn: Option<SeatIx>, payIn: int, payOther: int)
    ensures Sum(Settlement(winner, dealIn, payIn, payOther)) == 0
  {
    SumOfFour(Settlement(winner, dealIn, payIn, payOther));
  }

  /** lookup_x: the first tier that reaches the total, else the last tier. */
  function LookupX(fanTotal: int, tiers: seq<Tier>): (x: int)
    requires tiers != []
    ensures exists k :: 0 <= k < |tiers| && x == tiers[k].points
                        && (forall j :: 0 <= j < k ==> tiers[j].maxFan < fanTotal)
                        && (fanTotal <= tiers[k].maxFan || k == |tiers| - 1)
  {
    if fanTotal <= tiers[0].maxFan || |tiers| == 1 then tiers[0].points
    else
      var x := LookupX(fanTotal, tiers[1..]);
      ghost var k :| 0 <= k < |tiers[1..]| && x == tiers[1..][k].points
                     && (forall j :: 0 <= j < k ==> tiers[1..][j].maxFan < fanTotal)
                     && (fanTotal <= tiers[1..][k].maxFan || k == |tiers[1..]| - 1);
      assert tiers[k + 1] == tiers[1..][k];
      assert forall j :: 1 <= j < k + 1 ==> tiers[j] == tiers[1..][j - 1];
      x
  }

  /** score_delta. A discard win needs a discarder (an assertion in the code),
      and a house table needs a tier. */
  function ScoreDelta(winner: SeatIx, fanTotal: int, winType: WinType, dealIn: Option<SeatIx>,
                      conv: Conversion): (r: Result<seq<int>>)
    ensures r.Ok? ==> |r.value| == 4
    ensures r.Err? <==> (winType.FromDiscard? && dealIn.None?) || (conv.HouseTable? && conv.tiers == [])
  {
    match conv
    case Official(baseEach, baseDealerIn, baseOther) =>
      if winType.SelfDraw? then Ok(Settlement(winner, None, fanTotal + baseEach, 0))
      else if dealIn.None? then Err(AssertionFailed)
      else Ok(Settlement(winner, dealIn, fanTotal + baseDealerIn, baseOther))
    case HouseTable(tiers, eachMult, dealerInMult, otherMult) =>
      if tiers == [] then Err(PopFromEmpty)
      else
        var x := LookupX(fanTotal, tiers);
        if winType.SelfDraw? then Ok(Settlement(winner, None, eachMult * x, 0))
        else if dealIn.None? then Err(AssertionFailed)
        else Ok(Settlement(winner, dealIn, dealerInMult * x, otherMult * x))
  }

  /** No configuration can unbalance a payout: for every winner, fan total, win
      type, discarder and conversion block the deltas sum to zero. */
  lemma ScoreDeltaZeroSum(winner: SeatIx, fanTotal: int, winType: WinType, dealIn: Option<SeatIx>,
                          conv: Conversion)
    requires ScoreDelta(winner, fanTotal, winType, dealIn, conv).Ok?
    ensures Sum(ScoreDelta(winner, fanTotal, winType, dealIn, conv).value) == 0
  {
    match conv
    case Official(baseEach, baseDealerIn, baseOther) =>
      SettlementZeroSum(winner, None, fanTotal + baseEach, 0);
      SettlementZeroSum(winner, dealIn, fanTotal + baseDealerIn, baseOther);
    case HouseTable(tiers, eachMult, dealerInMult, otherMult) =>
      var x := LookupX(fanTotal, tiers);
      SettlementZeroSum(winner, None, eachMult * x, 0);
      SettlementZeroSum(winner, dealIn, dealerInMult * x, otherMult * x);
  }

  /** What the winner collects: three equal payments, or one and twice the other. */
  lemma PaidInAll(winner: SeatIx, dealIn: Option<SeatIx>, payIn: int, payOther: int)
    requires dealIn.Some? ==> dealIn.value != winner
    ensures TotalPaid(winner, dealIn, payIn, payOther) ==
            if dealIn.None? then 3 * payIn else payIn + 2 * payOther
  {
    if winner == 0 {
    } else if winner == 1 {
    } else if winner == 2 {
    } else {
      assert winner == 3;
    }
  }

  lemma SettlementAmounts(winner: SeatIx, dealIn: Option<SeatIx>, payIn: int, payOther: int, i: SeatIx)
    requires dealIn.Some? ==> dealIn.value != winner
    ensures Settlement(winner, dealIn, payIn, payOther)[i] ==
            if i == winner then (if dealIn.None? then 3 * payIn else payIn + 2 * payOther)
            else -(if dealIn.None? || dealIn.value == i then payIn else payOther)
  {
    PaidInAll(winner, dealIn, payIn, payOther);
    hide TotalPaid;
  }

  /** Each loser pays its amount, and what they pay is what the winner gets. */
  ghost predicate Pays(delta: seq<int>, winner: SeatIx, giver: Option<SeatIx>, fromGiver: int, fromOther: int)
    requires |delta| == 4
  {
    && (forall i: SeatIx :: i != winner ==> delta[i] == if giver == Some(i) then -fromGiver else -fromOther)
    && delta[winner] == if giver.Some? && giver.value != winner then fromGiver + 2 * fromOther else 3 * fromOther
  }

  lemma SettlementPays(winner: SeatIx, giver: SeatIx, payIn: int, payOther: int)
    ensures Pays(Settlement(winner, None, payIn, 0), winner, None, payIn, payIn)
    ensures Pays(Settlement(winner, Some(giver), payIn, payOther), winner, Some(giver), payIn, payOther)
  {
    forall i: SeatIx ensures Settlement(winner, None, payIn, 0)[i] == if i == winner then 3 * payIn else -payIn {
      SettlementAmounts(winner, None, payIn, 0, i);
    }
    if giver != winner {
      forall i: SeatIx
        ensures Settlement(winner, Some(giver), payIn, payOther)[i] ==
                if i == winner then payIn + 2 * payOther else if i == giver then -payIn else -payOther
      {
        SettlementAmounts(winner, Some(giver), payIn, payOther, i);
      }
    } else {
      OwnDiscardPaid(winner, payIn, payOther);
    }
    hide Settlement;
  }

  /** Were the winner its own discarder, its payment would cancel out. */
  lemma OwnDiscardPaid(winner: SeatIx, payIn: int, payOther: int)
    ensures TotalPaid(winner, Some(winner), payIn, payOther) == 3 * payOther
  {
    if winner == 0 {
    } else if winner == 1 {
    } else if winner == 2 {
    } else {
      assert winner == 3;
    }
  }

  /** The official scheme, for any bases: on a self-draw every loser pays the fan and the
      base for it; on a discard win the discarder pays the fan and its base, the others
      only theirs. */
  lemma OfficialPays(winner: SeatIx, fanTotal: int, dealIn: Option<SeatIx>, giver: SeatIx,
                     baseEach: int, baseDealerIn: int, baseOther: int)
    ensures var conv := Official(baseEach, baseDealerIn, baseOther);
            var selfDraw := ScoreDelta(winner, fanTotal, SelfDraw, dealIn, conv);
            var ron := ScoreDelta(winner, fanTotal, FromDiscard, Some(giver), conv);
            && selfDraw.Ok? && Pays(selfDraw.value, winner, None, 0, fanTotal + baseEach)
            && ron.Ok? && Pays(ron.value, winner, Some(giver), fanTotal + baseDealerIn, baseOther)
  {
    SettlementPays(winner, giver, fanTotal + baseEach, 0);
    SettlementPays(winner, giver, fanTotal + baseDealerIn, baseOther);
    hide Settlement;
  }

  /** The tier a total falls into: the first that reaches it, or the last of all. */
  ghost predicate TierOf(fanTotal: int, tiers: seq<Tier>, k: nat) {
    && k < |tiers|
    && (forall j :: 0 <= j < k ==> tiers[j].maxFan < fanTotal)
    && (fanTotal <= tiers[k].maxFan || k == |tiers| - 1)
  }

  /** A house table, for any tiers and multipliers: on a self-draw every loser pays
      `eachMult` times the points of the total's tier; on a discard win the discarder
      pays `dealerInMult` times as much, the others `otherMult` times. */
  lemma HouseTablePays(winner: SeatIx, fanTotal: int, dealIn: Option<SeatIx>, giver: SeatIx,
                       tiers: seq<Tier>, k: nat, eachMult: int, dealerInMult: int, otherMult: int)
    requires TierOf(fanTotal, tiers, k)
    ensures var conv := HouseTable(tiers, eachMult, dealerInMult, otherMult);
            var x := tiers[k].points;
            var selfDraw := ScoreDelta(winner, fanTotal, SelfDraw, dealIn, conv);
            var ron := ScoreDelta(winner, fanTotal, FromDiscard, Some(giver), conv);
            && selfDraw.Ok? && Pays(selfDraw.value, winner, None, 0, eachMult * x)
            && ron.Ok? && Pays(ron.value, winner, Some(giver), dealerInMult * x, otherMult * x)
  {
    var x := LookupX(fanTotal, tiers);
    TierIsUnique(fanTotal, tiers, k);
    SettlementPays(winner, giver, eachMult * x, 0);
    SettlementPays(winner, giver, dealerInMult * x, otherMult * x);
    hide Settlement;
    hide LookupX;
  }

  lemma TierIsUnique(fanTotal: int, tiers: seq<Tier>, k: nat)
    requires TierOf(fanTotal, tiers, k)
    ensures LookupX(fanTotal, tiers) == tiers[k].points
  {
    var x := LookupX(fanTotal, tiers);
    var i :| 0 <= i < |tiers| && x == tiers[i].points
             && (forall j :: 0 <= j < i ==> tiers[j].maxFan < fanTotal)
             && (fanTotal <= tiers[i].maxFan || i == |tiers| - 1);
    assert i == k;
  }

  /** The default scheme, seat by seat (section 3.9.2 of the Mahjong Competition Rules):
      every loser pays eight points, and whoever must pay the hand pays its fan too. */
  lemma DefaultSchemePays(winner: SeatIx, fanTotal: int, winType: WinType, dealIn: Option<SeatIx>)
    requires winType.FromDiscard? ==> dealIn.Some? && dealIn.value != winner
    ensures var r := ScoreDelta(winner, fanTotal, winType, dealIn, Official(8, 8, 8));
            && r.Ok?
            && (winType.SelfDraw? ==>
                  && r.value[winner] == 3 * (fanTotal + 8)
                  && forall i: SeatIx :: i != winner ==> r.value[i] == -(fanTotal + 8))
            && (winType.FromDiscard? ==>
                  && r.value[winner] == fanTotal + 24 && r.value[dealIn.value] == -(fanTotal + 8)
                  && forall i: SeatIx :: i != winner && i != dealIn.value ==> r.value[i] == -8)
  {
    hide ScoreDelta;
    OfficialPays(winner, fanTotal, dealIn, if dealIn.Some? then dealIn.value else 0, 8, 8, 8);
  }

  // --- the loops ---

  /** lookup_x's search. */
  method SearchTiers(fanTotal: int, tiers: seq<Tier>) returns (x: int)
    requires tiers != []
    ensures x == LookupX(fanTotal, tiers)
  {
    var k := 0;
    while k < |tiers|
      invariant 0 <= k <= |tiers|
      invariant k < |tiers| ==> LookupX(fanTotal, tiers) == LookupX(fanTotal, tiers[k..])
      invariant k == |tiers| ==> LookupX(fanTotal, tiers) == tiers[|tiers| - 1].points
    {
      if fanTotal <= tiers[k].maxFan {
        return tiers[k].points;
      }
      assert k + 1 < |tiers| ==> tiers[k..][1..] == tiers[k + 1..];
      k := k + 1;
    }
    x := tiers[|tiers| - 1].points;
  }

  /** What the losers among the first n seats pay. */
  ghost function PaidBelow(winner: SeatIx, dealIn: Option<SeatIx>, payIn: int, payOther: int, n: int): int {
    (if 0 < n then Payment(winner, dealIn, payIn, payOther, 0) else 0)
    + (if 1 < n then Payment(winner, dealIn, payIn, payOther, 1) else 0)
    + (if 2 < n then Payment(winner, dealIn, payIn, payOther, 2) else 0)
    + (if 3 < n then Payment(winner, dealIn, payIn, payOther, 3) else 0)
  }

  lemma PaidStep(winner: SeatIx, dealIn: Option<SeatIx>, payIn: int, payOther: int, i: SeatIx)
    ensures PaidBelow(winner, dealIn, payIn, payOther, 0) == 0
    ensures PaidBelow(winner, dealIn, payIn, payOther, i + 1) ==
            PaidBelow(winner, dealIn, payIn, payOther, i) + Payment(winner, dealIn, payIn, payOther, i)
    ensures PaidBelow(winner, dealIn, payIn, payOther, 4) == TotalPaid(winner, dealIn, payIn, payOther)
  {
    hide Payment;
  }

  /** What the discarder pays comes on top of what all losers pay. */
  lemma DiscarderPaysToo(winner: SeatIx, dealIn: SeatIx, payIn: int, payOther: int)
    ensures TotalPaid(winner, Some(dealIn), payIn, payOther) ==
            TotalPaid(winner, Some(dealIn), 0, payOther) + if dealIn == winner then 0 else payIn
  {
    if dealIn == 0 {
    } else if dealIn == 1 {
    } else if dealIn == 2 {
    } else {
      assert dealIn == 3;
    }
  }

  lemma IsSettlement(delta: seq<int>, winner: SeatIx, dealIn: Option<SeatIx>, payIn: int, payOther: int)
    requires |delta| == 4 && delta[winner] == TotalPaid(winner, dealIn, payIn, payOther)
    requires forall k: SeatIx :: k != winner ==> delta[k] == -Payment(winner, dealIn, payIn, payOther, k)
    ensures delta == Settlement(winner, dealIn, payIn, payOther)
  {
    hide TotalPaid;
    hide Payment;
  }

  /** The two delta functions differ only in how they price a payment; both then
      debit the losers one by one and credit the winner as they go. */
  method SelfDrawDelta(winner: SeatIx, pay: int) returns (delta: seq<int>)
    ensures delta == Settlement(winner, None, pay, 0)
  {
    hide PaidBelow;
    hide TotalPaid;
    hide Settlement;
    delta := [0, 0, 0, 0];
    PaidStep(winner, None, pay, 0, 0);
    for i := 0 to 4
      invariant |delta| == 4
      invariant forall k: SeatIx :: k != winner ==> delta[k] == if k < i then -pay else 0
      invariant delta[winner] == PaidBelow(winner, None, pay, 0, i)
    {
      PaidStep(winner, None, pay, 0, i);
      if i == winner {
        continue;
      }
      delta := delta[i := -pay];
      delta := delta[winner := delta[winner] + pay];
    }
    IsSettlement(delta, winner, None, pay, 0);
  }

  method DiscardWinDelta(winner: SeatIx, dealIn: SeatIx, payIn: int, payOther: int) returns (delta: seq<int>)
    ensures delta == Settlement(winner, Some(dealIn), payIn, payOther)
  {
    hide PaidBelow;
    hide TotalPaid;
    hide Settlement;
    delta := [0, 0, 0, 0];
    delta := delta[dealIn := -payIn];
    delta := delta[winner := delta[winner] + payIn];
    ghost var first := if dealIn == winner then 0 else payIn;
    PaidStep(winner, Some(dealIn), 0, payOther, 0);
    for i := 0 to 4
      invariant |delta| == 4
      invariant forall k: SeatIx :: k != winner ==>
                  delta[k] == if k == dealIn then -payIn else if k < i then -payOther else 0
      invariant delta[winner] == first + PaidBelow(winner, Some(dealIn), 0, payOther, i)
    {
      PaidStep(winner, Some(dealIn), 0, payOther, i);
      if i == winner || i == dealIn {
        continue;
      }
      delta := delta[i := -payOther];
      delta := delta[winner := delta[winner] + payOther];
    }
    DiscarderPaysToo(winner, dealIn, payIn, payOther);
    IsSettlement(delta, winner, Some(dealIn), payIn, payOther);
  }

  /** score_delta, dispatching on the scheme. */
  method ComputeScoreDelta(winner: SeatIx, fanTotal: int, winType: WinType, dealIn: Option<SeatIx>,
                           conv: Conversion) returns (r: Result<seq<int>>)
    ensures r == ScoreDelta(winner, fanTotal, winType, dealIn, conv)
  {
    var payIn, payOther;
    match conv {
      case Official(baseEach, baseDealerIn, baseOther) =>
        payIn := fanTotal + if winType.SelfDraw? then baseEach else baseDealerIn;
        payOther := baseOther;
      case HouseTable(tiers, eachMult, dealerInMult, otherMult) =>
        if tiers == [] {
          return Err(PopFromEmpty);
        }
        var x := SearchTiers(fanTotal, tiers);
        payIn := if winType.SelfDraw? then eachMult * x else dealerInMult * x;
        payOther := otherMult * x;
    }
    if winType.SelfDraw? {
      var delta := SelfDrawDelta(winner, payIn);
      return Ok(delta);
    }
    if dealIn.None? {
      return Err(AssertionFailed);
    }
    var delta := DiscardWinDelta(winner, dealIn.value, payIn, payOther);
    r := Ok(delta);
  }
}
