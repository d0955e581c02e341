/** Counting what a seat cannot see: the two remaining_counts functions of
    bots/belief.py and analysis.py, and the proof that both give the exact size of
    the hidden pool in every state of a hand. */
module Belief {
  import opened Lists
  import opened Tiles
  import opened GameTypes
  import opened Legality
  import opened Invariant
  import opened Views

  // --- what is visible in a view ---

  function ShownCopies(melds: seq<MeldView>, t: Tile): nat {
    if melds == [] then 0
    else
      var m := melds[|melds| - 1];
      ShownCopies(melds[..|melds| - 1], t) + if m.Shown? then Copies(m.tiles, t) else 0
  }

  function HandCopies(h: HandView, t: Tile): nat { if h.Own? then Copies(h.tiles, t) else 0 }

  function TableCopies(v: SeatView, t: Tile): nat { ShownCopies(v.melds, t) + Copies(v.discards, t) }

  /** Copies of t on the table of the first n seats, and in the hand of `seat`. */
  function VisibleBelow(v: View, seat: SeatIx, t: Tile, n: nat): nat
    requires n <= 4
  {
    if n == 0 then 0
    else VisibleBelow(v, seat, t, n - 1) + TableCopies(v.seats[n - 1], t)
         + if n - 1 == seat then HandCopies(v.seats[n - 1].hand, t) else 0
  }

  function Visible(v: View, seat: SeatIx, t: Tile): nat { VisibleBelow(v, seat, t, 4) }

  /** As the analysis counts: every hand that is shown as a list. */
  function ListedBelow(v: View, t: Tile, n: nat): nat
    requires n <= 4
  {
    if n == 0 then 0
    else ListedBelow(v, t, n - 1) + TableCopies(v.seats[n - 1], t) + HandCopies(v.seats[n - 1].hand, t)
  }

  function Listed(v: View, t: Tile): nat { ListedBelow(v, t, 4) }

  // --- bots/belief.py ---

  function Playable(): (ts: set<Tile>)
    ensures forall t: Tile :: t in ts <==> !IsFlower(t)
  {
    set t: Tile | !IsFlower(t)
  }

  type Counts = map<Tile, int>

  /** _see over a list: flowers are not counted. */
  method SeeAll(visible: Counts, tiles: seq<Tile>) returns (r: Counts)
    requires visible.Keys == Playable()
    ensures r.Keys == Playable()
    ensures forall t: Tile :: !IsFlower(t) ==> r[t] == visible[t] + Copies(tiles, t)
  {
    r := visible;
    for k := 0 to |tiles|
      invariant r.Keys == Playable()
      invariant forall t: Tile :: !IsFlower(t) ==> r[t] == visible[t] + Copies(tiles[..k], t)
    {
      assert tiles[..k + 1] == tiles[..k] + [tiles[k]];
      if tiles[k] in r {
        r := r[tiles[k] := r[tiles[k]] + 1];
      }
    }
    assert tiles[..|tiles|] == tiles;
  }

  method SeeMelds(visible: Counts, melds: seq<MeldView>) returns (r: Counts)
    requires visible.Keys == Playable()
    ensures r.Keys == Playable()
    ensures forall t: Tile :: !IsFlower(t) ==> r[t] == visible[t] + ShownCopies(melds, t)
  {
    r := visible;
    for k := 0 to |melds|
      invariant r.Keys == Playable()
      invariant forall t: Tile :: !IsFlower(t) ==> r[t] == visible[t] + ShownCopies(melds[..k], t)
    {
      assert melds[..k + 1][..k] == melds[..k];
      if melds[k].Shown? {
        r := SeeAll(r, melds[k].tiles);
      }
    }
    assert melds[..|melds|] == melds;
  }

  /** remaining_counts of the rule bot: four less what is seen, clamped at zero. */
  method RemainingCounts(v: View, seat: SeatIx) returns (counts: Counts)
    ensures counts.Keys == Playable()
    ensures forall t: Tile :: !IsFlower(t) ==>
              counts[t] == if Visible(v, seat, t) > 4 then 0 else 4 - Visible(v, seat, t)
  {
    var visible: Counts := map t | t in Playable() :: 0;
    for i := 0 to 4
      invariant visible.Keys == Playable()
      invariant forall t: Tile :: !IsFlower(t) ==> visible[t] == VisibleBelow(v, seat, t, i)
    {
      if i == seat && v.seats[i].hand.Own? {
        visible := SeeAll(visible, v.seats[i].hand.tiles);
      }
      visible := SeeMelds(visible, v.seats[i].melds);
      visible := SeeAll(visible, v.seats[i].discards);
    }
    counts := map t | t in Playable() :: if visible[t] > 4 then 0 else 4 - visible[t];
  }

  // --- analysis.py ---

  ghost predicate Countable(tiles: seq<Tile>) { forall t :: t in tiles ==> !IsFlower(t) }

  ghost predicate MeldsCountable(melds: seq<MeldView>) {
    forall k :: 0 <= k < |melds| && melds[k].Shown? ==> Countable(melds[k].tiles)
  }

  /** No listed tile is missing from the table of counts. */
  ghost predicate ViewCountable(v: View) {
    forall i: SeatIx ::
      && (v.seats[i].hand.Own? ==> Countable(v.seats[i].hand.tiles))
      && MeldsCountable(v.seats[i].melds) && Countable(v.seats[i].discards)
  }

  /** counts[tile] -= 1 over a list; a flower is a KeyError. */
  method TakeAll(counts: Counts, tiles: seq<Tile>) returns (r: Result<Counts>)
    requires counts.Keys == Playable()
    ensures r.Ok? <==> Countable(tiles)
    ensures r.Ok? ==> r.value.Keys == Playable()
                      && forall t: Tile :: !IsFlower(t) ==> r.value[t] == counts[t] - Copies(tiles, t)
  {
    var now := counts;
    for k := 0 to |tiles|
      invariant now.Keys == Playable() && Countable(tiles[..k])
      invariant forall t: Tile :: !IsFlower(t) ==> now[t] == counts[t] - Copies(tiles[..k], t)
    {
      assert tiles[..k + 1] == tiles[..k] + [tiles[k]];
      if tiles[k] !in now {
        return Err(ValueMissing);
      }
      now := now[tiles[k] := now[tiles[k]] - 1];
    }
    assert tiles[..|tiles|] == tiles;
    r := Ok(now);
  }

  method TakeMelds(counts: Counts, melds: seq<MeldView>) returns (r: Result<Counts>)
    requires counts.Keys == Playable()
    ensures r.Ok? <==> MeldsCountable(melds)
    ensures r.Ok? ==> r.value.Keys == Playable()
                      && forall t: Tile :: !IsFlower(t) ==> r.value[t] == counts[t] - ShownCopies(melds, t)
  {
    var now := counts;
    for k := 0 to |melds|
      invariant now.Keys == Playable() && MeldsCountable(melds[..k])
      invariant forall t: Tile :: !IsFlower(t) ==> now[t] == counts[t] - ShownCopies(melds[..k], t)
    {
      assert melds[..k + 1][..k] == melds[..k];
      if melds[k].Shown? {
        var taken := TakeAll(now, melds[k].tiles);
        if taken.Err? {
          return Err(taken.error);
        }
        now := taken.value;
      }
    }
    assert melds[..|melds|] == melds;
    r := Ok(now);
  }

  /** remaining_counts of the analysis: no clamp, and a KeyError on a flower. */
  method AnalysisCounts(v: View) returns (r: Result<Counts>)
    ensures r.Ok? <==> ViewCountable(v)
    ensures r.Ok? ==> r.value.Keys == Playable()
                      && forall t: Tile :: !IsFlower(t) ==> r.value[t] == 4 - Listed(v, t)
  {
    var counts: Counts := map t | t in Playable() :: 4;
    for i := 0 to 4
      invariant counts.Keys == Playable()
      invariant forall j: SeatIx :: j < i ==>
                  && (v.seats[j].hand.Own? ==> Countable(v.seats[j].hand.tiles))
                  && MeldsCountable(v.seats[j].melds) && Countable(v.seats[j].discards)
      invariant forall t: Tile :: !IsFlower(t) ==> counts[t] == 4 - ListedBelow(v, t, i)
    {
      var seat: SeatIx := i;
      var hand := TakeAll(counts, if v.seats[i].hand.Own? then v.seats[i].hand.tiles else []);
      if hand.Err? {
        return Err(hand.error);
      }
      var melds := TakeMelds(hand.value, v.seats[i].melds);
      if melds.Err? {
        return Err(melds.error);
      }
      var pile := TakeAll(melds.value, v.seats[i].discards);
      if pile.Err? {
        return Err(pile.error);
      }
      counts := pile.value;
    }
    r := Ok(counts);
  }

  // --- the hidden pool ---

  /** Copies of t in concealed kongs. */
  function ConcealedKongCopies(melds: seq<Meld>, t: Tile): nat {
    if melds == [] then 0
    else
      var m := melds[|melds| - 1];
      ConcealedKongCopies(melds[..|melds| - 1], t) + if m.kind == GangConcealed then Copies(m.tiles, t) else 0
  }

  function OpponentCopies(d: SeatData, t: Tile): nat { Copies(d.concealed, t) + ConcealedKongCopies(d.melds, t) }

  /** Where the copies a seat cannot see are: in the wall, and with its three
      opponents, in hand or under a concealed kong. */
  function Unseen(s: State, seat: SeatIx, t: Tile): nat {
    Copies(s.wall, t)
    + (if seat == 0 then 0 else OpponentCopies(s.seats[0], t)) + (if seat == 1 then 0 else OpponentCopies(s.seats[1], t))
    + (if seat == 2 then 0 else OpponentCopies(s.seats[2], t)) + (if seat == 3 then 0 else OpponentCopies(s.seats[3], t))
  }

  lemma {:induction false} ShownAndConcealed(melds: seq<Meld>, own: bool, t: Tile)
    ensures ShownCopies(ShowMelds(melds, own), t) + (if own then 0 else ConcealedKongCopies(melds, t)) == MeldCopies(melds, t)
  {
    if melds != [] {
      var front := melds[..|melds| - 1];
      ShownAndConcealed(front, own, t);
      assert ShowMelds(melds, own)[..|melds| - 1] == ShowMelds(front, own);
    }
  }

  /** A seat's copies of a playable tile are those on its table and those it hides. */
  lemma SeatSplit(d: SeatData, i: SeatIx, own: bool, t: Tile)
    requires SeatOk(d, i) && !IsFlower(t)
    ensures var v := ShowSeat(d, own);
            SeatCopies(d, t) == TableCopies(v, t) + (if own then HandCopies(v.hand, t) else OpponentCopies(d, t))
    ensures HandCopies(ShowSeat(d, false).hand, t) == 0
  {
    ShownAndConcealed(d.melds, own, t);
    assert Copies(d.flowers, t) == 0;
  }

  /** The counts a seat computes from its own view are exact: the hidden copies of
      every playable tile, for every seat, in every state of a hand. Neither the
      clamp nor a missing key ever matters, and both functions agree. */
  lemma UnseenPoolIsExact(s: State, seat: SeatIx, t: Tile)
    requires Inv(s) && !IsFlower(t)
    ensures var v := Project(s, Some(seat));
            && Visible(v, seat, t) + Unseen(s, seat, t) == 4
            && Listed(v, t) == Visible(v, seat, t)
            && ViewCountable(v)
  {
    var v := Project(s, Some(seat));
    hide SeatCopies;
    hide TableCopies;
    hide OpponentCopies;
    hide HandCopies;
    hide Copies;
    forall i: SeatIx
      ensures v.seats[i] == ShowSeat(s.seats[i], i == seat)
      ensures SeatCopies(s.seats[i], t) == TableCopies(v.seats[i], t)
                + (if i == seat then HandCopies(v.seats[i].hand, t) else OpponentCopies(s.seats[i], t))
      ensures i != seat ==> HandCopies(v.seats[i].hand, t) == 0
    {
      assert SeatOk(s.seats[i], i);
      SeatSplit(s.seats[i], i, i == seat, t);
      SeatSplit(s.seats[i], i, false, t);
    }
    assert TotalCopies(s, t) == 4;
    VisibleUnfolds(v, seat, t);
    ProjectionCountable(s, seat);
    hide Inv;
    hide Project;
    hide SeatOk;
    hide ShowSeat;
  }

  lemma VisibleUnfolds(v: View, seat: SeatIx, t: Tile)
    ensures Visible(v, seat, t) ==
            TableCopies(v.seats[0], t) + TableCopies(v.seats[1], t) + TableCopies(v.seats[2], t) + TableCopies(v.seats[3], t)
            + HandCopies(v.seats[seat].hand, t)
    ensures Listed(v, t) ==
            TableCopies(v.seats[0], t) + TableCopies(v.seats[1], t) + TableCopies(v.seats[2], t) + TableCopies(v.seats[3], t)
            + HandCopies(v.seats[0].hand, t) + HandCopies(v.seats[1].hand, t)
            + HandCopies(v.seats[2].hand, t) + HandCopies(v.seats[3].hand, t)
  {
    hide TableCopies;
    hide HandCopies;
    assert VisibleBelow(v, seat, t, 0) == 0 && ListedBelow(v, t, 0) == 0;
    assert VisibleBelow(v, seat, t, 1) == TableCopies(v.seats[0], t) + if seat == 0 then HandCopies(v.seats[0].hand, t) else 0;
    assert VisibleBelow(v, seat, t, 2) == VisibleBelow(v, seat, t, 1) + TableCopies(v.seats[1], t)
                                          + if seat == 1 then HandCopies(v.seats[1].hand, t) else 0;
    assert VisibleBelow(v, seat, t, 3) == VisibleBelow(v, seat, t, 2) + TableCopies(v.seats[2], t)
                                          + if seat == 2 then HandCopies(v.seats[2].hand, t) else 0;
    assert ListedBelow(v, t, 1) == TableCopies(v.seats[0], t) + HandCopies(v.seats[0].hand, t);
    assert ListedBelow(v, t, 2) == ListedBelow(v, t, 1) + TableCopies(v.seats[1], t) + HandCopies(v.seats[1].hand, t);
    assert ListedBelow(v, t, 3) == ListedBelow(v, t, 2) + TableCopies(v.seats[2], t) + HandCopies(v.seats[2].hand, t);
  }

  lemma ProjectionCountable(s: State, seat: SeatIx)
    requires Inv(s)
    ensures ViewCountable(Project(s, Some(seat)))
  {
    var v := Project(s, Some(seat));
    forall i: SeatIx
      ensures v.seats[i].hand.Own? ==> Countable(v.seats[i].hand.tiles)
      ensures MeldsCountable(v.seats[i].melds) && Countable(v.seats[i].discards)
    {
      assert SeatOk(s.seats[i], i);
      forall k | 0 <= k < |v.seats[i].melds| && v.seats[i].melds[k].Shown?
        ensures Countable(v.seats[i].melds[k].tiles)
      {
        assert MeldOk(s.seats[i].melds[k], i);
        MeldTilesPlayable(s.seats[i].melds[k], i);
      }
    }
  }

  lemma MeldTilesPlayable(m: Meld, owner: SeatIx)
    requires MeldOk(m, owner)
    ensures Countable(m.tiles)
  {
  }
}
