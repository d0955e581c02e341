/** Who is dealt what (engine/state.py, initial_state), told from the wall: each tile
    goes to the seat whose turn it is to take, a flower as well as a playable one. */
module DealOrder {
  import opened Lists
  import opened Tiles
  import opened GameTypes
  import opened Legality
  import opened Transition
  import opened Invariant
  import opened Deal

  // --- the tiles ---

  /** How many of the first p tiles of the wall are playable. */
  function PlayableBefore(wall: seq<Tile>, p: nat): (n: nat)
    requires p <= |wall|
    ensures n <= p
  {
    if p == 0 then 0 else PlayableBefore(wall, p - 1) + if IsFlower(wall[p - 1]) then 0 else 1
  }

  /** Who takes tile p: the seats in turn, thirteen times round from seat 0, and then
      the dealer once more. A flower does not end a seat's turn. */
  function Taker(wall: seq<Tile>, dealer: SeatIx, p: nat): SeatIx
    requires p < |wall|
  {
    if PlayableBefore(wall, p) < 52 then PlayableBefore(wall, p) % 4 else dealer
  }

  /** What seat i has taken of the first p tiles: its flowers, or its playable tiles. */
  function Taken(wall: seq<Tile>, dealer: SeatIx, p: nat, i: SeatIx, flowers: bool): seq<Tile>
    requires p <= |wall|
  {
    if p == 0 then []
    else
      Taken(wall, dealer, p - 1, i, flowers)
      + if Taker(wall, dealer, p - 1) == i && IsFlower(wall[p - 1]) == flowers then [wall[p - 1]] else []
  }

  lemma {:induction false} PlayableGrows(wall: seq<Tile>, p: nat, q: nat)
    requires p <= q <= |wall|
    ensures PlayableBefore(wall, p) <= PlayableBefore(wall, q)
    decreases q
  {
    if p < q {
      PlayableGrows(wall, p, q - 1);
    }
  }

  /** Flowers in a row all go to the seat that is taking. */
  lemma {:induction false} FlowersTaken(wall: seq<Tile>, dealer: SeatIx, p: nat, k: nat, i: SeatIx)
    requires p <= k <= |wall| && forall j :: p <= j < k ==> IsFlower(wall[j])
    ensures PlayableBefore(wall, k) == PlayableBefore(wall, p)
    ensures Taken(wall, dealer, k, i, false) == Taken(wall, dealer, p, i, false)
    ensures Taken(wall, dealer, k, i, true) ==
            Taken(wall, dealer, p, i, true) + if p < |wall| && Taker(wall, dealer, p) == i then wall[p..k] else []
    decreases k
  {
    if p < k {
      FlowersTaken(wall, dealer, p, k - 1, i);
      assert wall[p..k] == wall[p..k - 1] + [wall[k - 1]];
    }
  }

  /** The hands and flowers after some draws are what the seats have taken. */
  ghost predicate DealtSoFar(wall: seq<Tile>, dealer: SeatIx, n: nat, d: Dealing) {
    && d.pos <= |wall| && PlayableBefore(wall, d.pos) == n
    && (n > 0 ==> d.pos > 0 && !IsFlower(wall[d.pos - 1]))
    && forall i: SeatIx :: d.concealed[i] == Taken(wall, dealer, d.pos, i, false)
                           && d.flowers[i] == Taken(wall, dealer, d.pos, i, true)
  }

  lemma SkippedFlowers(wall: seq<Tile>, pos: nat, k: nat)
    requires pos <= |wall| && k == pos + FirstLive(wall[pos..])
    ensures forall j :: pos <= j < k ==> IsFlower(wall[j])
    ensures k < |wall| ==> !IsFlower(wall[k])
  {
    forall j | pos <= j < k ensures IsFlower(wall[j]) {
      assert wall[j] == wall[pos..][j - pos];
    }
    assert k < |wall| ==> wall[pos..][k - pos] == wall[k];
  }

  lemma NextDraw(wall: seq<Tile>, dealer: SeatIx, n: nat, d: Dealing)
    requires DealtSoFar(wall, dealer, n, d) && n < 53
    ensures var next := DrawOne(wall, d, DrawSeat(dealer, n));
            && (next.Ok? ==> DealtSoFar(wall, dealer, n + 1, next.value))
            && (next.Err? ==> PlayableBefore(wall, |wall|) == n)
  {
    hide FirstLive;
    hide PlayableBefore;
    hide Taken;
    hide Taker;
    hide DrawSeat;
    var k := d.pos + FirstLive(wall[d.pos..]);
    SkippedFlowers(wall, d.pos, k);
    FlowersTaken(wall, dealer, d.pos, k, 0);
    if k < |wall| {
      OneTaken(wall, dealer, k, 0);
      var e := DrawOne(wall, d, DrawSeat(dealer, n)).value;
      assert e.pos == k + 1;
      hide DrawOne;
      forall i: SeatIx
        ensures e.concealed[i] == Taken(wall, dealer, k + 1, i, false)
        ensures e.flowers[i] == Taken(wall, dealer, k + 1, i, true)
      {
        SeatKeepsUp(wall, dealer, n, d, k, i);
      }
    }
  }

  lemma SeatKeepsUp(wall: seq<Tile>, dealer: SeatIx, n: nat, d: Dealing, k: nat, i: SeatIx)
    requires n < 53 && d.pos <= k < |wall| && PlayableBefore(wall, d.pos) == n
    requires DrawOne(wall, d, DrawSeat(dealer, n)).Ok? && DrawOne(wall, d, DrawSeat(dealer, n)).value.pos == k + 1
    requires (forall j :: d.pos <= j < k ==> IsFlower(wall[j])) && !IsFlower(wall[k])
    requires d.concealed[i] == Taken(wall, dealer, d.pos, i, false) && d.flowers[i] == Taken(wall, dealer, d.pos, i, true)
    ensures var e := DrawOne(wall, d, DrawSeat(dealer, n)).value;
            e.concealed[i] == Taken(wall, dealer, k + 1, i, false) && e.flowers[i] == Taken(wall, dealer, k + 1, i, true)
  {
    FlowersTaken(wall, dealer, d.pos, k, i);
    OneTaken(wall, dealer, k, i);
    SeatTakes(wall, d, DrawSeat(dealer, n), i);
    assert DrawSeat(dealer, n) == Taker(wall, dealer, k) == Taker(wall, dealer, d.pos);
    hide DrawOne;
    hide PlayableBefore;
    hide Taken;
    hide Taker;
  }

  /** What a draw changes for seat i. */
  lemma SeatTakes(wall: seq<Tile>, d: Dealing, seat: SeatIx, i: SeatIx)
    requires d.pos <= |wall| && DrawOne(wall, d, seat).Ok?
    ensures var e := DrawOne(wall, d, seat).value;
            && e.concealed[i] == d.concealed[i] + (if i == seat then [wall[e.pos - 1]] else [])
            && e.flowers[i] == d.flowers[i] + (if i == seat then wall[d.pos..e.pos - 1] else [])
  {
    hide FirstLive;
  }

  /** A playable tile joins the taker's hand. */
  lemma OneTaken(wall: seq<Tile>, dealer: SeatIx, k: nat, i: SeatIx)
    requires k < |wall| && !IsFlower(wall[k])
    ensures PlayableBefore(wall, k + 1) == PlayableBefore(wall, k) + 1
    ensures Taken(wall, dealer, k + 1, i, true) == Taken(wall, dealer, k, i, true)
    ensures Taken(wall, dealer, k + 1, i, false) ==
            Taken(wall, dealer, k, i, false) + if Taker(wall, dealer, k) == i then [wall[k]] else []
  {
  }

  lemma {:induction false} DrawsInTurn(wall: seq<Tile>, dealer: SeatIx, n: nat)
    requires n <= 53
    ensures var d := DealDraws(wall, dealer, n);
            && (d.Ok? ==> DealtSoFar(wall, dealer, n, d.value))
            && (d.Err? ==> d.error == PopFromEmpty && PlayableBefore(wall, |wall|) < n)
  {
    hide DrawOne;
    hide DealtSoFar;
    if n == 0 {
      NothingDealt(wall, dealer);
    } else {
      DrawsInTurn(wall, dealer, n - 1);
      var d := DealDraws(wall, dealer, n - 1);
      if d.Ok? {
        NextDraw(wall, dealer, n - 1, d.value);
        DrawFails(wall, d.value, DrawSeat(dealer, n - 1));
      }
    }
  }

  lemma NothingDealt(wall: seq<Tile>, dealer: SeatIx)
    ensures DealtSoFar(wall, dealer, 0, Dealing(0, [[], [], [], []], [[], [], [], []]))
  {
    forall i: SeatIx ensures Taken(wall, dealer, 0, i, false) == [] && Taken(wall, dealer, 0, i, true) == [] {
    }
  }

  lemma DrawFails(wall: seq<Tile>, d: Dealing, seat: SeatIx)
    requires d.pos <= |wall|
    ensures DrawOne(wall, d, seat).Err? ==> DrawOne(wall, d, seat).error == PopFromEmpty
  {
  }

  /** The last tile dealt is the dealer's. */
  lemma {:induction false} DealerTakesLast(wall: seq<Tile>, dealer: SeatIx, p: nat)
    requires 0 < p <= |wall| && PlayableBefore(wall, p) == 53 && !IsFlower(wall[p - 1])
    ensures var hand := Taken(wall, dealer, p, dealer, false);
            hand != [] && hand[|hand| - 1] == wall[p - 1]
  {
  }

  /** Whatever the wall, the deal succeeds exactly if it has 53 playable tiles, and stops
      behind the 53rd. Every tile in front of there is with the seat whose turn it was:
      in its sorted hand, or among its flowers in the order they came. The last one is
      the tile the dealer has drawn; the rest of the wall is untouched. */
  lemma DealtInTurn(wall: seq<Tile>, dealer: SeatIx)
    ensures InitialState(wall, dealer).Ok? <==> PlayableBefore(wall, |wall|) >= 53
    ensures InitialState(wall, dealer).Err? ==> InitialState(wall, dealer).error == PopFromEmpty
    ensures InitialState(wall, dealer).Ok? ==>
              var s := InitialState(wall, dealer).value;
              && 0 < s.drawn <= |wall| && PlayableBefore(wall, s.drawn) == 53 && !IsFlower(wall[s.drawn - 1])
              && s.wall == wall[s.drawn..]
              && s.lastDrawn == Some(LastDrawn(dealer, wall[s.drawn - 1]))
              && forall i: SeatIx ::
                   && s.seats[i].flowers == Taken(wall, dealer, s.drawn, i, true)
                   && Sorted(s.seats[i].concealed)
                   && multiset(s.seats[i].concealed) == multiset(Taken(wall, dealer, s.drawn, i, false))
  {
    hide DealDraws;
    hide PlayableBefore;
    hide Taken;
    hide Taker;
    hide DealtState;
    DrawsInTurn(wall, dealer, 53);
    var deal := DealDraws(wall, dealer, 53);
    if deal.Ok? {
      var d := deal.value;
      PlayableGrows(wall, d.pos, |wall|);
      DealerTakesLast(wall, dealer, d.pos);
      assert d.concealed[dealer] == Taken(wall, dealer, d.pos, dealer, false);
      var drawn := d.concealed[dealer][|d.concealed[dealer]| - 1];
      forall i: SeatIx
        ensures var s := DealtState(wall, d, dealer, drawn);
                && s.seats[i].flowers == Taken(wall, dealer, d.pos, i, true) && Sorted(s.seats[i].concealed)
                && multiset(s.seats[i].concealed) == multiset(Taken(wall, dealer, d.pos, i, false))
      {
        SeatAsDealt(wall, d, dealer, drawn, i);
      }
      DealtFields(wall, d, dealer, drawn);
    }
  }

  lemma SeatAsDealt(wall: seq<Tile>, d: Dealing, dealer: SeatIx, drawn: Tile, i: SeatIx)
    requires d.pos <= |wall|
    ensures var seat := DealtState(wall, d, dealer, drawn).seats[i];
            && seat.flowers == d.flowers[i] && Sorted(seat.concealed)
            && multiset(seat.concealed) == multiset(d.concealed[i])
            && seat.melds == [] && seat.discards == [] && seat.score == 0
            && seat.wind == SeatWind(dealer, i)
  {
    hide Sort;
    assert DealtState(wall, d, dealer, drawn).seats[i] == DealtSeat(d, dealer, i);
  }

  lemma DealtFields(wall: seq<Tile>, d: Dealing, dealer: SeatIx, drawn: Tile)
    requires d.pos <= |wall|
    ensures var s := DealtState(wall, d, dealer, drawn);
            && s.wall == wall[d.pos..] && s.drawn == d.pos && s.lastDrawn == Some(LastDrawn(dealer, drawn))
            && s.dealer == dealer && s.roundWind == EAST && s.turn == 0 && s.phase == DiscardPhase && s.actor == dealer
            && s.lastDiscard == None && s.claims == [] && s.terminal == None
  {
    hide DealtSeat;
  }

  // --- the winds ---

  /** The dealer is East; South sits behind it, then West and North. */
  predicate WindsInOrder(s: State) {
    && s.seats[s.dealer].wind == EAST
    && s.seats[(s.dealer + 1) % 4].wind == SOUTH
    && s.seats[(s.dealer + 2) % 4].wind == WEST
    && s.seats[(s.dealer + 3) % 4].wind == NORTH
  }

  /** The opening: seat winds in order from the dealer, who is on turn, round wind East,
      nothing on the table and no points. */
  lemma OpeningTable(wall: seq<Tile>, dealer: SeatIx, s: State)
    requires InitialState(wall, dealer) == Ok(s)
    ensures s.dealer == dealer && WindsInOrder(s) && s.roundWind == EAST
    ensures s.turn == 0 && s.phase == DiscardPhase && s.actor == dealer
    ensures s.lastDiscard == None && s.claims == [] && s.terminal == None
    ensures forall i: SeatIx :: s.seats[i].melds == [] && s.seats[i].discards == [] && s.seats[i].score == 0
  {
    hide DealDraws;
    hide DealtState;
    SeatsAsDealt(wall, dealer, s);
    var d := DealDraws(wall, dealer, 53).value;
    DealtFields(wall, d, dealer, d.concealed[dealer][|d.concealed[dealer]| - 1]);
  }

  lemma SeatsAsDealt(wall: seq<Tile>, dealer: SeatIx, s: State)
    requires InitialState(wall, dealer) == Ok(s)
    ensures forall i: SeatIx :: s.seats[i].wind == SeatWind(dealer, i)
    ensures forall i: SeatIx :: s.seats[i].melds == [] && s.seats[i].discards == [] && s.seats[i].score == 0
  {
    hide DealDraws;
    hide DealtState;
    var d := DealDraws(wall, dealer, 53).value;
    forall i: SeatIx
      ensures s.seats[i].wind == SeatWind(dealer, i)
      ensures s.seats[i].melds == [] && s.seats[i].discards == [] && s.seats[i].score == 0
    {
      SeatAsDealt(wall, d, dealer, d.concealed[dealer][|d.concealed[dealer]| - 1], i);
    }
  }
}
