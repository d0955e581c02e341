/** The opening deal (engine/state.py, initial_state). */
module Deal {
  import opened Lists
  import opened Tiles
  import opened GameTypes
  import opened Legality
  import opened Scoring
  import opened Transition
  import opened Invariant

  type FourHands = h: seq<seq<Tile>> | |h| == 4 witness [[], [], [], []]

  /** A deal in progress: the wall position and what each seat has received. */
  datatype Dealing = Dealing(pos: nat, concealed: FourHands, flowers: FourHands)

  /** draw_one: flowers are set aside until a playable tile comes. Running off the
      end of the wall is an IndexError. */
  function DrawOne(wall: seq<Tile>, d: Dealing, seat: SeatIx): (r: Result<Dealing>)
    requires d.pos <= |wall|
    ensures r.Ok? ==> r.value.pos <= |wall|
  {
    var k := d.pos + FirstLive(wall[d.pos..]);
    if k == |wall| then Err(PopFromEmpty)
    else Ok(Dealing(k + 1,
                    d.concealed[seat := d.concealed[seat] + [wall[k]]],
                    d.flowers[seat := d.flowers[seat] + wall[d.pos..k]]))
  }

  /** Who takes the n-th of the 53 draws: thirteen rounds, then the dealer. */
  function DrawSeat(dealer: SeatIx, n: nat): SeatIx { if n < 52 then n % 4 else dealer }

  /** The deal after n draws. */
  function DealDraws(wall: seq<Tile>, dealer: SeatIx, n: nat): (r: Result<Dealing>)
    ensures r.Ok? ==> r.value.pos <= |wall|
  {
    if n == 0 then Ok(Dealing(0, [[], [], [], []], [[], [], [], []]))
    else
      var d :- DealDraws(wall, dealer, n - 1);
      DrawOne(wall, d, DrawSeat(dealer, n - 1))
  }

  function SeatWind(dealer: SeatIx, i: SeatIx): (w: Tile)
    ensures w == EAST <==> i == dealer
  {
    EAST + (i - dealer) % 4
  }

  function DealtSeat(d: Dealing, dealer: SeatIx, i: SeatIx): SeatData {
    SeatData(SeatWind(dealer, i), Sort(d.concealed[i]), [], [], d.flowers[i], 0)
  }

  function DealtState(wall: seq<Tile>, d: Dealing, dealer: SeatIx, drawn: Tile): State
    requires d.pos <= |wall|
  {
    State(EAST, dealer, 0, wall[d.pos..], d.pos,
          [DealtSeat(d, dealer, 0), DealtSeat(d, dealer, 1), DealtSeat(d, dealer, 2), DealtSeat(d, dealer, 3)],
          None, Some(LastDrawn(dealer, drawn)), [], DiscardPhase, dealer, None)
  }

  /** initial_state for a given shuffled wall. */
  function InitialState(wall: seq<Tile>, dealer: SeatIx): Result<State> {
    var d :- DealDraws(wall, dealer, 53);
    var hand := d.concealed[dealer];
    if hand == [] then Err(PopFromEmpty) else Ok(DealtState(wall, d, dealer, hand[|hand| - 1]))
  }

  // --- the loops ---

  /** draw_one, with the wall position and the seats' tiles passed in and out. */
  method TakeLiveTile(wall: seq<Tile>, d: Dealing, seat: SeatIx) returns (r: Result<Dealing>)
    requires d.pos <= |wall|
    ensures r == DrawOne(wall, d, seat)
  {
    var k := d.pos;
    var aside := [];
    while true
      invariant d.pos <= k <= |wall|
      invariant aside == wall[d.pos..k]
      invariant k + FirstLive(wall[k..]) == d.pos + FirstLive(wall[d.pos..])
      decreases |wall| - k
    {
      if k == |wall| {
        return Err(PopFromEmpty);
      }
      if !IsFlower(wall[k]) {
        break;
      }
      assert wall[k..][1..] == wall[k + 1..];
      aside := aside + [wall[k]];
      k := k + 1;
    }
    r := Ok(Dealing(k + 1, d.concealed[seat := d.concealed[seat] + [wall[k]]],
                    d.flowers[seat := d.flowers[seat] + aside]));
  }

  method DealInitialState(wall: seq<Tile>, dealer: SeatIx) returns (r: Result<State>)
    ensures r == InitialState(wall, dealer)
  {
    hide DealtState;
    hide DrawOne;
    var d := Dealing(0, [[], [], [], []], [[], [], [], []]);
    for n := 0 to 53
      invariant d.pos <= |wall|
      invariant DealDraws(wall, dealer, n) == Ok(d)
    {
      var next := TakeLiveTile(wall, d, DrawSeat(dealer, n));
      if next.Err? {
        FailedDraw(wall, dealer, n + 1, 53);
        return Err(next.error);
      }
      d := next.value;
    }
    var hand := d.concealed[dealer];
    if hand == [] {
      return Err(PopFromEmpty);
    }
    r := Ok(DealtState(wall, d, dealer, hand[|hand| - 1]));
  }

  lemma {:induction false} FailedDraw(wall: seq<Tile>, dealer: SeatIx, m: nat, n: nat)
    requires m <= n && DealDraws(wall, dealer, m).Err?
    ensures DealDraws(wall, dealer, n) == DealDraws(wall, dealer, m)
    decreases n
  {
    hide DrawOne;
    if m < n {
      FailedDraw(wall, dealer, m, n - 1);
    }
  }

  // --- the deal is total ---

  function FlowersIn(ts: seq<Tile>): nat {
    if ts == [] then 0 else FlowersIn(ts[..|ts| - 1]) + if IsFlower(ts[|ts| - 1]) then 1 else 0
  }

  lemma CopiesSnoc(ts: seq<Tile>, x: Tile, t: Tile)
    ensures Copies(ts + [x], t) == Copies(ts, t) + if x == t then 1 else 0
  {
  }

  /** How many of the eight flowers' copies are in a list. */
  function FlowerCopies(ts: seq<Tile>): nat {
    Copies(ts, 34) + Copies(ts, 35) + Copies(ts, 36) + Copies(ts, 37)
    + Copies(ts, 38) + Copies(ts, 39) + Copies(ts, 40) + Copies(ts, 41)
  }

  lemma FlowerCopiesSnoc(ts: seq<Tile>, x: Tile)
    ensures FlowerCopies(ts + [x]) == FlowerCopies(ts) + if IsFlower(x) then 1 else 0
  {
    CopiesSnoc(ts, x, 34);
    CopiesSnoc(ts, x, 35);
    CopiesSnoc(ts, x, 36);
    CopiesSnoc(ts, x, 37);
    CopiesSnoc(ts, x, 38);
    CopiesSnoc(ts, x, 39);
    CopiesSnoc(ts, x, 40);
    CopiesSnoc(ts, x, 41);
    hide Copies;
  }

  lemma {:induction false} FlowersInSum(ts: seq<Tile>)
    ensures FlowersIn(ts) == Copies(ts, 34) + Copies(ts, 35) + Copies(ts, 36) + Copies(ts, 37)
                             + Copies(ts, 38) + Copies(ts, 39) + Copies(ts, 40) + Copies(ts, 41)
  {
    hide Copies;
    if ts == [] {
      NoFlowerCopies();
    } else {
      var front, last := ts[..|ts| - 1], ts[|ts| - 1];
      FlowersInSum(front);
      FlowerCopiesSnoc(front, last);
      assert ts == front + [last];
      assert FlowersIn(ts) == FlowersIn(front) + if IsFlower(last) then 1 else 0;
    }
  }

  lemma NoFlowerCopies()
    ensures FlowerCopies([]) == 0
  {
  }

  lemma {:induction false} FlowersInConcat(a: seq<Tile>, b: seq<Tile>)
    ensures FlowersIn(a + b) == FlowersIn(a) + FlowersIn(b)
  {
    if b == [] {
      assert a + b == a;
    } else {
      assert (a + b)[..|a + b| - 1] == a + b[..|b| - 1];
      FlowersInConcat(a, b[..|b| - 1]);
    }
  }

  lemma {:induction false} AllFlowers(ts: seq<Tile>)
    requires forall i :: 0 <= i < |ts| ==> IsFlower(ts[i])
    ensures FlowersIn(ts) == |ts|
  {
    if ts != [] {
      AllFlowers(ts[..|ts| - 1]);
    }
  }

  /** The wall is some arrangement of the canonical set. */
  ghost predicate IsDeck(wall: seq<Tile>) { multiset(wall) == multiset(CanonicalTileSet()) }

  lemma DeckFacts(wall: seq<Tile>)
    requires IsDeck(wall)
    ensures |wall| == DECK_SIZE && FlowersIn(wall) == 8
    ensures forall t: Tile :: Copies(wall, t) == DeckCopies(t)
  {
    assert |multiset(wall)| == |wall| && |multiset(CanonicalTileSet())| == DECK_SIZE;
    forall t: Tile ensures Copies(wall, t) == DeckCopies(t) {
      CanonicalCopies(t);
    }
    FlowersInSum(wall);
  }

  function DealtCopies(d: Dealing, t: Tile): nat {
    Copies(d.concealed[0], t) + Copies(d.concealed[1], t) + Copies(d.concealed[2], t) + Copies(d.concealed[3], t)
    + Copies(d.flowers[0], t) + Copies(d.flowers[1], t) + Copies(d.flowers[2], t) + Copies(d.flowers[3], t)
  }

  /** How many of the first n draws went to seat i. */
  function DrawsOf(dealer: SeatIx, n: nat, i: SeatIx): nat {
    if n <= 52 then (n + 3 - i) / 4 else 13 + if i == dealer then 1 else 0
  }

  ghost predicate DealingOk(wall: seq<Tile>, dealer: SeatIx, n: nat, d: Dealing) {
    && d.pos <= |wall|
    && d.pos == n + FlowersIn(wall[..d.pos])
    && (forall t: Tile :: DealtCopies(d, t) == Copies(wall[..d.pos], t))
    && (forall i: SeatIx :: |d.concealed[i]| == DrawsOf(dealer, n, i) && NoFlowers(d.concealed[i])
                            && forall t :: t in d.flowers[i] ==> IsFlower(t))
  }

  /** The flowers a draw sets aside are exactly what it skips. */
  lemma AsideIsFlowers(wall: seq<Tile>, pos: nat, k: nat)
    requires pos <= |wall| && k == pos + FirstLive(wall[pos..])
    ensures FlowersIn(wall[..k]) == FlowersIn(wall[..pos]) + (k - pos)
    ensures forall t :: t in wall[pos..k] ==> IsFlower(t)
    ensures k < |wall| ==> !IsFlower(wall[k])
  {
    var aside := wall[pos..k];
    forall i | 0 <= i < |aside| ensures IsFlower(aside[i]) {
      assert aside[i] == wall[pos..][i];
    }
    AllFlowers(aside);
    FlowersInConcat(wall[..pos], aside);
    assert wall[..k] == wall[..pos] + aside;
    assert k < |wall| ==> wall[pos..][k - pos] == wall[k];
  }

  /** While fewer than 53 tiles are dealt, a playable tile is left. */
  lemma LiveTileLeft(wall: seq<Tile>, n: nat, pos: nat)
    requires IsDeck(wall) && n < 53 && pos <= |wall| && pos == n + FlowersIn(wall[..pos])
    ensures pos + FirstLive(wall[pos..]) < |wall|
  {
    DeckFacts(wall);
    var k := pos + FirstLive(wall[pos..]);
    AsideIsFlowers(wall, pos, k);
    assert wall[..|wall|] == wall;
  }

  lemma DealtUpdate(d: Dealing, seat: SeatIx, pos: nat, hand: seq<Tile>, aside: seq<Tile>, t: Tile)
    ensures DealtCopies(Dealing(pos, d.concealed[seat := d.concealed[seat] + hand],
                                d.flowers[seat := d.flowers[seat] + aside]), t)
         == DealtCopies(d, t) + Copies(hand, t) + Copies(aside, t)
  {
  }

  lemma DrawPosition(wall: seq<Tile>, n: nat, pos: nat, k: nat)
    requires pos <= |wall| && pos == n + FlowersIn(wall[..pos])
    requires k == pos + FirstLive(wall[pos..]) < |wall|
    ensures k + 1 == n + 1 + FlowersIn(wall[..k + 1])
  {
    AsideIsFlowers(wall, pos, k);
    assert wall[..k + 1][..k] == wall[..k];
  }

  lemma DrawCounts(wall: seq<Tile>, d: Dealing, seat: SeatIx, k: nat)
    requires d.pos <= k < |wall|
    requires forall t: Tile :: DealtCopies(d, t) == Copies(wall[..d.pos], t)
    ensures var e := Dealing(k + 1, d.concealed[seat := d.concealed[seat] + [wall[k]]],
                             d.flowers[seat := d.flowers[seat] + wall[d.pos..k]]);
            forall t: Tile :: DealtCopies(e, t) == Copies(wall[..k + 1], t)
  {
    hide DealtCopies;
    var aside := wall[d.pos..k];
    var e := Dealing(k + 1, d.concealed[seat := d.concealed[seat] + [wall[k]]],
                     d.flowers[seat := d.flowers[seat] + aside]);
    assert wall[..k + 1] == wall[..d.pos] + aside + [wall[k]];
    forall t: Tile ensures DealtCopies(e, t) == Copies(wall[..k + 1], t) {
      assert DealtCopies(d, t) == Copies(wall[..d.pos], t);
      DealtUpdate(d, seat, k + 1, [wall[k]], aside, t);
    }
  }

  lemma DrawOneOk(wall: seq<Tile>, dealer: SeatIx, n: nat, d: Dealing)
    requires IsDeck(wall) && n < 53 && DealingOk(wall, dealer, n, d)
    ensures DrawOne(wall, d, DrawSeat(dealer, n)).Ok?
    ensures DealingOk(wall, dealer, n + 1, DrawOne(wall, d, DrawSeat(dealer, n)).value)
  {
    hide DealtCopies;
    hide IsDeck;
    hide FirstLive;
    hide FlowersIn;
    LiveTileLeft(wall, n, d.pos);
    var seat := DrawSeat(dealer, n);
    var k := d.pos + FirstLive(wall[d.pos..]);
    DrawPosition(wall, n, d.pos, k);
    DrawCounts(wall, d, seat, k);
    AsideIsFlowers(wall, d.pos, k);
    var e := DrawOne(wall, d, seat).value;
    forall i: SeatIx
      ensures |e.concealed[i]| == DrawsOf(dealer, n + 1, i) && NoFlowers(e.concealed[i])
      ensures forall t :: t in e.flowers[i] ==> IsFlower(t)
    {
      assert |d.concealed[i]| == DrawsOf(dealer, n, i);
    }
  }

  lemma {:induction false} DealDrawsOk(wall: seq<Tile>, dealer: SeatIx, n: nat)
    requires IsDeck(wall) && n <= 53
    ensures DealDraws(wall, dealer, n).Ok?
    ensures DealingOk(wall, dealer, n, DealDraws(wall, dealer, n).value)
  {
    if n == 0 {
      assert wall[..0] == [];
    } else {
      DealDrawsOk(wall, dealer, n - 1);
      DrawOneOk(wall, dealer, n - 1, DealDraws(wall, dealer, n - 1).value);
    }
  }

  lemma DealtSeatOk(d: Dealing, dealer: SeatIx, i: SeatIx)
    requires NoFlowers(d.concealed[i]) && forall t :: t in d.flowers[i] ==> IsFlower(t)
    ensures SeatOk(DealtSeat(d, dealer, i), i)
    ensures HandSize(DealtSeat(d, dealer, i)) == |d.concealed[i]|
  {
    var hand := Sort(d.concealed[i]);
    forall t | t in hand ensures !IsFlower(t) {
      assert t in multiset(d.concealed[i]);
    }
  }

  lemma DealtConserved(wall: seq<Tile>, d: Dealing, dealer: SeatIx, drawn: Tile)
    requires IsDeck(wall) && d.pos <= |wall|
    requires forall t: Tile :: DealtCopies(d, t) == Copies(wall[..d.pos], t)
    ensures Conserved(DealtState(wall, d, dealer, drawn))
  {
    hide IsDeck;
    var s := DealtState(wall, d, dealer, drawn);
    assert wall == wall[..d.pos] + wall[d.pos..];
    DeckFacts(wall);
    forall t: Tile ensures TotalCopies(s, t) == DeckCopies(t) {
      assert DealtCopies(d, t) == Copies(wall[..d.pos], t);
      assert Copies(wall, t) == DeckCopies(t);
    }
  }

  lemma ConsumedTiles(wall: seq<Tile>, n: nat, pos: nat)
    requires IsDeck(wall) && pos <= |wall| && pos == n + FlowersIn(wall[..pos])
    ensures n <= pos <= n + 8
  {
    DeckFacts(wall);
    assert wall == wall[..pos] + wall[pos..];
    FlowersInConcat(wall[..pos], wall[pos..]);
  }

  lemma DealtSizes(wall: seq<Tile>, dealer: SeatIx, d: Dealing, drawn: Tile)
    requires DealingOk(wall, dealer, 53, d)
    ensures var s := DealtState(wall, d, dealer, drawn);
            && SeatsOk(s)
            && (forall i: SeatIx :: |s.seats[i].concealed| == (if i == dealer then 14 else 13))
            && (forall i: SeatIx :: s.seats[i] == DealtSeat(d, dealer, i))
  {
    hide DealtCopies;
    hide FlowersIn;
    hide SeatOk;
    var s := DealtState(wall, d, dealer, drawn);
    forall i: SeatIx
      ensures SeatOk(s.seats[i], i) && |s.seats[i].concealed| == (if i == dealer then 14 else 13)
      ensures s.seats[i] == DealtSeat(d, dealer, i)
    {
      assert |d.concealed[i]| == DrawsOf(dealer, 53, i);
      DealtSeatOk(d, dealer, i);
      assert s.seats[i] == DealtSeat(d, dealer, i);
    }
  }

  lemma LastDealtInHand(d: Dealing, dealer: SeatIx)
    requires |d.concealed[dealer]| == 14
    ensures d.concealed[dealer][13] in DealtSeat(d, dealer, dealer).concealed
  {
    assert d.concealed[dealer][13] in multiset(Sort(d.concealed[dealer]));
  }

  lemma DealtInvariant(wall: seq<Tile>, dealer: SeatIx, d: Dealing)
    requires IsDeck(wall) && |wall| == DECK_SIZE && DealingOk(wall, dealer, 53, d)
    ensures |d.concealed[dealer]| == 14 && Inv(DealtState(wall, d, dealer, d.concealed[dealer][13]))
  {
    hide DealtCopies;
    hide FlowersIn;
    hide IsDeck;
    hide DealtSeat;
    hide SeatOk;
    hide Conserved;
    assert |d.concealed[dealer]| == DrawsOf(dealer, 53, dealer);
    var drawn := d.concealed[dealer][13];
    var s := DealtState(wall, d, dealer, drawn);
    DealtConserved(wall, d, dealer, drawn);
    DealtSizes(wall, dealer, d, drawn);
    LastDealtInHand(d, dealer);
    forall i: SeatIx ensures HandSize(s.seats[i]) == if HoldsExtra(s, i) then 14 else 13 {
      assert DealtSeat(d, dealer, i).melds == [] by { DealtSeatEmpty(d, dealer, i); }
    }
  }

  lemma DealtSeatEmpty(d: Dealing, dealer: SeatIx, i: SeatIx)
    ensures var seat := DealtSeat(d, dealer, i);
            seat.melds == [] && seat.discards == [] && seat.score == 0 && seat.wind == SeatWind(dealer, i)
  {
  }

  /** Whatever the shuffle and whoever deals, the deal stays inside the wall, takes
      53 to 61 tiles, and starts the hand in a state that satisfies the invariant:
      the dealer to discard from fourteen tiles, with the last of them drawn. */
  lemma DealIsTotal(wall: seq<Tile>, dealer: SeatIx)
    requires IsDeck(wall)
    ensures InitialState(wall, dealer).Ok?
    ensures var s := InitialState(wall, dealer).value;
            && Inv(s) && s.phase == DiscardPhase && s.actor == dealer && s.lastDrawn.Some?
            && 53 <= s.drawn <= 61 && s.wall == wall[s.drawn..]
            && forall i: SeatIx :: OpeningSeat(s.seats[i], dealer, i)
  {
    hide DealDraws;
    hide Inv;
    hide IsDeck;
    hide FlowersIn;
    hide DealingOk;
    hide DealtSeat;
    DeckFacts(wall);
    DealDrawsOk(wall, dealer, 53);
    var d := DealDraws(wall, dealer, 53).value;
    DealtInvariant(wall, dealer, d);
    assert d.pos <= |wall| && d.pos == 53 + FlowersIn(wall[..d.pos]) by { DealingPosition(wall, dealer, 53, d); }
    ConsumedTiles(wall, 53, d.pos);
    var s := InitialState(wall, dealer).value;
    DealtSizes(wall, dealer, d, d.concealed[dealer][13]);
    forall i: SeatIx ensures OpeningSeat(s.seats[i], dealer, i) {
      DealtSeatEmpty(d, dealer, i);
    }
  }

  lemma DealingPosition(wall: seq<Tile>, dealer: SeatIx, n: nat, d: Dealing)
    requires DealingOk(wall, dealer, n, d)
    ensures d.pos <= |wall| && d.pos == n + FlowersIn(wall[..d.pos])
  {
  }

  /** A seat at the start: thirteen tiles, fourteen for the dealer, and nothing on the table. */
  predicate OpeningSeat(d: SeatData, dealer: SeatIx, i: SeatIx) {
    && |d.concealed| == (if i == dealer then 14 else 13)
    && d.melds == [] && d.discards == [] && d.score == 0
    && d.wind == SeatWind(dealer, i)
  }
}
