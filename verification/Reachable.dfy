/** Everything the engine can reach from a deal by legal actions alone, whoever
    chooses them and whether or not a manager drives the table. */
module Reachable {
  import opened Lists
  import opened Tiles
  import opened GameTypes
  import opened Legality
  import opened Transition
  import opened Scoring
  import opened Invariant
  import opened Deal
  import opened DealOrder
  import opened Manager
  import opened Safety
  import opened Replay
  import Rng

  datatype Move = Move(seat: SeatIx, action: Action)

  /** The state after some moves; the first one refused or failing decides. */
  function PlayMoves(r: Rules, s: State, moves: seq<Move>): Result<State>
    decreases |moves|
  {
    if moves == [] then Ok(s)
    else
      var next :- ApplyAction(r, s, moves[0].seat, moves[0].action);
      PlayMoves(r, next, moves[1..])
  }

  /** Every move is legal when it is made. */
  predicate LegalMoves(r: Rules, s: State, moves: seq<Move>)
    decreases |moves|
  {
    moves == []
    || (Legal(r, s, moves[0].seat, moves[0].action)
        && ApplyAction(r, s, moves[0].seat, moves[0].action).Ok?
        && LegalMoves(r, ApplyAction(r, s, moves[0].seat, moves[0].action).value, moves[1..]))
  }

  /** From any seed, any moves: no transition fails on a legal action, an illegal
      one is refused as such, and the invariant holds wherever legal moves lead. */
  lemma {:induction false} MovesKeepInvariant(r: Rules, s: State, moves: seq<Move>)
    requires Inv(s) && ValidRules(r)
    ensures var end := PlayMoves(r, s, moves);
            && (end.Ok? <==> LegalMoves(r, s, moves))
            && (end.Ok? ==> Inv(end.value))
            && (end.Err? ==> end.error == IllegalAction)
    decreases |moves|
  {
    hide Inv;
    hide Legal;
    hide ApplyAction;
    if moves != [] {
      ApplyActionKeepsInvariant(r, s, moves[0].seat, moves[0].action);
      if Legal(r, s, moves[0].seat, moves[0].action) {
        MovesKeepInvariant(r, ApplyAction(r, s, moves[0].seat, moves[0].action).value, moves[1..]);
      }
    }
  }

  ghost predicate ReachableState(r: Rules, s: State) {
    exists seed, dealer, moves :: PlayedFromSeed(r, seed, dealer, moves, s)
  }

  predicate PlayedFromSeed(r: Rules, seed: nat, dealer: SeatIx, moves: seq<Move>, s: State) {
    var start := Start(r, seed, dealer);
    start.Ok? && PlayMoves(r, start.value, moves) == Ok(s)
  }

  lemma ReachableStatesAreGood(r: Rules, s: State)
    requires ValidRules(r) && ReachableState(r, s)
    ensures Inv(s)
  {
    hide Start;
    hide PlayMoves;
    hide Inv;
    var seed, dealer, moves :| PlayedFromSeed(r, seed, dealer, moves, s);
    SeedDeals(r, seed, dealer);
    MovesKeepInvariant(r, Start(r, seed, dealer).value, moves);
  }

  // --- conservation, spelled out ---

  function MeldTiles(melds: seq<Meld>): seq<Tile> {
    if melds == [] then [] else MeldTiles(melds[..|melds| - 1]) + melds[|melds| - 1].tiles
  }

  function SeatTiles(d: SeatData): seq<Tile> { d.concealed + MeldTiles(d.melds) + d.discards + d.flowers }

  /** The whole table: the wall, and every seat's hand, melds, discards and flowers. */
  function AllTiles(s: State): seq<Tile> {
    s.wall + SeatTiles(s.seats[0]) + SeatTiles(s.seats[1]) + SeatTiles(s.seats[2]) + SeatTiles(s.seats[3])
  }

  lemma {:induction false} MeldTilesCount(melds: seq<Meld>, t: Tile)
    ensures multiset(MeldTiles(melds))[t] == MeldCopies(melds, t)
  {
    if melds != [] {
      MeldTilesCount(melds[..|melds| - 1], t);
    }
  }

  lemma SeatTilesCount(d: SeatData, t: Tile)
    ensures multiset(SeatTiles(d))[t] == SeatCopies(d, t)
  {
    MeldTilesCount(d.melds, t);
  }

  lemma AllTilesCount(s: State, t: Tile)
    ensures multiset(AllTiles(s))[t] == TotalCopies(s, t)
  {
    hide SeatTiles;
    hide SeatCopies;
    SeatTilesCount(s.seats[0], t);
    SeatTilesCount(s.seats[1], t);
    SeatTilesCount(s.seats[2], t);
    SeatTilesCount(s.seats[3], t);
  }

  /** Conservation: in every reachable state the tiles on the table are the canonical
      144, and the wall has lost as many as were drawn. */
  lemma TilesAreConserved(r: Rules, s: State)
    requires ValidRules(r) && ReachableState(r, s)
    ensures multiset(AllTiles(s)) == multiset(CanonicalTileSet())
    ensures s.drawn + |s.wall| == DECK_SIZE
  {
    hide ReachableState;
    ReachableStatesAreGood(r, s);
    hide AllTiles;
    forall t: Tile ensures multiset(AllTiles(s))[t] == multiset(CanonicalTileSet())[t] {
      AllTilesCount(s, t);
      CanonicalCopies(t);
      assert TotalCopies(s, t) == DeckCopies(t);
    }
  }

  /** Hand shape: thirteen tiles, counting three for each meld, and a fourteenth for
      whoever is on turn or has just won by self-draw; sorted, without flowers; at
      most four melds, all well formed; a drawn tile is in the hand it was drawn to. */
  lemma HandsHaveShape(r: Rules, s: State, i: SeatIx)
    requires ValidRules(r) && ReachableState(r, s)
    ensures var d := s.seats[i];
            && |d.concealed| + 3 * |d.melds| == (if HoldsExtra(s, i) then 14 else 13)
            && |d.melds| <= 4
            && Sorted(d.concealed) && NoFlowers(d.concealed)
            && (forall k :: 0 <= k < |d.melds| ==> MeldOk(d.melds[k], i))
    ensures s.phase == DiscardPhase ==>
              && s.lastDiscard == None && s.claims == []
              && (s.lastDrawn.Some? ==>
                    s.lastDrawn.value.seat == s.actor && s.lastDrawn.value.tile in s.seats[s.actor].concealed)
  {
    hide ReachableState;
    ReachableStatesAreGood(r, s);
    hide MeldOk;
    assert SeatOk(s.seats[i], i);
    assert HandSize(s.seats[i]) == if HoldsExtra(s, i) then 14 else 13;
  }

  // --- what is pending in a window ---

  /** Each seat's pending claims are all of its claims on the discard, or none. */
  ghost predicate ClaimsExact(r: Rules, s: State) {
    s.phase == ClaimWindow ==>
      && (forall c :: c in s.claims ==> c in OpenClaims(r, s))
      && (forall c :: c in OpenClaims(r, s) ==> c in s.claims || !Claims(s.claims, c.seat))
  }

  lemma OpenedExact(r: Rules, s: State)
    ensures s.phase != ClaimWindow ==> ClaimsExact(r, OpenWindowOrAdvance(r, s))
  {
    hide InternalDraw;
    if s.lastDiscard.Some? && OpenClaims(r, s) != [] {
      SameClaims(r, s, OpenWindowOrAdvance(r, s));
    } else if s.lastDiscard.Some? {
      AdvanceLeaves(s);
    }
  }

  lemma SameClaimActions(r: Rules, s: State, u: State, seat: SeatIx)
    requires u.seats == s.seats && u.wall == s.wall && u.lastDiscard == s.lastDiscard && u.roundWind == s.roundWind
    ensures ClaimActions(r, u, seat) == ClaimActions(r, s, seat)
  {
    hide ChiActions;
  }

  /** Claims on a discard depend on the hands, the melds, the wall and the discard. */
  lemma SameClaims(r: Rules, s: State, u: State)
    requires u.seats == s.seats && u.wall == s.wall && u.lastDiscard == s.lastDiscard && u.roundWind == s.roundWind
    ensures OpenClaims(r, u) == OpenClaims(r, s)
  {
    hide ClaimActions;
    hide SeatClaims;
    SameClaimActions(r, s, u, 0);
    SameClaimActions(r, s, u, 1);
    SameClaimActions(r, s, u, 2);
    SameClaimActions(r, s, u, 3);
  }

  lemma PassedExact(r: Rules, s: State, seat: SeatIx)
    requires s.phase == ClaimWindow && ClaimsExact(r, s)
    ensures ClaimsExact(r, ApplyPass(s, seat))
  {
    var passed := s.(claims := DropClaims(s.claims, seat));
    DropClaimsKeepsOthers(s.claims, seat);
    SameClaims(r, s, passed);
    hide OpenClaims;
    if passed.claims == [] {
      AdvanceLeaves(passed);
    } else {
      forall c | c in OpenClaims(r, s) ensures c in passed.claims || !Claims(passed.claims, c.seat) {
        ClaimsDropped(s.claims, seat, c.seat);
      }
    }
  }

  lemma DrawOpensNoWindow(s: State, seat: SeatIx)
    ensures InternalDraw(s, seat).phase != ClaimWindow
  {
  }

  lemma OthersOpenNoWindow(r: Rules, s: State, seat: SeatIx, a: Action)
    requires !a.Play? && !a.Pass? && ApplyAction(r, s, seat, a).Ok?
    ensures ApplyAction(r, s, seat, a).value.phase != ClaimWindow
  {
    hide Legal;
    hide RemoveTimes;
    hide RemoveFirst;
    hide RemoveSupport;
    hide Promote;
    hide InternalDraw;
    hide ScoreDelta;
    var after := ApplyAction(r, s, seat, a).value;
    match a
    case Gang(t, Exposed) =>
      var x :| after == InternalDraw(x, seat);
      DrawOpensNoWindow(x, seat);
    case Gang(t, Concealed) =>
      var x :| after == InternalDraw(x, seat);
      DrawOpensNoWindow(x, seat);
    case Gang(t, Added) =>
      var x :| after == InternalDraw(x, seat);
      DrawOpensNoWindow(x, seat);
    case _ =>
  }

  lemma ActionKeepsExact(r: Rules, s: State, seat: SeatIx, a: Action)
    requires ClaimsExact(r, s) && Legal(r, s, seat, a) && ApplyAction(r, s, seat, a).Ok?
    ensures ClaimsExact(r, ApplyAction(r, s, seat, a).value)
  {
    match a
    case Play(t) =>
      hide OpenWindowOrAdvance;
      hide ClaimsExact;
      hide RemoveFirst;
      OpenedExact(r, Played(s, seat, t));
    case Pass =>
      hide ClaimsExact;
      hide ApplyPass;
      PassedExact(r, s, seat);
    case _ =>
      hide ApplyAction;
      hide OpenClaims;
      OthersOpenNoWindow(r, s, seat, a);
  }

  lemma {:induction false} MovesKeepExact(r: Rules, s: State, moves: seq<Move>)
    requires ClaimsExact(r, s) && LegalMoves(r, s, moves) && PlayMoves(r, s, moves).Ok?
    ensures ClaimsExact(r, PlayMoves(r, s, moves).value)
    decreases |moves|
  {
    hide ClaimsExact;
    hide Legal;
    hide ApplyAction;
    if moves != [] {
      ActionKeepsExact(r, s, moves[0].seat, moves[0].action);
      MovesKeepExact(r, ApplyAction(r, s, moves[0].seat, moves[0].action).value, moves[1..]);
    }
  }

  lemma DealOpensNoWindow(r: Rules, seed: nat, dealer: SeatIx)
    requires Start(r, seed, dealer).Ok?
    ensures ClaimsExact(r, Start(r, seed, dealer).value)
  {
    hide DealDraws;
    hide Rng.Wall;
    hide OpenClaims;
  }

  /** In every reachable window a seat that has not passed has exactly the claims
      the rules allow it pending, and a seat that has passed has none. */
  lemma PendingClaimsExact(r: Rules, s: State)
    requires ValidRules(r) && ReachableState(r, s)
    ensures ClaimsExact(r, s)
  {
    hide Start;
    hide PlayMoves;
    hide LegalMoves;
    hide ClaimsExact;
    hide Inv;
    var seed, dealer, moves :| PlayedFromSeed(r, seed, dealer, moves, s);
    SeedDeals(r, seed, dealer);
    var start := Start(r, seed, dealer).value;
    MovesKeepInvariant(r, start, moves);
    DealOpensNoWindow(r, seed, dealer);
    MovesKeepExact(r, start, moves);
  }

  // --- what never changes ---

  /** The dealer, the round wind and the seat winds of two states are the same. */
  ghost predicate SameTable(s: State, u: State) {
    u.dealer == s.dealer && u.roundWind == s.roundWind && forall i: SeatIx :: u.seats[i].wind == s.seats[i].wind
  }

  lemma DrawKeepsTable(s: State, seat: SeatIx)
    ensures SameTable(s, InternalDraw(s, seat))
  {
    hide FirstLive;
    hide Sort;
  }

  lemma AdvanceKeepsTable(s: State)
    ensures SameTable(s, Advance(s))
  {
    hide InternalDraw;
    DrawKeepsTable(s.(lastDiscard := None, claims := []),
                   Next(if s.lastDiscard.Some? then s.lastDiscard.value.seat else s.actor));
  }

  lemma ClaimKeepsTable(s: State, seat: SeatIx, t: Tile, tiles: seq<Tile>)
    ensures ApplyPeng(s, seat, t).Ok? ==> SameTable(s, ApplyPeng(s, seat, t).value)
    ensures ApplyChi(s, seat, tiles).Ok? ==> SameTable(s, ApplyChi(s, seat, tiles).value)
  {
    hide RemoveTimes;
    hide RemoveSupport;
  }

  lemma KongKeepsTable(s: State, seat: SeatIx, t: Tile)
    ensures ApplyGangExposed(s, seat, t).Ok? ==> SameTable(s, ApplyGangExposed(s, seat, t).value)
    ensures ApplyGangConcealed(s, seat, t).Ok? ==> SameTable(s, ApplyGangConcealed(s, seat, t).value)
    ensures ApplyGangAdded(s, seat, t).Ok? ==> SameTable(s, ApplyGangAdded(s, seat, t).value)
  {
    hide RemoveTimes;
    hide RemoveFirst;
    hide Promote;
    hide InternalDraw;
    forall x: State ensures SameTable(x, InternalDraw(x, seat)) {
      DrawKeepsTable(x, seat);
    }
  }

  lemma PlayKeepsTable(r: Rules, s: State, seat: SeatIx, t: Tile)
    requires ApplyPlay(r, s, seat, t).Ok?
    ensures SameTable(s, ApplyPlay(r, s, seat, t).value)
  {
    hide RemoveFirst;
    hide OpenClaims;
    hide Advance;
    AdvanceKeepsTable(Played(s, seat, t));
  }

  lemma HuKeepsTable(r: Rules, s: State, seat: SeatIx)
    requires ApplyHu(r, s, seat).Ok?
    ensures SameTable(s, ApplyHu(r, s, seat).value)
  {
    hide RemoveFirst;
    hide ScoreDelta;
    hide FanTotal;
  }

  lemma ActionKeepsTable(r: Rules, s: State, seat: SeatIx, a: Action)
    requires ApplyAction(r, s, seat, a).Ok?
    ensures SameTable(s, ApplyAction(r, s, seat, a).value)
  {
    hide Legal;
    hide SameTable;
    match a
    case Play(t) => PlayKeepsTable(r, s, seat, t);
    case Pass => PassKeepsTable(s, seat);
    case Peng(t) => ClaimKeepsTable(s, seat, t, []);
    case Chi(tiles) => ClaimKeepsTable(s, seat, 0, tiles);
    case Gang(t, _) => KongKeepsTable(s, seat, t);
    case Hu => HuKeepsTable(r, s, seat);
  }

  lemma PassKeepsTable(s: State, seat: SeatIx)
    ensures SameTable(s, ApplyPass(s, seat))
  {
    hide Advance;
    hide DropClaims;
    AdvanceKeepsTable(s.(claims := DropClaims(s.claims, seat)));
  }

  lemma {:induction false} MovesKeepTable(r: Rules, s: State, moves: seq<Move>)
    requires PlayMoves(r, s, moves).Ok?
    ensures SameTable(s, PlayMoves(r, s, moves).value)
    decreases |moves|
  {
    hide ApplyAction;
    if moves != [] {
      ActionKeepsTable(r, s, moves[0].seat, moves[0].action);
      MovesKeepTable(r, ApplyAction(r, s, moves[0].seat, moves[0].action).value, moves[1..]);
    }
  }

  /** In every reachable state the dealer is East and the winds go round the table in
      order; the round wind is East. */
  lemma WindsGoRound(r: Rules, s: State)
    requires ReachableState(r, s)
    ensures WindsInOrder(s) && s.roundWind == EAST
    ensures forall i: SeatIx :: s.seats[i].wind in {EAST, SOUTH, WEST, NORTH}
  {
    hide Start;
    hide PlayMoves;
    hide Inv;
    hide InitialState;
    hide Rng.Wall;
    var seed: nat, dealer: SeatIx, moves :| PlayedFromSeed(r, seed, dealer, moves, s);
    SeedDeals(r, seed, dealer);
    var start := Start(r, seed, dealer).value;
    OpeningTable(Rng.Wall(r.sha, seed).value.0, dealer, start);
    MovesKeepTable(r, start, moves);
  }
}
