/** The browser's reducer as it runs (web/static/apply_event.js): a handler gets a
    clone of the view and splices, pushes and assigns. Every method is verified
    against the functions of module Client. */
module Reducer {
  import opened Lists
  import opened Tiles
  import opened GameTypes
  import opened Records
  import opened Views
  import opened Client

  // --- list helpers ---

  /** The loop of removeNFromConcealed: indexOf and splice. */
  method SpliceOut(tiles: seq<Tile>, tile: Tile, n: nat) returns (left: seq<Tile>)
    ensures left == RemoveTimes(tiles, tile, n)
  {
    hide RemoveFirst;
    left := tiles;
    for i := 0 to n
      invariant RemoveTimes(left, tile, n - i) == RemoveTimes(tiles, tile, n)
    {
      left := RemoveFirst(left, tile);
    }
  }

  /** The loop of removeChiSupportTiles. */
  method SpliceSupport(tiles: seq<Tile>, run: seq<Tile>, called: Tile) returns (left: seq<Tile>)
    ensures left == DropSupport(tiles, run, called, false)
  {
    hide RemoveFirst;
    left := tiles;
    var calledRemoved := false;
    for i := 0 to |run|
      invariant DropSupport(left, run[i..], called, calledRemoved) == DropSupport(tiles, run, called, false)
    {
      assert run[i..][0] == run[i] && run[i..][1..] == run[i + 1..];
      if !calledRemoved && run[i] == called {
        calledRemoved := true;
      } else {
        left := RemoveFirst(left, run[i]);
      }
    }
  }

  lemma LastStep(tiles: seq<Tile>, tile: Tile, i: nat)
    requires i < |tiles|
    ensures tiles[i] == tile ==> RemoveLast(tiles[..i + 1], tile) == tiles[..i]
    ensures tiles[i] != tile ==>
              RemoveLast(tiles[..i + 1], tile) + tiles[i + 1..] == RemoveLast(tiles[..i], tile) + tiles[i..]
  {
    assert tiles[..i + 1][..i] == tiles[..i];
  }

  /** The backward loop of pullCalledTileOffDiscarder. */
  method SpliceLast(tiles: seq<Tile>, tile: Tile) returns (left: seq<Tile>)
    ensures left == RemoveLast(tiles, tile)
  {
    var i := |tiles| - 1;
    assert tiles[..|tiles|] == tiles && tiles[|tiles|..] == [];
    while i >= 0
      invariant -1 <= i < |tiles|
      invariant RemoveLast(tiles, tile) == RemoveLast(tiles[..i + 1], tile) + tiles[i + 1..]
    {
      LastStep(tiles, tile, i);
      if tiles[i] == tile {
        return tiles[..i] + tiles[i + 1..];
      }
      i := i - 1;
    }
    left := tiles;
  }

  /** findIndex of a PENG of the tile. */
  method FindMeld(melds: seq<MeldView>, tile: Tile) returns (k: Option<nat>)
    ensures k == FindShownPeng(melds, tile)
    ensures k.Some? ==> k.value < |melds|
  {
    for i := 0 to |melds|
      invariant FindShownPeng(melds, tile) ==
                match FindShownPeng(melds[i..], tile) case Some(j) => Some(i + j) case None => None
    {
      assert melds[i..][0] == melds[i] && melds[i..][1..] == melds[i + 1..];
      if IsShownPeng(melds[i], tile) {
        return Some(i);
      }
    }
    k := None;
  }

  lemma Max0IsNatural(n: int)
    ensures Max0(n) >= 0
  {
  }

  // --- the view object ---

  class SeatViewer {
    var roundWind: Tile
    var dealer: SeatIx
    var turn: nat
    var wallRemaining: int
    var wallDrawn: int
    var seats: FourViews
    var lastDiscard: Option<LastDiscard>
    var lastDrawn: Option<DrawnView>
    var claims: seq<Claim>
    var phase: Phase
    var actor: SeatIx
    var terminal: Option<TerminalView>

    function Value(): View
      reads this
    {
      View(roundWind, dealer, turn, wallRemaining, wallDrawn, seats, lastDiscard, lastDrawn, claims, phase, actor, terminal)
    }

    /** cloneSeatView. */
    constructor (v: View)
      ensures Value() == v
    {
      roundWind, dealer, turn, wallRemaining, wallDrawn := v.roundWind, v.dealer, v.turn, v.wallRemaining, v.wallDrawn;
      seats, lastDiscard, lastDrawn, claims := v.seats, v.lastDiscard, v.lastDrawn, v.claims;
      phase, actor, terminal := v.phase, v.actor, v.terminal;
    }

    method SetHand(seat: SeatIx, hand: HandView)
      modifies this`seats
      ensures seats == old(seats)[seat := old(seats[seat]).(hand := hand)]
    {
      seats := seats[seat := seats[seat].(hand := hand)];
    }

    /** removeNFromConcealed. */
    method RemoveN(seat: SeatIx, tile: Option<Tile>, n: nat)
      modifies this`seats
      ensures seats == old(seats)[seat := old(seats[seat]).(hand := RemoveFromHand(old(seats[seat].hand), tile, n))]
    {
      match seats[seat].hand
      case Own(tiles) =>
        if tile.Some? {
          var left := SpliceOut(tiles, tile.value, n);
          SetHand(seat, Own(left));
        } else {
          SetHand(seat, seats[seat].hand);
        }
      case Count(c) => SetHand(seat, Count(Max0(c - n)));
    }

    /** addToConcealed, and the re-sort of an own hand. */
    method Add(seat: SeatIx, tile: Option<Tile>)
      modifies this`seats
      ensures seats == old(seats)[seat := old(seats[seat]).(hand := AddToHand(old(seats[seat].hand), tile))]
    {
      match seats[seat].hand
      case Own(tiles) =>
        if tile.Some? {
          SetHand(seat, Own(Sort(tiles + [tile.value])));
        } else {
          SetHand(seat, seats[seat].hand);
        }
      case Count(c) => SetHand(seat, Count(c + 1));
    }

    method PushMeld(seat: SeatIx, m: MeldView)
      modifies this`seats
      ensures seats == old(seats)[seat := old(seats[seat]).(melds := old(seats[seat].melds) + [m])]
    {
      seats := seats[seat := seats[seat].(melds := seats[seat].melds + [m])];
    }

    /** The flowers that came with a draw tick the wall one by one. */
    method TickFlowers(seat: SeatIx, extra: seq<Tile>)
      requires wallRemaining >= 0
      modifies this`seats, this`wallDrawn, this`wallRemaining
      ensures seats == old(seats)[seat := old(seats[seat]).(flowers := old(seats[seat].flowers) + extra)]
      ensures wallDrawn == old(wallDrawn) + |extra| && wallRemaining == Max0(old(wallRemaining) - |extra|)
    {
      for i := 0 to |extra|
        invariant seats == old(seats)[seat := old(seats[seat]).(flowers := seats[seat].flowers)]
        invariant seats[seat].flowers == old(seats[seat].flowers) + extra[..i]
        invariant wallDrawn == old(wallDrawn) + i && wallRemaining == Max0(old(wallRemaining) - i)
      {
        assert extra[..i + 1] == extra[..i] + [extra[i]];
        seats := seats[seat := seats[seat].(flowers := seats[seat].flowers + [extra[i]])];
        wallDrawn := wallDrawn + 1;
        wallRemaining := Max0(wallRemaining - 1);
      }
      assert extra[..|extra|] == extra;
    }

    /** applyDraw. */
    method OnDraw(t: nat, p: Phase, seat: SeatIx, drawn: Option<Tile>, extra: seq<Tile>)
      modifies this
      ensures Value() == ApplyDraw(old(Value()), t, p, seat, drawn, extra)
    {
      hide AddToHand;
      hide Max0;
      ghost var before := seats[seat];
      Add(seat, drawn);
      ghost var hand := seats[seat].hand;
      lastDrawn := Some(DrawnView(seat, drawn));
      wallDrawn := wallDrawn + 1;
      wallRemaining := Max0(wallRemaining - 1);
      turn := t;
      phase := p;
      actor := seat;
      Max0IsNatural(old(wallRemaining) - 1);
      TickFlowers(seat, extra);
      assert seats == old(seats)[seat := before.(hand := hand, flowers := before.flowers + extra)];
    }

    /** applyDiscard. */
    method OnDiscard(t: nat, p: Phase, seat: SeatIx, tile: Tile)
      modifies this
      ensures Value() == ApplyDiscard(old(Value()), t, p, seat, tile)
    {
      hide RemoveFromHand;
      RemoveN(seat, Some(tile), 1);
      seats := seats[seat := seats[seat].(discards := seats[seat].discards + [tile])];
      lastDiscard := Some(LastDiscard(tile, seat, t));
      lastDrawn := None;
      turn := t;
      phase := p;
    }

    /** applySelfGang. */
    method OnSelfGang(seat: SeatIx, kind: GangKind, tile: Option<Tile>)
      modifies this
      ensures Value() == ApplySelfGang(old(Value()), seat, kind, tile)
    {
      hide RemoveFromHand;
      hide FindShownPeng;
      if kind == Concealed {
        var own := seats[seat].hand.Own?;
        RemoveN(seat, tile, 4);
        if own && tile.Some? {
          PushMeld(seat, Shown(GangConcealed, [tile.value, tile.value, tile.value, tile.value], None, seat));
        } else {
          PushMeld(seat, Hidden(seat));
        }
      } else if kind == Added {
        if tile.None? {
          return;
        }
        RemoveN(seat, tile, 1);
        var s := seats[seat];
        var k := FindMeld(s.melds, tile.value);
        if k.Some? {
          var t := tile.value;
          seats := seats[seat := s.(melds := s.melds[k.value := Shown(GangAdded, [t, t, t, t], tile, s.melds[k.value].from)])];
        }
      }
      actor := seat;
    }

    /** pullCalledTileOffDiscarder. */
    method PullOffDiscarder(tile: Option<Tile>, from: Option<SeatIx>)
      modifies this`seats
      ensures Value() == PullDiscard(old(Value()), tile, from)
    {
      if from.None? || tile.None? {
        return;
      }
      var s := seats[from.value];
      var left := SpliceLast(s.discards, tile.value);
      seats := seats[from.value := s.(discards := left)];
    }

    /** applyClaimResolution, for a claim that was won. */
    method OnClaimed(winner: SeatIx, claim: DecisionKind, stamped: Option<Tile>, chi: Option<seq<Tile>>)
      modifies this
      ensures Value() == ApplyClaimed(old(Value()), winner, claim, stamped, chi)
    {
      hide RemoveFromHand;
      hide RemoveChiSupport;
      hide PullDiscard;
      var called := if stamped.Some? then stamped else if lastDiscard.Some? then Some(lastDiscard.value.tile) else None;
      var from := if lastDiscard.Some? then Some(lastDiscard.value.seat) else None;
      var fromSeat: int := if from.Some? then from.value else -1;
      if claim == DecidePeng || claim == DecideGang {
        if called.None? {
          return;
        }
        var t := called.value;
        RemoveN(winner, called, if claim == DecidePeng then 2 else 3);
        PullOffDiscarder(called, from);
        PushMeld(winner, if claim == DecidePeng then Shown(PengMeld, [t, t, t], called, fromSeat)
                         else Shown(GangExposed, [t, t, t, t], called, fromSeat));
      } else if claim == DecideChi {
        var run := if chi.Some? then chi.value else [];
        if called.Some? {
          RemoveSupportTiles(winner, run, called.value);
        } else {
          SetHand(winner, seats[winner].hand);
        }
        PullOffDiscarder(called, from);
        PushMeld(winner, Shown(ChiMeld, run, called, fromSeat));
      } else {
        return;
      }
      lastDiscard := None;
      actor := winner;
    }

    /** removeChiSupportTiles. */
    method RemoveSupportTiles(seat: SeatIx, run: seq<Tile>, called: Tile)
      modifies this`seats
      ensures seats == old(seats)[seat := old(seats[seat]).(hand := RemoveChiSupport(old(seats[seat].hand), run, called))]
    {
      match seats[seat].hand
      case Own(tiles) =>
        var left := SpliceSupport(tiles, run, called);
        SetHand(seat, Own(left));
      case Count(c) => SetHand(seat, Count(Max0(c - 2)));
    }

    /** The four deltas, seat by seat. */
    method AddDeltas(delta: seq<int>)
      requires |delta| == 4
      modifies this`seats
      ensures seats == ScoredViews(old(seats), delta)
    {
      for i := 0 to 4
        invariant forall j :: 0 <= j < 4 ==>
                    seats[j] == old(seats[j]).(score := old(seats[j].score) + if j < i then delta[j] else 0)
      {
        seats := seats[i := seats[i].(score := seats[i].score + delta[i])];
      }
    }

    /** applyHandEnd. */
    method OnHandEnd(t: nat, winners: seq<SeatIx>, kind: TerminalKind, winTile: Option<Tile>,
                     winType: Option<WinType>, dealIn: Option<SeatIx>, fan: seq<FanEntry>, fanTotal: int,
                     delta: seq<int>, finalHands: seq<FinalHand>)
      modifies this
      ensures Value() == ApplyHandEnd(old(Value()), t, winners, kind, winTile, winType, dealIn, fan, fanTotal,
                                      delta, finalHands)
    {
      turn := t;
      phase := TerminalPhase;
      var winner := if winners == [] then None else Some(winners[0]);
      terminal := Some(TerminalView(Terminal(kind, winner, winTile, winType, dealIn, fan, fanTotal, delta), finalHands));
      if |delta| == 4 {
        AddDeltas(delta);
        hide ScoredViews;
      }
    }

    method Restamp(t: nat, p: Phase)
      modifies this
      ensures Value() == Stamp(old(Value()), t, p)
    {
      turn := t;
      phase := p;
    }
  }

  /** applyEvent: the handler of the event's kind changes a clone. */
  method Reduce(view: SeatViewer, e: Event) returns (next: SeatViewer)
    ensures next.Value() == Client.ApplyEvent(view.Value(), e) && unchanged(view)
  {
    hide ApplyDraw;
    hide ApplyDiscard;
    hide ApplySelfGang;
    hide ApplyClaimed;
    hide ApplyHandEnd;
    hide Stamp;
    next := new SeatViewer(view.Value());
    match e
    case DrawEvent(t, p, seat, drawn, extra) => next.OnDraw(t, p, seat, drawn, extra);
    case DiscardEvent(t, p, seat, tile, _) => next.OnDiscard(t, p, seat, tile);
    case WindowEvent(t, p, _) => next.Restamp(t, p);
    case DecisionEvent(t, p, seat, decision, tile, gang, _) =>
      next.Restamp(t, p);
      if decision == DecideGang && (gang == Some(Concealed) || gang == Some(Added)) {
        next.OnSelfGang(seat, gang.value, tile);
      }
    case PassedEvent(t, p) => next.Restamp(t, p);
    case ClaimedEvent(t, p, winner, claim, called, _, chi) =>
      next.Restamp(t, p);
      next.OnClaimed(winner, claim, called, chi);
    case HandEndEvent(t, _, winners, kind, winTile, winType, dealIn, fan, fanTotal, delta, hands) =>
      next.OnHandEnd(t, winners, kind, winTile, winType, dealIn, fan, fanTotal, delta, hands);
    case HeaderEvent(_, _) =>
    case FooterEvent(_, _) =>
  }
}
