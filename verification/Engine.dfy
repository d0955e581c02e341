/** The rules engine as the program runs it (engine/transition, engine/legality):
    actions work on a copy of the state object and change it in place, and legal
    actions are collected in lists. Every method is verified against the functions
    of modules Transition and Legality. */
module Engine {
  import opened Lists
  import opened Tiles
  import opened GameTypes
  import opened Legality
  import opened Scoring
  import opened Transition

  // --- what is legal ---

  lemma ConcealedGangsAt(hand: seq<Tile>, ts: seq<Tile>, i: nat)
    requires i < |ts|
    ensures ConcealedGangs(hand, ts[i..]) ==
            (if Copies(hand, ts[i]) == 4 then [Gang(ts[i], Concealed)] else []) + ConcealedGangs(hand, ts[i + 1..])
  {
    assert ts[i..][1..] == ts[i + 1..];
  }

  method ListConcealedGangs(hand: seq<Tile>, distinct: seq<Tile>) returns (acts: seq<Action>)
    ensures acts == ConcealedGangs(hand, distinct)
  {
    acts := [];
    assert distinct[0..] == distinct && ConcealedGangs(hand, []) == [];
    hide ConcealedGangs;
    Appended(ConcealedGangs(hand, distinct), [], []);
    for i := 0 to |distinct|
      invariant acts + ConcealedGangs(hand, distinct[i..]) == ConcealedGangs(hand, distinct)
    {
      ConcealedGangsAt(hand, distinct, i);
      ghost var step: seq<Action> := if Copies(hand, distinct[i]) == 4 then [Gang(distinct[i], Concealed)] else [];
      Appended(acts, step, ConcealedGangs(hand, distinct[i + 1..]));
      if Copies(hand, distinct[i]) == 4 {
        acts := acts + [Gang(distinct[i], Concealed)];
      }
    }
    Appended(acts, [], []);
  }

  lemma AddedGangsAt(hand: seq<Tile>, ts: seq<Tile>, i: nat)
    requires i < |ts|
    ensures AddedGangs(hand, ts[i..]) ==
            (if ts[i] in hand then [Gang(ts[i], Added)] else []) + AddedGangs(hand, ts[i + 1..])
  {
    assert ts[i..][1..] == ts[i + 1..];
  }

  method ListAddedGangs(hand: seq<Tile>, pengs: seq<Tile>) returns (acts: seq<Action>)
    ensures acts == AddedGangs(hand, pengs)
  {
    acts := [];
    assert pengs[0..] == pengs && AddedGangs(hand, []) == [];
    hide AddedGangs;
    Appended(AddedGangs(hand, pengs), [], []);
    for i := 0 to |pengs|
      invariant acts + AddedGangs(hand, pengs[i..]) == AddedGangs(hand, pengs)
    {
      AddedGangsAt(hand, pengs, i);
      ghost var step: seq<Action> := if pengs[i] in hand then [Gang(pengs[i], Added)] else [];
      Appended(acts, step, AddedGangs(hand, pengs[i + 1..]));
      if pengs[i] in hand {
        acts := acts + [Gang(pengs[i], Added)];
      }
    }
    Appended(acts, [], []);
  }

  /** discard_actions. */
  method ListDiscardActions(r: Rules, s: State, seat: SeatIx) returns (acts: seq<Action>)
    ensures acts == DiscardActions(r, s, seat)
  {
    hide SelfDrawWins;
    hide DistinctFrom;
    hide PengTiles;
    hide ConcealedGangs;
    hide AddedGangs;
    if seat != s.actor {
      return [];
    }
    var d := s.seats[seat];
    var distinct := DistinctFrom(d.concealed, 0);
    acts := [];
    for i := 0 to |distinct|
      invariant acts == Plays(distinct)[..i]
    {
      acts := acts + [Play(distinct[i])];
    }
    if s.wall != [] {
      var concealed := ListConcealedGangs(d.concealed, distinct);
      var added := ListAddedGangs(d.concealed, DistinctFrom(PengTiles(d.melds), 0));
      acts := acts + (concealed + added);
    }
    if SelfDrawWins(r, s, seat) {
      acts := acts + [Hu];
    }
  }

  /** _chi_actions: the three runs that contain the discard. */
  method ListChiActions(hand: seq<Tile>, discard: Tile) returns (acts: seq<Action>)
    ensures acts == ChiActions(hand, discard)
  {
    acts := [];
    if !IsSuited(discard) {
      return;
    }
    for k := 0 to 3
      invariant acts == (if k > 0 then ChiAt(hand, discard, -2) else [])
                        + (if k > 1 then ChiAt(hand, discard, -1) else [])
                        + (if k > 2 then ChiAt(hand, discard, 0) else [])
    {
      var offset := k - 2;
      var rank := Rank(discard) + offset;
      if 1 <= rank && rank + 2 <= 9 {
        var run: seq<Tile> := [discard + offset, discard + offset + 1, discard + offset + 2];
        if (run[0] == discard || run[0] in hand) && (run[1] == discard || run[1] in hand)
           && (run[2] == discard || run[2] in hand)
        {
          acts := acts + [Chi(run)];
        }
      }
    }
  }

  /** claim_actions. */
  method ListClaimActions(r: Rules, s: State, seat: SeatIx) returns (acts: seq<Action>)
    ensures acts == ClaimActions(r, s, seat)
  {
    hide DiscardWins;
    hide ChiActions;
    hide Copies;
    if s.lastDiscard.None? || seat == s.lastDiscard.value.seat {
      return [];
    }
    var last := s.lastDiscard.value;
    var hand := s.seats[seat].concealed;
    ghost var peng: seq<Action> := if Copies(hand, last.tile) >= 2 then [Peng(last.tile)] else [];
    ghost var kong: seq<Action> := if s.wall != [] && Copies(hand, last.tile) >= 3 then [Gang(last.tile, Exposed)] else [];
    ghost var chi := if seat == Next(last.seat) then ChiActions(hand, last.tile) else [];
    acts := [Pass];
    if Copies(hand, last.tile) >= 2 {
      acts := acts + [Peng(last.tile)];
    }
    assert acts == [Pass] + peng;
    if s.wall != [] && Copies(hand, last.tile) >= 3 {
      acts := acts + [Gang(last.tile, Exposed)];
    }
    assert acts == [Pass] + peng + kong;
    if seat == Next(last.seat) {
      var runs := ListChiActions(hand, last.tile);
      acts := acts + runs;
    }
    assert acts == [Pass] + peng + kong + chi;
    if DiscardWins(r, s, seat, last.tile) {
      acts := acts + [Hu];
    }
  }

  /** legal_actions. */
  method ListLegalActions(r: Rules, s: State, seat: SeatIx) returns (acts: seq<Action>)
    ensures acts == LegalActions(r, s, seat)
  {
    match s.phase
    case DiscardPhase => acts := ListDiscardActions(r, s, seat);
    case ClaimWindow => acts := ListClaimActions(r, s, seat);
    case TerminalPhase => acts := [];
  }

  /** n times hand.remove(tile): fails as soon as no copy is left. */
  method RemoveRepeatedly(hand: seq<Tile>, tile: Tile, n: nat) returns (rest: Option<seq<Tile>>)
    ensures rest == if Copies(hand, tile) >= n then Some(RemoveTimes(hand, tile, n)) else None
  {
    hide RemoveFirst;
    var left := hand;
    for k := 0 to n
      invariant RemoveTimes(left, tile, n - k) == RemoveTimes(hand, tile, n)
      invariant Copies(left, tile) + k == Copies(hand, tile)
    {
      if tile !in left {
        assert Copies(left, tile) == 0;
        return None;
      }
      left := RemoveFirst(left, tile);
    }
    rest := Some(left);
  }

  // --- the state object ---

  /** Moving the flower at the head of the wall is the first step of a draw. */
  lemma FlowerStep(s: State, seat: SeatIx)
    requires s.wall != [] && IsFlower(s.wall[0])
    ensures InternalDraw(WithSeat(s, seat, s.seats[seat].(flowers := s.seats[seat].flowers + [s.wall[0]]))
                         .(wall := s.wall[1..], drawn := s.drawn + 1), seat)
            == InternalDraw(s, seat)
  {
    hide Sort;
    var d := s.seats[seat];
    var w := s.wall;
    var k := FirstLive(w[1..]);
    assert FirstLive(w) == 1 + k;
    assert d.flowers + [w[0]] + w[1..] == d.flowers + w;
    assert d.flowers + [w[0]] + w[1..][..k] == d.flowers + w[..k + 1];
    if k < |w| - 1 {
      assert w[1..][k + 1..] == w[k + 2..] && w[1..][k] == w[k + 1];
    }
  }

  class GameState {
    var roundWind: Tile
    var dealer: SeatIx
    var turn: nat
    var wall: seq<Tile>
    var drawn: nat
    var seats: Seats
    var lastDiscard: Option<LastDiscard>
    var lastDrawn: Option<LastDrawn>
    var claims: seq<Claim>
    var phase: Phase
    var actor: SeatIx
    var terminal: Option<Terminal>

    function Value(): State
      reads this
    {
      State(roundWind, dealer, turn, wall, drawn, seats, lastDiscard, lastDrawn, claims, phase, actor, terminal)
    }

    constructor (s: State)
      ensures Value() == s
    {
      roundWind, dealer, turn, wall, drawn, seats := s.roundWind, s.dealer, s.turn, s.wall, s.drawn, s.seats;
      lastDiscard, lastDrawn, claims := s.lastDiscard, s.lastDrawn, s.claims;
      phase, actor, terminal := s.phase, s.actor, s.terminal;
    }

    /** clone_state. */
    method Clone() returns (c: GameState)
      ensures fresh(c) && c.Value() == Value()
    {
      c := new GameState(Value());
    }

    /** make_exhaustive_draw_terminal. */
    method EndExhausted()
      modifies this
      ensures Value() == ExhaustiveDraw(old(Value()))
    {
      phase := TerminalPhase;
      lastDrawn := None;
      terminal := Some(Terminal(DrawnHand, None, None, None, None, [], 0, [0, 0, 0, 0]));
    }

    /** A flower from the wall is set aside. */
    method SetAside(seat: SeatIx)
      requires wall != [] && IsFlower(wall[0])
      modifies this`seats, this`wall, this`drawn
      ensures InternalDraw(Value(), seat) == InternalDraw(old(Value()), seat) && |wall| < old(|wall|)
    {
      hide InternalDraw;
      FlowerStep(Value(), seat);
      var tile := wall[0];
      wall := wall[1..];
      drawn := drawn + 1;
      seats := seats[seat := seats[seat].(flowers := seats[seat].flowers + [tile])];
    }

    /** A playable tile from the wall joins the hand. */
    method TakePlayable(seat: SeatIx)
      requires wall != [] && !IsFlower(wall[0])
      modifies this
      ensures Value() == InternalDraw(old(Value()), seat)
    {
      hide InternalDraw;
      hide Sort;
      DrawPlayable(Value(), seat);
      var tile := wall[0];
      wall := wall[1..];
      drawn := drawn + 1;
      seats := seats[seat := seats[seat].(concealed := Sort(seats[seat].concealed + [tile]))];
      phase := DiscardPhase;
      actor := seat;
      lastDrawn := Some(LastDrawn(seat, tile));
    }

    /** internal_draw: tiles are popped until one is playable. */
    method Draw(seat: SeatIx)
      modifies this
      ensures Value() == InternalDraw(old(Value()), seat)
    {
      hide InternalDraw;
      ghost var goal := InternalDraw(Value(), seat);
      while wall != []
        invariant InternalDraw(Value(), seat) == goal
        decreases |wall|
      {
        if !IsFlower(wall[0]) {
          TakePlayable(seat);
          return;
        }
        SetAside(seat);
      }
      DrawNothing(Value(), seat);
      EndExhausted();
    }

    /** advance_to_next_seat_discard. */
    method AdvanceToNextSeat()
      modifies this
      ensures Value() == Advance(old(Value()))
    {
      var next := if lastDiscard.Some? then Next(lastDiscard.value.seat) else Next(actor);
      lastDiscard := None;
      claims := [];
      Draw(next);
    }

    /** open_claim_window_or_advance. */
    method OpenClaimWindowOrAdvance(r: Rules)
      modifies this
      ensures Value() == OpenWindowOrAdvance(r, old(Value()))
    {
      if lastDiscard.None? {
        return;
      }
      hide ClaimActions;
      hide Advance;
      var open := CollectClaims(r, Value());
      if open != [] {
        claims := open;
        phase := ClaimWindow;
        actor := Next(lastDiscard.value.seat);
        return;
      }
      AdvanceToNextSeat();
    }

    method RemoveFromHand(seat: SeatIx, tile: Tile, n: nat) returns (ok: bool)
      modifies this`seats
      ensures ok <==> Copies(old(seats[seat].concealed), tile) >= n
      ensures ok ==> seats == old(seats)[seat := old(seats[seat]).(concealed :=
                                RemoveTimes(old(seats[seat].concealed), tile, n))]
    {
      hide RemoveTimes;
      var rest := RemoveRepeatedly(seats[seat].concealed, tile, n);
      if rest.None? {
        return false;
      }
      seats := seats[seat := seats[seat].(concealed := rest.value)];
      ok := true;
    }

    method AddMeld(seat: SeatIx, m: Meld)
      modifies this`seats
      ensures seats == old(seats)[seat := old(seats[seat]).(melds := old(seats[seat].melds) + [m])]
    {
      seats := seats[seat := seats[seat].(melds := seats[seat].melds + [m])];
    }

    /** _consume_discard. */
    method PopDiscard(discarder: SeatIx) returns (ok: bool)
      modifies this
      ensures ok == ConsumeDiscard(old(Value()), discarder).Ok?
      ensures ok ==> Value() == ConsumeDiscard(old(Value()), discarder).value.(lastDrawn := None)
    {
      var d := seats[discarder];
      if d.discards == [] {
        return false;
      }
      seats := seats[discarder := d.(discards := d.discards[..|d.discards| - 1])];
      lastDiscard := None;
      lastDrawn := None;
      claims := [];
      ok := true;
    }

    /** _hand_to_claimer. */
    method PassTurnTo(claimer: SeatIx)
      modifies this
      ensures Value() == HandToClaimer(old(Value()), claimer).(lastDrawn := old(lastDrawn))
    {
      phase := DiscardPhase;
      actor := claimer;
      turn := turn + 1;
    }
  }

  lemma DrawPlayable(s: State, seat: SeatIx)
    requires s.wall != [] && !IsFlower(s.wall[0])
    ensures var d := s.seats[seat];
            InternalDraw(s, seat) ==
            WithSeat(s, seat, d.(concealed := Sort(d.concealed + [s.wall[0]])))
            .(wall := s.wall[1..], drawn := s.drawn + 1,
              phase := DiscardPhase, actor := seat, lastDrawn := Some(LastDrawn(seat, s.wall[0])))
  {
    hide Sort;
    assert FirstLive(s.wall) == 0;
    assert s.seats[seat].flowers + s.wall[..0] == s.seats[seat].flowers;
  }

  lemma DrawNothing(s: State, seat: SeatIx)
    requires s.wall == []
    ensures InternalDraw(s, seat) == ExhaustiveDraw(s)
  {
    hide Sort;
    assert s.seats[seat].flowers + s.wall == s.seats[seat].flowers;
    assert WithSeat(s, seat, s.seats[seat]) == s;
  }

  /** What the first n seats claim. */
  function ClaimsBefore(r: Rules, s: State, n: nat): seq<Claim>
    requires n <= 4
  {
    if n == 0 then [] else ClaimsBefore(r, s, n - 1) + SeatClaims(n - 1, ClaimActions(r, s, n - 1))
  }

  lemma AllClaims(r: Rules, s: State)
    ensures ClaimsBefore(r, s, 4) == OpenClaims(r, s)
  {
    hide ClaimActions;
    hide SeatClaims;
    assert ClaimsBefore(r, s, 1) == SeatClaims(0, ClaimActions(r, s, 0));
    assert ClaimsBefore(r, s, 2) == SeatClaims(0, ClaimActions(r, s, 0)) + SeatClaims(1, ClaimActions(r, s, 1));
  }

  lemma SeatClaimsAt(seat: SeatIx, acts: seq<Action>, i: nat)
    requires i < |acts|
    ensures SeatClaims(seat, acts[i..]) ==
            (if acts[i].Pass? || acts[i].Play? then [] else [ClaimOf(seat, acts[i])]) + SeatClaims(seat, acts[i + 1..])
  {
    assert acts[i..][1..] == acts[i + 1..];
  }

  method ListSeatClaims(seat: SeatIx, acts: seq<Action>) returns (claims: seq<Claim>)
    ensures claims == SeatClaims(seat, acts)
  {
    claims := [];
    assert acts[0..] == acts && SeatClaims(seat, []) == [];
    hide SeatClaims;
    Appended(SeatClaims(seat, acts), [], []);
    for i := 0 to |acts|
      invariant claims + SeatClaims(seat, acts[i..]) == SeatClaims(seat, acts)
    {
      SeatClaimsAt(seat, acts, i);
      ghost var step: seq<Claim> := if acts[i].Pass? || acts[i].Play? then [] else [ClaimOf(seat, acts[i])];
      Appended(claims, step, SeatClaims(seat, acts[i + 1..]));
      if !acts[i].Pass? && !acts[i].Play? {
        claims := claims + [ClaimOf(seat, acts[i])];
      }
    }
    Appended(claims, [], []);
  }

  /** The loop of open_claim_window_or_advance. */
  method CollectClaims(r: Rules, s: State) returns (claims: seq<Claim>)
    requires s.lastDiscard.Some?
    ensures claims == OpenClaims(r, s)
  {
    hide OpenClaims;
    claims := [];
    for seat := 0 to 4
      invariant claims == ClaimsBefore(r, s, seat)
    {
      if seat == s.lastDiscard.value.seat {
        DiscarderClaimsNothing(r, s, seat);
        continue;
      }
      hide ClaimActions;
      hide SeatClaims;
      var acts := ListClaimActions(r, s, seat);
      var more := ListSeatClaims(seat, acts);
      claims := claims + more;
    }
    AllClaims(r, s);
  }

  lemma DiscarderClaimsNothing(r: Rules, s: State, seat: SeatIx)
    requires s.lastDiscard.Some? && seat == s.lastDiscard.value.seat
    ensures SeatClaims(seat, ClaimActions(r, s, seat)) == []
  {
  }

  // --- the actions: each clones the state and changes the clone ---

  /** The object holds the state the function gives, or the same error is raised. */
  ghost predicate Carries(res: Result<GameState>, spec: Result<State>)
    reads if res.Ok? then {res.value} else {}
  {
    match res
    case Ok(o) => spec == Ok(o.Value())
    case Err(e) => spec == Err(e)
  }

  /** apply_play. */
  method Discard(r: Rules, state: GameState, seat: SeatIx, tile: Tile) returns (res: Result<GameState>)
    ensures Carries(res, ApplyPlay(r, state.Value(), seat, tile)) && unchanged(state)
    ensures res.Ok? ==> fresh(res.value)
  {
    hide OpenWindowOrAdvance;
    hide RemoveFirst;
    var copy := state.Clone();
    var d := copy.seats[seat];
    if tile !in d.concealed {
      return Err(ValueMissing);
    }
    copy.seats := copy.seats[seat := d.(concealed := RemoveFirst(d.concealed, tile))];
    copy.seats := copy.seats[seat := copy.seats[seat].(discards := copy.seats[seat].discards + [tile])];
    assert copy.seats == state.seats[seat := d.(concealed := RemoveFirst(d.concealed, tile), discards := d.discards + [tile])];
    copy.turn := copy.turn + 1;
    copy.lastDiscard := Some(LastDiscard(tile, seat, copy.turn));
    copy.OpenClaimWindowOrAdvance(r);
    res := Ok(copy);
  }

  lemma DropFirst(claims: seq<Claim>, i: nat, seat: SeatIx)
    requires i < |claims|
    ensures DropClaims(claims[i..], seat) ==
            (if claims[i].seat == seat then [] else [claims[i]]) + DropClaims(claims[i + 1..], seat)
  {
    assert claims[i..][1..] == claims[i + 1..];
  }

  /** The comprehension of apply_pass. */
  method KeepOthers(claims: seq<Claim>, seat: SeatIx) returns (rest: seq<Claim>)
    ensures rest == DropClaims(claims, seat)
  {
    rest := [];
    assert claims[0..] == claims && DropClaims([], seat) == [];
    hide DropClaims;
    Appended(DropClaims(claims, seat), [], []);
    for i := 0 to |claims|
      invariant rest + DropClaims(claims[i..], seat) == DropClaims(claims, seat)
    {
      DropFirst(claims, i, seat);
      ghost var step: seq<Claim> := if claims[i].seat == seat then [] else [claims[i]];
      Appended(rest, step, DropClaims(claims[i + 1..], seat));
      if claims[i].seat != seat {
        rest := rest + [claims[i]];
      }
    }
    Appended(rest, [], []);
  }

  /** apply_pass. */
  method DeclineClaim(state: GameState, seat: SeatIx) returns (copy: GameState)
    ensures fresh(copy) && copy.Value() == ApplyPass(state.Value(), seat) && unchanged(state)
  {
    hide Advance;
    copy := state.Clone();
    copy.claims := KeepOthers(copy.claims, seat);
    if copy.claims == [] {
      copy.AdvanceToNextSeat();
    }
  }

  /** apply_peng. */
  method ClaimPeng(state: GameState, seat: SeatIx, tile: Tile) returns (res: Result<GameState>)
    ensures Carries(res, ApplyPeng(state.Value(), seat, tile)) && unchanged(state)
    ensures res.Ok? ==> fresh(res.value)
  {
    hide RemoveTimes;
    var copy := state.Clone();
    if copy.lastDiscard.None? {
      return Err(AssertionFailed);
    }
    var discarder := copy.lastDiscard.value.seat;
    var ok := copy.RemoveFromHand(seat, tile, 2);
    if !ok {
      return Err(ValueMissing);
    }
    copy.AddMeld(seat, Meld(PengMeld, [tile, tile, tile], Some(tile), discarder));
    assert copy.seats == state.seats[seat := state.seats[seat].(
        concealed := RemoveTimes(state.seats[seat].concealed, tile, 2),
        melds := state.seats[seat].melds + [Meld(PengMeld, [tile, tile, tile], Some(tile), discarder)])];
    ok := copy.PopDiscard(discarder);
    if !ok {
      return Err(PopFromEmpty);
    }
    copy.PassTurnTo(seat);
    res := Ok(copy);
  }

  /** The loop of apply_chi: every tile of the run but the called one leaves the hand. */
  method TakeSupport(hand: seq<Tile>, tiles: seq<Tile>, called: Tile) returns (rest: Option<seq<Tile>>)
    ensures rest == RemoveSupport(hand, tiles, called)
  {
    hide RemoveFirst;
    var left := hand;
    for i := 0 to |tiles|
      invariant RemoveSupport(left, tiles[i..], called) == RemoveSupport(hand, tiles, called)
    {
      assert tiles[i..][0] == tiles[i] && tiles[i..][1..] == tiles[i + 1..];
      if tiles[i] == called {
        continue;
      }
      if tiles[i] !in left {
        return None;
      }
      left := RemoveFirst(left, tiles[i]);
    }
    rest := Some(left);
  }

  /** apply_chi. */
  method ClaimRun(state: GameState, seat: SeatIx, tiles: seq<Tile>) returns (res: Result<GameState>)
    ensures Carries(res, ApplyChi(state.Value(), seat, tiles)) && unchanged(state)
    ensures res.Ok? ==> fresh(res.value)
  {
    hide RemoveSupport;
    var copy := state.Clone();
    if copy.lastDiscard.None? {
      return Err(AssertionFailed);
    }
    var last := copy.lastDiscard.value;
    var rest := TakeSupport(copy.seats[seat].concealed, tiles, last.tile);
    if rest.None? {
      return Err(ValueMissing);
    }
    copy.seats := copy.seats[seat := copy.seats[seat].(concealed := rest.value)];
    copy.AddMeld(seat, Meld(ChiMeld, tiles, Some(last.tile), last.seat));
    assert copy.seats == state.seats[seat := state.seats[seat].(
        concealed := rest.value,
        melds := state.seats[seat].melds + [Meld(ChiMeld, tiles, Some(last.tile), last.seat)])];
    var ok := copy.PopDiscard(last.seat);
    if !ok {
      return Err(PopFromEmpty);
    }
    copy.PassTurnTo(seat);
    res := Ok(copy);
  }

  /** _gang_exposed. */
  method ExposedKong(state: GameState, seat: SeatIx, tile: Tile) returns (res: Result<GameState>)
    ensures Carries(res, ApplyGangExposed(state.Value(), seat, tile)) && unchanged(state)
    ensures res.Ok? ==> fresh(res.value)
  {
    hide RemoveTimes;
    hide InternalDraw;
    var copy := state.Clone();
    if copy.lastDiscard.None? {
      return Err(AssertionFailed);
    }
    var discarder := copy.lastDiscard.value.seat;
    var ok := copy.RemoveFromHand(seat, tile, 3);
    if !ok {
      return Err(ValueMissing);
    }
    copy.AddMeld(seat, Meld(GangExposed, [tile, tile, tile, tile], Some(tile), discarder));
    assert copy.seats == state.seats[seat := state.seats[seat].(
        concealed := RemoveTimes(state.seats[seat].concealed, tile, 3),
        melds := state.seats[seat].melds + [Meld(GangExposed, [tile, tile, tile, tile], Some(tile), discarder)])];
    var g := copy.seats[discarder];
    if g.discards == [] {
      return Err(PopFromEmpty);
    }
    copy.seats := copy.seats[discarder := g.(discards := g.discards[..|g.discards| - 1])];
    copy.lastDiscard := None;
    copy.claims := [];
    copy.turn := copy.turn + 1;
    copy.Draw(seat);
    res := Ok(copy);
  }

  /** _gang_concealed. */
  method ConcealedKong(state: GameState, seat: SeatIx, tile: Tile) returns (res: Result<GameState>)
    ensures Carries(res, ApplyGangConcealed(state.Value(), seat, tile)) && unchanged(state)
    ensures res.Ok? ==> fresh(res.value)
  {
    hide RemoveTimes;
    hide InternalDraw;
    var copy := state.Clone();
    var ok := copy.RemoveFromHand(seat, tile, 4);
    if !ok {
      return Err(ValueMissing);
    }
    copy.AddMeld(seat, Meld(GangConcealed, [tile, tile, tile, tile], None, seat));
    assert copy.seats == state.seats[seat := state.seats[seat].(
        concealed := RemoveTimes(state.seats[seat].concealed, tile, 4),
        melds := state.seats[seat].melds + [Meld(GangConcealed, [tile, tile, tile, tile], None, seat)])];
    copy.turn := copy.turn + 1;
    copy.Draw(seat);
    res := Ok(copy);
  }

  /** The loop of _gang_added: the first PENG meld of the tile is rewritten. */
  method PromoteFirst(melds: seq<Meld>, tile: Tile) returns (promoted: Option<seq<Meld>>)
    ensures promoted == if HasPeng(melds, tile) then Some(Promote(melds, tile)) else None
  {
    for i := 0 to |melds|
      invariant forall j :: 0 <= j < i ==> !IsPengOf(melds[j], tile)
    {
      if IsPengOf(melds[i], tile) {
        assert HasPeng(melds, tile);
        assert FirstPeng(melds, tile) == i;
        return Some(melds[i := melds[i].(kind := GangAdded, tiles := [tile, tile, tile, tile])]);
      }
    }
    promoted := None;
  }

  /** _gang_added. */
  method AddedKong(state: GameState, seat: SeatIx, tile: Tile) returns (res: Result<GameState>)
    ensures Carries(res, ApplyGangAdded(state.Value(), seat, tile)) && unchanged(state)
    ensures res.Ok? ==> fresh(res.value)
  {
    hide RemoveFirst;
    hide Promote;
    hide HasPeng;
    hide InternalDraw;
    var copy := state.Clone();
    var d := copy.seats[seat];
    if tile !in d.concealed {
      return Err(ValueMissing);
    }
    copy.seats := copy.seats[seat := d.(concealed := RemoveFirst(d.concealed, tile))];
    var promoted := PromoteFirst(d.melds, tile);
    if promoted.None? {
      return Err(AssertionFailed);
    }
    copy.seats := copy.seats[seat := copy.seats[seat].(melds := promoted.value)];
    assert copy.seats == state.seats[seat := d.(concealed := RemoveFirst(d.concealed, tile), melds := promoted.value)];
    copy.turn := copy.turn + 1;
    copy.Draw(seat);
    res := Ok(copy);
  }

  method SettleScores(state: GameState, delta: seq<int>)
    requires |delta| == 4
    modifies state`seats
    ensures state.seats == AddScores(old(state.seats), delta)
  {
    ghost var before := state.seats;
    for i := 0 to 4
      invariant forall j :: 0 <= j < 4 ==>
                  state.seats[j] == if j < i then before[j].(score := before[j].score + delta[j]) else before[j]
    {
      state.seats := state.seats[i := state.seats[i].(score := state.seats[i].score + delta[i])];
    }
    assert state.seats == AddScores(before, delta);
  }

  /** The tile that wins and who pays for it, as apply_hu sets them up. */
  function WinQuery(s: State, seat: SeatIx): Result<(FanQuery, Option<SeatIx>)> {
    var flowers := |s.seats[seat].flowers|;
    if s.phase == ClaimWindow then
      if s.lastDiscard.None? then Err(AssertionFailed)
      else Ok((DiscardQuery(s, seat, s.lastDiscard.value.tile, flowers), Some(s.lastDiscard.value.seat)))
    else if s.lastDrawn.None? || s.lastDrawn.value.seat != seat then Err(AssertionFailed)
    else if s.lastDrawn.value.tile !in s.seats[seat].concealed then Err(ValueMissing)
    else Ok((SelfDrawQuery(s, seat, s.lastDrawn.value.tile, flowers), None))
  }

  lemma WinQueryWins(r: Rules, s: State, seat: SeatIx)
    ensures ApplyHu(r, s, seat) ==
            match WinQuery(s, seat)
            case Ok(p) => Win(r, s, seat, p.0, p.1)
            case Err(e) => Err(e)
  {
    hide Win;
  }

  /** apply_hu. */
  method DeclareWin(r: Rules, state: GameState, seat: SeatIx) returns (res: Result<GameState>)
    ensures Carries(res, ApplyHu(r, state.Value(), seat)) && unchanged(state)
    ensures res.Ok? ==> fresh(res.value)
  {
    hide ScoreDelta;
    hide FanTotal;
    hide RemoveFirst;
    hide AddScores;
    hide ApplyHu;
    hide WinQuery;
    WinQueryWins(r, state.Value(), seat);
    var copy := state.Clone();
    var chosen := WinQuery(copy.Value(), seat);
    if chosen.Err? {
      return Err(chosen.error);
    }
    var (query, dealIn) := chosen.value;
    var fan := r.fan(query);
    var total := FanTotal(fan);
    var delta := ComputeScoreDelta(seat, total, query.winType, dealIn, r.conversion);
    if delta.Err? {
      return Err(delta.error);
    }
    SettleScores(copy, delta.value);
    copy.terminal := Some(Terminal(WonHand, Some(seat), Some(query.winTile), Some(query.winType), dealIn,
                                   fan, total, delta.value));
    copy.phase := TerminalPhase;
    copy.lastDiscard := None;
    copy.lastDrawn := None;
    copy.claims := [];
    res := Ok(copy);
  }

  /** apply_action: the input object is never changed. */
  method Act(r: Rules, state: GameState, seat: SeatIx, a: Action) returns (res: Result<GameState>)
    ensures Carries(res, ApplyAction(r, state.Value(), seat, a)) && unchanged(state)
    ensures res.Ok? ==> fresh(res.value)
  {
    hide Legal;
    hide LegalActions;
    var legal := ListLegalActions(r, state.Value(), seat);
    LegalActionsMembers(r, state.Value(), seat, a);
    if a !in legal {
      return Err(IllegalAction);
    }
    match a
    case Play(t) => res := Discard(r, state, seat, t);
    case Pass =>
      var copy := DeclineClaim(state, seat);
      res := Ok(copy);
    case Peng(t) => res := ClaimPeng(state, seat, t);
    case Chi(tiles) => res := ClaimRun(state, seat, tiles);
    case Gang(t, Exposed) => res := ExposedKong(state, seat, t);
    case Gang(t, Concealed) => res := ConcealedKong(state, seat, t);
    case Gang(t, Added) => res := AddedKong(state, seat, t);
    case Hu => res := DeclareWin(r, state, seat);
  }
}
