/** What each action does to the state (engine/transition), as functions. The
    methods of module Engine carry out the same steps on an object and are
    verified against these functions. */
module Transition {
  import opened Lists
  import opened Tiles
  import opened GameTypes
  import opened Legality
  import opened Scoring

  // --- drawing from the wall ---

  /** How many flowers stand before the first playable tile of the wall. */
  function FirstLive(wall: seq<Tile>): (k: nat)
    ensures k <= |wall|
    ensures forall i :: 0 <= i < k ==> IsFlower(wall[i])
    ensures k < |wall| ==> !IsFlower(wall[k])
  {
    if wall == [] || !IsFlower(wall[0]) then 0 else 1 + FirstLive(wall[1..])
  }

  /** make_exhaustive_draw_terminal. */
  function ExhaustiveDraw(s: State): State {
    s.(phase := TerminalPhase, lastDrawn := None,
       terminal := Some(Terminal(DrawnHand, None, None, None, None, [], 0, [0, 0, 0, 0])))
  }

  /** internal_draw: flowers go to the seat's flowers until a playable tile comes,
      which joins the hand; a wall of nothing but flowers ends the hand. */
  function InternalDraw(s: State, seat: SeatIx): State {
    var k := FirstLive(s.wall);
    var d := s.seats[seat];
    if k == |s.wall| then
      ExhaustiveDraw(WithSeat(s, seat, d.(flowers := d.flowers + s.wall))
                     .(wall := [], drawn := s.drawn + |s.wall|))
    else
      WithSeat(s, seat, d.(flowers := d.flowers + s.wall[..k], concealed := Sort(d.concealed + [s.wall[k]])))
      .(wall := s.wall[k + 1..], drawn := s.drawn + k + 1,
        phase := DiscardPhase, actor := seat, lastDrawn := Some(LastDrawn(seat, s.wall[k])))
  }

  /** advance_to_next_seat_discard. */
  function Advance(s: State): State {
    var next := Next(if s.lastDiscard.Some? then s.lastDiscard.value.seat else s.actor);
    InternalDraw(s.(lastDiscard := None, claims := []), next)
  }

  // --- claim windows ---

  function ClaimOf(seat: SeatIx, a: Action): Claim
    requires !a.Play? && !a.Pass?
  {
    match a
    case Chi(tiles) => Claim(seat, ClaimChi, tiles)
    case Peng(_) => Claim(seat, ClaimPeng, [])
    case Gang(_, _) => Claim(seat, ClaimGang, [])
    case Hu => Claim(seat, ClaimHu, [])
  }

  /** A seat's claims: one entry per legal action other than PASS. */
  function SeatClaims(seat: SeatIx, acts: seq<Action>): (cs: seq<Claim>)
    ensures forall c :: c in cs ==> c.seat == seat
  {
    if acts == [] then []
    else (if acts[0].Pass? || acts[0].Play? then [] else [ClaimOf(seat, acts[0])]) + SeatClaims(seat, acts[1..])
  }

  /** Every claim on the last discard, in seat order. */
  function OpenClaims(r: Rules, s: State): (cs: seq<Claim>)
    ensures s.lastDiscard.Some? ==> forall c :: c in cs ==> c.seat != s.lastDiscard.value.seat
  {
    SeatClaims(0, ClaimActions(r, s, 0)) + SeatClaims(1, ClaimActions(r, s, 1))
    + SeatClaims(2, ClaimActions(r, s, 2)) + SeatClaims(3, ClaimActions(r, s, 3))
  }

  /** open_claim_window_or_advance. */
  function OpenWindowOrAdvance(r: Rules, s: State): State {
    if s.lastDiscard.None? then s
    else
      var claims := OpenClaims(r, s);
      if claims == [] then Advance(s)
      else s.(claims := claims, phase := ClaimWindow, actor := Next(s.lastDiscard.value.seat))
  }

  // --- the actions ---

  function ApplyPlay(r: Rules, s: State, seat: SeatIx, t: Tile): Result<State> {
    var d := s.seats[seat];
    if t !in d.concealed then Err(ValueMissing)
    else
      var played := WithSeat(s, seat, d.(concealed := RemoveFirst(d.concealed, t), discards := d.discards + [t]));
      Ok(OpenWindowOrAdvance(r, played.(turn := s.turn + 1, lastDiscard := Some(LastDiscard(t, seat, s.turn + 1)))))
  }

  function DropClaims(cs: seq<Claim>, seat: SeatIx): seq<Claim> {
    if cs == [] then []
    else (if cs[0].seat == seat then [] else [cs[0]]) + DropClaims(cs[1..], seat)
  }

  lemma {:induction false} DropClaimsKeepsOthers(cs: seq<Claim>, seat: SeatIx)
    ensures forall c :: c in DropClaims(cs, seat) <==> c in cs && c.seat != seat
  {
    if cs != [] {
      DropClaimsKeepsOthers(cs[1..], seat);
    }
  }

  function ApplyPass(s: State, seat: SeatIx): State {
    var passed := s.(claims := DropClaims(s.claims, seat));
    if passed.claims == [] then Advance(passed) else passed
  }

  /** The claimed tile leaves the discarder's pile; the claim window is over. */
  function ConsumeDiscard(s: State, discarder: SeatIx): Result<State> {
    var d := s.seats[discarder];
    if d.discards == [] then Err(PopFromEmpty)
    else Ok(WithSeat(s, discarder, d.(discards := d.discards[..|d.discards| - 1]))
            .(lastDiscard := None, claims := []))
  }

  /** The claimer, who took no tile from the wall, is on turn. */
  function HandToClaimer(s: State, claimer: SeatIx): State {
    s.(lastDrawn := None, phase := DiscardPhase, actor := claimer, turn := s.turn + 1)
  }

  function ApplyPeng(s: State, seat: SeatIx, t: Tile): Result<State> {
    if s.lastDiscard.None? then Err(AssertionFailed)
    else
      var discarder := s.lastDiscard.value.seat;
      var d := s.seats[seat];
      if Copies(d.concealed, t) < 2 then Err(ValueMissing)
      else
        var melded := WithSeat(s, seat,
          d.(concealed := RemoveTimes(d.concealed, t, 2),
             melds := d.melds + [Meld(PengMeld, [t, t, t], Some(t), discarder)]));
        var consumed :- ConsumeDiscard(melded, discarder);
        Ok(HandToClaimer(consumed, seat))
  }

  /** The tiles of a run that come out of the hand: all but the called one. */
  function RemoveSupport(hand: seq<Tile>, tiles: seq<Tile>, called: Tile): (rest: Option<seq<Tile>>)
    decreases |tiles|
  {
    if tiles == [] then Some(hand)
    else if tiles[0] == called then RemoveSupport(hand, tiles[1..], called)
    else if tiles[0] !in hand then None
    else RemoveSupport(RemoveFirst(hand, tiles[0]), tiles[1..], called)
  }

  function ApplyChi(s: State, seat: SeatIx, tiles: seq<Tile>): Result<State> {
    if s.lastDiscard.None? then Err(AssertionFailed)
    else
      var last := s.lastDiscard.value;
      var d := s.seats[seat];
      var rest := RemoveSupport(d.concealed, tiles, last.tile);
      if rest.None? then Err(ValueMissing)
      else
        var melded := WithSeat(s, seat,
          d.(concealed := rest.value, melds := d.melds + [Meld(ChiMeld, tiles, Some(last.tile), last.seat)]));
        var consumed :- ConsumeDiscard(melded, last.seat);
        Ok(HandToClaimer(consumed, seat))
  }

  function ApplyGangExposed(s: State, seat: SeatIx, t: Tile): Result<State> {
    if s.lastDiscard.None? then Err(AssertionFailed)
    else
      var discarder := s.lastDiscard.value.seat;
      var d := s.seats[seat];
      if Copies(d.concealed, t) < 3 then Err(ValueMissing)
      else
        var melded := WithSeat(s, seat,
          d.(concealed := RemoveTimes(d.concealed, t, 3),
             melds := d.melds + [Meld(GangExposed, [t, t, t, t], Some(t), discarder)]));
        var consumed :- ConsumeDiscard(melded, discarder);
        Ok(InternalDraw(consumed.(turn := s.turn + 1), seat))
  }

  function ApplyGangConcealed(s: State, seat: SeatIx, t: Tile): Result<State> {
    var d := s.seats[seat];
    if Copies(d.concealed, t) < 4 then Err(ValueMissing)
    else
      var melded := WithSeat(s, seat,
        d.(concealed := RemoveTimes(d.concealed, t, 4),
           melds := d.melds + [Meld(GangConcealed, [t, t, t, t], None, seat)]));
      Ok(InternalDraw(melded.(turn := s.turn + 1), seat))
  }

  predicate IsPengOf(m: Meld, t: Tile) { m.kind == PengMeld && m.tiles != [] && m.tiles[0] == t }

  /** The position of the first PENG meld of t. */
  function FirstPeng(melds: seq<Meld>, t: Tile): (k: nat)
    requires HasPeng(melds, t)
    ensures k < |melds| && IsPengOf(melds[k], t)
    ensures forall j :: 0 <= j < k ==> !IsPengOf(melds[j], t)
  {
    if IsPengOf(melds[0], t) then 0
    else
      assert forall j :: 0 < j < |melds| ==> melds[j] == melds[1..][j - 1];
      1 + FirstPeng(melds[1..], t)
  }

  /** The first PENG meld of t becomes a kong; its provenance stays. */
  function Promote(melds: seq<Meld>, t: Tile): (r: seq<Meld>)
    requires HasPeng(melds, t)
  {
    var k := FirstPeng(melds, t);
    melds[k := melds[k].(kind := GangAdded, tiles := [t, t, t, t])]
  }

  function ApplyGangAdded(s: State, seat: SeatIx, t: Tile): Result<State> {
    var d := s.seats[seat];
    if t !in d.concealed then Err(ValueMissing)
    else if !HasPeng(d.melds, t) then Err(AssertionFailed)
    else
      var melded := WithSeat(s, seat,
        d.(concealed := RemoveFirst(d.concealed, t), melds := Promote(d.melds, t)));
      Ok(InternalDraw(melded.(turn := s.turn + 1), seat))
  }

  function FanTotal(fan: seq<FanEntry>): int {
    if fan == [] then 0 else fan[0].value + FanTotal(fan[1..])
  }

  function AddScores(seats: Seats, delta: seq<int>): (r: Seats)
    requires |delta| == 4
  {
    seq(4, i requires 0 <= i < 4 => seats[i].(score := seats[i].score + delta[i]))
  }

  /** The hand is won: scores move, and the terminal record says why. */
  function Win(r: Rules, s: State, seat: SeatIx, query: FanQuery, dealIn: Option<SeatIx>): Result<State> {
    var fan := r.fan(query);
    var total := FanTotal(fan);
    var delta :- ScoreDelta(seat, total, query.winType, dealIn, r.conversion);
    Ok(s.(seats := AddScores(s.seats, delta),
          terminal := Some(Terminal(WonHand, Some(seat), Some(query.winTile), Some(query.winType), dealIn,
                                    fan, total, delta)),
          phase := TerminalPhase, lastDiscard := None, lastDrawn := None, claims := []))
  }

  function ApplyHu(r: Rules, s: State, seat: SeatIx): Result<State> {
    var flowers := |s.seats[seat].flowers|;
    if s.phase == ClaimWindow then
      if s.lastDiscard.None? then Err(AssertionFailed)
      else
        var last := s.lastDiscard.value;
        Win(r, s, seat, DiscardQuery(s, seat, last.tile, flowers), Some(last.seat))
    else if s.lastDrawn.None? || s.lastDrawn.value.seat != seat then Err(AssertionFailed)
    else
      var win := s.lastDrawn.value.tile;
      if win !in s.seats[seat].concealed then Err(ValueMissing)
      else Win(r, s, seat, SelfDrawQuery(s, seat, win, flowers), None)
  }

  /** apply_action: illegal actions are refused, legal ones dispatched. */
  function ApplyAction(r: Rules, s: State, seat: SeatIx, a: Action): Result<State> {
    if !Legal(r, s, seat, a) then Err(IllegalAction)
    else
      match a
      case Play(t) => ApplyPlay(r, s, seat, t)
      case Pass => Ok(ApplyPass(s, seat))
      case Peng(t) => ApplyPeng(s, seat, t)
      case Chi(tiles) => ApplyChi(s, seat, tiles)
      case Gang(t, Exposed) => ApplyGangExposed(s, seat, t)
      case Gang(t, Concealed) => ApplyGangConcealed(s, seat, t)
      case Gang(t, Added) => ApplyGangAdded(s, seat, t)
      case Hu => ApplyHu(r, s, seat)
  }
}
