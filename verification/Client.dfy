/** The browser's reducer (web/static/apply_event.js): from the view a client holds
    and the next projected event, the view it shows next. It never sees the state. */
module Client {
  import opened Lists
  import opened Tiles
  import opened GameTypes
  import opened Records
  import opened Views

  function Max0(n: int): int { if n < 0 then 0 else n }

  // --- concealed tiles ---

  /** removeNFromConcealed; without a tile an own hand stays as it is. */
  function RemoveFromHand(h: HandView, t: Option<Tile>, n: nat): HandView {
    match h
    case Own(tiles) => if t.Some? then Own(RemoveTimes(tiles, t.value, n)) else h
    case Count(c) => Count(Max0(c - n))
  }

  /** addToConcealed, followed by the re-sort of an own hand. */
  function AddToHand(h: HandView, t: Option<Tile>): HandView {
    match h
    case Own(tiles) => if t.Some? then Own(Sort(tiles + [t.value])) else h
    case Count(c) => Count(c + 1)
  }

  /** The loop of removeChiSupportTiles: every tile of the run but the first
      occurrence of the called one. */
  function DropSupport(tiles: seq<Tile>, run: seq<Tile>, called: Tile, calledRemoved: bool): seq<Tile>
    decreases |run|
  {
    if run == [] then tiles
    else if !calledRemoved && run[0] == called then DropSupport(tiles, run[1..], called, true)
    else DropSupport(RemoveFirst(tiles, run[0]), run[1..], called, calledRemoved)
  }

  function RemoveChiSupport(h: HandView, run: seq<Tile>, called: Tile): HandView {
    match h
    case Own(tiles) => Own(DropSupport(tiles, run, called, false))
    case Count(c) => Count(Max0(c - 2))
  }

  // --- handlers ---

  function SetSeat(v: View, i: SeatIx, s: SeatView): View { v.(seats := v.seats[i := s]) }

  /** Every handler takes over the event's turn index and phase. */
  function Stamp(v: View, turn: nat, phase: Phase): View { v.(turn := turn, phase := phase) }

  /** applyDraw. */
  function ApplyDraw(v: View, turn: nat, phase: Phase, seat: SeatIx, drawn: Option<Tile>, extra: seq<Tile>): View {
    var s := v.seats[seat];
    SetSeat(v, seat, s.(hand := AddToHand(s.hand, drawn), flowers := s.flowers + extra))
    .(lastDrawn := Some(DrawnView(seat, drawn)),
      wallDrawn := v.wallDrawn + 1 + |extra|,
      wallRemaining := Max0(Max0(v.wallRemaining - 1) - |extra|),
      turn := turn, phase := phase, actor := seat)
  }

  /** applyDiscard. */
  function ApplyDiscard(v: View, turn: nat, phase: Phase, seat: SeatIx, t: Tile): View {
    var s := v.seats[seat];
    SetSeat(v, seat, s.(hand := RemoveFromHand(s.hand, Some(t), 1), discards := s.discards + [t]))
    .(lastDiscard := Some(LastDiscard(t, seat, turn)), lastDrawn := None, turn := turn, phase := phase)
  }

  predicate IsShownPeng(m: MeldView, t: Tile) {
    m.Shown? && m.kind == PengMeld && m.tiles != [] && m.tiles[0] == t
  }

  /** findIndex of the PENG that a fourth tile upgrades. */
  function FindShownPeng(melds: seq<MeldView>, t: Tile): Option<nat> {
    if melds == [] then None
    else if IsShownPeng(melds[0], t) then Some(0)
    else
      var k := FindShownPeng(melds[1..], t);
      if k.Some? then Some(k.value + 1) else None
  }

  function Upgrade(melds: seq<MeldView>, t: Tile): seq<MeldView> {
    var k := FindShownPeng(melds, t);
    if k.Some? && k.value < |melds|
    then melds[k.value := Shown(GangAdded, [t, t, t, t], Some(t), melds[k.value].from)]
    else melds
  }

  /** applySelfGang: a kong declared on the seat's own turn. */
  function ApplySelfGang(v: View, seat: SeatIx, kind: GangKind, t: Option<Tile>): View {
    var s := v.seats[seat];
    if kind == Concealed then
      var meld := if s.hand.Own? && t.Some? then Shown(GangConcealed, [t.value, t.value, t.value, t.value], None, seat)
                  else Hidden(seat);
      SetSeat(v, seat, s.(hand := RemoveFromHand(s.hand, t, 4), melds := s.melds + [meld])).(actor := seat)
    else if kind == Added && t.None? then v
    else if kind == Added then
      SetSeat(v, seat, s.(hand := RemoveFromHand(s.hand, t, 1), melds := Upgrade(s.melds, t.value))).(actor := seat)
    else v.(actor := seat)
  }

  /** pullCalledTileOffDiscarder. */
  function PullDiscard(v: View, t: Option<Tile>, from: Option<SeatIx>): View {
    if t.None? || from.None? then v
    else SetSeat(v, from.value, v.seats[from.value].(discards := RemoveLast(v.seats[from.value].discards, t.value)))
  }

  /** applyClaimResolution, for a claim that was won. */
  function ApplyClaimed(v: View, winner: SeatIx, claim: DecisionKind, stamped: Option<Tile>, chi: Option<seq<Tile>>): View {
    var called := if stamped.Some? then stamped else if v.lastDiscard.Some? then Some(v.lastDiscard.value.tile) else None;
    var from := if v.lastDiscard.Some? then Some(v.lastDiscard.value.seat) else None;
    var fromSeat: int := if from.Some? then from.value else -1;
    var s := v.seats[winner];
    if claim == DecidePeng || claim == DecideGang then
      if called.None? then v
      else
        var t := called.value;
        var n := if claim == DecidePeng then 2 else 3;
        var u := PullDiscard(SetSeat(v, winner, s.(hand := RemoveFromHand(s.hand, called, n))), called, from);
        var meld := if claim == DecidePeng then Shown(PengMeld, [t, t, t], called, fromSeat)
                    else Shown(GangExposed, [t, t, t, t], called, fromSeat);
        SetSeat(u, winner, u.seats[winner].(melds := u.seats[winner].melds + [meld]))
        .(lastDiscard := None, actor := winner)
    else if claim == DecideChi then
      var run := if chi.Some? then chi.value else [];
      var hand := if called.Some? then RemoveChiSupport(s.hand, run, called.value) else s.hand;
      var u := PullDiscard(SetSeat(v, winner, s.(hand := hand)), called, from);
      SetSeat(u, winner, u.seats[winner].(melds := u.seats[winner].melds + [Shown(ChiMeld, run, called, fromSeat)]))
      .(lastDiscard := None, actor := winner)
    else v
  }

  function ScoredViews(seats: FourViews, delta: seq<int>): FourViews {
    if |delta| == 4 then seq(4, i requires 0 <= i < 4 => seats[i].(score := seats[i].score + delta[i])) else seats
  }

  /** applyHandEnd. */
  function ApplyHandEnd(v: View, turn: nat, winners: seq<SeatIx>, kind: TerminalKind, winTile: Option<Tile>,
                        winType: Option<WinType>, dealIn: Option<SeatIx>, fan: seq<FanEntry>, fanTotal: int,
                        delta: seq<int>, finalHands: seq<FinalHand>): View {
    var winner := if winners == [] then None else Some(winners[0]);
    v.(turn := turn, phase := TerminalPhase,
       terminal := Some(TerminalView(Terminal(kind, winner, winTile, winType, dealIn, fan, fanTotal, delta), finalHands)),
       seats := ScoredViews(v.seats, delta))
  }

  /** applyEvent. Record wrappers are not events a client handles. */
  function ApplyEvent(v: View, e: Event): View {
    match e
    case DrawEvent(turn, phase, seat, drawn, extra) => ApplyDraw(v, turn, phase, seat, drawn, extra)
    case DiscardEvent(turn, phase, seat, t, _) => ApplyDiscard(v, turn, phase, seat, t)
    case WindowEvent(turn, phase, _) => Stamp(v, turn, phase)
    case DecisionEvent(turn, phase, seat, decision, t, gang, _) =>
      if decision == DecideGang && (gang == Some(Concealed) || gang == Some(Added))
      then ApplySelfGang(Stamp(v, turn, phase), seat, gang.value, t)
      else Stamp(v, turn, phase)
    case PassedEvent(turn, phase) => Stamp(v, turn, phase)
    case ClaimedEvent(turn, phase, winner, claim, called, _, chi) =>
      ApplyClaimed(Stamp(v, turn, phase), winner, claim, called, chi)
    case HandEndEvent(turn, _, winners, kind, winTile, winType, dealIn, fan, fanTotal, delta, finalHands) =>
      ApplyHandEnd(v, turn, winners, kind, winTile, winType, dealIn, fan, fanTotal, delta, finalHands)
    case HeaderEvent(_, _) => v
    case FooterEvent(_, _) => v
  }

  /** Folding the events a viewer is sent into the view it holds. */
  function Follow(v: View, events: seq<Event>, viewer: Viewer): View
    decreases |events|
  {
    if events == [] then v
    else Follow(ApplyEvent(v, ProjectEvent(events[0], viewer)), events[1..], viewer)
  }

  // --- announced flowers ---

  /** A draw that announces flowers, which the server's own never do: they join the seat's
      flowers, and the wall ticks once for each of them and once for the tile, down to
      nothing. The tile joins an own hand in order or an opponent's count. */
  lemma AnnouncedDraw(v: View, turn: nat, phase: Phase, seat: SeatIx, drawn: Option<Tile>, extra: seq<Tile>)
    ensures var w := ApplyEvent(v, DrawEvent(turn, phase, seat, drawn, extra));
            && w.seats[seat].flowers == v.seats[seat].flowers + extra
            && w.wallDrawn == v.wallDrawn + |extra| + 1
            && (v.wallRemaining > |extra| ==> w.wallRemaining + w.wallDrawn == v.wallRemaining + v.wallDrawn)
            && (v.wallRemaining <= |extra| ==> w.wallRemaining == 0)
            && w.actor == seat && w.lastDrawn == Some(DrawnView(seat, drawn))
            && (v.seats[seat].hand.Count? ==> w.seats[seat].hand == Count(v.seats[seat].hand.count + 1))
            && (v.seats[seat].hand.Own? && drawn.Some? ==>
                  && w.seats[seat].hand.Own? && Sorted(w.seats[seat].hand.tiles)
                  && multiset(w.seats[seat].hand.tiles) == multiset(v.seats[seat].hand.tiles) + multiset{drawn.value})
            && forall i: SeatIx :: i != seat ==> w.seats[i] == v.seats[i]
  {
    hide Sorted;
  }

  /** A settlement that is no list of four moves no points. */
  lemma OddSettlement(v: View, e: Event)
    requires e.HandEndEvent? && |e.delta| != 4
    ensures ApplyEvent(v, e).seats == v.seats && ApplyEvent(v, e).phase == TerminalPhase
  {
  }
}
