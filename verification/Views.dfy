/** What a seat, or the public, may see of a state and of a record event
    (engine/state.py, project and project_event). */
module Views {
  import opened Lists
  import opened Tiles
  import opened GameTypes
  import opened Records

  /** Whose eyes: a seat, or None for the public. */
  type Viewer = Option<SeatIx>

  /** A meld as it is shown; a hidden meld is someone else's concealed kong. */
  datatype MeldView =
    | Shown(kind: MeldKind, tiles: seq<Tile>, called: Option<Tile>, from: int)
    | Hidden(from: int)

  /** The viewer's own hand is a list, anyone else's a count. */
  datatype HandView = Own(tiles: seq<Tile>) | Count(count: int)

  datatype SeatView = SeatView(
    wind: Tile,
    hand: HandView,
    melds: seq<MeldView>,
    discards: seq<Tile>,
    flowers: seq<Tile>,
    score: int)

  const EMPTY_VIEW := SeatView(EAST, Count(0), [], [], [], 0)

  type FourViews = s: seq<SeatView> | |s| == 4 witness [EMPTY_VIEW, EMPTY_VIEW, EMPTY_VIEW, EMPTY_VIEW]

  datatype DrawnView = DrawnView(seat: SeatIx, tile: Option<Tile>)

  datatype TerminalView = TerminalView(terminal: Terminal, finalHands: seq<FinalHand>)

  datatype View = View(
    roundWind: Tile,
    dealer: SeatIx,
    turn: nat,
    wallRemaining: int,
    wallDrawn: int,
    seats: FourViews,
    lastDiscard: Option<LastDiscard>,
    lastDrawn: Option<DrawnView>,
    claims: seq<Claim>,
    phase: Phase,
    actor: SeatIx,
    terminal: Option<TerminalView>)

  // --- states ---

  /** _mask_concealed_kong_for_opponent. */
  function ShowMeld(m: Meld, own: bool): MeldView {
    if m.kind == GangConcealed && !own then Hidden(m.from) else Shown(m.kind, m.tiles, m.called, m.from)
  }

  function ShowMelds(melds: seq<Meld>, own: bool): (shown: seq<MeldView>)
    ensures |shown| == |melds| && forall k :: 0 <= k < |melds| ==> shown[k] == ShowMeld(melds[k], own)
  {
    seq(|melds|, k requires 0 <= k < |melds| => ShowMeld(melds[k], own))
  }

  function ShowHand(hand: seq<Tile>, own: bool): HandView { if own then Own(hand) else Count(|hand|) }

  function ShowSeat(d: SeatData, own: bool): SeatView {
    SeatView(d.wind, ShowHand(d.concealed, own), ShowMelds(d.melds, own), d.discards, d.flowers, d.score)
  }

  function ClaimsOfSeat(cs: seq<Claim>, seat: SeatIx): seq<Claim> {
    if cs == [] then []
    else (if cs[0].seat == seat then [cs[0]] else []) + ClaimsOfSeat(cs[1..], seat)
  }

  /** project. */
  function Project(s: State, viewer: Viewer): View {
    View(s.roundWind, s.dealer, s.turn, |s.wall|, s.drawn,
         seq(4, i requires 0 <= i < 4 => ShowSeat(s.seats[i], viewer == Some(i))),
         s.lastDiscard,
         if viewer.Some? && s.lastDrawn.Some? then
           Some(DrawnView(s.lastDrawn.value.seat,
                          if s.lastDrawn.value.seat == viewer.value then Some(s.lastDrawn.value.tile) else None))
         else None,
         if viewer.Some? then ClaimsOfSeat(s.claims, viewer.value) else [],
         s.phase, s.actor,
         if s.terminal.Some? then Some(TerminalView(s.terminal.value, FinalHands(s))) else None)
  }

  // --- events ---

  function OpportunitiesOf(os: seq<Opportunity>, viewer: Viewer): seq<Opportunity> {
    if os == [] then []
    else (if viewer == Some(os[0].seat) then [os[0]] else []) + OpportunitiesOf(os[1..], viewer)
  }

  /** project_event: the drawn tile and the tile of a concealed kong belong to
      their seat, claim opportunities to the seat they are offered to. */
  function ProjectEvent(e: Event, viewer: Viewer): Event {
    match e
    case WindowEvent(_, _, os) => e.(opportunities := OpportunitiesOf(os, viewer))
    case DrawEvent(_, _, seat, _, _) => if viewer == Some(seat) then e else e.(drawn := None)
    case DecisionEvent(_, _, seat, decision, _, gang, _) =>
      if decision == DecideGang && gang == Some(Concealed) && viewer != Some(seat) then e.(tileOf := None) else e
    case _ => e
  }
}
