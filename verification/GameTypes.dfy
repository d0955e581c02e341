/** The shape of a hand in progress: seats, melds, claims, actions and the state. */
module GameTypes {
  import opened Lists
  import opened Tiles
  import Rng

  type SeatIx = i: int | 0 <= i < 4 witness 0

  /** The seat whose turn follows seat i's. */
  function Next(i: SeatIx): SeatIx { (i + 1) % 4 }

  // --- melds and seats ---

  datatype MeldKind = PengMeld | ChiMeld | GangConcealed | GangExposed | GangAdded

  datatype Meld = Meld(kind: MeldKind, tiles: seq<Tile>, called: Option<Tile>, from: SeatIx)

  datatype SeatData = SeatData(
    wind: Tile,
    concealed: seq<Tile>,
    melds: seq<Meld>,
    discards: seq<Tile>,
    flowers: seq<Tile>,
    score: int)

  const EMPTY_SEAT := SeatData(EAST, [], [], [], [], 0)

  type Seats = s: seq<SeatData> | |s| == 4 witness [EMPTY_SEAT, EMPTY_SEAT, EMPTY_SEAT, EMPTY_SEAT]

  // --- actions ---

  datatype GangKind = Exposed | Concealed | Added

  datatype Action =
    | Pass
    | Play(tile: Tile)
    | Peng(tile: Tile)
    | Chi(tiles: seq<Tile>)
    | Gang(tile: Tile, kind: GangKind)
    | Hu

  // --- claims, draws and the end of a hand ---

  datatype LastDiscard = LastDiscard(tile: Tile, seat: SeatIx, turn: nat)

  datatype LastDrawn = LastDrawn(seat: SeatIx, tile: Tile)

  datatype ClaimKind = ClaimHu | ClaimPeng | ClaimGang | ClaimChi

  datatype Claim = Claim(seat: SeatIx, kind: ClaimKind, chiTiles: seq<Tile>)

  datatype WinType = SelfDraw | FromDiscard

  datatype FanEntry = FanEntry(name: string, value: int)

  datatype TerminalKind = WonHand | DrawnHand

  datatype Terminal = Terminal(
    kind: TerminalKind,
    winner: Option<SeatIx>,
    winTile: Option<Tile>,
    winType: Option<WinType>,
    dealIn: Option<SeatIx>,
    fan: seq<FanEntry>,
    fanTotal: int,
    delta: seq<int>)

  datatype Phase = DiscardPhase | ClaimWindow | TerminalPhase

  // --- the state ---

  datatype State = State(
    roundWind: Tile,
    dealer: SeatIx,
    turn: nat,
    wall: seq<Tile>,
    drawn: nat,
    seats: Seats,
    lastDiscard: Option<LastDiscard>,
    lastDrawn: Option<LastDrawn>,
    claims: seq<Claim>,
    phase: Phase,
    actor: SeatIx,
    terminal: Option<Terminal>)

  /** The state with seat i's record replaced. */
  function WithSeat(s: State, i: SeatIx, d: SeatData): State {
    s.(seats := s.seats[i := d])
  }

  // --- the ruleset ---

  /** The arguments of pymj.calculate_fan that vary during a hand. */
  datatype FanQuery = FanQuery(
    hand: seq<Tile>,
    melds: seq<Meld>,
    winTile: Tile,
    winType: WinType,
    seatWind: Tile,
    roundWind: Tile,
    flowers: nat)

  datatype Tier = Tier(maxFan: int, points: int)

  /** The conversion block of a ruleset; Official(8, 8, 8) is the default. */
  datatype Conversion =
    | Official(baseEach: int, baseDealerIn: int, baseOther: int)
    | HouseTable(tiers: seq<Tier>, eachMult: int, dealerInMult: int, otherMult: int)

  /** A resolved ruleset, with the two foreign functions the engine calls: the native
      fan calculator, whose empty result means "not a win above the floor", and
      SHA-256. Both are arbitrary functions of their arguments. */
  datatype Rules = Rules(
    fan: FanQuery -> seq<FanEntry>,
    conversion: Conversion,
    sha: Rng.Hash)

  /** A house table needs at least one tier; tiers[-1] fails otherwise. */
  predicate ValidRules(r: Rules) {
    r.conversion.HouseTable? ==> r.conversion.tiers != []
  }
}
