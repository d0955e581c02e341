/** Which actions a seat may submit (engine/legality). */
module Legality {
  import opened Lists
  import opened Tiles
  import opened GameTypes

  function Copies(hand: seq<Tile>, t: Tile): nat { multiset(hand)[t] }

  // --- wins ---

  /** _self_draw_hu_legal: the hand without the drawn tile plus that tile scores. */
  predicate SelfDrawWins(r: Rules, s: State, seat: SeatIx) {
    var d := s.seats[seat];
    && s.lastDrawn.Some?
    && s.lastDrawn.value.seat == seat
    && |d.concealed| % 3 == 2
    && s.lastDrawn.value.tile in d.concealed
    && r.fan(SelfDrawQuery(s, seat, s.lastDrawn.value.tile, 0)) != []
  }

  function SelfDrawQuery(s: State, seat: SeatIx, win: Tile, flowers: nat): FanQuery {
    var d := s.seats[seat];
    FanQuery(RemoveFirst(d.concealed, win), d.melds, win, SelfDraw, d.wind, s.roundWind, flowers)
  }

  /** _claim_hu_legal: the concealed hand plus the discard scores. */
  predicate DiscardWins(r: Rules, s: State, seat: SeatIx, win: Tile) {
    var d := s.seats[seat];
    && |d.concealed| % 3 == 1
    && r.fan(DiscardQuery(s, seat, win, 0)) != []
  }

  function DiscardQuery(s: State, seat: SeatIx, win: Tile, flowers: nat): FanQuery {
    var d := s.seats[seat];
    FanQuery(d.concealed, d.melds, win, FromDiscard, d.wind, s.roundWind, flowers)
  }

  // --- what is legal, as a condition ---

  /** A run of three tiles of one suit that contains the discard, the other two
      of which are in hand. */
  predicate IsChi(hand: seq<Tile>, discard: Tile, tiles: seq<Tile>) {
    && IsSuited(discard)
    && |tiles| == 3
    && tiles[1] as int == tiles[0] as int + 1
    && tiles[2] as int == tiles[0] as int + 2
    && SectionOf(tiles[0]) == SectionOf(discard) == SectionOf(tiles[2])
    && discard in tiles
    && (forall t :: t in tiles && t != discard ==> t in hand)
  }

  predicate HasPeng(melds: seq<Meld>, t: Tile) {
    exists k :: 0 <= k < |melds| && melds[k].kind == PengMeld && melds[k].tiles != [] && melds[k].tiles[0] == t
  }

  predicate DiscardLegal(r: Rules, s: State, seat: SeatIx, a: Action) {
    var d := s.seats[seat];
    && seat == s.actor
    && match a
       case Play(t) => t in d.concealed
       case Gang(t, Concealed) => s.wall != [] && Copies(d.concealed, t) == 4
       case Gang(t, Added) => s.wall != [] && HasPeng(d.melds, t) && t in d.concealed
       case Hu => SelfDrawWins(r, s, seat)
       case _ => false
  }

  predicate ClaimLegal(r: Rules, s: State, seat: SeatIx, a: Action) {
    && s.lastDiscard.Some?
    && var last := s.lastDiscard.value;
       var hand := s.seats[seat].concealed;
       && seat != last.seat
       && match a
          case Pass => true
          case Peng(t) => t == last.tile && Copies(hand, t) >= 2
          case Gang(t, Exposed) => t == last.tile && s.wall != [] && Copies(hand, t) >= 3
          case Chi(tiles) => seat == Next(last.seat) && IsChi(hand, last.tile, tiles)
          case Hu => DiscardWins(r, s, seat, last.tile)
          case _ => false
  }

  predicate Legal(r: Rules, s: State, seat: SeatIx, a: Action) {
    match s.phase
    case DiscardPhase => DiscardLegal(r, s, seat, a)
    case ClaimWindow => ClaimLegal(r, s, seat, a)
    case TerminalPhase => false
  }

  // --- what is legal, as the list the program builds ---

  /** The distinct tiles of a hand in token order from rank k on: sorted(counts). */
  function DistinctFrom(hand: seq<Tile>, k: nat): (ts: seq<Tile>)
    requires k <= 42
    decreases 42 - k
  {
    if k == 42 then []
    else if TileAtTokenRank(k) in hand then [TileAtTokenRank(k)] + DistinctFrom(hand, k + 1)
    else DistinctFrom(hand, k + 1)
  }

  lemma {:induction false} DistinctFromMembers(hand: seq<Tile>, k: nat, t: Tile)
    requires k <= 42
    ensures t in DistinctFrom(hand, k) <==> t in hand && TokenRank(t) >= k
    decreases 42 - k
  {
    if k < 42 {
      DistinctFromMembers(hand, k + 1, t);
    }
  }

  function Plays(ts: seq<Tile>): (acts: seq<Action>)
    ensures |acts| == |ts| && forall i :: 0 <= i < |ts| ==> acts[i] == Play(ts[i])
  {
    seq(|ts|, i requires 0 <= i < |ts| => Play(ts[i]))
  }

  function ConcealedGangs(hand: seq<Tile>, ts: seq<Tile>): (acts: seq<Action>)
    ensures forall a :: a in acts <==> a.Gang? && a.kind == Concealed && a.tile in ts && Copies(hand, a.tile) == 4
  {
    if ts == [] then []
    else (if Copies(hand, ts[0]) == 4 then [Gang(ts[0], Concealed)] else []) + ConcealedGangs(hand, ts[1..])
  }

  /** The tiles of the PENG melds, as the set comprehension collects them. */
  function PengTiles(melds: seq<Meld>): (ts: seq<Tile>)
    ensures forall t :: t in ts <==> HasPeng(melds, t)
  {
    if melds == [] then []
    else
      var m := melds[|melds| - 1];
      var front := melds[..|melds| - 1];
      if m.kind == PengMeld && m.tiles != [] then
        assert HasPeng(melds, m.tiles[0]) by { assert melds[|melds| - 1] == m; }
        PengTiles(front) + [m.tiles[0]]
      else PengTiles(front)
  }

  function AddedGangs(hand: seq<Tile>, ts: seq<Tile>): (acts: seq<Action>)
    ensures forall a :: a in acts <==> a.Gang? && a.kind == Added && a.tile in ts && a.tile in hand
  {
    if ts == [] then []
    else (if ts[0] in hand then [Gang(ts[0], Added)] else []) + AddedGangs(hand, ts[1..])
  }

  /** discard_actions. */
  function DiscardActions(r: Rules, s: State, seat: SeatIx): (acts: seq<Action>) {
    if seat != s.actor then []
    else
      var d := s.seats[seat];
      var distinct := DistinctFrom(d.concealed, 0);
      Plays(distinct)
      + (if s.wall == [] then []
         else ConcealedGangs(d.concealed, distinct)
              + AddedGangs(d.concealed, DistinctFrom(PengTiles(d.melds), 0)))
      + (if SelfDrawWins(r, s, seat) then [Hu] else [])
  }

  /** The run that starts `offset` ranks from the discard, if it is a legal chi. */
  function ChiAt(hand: seq<Tile>, discard: Tile, offset: int): (acts: seq<Action>)
    requires -2 <= offset <= 0 && IsSuited(discard)
  {
    var rank := Rank(discard) + offset;
    if rank < 1 || rank + 2 > 9 then []
    else
      var run: seq<Tile> := [discard + offset, discard + offset + 1, discard + offset + 2];
      if forall t :: t in run && t != discard ==> t in hand then [Chi(run)] else []
  }

  function ChiActions(hand: seq<Tile>, discard: Tile): (acts: seq<Action>) {
    if !IsSuited(discard) then []
    else ChiAt(hand, discard, -2) + ChiAt(hand, discard, -1) + ChiAt(hand, discard, 0)
  }

  /** claim_actions. */
  function ClaimActions(r: Rules, s: State, seat: SeatIx): (acts: seq<Action>) {
    if s.lastDiscard.None? || seat == s.lastDiscard.value.seat then []
    else
      var last := s.lastDiscard.value;
      var hand := s.seats[seat].concealed;
      [Pass]
      + (if Copies(hand, last.tile) >= 2 then [Peng(last.tile)] else [])
      + (if s.wall != [] && Copies(hand, last.tile) >= 3 then [Gang(last.tile, Exposed)] else [])
      + (if seat == Next(last.seat) then ChiActions(hand, last.tile) else [])
      + (if DiscardWins(r, s, seat, last.tile) then [Hu] else [])
  }

  function LegalActions(r: Rules, s: State, seat: SeatIx): (acts: seq<Action>) {
    match s.phase
    case DiscardPhase => DiscardActions(r, s, seat)
    case ClaimWindow => ClaimActions(r, s, seat)
    case TerminalPhase => []
  }

  // --- the list contains exactly what the condition allows ---

  lemma ChiAtMembers(hand: seq<Tile>, discard: Tile, offset: int, a: Action)
    requires -2 <= offset <= 0 && IsSuited(discard)
    ensures a in ChiAt(hand, discard, offset) <==>
            a.Chi? && IsChi(hand, discard, a.tiles) && a.tiles[0] as int == discard + offset
  {
    if a in ChiAt(hand, discard, offset) {
      assert a.tiles[-offset] == discard;
    }
    if a.Chi? && IsChi(hand, discard, a.tiles) && a.tiles[0] as int == discard + offset {
      assert a.tiles == [a.tiles[0], a.tiles[1], a.tiles[2]];
    }
  }

  /** The discard is the first, the second or the third tile of the run. */
  lemma RunAroundDiscard(hand: seq<Tile>, discard: Tile, tiles: seq<Tile>)
    ensures IsChi(hand, discard, tiles) ==> tiles != [] && -2 <= tiles[0] as int - discard <= 0
  {
  }

  lemma ChiActionsMembers(hand: seq<Tile>, discard: Tile, a: Action)
    ensures a in ChiActions(hand, discard) <==> a.Chi? && IsChi(hand, discard, a.tiles)
  {
    hide ChiAt;
    if IsSuited(discard) {
      ChiAtMembers(hand, discard, -2, a);
      ChiAtMembers(hand, discard, -1, a);
      ChiAtMembers(hand, discard, 0, a);
      if a.Chi? {
        RunAroundDiscard(hand, discard, a.tiles);
      }
      hide IsChi;
    }
  }

  lemma ClaimActionsMembers(r: Rules, s: State, seat: SeatIx, a: Action)
    ensures a in ClaimActions(r, s, seat) <==> ClaimLegal(r, s, seat, a)
  {
    if s.lastDiscard.Some? {
      ChiActionsMembers(s.seats[seat].concealed, s.lastDiscard.value.tile, a);
    }
  }

  lemma DiscardActionsMembers(r: Rules, s: State, seat: SeatIx, a: Action)
    ensures a in DiscardActions(r, s, seat) <==> DiscardLegal(r, s, seat, a)
  {
    hide SelfDrawWins;
    hide TileAtTokenRank;
    var d := s.seats[seat];
    var distinct := DistinctFrom(d.concealed, 0);
    var pengs := DistinctFrom(PengTiles(d.melds), 0);
    if a.Play? || a.Gang? {
      DistinctFromMembers(d.concealed, 0, a.tile);
      DistinctFromMembers(PengTiles(d.melds), 0, a.tile);
      assert Copies(d.concealed, a.tile) == 4 ==> a.tile in d.concealed;
      assert a.Play? ==> (a in Plays(distinct) <==> a.tile in distinct) by {
        if a.tile in distinct {
          var i :| 0 <= i < |distinct| && distinct[i] == a.tile;
          assert Plays(distinct)[i] == Play(distinct[i]);
        }
      }
    }
  }

  /** legal_actions lists an action exactly when the rules allow it, for every
      state (reachable or not), seat and action. */
  lemma LegalActionsMembers(r: Rules, s: State, seat: SeatIx, a: Action)
    ensures a in LegalActions(r, s, seat) <==> Legal(r, s, seat, a)
  {
    DiscardActionsMembers(r, s, seat, a);
    ClaimActionsMembers(r, s, seat, a);
  }

  // --- the order of the list ---

  function ActionClass(a: Action): nat {
    match a
    case Pass => 0
    case Play(_) => 0
    case Peng(_) => 1
    case Gang(_, Exposed) => 2
    case Gang(_, Concealed) => 2
    case Gang(_, Added) => 3
    case Chi(_) => 4
    case Hu => 5
  }

  /** How the listed actions of a seat follow one another: plays and kongs by their
      tokens as strings, runs from the lowest one up. */
  ghost predicate ListedBefore(a: Action, b: Action) {
    || ActionClass(a) < ActionClass(b)
    || (ActionClass(a) == ActionClass(b)
        && match (a, b)
           case (Play(t), Play(u)) => TokenBelow(Token(t), Token(u))
           case (Gang(t, _), Gang(u, _)) => TokenBelow(Token(t), Token(u))
           case (Chi(ts), Chi(us)) => ts != [] && us != [] && ts[0] < us[0]
           case _ => false)
  }

  ghost predicate ListedInOrder(acts: seq<Action>) {
    forall j, k :: 0 <= j < k < |acts| ==> ListedBefore(acts[j], acts[k])
  }

  lemma OrderedConcat(a: seq<Action>, b: seq<Action>)
    requires ListedInOrder(a) && ListedInOrder(b)
    requires forall x, y :: x in a && y in b ==> ListedBefore(x, y)
    ensures ListedInOrder(a + b)
  {
    hide ListedBefore;
    forall j, k | 0 <= j < k < |a + b| ensures ListedBefore((a + b)[j], (a + b)[k]) {
      if j < |a| <= k {
        assert a[j] in a && b[k - |a|] in b;
      }
    }
  }

  ghost predicate TokenAscending(ts: seq<Tile>) {
    forall j, k :: 0 <= j < k < |ts| ==> TokenRank(ts[j]) < TokenRank(ts[k])
  }

  lemma {:induction false} DistinctAscending(hand: seq<Tile>, k: nat)
    requires k <= 42
    ensures TokenAscending(DistinctFrom(hand, k))
    decreases 42 - k
  {
    if k < 42 {
      DistinctAscending(hand, k + 1);
      var rest := DistinctFrom(hand, k + 1);
      forall i | 0 <= i < |rest| ensures TokenRank(rest[i]) > k {
        DistinctFromMembers(hand, k + 1, rest[i]);
      }
      RankOfTile(k);
    }
  }

  lemma RankOfTile(k: nat)
    requires k < 42
    ensures TokenRank(TileAtTokenRank(k)) == k
  {
  }

  lemma PlaysInOrder(ts: seq<Tile>)
    requires TokenAscending(ts)
    ensures ListedInOrder(Plays(ts))
  {
    hide Token;
    hide TokenRank;
    forall j, k | 0 <= j < k < |ts| ensures ListedBefore(Plays(ts)[j], Plays(ts)[k]) {
      TokenRankOrdersTokens(ts[j], ts[k]);
    }
  }

  lemma KongsInOrder(t: Tile, u: Tile, kind: GangKind)
    requires TokenRank(t) < TokenRank(u)
    ensures ListedBefore(Gang(t, kind), Gang(u, kind))
  {
    TokenRankOrdersTokens(t, u);
  }

  lemma {:induction false} ConcealedGangsInOrder(hand: seq<Tile>, ts: seq<Tile>)
    requires TokenAscending(ts)
    ensures ListedInOrder(ConcealedGangs(hand, ts))
  {
    hide ListedBefore;
    hide TokenRank;
    if ts != [] {
      var rest := ConcealedGangs(hand, ts[1..]);
      ConcealedGangsInOrder(hand, ts[1..]);
      forall b | b in rest ensures ListedBefore(Gang(ts[0], Concealed), b) {
        KongsInOrder(ts[0], b.tile, Concealed);
      }
      OrderedConcat(if Copies(hand, ts[0]) == 4 then [Gang(ts[0], Concealed)] else [], rest);
    }
  }

  lemma {:induction false} AddedGangsInOrder(hand: seq<Tile>, ts: seq<Tile>)
    requires TokenAscending(ts)
    ensures ListedInOrder(AddedGangs(hand, ts))
  {
    hide ListedBefore;
    hide TokenRank;
    if ts != [] {
      var rest := AddedGangs(hand, ts[1..]);
      AddedGangsInOrder(hand, ts[1..]);
      forall b | b in rest ensures ListedBefore(Gang(ts[0], Added), b) {
        KongsInOrder(ts[0], b.tile, Added);
      }
      OrderedConcat(if ts[0] in hand then [Gang(ts[0], Added)] else [], rest);
    }
  }

  /** Lists of different classes follow one another. */
  lemma ClassesInOrder(a: seq<Action>, b: seq<Action>, n: nat)
    requires ListedInOrder(a) && ListedInOrder(b)
    requires (forall x :: x in a ==> ActionClass(x) <= n) && forall y :: y in b ==> ActionClass(y) > n
    ensures ListedInOrder(a + b)
  {
    forall x, y | x in a && y in b ensures ListedBefore(x, y) {
    }
    OrderedConcat(a, b);
  }

  lemma TurnListsInOrder(plays: seq<Action>, concealed: seq<Action>, added: seq<Action>, hu: seq<Action>)
    requires ListedInOrder(plays) && ListedInOrder(concealed) && ListedInOrder(added) && |hu| <= 1
    requires (forall a :: a in plays ==> ActionClass(a) == 0) && (forall a :: a in concealed ==> ActionClass(a) == 2)
    requires (forall a :: a in added ==> ActionClass(a) == 3) && (forall a :: a in hu ==> ActionClass(a) == 5)
    ensures ListedInOrder(plays + (concealed + added) + hu)
    ensures ListedInOrder(plays + [] + hu)
  {
    assert ListedInOrder(hu) && plays + [] == plays;
    hide ListedInOrder;
    ClassesInOrder(concealed, added, 2);
    ClassesInOrder(plays, concealed + added, 0);
    ClassesInOrder(plays + (concealed + added), hu, 3);
    ClassesInOrder(plays, hu, 3);
  }

  lemma DiscardActionsInOrder(r: Rules, s: State, seat: SeatIx)
    ensures ListedInOrder(DiscardActions(r, s, seat))
  {
    hide Token;
    hide SelfDrawWins;
    hide PengTiles;
    hide DistinctFrom;
    hide ConcealedGangs;
    hide AddedGangs;
    hide ListedInOrder;
    var d := s.seats[seat];
    var distinct := DistinctFrom(d.concealed, 0);
    var pengs := DistinctFrom(PengTiles(d.melds), 0);
    DistinctAscending(d.concealed, 0);
    DistinctAscending(PengTiles(d.melds), 0);
    PlaysInOrder(distinct);
    ConcealedGangsInOrder(d.concealed, distinct);
    AddedGangsInOrder(d.concealed, pengs);
    TurnListsInOrder(Plays(distinct), ConcealedGangs(d.concealed, distinct), AddedGangs(d.concealed, pengs),
                     if SelfDrawWins(r, s, seat) then [Hu] else []);
    assert ListedInOrder([]) by { NothingInOrder(); }
  }

  lemma NothingInOrder()
    ensures ListedInOrder([])
  {
  }

  lemma ChiAtShape(hand: seq<Tile>, discard: Tile, offset: int)
    requires -2 <= offset <= 0 && IsSuited(discard)
    ensures |ChiAt(hand, discard, offset)| <= 1
    ensures forall a :: a in ChiAt(hand, discard, offset) ==>
              a.Chi? && a.tiles != [] && a.tiles[0] as int == discard + offset
  {
  }

  lemma ChiActionsInOrder(hand: seq<Tile>, discard: Tile)
    ensures ListedInOrder(ChiActions(hand, discard))
    ensures forall a :: a in ChiActions(hand, discard) ==> a.Chi?
  {
    hide ChiAt;
    if IsSuited(discard) {
      var a, b, c := ChiAt(hand, discard, -2), ChiAt(hand, discard, -1), ChiAt(hand, discard, 0);
      ChiAtShape(hand, discard, -2);
      ChiAtShape(hand, discard, -1);
      ChiAtShape(hand, discard, 0);
      assert ListedInOrder(a) && ListedInOrder(b) && ListedInOrder(c);
      OrderedConcat(a, b);
      OrderedConcat(a + b, c);
    } else {
      NothingInOrder();
    }
  }

  lemma ClaimListsInOrder(melds: seq<Action>, runs: seq<Action>, hu: seq<Action>)
    requires ListedInOrder(melds) && ListedInOrder(runs) && |hu| <= 1
    requires (forall a :: a in melds ==> ActionClass(a) <= 2) && (forall a :: a in runs ==> a.Chi?)
    requires forall a :: a in hu ==> a.Hu?
    ensures ListedInOrder(melds + runs + hu)
  {
    assert ListedInOrder(hu);
    hide ListedInOrder;
    ClassesInOrder(melds, runs, 2);
    ClassesInOrder(melds + runs, hu, 4);
  }

  lemma ClaimActionsInOrder(r: Rules, s: State, seat: SeatIx)
    ensures ListedInOrder(ClaimActions(r, s, seat))
  {
    hide ChiActions;
    hide DiscardWins;
    hide Token;
    hide Copies;
    if s.lastDiscard.Some? && seat != s.lastDiscard.value.seat {
      var t := s.lastDiscard.value.tile;
      var hand := s.seats[seat].concealed;
      var runs := if seat == Next(s.lastDiscard.value.seat) then ChiActions(hand, t) else [];
      ChiActionsInOrder(hand, t);
      var melds := [Pass]
        + (if Copies(hand, t) >= 2 then [Peng(t)] else [])
        + (if s.wall != [] && Copies(hand, t) >= 3 then [Gang(t, Exposed)] else []);
      assert ListedInOrder(melds);
      hide ListedInOrder;
      ClaimListsInOrder(melds, runs, if DiscardWins(r, s, seat, t) then [Hu] else []);
    } else {
      NothingInOrder();
    }
  }

  /** legal_actions lists what it lists in one order, without repetition: with
      LegalActionsMembers, the list is determined by the condition. */
  lemma LegalActionsInOrder(r: Rules, s: State, seat: SeatIx)
    ensures ListedInOrder(LegalActions(r, s, seat))
  {
    DiscardActionsInOrder(r, s, seat);
    ClaimActionsInOrder(r, s, seat);
  }

  // --- wins, from the calculator's answer ---

  lemma RestOfHand(hand: seq<Tile>, t: Tile, rest: seq<Tile>)
    requires Sorted(hand) && t in hand && Sorted(rest) && multiset(rest) + multiset{t} == multiset(hand)
    ensures rest == RemoveFirst(hand, t)
  {
    RemoveFirstSorted(hand, t);
    hide RemoveFirst;
    assert multiset(rest) == multiset(hand) - multiset{t};
    SortedUnique(rest, RemoveFirst(hand, t));
  }

  /** A seat may declare a self-draw exactly when it drew a tile that is in its hand of
      3n + 2 tiles and the calculator scores the rest of the hand with that tile, by the
      seat's own wind and without counting flowers. */
  lemma SelfDrawNeedsScore(r: Rules, s: State, seat: SeatIx, rest: seq<Tile>, t: Tile)
    requires s.phase == DiscardPhase && seat == s.actor && s.lastDrawn == Some(LastDrawn(seat, t))
    requires Sorted(s.seats[seat].concealed) && t in s.seats[seat].concealed
    requires Sorted(rest) && multiset(rest) + multiset{t} == multiset(s.seats[seat].concealed)
    ensures var d := s.seats[seat];
            Legal(r, s, seat, Hu) <==>
            |d.concealed| % 3 == 2 && r.fan(FanQuery(rest, d.melds, t, SelfDraw, d.wind, s.roundWind, 0)) != []
  {
    hide RemoveFirst;
    RestOfHand(s.seats[seat].concealed, t, rest);
  }

  /** A seat may win on a discard exactly when it is another's, its hand has 3n + 1
      tiles, and the calculator scores the hand with the discard. */
  lemma DiscardWinNeedsScore(r: Rules, s: State, seat: SeatIx, t: Tile, from: SeatIx, turn: nat)
    requires s.phase == ClaimWindow && s.lastDiscard == Some(LastDiscard(t, from, turn))
    ensures var d := s.seats[seat];
            Legal(r, s, seat, Hu) <==>
            seat != from && |d.concealed| % 3 == 1
            && r.fan(FanQuery(d.concealed, d.melds, t, FromDiscard, d.wind, s.roundWind, 0)) != []
  {
  }
}
