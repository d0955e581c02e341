/** The invariant of a hand: no tile is ever lost, duplicated or misplaced, every
    hand has the right size, and each phase's fields mean what the code relies on.
    ApplyActionKeepsInvariant shows that a legal action always succeeds and leads
    to such a state again. */
module Invariant {
  import opened Lists
  import opened Tiles
  import opened GameTypes
  import opened Legality
  import opened Scoring
  import opened Transition

  // --- where the copies of a tile are ---

  function MeldCopies(melds: seq<Meld>, t: Tile): nat {
    if melds == [] then 0
    else MeldCopies(melds[..|melds| - 1], t) + Copies(melds[|melds| - 1].tiles, t)
  }

  function SeatCopies(d: SeatData, t: Tile): nat {
    Copies(d.concealed, t) + MeldCopies(d.melds, t) + Copies(d.discards, t) + Copies(d.flowers, t)
  }

  function TotalCopies(s: State, t: Tile): nat {
    Copies(s.wall, t) + SeatCopies(s.seats[0], t) + SeatCopies(s.seats[1], t)
    + SeatCopies(s.seats[2], t) + SeatCopies(s.seats[3], t)
  }

  // --- the invariant ---

  ghost predicate NoFlowers(ts: seq<Tile>) { forall t :: t in ts ==> !IsFlower(t) }

  predicate FourOf(ts: seq<Tile>, t: Tile) { ts == [t, t, t, t] }

  /** A meld's tiles fit its kind; the called tile is one of them; a concealed
      kong comes from its owner, every other meld from another seat, and a run
      from the seat before. */
  predicate MeldOk(m: Meld, owner: SeatIx) {
    && |m.tiles| >= 3
    && !IsFlower(m.tiles[0])
    && match m.kind
       case PengMeld =>
         m.tiles == [m.tiles[0], m.tiles[0], m.tiles[0]] && m.called == Some(m.tiles[0]) && m.from != owner
       case ChiMeld =>
         && IsSuited(m.tiles[0])
         && |m.tiles| == 3
         && m.tiles[1] as int == m.tiles[0] as int + 1
         && m.tiles[2] as int == m.tiles[0] as int + 2
         && SectionOf(m.tiles[2]) == SectionOf(m.tiles[0])
         && m.called.Some? && m.called.value in m.tiles && owner == Next(m.from)
       case GangConcealed => FourOf(m.tiles, m.tiles[0]) && m.called == None && m.from == owner
       case GangExposed => FourOf(m.tiles, m.tiles[0]) && m.called == Some(m.tiles[0]) && m.from != owner
       case GangAdded => FourOf(m.tiles, m.tiles[0]) && m.called == Some(m.tiles[0]) && m.from != owner
  }

  ghost predicate SeatOk(d: SeatData, owner: SeatIx) {
    && Sorted(d.concealed)
    && NoFlowers(d.concealed)
    && NoFlowers(d.discards)
    && (forall t :: t in d.flowers ==> IsFlower(t))
    && (forall k :: 0 <= k < |d.melds| ==> MeldOk(d.melds[k], owner))
  }

  ghost predicate SeatsOk(s: State) { forall i: SeatIx :: SeatOk(s.seats[i], i) }

  /** Every one of the 144 tiles is in exactly one place. */
  ghost predicate Conserved(s: State) { forall t: Tile :: TotalCopies(s, t) == DeckCopies(t) }

  ghost predicate WallCounted(s: State) { s.drawn + |s.wall| == DECK_SIZE }

  function HandSize(d: SeatData): nat { |d.concealed| + 3 * |d.melds| }

  /** The seat holding a fourteenth tile: the actor of a DISCARD phase, or the
      winner of a self-draw. */
  predicate HoldsExtra(s: State, i: SeatIx) {
    || (s.phase == DiscardPhase && i == s.actor)
    || (s.phase == TerminalPhase && s.terminal.Some? && s.terminal.value.winType == Some(SelfDraw)
        && s.terminal.value.winner == Some(i))
  }

  ghost predicate SizesOk(s: State) {
    forall i: SeatIx :: HandSize(s.seats[i]) == if HoldsExtra(s, i) then 14 else 13
  }

  predicate LastInPile(s: State) {
    && s.lastDiscard.Some?
    && var last := s.lastDiscard.value;
       var pile := s.seats[last.seat].discards;
       pile != [] && pile[|pile| - 1] == last.tile
  }

  /** What the fields mean in each phase. */
  ghost predicate PhaseOk(s: State) {
    match s.phase
    case DiscardPhase =>
      && s.lastDiscard == None && s.claims == [] && s.terminal == None
      && (s.lastDrawn.Some? ==>
            s.lastDrawn.value.seat == s.actor && s.lastDrawn.value.tile in s.seats[s.actor].concealed)
    case ClaimWindow =>
      && LastInPile(s) && s.claims != [] && s.terminal == None
      && s.actor == Next(s.lastDiscard.value.seat)
      && s.lastDiscard.value.turn == s.turn
      && (forall c :: c in s.claims ==> c.seat != s.lastDiscard.value.seat)
      && (s.lastDrawn.Some? ==> s.lastDrawn.value.seat == s.lastDiscard.value.seat)
    case TerminalPhase =>
      && s.lastDiscard == None && s.claims == [] && s.lastDrawn == None
      && TerminalOk(s)
  }

  ghost predicate TerminalOk(s: State) {
    && s.terminal.Some?
    && var t := s.terminal.value;
       && |t.delta| == 4 && Sum(t.delta) == 0
       && (t.kind == DrawnHand <==> t.winner == None) && (t.winner == None <==> t.winType == None)
       && (t.kind == DrawnHand ==> s.wall == [] && t.delta == [0, 0, 0, 0])
       && (t.winType == Some(FromDiscard) <==> t.dealIn.Some?)
       && (t.winner.Some? ==> t.winTile.Some? && t.dealIn != t.winner)
  }

  ghost predicate Inv(s: State) {
    SeatsOk(s) && Conserved(s) && WallCounted(s) && SizesOk(s) && PhaseOk(s)
  }

  // --- counting ---

  lemma WithSeatCopies(s: State, i: SeatIx, d: SeatData, t: Tile)
    ensures TotalCopies(WithSeat(s, i, d), t) == TotalCopies(s, t) - SeatCopies(s.seats[i], t) + SeatCopies(d, t)
  {
    hide SeatCopies;
  }

  lemma MeldAppendCopies(melds: seq<Meld>, m: Meld, t: Tile)
    ensures MeldCopies(melds + [m], t) == MeldCopies(melds, t) + Copies(m.tiles, t)
  {
  }

  lemma {:induction false} MeldConcatCopies(a: seq<Meld>, b: seq<Meld>, t: Tile)
    ensures MeldCopies(a + b, t) == MeldCopies(a, t) + MeldCopies(b, t)
  {
    if b == [] {
      assert a + b == a;
    } else {
      assert (a + b)[..|a + b| - 1] == a + b[..|b| - 1];
      MeldConcatCopies(a, b[..|b| - 1], t);
    }
  }

  lemma SameTilesCopies(x: Tile, t: Tile)
    ensures Copies([x, x, x], t) == if t == x then 3 else 0
    ensures Copies([x, x, x, x], t) == if t == x then 4 else 0
  {
  }

  lemma SupportCons(hand: seq<Tile>, x: Tile, rest: seq<Tile>, called: Tile)
    ensures RemoveSupport(hand, [x] + rest, called) ==
            if x == called then RemoveSupport(hand, rest, called)
            else if x !in hand then None
            else RemoveSupport(RemoveFirst(hand, x), rest, called)
  {
    hide RemoveFirst;
    assert ([x] + rest)[1..] == rest;
  }

  /** A run takes its two uncalled tiles from the hand, one after the other. */
  lemma SupportOfThree(hand: seq<Tile>, a: Tile, b: Tile, c: Tile, called: Tile)
    requires a < b < c && (called == a || called == b || called == c)
    requires (a != called ==> a in hand) && (b != called ==> b in hand) && (c != called ==> c in hand)
    ensures var x, y := (if called == a then b else a), (if called == c then b else c);
            RemoveSupport(hand, [a] + ([b] + [c]), called) == Some(RemoveFirst(RemoveFirst(hand, x), y))
  {
    hide RemoveFirst;
    var x: Tile, y: Tile := if called == a then b else a, if called == c then b else c;
    var hand1 := RemoveFirst(hand, x);
    assert Copies(hand1, y) == Copies(hand, y);
    SupportCons(hand, a, [b] + [c], called);
    SupportCons(if called == a then hand else hand1, b, [c], called);
    assert [c] == [c] + [];
    SupportCons(if called == c then RemoveFirst(hand1, y) else hand1, c, [], called);
  }

  lemma RunSupport(hand: seq<Tile>, tiles: seq<Tile>, called: Tile) returns (x: Tile, y: Tile)
    requires IsChi(hand, called, tiles)
    ensures x != y && x in hand && y in hand
    ensures RemoveSupport(hand, tiles, called) == Some(RemoveFirst(RemoveFirst(hand, x), y))
    ensures multiset(tiles) == multiset{x, y, called}
  {
    hide RemoveFirst;
    hide RemoveSupport;
    var a, b, c := tiles[0], tiles[1], tiles[2];
    assert tiles == [a] + ([b] + [c]);
    assert a in tiles && b in tiles && c in tiles;
    SupportOfThree(hand, a, b, c, called);
    x, y := if called == a then b else a, if called == c then b else c;
  }

  lemma TwoRemoved(hand: seq<Tile>, x: Tile, y: Tile)
    requires Sorted(hand) && NoFlowers(hand) && x in hand && y in hand && x != y
    ensures var rest := RemoveFirst(RemoveFirst(hand, x), y);
            && |rest| == |hand| - 2 && Sorted(rest) && NoFlowers(rest)
            && multiset(rest) == multiset(hand) - multiset{x, y}
  {
    hide RemoveFirst;
    RemoveFirstSorted(hand, x);
    RemoveFirstSorted(RemoveFirst(hand, x), y);
    var rest := RemoveFirst(RemoveFirst(hand, x), y);
    assert Copies(RemoveFirst(hand, x), y) == Copies(hand, y);
    forall t | t in rest ensures !IsFlower(t) {
      assert Copies(rest, t) > 0;
      assert Copies(hand, t) > 0;
    }
  }

  /** The tiles a run takes from the hand, with the called one, are the run. */
  lemma RunCopies(hand: seq<Tile>, tiles: seq<Tile>, called: Tile)
    requires IsChi(hand, called, tiles) && Sorted(hand) && NoFlowers(hand)
    ensures RemoveSupport(hand, tiles, called).Some?
    ensures var rest := RemoveSupport(hand, tiles, called).value;
            && |rest| == |hand| - 2 && Sorted(rest) && NoFlowers(rest)
            && forall t: Tile :: Copies(rest, t) + Copies(tiles, t) == Copies(hand, t) + if t == called then 1 else 0
  {
    hide RemoveFirst;
    hide RemoveSupport;
    var x, y := RunSupport(hand, tiles, called);
    TwoRemoved(hand, x, y);
  }

  lemma MeldUpdateCopies(melds: seq<Meld>, k: nat, m: Meld, t: Tile)
    requires k < |melds|
    ensures MeldCopies(melds[k := m], t) == MeldCopies(melds, t) - Copies(melds[k].tiles, t) + Copies(m.tiles, t)
  {
    var front, back := melds[..k], melds[k + 1..];
    assert melds == front + [melds[k]] + back && melds[k := m] == front + [m] + back;
    MeldConcatCopies(front + [melds[k]], back, t);
    MeldConcatCopies(front + [m], back, t);
    MeldAppendCopies(front, melds[k], t);
    MeldAppendCopies(front, m, t);
  }

  /** A kong added to a PENG meld puts one more copy on the table. */
  lemma PromoteCopies(melds: seq<Meld>, x: Tile, owner: SeatIx, t: Tile)
    requires HasPeng(melds, x)
    requires forall k :: 0 <= k < |melds| ==> MeldOk(melds[k], owner)
    ensures MeldCopies(Promote(melds, x), t) == MeldCopies(melds, t) + if t == x then 1 else 0
    ensures forall k :: 0 <= k < |melds| ==> MeldOk(Promote(melds, x)[k], owner)
  {
    var k := FirstPeng(melds, x);
    assert MeldOk(melds[k], owner);
    MeldUpdateCopies(melds, k, Promote(melds, x)[k], t);
    SameTilesCopies(x, t);
  }

  // --- seats that change ---

  /** Replacing one seat's record by a well-formed one keeps all seats well formed. */
  lemma WithSeatOk(s: State, i: SeatIx, d: SeatData)
    requires SeatsOk(s) && SeatOk(d, i)
    ensures SeatsOk(WithSeat(s, i, d))
  {
  }

  /** A tile that is not a flower joins a hand. */
  lemma SortedInHand(hand: seq<Tile>, x: Tile)
    requires NoFlowers(hand) && !IsFlower(x)
    ensures NoFlowers(Sort(hand + [x])) && x in Sort(hand + [x])
    ensures |Sort(hand + [x])| == |hand| + 1
    ensures forall t: Tile :: Copies(Sort(hand + [x]), t) == Copies(hand, t) + if t == x then 1 else 0
  {
    var sorted := Sort(hand + [x]);
    assert x in multiset(sorted);
    forall t | t in sorted ensures !IsFlower(t) {
      assert t in multiset(hand + [x]);
    }
  }

  lemma NTimesInHand(hand: seq<Tile>, x: Tile, n: nat)
    requires Sorted(hand) && NoFlowers(hand) && Copies(hand, x) >= n
    ensures Sorted(RemoveTimes(hand, x, n)) && NoFlowers(RemoveTimes(hand, x, n))
    ensures |RemoveTimes(hand, x, n)| == |hand| - n
    ensures forall t: Tile :: Copies(RemoveTimes(hand, x, n), t) == Copies(hand, t) - if t == x then n else 0
  {
    RemoveTimesSorted(hand, x, n);
    RemoveTimesLength(hand, x, n);
    var rest := RemoveTimes(hand, x, n);
    forall t: Tile ensures Copies(rest, t) == Copies(hand, t) - if t == x then n else 0 {
      RemoveTimesCount(hand, x, n, t);
    }
    forall t | t in rest ensures !IsFlower(t) {
      assert Copies(rest, t) > 0;
      assert t in hand;
    }
  }

  // --- drawing ---

  /** Between actions: everyone holds thirteen tiles and nobody is on turn yet. */
  ghost predicate Settled(s: State) {
    && SeatsOk(s) && Conserved(s) && WallCounted(s) && s.terminal == None
    && forall i: SeatIx :: HandSize(s.seats[i]) == 13
  }

  lemma DrawnSeatOk(d: SeatData, owner: SeatIx, flowers: seq<Tile>, x: Tile)
    requires SeatOk(d, owner) && !IsFlower(x)
    requires forall t :: t in flowers ==> IsFlower(t)
    ensures SeatOk(d.(flowers := d.flowers + flowers, concealed := Sort(d.concealed + [x])), owner)
    ensures SeatOk(d.(flowers := d.flowers + flowers), owner)
  {
    SortedInHand(d.concealed, x);
  }

  lemma DrawCopies(s: State, seat: SeatIx, t: Tile)
    ensures TotalCopies(InternalDraw(s, seat), t) == TotalCopies(s, t)
  {
    var k := FirstLive(s.wall);
    var d := s.seats[seat];
    if k == |s.wall| {
      WithSeatCopies(s, seat, d.(flowers := d.flowers + s.wall), t);
    } else {
      var w := s.wall;
      assert w == w[..k] + [w[k]] + w[k + 1..];
      var drawn := d.(flowers := d.flowers + w[..k], concealed := Sort(d.concealed + [w[k]]));
      assert Copies(drawn.concealed, t) == Copies(d.concealed, t) + Copies([w[k]], t);
      WithSeatCopies(s, seat, drawn, t);
    }
  }

  /** A draw after a settled action gives the drawer its fourteenth tile, or ends
      the hand when only flowers are left. */
  lemma DrawKeeps(s: State, seat: SeatIx)
    requires Settled(s) && s.lastDiscard == None && s.claims == []
    ensures Inv(InternalDraw(s, seat))
  {
    hide TotalCopies;
    hide MeldOk;
    hide Sort;
    hide NoFlowers;
    var k := FirstLive(s.wall);
    var d := s.seats[seat];
    var after := InternalDraw(s, seat);
    forall t: Tile ensures TotalCopies(after, t) == DeckCopies(t) {
      DrawCopies(s, seat, t);
      assert TotalCopies(s, t) == DeckCopies(t);
    }
    assert SeatOk(d, seat);
    if k == |s.wall| {
      DrawnSeatOk(d, seat, s.wall, 0);
      WithSeatOk(s, seat, d.(flowers := d.flowers + s.wall));
      SumOfFour([0, 0, 0, 0]);
    } else {
      forall t | t in s.wall[..k] ensures IsFlower(t) {
        var i :| 0 <= i < k && s.wall[..k][i] == t;
        assert s.wall[i] == t;
      }
      DrawnSeatOk(d, seat, s.wall[..k], s.wall[k]);
      SortedInHand(d.concealed, s.wall[k]);
      WithSeatOk(s, seat, after.seats[seat]);
    }
    forall i: SeatIx ensures SeatOk(after.seats[i], i) {
      assert SeatOk(s.seats[i], i);
    }
  }

  lemma AdvanceKeeps(s: State)
    requires Settled(s)
    ensures Inv(Advance(s))
  {
    var closed := s.(lastDiscard := None, claims := []);
    assert Settled(closed) by { SettledElsewhere(s, closed); }
    DrawKeeps(closed, Next(if s.lastDiscard.Some? then s.lastDiscard.value.seat else s.actor));
  }

  /** Settledness speaks of the tiles only. */
  lemma SettledElsewhere(s: State, u: State)
    requires Settled(s) && u.seats == s.seats && u.wall == s.wall && u.drawn == s.drawn && u.terminal == None
    ensures Settled(u)
  {
  }

  lemma ConservedSwap(s: State, i: SeatIx, d: SeatData)
    requires Conserved(s)
    requires forall t: Tile :: SeatCopies(d, t) == SeatCopies(s.seats[i], t)
    ensures Conserved(WithSeat(s, i, d))
  {
    forall t: Tile ensures TotalCopies(WithSeat(s, i, d), t) == DeckCopies(t) {
      WithSeatCopies(s, i, d, t);
      assert TotalCopies(s, t) == DeckCopies(t);
      assert SeatCopies(d, t) == SeatCopies(s.seats[i], t);
    }
  }

  lemma ConservedMove(s: State, i: SeatIx, di: SeatData, j: SeatIx, dj: SeatData)
    requires Conserved(s) && i != j
    requires forall t: Tile :: SeatCopies(di, t) + SeatCopies(dj, t) == SeatCopies(s.seats[i], t) + SeatCopies(s.seats[j], t)
    ensures Conserved(WithSeat(WithSeat(s, i, di), j, dj))
  {
    forall t: Tile ensures TotalCopies(WithSeat(WithSeat(s, i, di), j, dj), t) == DeckCopies(t) {
      WithSeatCopies(s, i, di, t);
      WithSeatCopies(WithSeat(s, i, di), j, dj, t);
      assert TotalCopies(s, t) == DeckCopies(t);
      assert SeatCopies(di, t) + SeatCopies(dj, t) == SeatCopies(s.seats[i], t) + SeatCopies(s.seats[j], t);
    }
  }

  // --- own-turn actions ---

  /** After the discard, before the window opens. */
  function Played(s: State, seat: SeatIx, t: Tile): State {
    var d := s.seats[seat];
    WithSeat(s, seat, d.(concealed := RemoveFirst(d.concealed, t), discards := d.discards + [t]))
    .(turn := s.turn + 1, lastDiscard := Some(LastDiscard(t, seat, s.turn + 1)))
  }

  lemma OneFromHand(hand: seq<Tile>, x: Tile)
    requires Sorted(hand) && NoFlowers(hand) && x in hand
    ensures Sorted(RemoveFirst(hand, x)) && NoFlowers(RemoveFirst(hand, x))
    ensures forall t: Tile :: Copies(RemoveFirst(hand, x), t) == Copies(hand, t) - if t == x then 1 else 0
  {
    hide RemoveFirst;
    RemoveFirstSorted(hand, x);
    var rest := RemoveFirst(hand, x);
    forall t | t in rest ensures !IsFlower(t) {
      assert Copies(rest, t) > 0;
      assert Copies(hand, t) > 0;
    }
  }

  lemma PlaySettles(s: State, seat: SeatIx, t: Tile)
    requires Inv(s) && s.phase == DiscardPhase && seat == s.actor && t in s.seats[seat].concealed
    ensures Settled(Played(s, seat, t)) && LastInPile(Played(s, seat, t))
  {
    hide RemoveFirst;
    var d := s.seats[seat];
    assert SeatOk(d, seat);
    OneFromHand(d.concealed, t);
    var d' := d.(concealed := RemoveFirst(d.concealed, t), discards := d.discards + [t]);
    var played := WithSeat(s, seat, d');
    WithSeatOk(s, seat, d');
    forall x: Tile ensures SeatCopies(d', x) == SeatCopies(d, x) {
      assert Copies(d'.concealed, x) == Copies(d.concealed, x) - if x == t then 1 else 0;
    }
    ConservedSwap(s, seat, d');
    assert Settled(played) by {
      forall i: SeatIx ensures HandSize(played.seats[i]) == 13 {
        assert HandSize(s.seats[i]) == if HoldsExtra(s, i) then 14 else 13;
      }
    }
    SettledElsewhere(played, Played(s, seat, t));
  }

  lemma WindowKeeps(s: State, claims: seq<Claim>)
    requires Settled(s) && LastInPile(s) && s.lastDiscard.value.turn == s.turn
    requires s.lastDrawn.Some? ==> s.lastDrawn.value.seat == s.lastDiscard.value.seat
    requires claims != [] && forall c :: c in claims ==> c.seat != s.lastDiscard.value.seat
    ensures Inv(s.(claims := claims, phase := ClaimWindow, actor := Next(s.lastDiscard.value.seat)))
  {
    hide SeatOk;
    hide TotalCopies;
    hide HandSize;
    SettledElsewhere(s, s.(claims := claims, phase := ClaimWindow, actor := Next(s.lastDiscard.value.seat)));
  }

  lemma OpenWindowKeeps(r: Rules, s: State)
    requires Settled(s) && LastInPile(s)
    requires s.lastDiscard.value.turn == s.turn
    requires s.lastDrawn.Some? ==> s.lastDrawn.value.seat == s.lastDiscard.value.seat
    ensures Inv(OpenWindowOrAdvance(r, s))
  {
    hide Inv;
    hide Settled;
    hide Advance;
    hide OpenClaims;
    if OpenClaims(r, s) == [] {
      AdvanceKeeps(s);
    } else {
      WindowKeeps(s, OpenClaims(r, s));
    }
  }

  lemma PlayKeeps(r: Rules, s: State, seat: SeatIx, t: Tile)
    requires Inv(s) && s.phase == DiscardPhase && seat == s.actor && t in s.seats[seat].concealed
    ensures ApplyPlay(r, s, seat, t).Ok? && Inv(ApplyPlay(r, s, seat, t).value)
    ensures ApplyPlay(r, s, seat, t) == Ok(OpenWindowOrAdvance(r, Played(s, seat, t)))
  {
    hide RemoveFirst;
    hide OpenWindowOrAdvance;
    PlaySettles(s, seat, t);
    OpenWindowKeeps(r, Played(s, seat, t));
  }

  /** A kong from the actor's own hand, before the replacement draw. */
  function KongReady(s: State, seat: SeatIx, hand: seq<Tile>, melds: seq<Meld>): State {
    WithSeat(s, seat, s.seats[seat].(concealed := hand, melds := melds)).(turn := s.turn + 1)
  }

  lemma KongSettles(s: State, seat: SeatIx, hand: seq<Tile>, melds: seq<Meld>)
    requires Inv(s) && s.phase == DiscardPhase && seat == s.actor
    requires SeatOk(s.seats[seat].(concealed := hand, melds := melds), seat) && |hand| + 3 * |melds| == 13
    requires forall t: Tile :: Copies(hand, t) + MeldCopies(melds, t)
                               == Copies(s.seats[seat].concealed, t) + MeldCopies(s.seats[seat].melds, t)
    ensures Inv(InternalDraw(KongReady(s, seat, hand, melds), seat))
  {
    hide InternalDraw;
    hide SeatOk;
    var d := s.seats[seat];
    var d' := d.(concealed := hand, melds := melds);
    WithSeatOk(s, seat, d');
    forall x: Tile ensures SeatCopies(d', x) == SeatCopies(d, x) {
      assert Copies(hand, x) + MeldCopies(melds, x) == Copies(d.concealed, x) + MeldCopies(d.melds, x);
    }
    ConservedSwap(s, seat, d');
    var melded := WithSeat(s, seat, d');
    forall i: SeatIx ensures HandSize(melded.seats[i]) == 13 {
      assert HandSize(s.seats[i]) == if HoldsExtra(s, i) then 14 else 13;
    }
    SettledElsewhere(melded, KongReady(s, seat, hand, melds));
    DrawKeeps(KongReady(s, seat, hand, melds), seat);
  }

  lemma MeldAppendOk(d: SeatData, owner: SeatIx, hand: seq<Tile>, m: Meld)
    requires SeatOk(d, owner) && MeldOk(m, owner) && Sorted(hand) && NoFlowers(hand)
    ensures SeatOk(d.(concealed := hand, melds := d.melds + [m]), owner)
  {
    hide MeldOk;
  }

  lemma GangConcealedKeeps(s: State, seat: SeatIx, t: Tile)
    requires Inv(s) && s.phase == DiscardPhase && seat == s.actor && Copies(s.seats[seat].concealed, t) == 4
    ensures ApplyGangConcealed(s, seat, t).Ok? && Inv(ApplyGangConcealed(s, seat, t).value)
  {
    hide RemoveTimes;
    hide MeldCopies;
    hide SeatCopies;
    hide InternalDraw;
    var d := s.seats[seat];
    assert SeatOk(d, seat) && t in d.concealed && HandSize(d) == 14;
    NTimesInHand(d.concealed, t, 4);
    var hand := RemoveTimes(d.concealed, t, 4);
    var m := Meld(GangConcealed, [t, t, t, t], None, seat);
    MeldAppendOk(d, seat, hand, m);
    forall x: Tile
      ensures Copies(hand, x) + MeldCopies(d.melds + [m], x) == Copies(d.concealed, x) + MeldCopies(d.melds, x)
    {
      MeldAppendCopies(d.melds, m, x);
      SameTilesCopies(t, x);
    }
    KongSettles(s, seat, hand, d.melds + [m]);
  }

  lemma GangAddedKeeps(s: State, seat: SeatIx, t: Tile)
    requires Inv(s) && s.phase == DiscardPhase && seat == s.actor
    requires t in s.seats[seat].concealed && HasPeng(s.seats[seat].melds, t)
    ensures ApplyGangAdded(s, seat, t).Ok? && Inv(ApplyGangAdded(s, seat, t).value)
  {
    hide InternalDraw;
    hide RemoveFirst;
    hide Promote;
    var d := s.seats[seat];
    assert SeatOk(d, seat) && HandSize(d) == 14;
    OneFromHand(d.concealed, t);
    var hand, melds := RemoveFirst(d.concealed, t), Promote(d.melds, t);
    PromoteLength(d.melds, t);
    PromoteCopies(d.melds, t, seat, t);
    assert SeatOk(d.(concealed := hand, melds := melds), seat) by { hide MeldOk; }
    forall x: Tile
      ensures Copies(hand, x) + MeldCopies(melds, x) == Copies(d.concealed, x) + MeldCopies(d.melds, x)
    {
      PromoteCopies(d.melds, t, seat, x);
    }
    KongSettles(s, seat, hand, melds);
  }

  lemma PromoteLength(melds: seq<Meld>, t: Tile)
    requires HasPeng(melds, t)
    ensures |Promote(melds, t)| == |melds|
  {
  }

  // --- claims ---

  lemma WindowSettled(s: State)
    requires Inv(s) && s.phase == ClaimWindow
    ensures Settled(s)
  {
  }

  lemma PassKeeps(s: State, seat: SeatIx)
    requires Inv(s) && s.phase == ClaimWindow
    ensures Inv(ApplyPass(s, seat))
  {
    WindowSettled(s);
    DropClaimsKeepsOthers(s.claims, seat);
    var passed := s.(claims := DropClaims(s.claims, seat));
    SettledElsewhere(s, passed);
    if passed.claims == [] {
      AdvanceKeeps(passed);
    } else {
      forall i: SeatIx ensures HandSize(passed.seats[i]) == if HoldsExtra(passed, i) then 14 else 13 {
      }
    }
  }

  /** The claimer's record after melding the discard with tiles from its hand. */
  function Melded(s: State, seat: SeatIx, hand: seq<Tile>, m: Meld): State {
    WithSeat(s, seat, s.seats[seat].(concealed := hand, melds := s.seats[seat].melds + [m]))
  }

  function Consumed(s: State, seat: SeatIx, hand: seq<Tile>, m: Meld): State
    requires LastInPile(s)
  {
    var d := s.seats[s.lastDiscard.value.seat];
    WithSeat(Melded(s, seat, hand, m), s.lastDiscard.value.seat, d.(discards := d.discards[..|d.discards| - 1]))
    .(lastDiscard := None, claims := [])
  }

  /** Taking the discard into a meld moves exactly one copy of one tile. */
  lemma ClaimConserves(s: State, seat: SeatIx, hand: seq<Tile>, m: Meld)
    requires Conserved(s) && LastInPile(s) && seat != s.lastDiscard.value.seat
    requires forall t: Tile :: Copies(hand, t) + Copies(m.tiles, t)
                               == Copies(s.seats[seat].concealed, t) + if t == s.lastDiscard.value.tile then 1 else 0
    ensures Conserved(Consumed(s, seat, hand, m))
  {
    var last := s.lastDiscard.value;
    var d, g := s.seats[seat], s.seats[last.seat];
    var d' := d.(concealed := hand, melds := d.melds + [m]);
    var g' := g.(discards := g.discards[..|g.discards| - 1]);
    assert g.discards == g'.discards + [last.tile];
    forall t: Tile
      ensures SeatCopies(d', t) + SeatCopies(g', t) == SeatCopies(s.seats[seat], t) + SeatCopies(s.seats[last.seat], t)
    {
      MeldAppendCopies(d.melds, m, t);
      assert Copies(g.discards, t) == Copies(g'.discards, t) + if t == last.tile then 1 else 0;
      assert Copies(hand, t) + Copies(m.tiles, t) == Copies(d.concealed, t) + if t == last.tile then 1 else 0;
    }
    ConservedMove(s, seat, d', last.seat, g');
    var moved := WithSeat(WithSeat(s, seat, d'), last.seat, g');
    var u := Consumed(s, seat, hand, m);
    forall t: Tile ensures TotalCopies(u, t) == DeckCopies(t) {
      assert TotalCopies(moved, t) == DeckCopies(t);
    }
  }

  lemma PileShortenedOk(d: SeatData, owner: SeatIx)
    requires SeatOk(d, owner) && d.discards != []
    ensures SeatOk(d.(discards := d.discards[..|d.discards| - 1]), owner)
  {
    hide MeldOk;
  }

  lemma ClaimMoves(s: State, seat: SeatIx, hand: seq<Tile>, m: Meld)
    requires Inv(s) && s.phase == ClaimWindow && seat != s.lastDiscard.value.seat
    requires MeldOk(m, seat) && Sorted(hand) && NoFlowers(hand)
    requires forall t: Tile :: Copies(hand, t) + Copies(m.tiles, t)
                               == Copies(s.seats[seat].concealed, t) + if t == s.lastDiscard.value.tile then 1 else 0
    ensures ConsumeDiscard(Melded(s, seat, hand, m), s.lastDiscard.value.seat) == Ok(Consumed(s, seat, hand, m))
    ensures var u := Consumed(s, seat, hand, m);
            && SeatsOk(u) && Conserved(u) && WallCounted(u)
            && (forall i: SeatIx :: i != seat ==> HandSize(u.seats[i]) == 13)
            && HandSize(u.seats[seat]) == |hand| + 3 * |s.seats[seat].melds| + 3
  {
    hide MeldOk;
    hide SeatOk;
    var giver := s.lastDiscard.value.seat;
    ClaimConserves(s, seat, hand, m);
    assert SeatOk(s.seats[seat], seat) && SeatOk(s.seats[giver], giver);
    MeldAppendOk(s.seats[seat], seat, hand, m);
    PileShortenedOk(s.seats[giver], giver);
    WithSeatOk(s, seat, Melded(s, seat, hand, m).seats[seat]);
    var u := Consumed(s, seat, hand, m);
    WithSeatOk(Melded(s, seat, hand, m), giver, u.seats[giver]);
    forall i: SeatIx ensures SeatOk(u.seats[i], i) {
      assert SeatOk(WithSeat(Melded(s, seat, hand, m), giver, u.seats[giver]).seats[i], i);
    }
    forall i: SeatIx | i != seat ensures HandSize(u.seats[i]) == 13 {
      assert HandSize(s.seats[i]) == if HoldsExtra(s, i) then 14 else 13;
    }
  }

  lemma HandToClaimerKeeps(u: State, seat: SeatIx)
    requires SeatsOk(u) && Conserved(u) && WallCounted(u)
    requires forall i: SeatIx :: HandSize(u.seats[i]) == if i == seat then 14 else 13
    requires u.lastDiscard == None && u.claims == [] && u.terminal == None
    ensures Inv(HandToClaimer(u, seat))
  {
  }

  /** A meld of two tiles and the discard puts the claimer on turn; with three
      tiles of its own the claimer draws a replacement. */
  lemma MeldClaim(s: State, seat: SeatIx, hand: seq<Tile>, m: Meld)
    requires Inv(s) && s.phase == ClaimWindow && seat != s.lastDiscard.value.seat
    requires MeldOk(m, seat) && Sorted(hand) && NoFlowers(hand)
    requires forall t: Tile :: Copies(hand, t) + Copies(m.tiles, t)
                               == Copies(s.seats[seat].concealed, t) + if t == s.lastDiscard.value.tile then 1 else 0
    ensures ConsumeDiscard(Melded(s, seat, hand, m), s.lastDiscard.value.seat) == Ok(Consumed(s, seat, hand, m))
    ensures |hand| + 2 == |s.seats[seat].concealed| ==> Inv(HandToClaimer(Consumed(s, seat, hand, m), seat))
    ensures |hand| + 3 == |s.seats[seat].concealed| ==>
              Inv(InternalDraw(Consumed(s, seat, hand, m).(turn := s.turn + 1), seat))
  {
    hide MeldOk;
    hide SeatOk;
    hide InternalDraw;
    hide HandToClaimer;
    ClaimMoves(s, seat, hand, m);
    assert HandSize(s.seats[seat]) == 13;
    var u := Consumed(s, seat, hand, m);
    if |hand| + 2 == |s.seats[seat].concealed| {
      HandToClaimerKeeps(u, seat);
    }
    if |hand| + 3 == |s.seats[seat].concealed| {
      SettledElsewhere(u, u.(turn := s.turn + 1));
      DrawKeeps(u.(turn := s.turn + 1), seat);
    }
  }

  lemma PengKeeps(s: State, seat: SeatIx, t: Tile)
    requires Inv(s) && s.phase == ClaimWindow && seat != s.lastDiscard.value.seat
    requires t == s.lastDiscard.value.tile && Copies(s.seats[seat].concealed, t) >= 2
    ensures ApplyPeng(s, seat, t).Ok? && Inv(ApplyPeng(s, seat, t).value)
  {
    hide RemoveTimes;
    hide MeldCopies;
    hide SeatCopies;
    hide InternalDraw;
    hide HandToClaimer;
    var d := s.seats[seat];
    assert SeatOk(d, seat) && t in d.concealed;
    NTimesInHand(d.concealed, t, 2);
    var hand := RemoveTimes(d.concealed, t, 2);
    var m := Meld(PengMeld, [t, t, t], Some(t), s.lastDiscard.value.seat);
    assert MeldOk(m, seat);
    forall x: Tile ensures Copies(hand, x) + Copies(m.tiles, x) == Copies(d.concealed, x) + if x == t then 1 else 0 {
      SameTilesCopies(t, x);
    }
    MeldClaim(s, seat, hand, m);
  }

  lemma ChiKeeps(s: State, seat: SeatIx, tiles: seq<Tile>)
    requires Inv(s) && s.phase == ClaimWindow && seat == Next(s.lastDiscard.value.seat)
    requires IsChi(s.seats[seat].concealed, s.lastDiscard.value.tile, tiles)
    ensures ApplyChi(s, seat, tiles).Ok? && Inv(ApplyChi(s, seat, tiles).value)
  {
    hide InternalDraw;
    hide HandToClaimer;
    hide RemoveSupport;
    var last := s.lastDiscard.value;
    var d := s.seats[seat];
    assert SeatOk(d, seat);
    RunCopies(d.concealed, tiles, last.tile);
    var hand := RemoveSupport(d.concealed, tiles, last.tile).value;
    var m := Meld(ChiMeld, tiles, Some(last.tile), last.seat);
    assert MeldOk(m, seat);
    MeldClaim(s, seat, hand, m);
  }

  lemma GangExposedKeeps(s: State, seat: SeatIx, t: Tile)
    requires Inv(s) && s.phase == ClaimWindow && seat != s.lastDiscard.value.seat
    requires t == s.lastDiscard.value.tile && Copies(s.seats[seat].concealed, t) >= 3
    ensures ApplyGangExposed(s, seat, t).Ok? && Inv(ApplyGangExposed(s, seat, t).value)
  {
    hide RemoveTimes;
    hide MeldCopies;
    hide SeatCopies;
    hide InternalDraw;
    hide HandToClaimer;
    var d := s.seats[seat];
    assert SeatOk(d, seat) && t in d.concealed;
    NTimesInHand(d.concealed, t, 3);
    var hand := RemoveTimes(d.concealed, t, 3);
    var m := Meld(GangExposed, [t, t, t, t], Some(t), s.lastDiscard.value.seat);
    assert MeldOk(m, seat);
    forall x: Tile ensures Copies(hand, x) + Copies(m.tiles, x) == Copies(d.concealed, x) + if x == t then 1 else 0 {
      SameTilesCopies(t, x);
    }
    MeldClaim(s, seat, hand, m);
  }

  // --- wins ---

  /** Settling a win moves points and no tiles. */
  lemma ScoresMoveNoTiles(s: State, u: State, delta: seq<int>)
    requires |delta| == 4 && u.seats == AddScores(s.seats, delta) && u.wall == s.wall
    ensures SeatsOk(s) ==> SeatsOk(u)
    ensures Conserved(s) ==> Conserved(u)
    ensures forall i: SeatIx :: HandSize(u.seats[i]) == HandSize(s.seats[i])
  {
    hide MeldOk;
    if Conserved(s) {
      forall t: Tile ensures TotalCopies(u, t) == DeckCopies(t) {
        assert TotalCopies(s, t) == DeckCopies(t);
      }
    }
    if SeatsOk(s) {
      forall i: SeatIx ensures SeatOk(u.seats[i], i) {
        assert SeatOk(s.seats[i], i);
      }
    }
  }

  lemma WinKeeps(r: Rules, s: State, seat: SeatIx, q: FanQuery, dealIn: Option<SeatIx>)
    requires Inv(s) && s.phase != TerminalPhase && ValidRules(r)
    requires s.phase == DiscardPhase ==> q.winType == SelfDraw && seat == s.actor && dealIn == None
    requires s.phase == ClaimWindow ==> q.winType == FromDiscard && dealIn.Some? && dealIn.value != seat
    ensures Win(r, s, seat, q, dealIn).Ok? && Inv(Win(r, s, seat, q, dealIn).value)
  {
    hide SeatsOk;
    hide Conserved;
    hide HandSize;
    hide AddScores;
    hide FanTotal;
    var total := FanTotal(r.fan(q));
    ScoreDeltaZeroSum(seat, total, q.winType, dealIn, r.conversion);
    hide ScoreDelta;
    var won := Win(r, s, seat, q, dealIn).value;
    ScoresMoveNoTiles(s, won, won.terminal.value.delta);
    forall i: SeatIx ensures HandSize(won.seats[i]) == if HoldsExtra(won, i) then 14 else 13 {
      assert HandSize(s.seats[i]) == if HoldsExtra(s, i) then 14 else 13;
    }
  }

  lemma HuKeeps(r: Rules, s: State, seat: SeatIx)
    requires Inv(s) && ValidRules(r) && Legal(r, s, seat, Hu)
    ensures ApplyHu(r, s, seat).Ok? && Inv(ApplyHu(r, s, seat).value)
  {
    hide Win;
    hide RemoveFirst;
    var flowers := |s.seats[seat].flowers|;
    if s.phase == ClaimWindow {
      var last := s.lastDiscard.value;
      WinKeeps(r, s, seat, DiscardQuery(s, seat, last.tile, flowers), Some(last.seat));
    } else {
      var win := s.lastDrawn.value.tile;
      WinKeeps(r, s, seat, SelfDrawQuery(s, seat, win, flowers), None);
    }
  }

  /** In a state that satisfies the invariant every legal action succeeds: no
      list removal, pop or assertion of any transition fails. The state it leads
      to satisfies the invariant again. Illegal actions are refused. */
  lemma ApplyActionKeepsInvariant(r: Rules, s: State, seat: SeatIx, a: Action)
    requires Inv(s) && ValidRules(r)
    ensures Legal(r, s, seat, a) ==> ApplyAction(r, s, seat, a).Ok? && Inv(ApplyAction(r, s, seat, a).value)
    ensures !Legal(r, s, seat, a) ==> ApplyAction(r, s, seat, a) == Err(IllegalAction)
  {
    hide Inv;
    if Legal(r, s, seat, a) {
      match a
      case Play(t) => PlayKeeps(r, s, seat, t);
      case Pass => PassKeeps(s, seat);
      case Peng(t) => PengKeeps(s, seat, t);
      case Chi(tiles) => ChiKeeps(s, seat, tiles);
      case Gang(t, Exposed) => GangExposedKeeps(s, seat, t);
      case Gang(t, Concealed) => GangConcealedKeeps(s, seat, t);
      case Gang(t, Added) => GangAddedKeeps(s, seat, t);
      case Hu => HuKeeps(r, s, seat);
    }
  }
}
