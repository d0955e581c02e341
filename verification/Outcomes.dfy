/** What every action does, said without saying how: which tiles move where, who is
    on turn next, and that everything else stays as it is. Each outcome is complete:
    together with the state and the action it leaves one state possible, and that is
    the one apply_action returns. */
module Outcomes {
  import opened Lists
  import opened Tiles
  import opened GameTypes
  import opened Legality
  import opened Scoring
  import opened Transition
  import opened Invariant

  // --- drawing ---

  /** A wall as a draw takes it apart: flowers, the first playable tile, the rest. */
  ghost predicate TakenApart(wall: seq<Tile>, aside: seq<Tile>, drawn: Option<Tile>, rest: seq<Tile>) {
    && (forall t :: t in aside ==> IsFlower(t))
    && match drawn
       case Some(t) => !IsFlower(t) && wall == aside + [t] + rest
       case None => rest == [] && wall == aside
  }

  /** u is s after `seat` has drawn: the flowers in front are its own, the playable tile
      is in its hand and it is on turn; without a playable tile the hand is a draw. */
  ghost predicate DrawsThese(s: State, seat: SeatIx, u: State, aside: seq<Tile>, drawn: Option<Tile>, rest: seq<Tile>) {
    var d, hand := s.seats[seat], u.seats[seat].concealed;
    match drawn
    case Some(t) =>
      && Sorted(hand) && multiset(hand) == multiset(d.concealed) + multiset{t}
      && u == s.(seats := s.seats[seat := d.(concealed := hand, flowers := d.flowers + aside)],
                 wall := rest, drawn := s.drawn + |aside| + 1,
                 phase := DiscardPhase, actor := seat, lastDrawn := Some(LastDrawn(seat, t)))
    case None =>
      u == s.(seats := s.seats[seat := d.(flowers := d.flowers + aside)],
              wall := [], drawn := s.drawn + |aside|, phase := TerminalPhase, lastDrawn := None,
              terminal := Some(Terminal(DrawnHand, None, None, None, None, [], 0, [0, 0, 0, 0])))
  }

  ghost predicate Draws(s: State, seat: SeatIx, u: State) {
    exists aside, drawn, rest :: TakenApart(s.wall, aside, drawn, rest) && DrawsThese(s, seat, u, aside, drawn, rest)
  }

  lemma TakesApart(wall: seq<Tile>)
    ensures var k := FirstLive(wall);
            if k < |wall| then TakenApart(wall, wall[..k], Some(wall[k]), wall[k + 1..])
            else TakenApart(wall, wall[..k], None, [])
  {
    hide FirstLive;
    hide IsFlower;
    var k := FirstLive(wall);
    FlowersInFront(wall, k);
    SplitsThere(wall, k);
  }

  lemma SplitsThere(wall: seq<Tile>, k: nat)
    requires k <= |wall|
    ensures wall == if k < |wall| then wall[..k] + [wall[k]] + wall[k + 1..] else wall[..k]
  {
  }

  lemma FlowersInFront(wall: seq<Tile>, k: nat)
    requires k <= |wall| && forall i :: 0 <= i < k ==> IsFlower(wall[i])
    ensures forall t :: t in wall[..k] ==> IsFlower(t)
  {
    forall t | t in wall[..k] ensures IsFlower(t) {
      var i :| 0 <= i < k && wall[..k][i] == t;
      assert wall[i] == t;
    }
  }

  lemma OneWayApart(wall: seq<Tile>, aside: seq<Tile>, drawn: Option<Tile>, rest: seq<Tile>)
    requires TakenApart(wall, aside, drawn, rest)
    ensures var k := FirstLive(wall);
            aside == wall[..k] && (if k < |wall| then drawn == Some(wall[k]) && rest == wall[k + 1..]
                                   else drawn == None && rest == [])
  {
    hide FirstLive;
    var k := FirstLive(wall);
    assert forall i :: 0 <= i < |aside| ==> IsFlower(aside[i]) && wall[i] == aside[i];
    if drawn.Some? {
      assert wall[|aside|] == drawn.value;
      assert k == |aside|;
      assert wall[k + 1..] == rest;
    } else {
      assert k == |wall|;
    }
  }

  lemma SortedIs(hand: seq<Tile>, from: seq<Tile>, t: Tile)
    ensures hand == Sort(from + [t]) <==> Sorted(hand) && multiset(hand) == multiset(from) + multiset{t}
  {
    assert multiset(from + [t]) == multiset(from) + multiset{t};
    if Sorted(hand) && multiset(hand) == multiset(from) + multiset{t} {
      SortIsTheOnlySort(from + [t], hand);
    }
    hide Sort;
  }

  /** internal_draw, completely. */
  lemma DrawOutcome(s: State, seat: SeatIx, u: State)
    ensures Draws(s, seat, u) <==> u == InternalDraw(s, seat)
  {
    hide FirstLive;
    hide Sort;
    hide TakenApart;
    var w, k := s.wall, FirstLive(s.wall);
    var drawn := if k < |w| then Some(w[k]) else None;
    var rest := if k < |w| then w[k + 1..] else [];
    forall aside, x, y | TakenApart(w, aside, x, y) ensures aside == w[..k] && x == drawn && y == rest {
      OneWayApart(w, aside, x, y);
    }
    TakesApart(w);
    assert TakenApart(w, w[..k], drawn, rest);
    DrawIs(s, seat, u);
    hide InternalDraw;
    hide DrawsThese;
  }

  lemma DrawIs(s: State, seat: SeatIx, u: State)
    ensures var w, k := s.wall, FirstLive(s.wall);
            DrawsThese(s, seat, u, w[..k], if k < |w| then Some(w[k]) else None, if k < |w| then w[k + 1..] else [])
            <==> u == InternalDraw(s, seat)
  {
    hide FirstLive;
    hide Sort;
    var w, k := s.wall, FirstLive(s.wall);
    if k < |w| {
      SortedIs(u.seats[seat].concealed, s.seats[seat].concealed, w[k]);
      if u == InternalDraw(s, seat) {
        assert u.seats[seat].concealed == Sort(s.seats[seat].concealed + [w[k]]);
      }
    } else {
      assert w[..k] == w;
    }
  }

  // --- discarding ---

  /** u is s with the tile taken from the seat's hand and laid on its pile. */
  ghost predicate Lays(s: State, seat: SeatIx, t: Tile, u: State) {
    var d, hand := s.seats[seat], u.seats[seat].concealed;
    && Sorted(hand) && multiset(hand) + multiset{t} == multiset(d.concealed)
    && u == s.(seats := s.seats[seat := d.(concealed := hand, discards := d.discards + [t])],
               turn := s.turn + 1, lastDiscard := Some(LastDiscard(t, seat, s.turn + 1)))
  }

  lemma RestIs(hand: seq<Tile>, from: seq<Tile>, t: Tile)
    requires Sorted(from) && t in from
    ensures hand == RemoveFirst(from, t) <==> Sorted(hand) && multiset(hand) + multiset{t} == multiset(from)
  {
    RemoveFirstSorted(from, t);
    hide RemoveFirst;
    if Sorted(hand) && multiset(hand) + multiset{t} == multiset(from) {
      RestOfHand(from, t, hand);
    }
  }

  lemma LaysOne(s: State, seat: SeatIx, t: Tile, u: State)
    requires Sorted(s.seats[seat].concealed) && t in s.seats[seat].concealed
    ensures Lays(s, seat, t, u) <==> u == Played(s, seat, t)
  {
    hide RemoveFirst;
    var d := s.seats[seat];
    RestIs(u.seats[seat].concealed, d.concealed, t);
    if u == Played(s, seat, t) {
      assert u.seats[seat].concealed == RemoveFirst(d.concealed, t);
    }
  }

  // --- the claims on a discard ---

  /** The entry that stands for an action in the list of pending claims. */
  predicate ClaimFor(c: Claim, a: Action) {
    match a
    case Peng(_) => c.kind == ClaimPeng && c.chiTiles == []
    case Gang(_, _) => c.kind == ClaimGang && c.chiTiles == []
    case Chi(tiles) => c.kind == ClaimChi && c.chiTiles == tiles
    case Hu => c.kind == ClaimHu && c.chiTiles == []
    case _ => false
  }

  function ClaimRank(kind: ClaimKind): nat {
    match kind
    case ClaimPeng => 1
    case ClaimGang => 2
    case ClaimChi => 4
    case ClaimHu => 5
  }

  /** Seats in ascending order; within a seat PENG, GANG, runs from the lowest up, HU. */
  predicate ClaimBefore(c: Claim, d: Claim) {
    || c.seat < d.seat
    || (c.seat == d.seat
        && (ClaimRank(c.kind) < ClaimRank(d.kind)
            || (c.kind == d.kind == ClaimChi && c.chiTiles != [] && d.chiTiles != [] && c.chiTiles[0] < d.chiTiles[0])))
  }

  ghost predicate ClaimsInOrder(cs: seq<Claim>) { forall j, k :: 0 <= j < k < |cs| ==> ClaimBefore(cs[j], cs[k]) }

  /** What a seat may do about the discard. */
  ghost predicate MayClaim(r: Rules, s: State, c: Claim) {
    exists a :: ClaimLegal(r, s, c.seat, a) && ClaimFor(c, a)
  }

  /** The list names, in order, each claim that some seat may make, and no other. */
  ghost predicate NamesClaims(r: Rules, s: State, cs: seq<Claim>) {
    ClaimsInOrder(cs) && forall c :: c in cs <==> MayClaim(r, s, c)
  }

  lemma {:induction false} SeatClaimsAre(seat: SeatIx, acts: seq<Action>, c: Claim)
    ensures c in SeatClaims(seat, acts) <==> c.seat == seat && exists a :: a in acts && ClaimFor(c, a)
  {
    if acts != [] {
      SeatClaimsAre(seat, acts[1..], c);
      var a := acts[0];
      assert acts == [a] + acts[1..];
      assert !a.Pass? && !a.Play? ==> (c == ClaimOf(seat, a) <==> c.seat == seat && ClaimFor(c, a));
      if c in SeatClaims(seat, acts) && c !in SeatClaims(seat, acts[1..]) {
        assert a in acts && ClaimFor(c, a);
      }
      if exists b :: b in acts[1..] && ClaimFor(c, b) {
        var b :| b in acts[1..] && ClaimFor(c, b);
        assert b in acts;
      }
    }
  }

  lemma ClaimsFollow(c: Claim, d: Claim, a: Action, b: Action)
    requires c.seat == d.seat && ClaimFor(c, a) && ClaimFor(d, b) && ListedBefore(a, b)
    requires (a.Gang? ==> a.kind == Exposed) && (b.Gang? ==> b.kind == Exposed)
    requires a.Gang? && b.Gang? ==> a.tile == b.tile
    ensures ClaimBefore(c, d)
  {
    hide Token;
  }

  /** In a window the only kong is an exposed one, of the discard. */
  ghost predicate WindowActions(acts: seq<Action>, t: Tile) {
    forall a :: a in acts && a.Gang? ==> a == Gang(t, Exposed)
  }

  lemma {:induction false} SeatClaimsInOrder(seat: SeatIx, acts: seq<Action>, t: Tile)
    requires ListedInOrder(acts) && WindowActions(acts, t)
    ensures ClaimsInOrder(SeatClaims(seat, acts))
  {
    hide ListedBefore;
    hide ClaimBefore;
    if acts != [] {
      var a, rest := acts[0], acts[1..];
      assert ListedInOrder(rest);
      SeatClaimsInOrder(seat, rest, t);
      if !a.Pass? && !a.Play? {
        var c := ClaimOf(seat, a);
        forall d | d in SeatClaims(seat, rest) ensures ClaimBefore(c, d) {
          SeatClaimsAre(seat, rest, d);
          var b :| b in rest && ClaimFor(d, b);
          assert b in acts && a in acts;
          assert ListedBefore(a, b) by {
            var k :| 0 <= k < |rest| && rest[k] == b;
            assert acts[k + 1] == b;
          }
          ClaimsFollow(c, d, a, b);
        }
      }
    }
  }

  lemma ClaimsConcat(a: seq<Claim>, b: seq<Claim>)
    requires ClaimsInOrder(a) && ClaimsInOrder(b) && forall c, d :: c in a && d in b ==> c.seat < d.seat
    ensures ClaimsInOrder(a + b)
  {
    forall j, k | 0 <= j < k < |a + b| ensures ClaimBefore((a + b)[j], (a + b)[k]) {
      if j < |a| <= k {
        assert a[j] in a && b[k - |a|] in b;
      }
    }
  }

  lemma SeatNamed(r: Rules, s: State, seat: SeatIx)
    requires s.lastDiscard.Some?
    ensures var cs := SeatClaims(seat, ClaimActions(r, s, seat));
            && ClaimsInOrder(cs)
            && (forall c :: c in cs ==> c.seat == seat)
            && forall c :: c in cs <==> c.seat == seat && MayClaim(r, s, c)
  {
    var acts := ClaimActions(r, s, seat);
    var cs := SeatClaims(seat, acts);
    forall a ensures a in acts <==> ClaimLegal(r, s, seat, a) {
      ClaimActionsMembers(r, s, seat, a);
    }
    ClaimActionsInOrder(r, s, seat);
    hide ClaimActions;
    assert WindowActions(acts, s.lastDiscard.value.tile);
    SeatClaimsInOrder(seat, acts, s.lastDiscard.value.tile);
    hide ClaimLegal;
    hide SeatClaims;
    forall c ensures c in cs <==> c.seat == seat && MayClaim(r, s, c) {
      SeatClaimsAre(seat, acts, c);
      if c in cs {
        var a :| a in acts && ClaimFor(c, a);
        assert ClaimLegal(r, s, c.seat, a);
      }
      if c.seat == seat && MayClaim(r, s, c) {
        var a :| ClaimLegal(r, s, c.seat, a) && ClaimFor(c, a);
        assert a in acts;
      }
    }
  }

  lemma OpenClaimsNamed(r: Rules, s: State)
    requires s.lastDiscard.Some?
    ensures NamesClaims(r, s, OpenClaims(r, s))
  {
    hide SeatClaims;
    hide ClaimActions;
    hide MayClaim;
    hide ClaimsInOrder;
    var a, b := SeatClaims(0, ClaimActions(r, s, 0)), SeatClaims(1, ClaimActions(r, s, 1));
    var c, d := SeatClaims(2, ClaimActions(r, s, 2)), SeatClaims(3, ClaimActions(r, s, 3));
    SeatNamed(r, s, 0);
    SeatNamed(r, s, 1);
    SeatNamed(r, s, 2);
    SeatNamed(r, s, 3);
    ClaimsConcat(a, b);
    ClaimsConcat(a + b, c);
    ClaimsConcat(a + b + c, d);
  }

  lemma LeastFirst(a: seq<Claim>, b: seq<Claim>)
    requires ClaimsInOrder(a) && ClaimsInOrder(b) && a != [] && forall c :: c in a <==> c in b
    ensures b != [] && a[0] == b[0]
    ensures forall c :: c in a[1..] <==> c in b[1..]
  {
    assert a[0] in b;
    assert b[0] in a;
    NeverBothWays(a[0], b[0]);
    hide ClaimBefore;
    var j :| 0 <= j < |a| && a[j] == b[0];
    var k :| 0 <= k < |b| && b[k] == a[0];
    HeadIsFirst(a, j);
    HeadIsFirst(b, k);
    forall c ensures c in a[1..] <==> c in a && c != a[0] {
      if c in a[1..] {
        var k :| 0 <= k < |a[1..]| && a[1..][k] == c;
        assert ClaimBefore(a[0], a[k + 1]);
        NeverBothWays(c, c);
      }
    }
    forall c ensures c in b[1..] <==> c in b && c != b[0] {
      if c in b[1..] {
        var k :| 0 <= k < |b[1..]| && b[1..][k] == c;
        assert ClaimBefore(b[0], b[k + 1]);
        NeverBothWays(c, c);
      }
    }
  }

  lemma HeadIsFirst(cs: seq<Claim>, k: nat)
    requires ClaimsInOrder(cs) && k < |cs|
    ensures cs[k] == cs[0] || ClaimBefore(cs[0], cs[k])
  {
    hide ClaimBefore;
  }

  lemma SomethingIn(cs: seq<Claim>)
    ensures cs == [] || exists c :: c in cs
  {
    if cs != [] {
      assert cs[0] in cs;
    }
  }

  lemma NeverBothWays(c: Claim, d: Claim)
    ensures !(ClaimBefore(c, d) && ClaimBefore(d, c))
  {
  }

  /** There is only one way to list some claims in order. */
  lemma {:induction false} OrderedOnce(a: seq<Claim>, b: seq<Claim>)
    requires ClaimsInOrder(a) && ClaimsInOrder(b) && forall c :: c in a <==> c in b
    ensures a == b
  {
    hide ClaimBefore;
    if a != [] {
      LeastFirst(a, b);
      OrderedOnce(a[1..], b[1..]);
      assert a == [a[0]] + a[1..] && b == [b[0]] + b[1..];
    } else {
      SomethingIn(b);
    }
  }

  /** The pending claims of a fresh window are determined by what the rules allow. */
  lemma ClaimsNamed(r: Rules, s: State, cs: seq<Claim>)
    requires s.lastDiscard.Some?
    ensures NamesClaims(r, s, cs) <==> cs == OpenClaims(r, s)
  {
    hide OpenClaims;
    hide MayClaim;
    hide ClaimsInOrder;
    OpenClaimsNamed(r, s);
    if NamesClaims(r, s, cs) {
      OrderedOnce(cs, OpenClaims(r, s));
    }
  }

  // --- a discard, completely ---

  /** Some other seat may do something about the discard. */
  ghost predicate Wanted(r: Rules, s: State) { exists i: SeatIx, a :: ClaimLegal(r, s, i, a) && !a.Pass? }

  /** A discard that anyone may claim opens a window on it, with every claim named;
      behind any other the seat after the discarder draws. */
  ghost predicate Moves(r: Rules, laid: State, seat: SeatIx, u: State) {
    if Wanted(r, laid) then
      u == laid.(claims := u.claims, phase := ClaimWindow, actor := (seat + 1) % 4) && NamesClaims(r, laid, u.claims)
    else
      Draws(laid.(lastDiscard := None, claims := []), (seat + 1) % 4, u)
  }

  ghost predicate PlayOutcome(r: Rules, s: State, seat: SeatIx, t: Tile, u: State) {
    exists laid :: Lays(s, seat, t, laid) && Moves(r, laid, seat, u)
  }

  lemma WantedIsNamed(r: Rules, s: State)
    requires s.lastDiscard.Some?
    ensures Wanted(r, s) <==> OpenClaims(r, s) != []
  {
    hide OpenClaims;
    OpenClaimsNamed(r, s);
    var cs := OpenClaims(r, s);
    if cs != [] {
      assert cs[0] in cs;
      assert MayClaim(r, s, cs[0]);
    }
    if Wanted(r, s) {
      var i: SeatIx, a :| ClaimLegal(r, s, i, a) && !a.Pass?;
      assert MayClaim(r, s, ClaimOf(i, a)) by {
        assert ClaimFor(ClaimOf(i, a), a);
      }
    }
  }

  lemma MovesOn(r: Rules, laid: State, u: State)
    requires laid.lastDiscard.Some?
    ensures Moves(r, laid, laid.lastDiscard.value.seat, u) <==> u == OpenWindowOrAdvance(r, laid)
  {
    hide OpenClaims;
    hide Wanted;
    hide NamesClaims;
    hide Draws;
    hide InternalDraw;
    WantedIsNamed(r, laid);
    if Wanted(r, laid) {
      ClaimsNamed(r, laid, u.claims);
    } else {
      DrawOutcome(laid.(lastDiscard := None, claims := []), Next(laid.lastDiscard.value.seat), u);
    }
  }

  lemma PlayIsComplete(r: Rules, s: State, seat: SeatIx, t: Tile, u: State)
    requires Inv(s) && s.phase == DiscardPhase && seat == s.actor && t in s.seats[seat].concealed
    ensures PlayOutcome(r, s, seat, t, u) <==> ApplyPlay(r, s, seat, t) == Ok(u)
  {
    assert Sorted(s.seats[seat].concealed) by { HandSorted(s, seat); }
    PlayKeeps(r, s, seat, t);
    hide Inv;
    hide ApplyPlay;
    hide OpenWindowOrAdvance;
    hide Moves;
    hide Lays;
    hide Played;
    forall laid ensures Lays(s, seat, t, laid) <==> laid == Played(s, seat, t) {
      LaysOne(s, seat, t, laid);
    }
    assert Played(s, seat, t).lastDiscard == Some(LastDiscard(t, seat, s.turn + 1)) by { PlayedDiscard(s, seat, t); }
    MovesOn(r, Played(s, seat, t), u);
  }

  lemma PlayedDiscard(s: State, seat: SeatIx, t: Tile)
    ensures Played(s, seat, t).lastDiscard == Some(LastDiscard(t, seat, s.turn + 1))
  {
  }

  lemma HandSorted(s: State, i: SeatIx)
    requires Inv(s)
    ensures Sorted(s.seats[i].concealed)
  {
    assert SeatOk(s.seats[i], i);
  }

  // --- passing ---

  /** The claims of the seats other than this one, in their order. */
  function OthersClaims(cs: seq<Claim>, seat: SeatIx): seq<Claim> {
    if cs == [] then []
    else
      var c := cs[|cs| - 1];
      OthersClaims(cs[..|cs| - 1], seat) + if c.seat == seat then [] else [c]
  }

  lemma {:induction false} OthersConcat(a: seq<Claim>, b: seq<Claim>, seat: SeatIx)
    ensures OthersClaims(a + b, seat) == OthersClaims(a, seat) + OthersClaims(b, seat)
    decreases |b|
  {
    if b == [] {
      assert a + b == a;
    } else {
      OthersConcat(a, b[..|b| - 1], seat);
      assert (a + b)[..|a + b| - 1] == a + b[..|b| - 1];
    }
  }

  lemma {:induction false} OthersAreLeft(cs: seq<Claim>, seat: SeatIx)
    ensures OthersClaims(cs, seat) == DropClaims(cs, seat)
  {
    if cs != [] {
      OthersAreLeft(cs[1..], seat);
      OthersConcat([cs[0]], cs[1..], seat);
      assert cs == [cs[0]] + cs[1..];
      assert OthersClaims([], seat) == [];
      assert OthersClaims([cs[0]], seat) == if cs[0].seat == seat then [] else [cs[0]];
    }
  }

  /** A PASS withdraws the seat's claims and nothing else. With nobody left to decide,
      the seat after the discarder draws; the turn counter stands still. */
  ghost predicate PassOutcome(s: State, seat: SeatIx, u: State)
    requires s.lastDiscard.Some?
  {
    var left := OthersClaims(s.claims, seat);
    if left != [] then u == s.(claims := left)
    else Draws(s.(lastDiscard := None, claims := []), (s.lastDiscard.value.seat + 1) % 4, u)
  }

  lemma PassIsComplete(s: State, seat: SeatIx, u: State)
    requires s.lastDiscard.Some?
    ensures PassOutcome(s, seat, u) <==> u == ApplyPass(s, seat)
  {
    hide Draws;
    hide InternalDraw;
    OthersAreLeft(s.claims, seat);
    DrawOutcome(s.(lastDiscard := None, claims := []), Next(s.lastDiscard.value.seat), u);
  }

  // --- melding a discard ---

  /** u is s with the discard taken into a meld: its other tiles leave the claimer's hand,
      it leaves the pile it was on, and the window is over. */
  ghost predicate TakesUp(s: State, seat: SeatIx, m: Meld, u: State)
    requires s.lastDiscard.Some?
  {
    var last := s.lastDiscard.value;
    var d, giver, hand := s.seats[seat], s.seats[last.seat], u.seats[seat].concealed;
    && giver.discards != []
    && Sorted(hand) && multiset(hand) + multiset(m.tiles) == multiset(d.concealed) + multiset{last.tile}
    && u == s.(seats := s.seats[seat := d.(concealed := hand, melds := d.melds + [m])]
                               [last.seat := giver.(discards := giver.discards[..|giver.discards| - 1])],
               lastDiscard := None, claims := [], turn := s.turn + 1)
  }

  lemma TakenUp(s: State, seat: SeatIx, m: Meld, rest: seq<Tile>, u: State)
    requires LastInPile(s) && seat != s.lastDiscard.value.seat && Sorted(rest)
    requires multiset(rest) + multiset(m.tiles) ==
             multiset(s.seats[seat].concealed) + multiset{s.lastDiscard.value.tile}
    ensures TakesUp(s, seat, m, u) <==> u == Consumed(s, seat, rest, m).(turn := s.turn + 1)
  {
    var hand := u.seats[seat].concealed;
    assert Consumed(s, seat, rest, m).seats[seat] == s.seats[seat].(concealed := rest, melds := s.seats[seat].melds + [m]);
    if TakesUp(s, seat, m, u) {
      Cancelled(multiset(hand), multiset(rest), multiset(m.tiles));
      SortedUnique(hand, rest);
    }
    hide Sorted;
  }

  lemma Cancelled(a: multiset<Tile>, b: multiset<Tile>, m: multiset<Tile>)
    requires a + m == b + m
    ensures a == b
  {
    forall t: Tile ensures a[t] == b[t] {
      assert (a + m)[t] == (b + m)[t];
    }
  }

  /** From the counts of each tile to the multisets. */
  lemma CountsAgree(rest: seq<Tile>, meld: seq<Tile>, hand: seq<Tile>, called: Tile)
    requires forall t: Tile :: Copies(rest, t) + Copies(meld, t) == Copies(hand, t) + if t == called then 1 else 0
    ensures multiset(rest) + multiset(meld) == multiset(hand) + multiset{called}
  {
    forall t: Tile
      ensures (multiset(rest) + multiset(meld))[t] == (multiset(hand) + multiset{called})[t]
    {
      assert Copies(rest, t) + Copies(meld, t) == Copies(hand, t) + if t == called then 1 else 0;
    }
  }

  /** A PENG: two tiles of the hand and the discard; the claimer, who draws nothing, is
      on turn. */
  ghost predicate PengOutcome(s: State, seat: SeatIx, t: Tile, u: State)
    requires s.lastDiscard.Some?
  {
    exists taken ::
      && TakesUp(s, seat, Meld(PengMeld, [t, t, t], Some(t), s.lastDiscard.value.seat), taken)
      && u == taken.(lastDrawn := None, phase := DiscardPhase, actor := seat)
  }

  ghost predicate ChiOutcome(s: State, seat: SeatIx, tiles: seq<Tile>, u: State)
    requires s.lastDiscard.Some?
  {
    exists taken ::
      && TakesUp(s, seat, Meld(ChiMeld, tiles, Some(s.lastDiscard.value.tile), s.lastDiscard.value.seat), taken)
      && u == taken.(lastDrawn := None, phase := DiscardPhase, actor := seat)
  }

  /** An exposed kong: three tiles of the hand and the discard, and a replacement. */
  ghost predicate ExposedKongOutcome(s: State, seat: SeatIx, t: Tile, u: State)
    requires s.lastDiscard.Some?
  {
    exists taken ::
      && TakesUp(s, seat, Meld(GangExposed, [t, t, t, t], Some(t), s.lastDiscard.value.seat), taken)
      && Draws(taken, seat, u)
  }

  /** Taking n tiles from a sorted hand, to go with the discard. */
  lemma SameTilesLeave(hand: seq<Tile>, t: Tile, n: nat)
    requires Sorted(hand) && NoFlowers(hand) && Copies(hand, t) >= n && 2 <= n <= 3
    ensures var rest := RemoveTimes(hand, t, n);
            var meld := if n == 2 then [t, t, t] else [t, t, t, t];
            Sorted(rest) && multiset(rest) + multiset(meld) == multiset(hand) + multiset{t}
  {
    hide RemoveTimes;
    NTimesInHand(hand, t, n);
    var rest := RemoveTimes(hand, t, n);
    var meld := if n == 2 then [t, t, t] else [t, t, t, t];
    forall x: Tile ensures Copies(rest, x) + Copies(meld, x) == Copies(hand, x) + if x == t then 1 else 0 {
      SameTilesCopies(t, x);
    }
    hide Sorted;
    CountsAgree(rest, meld, hand, t);
  }

  lemma PengIsComplete(s: State, seat: SeatIx, t: Tile, u: State)
    requires Inv(s) && s.phase == ClaimWindow && seat != s.lastDiscard.value.seat
    requires t == s.lastDiscard.value.tile && Copies(s.seats[seat].concealed, t) >= 2
    ensures PengOutcome(s, seat, t, u) <==> ApplyPeng(s, seat, t) == Ok(u)
  {
    hide RemoveTimes;
    assert LastInPile(s);
    InvSeat(s, seat);
    hide Inv;
    var d := s.seats[seat];
    var rest := RemoveTimes(d.concealed, t, 2);
    var m := Meld(PengMeld, [t, t, t], Some(t), s.lastDiscard.value.seat);
    SameTilesLeave(d.concealed, t, 2);
    hide Sorted;
    var taken := Consumed(s, seat, rest, m).(turn := s.turn + 1);
    assert ApplyPeng(s, seat, t) == Ok(taken.(lastDrawn := None, phase := DiscardPhase, actor := seat));
    hide ApplyPeng;
    forall v ensures TakesUp(s, seat, m, v) <==> v == taken {
      TakenUp(s, seat, m, rest, v);
    }
    hide TakesUp;
    hide Consumed;
  }

  lemma InvSeat(s: State, i: SeatIx)
    requires Inv(s)
    ensures Sorted(s.seats[i].concealed) && NoFlowers(s.seats[i].concealed)
  {
    assert SeatOk(s.seats[i], i);
  }

  lemma ChiIsComplete(s: State, seat: SeatIx, tiles: seq<Tile>, u: State)
    requires Inv(s) && s.phase == ClaimWindow && seat == Next(s.lastDiscard.value.seat)
    requires IsChi(s.seats[seat].concealed, s.lastDiscard.value.tile, tiles)
    ensures ChiOutcome(s, seat, tiles, u) <==> ApplyChi(s, seat, tiles) == Ok(u)
  {
    hide RemoveSupport;
    assert LastInPile(s);
    InvSeat(s, seat);
    hide Inv;
    var last := s.lastDiscard.value;
    var d := s.seats[seat];
    RunCopies(d.concealed, tiles, last.tile);
    var rest := RemoveSupport(d.concealed, tiles, last.tile).value;
    var m := Meld(ChiMeld, tiles, Some(last.tile), last.seat);
    hide IsChi;
    hide Sorted;
    CountsAgree(rest, tiles, d.concealed, last.tile);
    var taken := Consumed(s, seat, rest, m).(turn := s.turn + 1);
    assert ApplyChi(s, seat, tiles) == Ok(taken.(lastDrawn := None, phase := DiscardPhase, actor := seat));
    hide ApplyChi;
    forall v ensures TakesUp(s, seat, m, v) <==> v == taken {
      TakenUp(s, seat, m, rest, v);
    }
    hide TakesUp;
    hide Consumed;
  }

  lemma ExposedKongIsComplete(s: State, seat: SeatIx, t: Tile, u: State)
    requires Inv(s) && s.phase == ClaimWindow && seat != s.lastDiscard.value.seat
    requires t == s.lastDiscard.value.tile && Copies(s.seats[seat].concealed, t) >= 3
    ensures ExposedKongOutcome(s, seat, t, u) <==> ApplyGangExposed(s, seat, t) == Ok(u)
  {
    hide RemoveTimes;
    hide InternalDraw;
    hide Draws;
    assert LastInPile(s);
    InvSeat(s, seat);
    hide Inv;
    var d := s.seats[seat];
    var rest := RemoveTimes(d.concealed, t, 3);
    var m := Meld(GangExposed, [t, t, t, t], Some(t), s.lastDiscard.value.seat);
    SameTilesLeave(d.concealed, t, 3);
    hide Sorted;
    var taken := Consumed(s, seat, rest, m).(turn := s.turn + 1);
    assert ApplyGangExposed(s, seat, t) == Ok(InternalDraw(taken, seat));
    hide ApplyGangExposed;
    forall v ensures TakesUp(s, seat, m, v) <==> v == taken {
      TakenUp(s, seat, m, rest, v);
    }
    DrawOutcome(taken, seat, u);
    hide TakesUp;
    hide Consumed;
  }

  // --- kongs of the seat on turn ---

  /** u is s with these melds in place of the seat's own, and `gone` out of its hand. */
  ghost predicate SetsDown(s: State, seat: SeatIx, gone: multiset<Tile>, melds: seq<Meld>, u: State) {
    var d, hand := s.seats[seat], u.seats[seat].concealed;
    && Sorted(hand) && multiset(hand) + gone == multiset(d.concealed)
    && u == s.(seats := s.seats[seat := d.(concealed := hand, melds := melds)], turn := s.turn + 1)
  }

  /** A concealed kong: four tiles of the hand, and a replacement. */
  ghost predicate ConcealedKongOutcome(s: State, seat: SeatIx, t: Tile, u: State) {
    exists ready ::
      && SetsDown(s, seat, multiset{t, t, t, t},
                  s.seats[seat].melds + [Meld(GangConcealed, [t, t, t, t], None, seat)], ready)
      && Draws(ready, seat, u)
  }

  /** The seat's first PENG of a tile. */
  ghost predicate PengAt(melds: seq<Meld>, t: Tile, k: nat) {
    && k < |melds| && IsPengOf(melds[k], t)
    && forall j :: 0 <= j < k ==> !IsPengOf(melds[j], t)
  }

  /** An added kong: the fourth tile joins the seat's PENG, which keeps its place and
      where it came from, and a replacement is drawn. */
  ghost predicate AddedKongOutcome(s: State, seat: SeatIx, t: Tile, u: State) {
    var melds := s.seats[seat].melds;
    exists k: nat, ready ::
      && PengAt(melds, t, k)
      && SetsDown(s, seat, multiset{t}, melds[k := Meld(GangAdded, [t, t, t, t], melds[k].called, melds[k].from)],
                  ready)
      && Draws(ready, seat, u)
  }

  lemma SetDown(s: State, seat: SeatIx, gone: multiset<Tile>, melds: seq<Meld>, rest: seq<Tile>, u: State)
    requires Sorted(rest) && multiset(rest) + gone == multiset(s.seats[seat].concealed)
    ensures SetsDown(s, seat, gone, melds, u) <==> u == KongReady(s, seat, rest, melds)
  {
    var hand := u.seats[seat].concealed;
    assert KongReady(s, seat, rest, melds).seats[seat] == s.seats[seat].(concealed := rest, melds := melds);
    if SetsDown(s, seat, gone, melds, u) {
      Cancelled(multiset(hand), multiset(rest), gone);
      SortedUnique(hand, rest);
    }
    hide Sorted;
  }

  lemma FourLeave(hand: seq<Tile>, t: Tile)
    requires Sorted(hand) && NoFlowers(hand) && Copies(hand, t) == 4
    ensures var rest := RemoveTimes(hand, t, 4);
            Sorted(rest) && multiset(hand) == multiset(rest) + multiset{t, t, t, t}
  {
    hide RemoveTimes;
    NTimesInHand(hand, t, 4);
    var rest := RemoveTimes(hand, t, 4);
    hide Sorted;
    var kept: multiset<Tile>, gone: multiset<Tile> := multiset(rest), multiset{t, t, t, t};
    forall x: Tile ensures (kept + gone)[x] == Copies(hand, x) {
      assert Copies(rest, x) == Copies(hand, x) - if x == t then 4 else 0;
    }
  }

  lemma ConcealedKongIsComplete(s: State, seat: SeatIx, t: Tile, u: State)
    requires Inv(s) && Copies(s.seats[seat].concealed, t) == 4
    ensures ConcealedKongOutcome(s, seat, t, u) <==> ApplyGangConcealed(s, seat, t) == Ok(u)
  {
    hide RemoveTimes;
    hide InternalDraw;
    hide Draws;
    InvSeat(s, seat);
    hide Inv;
    var d := s.seats[seat];
    var rest := RemoveTimes(d.concealed, t, 4);
    var melds := d.melds + [Meld(GangConcealed, [t, t, t, t], None, seat)];
    FourLeave(d.concealed, t);
    hide Sorted;
    var ready := KongReady(s, seat, rest, melds);
    assert ApplyGangConcealed(s, seat, t) == Ok(InternalDraw(ready, seat));
    hide ApplyGangConcealed;
    var gone: multiset<Tile> := multiset{t, t, t, t};
    forall v ensures SetsDown(s, seat, gone, melds, v) <==> v == ready {
      SetDown(s, seat, gone, melds, rest, v);
    }
    DrawOutcome(ready, seat, u);
    hide SetsDown;
    hide KongReady;
  }

  lemma AddedKongIsComplete(s: State, seat: SeatIx, t: Tile, u: State)
    requires Inv(s) && t in s.seats[seat].concealed && HasPeng(s.seats[seat].melds, t)
    ensures AddedKongOutcome(s, seat, t, u) <==> ApplyGangAdded(s, seat, t) == Ok(u)
  {
    hide RemoveFirst;
    hide InternalDraw;
    hide Draws;
    InvSeat(s, seat);
    hide Inv;
    var d := s.seats[seat];
    var rest := RemoveFirst(d.concealed, t);
    RestIs(rest, d.concealed, t);
    hide Sorted;
    var k := FirstPeng(d.melds, t);
    hide FirstPeng;
    var melds := d.melds[k := Meld(GangAdded, [t, t, t, t], d.melds[k].called, d.melds[k].from)];
    assert PengAt(d.melds, t, k) && forall j :: PengAt(d.melds, t, j) ==> j == k;
    var ready := KongReady(s, seat, rest, melds);
    assert ApplyGangAdded(s, seat, t) == Ok(InternalDraw(ready, seat));
    hide ApplyGangAdded;
    var gone: multiset<Tile> := multiset{t};
    forall v ensures SetsDown(s, seat, gone, melds, v) <==> v == ready {
      SetDown(s, seat, gone, melds, rest, v);
    }
    DrawOutcome(ready, seat, u);
    hide SetsDown;
    hide KongReady;
    hide PengAt;
  }

  // --- wins ---

  function Values(fan: seq<FanEntry>): seq<int> { seq(|fan|, k requires 0 <= k < |fan| => fan[k].value) }

  /** u is s won with this hand and tile: what the calculator says of it, with the seat's
      own wind and its flowers counted, is settled by the conversion, and every seat's
      score moves by its part. No tile moves. */
  ghost predicate WonWith(r: Rules, s: State, seat: SeatIx, hand: seq<Tile>, t: Tile, winType: WinType,
                          dealIn: Option<SeatIx>, u: State)
  {
    var d := s.seats[seat];
    var fan := r.fan(FanQuery(hand, d.melds, t, winType, d.wind, s.roundWind, |d.flowers|));
    var total := Sum(Values(fan));
    var delta := ScoreDelta(seat, total, winType, dealIn, r.conversion);
    && delta.Ok?
    && (forall i: SeatIx :: u.seats[i] == s.seats[i].(score := s.seats[i].score + delta.value[i]))
    && u == s.(seats := u.seats, phase := TerminalPhase, lastDiscard := None, lastDrawn := None, claims := [],
               terminal := Some(Terminal(WonHand, Some(seat), Some(t), Some(winType), dealIn, fan, total, delta.value)))
  }

  /** A win on a discard takes the whole hand and the discard, and the discarder dealt in;
      a self-draw takes the drawn tile and the rest of the hand, and nobody did. */
  ghost predicate HuOutcome(r: Rules, s: State, seat: SeatIx, u: State) {
    match s.phase
    case ClaimWindow =>
      && s.lastDiscard.Some?
      && var last := s.lastDiscard.value;
         WonWith(r, s, seat, s.seats[seat].concealed, last.tile, FromDiscard, Some(last.seat), u)
    case _ =>
      && s.lastDrawn.Some?
      && var t := s.lastDrawn.value.tile;
         exists hand ::
           && Sorted(hand) && multiset(hand) + multiset{t} == multiset(s.seats[seat].concealed)
           && WonWith(r, s, seat, hand, t, SelfDraw, None, u)
  }

  lemma {:induction false} FanTotalIsSum(fan: seq<FanEntry>)
    ensures FanTotal(fan) == Sum(Values(fan))
  {
    if fan != [] {
      FanTotalIsSum(fan[1..]);
      assert Values(fan)[1..] == Values(fan[1..]);
      SumUnfolds(Values(fan));
    }
  }

  lemma WinIs(r: Rules, s: State, seat: SeatIx, hand: seq<Tile>, t: Tile, winType: WinType,
              dealIn: Option<SeatIx>, u: State)
    ensures var d := s.seats[seat];
            var q := FanQuery(hand, d.melds, t, winType, d.wind, s.roundWind, |d.flowers|);
            WonWith(r, s, seat, hand, t, winType, dealIn, u) <==> Win(r, s, seat, q, dealIn) == Ok(u)
  {
    hide ScoreDelta;
    var d := s.seats[seat];
    var q := FanQuery(hand, d.melds, t, winType, d.wind, s.roundWind, |d.flowers|);
    FanTotalIsSum(r.fan(q));
    hide FanTotal;
    hide Sum;
    hide Values;
    var delta := ScoreDelta(seat, FanTotal(r.fan(q)), winType, dealIn, r.conversion);
    if delta.Ok? {
      ScoresAdded(s.seats, delta.value, u.seats);
    }
    hide AddScores;
  }

  lemma ScoresAdded(seats: Seats, delta: seq<int>, after: Seats)
    requires |delta| == 4
    ensures after == AddScores(seats, delta) <==>
            forall i: SeatIx :: after[i] == seats[i].(score := seats[i].score + delta[i])
  {
    if forall i: SeatIx :: after[i] == seats[i].(score := seats[i].score + delta[i]) {
      forall k | 0 <= k < 4 ensures after[k] == AddScores(seats, delta)[k] {
        var i: SeatIx := k;
      }
    }
  }

  lemma HuIsComplete(r: Rules, s: State, seat: SeatIx, u: State)
    requires Inv(s) && Legal(r, s, seat, Hu)
    ensures HuOutcome(r, s, seat, u) <==> ApplyHu(r, s, seat) == Ok(u)
  {
    hide Win;
    hide WonWith;
    hide RemoveFirst;
    InvSeat(s, seat);
    hide Inv;
    var hand := s.seats[seat].concealed;
    if s.phase == ClaimWindow {
      var last := s.lastDiscard.value;
      WinIs(r, s, seat, hand, last.tile, FromDiscard, Some(last.seat), u);
    } else {
      var t := s.lastDrawn.value.tile;
      var rest := RemoveFirst(hand, t);
      RestIs(rest, hand, t);
      WinIs(r, s, seat, rest, t, SelfDraw, None, u);
      forall h | Sorted(h) && multiset(h) + multiset{t} == multiset(hand) ensures h == rest {
        RestIs(h, hand, t);
      }
      hide Sorted;
    }
  }

  // --- all actions ---

  ghost predicate Outcome(r: Rules, s: State, seat: SeatIx, a: Action, u: State) {
    match a
    case Play(t) => PlayOutcome(r, s, seat, t, u)
    case Pass => s.lastDiscard.Some? && PassOutcome(s, seat, u)
    case Peng(t) => s.lastDiscard.Some? && PengOutcome(s, seat, t, u)
    case Chi(tiles) => s.lastDiscard.Some? && ChiOutcome(s, seat, tiles, u)
    case Gang(t, Exposed) => s.lastDiscard.Some? && ExposedKongOutcome(s, seat, t, u)
    case Gang(t, Concealed) => ConcealedKongOutcome(s, seat, t, u)
    case Gang(t, Added) => AddedKongOutcome(s, seat, t, u)
    case Hu => HuOutcome(r, s, seat, u)
  }

  /** A legal action leads from a state of the invariant to the one state that is its
      outcome, and to no other. */
  lemma OutcomeIsComplete(r: Rules, s: State, seat: SeatIx, a: Action, u: State)
    requires Inv(s) && ValidRules(r) && Legal(r, s, seat, a)
    ensures Outcome(r, s, seat, a, u) <==> ApplyAction(r, s, seat, a) == Ok(u)
  {
    WindowHasDiscard(s);
    hide Inv;
    hide PlayOutcome;
    hide PassOutcome;
    hide PengOutcome;
    hide ChiOutcome;
    hide ExposedKongOutcome;
    hide ConcealedKongOutcome;
    hide AddedKongOutcome;
    hide HuOutcome;
    hide ApplyPlay;
    hide ApplyPass;
    hide ApplyPeng;
    hide ApplyChi;
    hide ApplyGangExposed;
    hide ApplyGangConcealed;
    hide ApplyGangAdded;
    hide ApplyHu;
    match a
    case Play(t) => PlayIsComplete(r, s, seat, t, u);
    case Pass => PassIsComplete(s, seat, u);
    case Peng(t) => PengIsComplete(s, seat, t, u);
    case Chi(tiles) => ChiIsComplete(s, seat, tiles, u);
    case Gang(t, Exposed) => ExposedKongIsComplete(s, seat, t, u);
    case Gang(t, Concealed) => ConcealedKongIsComplete(s, seat, t, u);
    case Gang(t, Added) => AddedKongIsComplete(s, seat, t, u);
    case Hu => HuIsComplete(r, s, seat, u);
  }

  lemma WindowHasDiscard(s: State)
    requires Inv(s)
    ensures s.phase == ClaimWindow ==> s.lastDiscard.Some?
  {
  }

  // --- whose turn it is ---

  /** Seat i has drawn, and nothing else has changed for it. */
  ghost predicate JustDrew(s: State, u: State, i: SeatIx) {
    && u.lastDrawn.Some? && u.lastDrawn.value.seat == i
    && Sorted(u.seats[i].concealed)
    && multiset(u.seats[i].concealed) == multiset(s.seats[i].concealed) + multiset{u.lastDrawn.value.tile}
    && u.seats[i] == s.seats[i].(concealed := u.seats[i].concealed, flowers := u.seats[i].flowers)
    && s.seats[i].flowers <= u.seats[i].flowers
  }

  /** The turn goes round the table: when a discard is not claimed, at once or after every
      claimer has passed, the seat behind the discarder draws and is on turn, whoever
      passed last. All other hands and flowers are as they were. */
  lemma TurnPassesOn(r: Rules, s: State, seat: SeatIx, a: Action, u: State)
    requires Inv(s) && ValidRules(r) && (a.Play? || a.Pass?)
    requires ApplyAction(r, s, seat, a) == Ok(u) && u.phase == DiscardPhase
    ensures a.Play? ==> u.actor == (seat + 1) % 4
    ensures a.Pass? ==> s.lastDiscard.Some? && u.actor == (s.lastDiscard.value.seat + 1) % 4
    ensures JustDrew(s, u, u.actor)
    ensures forall i: SeatIx :: i != u.actor && (a.Play? ==> i != seat) ==> u.seats[i] == s.seats[i]
    ensures a.Play? ==> u.seats[seat].flowers == s.seats[seat].flowers && u.seats[seat].melds == s.seats[seat].melds
  {
    OkIsLegal(r, s, seat, a);
    OutcomeIsComplete(r, s, seat, a, u);
    hide ApplyAction;
    hide Inv;
    hide PlayOutcome;
    hide PassOutcome;
    hide JustDrew;
    if a.Play? {
      PlayPassesTurn(r, s, seat, a.tile, u);
    } else {
      PassPassesTurn(s, seat, u);
    }
  }

  lemma PlayPassesTurn(r: Rules, s: State, seat: SeatIx, t: Tile, u: State)
    requires PlayOutcome(r, s, seat, t, u) && u.phase == DiscardPhase
    ensures u.actor == (seat + 1) % 4 && JustDrew(s, u, u.actor)
    ensures forall i: SeatIx :: i != u.actor && i != seat ==> u.seats[i] == s.seats[i]
    ensures u.seats[seat].flowers == s.seats[seat].flowers && u.seats[seat].melds == s.seats[seat].melds
  {
    hide Draws;
    hide Wanted;
    hide NamesClaims;
    hide Sorted;
    var laid :| Lays(s, seat, t, laid) && Moves(r, laid, seat, u);
    DrewAfter(laid.(lastDiscard := None, claims := []), (seat + 1) % 4, u);
  }

  lemma PassPassesTurn(s: State, seat: SeatIx, u: State)
    requires s.phase == ClaimWindow && s.lastDiscard.Some? && PassOutcome(s, seat, u) && u.phase == DiscardPhase
    ensures u.actor == (s.lastDiscard.value.seat + 1) % 4 && JustDrew(s, u, u.actor)
    ensures forall i: SeatIx :: i != u.actor ==> u.seats[i] == s.seats[i]
  {
    hide Draws;
    hide Sorted;
    DrewAfter(s.(lastDiscard := None, claims := []), (s.lastDiscard.value.seat + 1) % 4, u);
  }

  lemma DrewAfter(s: State, seat: SeatIx, u: State)
    requires Draws(s, seat, u) && u.phase == DiscardPhase
    ensures u.actor == seat && JustDrew(s, u, seat)
    ensures forall i: SeatIx :: i != seat ==> u.seats[i] == s.seats[i]
  {
    hide TakenApart;
  }

  lemma OkIsLegal(r: Rules, s: State, seat: SeatIx, a: Action)
    requires ApplyAction(r, s, seat, a).Ok?
    ensures Legal(r, s, seat, a)
  {
    hide Legal;
  }
}
