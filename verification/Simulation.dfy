/** The client, fed only with the events its viewer may see, tracks the server's
    projection of the hand: a simulation between two independently written step
    functions, for every seat and for the public. */
module Simulation {
  import opened Lists
  import opened Tiles
  import opened GameTypes
  import opened Legality
  import opened Scoring
  import opened Transition
  import opened Invariant
  import opened Deal
  import opened Records
  import opened Manager
  import opened Safety
  import opened Replay
  import opened Views
  import opened DrawView
  import Client

  // --- the board both sides agree on ---

  /** Everything of a seat but its flowers. */
  ghost predicate SeatMatches(c: SeatView, d: SeatData, own: bool) {
    && c.wind == d.wind
    && c.hand == ShowHand(d.concealed, own)
    && c.melds == ShowMelds(d.melds, own)
    && c.discards == d.discards
    && c.score == d.score
  }

  ghost predicate SeatsMatch(c: View, s: State, viewer: Viewer) {
    forall i: SeatIx :: SeatMatches(c.seats[i], s.seats[i], viewer == Some(i))
  }

  function FlowersServer(s: State): nat {
    |s.seats[0].flowers| + |s.seats[1].flowers| + |s.seats[2].flowers| + |s.seats[3].flowers|
  }

  function FlowersClient(c: View): nat {
    |c.seats[0].flowers| + |c.seats[1].flowers| + |c.seats[2].flowers| + |c.seats[3].flowers|
  }

  /** Flowers drawn after the deal are not announced: the client's wall counts are
      off by exactly the flowers the server has added since. */
  ghost predicate WallMatches(c: View, s: State) {
    && FlowersServer(s) >= FlowersClient(c)
    && c.wallDrawn == s.drawn - (FlowersServer(s) - FlowersClient(c))
    && c.wallRemaining == |s.wall| + (FlowersServer(s) - FlowersClient(c))
  }

  ghost predicate Board(c: View, s: State, viewer: Viewer) { SeatsMatch(c, s, viewer) && WallMatches(c, s) }

  /** The simulation relation. */
  ghost predicate Tracks(c: View, s: State, viewer: Viewer) {
    && Board(c, s, viewer)
    && c.phase == s.phase && c.turn == s.turn
    && (s.phase == ClaimWindow ==> c.lastDiscard == s.lastDiscard)
    && (s.phase == DiscardPhase ==> c.actor == s.actor)
    && (s.phase == TerminalPhase ==> c.terminal == Project(s, viewer).terminal)
  }

  // --- single changes ---

  lemma SetSeatMatches(c: View, s: State, viewer: Viewer, i: SeatIx, x: SeatView, d: SeatData)
    requires SeatsMatch(c, s, viewer) && SeatMatches(x, d, viewer == Some(i))
    ensures SeatsMatch(Client.SetSeat(c, i, x), WithSeat(s, i, d), viewer)
  {
    hide SeatMatches;
    var c', s' := Client.SetSeat(c, i, x), WithSeat(s, i, d);
    forall j: SeatIx ensures SeatMatches(c'.seats[j], s'.seats[j], viewer == Some(j)) {
      assert SeatMatches(c.seats[j], s.seats[j], viewer == Some(j));
    }
  }

  lemma FlowersKept(c: View, s: State, i: SeatIx, x: SeatView, d: SeatData)
    requires x.flowers == c.seats[i].flowers && d.flowers == s.seats[i].flowers
    ensures FlowersClient(Client.SetSeat(c, i, x)) == FlowersClient(c)
    ensures FlowersServer(WithSeat(s, i, d)) == FlowersServer(s)
  {
  }

  /** Replacing one seat on both sides, flowers untouched, keeps the board. */
  lemma SetSeatBoard(c: View, s: State, viewer: Viewer, i: SeatIx, x: SeatView, d: SeatData)
    requires Board(c, s, viewer) && SeatMatches(x, d, viewer == Some(i))
    requires x.flowers == c.seats[i].flowers && d.flowers == s.seats[i].flowers
    ensures Board(Client.SetSeat(c, i, x), WithSeat(s, i, d), viewer)
  {
    hide SeatMatches;
    hide SeatsMatch;
    SetSeatMatches(c, s, viewer, i, x, d);
    FlowersKept(c, s, i, x, d);
    hide FlowersClient;
    hide FlowersServer;
  }

  /** The board speaks of the seats and the wall only. */
  lemma BoardElsewhere(c: View, s: State, c': View, s': State, viewer: Viewer)
    requires Board(c, s, viewer)
    requires c'.seats == c.seats && c'.wallDrawn == c.wallDrawn && c'.wallRemaining == c.wallRemaining
    requires s'.seats == s.seats && s'.drawn == s.drawn && s'.wall == s.wall
    ensures Board(c', s', viewer)
  {
    hide SeatMatches;
    forall i: SeatIx ensures SeatMatches(c'.seats[i], s'.seats[i], viewer == Some(i)) {
      assert SeatMatches(c.seats[i], s.seats[i], viewer == Some(i));
    }
  }

  // --- hands ---

  lemma HandRemoved(hand: seq<Tile>, own: bool, t: Tile, n: nat)
    requires Copies(hand, t) >= n
    ensures Client.RemoveFromHand(ShowHand(hand, own), Some(t), n) == ShowHand(RemoveTimes(hand, t, n), own)
    ensures !own ==> Client.RemoveFromHand(ShowHand(hand, own), None, n) == ShowHand(RemoveTimes(hand, t, n), own)
  {
    hide RemoveTimes;
    RemoveTimesLength(hand, t, n);
  }

  lemma RemoveOnce(hand: seq<Tile>, t: Tile)
    ensures RemoveTimes(hand, t, 1) == RemoveFirst(hand, t)
  {
    hide RemoveFirst;
    assert RemoveTimes(RemoveFirst(hand, t), t, 0) == RemoveFirst(hand, t);
  }

  lemma HandGrown(hand: seq<Tile>, own: bool, t: Tile)
    ensures Client.AddToHand(ShowHand(hand, own), if own then Some(t) else None) == ShowHand(Sort(hand + [t]), own)
  {
  }

  /** The client skips one occurrence of the called tile, the server all of them;
      on a run, whose tiles differ, that is the same. */
  lemma {:induction false} SupportDropped(hand: seq<Tile>, run: seq<Tile>, called: Tile, removed: bool)
    requires RemoveSupport(hand, run, called).Some?
    requires forall i, j :: 0 <= i < j < |run| ==> run[i] != run[j]
    requires removed ==> called !in run
    ensures Client.DropSupport(hand, run, called, removed) == RemoveSupport(hand, run, called).value
    decreases |run|
  {
    hide RemoveFirst;
    if run != [] {
      if run[0] == called {
        assert called !in run[1..];
        SupportDropped(hand, run[1..], called, true);
      } else {
        SupportDropped(RemoveFirst(hand, run[0]), run[1..], called, removed);
      }
    }
  }

  lemma ChiHand(hand: seq<Tile>, own: bool, run: seq<Tile>, called: Tile)
    requires IsChi(hand, called, run) && Sorted(hand) && NoFlowers(hand)
    ensures RemoveSupport(hand, run, called).Some?
    ensures Client.RemoveChiSupport(ShowHand(hand, own), run, called)
         == ShowHand(RemoveSupport(hand, run, called).value, own)
  {
    hide RemoveSupport;
    hide Client.DropSupport;
    RunCopies(hand, run, called);
    assert |run| == 3 && run[0] < run[1] < run[2];
    SupportDropped(hand, run, called, false);
  }

  // --- melds ---

  lemma MeldShown(melds: seq<Meld>, m: Meld, own: bool)
    ensures ShowMelds(melds + [m], own) == ShowMelds(melds, own) + [ShowMeld(m, own)]
  {
  }

  lemma {:induction false} PengShown(melds: seq<Meld>, own: bool, t: Tile)
    requires HasPeng(melds, t)
    ensures Client.FindShownPeng(ShowMelds(melds, own), t) == Some(FirstPeng(melds, t))
  {
    var shown := ShowMelds(melds, own);
    assert Client.IsShownPeng(shown[0], t) <==> IsPengOf(melds[0], t);
    if !IsPengOf(melds[0], t) {
      assert HasPeng(melds[1..], t) by {
        var k :| 0 <= k < |melds| && IsPengOf(melds[k], t);
        assert melds[1..][k - 1] == melds[k];
      }
      PengShown(melds[1..], own, t);
      assert ShowMelds(melds[1..], own) == shown[1..];
      assert FirstPeng(melds, t) == 1 + FirstPeng(melds[1..], t);
    }
  }

  lemma PromotionShown(melds: seq<Meld>, own: bool, t: Tile, owner: SeatIx)
    requires HasPeng(melds, t) && forall k :: 0 <= k < |melds| ==> MeldOk(melds[k], owner)
    ensures Client.Upgrade(ShowMelds(melds, own), t) == ShowMelds(Promote(melds, t), own)
  {
    PengShown(melds, own, t);
    var k := FirstPeng(melds, t);
    assert MeldOk(melds[k], owner);
  }

  lemma PulledDiscard(pile: seq<Tile>)
    requires pile != []
    ensures RemoveLast(pile, pile[|pile| - 1]) == pile[..|pile| - 1]
  {
  }

  // --- draws and endings ---

  /** The state after a draw as it is announced: by a DRAW or by HAND_END. */
  function DrawAnnounced(after: State): Event
    requires EndRecorded(after)
  {
    if after.phase == TerminalPhase then HandEnd(after) else Drawn(after)
  }

  lemma DrawFlowers(s: State, seat: SeatIx)
    ensures FlowersServer(InternalDraw(s, seat)) == FlowersServer(s) + FirstLive(s.wall)
    ensures InternalDraw(s, seat).drawn == s.drawn + |s.wall| - |InternalDraw(s, seat).wall|
    ensures |s.wall| - |InternalDraw(s, seat).wall| ==
            if FirstLive(s.wall) == |s.wall| then |s.wall| else FirstLive(s.wall) + 1
  {
  }

  lemma LiveDrawTracked(c: View, s: State, viewer: Viewer, seat: SeatIx)
    requires Board(c, s, viewer) && FirstLive(s.wall) < |s.wall|
    ensures Tracks(Client.ApplyEvent(c, ProjectEvent(Drawn(InternalDraw(s, seat)), viewer)), InternalDraw(s, seat), viewer)
  {
    hide FirstLive;
    hide Sort;
    var after := InternalDraw(s, seat);
    var own := viewer == Some(seat);
    var t := s.wall[FirstLive(s.wall)];
    var e := ProjectEvent(Drawn(after), viewer);
    assert e == DrawEvent(after.turn, DiscardPhase, seat, if own then Some(t) else None, []);
    var x := c.seats[seat];
    assert SeatMatches(x, s.seats[seat], own);
    HandGrown(s.seats[seat].concealed, own, t);
    var c' := Client.ApplyEvent(c, e);
    var x' := x.(hand := Client.AddToHand(x.hand, if own then Some(t) else None), flowers := x.flowers + []);
    assert c'.seats == Client.SetSeat(c, seat, x').seats;
    SetSeatMatches(c, s, viewer, seat, x', after.seats[seat]);
    assert SeatsMatch(c', after, viewer) by {
      SeatsMatchElsewhere(Client.SetSeat(c, seat, x'), WithSeat(s, seat, after.seats[seat]), c', after, viewer);
    }
    DrawFlowers(s, seat);
    assert FlowersClient(c') == FlowersClient(c) by { assert x.flowers + [] == x.flowers; }
    hide FlowersServer;
    hide FlowersClient;
  }

  lemma SeatsMatchElsewhere(c: View, s: State, c': View, s': State, viewer: Viewer)
    requires SeatsMatch(c, s, viewer) && c'.seats == c.seats && s'.seats == s.seats
    ensures SeatsMatch(c', s', viewer)
  {
    hide SeatMatches;
    forall i: SeatIx ensures SeatMatches(c'.seats[i], s'.seats[i], viewer == Some(i)) {
      assert SeatMatches(c.seats[i], s.seats[i], viewer == Some(i));
    }
  }

  lemma ScoresMatch(c: FourViews, seats: Seats, delta: seq<int>, i: SeatIx, own: bool)
    requires |delta| == 4 && SeatMatches(c[i], seats[i], own)
    ensures SeatMatches(Client.ScoredViews(c, delta)[i], AddScores(seats, delta)[i], own)
    ensures Client.ScoredViews(c, delta)[i].flowers == c[i].flowers
    ensures AddScores(seats, delta)[i].flowers == seats[i].flowers
  {
  }

  lemma ScoredBoard(c: View, s: State, delta: seq<int>, c': View, after: State, viewer: Viewer)
    requires Board(c, s, viewer) && |delta| == 4
    requires c'.seats == Client.ScoredViews(c.seats, delta)
    requires c'.wallDrawn == c.wallDrawn && c'.wallRemaining == c.wallRemaining
    requires after.seats == AddScores(s.seats, delta) && after.drawn == s.drawn && after.wall == s.wall
    ensures Board(c', after, viewer)
  {
    hide SeatMatches;
    hide AddScores;
    hide Client.ScoredViews;
    forall i: SeatIx
      ensures SeatMatches(c'.seats[i], after.seats[i], viewer == Some(i))
      ensures c'.seats[i].flowers == c.seats[i].flowers && after.seats[i].flowers == s.seats[i].flowers
    {
      assert SeatMatches(c.seats[i], s.seats[i], viewer == Some(i));
      ScoresMatch(c.seats, s.seats, delta, i, viewer == Some(i));
    }
  }

  /** HAND_END carries the terminal record and moves the scores. */
  lemma HandEndTracked(c: View, s: State, delta: seq<int>, after: State, viewer: Viewer)
    requires Board(c, s, viewer) && |delta| == 4
    requires after.phase == TerminalPhase && after.terminal.Some? && after.terminal.value.delta == delta
    requires after.seats == AddScores(s.seats, delta) && after.drawn == s.drawn && after.wall == s.wall
    ensures Tracks(Client.ApplyEvent(c, ProjectEvent(HandEnd(after), viewer)), after, viewer)
  {
    hide FinalHands;
    hide Board;
    hide AddScores;
    hide Client.ScoredViews;
    var c' := Client.ApplyEvent(c, ProjectEvent(HandEnd(after), viewer));
    ScoredBoard(c, s, delta, c', after, viewer);
    assert c'.terminal == Project(after, viewer).terminal;
  }

  lemma NoScores(seats: Seats)
    ensures AddScores(seats, [0, 0, 0, 0]) == seats
  {
  }

  lemma ExhaustedBoard(c: View, s: State, viewer: Viewer, seat: SeatIx)
    requires Board(c, s, viewer) && FirstLive(s.wall) == |s.wall|
    ensures Board(c, InternalDraw(s, seat), viewer)
  {
    hide FirstLive;
    var after := InternalDraw(s, seat);
    forall i: SeatIx ensures SeatMatches(c.seats[i], after.seats[i], viewer == Some(i)) {
      assert SeatMatches(c.seats[i], s.seats[i], viewer == Some(i));
    }
    DrawFlowers(s, seat);
    hide FlowersServer;
    hide FlowersClient;
  }

  /** Any draw, live or exhausting, is followed from its one event. */
  lemma DrawTracked(c: View, s: State, viewer: Viewer, seat: SeatIx)
    requires Board(c, s, viewer)
    ensures EndRecorded(InternalDraw(s, seat))
    ensures Tracks(Client.ApplyEvent(c, ProjectEvent(DrawAnnounced(InternalDraw(s, seat)), viewer)),
                   InternalDraw(s, seat), viewer)
  {
    hide Board;
    hide FirstLive;
    var after := InternalDraw(s, seat);
    if FirstLive(s.wall) == |s.wall| {
      ExhaustedBoard(c, s, viewer, seat);
      NoScores(after.seats);
      HandEndTracked(c, after, [0, 0, 0, 0], after, viewer);
    } else {
      LiveDrawTracked(c, s, viewer, seat);
    }
  }

  /** The one event a draw puts into the record. */
  lemma DrawEvents(before: State, s: State, seat: SeatIx)
    requires s.drawn == before.drawn
    ensures var after := InternalDraw(s, seat);
            && EndRecorded(after) && after.phase != ClaimWindow
            && (DrewTile(before, after) <==> after.phase == DiscardPhase)
  {
    hide FirstLive;
    hide Sort;
  }

  // --- own-turn actions ---

  lemma DiscardTracked(c: View, s: State, viewer: Viewer, seat: SeatIx, t: Tile, after: State)
    requires Board(c, s, viewer) && t in s.seats[seat].concealed && after.turn == s.turn + 1
    ensures var c' := Client.ApplyEvent(c, ProjectEvent(Discarded(s, after, seat, t), viewer));
            && Board(c', Played(s, seat, t), viewer)
            && c'.lastDiscard == Played(s, seat, t).lastDiscard
  {
    hide RemoveFirst;
    hide RemoveTimes;
    var own := viewer == Some(seat);
    var d, x := s.seats[seat], c.seats[seat];
    assert SeatMatches(x, d, own);
    HandRemoved(d.concealed, own, t, 1);
    RemoveOnce(d.concealed, t);
    var x' := x.(hand := Client.RemoveFromHand(x.hand, Some(t), 1), discards := x.discards + [t]);
    var d' := d.(concealed := RemoveFirst(d.concealed, t), discards := d.discards + [t]);
    hide Board;
    SetSeatBoard(c, s, viewer, seat, x', d');
    var c' := Client.ApplyEvent(c, ProjectEvent(Discarded(s, after, seat, t), viewer));
    BoardElsewhere(Client.SetSeat(c, seat, x'), WithSeat(s, seat, d'), c', Played(s, seat, t), viewer);
  }

  lemma FollowOne(c: View, e: Event, viewer: Viewer)
    ensures Client.Follow(c, [e], viewer) == Client.ApplyEvent(c, ProjectEvent(e, viewer))
  {
    hide Client.ApplyEvent;
    hide ProjectEvent;
    assert [e][1..] == [];
    assert Client.Follow(Client.ApplyEvent(c, ProjectEvent(e, viewer)), [], viewer)
        == Client.ApplyEvent(c, ProjectEvent(e, viewer));
  }

  lemma {:induction false} FollowConcat(c: View, a: seq<Event>, b: seq<Event>, viewer: Viewer)
    ensures Client.Follow(c, a + b, viewer) == Client.Follow(Client.Follow(c, a, viewer), b, viewer)
    decreases |a|
  {
    hide Client.ApplyEvent;
    hide ProjectEvent;
    if a == [] {
      assert a + b == b;
    } else {
      assert (a + b)[0] == a[0] && (a + b)[1..] == a[1..] + b;
      FollowConcat(Client.ApplyEvent(c, ProjectEvent(a[0], viewer)), a[1..], b, viewer);
    }
  }

  lemma FollowTwo(c: View, e: Event, f: Event, viewer: Viewer)
    ensures Client.Follow(c, [e, f], viewer)
         == Client.ApplyEvent(Client.ApplyEvent(c, ProjectEvent(e, viewer)), ProjectEvent(f, viewer))
  {
    hide Client.ApplyEvent;
    hide ProjectEvent;
    FollowOne(c, e, viewer);
    FollowOne(Client.ApplyEvent(c, ProjectEvent(e, viewer)), f, viewer);
    FollowConcat(c, [e], [f], viewer);
    assert [e] + [f] == [e, f];
  }

  /** A discard that opens a claim window. */
  lemma WindowFollowed(r: Rules, c: View, s: State, viewer: Viewer, seat: SeatIx, t: Tile, after: State)
    requires Board(c, s, viewer) && t in s.seats[seat].concealed
    requires after == OpenWindowOrAdvance(r, Played(s, seat, t)) && after.phase == ClaimWindow
    ensures Tracks(Client.Follow(c, [Discarded(s, after, seat, t), WindowOpened(r, after)], viewer), after, viewer)
  {
    hide Board;
    hide RemoveFirst;
    hide OpenClaims;
    hide InternalDraw;
    hide Client.ApplyEvent;
    hide WindowOpened;
    hide ProjectEvent;
    hide Client.Follow;
    var played := Played(s, seat, t);
    var closed := played.(lastDiscard := None, claims := []);
    DrawEvents(s, closed, Next(seat));
    var first, e := Discarded(s, after, seat, t), WindowOpened(r, after);
    DiscardTracked(c, s, viewer, seat, t, after);
    hide Discarded;
    var c' := Client.ApplyEvent(c, ProjectEvent(first, viewer));
    FollowTwo(c, first, e, viewer);
    WindowStamp(r, c', after, viewer);
    BoardElsewhere(c', played, Client.Stamp(c', after.turn, after.phase), after, viewer);
  }

  /** A discard nobody can claim: the next seat draws. */
  lemma UnclaimedFollowed(c: View, s: State, viewer: Viewer, seat: SeatIx, t: Tile, after: State)
    requires Board(c, s, viewer) && t in s.seats[seat].concealed
    requires after == InternalDraw(Played(s, seat, t).(lastDiscard := None, claims := []), Next(seat))
    ensures EndRecorded(after)
    ensures Tracks(Client.Follow(c, [Discarded(s, after, seat, t), DrawAnnounced(after)], viewer), after, viewer)
  {
    hide Board;
    hide RemoveFirst;
    hide InternalDraw;
    hide Client.ApplyEvent;
    hide ProjectEvent;
    hide Client.Follow;
    hide Tracks;
    var played := Played(s, seat, t);
    var closed := played.(lastDiscard := None, claims := []);
    AdvanceTurn(closed, Next(seat));
    var first := Discarded(s, after, seat, t);
    DiscardTracked(c, s, viewer, seat, t, after);
    hide Discarded;
    var c' := Client.ApplyEvent(c, ProjectEvent(first, viewer));
    BoardElsewhere(c', played, c', closed, viewer);
    DrawTracked(c', closed, viewer, Next(seat));
    FollowTwo(c, first, DrawAnnounced(after), viewer);
  }

  lemma PlayFollowed(r: Rules, c: View, s: State, viewer: Viewer, seat: SeatIx, t: Tile)
    requires Board(c, s, viewer) && t in s.seats[seat].concealed
    ensures var after := OpenWindowOrAdvance(r, Played(s, seat, t));
            && EndRecorded(after)
            && Tracks(Client.Follow(c, DiffToEvents(r, s, seat, Play(t), after), viewer), after, viewer)
  {
    hide Board;
    hide RemoveFirst;
    hide OpenClaims;
    hide InternalDraw;
    hide Tracks;
    hide Client.Follow;
    hide WindowOpened;
    hide Discarded;
    hide Drawn;
    hide HandEnd;
    var played := Played(s, seat, t);
    var after := OpenWindowOrAdvance(r, played);
    var closed := played.(lastDiscard := None, claims := []);
    DrawEvents(s, closed, Next(seat));
    if after.phase == ClaimWindow {
      WindowFollowed(r, c, s, viewer, seat, t, after);
      assert DiffToEvents(r, s, seat, Play(t), after) == [Discarded(s, after, seat, t), WindowOpened(r, after)];
    } else {
      UnclaimedFollowed(c, s, viewer, seat, t, after);
      assert DiffToEvents(r, s, seat, Play(t), after) == [Discarded(s, after, seat, t), DrawAnnounced(after)];
    }
  }

  lemma AdvanceTurn(s: State, seat: SeatIx)
    ensures InternalDraw(s, seat).turn == s.turn
  {
  }

  lemma WindowStamp(r: Rules, c: View, after: State, viewer: Viewer)
    ensures Client.ApplyEvent(c, ProjectEvent(WindowOpened(r, after), viewer)) == Client.Stamp(c, after.turn, after.phase)
  {
    hide ClaimActions;
    hide Opportunities;
    hide OpportunitiesOf;
  }

  /** A concealed kong: its owner shows four tiles, everyone else four backs. */
  lemma ConcealedKongSeen(c: View, s: State, viewer: Viewer, seat: SeatIx, t: Tile, after: State)
    requires Board(c, s, viewer) && Copies(s.seats[seat].concealed, t) >= 4
    ensures var d := s.seats[seat];
            var melds := d.melds + [Meld(GangConcealed, [t, t, t, t], None, seat)];
            Board(Client.ApplyEvent(c, ProjectEvent(Decision(after, seat, Gang(t, Concealed)), viewer)),
                  KongReady(s, seat, RemoveTimes(d.concealed, t, 4), melds), viewer)
  {
    hide RemoveTimes;
    var own := viewer == Some(seat);
    var d, x := s.seats[seat], c.seats[seat];
    assert SeatMatches(x, d, own);
    HandRemoved(d.concealed, own, t, 4);
    var m := Meld(GangConcealed, [t, t, t, t], None, seat);
    MeldShown(d.melds, m, own);
    var seen := if own then Some(t) else None;
    var x' := x.(hand := Client.RemoveFromHand(x.hand, seen, 4), melds := x.melds + [ShowMeld(m, own)]);
    var d' := d.(concealed := RemoveTimes(d.concealed, t, 4), melds := d.melds + [m]);
    hide Board;
    SetSeatBoard(c, s, viewer, seat, x', d');
    var c' := Client.ApplyEvent(c, ProjectEvent(Decision(after, seat, Gang(t, Concealed)), viewer));
    BoardElsewhere(Client.SetSeat(c, seat, x'), WithSeat(s, seat, d'), c',
                   KongReady(s, seat, d'.concealed, d'.melds), viewer);
  }

  /** An added kong is public; the triplet it grows from keeps its provenance. */
  lemma AddedKongSeen(c: View, s: State, viewer: Viewer, seat: SeatIx, t: Tile, after: State)
    requires Board(c, s, viewer) && SeatOk(s.seats[seat], seat)
    requires t in s.seats[seat].concealed && HasPeng(s.seats[seat].melds, t)
    ensures var d := s.seats[seat];
            Board(Client.ApplyEvent(c, ProjectEvent(Decision(after, seat, Gang(t, Added)), viewer)),
                  KongReady(s, seat, RemoveFirst(d.concealed, t), Promote(d.melds, t)), viewer)
  {
    hide RemoveTimes;
    hide RemoveFirst;
    hide Promote;
    hide Client.Upgrade;
    hide MeldOk;
    var own := viewer == Some(seat);
    var d, x := s.seats[seat], c.seats[seat];
    assert SeatMatches(x, d, own);
    HandRemoved(d.concealed, own, t, 1);
    RemoveOnce(d.concealed, t);
    PromotionShown(d.melds, own, t, seat);
    var x' := x.(hand := Client.RemoveFromHand(x.hand, Some(t), 1), melds := Client.Upgrade(x.melds, t));
    var d' := d.(concealed := RemoveFirst(d.concealed, t), melds := Promote(d.melds, t));
    hide Board;
    SetSeatBoard(c, s, viewer, seat, x', d');
    var c' := Client.ApplyEvent(c, ProjectEvent(Decision(after, seat, Gang(t, Added)), viewer));
    BoardElsewhere(Client.SetSeat(c, seat, x'), WithSeat(s, seat, d'), c',
                   KongReady(s, seat, d'.concealed, d'.melds), viewer);
  }

  /** After a kong is on the board, its replacement draw. */
  lemma KongFollowed(r: Rules, c: View, s: State, viewer: Viewer, seat: SeatIx, t: Tile, kind: GangKind, ready: State)
    requires kind != Exposed && ready.drawn == s.drawn
    requires var after := InternalDraw(ready, seat);
             Board(Client.ApplyEvent(c, ProjectEvent(Decision(after, seat, Gang(t, kind)), viewer)), ready, viewer)
    ensures var after := InternalDraw(ready, seat);
            && EndRecorded(after)
            && Tracks(Client.Follow(c, DiffToEvents(r, s, seat, Gang(t, kind), after), viewer), after, viewer)
  {
    hide Board;
    hide InternalDraw;
    hide Tracks;
    hide Client.Follow;
    hide Client.ApplyEvent;
    hide ProjectEvent;
    hide Decision;
    hide Drawn;
    hide HandEnd;
    var after := InternalDraw(ready, seat);
    var first := Decision(after, seat, Gang(t, kind));
    DrawEvents(s, ready, seat);
    DrawTracked(Client.ApplyEvent(c, ProjectEvent(first, viewer)), ready, viewer, seat);
    FollowTwo(c, first, DrawAnnounced(after), viewer);
    assert DiffToEvents(r, s, seat, Gang(t, kind), after) == [first, DrawAnnounced(after)];
  }

  lemma WinFollowed(r: Rules, c: View, s: State, viewer: Viewer, seat: SeatIx, after: State)
    requires Board(c, s, viewer) && ApplyHu(r, s, seat) == Ok(after)
    ensures after.phase == TerminalPhase && after.terminal.Some?
    ensures Tracks(Client.ApplyEvent(c, ProjectEvent(HandEnd(after), viewer)), after, viewer)
  {
    hide Board;
    hide RemoveFirst;
    hide ScoreDelta;
    hide AddScores;
    hide Client.ApplyEvent;
    hide ProjectEvent;
    hide HandEnd;
    hide Tracks;
    HandEndTracked(c, s, after.terminal.value.delta, after, viewer);
  }

  /** On a seat's own turn: a play, a kong or a win. */
  lemma OwnTurnFollowed(r: Rules, c: View, s: State, viewer: Viewer, seat: SeatIx, a: Action)
    requires Board(c, s, viewer) && Inv(s) && ValidRules(r) && s.phase == DiscardPhase && Legal(r, s, seat, a)
    ensures Apply(r, s, seat, a).Ok?
    ensures var (after, events) := Apply(r, s, seat, a).value;
            Tracks(Client.Follow(c, events, viewer), after, viewer)
  {
    hide Board;
    hide Tracks;
    hide Client.Follow;
    LegalApplies(r, s, seat, a);
    OwnTurnActions(r, s, seat, a);
    var after := ApplyAction(r, s, seat, a).value;
    match a {
      case Play(t) =>
        PlayKeeps(r, s, seat, t);
        hide DiffToEvents;
        PlayFollowed(r, c, s, viewer, seat, t);
      case Gang(t, kind) =>
        KongCase(r, c, s, viewer, seat, t, kind, after);
      case Hu =>
        WinFollowed(r, c, s, viewer, seat, after);
        FollowOne(c, HandEnd(after), viewer);
    }
  }

  lemma KongCase(r: Rules, c: View, s: State, viewer: Viewer, seat: SeatIx, t: Tile, kind: GangKind, after: State)
    requires Board(c, s, viewer) && Inv(s) && s.phase == DiscardPhase && kind != Exposed
    requires Legal(r, s, seat, Gang(t, kind)) && ApplyAction(r, s, seat, Gang(t, kind)) == Ok(after)
    ensures EndRecorded(after)
    ensures Tracks(Client.Follow(c, DiffToEvents(r, s, seat, Gang(t, kind), after), viewer), after, viewer)
  {
    hide Board;
    hide Tracks;
    hide Client.Follow;
    hide DiffToEvents;
    hide InternalDraw;
    hide RemoveTimes;
    hide RemoveFirst;
    hide Promote;
    hide Client.ApplyEvent;
    hide ProjectEvent;
    var d := s.seats[seat];
    assert SeatOk(d, seat);
    hide SeatOk;
    hide Inv;
    if kind == Concealed {
      var melds := d.melds + [Meld(GangConcealed, [t, t, t, t], None, seat)];
      var ready := KongReady(s, seat, RemoveTimes(d.concealed, t, 4), melds);
      assert after == InternalDraw(ready, seat);
      ConcealedKongSeen(c, s, viewer, seat, t, after);
      KongFollowed(r, c, s, viewer, seat, t, kind, ready);
    } else {
      var ready := KongReady(s, seat, RemoveFirst(d.concealed, t), Promote(d.melds, t));
      assert after == InternalDraw(ready, seat);
      AddedKongSeen(c, s, viewer, seat, t, after);
      KongFollowed(r, c, s, viewer, seat, t, kind, ready);
    }
  }

  // --- claims ---

  /** The claimer's seat and the discarder's pile change together on both sides. */
  lemma ClaimBoard(c: View, s: State, viewer: Viewer, w: SeatIx, x: SeatView, hand: seq<Tile>, m: Meld, c': View)
    requires Board(c, s, viewer) && LastInPile(s) && w != s.lastDiscard.value.seat
    requires SeatMatches(x, s.seats[w].(concealed := hand, melds := s.seats[w].melds + [m]), viewer == Some(w))
    requires x.flowers == c.seats[w].flowers
    requires var from := s.lastDiscard.value.seat;
             var y := c.seats[from].(discards := RemoveLast(c.seats[from].discards, s.lastDiscard.value.tile));
             c'.seats == c.seats[w := x][from := y]
    requires c'.wallDrawn == c.wallDrawn && c'.wallRemaining == c.wallRemaining
    ensures Board(c', Consumed(s, w, hand, m), viewer)
  {
    var last := s.lastDiscard.value;
    var d, g := s.seats[w], s.seats[last.seat];
    assert SeatMatches(c.seats[last.seat], g, viewer == Some(last.seat));
    PulledDiscard(g.discards);
    var y := c.seats[last.seat].(discards := RemoveLast(c.seats[last.seat].discards, last.tile));
    var d' := d.(concealed := hand, melds := d.melds + [m]);
    var g' := g.(discards := g.discards[..|g.discards| - 1]);
    assert SeatMatches(y, g', viewer == Some(last.seat));
    hide SeatMatches;
    hide Board;
    hide RemoveLast;
    SetSeatBoard(c, s, viewer, w, x, d');
    var c1, s1 := Client.SetSeat(c, w, x), WithSeat(s, w, d');
    assert c1.seats[last.seat] == c.seats[last.seat] && s1.seats[last.seat] == g;
    SetSeatBoard(c1, s1, viewer, last.seat, y, g');
    BoardElsewhere(Client.SetSeat(c1, last.seat, y), WithSeat(s1, last.seat, g'), c', Consumed(s, w, hand, m), viewer);
  }

  function CalledMeld(t: Tile, kong: bool, from: SeatIx): Meld {
    if kong then Meld(GangExposed, [t, t, t, t], Some(t), from) else Meld(PengMeld, [t, t, t], Some(t), from)
  }

  function CallAction(t: Tile, kong: bool): Action { if kong then Gang(t, Exposed) else Peng(t) }

  /** What the client does on the resolution of a triplet or an exposed kong. */
  lemma ClientCalls(c: View, viewer: Viewer, w: SeatIx, t: Tile, kong: bool, after: State, from: SeatIx)
    requires c.lastDiscard.Some? && c.lastDiscard.value.seat == from && w != from
    ensures var c' := Client.ApplyEvent(c, ProjectEvent(Claimed(after, w, CallAction(t, kong)), viewer));
            var m := CalledMeld(t, kong, from);
            var x := c.seats[w].(hand := Client.RemoveFromHand(c.seats[w].hand, Some(t), if kong then 3 else 2),
                                 melds := c.seats[w].melds + [Shown(m.kind, m.tiles, m.called, m.from)]);
            var y := c.seats[from].(discards := RemoveLast(c.seats[from].discards, t));
            && c'.seats == c.seats[w := x][from := y]
            && c'.wallDrawn == c.wallDrawn && c'.wallRemaining == c.wallRemaining
            && c'.phase == after.phase && c'.turn == after.turn && c'.actor == w
  {
    hide RemoveLast;
    hide Client.RemoveFromHand;
  }

  /** A won triplet or exposed kong. */
  lemma PengSeen(c: View, s: State, viewer: Viewer, w: SeatIx, t: Tile, kong: bool, after: State)
    requires Board(c, s, viewer) && LastInPile(s) && w != s.lastDiscard.value.seat
    requires c.lastDiscard == s.lastDiscard && t == s.lastDiscard.value.tile
    requires Copies(s.seats[w].concealed, t) >= if kong then 3 else 2
    ensures var m := CalledMeld(t, kong, s.lastDiscard.value.seat);
            var c' := Client.ApplyEvent(c, ProjectEvent(Claimed(after, w, CallAction(t, kong)), viewer));
            && Board(c', Consumed(s, w, RemoveTimes(s.seats[w].concealed, t, if kong then 3 else 2), m), viewer)
            && c'.phase == after.phase && c'.turn == after.turn && c'.actor == w
  {
    hide RemoveTimes;
    hide RemoveLast;
    hide Client.RemoveFromHand;
    hide Client.ApplyEvent;
    hide ProjectEvent;
    hide Claimed;
    var own := viewer == Some(w);
    var d, x := s.seats[w], c.seats[w];
    var from := s.lastDiscard.value.seat;
    assert SeatMatches(x, d, own);
    var n := if kong then 3 else 2;
    HandRemoved(d.concealed, own, t, n);
    var m := CalledMeld(t, kong, from);
    MeldShown(d.melds, m, own);
    ClientCalls(c, viewer, w, t, kong, after, from);
    var x' := x.(hand := Client.RemoveFromHand(x.hand, Some(t), n), melds := x.melds + [ShowMeld(m, own)]);
    hide Board;
    ClaimBoard(c, s, viewer, w, x', RemoveTimes(d.concealed, t, n), m,
               Client.ApplyEvent(c, ProjectEvent(Claimed(after, w, CallAction(t, kong)), viewer)));
  }

  /** A won run. */
  lemma ChiSeen(c: View, s: State, viewer: Viewer, w: SeatIx, run: seq<Tile>, after: State)
    requires Board(c, s, viewer) && LastInPile(s) && w != s.lastDiscard.value.seat
    requires c.lastDiscard == s.lastDiscard && IsChi(s.seats[w].concealed, s.lastDiscard.value.tile, run)
    requires Sorted(s.seats[w].concealed) && NoFlowers(s.seats[w].concealed)
    ensures RemoveSupport(s.seats[w].concealed, run, s.lastDiscard.value.tile).Some?
    ensures var last := s.lastDiscard.value;
            var hand := RemoveSupport(s.seats[w].concealed, run, last.tile).value;
            var c' := Client.ApplyEvent(c, ProjectEvent(Claimed(after, w, Chi(run)), viewer));
            && Board(c', Consumed(s, w, hand, Meld(ChiMeld, run, Some(last.tile), last.seat)), viewer)
            && c'.phase == after.phase && c'.turn == after.turn && c'.actor == w
  {
    hide RemoveSupport;
    hide RemoveLast;
    hide Client.DropSupport;
    var own := viewer == Some(w);
    var d, x := s.seats[w], c.seats[w];
    var last := s.lastDiscard.value;
    assert SeatMatches(x, d, own);
    ChiHand(d.concealed, own, run, last.tile);
    hide IsChi;
    var hand := RemoveSupport(d.concealed, run, last.tile).value;
    var m := Meld(ChiMeld, run, Some(last.tile), last.seat);
    MeldShown(d.melds, m, own);
    var x' := x.(hand := ShowHand(hand, own), melds := x.melds + [ShowMeld(m, own)]);
    hide Board;
    var c' := Client.ApplyEvent(c, ProjectEvent(Claimed(after, w, Chi(run)), viewer));
    var y := c.seats[last.seat].(discards := RemoveLast(c.seats[last.seat].discards, last.tile));
    assert c'.seats == c.seats[w := x'][last.seat := y];
    ClaimBoard(c, s, viewer, w, x', hand, m, c');
  }

  lemma HandedOver(c: View, u: State, viewer: Viewer, w: SeatIx)
    requires Board(c, u, viewer) && c.phase == DiscardPhase && c.turn == u.turn + 1 && c.actor == w
    ensures Tracks(c, HandToClaimer(u, w), viewer)
  {
    BoardElsewhere(c, u, c, HandToClaimer(u, w), viewer);
    hide Board;
  }

  /** A won PENG or CHI: the resolution is the whole story. */
  lemma PengFollowed(r: Rules, c: View, s: State, viewer: Viewer, w: SeatIx, t: Tile, after: State)
    requires Tracks(c, s, viewer) && Inv(s) && s.phase == ClaimWindow
    requires Legal(r, s, w, Peng(t)) && ApplyAction(r, s, w, Peng(t)) == Ok(after)
    ensures Tracks(Client.ApplyEvent(c, ProjectEvent(Claimed(after, w, Peng(t)), viewer)), after, viewer)
  {
    hide Board;
    hide RemoveTimes;
    WindowPile(s);
    hide Inv;
    PengSeen(c, s, viewer, w, t, false, after);
    hide Client.ApplyEvent;
    hide ProjectEvent;
    var u := Consumed(s, w, RemoveTimes(s.seats[w].concealed, t, 2), Meld(PengMeld, [t, t, t], Some(t), s.lastDiscard.value.seat));
    assert after == HandToClaimer(u, w);
    HandedOver(Client.ApplyEvent(c, ProjectEvent(Claimed(after, w, Peng(t)), viewer)), u, viewer, w);
  }

  lemma ChiFollowed(r: Rules, c: View, s: State, viewer: Viewer, w: SeatIx, run: seq<Tile>, after: State)
    requires Tracks(c, s, viewer) && Inv(s) && s.phase == ClaimWindow
    requires Legal(r, s, w, Chi(run)) && ApplyAction(r, s, w, Chi(run)) == Ok(after)
    ensures Tracks(Client.ApplyEvent(c, ProjectEvent(Claimed(after, w, Chi(run)), viewer)), after, viewer)
  {
    hide Board;
    hide RemoveSupport;
    WindowPile(s);
    InvHand(s, w);
    hide Inv;
    ChiSeen(c, s, viewer, w, run, after);
    hide Client.ApplyEvent;
    hide ProjectEvent;
    var last := s.lastDiscard.value;
    var u := Consumed(s, w, RemoveSupport(s.seats[w].concealed, run, last.tile).value,
                      Meld(ChiMeld, run, Some(last.tile), last.seat));
    assert after == HandToClaimer(u, w);
    HandedOver(Client.ApplyEvent(c, ProjectEvent(Claimed(after, w, Chi(run)), viewer)), u, viewer, w);
  }

  /** A won exposed kong: the resolution, then the replacement draw. */
  lemma ExposedKongFollowed(r: Rules, c: View, s: State, viewer: Viewer, w: SeatIx, t: Tile, after: State)
    requires Tracks(c, s, viewer) && Inv(s) && s.phase == ClaimWindow
    requires Legal(r, s, w, Gang(t, Exposed)) && ApplyAction(r, s, w, Gang(t, Exposed)) == Ok(after)
    ensures EndRecorded(after)
    ensures Tracks(Client.Follow(c, WithoutDecision(DiffToEvents(r, s, w, Gang(t, Exposed), after)), viewer), after, viewer)
  {
    hide Board;
    hide RemoveTimes;
    hide InternalDraw;
    WindowPile(s);
    hide Inv;
    PengSeen(c, s, viewer, w, t, true, after);
    hide Tracks;
    hide Client.ApplyEvent;
    hide Client.Follow;
    hide ProjectEvent;
    hide Drawn;
    hide HandEnd;
    var u := Consumed(s, w, RemoveTimes(s.seats[w].concealed, t, 3),
                      Meld(GangExposed, [t, t, t, t], Some(t), s.lastDiscard.value.seat));
    var ready := u.(turn := s.turn + 1);
    assert after == InternalDraw(ready, w);
    hide ApplyAction;
    hide Legal;
    DrawEvents(s, ready, w);
    var e := Claimed(after, w, Gang(t, Exposed));
    var c' := Client.ApplyEvent(c, ProjectEvent(e, viewer));
    BoardElsewhere(c', u, c', ready, viewer);
    DrawTracked(c', ready, viewer, w);
    FollowTwo(c, e, DrawAnnounced(after), viewer);
    ExposedKongEvents(r, s, w, t, after);
  }

  lemma ExposedKongEvents(r: Rules, s: State, w: SeatIx, t: Tile, after: State)
    requires EndRecorded(after) && after.phase != ClaimWindow && (DrewTile(s, after) <==> after.phase == DiscardPhase)
    ensures WithoutDecision(DiffToEvents(r, s, w, Gang(t, Exposed), after))
         == [Claimed(after, w, Gang(t, Exposed)), DrawAnnounced(after)]
  {
    hide Drawn;
    hide HandEnd;
    var first := Decision(after, w, Gang(t, Exposed));
    assert first.DecisionEvent?;
    var rest := [Claimed(after, w, Gang(t, Exposed)), DrawAnnounced(after)];
    assert DiffToEvents(r, s, w, Gang(t, Exposed), after) == [first] + rest;
    assert ([first] + rest)[1..] == rest;
  }

  /** Whichever claim wins, what the manager adds for the winner is followed. */
  lemma WinnerFollowed(r: Rules, c: View, s: State, viewer: Viewer, w: SeatIx, a: Action)
    requires Tracks(c, s, viewer) && Inv(s) && ValidRules(r) && s.phase == ClaimWindow
    requires Legal(r, s, w, a) && !a.Pass?
    ensures Apply(r, s, w, a).Ok?
    ensures var (after, events) := Apply(r, s, w, a).value;
            Tracks(Client.Follow(c, WithoutDecision(events), viewer), after, viewer)
  {
    hide Board;
    hide Client.Follow;
    LegalApplies(r, s, w, a);
    ClaimActionKinds(r, s, w, a);
    var after := ApplyAction(r, s, w, a).value;
    match a {
      case Peng(t) =>
        PengFollowed(r, c, s, viewer, w, t, after);
        FollowOne(c, Claimed(after, w, a), viewer);
        PairEvents(r, s, w, a, after);
      case Chi(run) =>
        ChiFollowed(r, c, s, viewer, w, run, after);
        FollowOne(c, Claimed(after, w, a), viewer);
        PairEvents(r, s, w, a, after);
      case Gang(t, kind) =>
        ExposedKongFollowed(r, c, s, viewer, w, t, after);
      case Hu =>
        WinFollowed(r, c, s, viewer, w, after);
        FollowOne(c, HandEnd(after), viewer);
        RonEvent(r, s, w, after);
    }
  }

  lemma PairEvents(r: Rules, s: State, w: SeatIx, a: Action, after: State)
    requires (a.Peng? || a.Chi?) && EndRecorded(after)
    ensures WithoutDecision(DiffToEvents(r, s, w, a, after)) == [Claimed(after, w, a)]
  {
  }

  lemma RonEvent(r: Rules, s: State, w: SeatIx, after: State)
    requires EndRecorded(after) && after.terminal.Some?
    ensures WithoutDecision(DiffToEvents(r, s, w, Hu, after)) == [HandEnd(after)]
  {
  }

  // --- windows ---

  /** A decision is informational: the view already shows its turn and phase. */
  lemma DecisionUnseen(r: Rules, c: View, s: State, viewer: Viewer, seat: SeatIx, a: Action)
    requires c.turn == s.turn && c.phase == s.phase && !OwnTurnKong(Decision(s, seat, a))
    ensures Client.ApplyEvent(c, ProjectEvent(Decision(s, seat, a), viewer)) == c
  {
  }

  lemma {:induction false} DecisionsUnseen(r: Rules, c: View, s: State, viewer: Viewer, claimers: seq<SeatIx>,
                                           choices: FourChoices, auto: FourFlags)
    requires c.turn == s.turn && c.phase == s.phase && s.phase == ClaimWindow && AllLegal(r, s, claimers, choices)
    ensures Client.Follow(c, Events(DecisionLog(s, claimers, choices, auto)), viewer) == c
    decreases |claimers|
  {
    hide Legal;
    hide Decision;
    hide Client.ApplyEvent;
    hide ProjectEvent;
    if claimers == [] {
      assert Events([]) == [];
    } else {
      var seat := claimers[0];
      var d := Decision(s, seat, choices[seat].action);
      var head := [Logged(d, choices[seat].failure, auto[seat])];
      var rest := DecisionLog(s, claimers[1..], choices, auto);
      ClaimIsNoOwnKong(r, s, seat, choices[seat].action);
      DecisionUnseen(r, c, s, viewer, seat, choices[seat].action);
      DecisionsUnseen(r, c, s, viewer, claimers[1..], choices, auto);
      EventsConcat(head, rest);
      assert Events(head) == [d];
      FollowOne(c, d, viewer);
      FollowConcat(c, [d], Events(rest), viewer);
    }
  }

  /** The last PASS of a window: the decision, the resolution and the next draw. */
  lemma LastPassFollowed(r: Rules, c: View, s: State, viewer: Viewer, seat: SeatIx, after: State)
    requires Board(c, s, viewer) && s.phase == ClaimWindow && s.lastDiscard.Some?
    requires after == Advance(s.(claims := []))
    ensures EndRecorded(after)
    ensures Tracks(Client.Follow(c, DiffToEvents(r, s, seat, Pass, after), viewer), after, viewer)
  {
    hide InternalDraw;
    hide Tracks;
    hide Drawn;
    hide HandEnd;
    var closed := s.(lastDiscard := None, claims := []);
    var next := Next(s.lastDiscard.value.seat);
    assert after == InternalDraw(closed, next);
    DrawEvents(s, closed, next);
    var d, p := Decision(after, seat, Pass), PassedEvent(after.turn, after.phase);
    var c1 := Client.ApplyEvent(c, ProjectEvent(d, viewer));
    var c2 := Client.ApplyEvent(c1, ProjectEvent(p, viewer));
    BoardElsewhere(c, s, c2, closed, viewer);
    hide Board;
    hide Client.ApplyEvent;
    hide ProjectEvent;
    hide Decision;
    DrawTracked(c2, closed, viewer, next);
    FollowTwo(c, d, p, viewer);
    FollowOne(c2, DrawAnnounced(after), viewer);
    FollowConcat(c, [d, p], [DrawAnnounced(after)], viewer);
    assert DiffToEvents(r, s, seat, Pass, after) == [d, p] + [DrawAnnounced(after)];
  }

  /** A PASS that leaves the window open shows nothing new. */
  lemma OpenPassFollowed(r: Rules, c: View, s: State, viewer: Viewer, seat: SeatIx, after: State)
    requires Tracks(c, s, viewer) && s.phase == ClaimWindow && after == s.(claims := DropClaims(s.claims, seat))
    ensures Client.Follow(c, DiffToEvents(r, s, seat, Pass, after), viewer) == c
    ensures Tracks(c, after, viewer)
  {
    hide Board;
    hide DropClaims;
    BoardElsewhere(c, s, c, after, viewer);
    var d := Decision(after, seat, Pass);
    FollowOne(c, d, viewer);
    DecisionUnseen(r, c, after, viewer, seat, Pass);
    assert DiffToEvents(r, s, seat, Pass, after) == [d];
  }

  /** The first PASS of an all-pass window, as the client sees it. */
  lemma FirstPassFollowed(r: Rules, c: View, s: State, viewer: Viewer, claimers: seq<SeatIx>)
    requires Tracks(c, s, viewer) && Inv(s) && s.phase == ClaimWindow && ValidRules(r)
    requires claimers != [] && Ascending(claimers)
    requires forall i: SeatIx :: i in claimers <==> Claims(s.claims, i)
    ensures Apply(r, s, claimers[0], Pass).Ok?
    ensures var (after, events) := Apply(r, s, claimers[0], Pass).value;
            && Inv(after) && (after.phase == ClaimWindow <==> |claimers| > 1)
            && (|claimers| > 1 ==> forall i: SeatIx :: i in claimers[1..] <==> Claims(after.claims, i))
            && Tracks(Client.Follow(c, events, viewer), after, viewer)
  {
    var seat := claimers[0];
    assert Claims(s.claims, seat);
    PassIsLegal(r, s, seat);
    LegalApplies(r, s, seat, Pass);
    WindowPile(s);
    OnePass(s, claimers);
    AdvanceLeaves(s.(claims := []));
    hide Inv;
    hide Claims;
    hide Legal;
    hide ApplyAction;
    hide Advance;
    hide Client.Follow;
    hide DropClaims;
    hide ApplyPass;
    hide DiffToEvents;
    var after := ApplyPass(s, seat);
    if |claimers| > 1 {
      OpenPassFollowed(r, c, s, viewer, seat, after);
    } else {
      LastPassFollowed(r, c, s, viewer, seat, after);
    }
  }

  lemma {:induction false} AllPassFollowed(r: Rules, c: View, s: State, viewer: Viewer, claimers: seq<SeatIx>,
                                           choices: FourChoices, auto: FourFlags)
    requires Tracks(c, s, viewer) && Inv(s) && s.phase == ClaimWindow && ValidRules(r)
    requires claimers != [] && Ascending(claimers)
    requires forall i: SeatIx :: i in claimers <==> Claims(s.claims, i)
    requires forall i: SeatIx :: i in claimers ==> choices[i].action == Pass
    ensures var p := ApplyAllPass(r, s, claimers, choices, auto);
            p.Ok? ==> Tracks(Client.Follow(c, Events(p.value.log), viewer), p.value.state, viewer)
    decreases |claimers|
  {
    hide Inv;
    hide Claims;
    hide Mark;
    hide Events;
    hide Tracks;
    hide Apply;
    hide ApplyAllPass;
    hide ApplyPass;
    hide Client.Follow;
    var seat := claimers[0];
    assert seat in claimers;
    PassOneApplied(r, s, claimers, choices, auto);
    FirstPassFollowed(r, c, s, viewer, claimers);
    var (after, events) := Apply(r, s, seat, Pass).value;
    var marked := Mark(events, choices[seat].failure, auto[seat]);
    EventsOfMark(events, choices[seat].failure, auto[seat]);
    var rest := claimers[1..];
    var p := ApplyAllPass(r, after, rest, choices, auto);
    if |claimers| > 1 {
      forall i: SeatIx | i in rest ensures choices[i].action == Pass {
        assert i in claimers;
      }
      var c' := Client.Follow(c, events, viewer);
      AllPassFollowed(r, c', after, viewer, rest, choices, auto);
      if p.Ok? {
        EventsConcat(marked, p.value.log);
        FollowConcat(c, events, Events(p.value.log), viewer);
      }
    } else {
      assert rest == [];
      NobodyPasses(r, after, choices, auto);
      assert marked + [] == marked;
    }
  }

  lemma ContestFollowed(r: Rules, c: View, s: State, viewer: Viewer, claimers: seq<SeatIx>,
                        choices: FourChoices, auto: FourFlags)
    requires Tracks(c, s, viewer) && Inv(s) && s.phase == ClaimWindow && ValidRules(r) && Ascending(claimers)
    requires AllLegal(r, s, claimers, choices) && ResolveClaimPriority(claimers, choices).Some?
    ensures var p := ResolveWindow(r, s, claimers, choices, auto);
            p.Ok? ==> Tracks(Client.Follow(c, Events(p.value.log), viewer), p.value.state, viewer)
  {
    assert c.turn == s.turn && c.phase == s.phase;
    hide Inv;
    hide Mark;
    hide Events;
    hide Tracks;
    hide Client.Follow;
    hide RightWinner;
    hide ResolveClaimPriority;
    hide ResolveWindow;
    hide Legal;
    hide Apply;
    hide AllRecordable;
    PriorityPicksRightWinner(r, s, claimers, choices);
    var w := ResolveClaimPriority(claimers, choices).value;
    var a := choices[w].action;
    assert Legal(r, s, w, a);
    WinnerFollowed(r, c, s, viewer, w, a);
    ContestUnfolds(r, s, claimers, choices, auto, w);
    DecisionsUnseen(r, c, s, viewer, claimers, choices, auto);
    var events := WithoutDecision(Apply(r, s, w, a).value.1);
    hide WithoutDecision;
    var decisions := DecisionLog(s, claimers, choices, auto);
    hide DecisionLog;
    EventsOfMark(events, choices[w].failure, false);
    EventsConcat(decisions, Mark(events, choices[w].failure, false));
    FollowConcat(c, Events(decisions), events, viewer);
  }

  // --- steps and hands ---

  lemma DiscardStepFollowed(r: Rules, limit: nat, t: Table, replies: FourReplies, c: View, viewer: Viewer)
    requires Tracks(c, t.state, viewer) && Inv(t.state) && t.state.phase == DiscardPhase && ValidRules(r)
    requires StepDiscard(r, limit, t, replies).Ok?
    ensures var step := StepDiscard(r, limit, t, replies).value;
            Tracks(Client.Follow(c, Events(step.log), viewer), step.table.state, viewer)
  {
    hide Inv;
    hide Legal;
    hide Decide;
    hide Mark;
    hide Apply;
    hide Events;
    hide Client.Follow;
    hide Board;
    var actor := t.state.actor;
    DecisionIsLegal(r, t.state, actor, t.auto[actor], replies[actor]);
    var choice := Decide(r, t.state, actor, false, t.auto[actor], replies[actor]).value;
    OwnTurnFollowed(r, c, t.state, viewer, actor, choice.action);
    EventsOfMark(Apply(r, t.state, actor, choice.action).value.1, choice.failure, t.auto[actor]);
  }

  lemma ClaimStepFollowed(r: Rules, limit: nat, t: Table, replies: FourReplies, c: View, viewer: Viewer)
    requires Tracks(c, t.state, viewer) && Inv(t.state) && t.state.phase == ClaimWindow && ValidRules(r)
    requires StepClaimWindow(r, limit, t, replies).Ok?
    ensures var step := StepClaimWindow(r, limit, t, replies).value;
            Tracks(Client.Follow(c, Events(step.log), viewer), step.table.state, viewer)
  {
    var s := t.state;
    var claimers := Claimers(s.claims);
    ClaimersExist(s);
    hide Inv;
    hide Claimers;
    hide Claims;
    hide Legal;
    hide DecideAll;
    hide ApplyAllPass;
    hide Events;
    hide RightWinner;
    hide ResolveClaimPriority;
    hide Tracks;
    hide Client.Follow;
    DecisionsAreLegal(r, t, claimers, replies);
    var choices := DecideAll(r, t, claimers, replies).value;
    PriorityPicksRightWinner(r, s, claimers, choices);
    if ResolveClaimPriority(claimers, choices).None? {
      AllPassFollowed(r, c, s, viewer, claimers, choices, t.auto);
    } else {
      ContestFollowed(r, c, s, viewer, claimers, choices, t.auto);
    }
  }

  /** After each step of any run the client tracks the server. */
  lemma {:induction false} RunFollowed(r: Rules, limit: nat, t: Table, script: seq<FourReplies>, c: View, viewer: Viewer)
    requires Tracks(c, t.state, viewer) && Inv(t.state) && ValidRules(r) && RunTable(r, limit, t, script).Ok?
    ensures var run := RunTable(r, limit, t, script).value;
            Tracks(Client.Follow(c, Events(run.log), viewer), run.table.state, viewer)
    decreases |script|
  {
    hide Inv;
    hide StepDiscard;
    hide StepClaimWindow;
    hide Tracks;
    if script == [] || t.state.phase == TerminalPhase {
      assert Events([]) == [];
      assert Client.Follow(c, [], viewer) == c;
    } else {
      hide Client.Follow;
      StepSucceeds(r, limit, t, script[0]);
      var step := StepTable(r, limit, t, script[0]).value;
      if t.state.phase == DiscardPhase {
        DiscardStepFollowed(r, limit, t, script[0], c, viewer);
      } else {
        ClaimStepFollowed(r, limit, t, script[0], c, viewer);
      }
      var c' := Client.Follow(c, Events(step.log), viewer);
      RunFollowed(r, limit, step.table, script[1..], c', viewer);
      var rest := RunTable(r, limit, step.table, script[1..]).value;
      hide StepTable;
      EventsConcat(step.log, rest.log);
      FollowConcat(c, Events(step.log), Events(rest.log), viewer);
    }
  }

  lemma OverIffTerminal(s: State)
    requires Inv(s)
    ensures s.phase == TerminalPhase <==> s.terminal.Some?
  {
  }

  /** A fresh projection is tracked, with nothing missing from the wall counts. */
  lemma ProjectionTracked(s: State, viewer: Viewer)
    requires Inv(s)
    ensures Tracks(Project(s, viewer), s, viewer)
  {
    hide Inv;
    OverIffTerminal(s);
    var c := Project(s, viewer);
    forall i: SeatIx ensures SeatMatches(c.seats[i], s.seats[i], viewer == Some(i)) {
    }
  }

  /** What a client that was there from the deal on shows: the board; every seat's
      flowers as they were dealt, with the wall counts off by exactly the flowers the
      server has added since; and, to a seat, the draw of the seat on turn. */
  ghost predicate Synced(c: View, start: State, s: State, viewer: Viewer) {
    && Tracks(c, s, viewer)
    && (forall i: SeatIx :: c.seats[i].flowers == start.seats[i].flowers <= s.seats[i].flowers)
    && c.wallDrawn == s.drawn - (FlowersServer(s) - FlowersServer(start))
    && c.wallRemaining == |s.wall| + (FlowersServer(s) - FlowersServer(start))
    && ShowsDraw(c.lastDrawn, s, viewer)
  }

  lemma DealSynced(start: State, viewer: Viewer)
    requires Inv(start) && start.phase == DiscardPhase
    ensures Synced(Project(start, viewer), start, start, viewer)
  {
    hide Inv;
    ProjectionTracked(start, viewer);
    hide Tracks;
  }

  lemma SyncedParts(c: View, start: State, s: State, viewer: Viewer)
    requires Tracks(c, s, viewer) && ShowsDraw(c.lastDrawn, s, viewer)
    requires forall i: SeatIx :: c.seats[i].flowers == start.seats[i].flowers <= s.seats[i].flowers
    ensures Synced(c, start, s, viewer)
  {
    assert FlowersClient(c) == FlowersServer(start);
  }

  /** Whatever happens in a run, a synced client is synced after it. */
  lemma RunSynced(r: Rules, limit: nat, t: Table, script: seq<FourReplies>, run: Step, c: View, start: State, viewer: Viewer)
    requires Synced(c, start, t.state, viewer) && Inv(t.state) && ValidRules(r)
    requires RunTable(r, limit, t, script) == Ok(run)
    ensures Synced(Client.Follow(c, Events(run.log), viewer), start, run.table.state, viewer)
  {
    hide Inv;
    hide RunTable;
    hide Tracks;
    hide ShowsDraw;
    hide Client.Follow;
    hide Events;
    hide DrawnAfter;
    hide Unannounced;
    RunFollowed(r, limit, t, script, c, viewer);
    RunFlowering(r, limit, t, script, run);
    FollowKeepsFlowers(c, Events(run.log), viewer);
    RunShows(r, limit, t, script, run, viewer);
    FollowDrawn(c, Events(run.log), viewer);
    var c' := Client.Follow(c, Events(run.log), viewer);
    forall i: SeatIx ensures c'.seats[i].flowers == start.seats[i].flowers <= run.table.state.seats[i].flowers {
      assert c.seats[i].flowers == start.seats[i].flowers <= t.state.seats[i].flowers;
      assert t.state.seats[i].flowers <= run.table.state.seats[i].flowers;
    }
    SyncedParts(c', start, run.table.state, viewer);
  }

  /** Seeded with the deal's projection and fed the projected record, a client of
      any seat or of the public shows the server's board after every step of every
      hand: concealed tiles, melds, discards, scores, phase, turn, and what the
      phase makes current. It never learns of a flower drawn after the deal. */
  lemma ClientTracksHand(r: Rules, limit: nat, seed: nat, dealer: SeatIx, auto: FourFlags,
                         script: seq<FourReplies>, viewer: Viewer)
    requires ValidRules(r) && RunHand(r, limit, seed, dealer, auto, script).Ok?
    ensures var hand := RunHand(r, limit, seed, dealer, auto, script).value;
            Synced(Client.Follow(Project(hand.states[0], viewer), hand.events, viewer), hand.states[0], hand.final, viewer)
  {
    hide Start;
    hide RunTable;
    hide RunHand;
    hide Framed;
    hide Opening;
    hide Inv;
    hide Synced;
    hide Project;
    hide Client.Follow;
    var start, run := HandParts(r, limit, seed, dealer, auto, script);
    OpeningState(start, auto);
    DealSynced(start, viewer);
    var c := Project(start, viewer);
    RunSynced(r, limit, Opening(start, auto), script, run, c, start, viewer);
    FrameFollowed(seed, dealer, start, run, c, viewer);
  }

  /** The HEADER and the FOOTER leave the client's view alone. */
  lemma FrameFollowed(seed: nat, dealer: SeatIx, start: State, run: Step, c: View, viewer: Viewer)
    ensures var hand := Framed(seed, dealer, start, run);
            && hand.states[0] == start && hand.final == run.table.state
            && Client.Follow(c, hand.events, viewer) == Client.Follow(c, Events(run.log), viewer)
  {
    hide Events;
    hide Header;
    HeaderShape(seed, dealer);
    FollowOne(c, Header(seed, dealer), viewer);
    var c' := Client.Follow(c, Events(run.log), viewer);
    var foot := Footer(run.table.state);
    if foot != [] {
      FollowOne(c', foot[0], viewer);
      assert foot == [foot[0]];
    }
    assert Client.Follow(c', foot, viewer) == c';
    hide Client.Follow;
    FollowConcat(c, [Header(seed, dealer)] + Events(run.log), foot, viewer);
    FollowConcat(c, [Header(seed, dealer)], Events(run.log), viewer);
  }
}
