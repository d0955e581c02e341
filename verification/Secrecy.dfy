/** What a viewer is not told (engine/state.py, project and project_event). States and
    events that differ only in what a viewer may not see look the same to it, and only
    those do; over whole runs it is sent the same events. */
module Secrecy {
  import opened Lists
  import opened Tiles
  import opened GameTypes
  import opened Legality
  import opened Transition
  import opened Invariant
  import opened Records
  import opened Manager
  import opened Safety
  import opened Replay
  import opened Views
  import opened Privacy
  import Client

  // --- events ---

  /** The opportunities offered to a seat, in order. */
  function OffersTo(os: seq<Opportunity>, seat: SeatIx): seq<Opportunity> {
    if os == [] then []
    else
      var last := os[|os| - 1];
      OffersTo(os[..|os| - 1], seat) + if last.seat == seat then [last] else []
  }

  ghost predicate SameOffers(os: seq<Opportunity>, ps: seq<Opportunity>, viewer: Viewer) {
    viewer.Some? ==> OffersTo(os, viewer.value) == OffersTo(ps, viewer.value)
  }

  predicate ConcealedKong(e: Event) { e.DecisionEvent? && e.decision == DecideGang && e.gang == Some(Concealed) }

  /** The events differ at most in what the viewer may not see: the tile another seat
      drew, the tile of another seat's concealed kong, opportunities offered to others. */
  ghost predicate SameToViewer(e: Event, f: Event, viewer: Viewer) {
    if e.DrawEvent? && viewer != Some(e.seat) then f.DrawEvent? && f == e.(drawn := f.drawn)
    else if ConcealedKong(e) && viewer != Some(e.seat) then f.DecisionEvent? && f == e.(tileOf := f.tileOf)
    else if e.WindowEvent? then
      f.WindowEvent? && f == e.(opportunities := f.opportunities) && SameOffers(e.opportunities, f.opportunities, viewer)
    else f == e
  }

  lemma {:induction false} OffersConcat(a: seq<Opportunity>, b: seq<Opportunity>, seat: SeatIx)
    ensures OffersTo(a + b, seat) == OffersTo(a, seat) + OffersTo(b, seat)
    decreases |b|
  {
    if b == [] {
      assert a + b == a;
    } else {
      assert (a + b)[..|a + b| - 1] == a + b[..|b| - 1];
      OffersConcat(a, b[..|b| - 1], seat);
    }
  }

  lemma {:induction false} OffersProjected(os: seq<Opportunity>, viewer: Viewer)
    ensures OpportunitiesOf(os, viewer) == if viewer.Some? then OffersTo(os, viewer.value) else []
  {
    if os != [] {
      OffersProjected(os[1..], viewer);
      if viewer.Some? {
        OffersConcat([os[0]], os[1..], viewer.value);
        assert os == [os[0]] + os[1..];
        assert OffersTo([], viewer.value) == [];
        assert OffersTo([os[0]], viewer.value) == if os[0].seat == viewer.value then [os[0]] else [];
      }
    }
  }

  /** Two events are sent to a viewer as the same event exactly if they differ in nothing
      the viewer may see. */
  lemma EventsHide(e: Event, f: Event, viewer: Viewer)
    ensures ProjectEvent(e, viewer) == ProjectEvent(f, viewer) <==> SameToViewer(e, f, viewer)
  {
    if e.WindowEvent? {
      OffersProjected(e.opportunities, viewer);
    }
    if f.WindowEvent? {
      OffersProjected(f.opportunities, viewer);
    }
    hide OffersTo;
    hide OpportunitiesOf;
  }

  /** Whatever is a seat's own is sent to it as it is; what another seat drew or hid in a
      kong is sent without the tile. */
  lemma OwnEventsIntact(e: Event, viewer: Viewer)
    requires e.DrawEvent? || ConcealedKong(e)
    ensures viewer == Some(e.seat) ==> ProjectEvent(e, viewer) == e
    ensures viewer != Some(e.seat) && e.DrawEvent? ==> ProjectEvent(e, viewer) == e.(drawn := None)
    ensures viewer != Some(e.seat) && e.DecisionEvent? ==> ProjectEvent(e, viewer) == e.(tileOf := None)
  {
  }

  // --- states ---

  /** Another seat's concealed kong shows only whose it is. */
  predicate SameMeld(m: Meld, n: Meld, own: bool) {
    if m.kind == GangConcealed && !own then n.kind == GangConcealed && n.from == m.from else n == m
  }

  ghost predicate SameSeat(d: SeatData, e: SeatData, own: bool) {
    && d.wind == e.wind && d.discards == e.discards && d.flowers == e.flowers && d.score == e.score
    && (if own then d.concealed == e.concealed else |d.concealed| == |e.concealed|)
    && |d.melds| == |e.melds| && forall k :: 0 <= k < |d.melds| ==> SameMeld(d.melds[k], e.melds[k], own)
  }

  /** A seat's pending claims, in order. */
  function PendingOf(cs: seq<Claim>, seat: SeatIx): seq<Claim> {
    if cs == [] then []
    else
      var last := cs[|cs| - 1];
      PendingOf(cs[..|cs| - 1], seat) + if last.seat == seat then [last] else []
  }

  predicate SameDraw(x: Option<LastDrawn>, y: Option<LastDrawn>, seat: SeatIx) {
    match (x, y)
    case (Some(a), Some(b)) => a.seat == b.seat && (a.seat == seat ==> a.tile == b.tile)
    case (None, None) => true
    case _ => false
  }

  /** At the end of a hand everything is revealed. */
  ghost predicate SameEnd(s: State, u: State) {
    && s.terminal == u.terminal
    && (s.terminal.Some? ==> forall i: SeatIx ::
          && s.seats[i].concealed == u.seats[i].concealed
          && s.seats[i].melds == u.seats[i].melds && s.seats[i].flowers == u.seats[i].flowers)
  }

  /** The states differ at most in what the viewer may not see: the order of the wall,
      other seats' hands, concealed kongs, drawn tile and pending claims. */
  ghost predicate LooksAlike(s: State, u: State, viewer: Viewer) {
    && s.roundWind == u.roundWind && s.dealer == u.dealer && s.turn == u.turn
    && |s.wall| == |u.wall| && s.drawn == u.drawn
    && (forall i: SeatIx :: SameSeat(s.seats[i], u.seats[i], viewer == Some(i)))
    && s.lastDiscard == u.lastDiscard && s.phase == u.phase && s.actor == u.actor
    && (viewer.Some? ==> SameDraw(s.lastDrawn, u.lastDrawn, viewer.value)
                         && PendingOf(s.claims, viewer.value) == PendingOf(u.claims, viewer.value))
    && SameEnd(s, u)
  }

  lemma {:induction false} PendingConcat(a: seq<Claim>, b: seq<Claim>, seat: SeatIx)
    ensures PendingOf(a + b, seat) == PendingOf(a, seat) + PendingOf(b, seat)
    decreases |b|
  {
    if b == [] {
      assert a + b == a;
    } else {
      assert (a + b)[..|a + b| - 1] == a + b[..|b| - 1];
      PendingConcat(a, b[..|b| - 1], seat);
    }
  }

  lemma {:induction false} PendingProjected(cs: seq<Claim>, seat: SeatIx)
    ensures ClaimsOfSeat(cs, seat) == PendingOf(cs, seat)
  {
    if cs != [] {
      PendingProjected(cs[1..], seat);
      PendingConcat([cs[0]], cs[1..], seat);
      assert cs == [cs[0]] + cs[1..];
      assert PendingOf([], seat) == [];
      assert PendingOf([cs[0]], seat) == if cs[0].seat == seat then [cs[0]] else [];
    }
  }

  lemma SeatsHide(d: SeatData, e: SeatData, own: bool)
    ensures ShowSeat(d, own) == ShowSeat(e, own) <==> SameSeat(d, e, own)
  {
    if ShowMelds(d.melds, own) == ShowMelds(e.melds, own) {
      forall k | 0 <= k < |d.melds| ensures SameMeld(d.melds[k], e.melds[k], own) {
        assert ShowMelds(d.melds, own)[k] == ShowMelds(e.melds, own)[k];
      }
    }
    if |d.melds| == |e.melds| && forall k :: 0 <= k < |d.melds| ==> SameMeld(d.melds[k], e.melds[k], own) {
      forall k | 0 <= k < |d.melds| ensures ShowMelds(d.melds, own)[k] == ShowMelds(e.melds, own)[k] {
        assert SameMeld(d.melds[k], e.melds[k], own);
      }
      assert ShowMelds(d.melds, own) == ShowMelds(e.melds, own);
    }
  }

  lemma AllSeatsHide(s: State, u: State, viewer: Viewer)
    ensures Project(s, viewer).seats == Project(u, viewer).seats <==>
            forall i: SeatIx :: SameSeat(s.seats[i], u.seats[i], viewer == Some(i))
  {
    hide ShowSeat;
    hide SameSeat;
    forall i: SeatIx
      ensures SameSeat(s.seats[i], u.seats[i], viewer == Some(i)) <==>
              Project(s, viewer).seats[i] == Project(u, viewer).seats[i]
    {
      SeatsHide(s.seats[i], u.seats[i], viewer == Some(i));
    }
    if forall i: SeatIx :: SameSeat(s.seats[i], u.seats[i], viewer == Some(i)) {
      forall k | 0 <= k < 4 ensures Project(s, viewer).seats[k] == Project(u, viewer).seats[k] {
        var i: SeatIx := k;
        assert SameSeat(s.seats[i], u.seats[i], viewer == Some(i));
      }
    }
  }

  lemma FinalHandsHide(s: State, u: State)
    ensures FinalHands(s) == FinalHands(u) <==> forall i: SeatIx ::
              && s.seats[i].concealed == u.seats[i].concealed
              && s.seats[i].melds == u.seats[i].melds && s.seats[i].flowers == u.seats[i].flowers
  {
    if FinalHands(s) == FinalHands(u) {
      forall i: SeatIx
        ensures s.seats[i].concealed == u.seats[i].concealed
        ensures s.seats[i].melds == u.seats[i].melds && s.seats[i].flowers == u.seats[i].flowers
      {
        assert FinalHands(s)[i] == FinalHands(u)[i];
      }
    }
  }

  /** Two states are projected to the same view exactly if they differ in nothing the
      viewer may see. */
  lemma StatesHide(s: State, u: State, viewer: Viewer)
    ensures Project(s, viewer) == Project(u, viewer) <==> LooksAlike(s, u, viewer)
  {
    AllSeatsHide(s, u, viewer);
    FinalHandsHide(s, u);
    if viewer.Some? {
      PendingProjected(s.claims, viewer.value);
      PendingProjected(u.claims, viewer.value);
    }
    hide ShowSeat;
    hide SameSeat;
    hide FinalHands;
    hide ClaimsOfSeat;
    hide PendingOf;
    ProjectedFields(s, u, viewer);
  }

  /** A view is equal to another if its fields are. */
  lemma ProjectedFields(s: State, u: State, viewer: Viewer)
    ensures var v, w := Project(s, viewer), Project(u, viewer);
            v == w <==>
            && v.roundWind == w.roundWind && v.dealer == w.dealer && v.turn == w.turn
            && v.wallRemaining == w.wallRemaining && v.wallDrawn == w.wallDrawn && v.seats == w.seats
            && v.lastDiscard == w.lastDiscard && v.lastDrawn == w.lastDrawn && v.claims == w.claims
            && v.phase == w.phase && v.actor == w.actor && v.terminal == w.terminal
  {
    hide Project;
  }

  /** A seat sees itself as it is: hand, melds, flowers, pending claims and drawn tile; and
      everyone sees what lies open on the table. */
  lemma ViewShows(s: State, viewer: Viewer, i: SeatIx)
    ensures var v := Project(s, viewer);
            var d := s.seats[i];
            && v.roundWind == s.roundWind && v.dealer == s.dealer && v.turn == s.turn && v.phase == s.phase
            && v.actor == s.actor && v.lastDiscard == s.lastDiscard
            && v.wallRemaining == |s.wall| && v.wallDrawn == s.drawn
            && v.seats[i].wind == d.wind && v.seats[i].discards == d.discards && v.seats[i].flowers == d.flowers
            && v.seats[i].score == d.score && |v.seats[i].melds| == |d.melds|
            && v.seats[i].hand == (if viewer == Some(i) then Own(d.concealed) else Count(|d.concealed|))
            && (viewer == Some(i) ==> v.claims == PendingOf(s.claims, i))
            && (viewer == Some(i) && s.lastDrawn == None ==> v.lastDrawn == None)
            && (viewer == Some(i) && s.lastDrawn.Some? && s.lastDrawn.value.seat == i ==>
                  v.lastDrawn == Some(DrawnView(i, Some(s.lastDrawn.value.tile))))
            && (viewer == None ==> v.claims == [] && v.lastDrawn == None)
            && forall k :: 0 <= k < |d.melds| && (viewer == Some(i) || d.melds[k].kind != GangConcealed) ==>
                 v.seats[i].melds[k] == Shown(d.melds[k].kind, d.melds[k].tiles, d.melds[k].called, d.melds[k].from)
  {
    PendingProjected(s.claims, i);
    hide ClaimsOfSeat;
    hide PendingOf;
  }

  // --- what an action tells ---

  /** Actions that show the viewer the same: another seat's concealed kongs do, whatever
      their tiles; a discard also shows whether it is the tile just drawn. */
  predicate ActsAlike(s: State, u: State, seat: SeatIx, a: Action, b: Action, viewer: Viewer) {
    if a.Gang? && a.kind == Concealed && viewer != Some(seat) then b.Gang? && b.kind == Concealed
    else
      && b == a
      && (a.Play? ==> (s.lastDrawn == Some(LastDrawn(seat, a.tile)) <==> u.lastDrawn == Some(LastDrawn(seat, a.tile))))
  }

  /** The lists have the same events, as far as the viewer can see. */
  ghost predicate ToldAlike(es: seq<Event>, fs: seq<Event>, viewer: Viewer) {
    |es| == |fs| && forall k :: 0 <= k < |es| ==> SameToViewer(es[k], fs[k], viewer)
  }

  lemma ToldConcat(a: seq<Event>, b: seq<Event>, c: seq<Event>, d: seq<Event>, viewer: Viewer)
    requires ToldAlike(a, b, viewer) && ToldAlike(c, d, viewer)
    ensures ToldAlike(a + c, b + d, viewer)
  {
    hide SameToViewer;
  }

  lemma {:induction false} OffersOfOne(seat: SeatIx, t: Tile, acts: seq<Action>, i: SeatIx)
    ensures OffersTo(Opportunities(seat, t, acts), i) == if i == seat then Opportunities(seat, t, acts) else []
  {
    if acts != [] {
      OffersOfOne(seat, t, acts[1..], i);
      var first := OpportunityOf(seat, t, acts[0]);
      assert Opportunities(seat, t, acts) == first + Opportunities(seat, t, acts[1..]);
      OffersConcat(first, Opportunities(seat, t, acts[1..]), i);
      OffersSingle(first, i);
      hide OffersTo;
      hide Opportunities;
    }
  }

  lemma OffersSingle(os: seq<Opportunity>, i: SeatIx)
    requires |os| <= 1
    ensures OffersTo(os, i) == if os != [] && os[0].seat == i then os else []
  {
    if os != [] {
      assert os == [] + [os[0]];
    }
    assert OffersTo([], i) == [];
  }

  /** The opportunities of a seat in a window are those of its own legal claims. */
  lemma OffersInWindow(r: Rules, s: State, seat: SeatIx)
    requires s.lastDiscard.Some?
    ensures OffersTo(WindowOpened(r, s).opportunities, seat) ==
            Opportunities(seat, s.lastDiscard.value.tile, ClaimActions(r, s, seat))
  {
    hide OffersTo;
    hide ClaimActions;
    hide Opportunities;
    var t := s.lastDiscard.value.tile;
    var a, b := Opportunities(0, t, ClaimActions(r, s, 0)), Opportunities(1, t, ClaimActions(r, s, 1));
    var c, d := Opportunities(2, t, ClaimActions(r, s, 2)), Opportunities(3, t, ClaimActions(r, s, 3));
    OffersConcat(a, b, seat);
    OffersConcat(a + b, c, seat);
    OffersConcat(a + b + c, d, seat);
    OffersOfOne(0, t, ClaimActions(r, s, 0), seat);
    OffersOfOne(1, t, ClaimActions(r, s, 1), seat);
    OffersOfOne(2, t, ClaimActions(r, s, 2), seat);
    OffersOfOne(3, t, ClaimActions(r, s, 3), seat);
  }

  lemma WindowsAlike(r: Rules, s: State, u: State, viewer: Viewer)
    requires LooksAlike(s, u, viewer) && s.phase == ClaimWindow
    ensures SameToViewer(WindowOpened(r, s), WindowOpened(r, u), viewer)
  {
    hide OffersTo;
    hide ClaimActions;
    hide Opportunities;
    hide Project;
    assert s.turn == u.turn && s.phase == u.phase && s.lastDiscard == u.lastDiscard;
    StatesHide(s, u, viewer);
    hide LooksAlike;
    if viewer.Some? && s.lastDiscard.Some? {
      PromptDependsOnViewOnly(r, s, u, viewer.value, true);
      OffersInWindow(r, s, viewer.value);
      OffersInWindow(r, u, viewer.value);
    }
  }

  lemma DrawsAlike(s: State, u: State, viewer: Viewer)
    requires LooksAlike(s, u, viewer)
    ensures SameToViewer(Drawn(s), Drawn(u), viewer)
  {
  }

  lemma EndsAlike(s: State, u: State, viewer: Viewer)
    requires LooksAlike(s, u, viewer) && s.terminal.Some?
    ensures HandEnd(s) == HandEnd(u)
  {
    FinalHandsHide(s, u);
    hide FinalHands;
  }

  lemma DecisionsAlike(s: State, u: State, before: State, other: State, seat: SeatIx, a: Action, b: Action,
                       viewer: Viewer)
    requires s.turn == u.turn && s.phase == u.phase && !a.Play? && ActsAlike(before, other, seat, a, b, viewer)
    ensures SameToViewer(Decision(s, seat, a), Decision(u, seat, b), viewer)
  {
  }

  /** The events that a state reached gives rise to are alike. */
  ghost predicate ResultsAlike(r: Rules, after: State, other: State, viewer: Viewer) {
    && after.turn == other.turn && after.phase == other.phase && after.drawn == other.drawn
    && (after.terminal.Some? <==> other.terminal.Some?)
    && (after.phase == ClaimWindow ==> SameToViewer(WindowOpened(r, after), WindowOpened(r, other), viewer))
    && SameToViewer(Drawn(after), Drawn(other), viewer)
    && (after.terminal.Some? ==> SameToViewer(HandEnd(after), HandEnd(other), viewer))
    && SameToViewer(PassedEvent(after.turn, after.phase), PassedEvent(other.turn, other.phase), viewer)
  }

  lemma ResultsLookAlike(r: Rules, after: State, other: State, viewer: Viewer)
    requires LooksAlike(after, other, viewer)
    ensures ResultsAlike(r, after, other, viewer)
  {
    if after.phase == ClaimWindow {
      WindowsAlike(r, after, other, viewer);
    }
    DrawsAlike(after, other, viewer);
    if after.terminal.Some? {
      EndsAlike(after, other, viewer);
      SameIsAlike(HandEnd(after), viewer);
    }
    SameIsAlike(PassedEvent(after.turn, after.phase), viewer);
    hide SameToViewer;
    hide WindowOpened;
    hide Drawn;
    hide HandEnd;
    hide SameSeat;
    hide PendingOf;
  }

  lemma PlayTellsAlike(r: Rules, s: State, u: State, seat: SeatIx, t: Tile, after: State, other: State, viewer: Viewer)
    requires s.drawn == u.drawn && ResultsAlike(r, after, other, viewer) && EndRecorded(after) && EndRecorded(other)
    requires SameToViewer(Discarded(s, after, seat, t), Discarded(u, other, seat, t), viewer)
    ensures ToldAlike(DiffToEvents(r, s, seat, Play(t), after), DiffToEvents(r, u, seat, Play(t), other), viewer)
  {
    hide SameToViewer;
    hide WindowOpened;
    hide Drawn;
    hide HandEnd;
    hide Discarded;
  }

  lemma PassTellsAlike(r: Rules, s: State, u: State, seat: SeatIx, after: State, other: State, viewer: Viewer)
    requires s.phase == u.phase && s.drawn == u.drawn
    requires ResultsAlike(r, after, other, viewer) && EndRecorded(after) && EndRecorded(other)
    requires SameToViewer(Decision(after, seat, Pass), Decision(other, seat, Pass), viewer)
    ensures ToldAlike(DiffToEvents(r, s, seat, Pass, after), DiffToEvents(r, u, seat, Pass, other), viewer)
  {
    hide SameToViewer;
    hide WindowOpened;
    hide Drawn;
    hide HandEnd;
    hide Decision;
  }

  lemma MeldTellsAlike(r: Rules, s: State, u: State, seat: SeatIx, a: Action, after: State, other: State,
                       viewer: Viewer)
    requires (a.Peng? || a.Chi?) && EndRecorded(after) && EndRecorded(other)
    requires SameToViewer(Decision(after, seat, a), Decision(other, seat, a), viewer)
    requires SameToViewer(Claimed(after, seat, a), Claimed(other, seat, a), viewer)
    ensures ToldAlike(DiffToEvents(r, s, seat, a, after), DiffToEvents(r, u, seat, a, other), viewer)
  {
    hide SameToViewer;
    hide Decision;
    hide Claimed;
  }

  lemma KongTellsAlike(r: Rules, s: State, u: State, seat: SeatIx, a: Action, b: Action, after: State, other: State,
                       viewer: Viewer)
    requires a.Gang? && b.Gang? && a.kind == b.kind && s.drawn == u.drawn
    requires ResultsAlike(r, after, other, viewer) && EndRecorded(after) && EndRecorded(other)
    requires SameToViewer(Decision(after, seat, a), Decision(other, seat, b), viewer)
    requires a.kind == Exposed ==> SameToViewer(Claimed(after, seat, a), Claimed(other, seat, b), viewer)
    ensures ToldAlike(DiffToEvents(r, s, seat, a, after), DiffToEvents(r, u, seat, b, other), viewer)
  {
    hide SameToViewer;
    hide WindowOpened;
    hide Drawn;
    hide HandEnd;
    hide Decision;
    hide Claimed;
  }

  lemma ClaimsAlike(after: State, other: State, seat: SeatIx, a: Action, viewer: Viewer)
    requires after.turn == other.turn && after.phase == other.phase
    ensures SameToViewer(Claimed(after, seat, a), Claimed(other, seat, a), viewer)
  {
  }

  /** What an action tells a viewer depends on nothing it may not see: alike states before
      and after, and actions that look alike, give the same events. */
  lemma ActionTellsAlike(r: Rules, s: State, u: State, seat: SeatIx, a: Action, b: Action, after: State, other: State,
                         viewer: Viewer)
    requires s.phase == u.phase && s.drawn == u.drawn && ActsAlike(s, u, seat, a, b, viewer)
    requires LooksAlike(after, other, viewer)
    requires EndRecorded(after) && (a.Hu? ==> after.terminal.Some?)
    requires EndRecorded(other) && (b.Hu? ==> other.terminal.Some?)
    ensures ToldAlike(DiffToEvents(r, s, seat, a, after), DiffToEvents(r, u, seat, b, other), viewer)
  {
    ResultsLookAlike(r, after, other, viewer);
    hide LooksAlike;
    DiscardsAlike(s, u, seat, a, b, after, other, viewer);
    if !a.Play? {
      DecisionsAlike(after, other, s, u, seat, a, b, viewer);
    }
    ClaimsAlike(after, other, seat, a, viewer);
    hide SameToViewer;
    match a
    case Play(t) =>
      hide DiffToEvents;
      PlayTellsAlike(r, s, u, seat, t, after, other, viewer);
    case Pass =>
      hide DiffToEvents;
      PassTellsAlike(r, s, u, seat, after, other, viewer);
    case Gang(_, _) =>
      hide DiffToEvents;
      KongTellsAlike(r, s, u, seat, a, b, after, other, viewer);
    case Hu =>
      hide HandEnd;
    case _ =>
      hide DiffToEvents;
      MeldTellsAlike(r, s, u, seat, a, after, other, viewer);
  }

  lemma DiscardsAlike(s: State, u: State, seat: SeatIx, a: Action, b: Action, after: State, other: State,
                      viewer: Viewer)
    requires ActsAlike(s, u, seat, a, b, viewer) && after.turn == other.turn && after.phase == other.phase
    ensures a.Play? ==>
              b.Play? && SameToViewer(Discarded(s, after, seat, a.tile), Discarded(u, other, seat, b.tile), viewer)
  {
  }

  lemma SameIsAlike(e: Event, viewer: Viewer)
    ensures SameToViewer(e, e, viewer)
  {
  }

  // --- windows ---

  /** The seats choose the same actions, however they came to. */
  ghost predicate SameActions(claimers: seq<SeatIx>, choices: FourChoices, others: FourChoices) {
    forall i: SeatIx :: i in claimers ==> choices[i].action == others[i].action
  }

  lemma {:induction false} FirstChoosingSame(claimers: seq<SeatIx>, choices: FourChoices, others: FourChoices,
                                             kind: DecisionKind)
    requires SameActions(claimers, choices, others)
    ensures FirstChoosing(claimers, choices, kind) == FirstChoosing(claimers, others, kind)
  {
    if claimers != [] {
      assert claimers[0] in claimers;
      assert SameActions(claimers[1..], choices, others) by { SameActionsTail(claimers, choices, others); }
      FirstChoosingSame(claimers[1..], choices, others, kind);
    }
  }

  lemma SameActionsTail(claimers: seq<SeatIx>, choices: FourChoices, others: FourChoices)
    requires SameActions(claimers, choices, others) && claimers != []
    ensures SameActions(claimers[1..], choices, others)
  {
    forall i: SeatIx | i in claimers[1..] ensures choices[i].action == others[i].action {
      assert i in claimers;
    }
  }

  lemma SameWinner(claimers: seq<SeatIx>, choices: FourChoices, others: FourChoices)
    requires SameActions(claimers, choices, others)
    ensures ResolveClaimPriority(claimers, choices) == ResolveClaimPriority(claimers, others)
  {
    hide FirstChoosing;
    hide SameActions;
    FirstChoosingSame(claimers, choices, others, DecideHu);
    FirstChoosingSame(claimers, choices, others, DecidePeng);
    FirstChoosingSame(claimers, choices, others, DecideGang);
    FirstChoosingSame(claimers, choices, others, DecideChi);
    ResolveUnfolds(claimers, choices);
    ResolveUnfolds(claimers, others);
    hide ResolveClaimPriority;
  }

  lemma {:induction false} DecisionLogsAlike(s: State, u: State, claimers: seq<SeatIx>, choices: FourChoices,
                                             others: FourChoices, auto: FourFlags, flags: FourFlags, viewer: Viewer)
    requires s.turn == u.turn && s.phase == u.phase && SameActions(claimers, choices, others)
    ensures ToldAlike(Events(DecisionLog(s, claimers, choices, auto)),
                      Events(DecisionLog(u, claimers, others, flags)), viewer)
    decreases |claimers|
  {
    hide SameToViewer;
    hide SameActions;
    if claimers != [] {
      var seat := claimers[0];
      assert choices[seat].action == others[seat].action by { HeadActs(claimers, choices, others); }
      var d, e := Decision(s, seat, choices[seat].action), Decision(u, seat, others[seat].action);
      assert d == e;
      SameIsAlike(d, viewer);
      SameActionsTail(claimers, choices, others);
      DecisionLogsAlike(s, u, claimers[1..], choices, others, auto, flags, viewer);
      var a, b := [Logged(d, choices[seat].failure, auto[seat])], [Logged(e, others[seat].failure, flags[seat])];
      EventsConcat(a, DecisionLog(s, claimers[1..], choices, auto));
      EventsConcat(b, DecisionLog(u, claimers[1..], others, flags));
      hide Decision;
      ToldConcat(Events(a), Events(b), Events(DecisionLog(s, claimers[1..], choices, auto)),
                 Events(DecisionLog(u, claimers[1..], others, flags)), viewer);
    }
  }

  lemma HeadActs(claimers: seq<SeatIx>, choices: FourChoices, others: FourChoices)
    requires SameActions(claimers, choices, others) && claimers != []
    ensures choices[claimers[0]].action == others[claimers[0]].action
  {
    assert claimers[0] in claimers;
  }

  /** One PASS, in two windows that look alike: the decision while others still decide,
      and everything the last one leads to. */
  lemma OnePassToldAlike(r: Rules, s: State, u: State, seat: SeatIx, after: State, other: State, viewer: Viewer)
    requires s.phase == ClaimWindow && u.phase == ClaimWindow && s.drawn == u.drawn
    requires EndRecorded(after) && EndRecorded(other) && NoWinner(after) && NoWinner(other)
    requires LooksAlike(after, other, viewer)
             || (after.phase == ClaimWindow && other.phase == ClaimWindow && after.turn == other.turn)
    ensures ToldAlike(DiffToEvents(r, s, seat, Pass, after), DiffToEvents(r, u, seat, Pass, other), viewer)
  {
    if LooksAlike(after, other, viewer) {
      hide LooksAlike;
      ActionTellsAlike(r, s, u, seat, Pass, Pass, after, other, viewer);
      hide DiffToEvents;
    } else {
      PassEvents(r, s, seat, after);
      PassEvents(r, u, seat, other);
      SameIsAlike(Decision(after, seat, Pass), viewer);
      hide DiffToEvents;
      hide SameToViewer;
    }
  }

  lemma {:induction false} PassesToldAlike(r: Rules, s: State, u: State, claimers: seq<SeatIx>, choices: FourChoices,
                                           others: FourChoices, auto: FourFlags, flags: FourFlags, viewer: Viewer)
    requires Inv(s) && Inv(u) && s.phase == ClaimWindow && u.phase == ClaimWindow && ValidRules(r)
    requires s.turn == u.turn && s.drawn == u.drawn && claimers != [] && Ascending(claimers)
    requires forall i: SeatIx :: (i in claimers <==> Claims(s.claims, i)) && (i in claimers <==> Claims(u.claims, i))
    requires forall i: SeatIx :: i in claimers ==> choices[i].action == Pass && others[i].action == Pass
    requires ApplyAllPass(r, s, claimers, choices, auto).Ok? && ApplyAllPass(r, u, claimers, others, flags).Ok?
    requires LooksAlike(ApplyAllPass(r, s, claimers, choices, auto).value.state,
                        ApplyAllPass(r, u, claimers, others, flags).value.state, viewer)
    ensures ToldAlike(Events(ApplyAllPass(r, s, claimers, choices, auto).value.log),
                      Events(ApplyAllPass(r, u, claimers, others, flags).value.log), viewer)
    decreases |claimers|
  {
    hide Inv;
    hide LooksAlike;
    hide Mark;
    hide Apply;
    hide ApplyPass;
    hide ApplyAllPass;
    hide Events;
    hide ToldAlike;
    var seat := claimers[0];
    var rest := claimers[1..];
    assert seat in claimers;
    PassOneApplied(r, s, claimers, choices, auto);
    PassOneApplied(r, u, claimers, others, flags);
    OnePass(s, claimers);
    OnePass(u, claimers);
    hide Advance;
    var after, other := ApplyPass(s, seat), ApplyPass(u, seat);
    var events, told := Apply(r, s, seat, Pass).value.1, Apply(r, u, seat, Pass).value.1;
    var marked, notes := Mark(events, choices[seat].failure, auto[seat]), Mark(told, others[seat].failure, flags[seat]);
    EventsOfMark(events, choices[seat].failure, auto[seat]);
    EventsOfMark(told, others[seat].failure, flags[seat]);
    if |claimers| > 1 {
      assert Ascending(rest);
      forall i: SeatIx | i in rest ensures choices[i].action == Pass && others[i].action == Pass {
        assert i in claimers;
      }
      PassApplied(r, s, seat);
      PassApplied(r, u, seat);
      OnePassToldAlike(r, s, u, seat, after, other, viewer);
      PassesToldAlike(r, after, other, rest, choices, others, auto, flags, viewer);
    } else {
      assert rest == [];
      NobodyPasses(r, after, choices, auto);
      NobodyPasses(r, other, others, flags);
      PassApplied(r, s, seat);
      PassApplied(r, u, seat);
      OnePassToldAlike(r, s, u, seat, after, other, viewer);
      NothingTold(viewer);
    }
    var l := ApplyAllPass(r, after, rest, choices, auto).value.log;
    var m := ApplyAllPass(r, other, rest, others, flags).value.log;
    EventsConcat(marked, l);
    EventsConcat(notes, m);
    ToldConcat(events, told, Events(l), Events(m), viewer);
  }

  lemma NothingTold(viewer: Viewer)
    ensures Events([]) == [] && ToldAlike([], [], viewer)
  {
  }

  /** A PASS that is applied, and its events. */
  lemma PassApplied(r: Rules, s: State, seat: SeatIx)
    requires s.phase == ClaimWindow && Apply(r, s, seat, Pass).Ok?
    ensures var after := ApplyPass(s, seat);
            && EndRecorded(after) && NoWinner(after)
            && Apply(r, s, seat, Pass) == Ok((after, DiffToEvents(r, s, seat, Pass, after)))
  {
    hide ApplyPass;
    hide DiffToEvents;
    OnlyHuWins(r, s, seat, Pass);
    hide Legal;
  }

  lemma ContestToldAlike(r: Rules, s: State, u: State, claimers: seq<SeatIx>, choices: FourChoices, others: FourChoices,
                         auto: FourFlags, flags: FourFlags, w: SeatIx, viewer: Viewer)
    requires s.phase == u.phase && s.turn == u.turn && s.drawn == u.drawn
    requires SameActions(claimers, choices, others) && w in claimers && Legal(r, s, w, choices[w].action)
    requires s.phase == ClaimWindow
    requires ResolveClaimPriority(claimers, choices) == Some(w)
    requires Apply(r, s, w, choices[w].action).Ok? && Apply(r, u, w, choices[w].action).Ok?
    requires ResolveWindow(r, s, claimers, choices, auto).Ok? && ResolveWindow(r, u, claimers, others, flags).Ok?
    requires LooksAlike(ResolveWindow(r, s, claimers, choices, auto).value.state,
                        ResolveWindow(r, u, claimers, others, flags).value.state, viewer)
    ensures ToldAlike(Events(ResolveWindow(r, s, claimers, choices, auto).value.log),
                      Events(ResolveWindow(r, u, claimers, others, flags).value.log), viewer)
  {
    ClaimActionKinds(r, s, w, choices[w].action);
    hide Legal;
    hide LooksAlike;
    hide ResolveClaimPriority;
    hide ResolveWindow;
    hide AllRecordable;
    hide DecisionLog;
    hide Mark;
    hide Events;
    hide ToldAlike;
    SameWinner(claimers, choices, others);
    var a := choices[w].action;
    assert others[w].action == a;
    ContestUnfolds(r, s, claimers, choices, auto, w);
    ContestUnfolds(r, u, claimers, others, flags, w);
    var (after, events) := Apply(r, s, w, a).value;
    var (other, told) := Apply(r, u, w, a).value;
    ActionTellsAlike(r, s, u, w, a, a, after, other, viewer);
    hide DiffToEvents;
    hide ApplyAction;
    OutcomeToldAlike(events, told, viewer);
    DecisionLogsAlike(s, u, claimers, choices, others, auto, flags, viewer);
    hide Apply;
    hide WithoutDecision;
    var l, m := DecisionLog(s, claimers, choices, auto), DecisionLog(u, claimers, others, flags);
    var x := Mark(WithoutDecision(events), choices[w].failure, false);
    var y := Mark(WithoutDecision(told), others[w].failure, false);
    EventsConcat(l, x);
    EventsConcat(m, y);
    EventsOfMark(WithoutDecision(events), choices[w].failure, false);
    EventsOfMark(WithoutDecision(told), others[w].failure, false);
    ToldConcat(Events(l), Events(m), Events(x), Events(y), viewer);
  }

  lemma OutcomeToldAlike(es: seq<Event>, fs: seq<Event>, viewer: Viewer)
    requires ToldAlike(es, fs, viewer)
    ensures ToldAlike(WithoutDecision(es), WithoutDecision(fs), viewer)
  {
    if es != [] {
      assert SameToViewer(es[0], fs[0], viewer);
      assert es[0].DecisionEvent? <==> fs[0].DecisionEvent?;
    }
    hide SameToViewer;
  }

  // --- runs ---

  /** The prompted seats decide on actions that look alike. Who claims and what is claimed
      is public: the window's decisions are in the record for everyone. */
  ghost predicate DecideAlike(r: Rules, t: Table, u: Table, replies: FourReplies, others: FourReplies, viewer: Viewer) {
    match t.state.phase
    case DiscardPhase =>
      var i := t.state.actor;
      var c := Decide(r, t.state, i, false, t.auto[i], replies[i]);
      var d := Decide(r, u.state, i, false, u.auto[i], others[i]);
      c.Ok? && d.Ok? && ActsAlike(t.state, u.state, i, c.value.action, d.value.action, viewer)
    case ClaimWindow =>
      && Claimers(t.state.claims) == Claimers(u.state.claims)
      && forall i: SeatIx :: i in Claimers(t.state.claims) ==>
           var c := Decide(r, t.state, i, true, t.auto[i], replies[i]);
           var d := Decide(r, u.state, i, true, u.auto[i], others[i]);
           c.Ok? && d.Ok? && c.value.action == d.value.action
    case TerminalPhase => true
  }

  /** Two runs that the viewer cannot tell apart, state by state and decision by decision. */
  ghost predicate RunsLookAlike(r: Rules, limit: nat, t: Table, u: Table, script: seq<FourReplies>,
                                other: seq<FourReplies>,
                                viewer: Viewer)
    decreases |script|
  {
    && |script| == |other| && LooksAlike(t.state, u.state, viewer)
    && (script != [] && t.state.phase != TerminalPhase ==>
          && DecideAlike(r, t, u, script[0], other[0], viewer)
          && var a, b := StepTable(r, limit, t, script[0]), StepTable(r, limit, u, other[0]);
             a.Ok? && b.Ok? && RunsLookAlike(r, limit, a.value.table, b.value.table, script[1..], other[1..], viewer))
  }

  /** What a turn consists of. */
  lemma TurnParts(r: Rules, limit: nat, t: Table, replies: FourReplies, step: Step)
    requires StepDiscard(r, limit, t, replies) == Ok(step)
    ensures var i := t.state.actor;
            var c := Decide(r, t.state, i, false, t.auto[i], replies[i]);
            && c.Ok? && Apply(r, t.state, i, c.value.action).Ok?
            && step.table.state == Apply(r, t.state, i, c.value.action).value.0
            && Events(step.log) == Apply(r, t.state, i, c.value.action).value.1
  {
    hide Decide;
    hide Apply;
    hide Mark;
    hide Written;
    hide Events;
    hide Strike;
    hide Swap;
    var i := t.state.actor;
    var c := Decide(r, t.state, i, false, t.auto[i], replies[i]).value;
    EventsOfMark(Apply(r, t.state, i, c.action).value.1, c.failure, t.auto[i]);
  }

  lemma AppliedTells(r: Rules, s: State, seat: SeatIx, a: Action)
    requires Apply(r, s, seat, a).Ok?
    ensures var (after, events) := Apply(r, s, seat, a).value;
            && EndRecorded(after) && (a.Hu? ==> after.terminal.Some?)
            && events == DiffToEvents(r, s, seat, a, after)
  {
    hide ApplyAction;
    hide DiffToEvents;
  }

  lemma TurnToldAlike(r: Rules, limit: nat, t: Table, u: Table, replies: FourReplies, others: FourReplies,
                      step: Step, twin: Step, viewer: Viewer)
    requires t.state.phase == DiscardPhase && LooksAlike(t.state, u.state, viewer)
    requires DecideAlike(r, t, u, replies, others, viewer)
    requires StepDiscard(r, limit, t, replies) == Ok(step) && StepDiscard(r, limit, u, others) == Ok(twin)
    requires LooksAlike(step.table.state, twin.table.state, viewer)
    ensures ToldAlike(Events(step.log), Events(twin.log), viewer)
  {
    var i := t.state.actor;
    assert u.state.actor == i && t.state.phase == u.state.phase && t.state.drawn == u.state.drawn;
    TurnParts(r, limit, t, replies, step);
    TurnParts(r, limit, u, others, twin);
    hide StepDiscard;
    hide LooksAlike;
    hide Decide;
    hide Apply;
    hide DiffToEvents;
    hide Events;
    hide ToldAlike;
    var a := Decide(r, t.state, i, false, t.auto[i], replies[i]).value.action;
    var b := Decide(r, u.state, i, false, u.auto[i], others[i]).value.action;
    assert ActsAlike(t.state, u.state, i, a, b, viewer);
    AppliedTells(r, t.state, i, a);
    AppliedTells(r, u.state, i, b);
    hide ActsAlike;
    ActionTellsAlike(r, t.state, u.state, i, a, b, step.table.state, twin.table.state, viewer);
  }

  lemma WindowToldAlike(r: Rules, limit: nat, t: Table, u: Table, replies: FourReplies, others: FourReplies,
                        viewer: Viewer)
    requires Inv(t.state) && Inv(u.state) && ValidRules(r)
    requires t.state.phase == ClaimWindow && LooksAlike(t.state, u.state, viewer)
    requires DecideAlike(r, t, u, replies, others, viewer)
    requires StepClaimWindow(r, limit, t, replies).Ok? && StepClaimWindow(r, limit, u, others).Ok?
    requires LooksAlike(StepClaimWindow(r, limit, t, replies).value.table.state,
                        StepClaimWindow(r, limit, u, others).value.table.state, viewer)
    ensures ToldAlike(Events(StepClaimWindow(r, limit, t, replies).value.log),
                      Events(StepClaimWindow(r, limit, u, others).value.log), viewer)
  {
    var s, v := t.state, u.state;
    assert v.phase == ClaimWindow && v.turn == s.turn && v.drawn == s.drawn;
    hide LooksAlike;
    var claimers := Claimers(s.claims);
    ClaimersExist(s);
    ClaimersExist(v);
    hide Inv;
    hide Legal;
    hide Decide;
    hide DecideAll;
    DecisionsAreLegal(r, t, claimers, replies);
    DecisionsAreLegal(r, u, claimers, others);
    var choices, theirs := DecideAll(r, t, claimers, replies).value, DecideAll(r, u, claimers, others).value;
    assert SameActions(claimers, choices, theirs);
    PriorityPicksRightWinner(r, s, claimers, choices);
    SameWinner(claimers, choices, theirs);
    var winner := ResolveClaimPriority(claimers, choices);
    hide ResolveClaimPriority;
    hide ApplyAllPass;
    hide Events;
    hide ToldAlike;
    hide RightWinner;
    if winner.None? {
      assert forall i: SeatIx :: i in claimers ==> choices[i].action == Pass && theirs[i].action == Pass;
      assert forall i: SeatIx :: (i in claimers <==> Claims(s.claims, i)) && (i in claimers <==> Claims(v.claims, i));
      hide Claimers;
      PassesToldAlike(r, s, v, claimers, choices, theirs, t.auto, u.auto, viewer);
    } else {
      var w := winner.value;
      LegalApplies(r, s, w, choices[w].action);
      LegalApplies(r, v, w, theirs[w].action);
      hide Apply;
      hide Claimers;
      hide ResolveWindow;
      ContestToldAlike(r, s, v, claimers, choices, theirs, t.auto, u.auto, w, viewer);
    }
  }

  lemma StepToldAlike(r: Rules, limit: nat, t: Table, u: Table, replies: FourReplies, others: FourReplies,
                      viewer: Viewer)
    requires Inv(t.state) && Inv(u.state) && ValidRules(r) && t.state.phase != TerminalPhase
    requires LooksAlike(t.state, u.state, viewer) && DecideAlike(r, t, u, replies, others, viewer)
    requires StepTable(r, limit, t, replies).Ok? && StepTable(r, limit, u, others).Ok?
    requires LooksAlike(StepTable(r, limit, t, replies).value.table.state,
                        StepTable(r, limit, u, others).value.table.state, viewer)
    ensures ToldAlike(Events(StepTable(r, limit, t, replies).value.log),
                      Events(StepTable(r, limit, u, others).value.log), viewer)
  {
    assert t.state.phase == u.state.phase;
    hide Inv;
    hide LooksAlike;
    hide DecideAlike;
    hide StepDiscard;
    hide StepClaimWindow;
    hide Events;
    hide ToldAlike;
    hide ObserveFault;
    if t.state.phase == DiscardPhase {
      TurnToldAlike(r, limit, t, u, replies, others, StepDiscard(r, limit, t, replies).value,
                    StepDiscard(r, limit, u, others).value, viewer);
    } else {
      WindowToldAlike(r, limit, t, u, replies, others, viewer);
    }
  }

  lemma RunUnfolds(r: Rules, limit: nat, t: Table, script: seq<FourReplies>, run: Step)
    requires script != [] && t.state.phase != TerminalPhase && RunTable(r, limit, t, script) == Ok(run)
    ensures StepTable(r, limit, t, script[0]).Ok?
    ensures var a := StepTable(r, limit, t, script[0]).value;
            && RunTable(r, limit, a.table, script[1..]).Ok?
            && var c := RunTable(r, limit, a.table, script[1..]).value;
               run.table == c.table && run.log == a.log + c.log
  {
    hide StepTable;
  }

  lemma {:induction false} RunsToldAlike(r: Rules, limit: nat, t: Table, u: Table, script: seq<FourReplies>,
                                         other: seq<FourReplies>, run: Step, twin: Step, viewer: Viewer)
    requires Inv(t.state) && Inv(u.state) && ValidRules(r)
    requires RunTable(r, limit, t, script) == Ok(run) && RunTable(r, limit, u, other) == Ok(twin)
    requires RunsLookAlike(r, limit, t, u, script, other, viewer)
    ensures LooksAlike(run.table.state, twin.table.state, viewer)
    ensures ToldAlike(Events(run.log), Events(twin.log), viewer)
    decreases |script|
  {
    assert t.state.phase == u.state.phase;
    hide Inv;
    hide LooksAlike;
    hide DecideAlike;
    hide StepTable;
    hide Events;
    hide ToldAlike;
    if script == [] || t.state.phase == TerminalPhase {
      NothingTold(viewer);
    } else {
      RunUnfolds(r, limit, t, script, run);
      RunUnfolds(r, limit, u, other, twin);
      hide RunTable;
      var a, b := StepTable(r, limit, t, script[0]).value, StepTable(r, limit, u, other[0]).value;
      var c := RunTable(r, limit, a.table, script[1..]).value;
      var d := RunTable(r, limit, b.table, other[1..]).value;
      StepSucceeds(r, limit, t, script[0]);
      StepSucceeds(r, limit, u, other[0]);
      assert RunsLookAlike(r, limit, a.table, b.table, script[1..], other[1..], viewer);
      assert LooksAlike(a.table.state, b.table.state, viewer);
      RunsToldAlike(r, limit, a.table, b.table, script[1..], other[1..], c, d, viewer);
      StepToldAlike(r, limit, t, u, script[0], other[0], viewer);
      EventsConcat(a.log, c.log);
      EventsConcat(b.log, d.log);
      ToldConcat(Events(a.log), Events(b.log), Events(c.log), Events(d.log), viewer);
    }
  }

  /** Runs that look alike go on alike: neither fails. */
  lemma {:induction false} AlikeRunsSucceed(r: Rules, limit: nat, t: Table, u: Table, script: seq<FourReplies>,
                                            other: seq<FourReplies>, viewer: Viewer)
    requires RunsLookAlike(r, limit, t, u, script, other, viewer)
    ensures RunTable(r, limit, t, script).Ok? && RunTable(r, limit, u, other).Ok?
    decreases |script|
  {
    assert t.state.phase == u.state.phase;
    hide LooksAlike;
    hide DecideAlike;
    hide StepTable;
    if script != [] && t.state.phase != TerminalPhase {
      var a, b := StepTable(r, limit, t, script[0]).value, StepTable(r, limit, u, other[0]).value;
      AlikeRunsSucceed(r, limit, a.table, b.table, script[1..], other[1..], viewer);
    }
  }

  /** The events a viewer is sent. */
  function SentTo(events: seq<Event>, viewer: Viewer): seq<Event> {
    seq(|events|, k requires 0 <= k < |events| => ProjectEvent(events[k], viewer))
  }

  /** Non-interference: two runs that differ only in what a viewer may not see send it the
      same events, and leave it with the same projection and, fed from the same view, with
      the same board. */
  lemma RunsSendTheSame(r: Rules, limit: nat, t: Table, u: Table, script: seq<FourReplies>, other: seq<FourReplies>,
                        viewer: Viewer, view: View)
    returns (run: Step, twin: Step)
    requires Inv(t.state) && Inv(u.state) && ValidRules(r)
    requires RunsLookAlike(r, limit, t, u, script, other, viewer)
    ensures RunTable(r, limit, t, script) == Ok(run) && RunTable(r, limit, u, other) == Ok(twin)
    ensures SentTo(Events(run.log), viewer) == SentTo(Events(twin.log), viewer)
    ensures Project(run.table.state, viewer) == Project(twin.table.state, viewer)
    ensures Client.Follow(view, Events(run.log), viewer) == Client.Follow(view, Events(twin.log), viewer)
  {
    AlikeRunsSucceed(r, limit, t, u, script, other, viewer);
    run, twin := RunTable(r, limit, t, script).value, RunTable(r, limit, u, other).value;
    RunsToldAlike(r, limit, t, u, script, other, run, twin, viewer);
    hide RunsLookAlike;
    hide RunTable;
    hide Inv;
    hide LooksAlike;
    hide Project;
    StatesHide(run.table.state, twin.table.state, viewer);
    ToldIsSent(Events(run.log), Events(twin.log), viewer);
    SentIsFollowed(view, Events(run.log), Events(twin.log), viewer);
  }

  lemma ToldIsSent(es: seq<Event>, fs: seq<Event>, viewer: Viewer)
    ensures ToldAlike(es, fs, viewer) <==> SentTo(es, viewer) == SentTo(fs, viewer)
  {
    hide ProjectEvent;
    hide SameToViewer;
    if |es| == |fs| {
      forall k | 0 <= k < |es|
        ensures SameToViewer(es[k], fs[k], viewer) <==> SentTo(es, viewer)[k] == SentTo(fs, viewer)[k]
      {
        EventsHide(es[k], fs[k], viewer);
      }
    } else {
      assert |SentTo(es, viewer)| != |SentTo(fs, viewer)|;
    }
  }

  lemma {:induction false} SentIsFollowed(view: View, es: seq<Event>, fs: seq<Event>, viewer: Viewer)
    requires SentTo(es, viewer) == SentTo(fs, viewer)
    ensures Client.Follow(view, es, viewer) == Client.Follow(view, fs, viewer)
    decreases |es|
  {
    hide ProjectEvent;
    hide Client.ApplyEvent;
    assert |SentTo(es, viewer)| == |es| && |SentTo(fs, viewer)| == |fs|;
    if es != [] {
      assert SentTo(es, viewer)[0] == SentTo(fs, viewer)[0];
      assert SentTo(es[1..], viewer) == SentTo(es, viewer)[1..];
      assert SentTo(fs[1..], viewer) == SentTo(fs, viewer)[1..];
      SentIsFollowed(Client.ApplyEvent(view, ProjectEvent(es[0], viewer)), es[1..], fs[1..], viewer);
    }
  }
}
