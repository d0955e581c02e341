/** What a client knows of flowers and of the last draw: it never learns of a flower
    drawn after the deal, and it always shows the draw of the seat on turn. */
module DrawView {
  import opened Lists
  import opened Tiles
  import opened GameTypes
  import opened Legality
  import opened Scoring
  import opened Transition
  import opened Invariant
  import opened Records
  import opened Manager
  import opened Safety
  import opened Replay
  import opened Views
  import Client

  // --- flowers ---

  /** The flower replacements of a draw are never announced. */
  predicate NoFlowersIn(e: Event) { e.DrawEvent? ==> e.flowerReplacements == [] }

  ghost predicate Unannounced(events: seq<Event>) { forall e :: e in events ==> NoFlowersIn(e) }

  /** Seats only ever gain flowers, behind the ones they have. */
  ghost predicate FlowersGrow(s: State, u: State) {
    forall i: SeatIx :: s.seats[i].flowers <= u.seats[i].flowers
  }

  ghost predicate FlowersKept(c: View, v: View) {
    forall i: SeatIx :: v.seats[i].flowers == c.seats[i].flowers
  }

  lemma SelfGangKeepsFlowers(c: View, seat: SeatIx, kind: GangKind, t: Option<Tile>)
    ensures FlowersKept(c, Client.ApplySelfGang(c, seat, kind, t))
  {
    hide Client.RemoveFromHand;
    hide Client.Upgrade;
  }

  lemma ClaimedKeepsFlowers(c: View, winner: SeatIx, claim: DecisionKind, called: Option<Tile>, chi: Option<seq<Tile>>)
    ensures FlowersKept(c, Client.ApplyClaimed(c, winner, claim, called, chi))
  {
    hide Client.RemoveFromHand;
    hide Client.RemoveChiSupport;
    hide RemoveLast;
  }

  lemma EventKeepsFlowers(c: View, e: Event, viewer: Viewer)
    requires NoFlowersIn(e)
    ensures FlowersKept(c, Client.ApplyEvent(c, ProjectEvent(e, viewer)))
  {
    hide Client.RemoveFromHand;
    hide Client.AddToHand;
    hide OpportunitiesOf;
    match ProjectEvent(e, viewer)
    case DecisionEvent(turn, phase, seat, _, t, gang, _) =>
      hide Client.ApplySelfGang;
      if gang.Some? {
        SelfGangKeepsFlowers(Client.Stamp(c, turn, phase), seat, gang.value, t);
      }
    case ClaimedEvent(turn, phase, winner, claim, called, _, chi) =>
      hide Client.ApplyClaimed;
      ClaimedKeepsFlowers(Client.Stamp(c, turn, phase), winner, claim, called, chi);
    case _ =>
  }

  lemma {:induction false} FollowKeepsFlowers(c: View, events: seq<Event>, viewer: Viewer)
    requires Unannounced(events)
    ensures FlowersKept(c, Client.Follow(c, events, viewer))
    decreases |events|
  {
    hide Client.ApplyEvent;
    if events != [] {
      EventKeepsFlowers(c, events[0], viewer);
      assert Unannounced(events[1..]);
      FollowKeepsFlowers(Client.ApplyEvent(c, ProjectEvent(events[0], viewer)), events[1..], viewer);
    }
  }

  lemma DrawGrows(s: State, seat: SeatIx)
    ensures FlowersGrow(s, InternalDraw(s, seat))
    ensures InternalDraw(s, seat).phase != ClaimWindow
    ensures InternalDraw(s, seat).phase == DiscardPhase ==>
              && InternalDraw(s, seat).drawn > s.drawn && InternalDraw(s, seat).actor == seat
              && InternalDraw(s, seat).lastDrawn.Some? && InternalDraw(s, seat).lastDrawn.value.seat == seat
  {
    hide Sort;
  }

  lemma PlayGrows(r: Rules, s: State, seat: SeatIx, t: Tile)
    requires ApplyPlay(r, s, seat, t).Ok?
    ensures FlowersGrow(s, ApplyPlay(r, s, seat, t).value)
  {
    hide InternalDraw;
    hide OpenClaims;
    hide RemoveFirst;
    var x := Played(s, seat, t);
    DrawGrows(x.(lastDiscard := None, claims := []), Next(seat));
  }

  lemma WinGrows(r: Rules, s: State, seat: SeatIx)
    requires ApplyHu(r, s, seat).Ok?
    ensures FlowersGrow(s, ApplyHu(r, s, seat).value)
  {
    hide ScoreDelta;
    hide FanTotal;
  }

  lemma PassGrows(s: State, seat: SeatIx)
    ensures FlowersGrow(s, ApplyPass(s, seat))
  {
    hide InternalDraw;
    DrawGrows(s.(claims := [], lastDiscard := None),
              Next(if s.lastDiscard.Some? then s.lastDiscard.value.seat else s.actor));
  }

  /** A kong: some seats change tiles, none its flowers, and a tile is drawn. */
  lemma KongDraws(r: Rules, s: State, seat: SeatIx, t: Tile, kind: GangKind) returns (ready: State)
    requires ApplyAction(r, s, seat, Gang(t, kind)).Ok?
    ensures ApplyAction(r, s, seat, Gang(t, kind)).value == InternalDraw(ready, seat)
    ensures FlowersGrow(s, ready) && ready.drawn == s.drawn
  {
    hide Legal;
    hide RemoveTimes;
    hide RemoveFirst;
    hide Promote;
    hide InternalDraw;
    var d := s.seats[seat];
    match kind
    case Exposed =>
      var giver := s.lastDiscard.value.seat;
      ready := ConsumeDiscard(WithSeat(s, seat,
        d.(concealed := RemoveTimes(d.concealed, t, 3),
           melds := d.melds + [Meld(GangExposed, [t, t, t, t], Some(t), giver)])), giver).value.(turn := s.turn + 1);
    case Concealed =>
      ready := WithSeat(s, seat,
        d.(concealed := RemoveTimes(d.concealed, t, 4),
           melds := d.melds + [Meld(GangConcealed, [t, t, t, t], None, seat)])).(turn := s.turn + 1);
    case Added =>
      ready := WithSeat(s, seat,
        d.(concealed := RemoveFirst(d.concealed, t), melds := Promote(d.melds, t))).(turn := s.turn + 1);
  }

  lemma MeldGrows(r: Rules, s: State, seat: SeatIx, a: Action)
    requires (a.Peng? || a.Chi?) && ApplyAction(r, s, seat, a).Ok?
    ensures FlowersGrow(s, ApplyAction(r, s, seat, a).value)
  {
    hide Legal;
    hide RemoveTimes;
    hide RemoveSupport;
  }

  lemma ActionGrows(r: Rules, s: State, seat: SeatIx, a: Action)
    requires ApplyAction(r, s, seat, a).Ok?
    ensures FlowersGrow(s, ApplyAction(r, s, seat, a).value)
  {
    match a
    case Gang(t, kind) =>
      hide ApplyAction;
      hide InternalDraw;
      var ready := KongDraws(r, s, seat, t, kind);
      DrawGrows(ready, seat);
    case Play(t) =>
      hide FlowersGrow;
      hide ApplyPlay;
      PlayGrows(r, s, seat, t);
    case Pass =>
      hide FlowersGrow;
      hide ApplyPass;
      PassGrows(s, seat);
    case Hu =>
      hide FlowersGrow;
      hide ApplyHu;
      WinGrows(r, s, seat);
    case _ =>
      hide ApplyAction;
      MeldGrows(r, s, seat, a);
  }

  lemma EventsUnannounced(r: Rules, before: State, seat: SeatIx, a: Action, after: State)
    requires EndRecorded(after) && (a.Hu? ==> after.terminal.Some?)
    ensures Unannounced(DiffToEvents(r, before, seat, a, after))
  {
    WindowIsNoDraw(r, after);
    hide WindowOpened;
  }

  lemma WindowIsNoDraw(r: Rules, after: State)
    ensures WindowOpened(r, after).WindowEvent?
  {
  }

  lemma AppliedFlowers(r: Rules, s: State, seat: SeatIx, a: Action)
    requires Apply(r, s, seat, a).Ok?
    ensures FlowersGrow(s, Apply(r, s, seat, a).value.0) && Unannounced(Apply(r, s, seat, a).value.1)
  {
    hide ApplyAction;
    hide FlowersGrow;
    hide Unannounced;
    hide DiffToEvents;
    ActionGrows(r, s, seat, a);
    EventsUnannounced(r, s, seat, a, ApplyAction(r, s, seat, a).value);
  }

  lemma UnannouncedConcat(a: seq<Event>, b: seq<Event>)
    requires Unannounced(a) && Unannounced(b)
    ensures Unannounced(a + b)
  {
  }

  lemma {:induction false} DecisionsUnannounced(s: State, claimers: seq<SeatIx>, choices: FourChoices, auto: FourFlags)
    ensures Unannounced(Events(DecisionLog(s, claimers, choices, auto)))
    decreases |claimers|
  {
    hide Unannounced;
    if claimers == [] {
      NothingAnnounced();
    } else {
      var seat := claimers[0];
      var first := Logged(Decision(s, seat, choices[seat].action), choices[seat].failure, auto[seat]);
      var rest := DecisionLog(s, claimers[1..], choices, auto);
      DecisionsUnannounced(s, claimers[1..], choices, auto);
      OneUnannounced(first);
      EventsConcat([first], rest);
      UnannouncedConcat(Events([first]), Events(rest));
    }
  }

  lemma NothingAnnounced()
    ensures Unannounced(Events([]))
  {
  }

  lemma OneUnannounced(l: Logged)
    requires NoFlowersIn(l.event)
    ensures Unannounced(Events([l]))
  {
  }

  /** A step, or part of one, announces no flower and takes none from a seat. */
  ghost predicate Flowering(s: State, log: seq<Logged>, u: State) { Unannounced(Events(log)) && FlowersGrow(s, u) }

  lemma FloweringThen(s: State, a: seq<Logged>, mid: State, b: seq<Logged>, u: State)
    requires Flowering(s, a, mid) && Flowering(mid, b, u)
    ensures Flowering(s, a + b, u)
  {
    EventsConcat(a, b);
    hide Events;
    UnannouncedConcat(Events(a), Events(b));
    hide Unannounced;
    forall i: SeatIx ensures s.seats[i].flowers <= u.seats[i].flowers {
      assert s.seats[i].flowers <= mid.seats[i].flowers <= u.seats[i].flowers;
    }
  }

  lemma MarkFlowering(r: Rules, s: State, seat: SeatIx, a: Action, failure: Failure, auto: bool)
    requires Apply(r, s, seat, a).Ok?
    ensures Flowering(s, Mark(Apply(r, s, seat, a).value.1, failure, auto), Apply(r, s, seat, a).value.0)
    ensures Flowering(s, Mark(WithoutDecision(Apply(r, s, seat, a).value.1), failure, false), Apply(r, s, seat, a).value.0)
  {
    AppliedFlowers(r, s, seat, a);
    hide Apply;
    hide Mark;
    hide Events;
    hide FlowersGrow;
    EventsOfMark(Apply(r, s, seat, a).value.1, failure, auto);
    EventsOfMark(WithoutDecision(Apply(r, s, seat, a).value.1), failure, false);
  }

  lemma NothingFlowers(s: State)
    ensures Flowering(s, [], s)
  {
  }

  lemma {:induction false} PassesFlowering(r: Rules, s: State, claimers: seq<SeatIx>, choices: FourChoices, auto: FourFlags)
    requires ApplyAllPass(r, s, claimers, choices, auto).Ok?
    ensures var c := ApplyAllPass(r, s, claimers, choices, auto).value;
            Flowering(s, c.log, c.state)
    decreases |claimers|
  {
    hide Apply;
    hide Flowering;
    hide Mark;
    hide Written;
    if claimers == [] || s.phase != ClaimWindow {
      NothingFlowers(s);
    } else {
      var seat := claimers[0];
      var (after, events) := Apply(r, s, seat, choices[seat].action).value;
      MarkFlowering(r, s, seat, choices[seat].action, choices[seat].failure, auto[seat]);
      PassesFlowering(r, after, claimers[1..], choices, auto);
      var rest := ApplyAllPass(r, after, claimers[1..], choices, auto).value;
      FloweringThen(s, Mark(events, choices[seat].failure, auto[seat]), after, rest.log, rest.state);
    }
  }

  lemma WindowFlowering(r: Rules, s: State, claimers: seq<SeatIx>, choices: FourChoices, auto: FourFlags)
    requires ResolveWindow(r, s, claimers, choices, auto).Ok?
    ensures var c := ResolveWindow(r, s, claimers, choices, auto).value;
            Flowering(s, c.log, c.state)
  {
    hide Apply;
    hide Flowering;
    hide Mark;
    hide Written;
    hide ApplyAllPass;
    hide DecisionLog;
    hide ResolveClaimPriority;
    var winner := ResolveClaimPriority(claimers, choices);
    if winner.None? {
      PassesFlowering(r, s, claimers, choices, auto);
    } else {
      var choice := choices[winner.value];
      var (after, events) := Apply(r, s, winner.value, choice.action).value;
      MarkFlowering(r, s, winner.value, choice.action, choice.failure, false);
      DecisionsFlowering(s, claimers, choices, auto);
      FloweringThen(s, DecisionLog(s, claimers, choices, auto), s, Mark(WithoutDecision(events), choice.failure, false), after);
    }
  }

  lemma DecisionsFlowering(s: State, claimers: seq<SeatIx>, choices: FourChoices, auto: FourFlags)
    ensures Flowering(s, DecisionLog(s, claimers, choices, auto), s)
  {
    DecisionsUnannounced(s, claimers, choices, auto);
  }

  lemma StepFlowering(r: Rules, limit: nat, t: Table, replies: FourReplies)
    requires StepTable(r, limit, t, replies).Ok?
    ensures var step := StepTable(r, limit, t, replies).value;
            Flowering(t.state, step.log, step.table.state)
  {
    hide Apply;
    hide Flowering;
    hide Mark;
    hide Written;
    hide Decide;
    hide DecideAll;
    hide ResolveWindow;
    hide Claimers;
    hide ObserveFault;
    if t.state.phase == DiscardPhase {
      var actor := t.state.actor;
      var choice := Decide(r, t.state, actor, false, t.auto[actor], replies[actor]).value;
      MarkFlowering(r, t.state, actor, choice.action, choice.failure, t.auto[actor]);
    } else if t.state.phase == ClaimWindow {
      var claimers := Claimers(t.state.claims);
      WindowFlowering(r, t.state, claimers, DecideAll(r, t, claimers, replies).value, t.auto);
    } else {
      NothingFlowers(t.state);
    }
  }

  /** Over any run no flower is announced, and seats only gain flowers. */
  lemma {:induction false} RunFlowering(r: Rules, limit: nat, t: Table, script: seq<FourReplies>, run: Step)
    requires RunTable(r, limit, t, script) == Ok(run)
    ensures Flowering(t.state, run.log, run.table.state)
    decreases |script|
  {
    hide StepTable;
    hide Flowering;
    if script == [] || t.state.phase == TerminalPhase {
      NothingFlowers(t.state);
    } else {
      var step := StepTable(r, limit, t, script[0]).value;
      var rest := RunTable(r, limit, step.table, script[1..]).value;
      StepFlowering(r, limit, t, script[0]);
      RunFlowering(r, limit, step.table, script[1..], rest);
      FloweringThen(t.state, step.log, step.table.state, rest.log, rest.table.state);
    }
  }

  // --- the last draw ---

  /** What an event does to the client's last draw. */
  function NextDrawn(d: Option<DrawnView>, e: Event): Option<DrawnView> {
    match e
    case DrawEvent(_, _, seat, drawn, _) => Some(DrawnView(seat, drawn))
    case DiscardEvent(_, _, _, _, _) => None
    case _ => d
  }

  function DrawnAfter(d: Option<DrawnView>, events: seq<Event>, viewer: Viewer): Option<DrawnView>
    decreases |events|
  {
    if events == [] then d else DrawnAfter(NextDrawn(d, ProjectEvent(events[0], viewer)), events[1..], viewer)
  }

  lemma EventDrawn(c: View, e: Event)
    ensures Client.ApplyEvent(c, e).lastDrawn == NextDrawn(c.lastDrawn, e)
  {
    hide Client.RemoveFromHand;
    hide Client.AddToHand;
    hide Client.RemoveChiSupport;
    hide Client.Upgrade;
    hide RemoveLast;
  }

  lemma {:induction false} FollowDrawn(c: View, events: seq<Event>, viewer: Viewer)
    ensures Client.Follow(c, events, viewer).lastDrawn == DrawnAfter(c.lastDrawn, events, viewer)
    decreases |events|
  {
    hide Client.ApplyEvent;
    hide NextDrawn;
    hide ProjectEvent;
    if events != [] {
      EventDrawn(c, ProjectEvent(events[0], viewer));
      FollowDrawn(Client.ApplyEvent(c, ProjectEvent(events[0], viewer)), events[1..], viewer);
    }
  }

  lemma {:induction false} DrawnConcat(d: Option<DrawnView>, a: seq<Event>, b: seq<Event>, viewer: Viewer)
    ensures DrawnAfter(d, a + b, viewer) == DrawnAfter(DrawnAfter(d, a, viewer), b, viewer)
    decreases |a|
  {
    hide NextDrawn;
    hide ProjectEvent;
    if a == [] {
      assert a + b == b;
    } else {
      assert (a + b)[1..] == a[1..] + b;
      DrawnConcat(NextDrawn(d, ProjectEvent(a[0], viewer)), a[1..], b, viewer);
    }
  }

  /** The client shows no draw in a window, and to a seat the draw of the seat on
      turn as the server projects it. */
  predicate ShowsDraw(d: Option<DrawnView>, s: State, viewer: Viewer) {
    && (s.phase == ClaimWindow ==> d == None)
    && (s.phase == DiscardPhase && viewer.Some? ==> d == Project(s, viewer).lastDrawn)
  }

  lemma DrawnAfterOne(d: Option<DrawnView>, e: Event, viewer: Viewer)
    ensures DrawnAfter(d, [e], viewer) == NextDrawn(d, ProjectEvent(e, viewer))
  {
    hide NextDrawn;
    hide ProjectEvent;
    assert [e][1..] == [];
  }

  lemma DrawnAfterTwo(d: Option<DrawnView>, e: Event, f: Event, viewer: Viewer)
    ensures DrawnAfter(d, [e, f], viewer) == NextDrawn(NextDrawn(d, ProjectEvent(e, viewer)), ProjectEvent(f, viewer))
  {
    hide NextDrawn;
    hide ProjectEvent;
    hide DrawnAfter;
    assert [e, f] == [e] + [f];
    DrawnConcat(d, [e], [f], viewer);
    DrawnAfterOne(d, e, viewer);
    DrawnAfterOne(NextDrawn(d, ProjectEvent(e, viewer)), f, viewer);
  }

  /** An event that tells of no draw and no discard. */
  predicate Undrawn(e: Event) { !e.DrawEvent? && !e.DiscardEvent? }

  lemma {:induction false} UndrawnKeeps(d: Option<DrawnView>, events: seq<Event>, viewer: Viewer)
    requires forall e :: e in events ==> Undrawn(e)
    ensures DrawnAfter(d, events, viewer) == d
    decreases |events|
  {
    if events != [] {
      assert Undrawn(events[0]);
      UndrawnKeeps(d, events[1..], viewer);
    }
  }

  /** Events that end with the draw of the seat on turn. */
  lemma DrawLast(d: Option<DrawnView>, events: seq<Event>, after: State, viewer: Viewer)
    requires after.phase == DiscardPhase && after.lastDrawn.Some? && after.lastDrawn.value.seat == after.actor
    requires events != [] && events[|events| - 1] == Drawn(after)
    ensures ShowsDraw(DrawnAfter(d, events, viewer), after, viewer)
  {
    hide NextDrawn;
    hide ProjectEvent;
    hide ShowsDraw;
    hide DrawnAfter;
    var front := events[..|events| - 1];
    assert events == front + [Drawn(after)];
    hide Drawn;
    DrawnConcat(d, front, [Drawn(after)], viewer);
    DrawnAfterOne(DrawnAfter(d, front, viewer), Drawn(after), viewer);
    DrawShown(DrawnAfter(d, front, viewer), after, viewer);
  }

  lemma DrawShown(d: Option<DrawnView>, after: State, viewer: Viewer)
    requires after.phase == DiscardPhase && after.lastDrawn.Some? && after.lastDrawn.value.seat == after.actor
    ensures ShowsDraw(NextDrawn(d, ProjectEvent(Drawn(after), viewer)), after, viewer)
  {
  }

  /** A state right after a draw, or the end of the hand. */
  ghost predicate JustDrawn(before: State, after: State) {
    && after.phase != ClaimWindow
    && (after.phase == DiscardPhase ==>
          DrewTile(before, after) && after.lastDrawn.Some? && after.lastDrawn.value.seat == after.actor)
  }

  lemma DrawJustDrawn(s: State, seat: SeatIx, before: State)
    requires s.drawn == before.drawn
    ensures JustDrawn(before, InternalDraw(s, seat))
  {
    DrawGrows(s, seat);
    hide InternalDraw;
  }

  lemma PlayLeads(r: Rules, s: State, seat: SeatIx, t: Tile)
    requires ApplyPlay(r, s, seat, t).Ok?
    ensures ApplyPlay(r, s, seat, t).value.phase == ClaimWindow || JustDrawn(s, ApplyPlay(r, s, seat, t).value)
  {
    hide InternalDraw;
    hide OpenClaims;
    hide RemoveFirst;
    hide JustDrawn;
    var x := Played(s, seat, t);
    DrawJustDrawn(x.(lastDiscard := None, claims := []), Next(seat), s);
  }

  lemma PassLeads(s: State, seat: SeatIx)
    requires s.phase == ClaimWindow
    ensures ApplyPass(s, seat).phase == ClaimWindow || JustDrawn(s, ApplyPass(s, seat))
  {
    hide InternalDraw;
    hide JustDrawn;
    DrawJustDrawn(s.(claims := [], lastDiscard := None),
                  Next(if s.lastDiscard.Some? then s.lastDiscard.value.seat else s.actor), s);
  }

  lemma PlayEvents(r: Rules, s: State, seat: SeatIx, t: Tile, after: State)
    requires EndRecorded(after)
    ensures var events := DiffToEvents(r, s, seat, Play(t), after);
            && (after.phase == ClaimWindow ==> events == [Discarded(s, after, seat, t), WindowOpened(r, after)])
            && (after.phase == DiscardPhase && DrewTile(s, after) ==>
                  events == [Discarded(s, after, seat, t), Drawn(after)])
  {
    hide Discarded;
    hide Drawn;
    hide WindowOpened;
  }

  lemma PlayShows(r: Rules, s: State, seat: SeatIx, t: Tile, d: Option<DrawnView>, viewer: Viewer)
    requires Apply(r, s, seat, Play(t)).Ok?
    ensures var (after, events) := Apply(r, s, seat, Play(t)).value;
            ShowsDraw(DrawnAfter(d, events, viewer), after, viewer)
  {
    hide ApplyPlay;
    hide Legal;
    hide DiffToEvents;
    hide WindowOpened;
    hide Drawn;
    hide DrawnAfter;
    PlayLeads(r, s, seat, t);
    var (after, events) := Apply(r, s, seat, Play(t)).value;
    WindowIsNoDraw(r, after);
    PlayEvents(r, s, seat, t, after);
    if after.phase == ClaimWindow {
      DrawnAfterTwo(d, Discarded(s, after, seat, t), WindowOpened(r, after), viewer);
    } else if after.phase == DiscardPhase {
      DrawLast(d, events, after, viewer);
    }
  }

  lemma KongEvents(r: Rules, s: State, seat: SeatIx, t: Tile, kind: GangKind, after: State)
    requires EndRecorded(after) && after.phase == DiscardPhase && DrewTile(s, after)
    ensures var events := DiffToEvents(r, s, seat, Gang(t, kind), after);
            && events != [] && events[|events| - 1] == Drawn(after)
            && WithoutDecision(events) != []
            && WithoutDecision(events)[|WithoutDecision(events)| - 1] == Drawn(after)
  {
    hide Drawn;
    hide Claimed;
  }

  lemma KongApplied(r: Rules, s: State, seat: SeatIx, t: Tile, kind: GangKind)
    requires ApplyAction(r, s, seat, Gang(t, kind)).Ok?
    ensures JustDrawn(s, ApplyAction(r, s, seat, Gang(t, kind)).value)
  {
    var ready := KongDraws(r, s, seat, t, kind);
    hide ApplyAction;
    hide JustDrawn;
    DrawJustDrawn(ready, seat, s);
  }

  lemma KongShows(r: Rules, s: State, seat: SeatIx, t: Tile, kind: GangKind, d: Option<DrawnView>, viewer: Viewer)
    requires Apply(r, s, seat, Gang(t, kind)).Ok?
    ensures var (after, events) := Apply(r, s, seat, Gang(t, kind)).value;
            && after.phase != ClaimWindow
            && ShowsDraw(DrawnAfter(d, events, viewer), after, viewer)
            && ShowsDraw(DrawnAfter(d, WithoutDecision(events), viewer), after, viewer)
  {
    hide ApplyAction;
    hide DiffToEvents;
    hide WithoutDecision;
    hide Drawn;
    hide DrawnAfter;
    KongApplied(r, s, seat, t, kind);
    var (after, events) := Apply(r, s, seat, Gang(t, kind)).value;
    if after.phase == DiscardPhase {
      KongEvents(r, s, seat, t, kind, after);
      DrawLast(d, events, after, viewer);
      DrawLast(d, WithoutDecision(events), after, viewer);
    }
  }

  lemma PassEvents(r: Rules, s: State, seat: SeatIx, after: State)
    requires s.phase == ClaimWindow && EndRecorded(after)
    ensures var events := DiffToEvents(r, s, seat, Pass, after);
            && (after.phase == ClaimWindow ==> events == [Decision(after, seat, Pass)])
            && (after.phase == DiscardPhase && DrewTile(s, after) ==>
                  events != [] && events[|events| - 1] == Drawn(after))
  {
    hide Decision;
    hide Drawn;
  }

  lemma PassShows(r: Rules, s: State, seat: SeatIx, d: Option<DrawnView>, viewer: Viewer)
    requires s.phase == ClaimWindow && Apply(r, s, seat, Pass).Ok? && ShowsDraw(d, s, viewer)
    ensures var (after, events) := Apply(r, s, seat, Pass).value;
            ShowsDraw(DrawnAfter(d, events, viewer), after, viewer)
  {
    hide ApplyPass;
    hide Legal;
    hide DiffToEvents;
    hide Drawn;
    hide DrawnAfter;
    PassLeads(s, seat);
    var (after, events) := Apply(r, s, seat, Pass).value;
    PassEvents(r, s, seat, after);
    if after.phase == ClaimWindow {
      DrawnAfterOne(d, events[0], viewer);
    } else if after.phase == DiscardPhase {
      DrawLast(d, events, after, viewer);
    }
  }

  lemma MeldEvents(r: Rules, s: State, seat: SeatIx, a: Action, after: State)
    requires (a.Peng? || a.Chi?) && EndRecorded(after)
    ensures WithoutDecision(DiffToEvents(r, s, seat, a, after)) == [Claimed(after, seat, a)]
  {
    hide Claimed;
  }

  lemma MeldShows(r: Rules, s: State, seat: SeatIx, a: Action, d: Option<DrawnView>, viewer: Viewer)
    requires (a.Peng? || a.Chi?) && Apply(r, s, seat, a).Ok? && d == None
    ensures var (after, events) := Apply(r, s, seat, a).value;
            ShowsDraw(DrawnAfter(d, WithoutDecision(events), viewer), after, viewer)
  {
    hide ApplyAction;
    hide DiffToEvents;
    hide WithoutDecision;
    hide DrawnAfter;
    hide ShowsDraw;
    hide NextDrawn;
    hide ProjectEvent;
    hide Claimed;
    MeldHandsOver(r, s, seat, a);
    var after := Apply(r, s, seat, a).value.0;
    MeldEvents(r, s, seat, a, after);
    DrawnAfterOne(d, Claimed(after, seat, a), viewer);
    NoDrawShown(after, seat, a, viewer);
  }

  lemma NoDrawShown(after: State, seat: SeatIx, a: Action, viewer: Viewer)
    requires after.phase == DiscardPhase && after.lastDrawn == None
    ensures ShowsDraw(NextDrawn(None, ProjectEvent(Claimed(after, seat, a), viewer)), after, viewer)
  {
  }

  lemma MeldHandsOver(r: Rules, s: State, seat: SeatIx, a: Action)
    requires (a.Peng? || a.Chi?) && ApplyAction(r, s, seat, a).Ok?
    ensures ApplyAction(r, s, seat, a).value.lastDrawn == None
    ensures ApplyAction(r, s, seat, a).value.phase == DiscardPhase
  {
    hide Legal;
    hide RemoveTimes;
    hide RemoveSupport;
  }

  lemma WinShows(r: Rules, s: State, seat: SeatIx, d: Option<DrawnView>, viewer: Viewer)
    requires Apply(r, s, seat, Hu).Ok?
    ensures Apply(r, s, seat, Hu).value.0.phase == TerminalPhase
    ensures ShowsDraw(d, Apply(r, s, seat, Hu).value.0, viewer)
  {
    HuEnds(r, s, seat);
    hide ApplyAction;
  }

  /** An action of the seat on turn. */
  lemma TurnShows(r: Rules, s: State, seat: SeatIx, a: Action, d: Option<DrawnView>, viewer: Viewer)
    requires s.phase == DiscardPhase && Apply(r, s, seat, a).Ok?
    ensures var (after, events) := Apply(r, s, seat, a).value;
            ShowsDraw(DrawnAfter(d, events, viewer), after, viewer)
  {
    AppliedIsLegal(r, s, seat, a);
    match a
    case Play(t) =>
      hide Apply;
      PlayShows(r, s, seat, t, d, viewer);
    case Gang(t, kind) =>
      hide Apply;
      KongShows(r, s, seat, t, kind, d, viewer);
    case Hu =>
      hide Apply;
      WinShows(r, s, seat, DrawnAfter(d, Apply(r, s, seat, a).value.1, viewer), viewer);
    case _ =>
      assert false;
  }

  lemma AppliedIsLegal(r: Rules, s: State, seat: SeatIx, a: Action)
    requires Apply(r, s, seat, a).Ok?
    ensures Legal(r, s, seat, a)
  {
    hide Legal;
  }

  /** The action that wins a window, without its own decision. */
  lemma ClaimShows(r: Rules, s: State, seat: SeatIx, a: Action, d: Option<DrawnView>, viewer: Viewer)
    requires s.phase == ClaimWindow && Apply(r, s, seat, a).Ok? && !a.Pass? && ShowsDraw(d, s, viewer)
    ensures var (after, events) := Apply(r, s, seat, a).value;
            ShowsDraw(DrawnAfter(d, WithoutDecision(events), viewer), after, viewer)
  {
    AppliedIsLegal(r, s, seat, a);
    match a
    case Gang(t, kind) =>
      hide Apply;
      KongShows(r, s, seat, t, kind, d, viewer);
    case Hu =>
      hide Apply;
      WinShows(r, s, seat, DrawnAfter(d, WithoutDecision(Apply(r, s, seat, a).value.1), viewer), viewer);
    case Play(_) =>
      assert false;
    case _ =>
      hide Apply;
      MeldShows(r, s, seat, a, d, viewer);
  }

  lemma {:induction false} DecisionsUndrawn(s: State, claimers: seq<SeatIx>, choices: FourChoices, auto: FourFlags,
                                            d: Option<DrawnView>, viewer: Viewer)
    ensures DrawnAfter(d, Events(DecisionLog(s, claimers, choices, auto)), viewer) == d
    decreases |claimers|
  {
    hide DrawnAfter;
    if claimers == [] {
      assert Events([]) == [];
      UndrawnKeeps(d, [], viewer);
    } else {
      var seat := claimers[0];
      var first := Logged(Decision(s, seat, choices[seat].action), choices[seat].failure, auto[seat]);
      var rest := DecisionLog(s, claimers[1..], choices, auto);
      DecisionsUndrawn(s, claimers[1..], choices, auto, d, viewer);
      EventsConcat([first], rest);
      assert Events([first]) == [first.event];
      DrawnConcat(d, [first.event], Events(rest), viewer);
      DrawnAfterOne(d, first.event, viewer);
    }
  }

  /** A step, or part of one, after which a client that showed the last draw does so. */
  ghost predicate Shows(s: State, log: seq<Logged>, u: State, viewer: Viewer) {
    forall d :: ShowsDraw(d, s, viewer) ==> ShowsDraw(DrawnAfter(d, Events(log), viewer), u, viewer)
  }

  lemma ShowsThen(s: State, a: seq<Logged>, mid: State, b: seq<Logged>, u: State, viewer: Viewer)
    requires Shows(s, a, mid, viewer) && Shows(mid, b, u, viewer)
    ensures Shows(s, a + b, u, viewer)
  {
    EventsConcat(a, b);
    hide Events;
    hide ShowsDraw;
    hide DrawnAfter;
    forall d | ShowsDraw(d, s, viewer) ensures ShowsDraw(DrawnAfter(d, Events(a + b), viewer), u, viewer) {
      DrawnConcat(d, Events(a), Events(b), viewer);
      assert ShowsDraw(DrawnAfter(d, Events(a), viewer), mid, viewer);
    }
  }

  lemma ShowsNothing(s: State, viewer: Viewer)
    ensures Shows(s, [], s, viewer)
  {
    assert Events([]) == [];
  }

  lemma {:induction false} PassesShow(r: Rules, s: State, claimers: seq<SeatIx>, choices: FourChoices, auto: FourFlags,
                                      viewer: Viewer)
    requires ApplyAllPass(r, s, claimers, choices, auto).Ok?
    requires forall i: SeatIx :: i in claimers ==> choices[i].action == Pass
    ensures var c := ApplyAllPass(r, s, claimers, choices, auto).value;
            Shows(s, c.log, c.state, viewer)
    decreases |claimers|
  {
    hide Apply;
    hide Shows;
    hide Mark;
    hide Written;
    if claimers == [] || s.phase != ClaimWindow {
      ShowsNothing(s, viewer);
    } else {
      var seat := claimers[0];
      assert seat in claimers;
      var (after, events) := Apply(r, s, seat, Pass).value;
      var marked := Mark(events, choices[seat].failure, auto[seat]);
      PassShowsLogged(r, s, seat, marked, choices[seat].failure, auto[seat], viewer);
      forall i: SeatIx | i in claimers[1..] ensures choices[i].action == Pass {
        assert i in claimers;
      }
      PassesShow(r, after, claimers[1..], choices, auto, viewer);
      var rest := ApplyAllPass(r, after, claimers[1..], choices, auto).value;
      ShowsThen(s, marked, after, rest.log, rest.state, viewer);
    }
  }

  lemma PassShowsLogged(r: Rules, s: State, seat: SeatIx, marked: seq<Logged>, failure: Failure, auto: bool, viewer: Viewer)
    requires s.phase == ClaimWindow && Apply(r, s, seat, Pass).Ok?
    requires marked == Mark(Apply(r, s, seat, Pass).value.1, failure, auto)
    ensures Shows(s, marked, Apply(r, s, seat, Pass).value.0, viewer)
  {
    hide Apply;
    hide Mark;
    hide Events;
    hide ShowsDraw;
    hide DrawnAfter;
    EventsOfMark(Apply(r, s, seat, Pass).value.1, failure, auto);
    forall d | ShowsDraw(d, s, viewer)
      ensures ShowsDraw(DrawnAfter(d, Events(marked), viewer), Apply(r, s, seat, Pass).value.0, viewer)
    {
      PassShows(r, s, seat, d, viewer);
    }
  }

  lemma ContestShows(r: Rules, s: State, claimers: seq<SeatIx>, choices: FourChoices, auto: FourFlags, w: SeatIx,
                     viewer: Viewer)
    requires s.phase == ClaimWindow && w in claimers && !choices[w].action.Pass?
    requires ResolveClaimPriority(claimers, choices) == Some(w)
    requires Apply(r, s, w, choices[w].action).Ok? && ResolveWindow(r, s, claimers, choices, auto).Ok?
    ensures var c := ResolveWindow(r, s, claimers, choices, auto).value;
            Shows(s, c.log, c.state, viewer)
  {
    hide Apply;
    hide Mark;
    hide Events;
    hide ShowsDraw;
    hide DrawnAfter;
    hide ResolveWindow;
    hide ResolveClaimPriority;
    hide DecisionLog;
    hide AllRecordable;
    ContestUnfolds(r, s, claimers, choices, auto, w);
    var a := choices[w].action;
    var (after, events) := Apply(r, s, w, a).value;
    var decisions := DecisionLog(s, claimers, choices, auto);
    var outcome := Mark(WithoutDecision(events), choices[w].failure, false);
    EventsOfMark(WithoutDecision(events), choices[w].failure, false);
    EventsConcat(decisions, outcome);
    forall d | ShowsDraw(d, s, viewer)
      ensures ShowsDraw(DrawnAfter(d, Events(decisions + outcome), viewer), after, viewer)
    {
      DecisionsUndrawn(s, claimers, choices, auto, d, viewer);
      DrawnConcat(d, Events(decisions), Events(outcome), viewer);
      ClaimShows(r, s, w, a, d, viewer);
    }
  }

  lemma WindowShows(r: Rules, t: Table, replies: FourReplies, viewer: Viewer)
    requires Inv(t.state) && t.state.phase == ClaimWindow && ValidRules(r)
    requires DecideAll(r, t, Claimers(t.state.claims), replies).Ok?
    ensures var claimers := Claimers(t.state.claims);
            var closing := ResolveWindow(r, t.state, claimers, DecideAll(r, t, claimers, replies).value, t.auto);
            closing.Ok? ==> Shows(t.state, closing.value.log, closing.value.state, viewer)
  {
    hide Inv;
    hide Legal;
    hide Claimers;
    hide DecideAll;
    hide ResolveClaimPriority;
    hide RightWinner;
    hide ApplyAllPass;
    hide Apply;
    hide Decide;
    hide DecisionLog;
    hide Shows;
    hide Mark;
    hide Written;
    var claimers := Claimers(t.state.claims);
    ClaimersExist(t.state);
    DecisionsAreLegal(r, t, claimers, replies);
    var choices := DecideAll(r, t, claimers, replies).value;
    PriorityPicksRightWinner(r, t.state, claimers, choices);
    var winner := ResolveClaimPriority(claimers, choices);
    if ResolveWindow(r, t.state, claimers, choices, t.auto).Ok? {
      if winner.None? {
        PassesShow(r, t.state, claimers, choices, t.auto, viewer);
      } else {
        assert Legal(r, t.state, winner.value, choices[winner.value].action);
        LegalApplies(r, t.state, winner.value, choices[winner.value].action);
        ContestShows(r, t.state, claimers, choices, t.auto, winner.value, viewer);
      }
    }
  }

  lemma TurnShowsLogged(r: Rules, s: State, seat: SeatIx, a: Action, failure: Failure, auto: bool, viewer: Viewer)
    requires s.phase == DiscardPhase && Apply(r, s, seat, a).Ok?
    ensures Shows(s, Mark(Apply(r, s, seat, a).value.1, failure, auto), Apply(r, s, seat, a).value.0, viewer)
  {
    hide Apply;
    hide Mark;
    hide Events;
    hide ShowsDraw;
    hide DrawnAfter;
    EventsOfMark(Apply(r, s, seat, a).value.1, failure, auto);
    var marked := Mark(Apply(r, s, seat, a).value.1, failure, auto);
    forall d | ShowsDraw(d, s, viewer)
      ensures ShowsDraw(DrawnAfter(d, Events(marked), viewer), Apply(r, s, seat, a).value.0, viewer)
    {
      TurnShows(r, s, seat, a, d, viewer);
    }
  }

  lemma StepShows(r: Rules, limit: nat, t: Table, replies: FourReplies, viewer: Viewer)
    requires Inv(t.state) && t.state.phase != TerminalPhase && ValidRules(r) && StepTable(r, limit, t, replies).Ok?
    ensures var step := StepTable(r, limit, t, replies).value;
            Shows(t.state, step.log, step.table.state, viewer)
  {
    hide Inv;
    hide Apply;
    hide Shows;
    hide Mark;
    hide Written;
    hide Decide;
    hide DecideAll;
    hide ResolveWindow;
    hide Claimers;
    hide ObserveFault;
    if t.state.phase == DiscardPhase {
      var actor := t.state.actor;
      var choice := Decide(r, t.state, actor, false, t.auto[actor], replies[actor]).value;
      TurnShowsLogged(r, t.state, actor, choice.action, choice.failure, t.auto[actor], viewer);
    } else {
      WindowShows(r, t, replies, viewer);
    }
  }

  /** Over any run the client shows the draw of the seat on turn. */
  lemma {:induction false} RunShows(r: Rules, limit: nat, t: Table, script: seq<FourReplies>, run: Step, viewer: Viewer)
    requires Inv(t.state) && ValidRules(r) && RunTable(r, limit, t, script) == Ok(run)
    ensures Shows(t.state, run.log, run.table.state, viewer)
    decreases |script|
  {
    hide Inv;
    hide StepTable;
    hide Shows;
    if script == [] || t.state.phase == TerminalPhase {
      ShowsNothing(t.state, viewer);
    } else {
      StepSucceeds(r, limit, t, script[0]);
      var step := StepTable(r, limit, t, script[0]).value;
      var rest := RunTable(r, limit, step.table, script[1..]).value;
      StepShows(r, limit, t, script[0], viewer);
      RunShows(r, limit, step.table, script[1..], rest, viewer);
      ShowsThen(t.state, step.log, step.table.state, rest.log, rest.table.state, viewer);
    }
  }
}
