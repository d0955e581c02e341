/** The record of a hand: its events, and what a transition adds to it
    (records/diff.py). */
module Records {
  import opened Lists
  import opened Tiles
  import opened GameTypes
  import opened Legality
  import opened Transition
  import opened Engine

  datatype DecisionKind = DecidePlay | DecidePass | DecidePeng | DecideChi | DecideGang | DecideHu

  datatype Opportunity = Opportunity(seat: SeatIx, claim: DecisionKind, tile: Option<Tile>, chiTiles: Option<seq<Tile>>)

  datatype FinalHand = FinalHand(concealed: seq<Tile>, melds: seq<Meld>, flowers: seq<Tile>)

  datatype HeaderSeat = HeaderSeat(seat: SeatIx, wind: Option<Tile>)

  /** One record event; a field that a dictionary may lack is an Option. */
  datatype Event =
    | HeaderEvent(seed: nat, seats: seq<HeaderSeat>)
    | DiscardEvent(turn: nat, phase: Phase, seat: SeatIx, tile: Tile, fromHand: bool)
    | WindowEvent(turn: nat, phase: Phase, opportunities: seq<Opportunity>)
    | DecisionEvent(turn: nat, phase: Phase, seat: SeatIx, decision: DecisionKind,
                    tileOf: Option<Tile>, gang: Option<GangKind>, chiTiles: Option<seq<Tile>>)
    | ClaimedEvent(turn: nat, phase: Phase, winner: SeatIx, claim: DecisionKind,
                   called: Option<Tile>, gang: Option<GangKind>, chiTiles: Option<seq<Tile>>)
    | PassedEvent(turn: nat, phase: Phase)
    | DrawEvent(turn: nat, phase: Phase, seat: SeatIx, drawn: Option<Tile>, flowerReplacements: seq<Tile>)
    | HandEndEvent(turn: nat, phase: Phase, winners: seq<SeatIx>, kind: TerminalKind, winTile: Option<Tile>,
                   winType: Option<WinType>, dealIn: Option<SeatIx>, fan: seq<FanEntry>, fanTotal: int,
                   delta: seq<int>, finalHands: seq<FinalHand>)
    | FooterEvent(turn: nat, phase: Phase)

  // --- event constructors ---

  function KindOf(a: Action): DecisionKind {
    match a
    case Play(_) => DecidePlay
    case Pass => DecidePass
    case Peng(_) => DecidePeng
    case Chi(_) => DecideChi
    case Gang(_, _) => DecideGang
    case Hu => DecideHu
  }

  function TileOf(a: Action): Option<Tile> {
    match a
    case Peng(t) => Some(t)
    case Gang(t, _) => Some(t)
    case _ => None
  }

  function GangOf(a: Action): Option<GangKind> { if a.Gang? then Some(a.kind) else None }

  function ChiTilesOf(a: Action): Option<seq<Tile>> { if a.Chi? then Some(a.tiles) else None }

  /** _claim_decision_event, with the turn and phase of the given state. */
  function Decision(s: State, seat: SeatIx, a: Action): (e: Event) {
    DecisionEvent(s.turn, s.phase, seat, KindOf(a), TileOf(a), GangOf(a), ChiTilesOf(a))
  }

  /** _claim_resolution_claimed. */
  function Claimed(after: State, seat: SeatIx, a: Action): (e: Event) {
    ClaimedEvent(after.turn, after.phase, seat, KindOf(a), TileOf(a), GangOf(a), ChiTilesOf(a))
  }

  /** _discard_event: not from the hand exactly when the tile was just drawn. */
  function Discarded(before: State, after: State, seat: SeatIx, t: Tile): (e: Event) {
    DiscardEvent(after.turn, after.phase, seat, t, before.lastDrawn != Some(LastDrawn(seat, t)))
  }

  /** _draw_event; the flower replacements are always the empty list. */
  function Drawn(after: State): (e: Event) {
    DrawEvent(after.turn, after.phase, after.actor,
              if after.lastDrawn.Some? && after.lastDrawn.value.seat == after.actor
              then Some(after.lastDrawn.value.tile) else None,
              [])
  }

  function FinalHands(s: State): seq<FinalHand> {
    seq(4, i requires 0 <= i < 4 => FinalHand(s.seats[i].concealed, s.seats[i].melds, s.seats[i].flowers))
  }

  /** _hand_end_event; the code asserts that the hand has a terminal record. */
  function HandEnd(after: State): (e: Event)
    requires after.terminal.Some?
  {
    var t := after.terminal.value;
    HandEndEvent(after.turn, after.phase, if t.winner.Some? then [t.winner.value] else [], t.kind,
                 t.winTile, t.winType, t.dealIn, t.fan, t.fanTotal, t.delta, FinalHands(after))
  }

  function Opportunities(seat: SeatIx, t: Tile, acts: seq<Action>): seq<Opportunity> {
    if acts == [] then []
    else
      (if acts[0].Pass? || acts[0].Play? then []
       else [Opportunity(seat, KindOf(acts[0]), if acts[0].Chi? then None else Some(t), ChiTilesOf(acts[0]))])
      + Opportunities(seat, t, acts[1..])
  }

  /** _claim_window_event. */
  function WindowOpened(r: Rules, after: State): (e: Event) {
    WindowEvent(after.turn, after.phase,
      if after.lastDiscard.None? then []
      else
        var t := after.lastDiscard.value.tile;
        Opportunities(0, t, ClaimActions(r, after, 0)) + Opportunities(1, t, ClaimActions(r, after, 1))
        + Opportunities(2, t, ClaimActions(r, after, 2)) + Opportunities(3, t, ClaimActions(r, after, 3)))
  }

  // --- what a transition adds ---

  predicate DrewTile(before: State, after: State) { after.phase == DiscardPhase && after.drawn > before.drawn }

  /** A terminal state has a terminal record. */
  predicate EndRecorded(s: State) { s.phase == TerminalPhase ==> s.terminal.Some? }

  /** _maybe_append_window_or_draw. */
  function AfterDiscard(r: Rules, before: State, after: State): seq<Event>
    requires EndRecorded(after)
  {
    if after.phase == ClaimWindow then [WindowOpened(r, after)]
    else if DrewTile(before, after) then [Drawn(after)]
    else if after.phase == TerminalPhase then [HandEnd(after)]
    else []
  }

  /** _maybe_append_window_close. */
  function AfterPass(before: State, after: State): seq<Event>
    requires EndRecorded(after)
  {
    if before.phase != ClaimWindow || after.phase == ClaimWindow then []
    else
      [PassedEvent(after.turn, after.phase)]
      + (if DrewTile(before, after) then [Drawn(after)]
         else if after.phase == TerminalPhase then [HandEnd(after)]
         else [])
  }

  /** diff_to_events. */
  function DiffToEvents(r: Rules, before: State, seat: SeatIx, a: Action, after: State): (events: seq<Event>)
    requires EndRecorded(after) && (a.Hu? ==> after.terminal.Some?)
  {
    match a
    case Play(t) => [Discarded(before, after, seat, t)] + AfterDiscard(r, before, after)
    case Pass => [Decision(after, seat, a)] + AfterPass(before, after)
    case Peng(_) => [Decision(after, seat, a), Claimed(after, seat, a)]
    case Chi(_) => [Decision(after, seat, a), Claimed(after, seat, a)]
    case Gang(_, kind) =>
      [Decision(after, seat, a)]
      + (if kind == Exposed then [Claimed(after, seat, a)] else [])
      + (if DrewTile(before, after) then [Drawn(after)] else [])
      + (if after.phase == TerminalPhase then [HandEnd(after)] else [])
    case Hu => [HandEnd(after)]
  }

  // --- the lists as they are filled ---

  /** What one action adds to the opportunities. */
  function OpportunityOf(seat: SeatIx, t: Tile, a: Action): seq<Opportunity> {
    if a.Pass? || a.Play? then []
    else [Opportunity(seat, KindOf(a), if a.Chi? then None else Some(t), ChiTilesOf(a))]
  }

  lemma OpportunitiesAt(seat: SeatIx, t: Tile, acts: seq<Action>, i: nat)
    requires i < |acts|
    ensures Opportunities(seat, t, acts[i..]) == OpportunityOf(seat, t, acts[i]) + Opportunities(seat, t, acts[i + 1..])
  {
    assert acts[i..][1..] == acts[i + 1..];
  }

  method ListOpportunities(seat: SeatIx, t: Tile, acts: seq<Action>) returns (opps: seq<Opportunity>)
    ensures opps == Opportunities(seat, t, acts)
  {
    opps := [];
    assert acts[0..] == acts && Opportunities(seat, t, []) == [];
    hide Opportunities;
    Appended(Opportunities(seat, t, acts), [], []);
    for i := 0 to |acts|
      invariant opps + Opportunities(seat, t, acts[i..]) == Opportunities(seat, t, acts)
    {
      OpportunitiesAt(seat, t, acts, i);
      Appended(opps, OpportunityOf(seat, t, acts[i]), Opportunities(seat, t, acts[i + 1..]));
      if !acts[i].Pass? && !acts[i].Play? {
        opps := opps + [Opportunity(seat, KindOf(acts[i]), if acts[i].Chi? then None else Some(t), ChiTilesOf(acts[i]))];
      }
    }
    Appended(opps, [], []);
  }

  function OpportunitiesBefore(r: Rules, s: State, t: Tile, n: nat): seq<Opportunity>
    requires n <= 4
  {
    if n == 0 then []
    else OpportunitiesBefore(r, s, t, n - 1) + Opportunities(n - 1, t, ClaimActions(r, s, n - 1))
  }

  lemma AllOpportunities(r: Rules, s: State)
    requires s.lastDiscard.Some?
    ensures WindowOpened(r, s) ==
            WindowEvent(s.turn, s.phase, OpportunitiesBefore(r, s, s.lastDiscard.value.tile, 4))
  {
    hide ClaimActions;
    hide Opportunities;
    var t := s.lastDiscard.value.tile;
    assert OpportunitiesBefore(r, s, t, 1) == Opportunities(0, t, ClaimActions(r, s, 0));
    assert OpportunitiesBefore(r, s, t, 2) ==
           Opportunities(0, t, ClaimActions(r, s, 0)) + Opportunities(1, t, ClaimActions(r, s, 1));
  }

  lemma DiscarderHasNoOpportunities(r: Rules, s: State, seat: SeatIx, t: Tile)
    requires s.lastDiscard.Some? && seat == s.lastDiscard.value.seat
    ensures Opportunities(seat, t, ClaimActions(r, s, seat)) == []
  {
  }

  /** The loops of _claim_window_event. */
  method BuildWindowEvent(r: Rules, after: State) returns (e: Event)
    ensures e == WindowOpened(r, after)
  {
    if after.lastDiscard.None? {
      return WindowEvent(after.turn, after.phase, []);
    }
    hide WindowOpened;
    var t := after.lastDiscard.value.tile;
    var opps := [];
    for seat := 0 to 4
      invariant opps == OpportunitiesBefore(r, after, t, seat)
    {
      if seat == after.lastDiscard.value.seat {
        DiscarderHasNoOpportunities(r, after, seat, t);
        continue;
      }
      hide ClaimActions;
      hide Opportunities;
      var acts := ListClaimActions(r, after, seat);
      var more := ListOpportunities(seat, t, acts);
      opps := opps + more;
    }
    AllOpportunities(r, after);
    e := WindowEvent(after.turn, after.phase, opps);
  }

  /** diff_to_events: a list that the branches append to. */
  method BuildEvents(r: Rules, before: State, seat: SeatIx, a: Action, after: State) returns (events: seq<Event>)
    requires EndRecorded(after) && (a.Hu? ==> after.terminal.Some?)
    ensures events == DiffToEvents(r, before, seat, a, after)
  {
    hide WindowOpened;
    hide Drawn;
    hide HandEnd;
    hide Decision;
    hide Claimed;
    hide Discarded;
    events := [];
    match a
    case Play(t) =>
      events := events + [Discarded(before, after, seat, t)];
      if after.phase == ClaimWindow {
        var window := BuildWindowEvent(r, after);
        events := events + [window];
      } else if DrewTile(before, after) {
        events := events + [Drawn(after)];
      } else if after.phase == TerminalPhase {
        events := events + [HandEnd(after)];
      }
    case Pass =>
      events := events + [Decision(after, seat, a)];
      if before.phase == ClaimWindow && after.phase != ClaimWindow {
        events := events + [PassedEvent(after.turn, after.phase)];
        if DrewTile(before, after) {
          events := events + [Drawn(after)];
        } else if after.phase == TerminalPhase {
          events := events + [HandEnd(after)];
        }
      }
    case Peng(_) =>
      events := events + [Decision(after, seat, a)];
      events := events + [Claimed(after, seat, a)];
    case Chi(_) =>
      events := events + [Decision(after, seat, a)];
      events := events + [Claimed(after, seat, a)];
    case Gang(_, kind) =>
      events := events + [Decision(after, seat, a)];
      if kind == Exposed {
        events := events + [Claimed(after, seat, a)];
      }
      if DrewTile(before, after) {
        events := events + [Drawn(after)];
      }
      if after.phase == TerminalPhase {
        events := events + [HandEnd(after)];
      }
    case Hu =>
      events := events + [HandEnd(after)];
  }

  // --- what the events say ---

  /** The opportunity that stands for an action on a discard of t. */
  predicate OfferFor(o: Opportunity, t: Tile, a: Action) {
    match a
    case Peng(_) => o.claim == DecidePeng && o.tile == Some(t) && o.chiTiles == None
    case Gang(_, _) => o.claim == DecideGang && o.tile == Some(t) && o.chiTiles == None
    case Chi(tiles) => o.claim == DecideChi && o.tile == None && o.chiTiles == Some(tiles)
    case Hu => o.claim == DecideHu && o.tile == Some(t) && o.chiTiles == None
    case _ => false
  }

  lemma {:induction false} OpportunitiesAre(seat: SeatIx, t: Tile, acts: seq<Action>, o: Opportunity)
    ensures o in Opportunities(seat, t, acts) <==> o.seat == seat && exists a :: a in acts && OfferFor(o, t, a)
  {
    if acts != [] {
      OpportunitiesAre(seat, t, acts[1..], o);
      var a := acts[0];
      assert acts == [a] + acts[1..];
      assert o in OpportunityOf(seat, t, a) <==> o.seat == seat && OfferFor(o, t, a);
      if exists b :: b in acts[1..] && OfferFor(o, t, b) {
        var b :| b in acts[1..] && OfferFor(o, t, b);
        assert b in acts;
      }
    }
  }

  /** CLAIM_WINDOW offers every seat what it may do about the discard, and nothing else. */
  lemma WindowOffers(r: Rules, s: State, o: Opportunity)
    requires s.lastDiscard.Some?
    ensures o in WindowOpened(r, s).opportunities <==>
            exists a :: ClaimLegal(r, s, o.seat, a) && OfferFor(o, s.lastDiscard.value.tile, a)
  {
    var t := s.lastDiscard.value.tile;
    forall a ensures a in ClaimActions(r, s, o.seat) <==> ClaimLegal(r, s, o.seat, a) {
      ClaimActionsMembers(r, s, o.seat, a);
    }
    hide ClaimActions;
    hide ClaimLegal;
    hide Opportunities;
    OpportunitiesAre(0, t, ClaimActions(r, s, 0), o);
    OpportunitiesAre(1, t, ClaimActions(r, s, 1), o);
    OpportunitiesAre(2, t, ClaimActions(r, s, 2), o);
    OpportunitiesAre(3, t, ClaimActions(r, s, 3), o);
    var acts := ClaimActions(r, s, o.seat);
    assert o in WindowOpened(r, s).opportunities <==> exists a :: a in acts && OfferFor(o, t, a);
    hide WindowOpened;
    hide OfferFor;
  }

  /** The turn and phase an event carries. */
  predicate Stamped(e: Event, turn: nat, phase: Phase) {
    !e.HeaderEvent? && e.turn == turn && e.phase == phase
  }

  /** Every event of a transition carries the turn and phase it led to. */
  lemma EventsStamped(r: Rules, before: State, seat: SeatIx, a: Action, after: State)
    requires EndRecorded(after) && (a.Hu? ==> after.terminal.Some?)
    ensures forall e :: e in DiffToEvents(r, before, seat, a, after) ==> Stamped(e, after.turn, after.phase)
  {
    hide ClaimActions;
    hide Opportunities;
    hide FinalHands;
  }

  /** A discard is said to come from the hand unless it is the tile its seat has just drawn. */
  lemma DiscardSaysWhence(r: Rules, before: State, seat: SeatIx, t: Tile, after: State)
    requires EndRecorded(after)
    ensures var events := DiffToEvents(r, before, seat, Play(t), after);
            && events != [] && events[0].DiscardEvent?
            && events[0].seat == seat && events[0].tile == t
            && (events[0].fromHand <==> before.lastDrawn.None? || before.lastDrawn.value != LastDrawn(seat, t))
  {
    hide ClaimActions;
    hide Opportunities;
  }

  /** A resolution describes itself: it says who won, with which claim, and what a viewer
      needs to build the meld, the called tile of a triplet or kong and the whole run. */
  lemma ResolutionSays(r: Rules, before: State, seat: SeatIx, a: Action, after: State)
    requires EndRecorded(after) && (a.Peng? || a.Chi? || (a.Gang? && a.kind == Exposed))
    ensures var events := DiffToEvents(r, before, seat, a, after);
            && |events| >= 2 && events[0] == Decision(after, seat, a)
            && events[1].ClaimedEvent? && events[1].winner == seat
            && match a
               case Peng(t) => events[1].claim == DecidePeng && events[1].called == Some(t)
               case Gang(t, _) => events[1].claim == DecideGang && events[1].called == Some(t)
               case Chi(tiles) => events[1].claim == DecideChi && events[1].chiTiles == Some(tiles)
               case _ => false
  {
    hide Decision;
    hide Drawn;
    hide HandEnd;
  }

  /** HAND_END settles the hand in the open: the outcome as the terminal has it, and each
      seat's hand, melds and flowers under its own number. */
  lemma SettlementSays(s: State, i: SeatIx)
    requires s.terminal.Some?
    ensures var t := s.terminal.value;
            var e := HandEnd(s);
            && e.HandEndEvent? && e.kind == t.kind && e.winTile == t.winTile && e.winType == t.winType
            && e.dealIn == t.dealIn && e.fan == t.fan && e.fanTotal == t.fanTotal && e.delta == t.delta
            && (t.winner.Some? <==> |e.winners| == 1) && (t.winner.None? <==> e.winners == [])
            && (t.winner.Some? ==> e.winners[0] == t.winner.value)
            && |e.finalHands| == 4
            && e.finalHands[i].concealed == s.seats[i].concealed
            && e.finalHands[i].melds == s.seats[i].melds && e.finalHands[i].flowers == s.seats[i].flowers
  {
  }
}
