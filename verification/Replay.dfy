/** Replaying a record (records/replay.py), and the proof that replaying what the
    manager wrote reproduces the run it recorded. */
module Replay {
  import opened Lists
  import opened Tiles
  import opened GameTypes
  import opened Legality
  import opened Transition
  import opened Invariant
  import opened Deal
  import opened DealOrder
  import opened Records
  import opened Manager
  import opened Safety
  import Rng

  /** initial_state(ruleset, seed, dealer_seat). */
  function Start(r: Rules, seed: nat, dealer: SeatIx): Result<State> {
    var wall :- Rng.Wall(r.sha, seed);
    InitialState(wall.0, dealer)
  }

  /** _dealer_seat_from_header: the first seat with the East wind, else seat 0. */
  function DealerFromHeader(seats: seq<HeaderSeat>): SeatIx {
    if seats == [] then 0
    else if seats[0].wind == Some(EAST) then seats[0].seat
    else DealerFromHeader(seats[1..])
  }

  /** _event_to_action. A field the event lacks is a KeyError. */
  function EventToAction(e: Event): Result<(SeatIx, Action)> {
    match e
    case DiscardEvent(_, _, seat, t, _) => Ok((seat, Play(t)))
    case DecisionEvent(_, _, seat, decision, tile, gang, chi) => (
      match decision
      case DecidePass => Ok((seat, Pass))
      case DecideChi => if chi.None? then Err(ValueMissing) else Ok((seat, Chi(chi.value)))
      case DecidePeng => if tile.None? then Err(ValueMissing) else Ok((seat, Peng(tile.value)))
      case DecideGang =>
        if tile.None? || gang.None? then Err(ValueMissing) else Ok((seat, Gang(tile.value, gang.value)))
      case DecideHu => Ok((seat, Hu))
      case DecidePlay => Err(BadArgument))
    case _ => Err(AssertionFailed)
  }

  /** The replayed state, with the buffered decisions of an open window. */
  datatype Replayer = Replayer(state: State, window: seq<Event>)

  datatype Replayed = Replayed(now: Replayer, states: seq<State>)

  function ApplyEvent(r: Rules, s: State, e: Event): Result<State> {
    var move :- EventToAction(e);
    ApplyAction(r, s, move.0, move.1)
  }

  /** The decisions of an all-pass window, applied one after the other. */
  function ApplyWindow(r: Rules, s: State, window: seq<Event>): Result<(State, seq<State>)> {
    if window == [] then Ok((s, []))
    else
      var before :- ApplyWindow(r, s, window[..|window| - 1]);
      var after :- ApplyEvent(r, before.0, window[|window| - 1]);
      Ok((after, before.1 + [after]))
  }

  /** The first decision of a seat, or (without a seat) the first kong. */
  function FindDecision(window: seq<Event>, seat: Option<SeatIx>): Result<Event> {
    if window == [] then Err(BadArgument)
    else if window[0].DecisionEvent?
            && (if seat.Some? then window[0].seat == seat.value else window[0].decision == DecideGang)
    then Ok(window[0])
    else FindDecision(window[1..], seat)
  }

  predicate OwnTurnKong(e: Event) {
    e.DecisionEvent? && e.decision == DecideGang && (e.gang == Some(Concealed) || e.gang == Some(Added))
  }

  function ApplyNow(r: Rules, rp: Replayer, e: Event, window: seq<Event>): Result<Replayed> {
    var after :- ApplyEvent(r, rp.state, e);
    Ok(Replayed(Replayer(after, window), [after]))
  }

  /** One pass of the replay loop. */
  function ReplayEvent(r: Rules, rp: Replayer, e: Event): Result<Replayed> {
    match e
    case DiscardEvent(_, _, _, _, _) => ApplyNow(r, rp, e, rp.window)
    case DecisionEvent(_, _, _, _, _, _, _) =>
      if OwnTurnKong(e) then ApplyNow(r, rp, e, rp.window)
      else Ok(Replayed(rp.(window := rp.window + [e]), []))
    case DrawEvent(_, _, _, _, _) =>
      if rp.window == [] then Ok(Replayed(rp, []))
      else
        var kong :- FindDecision(rp.window, None);
        ApplyNow(r, rp, kong, [])
    case PassedEvent(_, _) =>
      var passed :- ApplyWindow(r, rp.state, rp.window);
      Ok(Replayed(Replayer(passed.0, []), passed.1))
    case ClaimedEvent(_, _, winner, _, _, _, _) =>
      var claim :- FindDecision(rp.window, Some(winner));
      ApplyNow(r, rp, claim, [])
    case HandEndEvent(_, _, winners, _, _, _, _, _, _, _, _) =>
      if winners == [] then Ok(Replayed(rp.(window := []), []))
      else
        var after :- ApplyAction(r, rp.state, winners[0], Hu);
        Ok(Replayed(Replayer(after, []), [after]))
    case _ => Ok(Replayed(rp, []))
  }

  function ReplayEvents(r: Rules, rp: Replayer, events: seq<Event>): Result<Replayed> {
    if events == [] then Ok(Replayed(rp, []))
    else
      var before :- ReplayEvents(r, rp, events[..|events| - 1]);
      var last :- ReplayEvent(r, before.now, events[|events| - 1]);
      Ok(Replayed(last.now, before.states + last.states))
  }

  /** replay: the states a record stands for. */
  function ReplayRecord(r: Rules, events: seq<Event>): Result<seq<State>> {
    if events == [] then Err(PopFromEmpty)
    else if !events[0].HeaderEvent? then Err(ValueMissing)
    else
      var start :- Start(r, events[0].seed, DealerFromHeader(events[0].seats));
      var run :- ReplayEvents(r, Replayer(start, []), events[1..]);
      Ok([start] + run.states)
  }

  // --- the loop ---

  /** replay, as the loop that updates the state and the window buffer. */
  method RunReplay(r: Rules, events: seq<Event>) returns (res: Result<seq<State>>)
    ensures res == ReplayRecord(r, events)
  {
    if events == [] {
      return Err(PopFromEmpty);
    }
    if !events[0].HeaderEvent? {
      return Err(ValueMissing);
    }
    var start := Start(r, events[0].seed, DealerFromHeader(events[0].seats));
    if start.Err? {
      return Err(start.error);
    }
    var run := RunReplayEvents(r, Replayer(start.value, []), events[1..]);
    res := if run.Err? then Err(run.error) else Ok([start.value] + run.value.states);
  }

  /** The loop over the events behind the header. */
  method RunReplayEvents(r: Rules, from: Replayer, events: seq<Event>) returns (res: Result<Replayed>)
    ensures res == ReplayEvents(r, from, events)
  {
    hide ReplayEvent;
    var rp, yielded := from, [];
    for k := 0 to |events|
      invariant ReplayEvents(r, from, events[..k]) == Ok(Replayed(rp, yielded))
    {
      assert events[..k + 1][..k] == events[..k];
      var step := ReplayEvent(r, rp, events[k]);
      if step.Err? {
        FailedPrefix(r, from, events, k + 1);
        return Err(step.error);
      }
      rp := step.value.now;
      yielded := yielded + step.value.states;
    }
    assert events[..|events|] == events;
    res := Ok(Replayed(rp, yielded));
  }

  lemma {:induction false} FailedPrefix(r: Rules, rp: Replayer, events: seq<Event>, k: nat)
    requires k <= |events| && ReplayEvents(r, rp, events[..k]).Err?
    ensures ReplayEvents(r, rp, events) == Err(ReplayEvents(r, rp, events[..k]).error)
    decreases |events|
  {
    hide ReplayEvent;
    if k == |events| {
      assert events[..k] == events;
    } else {
      assert events[..|events| - 1][..k] == events[..k];
      FailedPrefix(r, rp, events[..|events| - 1], k);
    }
  }

  // --- composing replays ---

  lemma {:induction false} ReplayConcat(r: Rules, rp: Replayer, a: seq<Event>, b: seq<Event>)
    requires ReplayEvents(r, rp, a).Ok?
    ensures var first := ReplayEvents(r, rp, a).value;
            var second := ReplayEvents(r, first.now, b);
            ReplayEvents(r, rp, a + b) ==
              if second.Err? then second else Ok(Replayed(second.value.now, first.states + second.value.states))
    decreases |b|
  {
    hide ReplayEvent;
    var first := ReplayEvents(r, rp, a).value;
    if b == [] {
      assert a + b == a;
      assert first.states + [] == first.states;
    } else {
      var init, e := b[..|b| - 1], b[|b| - 1];
      assert (a + b)[..|a + b| - 1] == a + init && (a + b)[|a + b| - 1] == e;
      ReplayConcat(r, rp, a, init);
      var middle := ReplayEvents(r, first.now, init);
      if middle.Ok? {
        var last := ReplayEvent(r, middle.value.now, e);
        if last.Ok? {
          assert first.states + (middle.value.states + last.value.states)
              == (first.states + middle.value.states) + last.value.states;
        }
      }
    }
  }

  lemma ReplayOne(r: Rules, rp: Replayer, e: Event)
    ensures ReplayEvents(r, rp, [e]) == ReplayEvent(r, rp, e)
  {
    hide ReplayEvent;
    assert [e][..0] == [];
    assert ReplayEvents(r, rp, []) == Ok(Replayed(rp, []));
    var one := ReplayEvent(r, rp, e);
    if one.Ok? {
      assert [] + one.value.states == one.value.states;
    }
  }

  lemma ReplayTwo(r: Rules, rp: Replayer, a: seq<Event>, b: seq<Event>, mid: Replayer, xs: seq<State>,
                  end: Replayer, ys: seq<State>)
    requires ReplayEvents(r, rp, a) == Ok(Replayed(mid, xs))
    requires ReplayEvents(r, mid, b) == Ok(Replayed(end, ys))
    ensures ReplayEvents(r, rp, a + b) == Ok(Replayed(end, xs + ys))
  {
    hide ReplayEvents;
    ReplayConcat(r, rp, a, b);
  }

  // --- what the record says is what was done ---

  /** A decision event gives back the action it was written for. */
  lemma DecisionRoundTrip(s: State, seat: SeatIx, a: Action)
    requires !a.Play?
    ensures EventToAction(Decision(s, seat, a)) == Ok((seat, a))
  {
  }

  /** Only a HU makes a winner: any other action that ends the hand exhausts the wall. */
  lemma OnlyHuWins(r: Rules, s: State, seat: SeatIx, a: Action)
    requires s.phase != TerminalPhase && !a.Hu? && ApplyAction(r, s, seat, a).Ok?
    ensures var after := ApplyAction(r, s, seat, a).value;
            after.phase == TerminalPhase ==> after.terminal.Some? && after.terminal.value.winner == None
  {
    hide RemoveFirst;
    hide RemoveTimes;
    hide RemoveSupport;
    hide OpenClaims;
  }

  lemma HuHasWinner(r: Rules, s: State, seat: SeatIx)
    requires ApplyAction(r, s, seat, Hu).Ok?
    ensures ApplyAction(r, s, seat, Hu).value.terminal.Some?
    ensures ApplyAction(r, s, seat, Hu).value.terminal.value.winner == Some(seat)
  {
  }

  /** The follow-on events of an action other than HU replay to nothing. */
  predicate Silent(e: Event) {
    e.WindowEvent? || e.DrawEvent? || (e.HandEndEvent? && e.winners == []) || e.FooterEvent?
  }

  lemma {:induction false} SilentReplay(r: Rules, s: State, events: seq<Event>)
    requires forall k :: 0 <= k < |events| ==> Silent(events[k])
    ensures ReplayEvents(r, Replayer(s, []), events) == Ok(Replayed(Replayer(s, []), []))
  {
    if events != [] {
      SilentReplay(r, s, events[..|events| - 1]);
      assert ReplayEvent(r, Replayer(s, []), events[|events| - 1]) == Ok(Replayed(Replayer(s, []), []));
      var none: seq<State> := [];
      assert none + none == none;
    }
  }

  /** An action applied at once: its first event applies it, the rest are silent. */
  lemma AppliedReplay(r: Rules, s: State, e: Event, after: State, rest: seq<Event>)
    requires ReplayEvent(r, Replayer(s, []), e) == Ok(Replayed(Replayer(after, []), [after]))
    requires forall k :: 0 <= k < |rest| ==> Silent(rest[k])
    ensures ReplayEvents(r, Replayer(s, []), [e] + rest) == Ok(Replayed(Replayer(after, []), [after]))
  {
    hide ReplayEvent;
    ReplayOne(r, Replayer(s, []), e);
    SilentReplay(r, after, rest);
    ReplayTwo(r, Replayer(s, []), [e], rest, Replayer(after, []), [after], Replayer(after, []), []);
    assert [after] + [] == [after];
  }

  ghost predicate TailSilent(events: seq<Event>) { forall k :: 0 < k < |events| ==> Silent(events[k]) }

  /** The first event applies the action. */
  ghost predicate HeadApplies(r: Rules, s: State, events: seq<Event>, after: State) {
    events != [] && ReplayEvent(r, Replayer(s, []), events[0]) == Ok(Replayed(Replayer(after, []), [after]))
  }

  ghost predicate NoWinner(s: State) {
    s.phase == TerminalPhase ==> s.terminal.Some? && s.terminal.value.winner == None
  }

  lemma PlayEvents(r: Rules, s: State, seat: SeatIx, t: Tile, after: State)
    requires ApplyAction(r, s, seat, Play(t)) == Ok(after) && NoWinner(after)
    ensures HeadApplies(r, s, DiffToEvents(r, s, seat, Play(t), after), after)
    ensures TailSilent(DiffToEvents(r, s, seat, Play(t), after))
  {
    hide ApplyAction;
    hide Opportunities;
    hide ClaimActions;
  }

  lemma KongEvents(r: Rules, s: State, seat: SeatIx, t: Tile, kind: GangKind, after: State)
    requires ApplyAction(r, s, seat, Gang(t, kind)) == Ok(after) && NoWinner(after) && kind != Exposed
    ensures HeadApplies(r, s, DiffToEvents(r, s, seat, Gang(t, kind), after), after)
    ensures TailSilent(DiffToEvents(r, s, seat, Gang(t, kind), after))
  {
    hide ApplyAction;
    DecisionRoundTrip(after, seat, Gang(t, kind));
  }

  lemma SelfDrawEvents(r: Rules, s: State, seat: SeatIx, after: State)
    requires ApplyAction(r, s, seat, Hu) == Ok(after) && EndRecorded(after)
    requires after.terminal.Some? && after.terminal.value.winner == Some(seat)
    ensures HeadApplies(r, s, DiffToEvents(r, s, seat, Hu, after), after)
    ensures TailSilent(DiffToEvents(r, s, seat, Hu, after))
  {
    hide ApplyAction;
  }

  /** The shape of an own-turn action's events: one that applies it, then silence. */
  lemma OwnTurnEvents(r: Rules, s: State, seat: SeatIx, a: Action, after: State)
    requires s.phase == DiscardPhase && Legal(r, s, seat, a) && ApplyAction(r, s, seat, a) == Ok(after)
    requires EndRecorded(after) && (a.Hu? ==> after.terminal.Some?)
    ensures HeadApplies(r, s, DiffToEvents(r, s, seat, a, after), after)
    ensures TailSilent(DiffToEvents(r, s, seat, a, after))
  {
    OwnTurnActions(r, s, seat, a);
    hide Legal;
    hide HeadApplies;
    hide DiffToEvents;
    if a.Hu? {
      HuHasWinner(r, s, seat);
      SelfDrawEvents(r, s, seat, after);
    } else {
      OnlyHuWins(r, s, seat, a);
      hide ApplyAction;
      if a.Gang? {
        KongEvents(r, s, seat, a.tile, a.kind, after);
      } else {
        PlayEvents(r, s, seat, a.tile, after);
      }
    }
  }

  lemma OwnTurnReplay(r: Rules, s: State, seat: SeatIx, a: Action)
    requires Inv(s) && ValidRules(r) && s.phase == DiscardPhase && Legal(r, s, seat, a)
    ensures Apply(r, s, seat, a).Ok?
    ensures var (after, events) := Apply(r, s, seat, a).value;
            ReplayEvents(r, Replayer(s, []), events) == Ok(Replayed(Replayer(after, []), [after]))
  {
    hide Inv;
    hide Legal;
    hide ApplyAction;
    hide DiffToEvents;
    hide ReplayEvent;
    hide ReplayEvents;
    LegalApplies(r, s, seat, a);
    var after := ApplyAction(r, s, seat, a).value;
    OwnTurnEvents(r, s, seat, a, after);
    var events := DiffToEvents(r, s, seat, a, after);
    assert events == [events[0]] + events[1..];
    AppliedReplay(r, s, events[0], after, events[1..]);
  }

  lemma OwnTurnActions(r: Rules, s: State, seat: SeatIx, a: Action)
    requires s.phase == DiscardPhase && Legal(r, s, seat, a)
    ensures a.Play? || a.Hu? || (a.Gang? && a.kind != Exposed)
  {
  }

  /** The events of a log, without the manager's marks. */
  function Events(log: seq<Logged>): (es: seq<Event>)
    ensures |es| == |log| && forall k :: 0 <= k < |es| ==> es[k] == log[k].event
  {
    seq(|log|, k requires 0 <= k < |log| => log[k].event)
  }

  lemma EventsOfMark(events: seq<Event>, failure: Failure, auto: bool)
    ensures Events(Mark(events, failure, auto)) == events
  {
  }

  lemma EventsConcat(a: seq<Logged>, b: seq<Logged>)
    ensures Events(a + b) == Events(a) + Events(b)
  {
  }

  // --- claim windows ---

  lemma WindowSnoc(r: Rules, s: State, window: seq<Event>, e: Event, mid: State, xs: seq<State>, after: State)
    requires ApplyWindow(r, s, window) == Ok((mid, xs)) && ApplyEvent(r, mid, e) == Ok(after)
    ensures ApplyWindow(r, s, window + [e]) == Ok((after, xs + [after]))
  {
    assert (window + [e])[..|window|] == window;
  }

  /** The events of a PASS that leaves the window open, and of the one that closes it. */
  lemma PassEvents(r: Rules, s: State, seat: SeatIx, after: State)
    requires s.phase == ClaimWindow && EndRecorded(after) && NoWinner(after)
    ensures var events := DiffToEvents(r, s, seat, Pass, after);
            && events != [] && events[0] == Decision(after, seat, Pass)
            && (after.phase == ClaimWindow ==> |events| == 1)
            && (after.phase != ClaimWindow ==>
                  |events| >= 2 && events[1].PassedEvent? && forall k :: 1 < k < |events| ==> Silent(events[k]))
  {
  }

  lemma BufferedDecision(r: Rules, rp: Replayer, e: Event)
    requires e.DecisionEvent? && !OwnTurnKong(e)
    ensures ReplayEvents(r, rp, [e]) == Ok(Replayed(rp.(window := rp.window + [e]), []))
  {
    ReplayOne(r, rp, e);
  }

  /** The event that closes an all-pass window applies the buffered decisions. */
  lemma CloserReplays(r: Rules, s0: State, window: seq<Event>, xs: seq<State>, d: Event, after: State,
                      close: Event, rest: seq<Event>)
    requires ReplayEvents(r, Replayer(s0, window), [d]) == Ok(Replayed(Replayer(s0, window + [d]), []))
    requires ReplayEvent(r, Replayer(s0, window + [d]), close) == Ok(Replayed(Replayer(after, []), xs + [after]))
    requires forall k :: 0 <= k < |rest| ==> Silent(rest[k])
    ensures ReplayEvents(r, Replayer(s0, window), [d] + ([close] + rest)) ==
            Ok(Replayed(Replayer(after, []), xs + [after]))
  {
    hide *;
    var open := Replayer(s0, window + [d]);
    ReplayOne(r, open, close);
    SilentReplay(r, after, rest);
    ReplayTwo(r, open, [close], rest, Replayer(after, []), xs + [after], Replayer(after, []), []);
    ReplayTwo(r, Replayer(s0, window), [d], [close] + rest, open, [], Replayer(after, []), xs + [after] + []);
    assert [] + (xs + [after] + []) == xs + [after];
  }

  /** One seat's PASS in a window whose earlier decisions are buffered. */
  lemma PassReplay(r: Rules, s0: State, window: seq<Event>, xs: seq<State>, s: State, seat: SeatIx, after: State)
    requires s.phase == ClaimWindow && EndRecorded(after) && NoWinner(after)
    requires ApplyWindow(r, s0, window) == Ok((s, xs))
    requires ApplyAction(r, s, seat, Pass) == Ok(after)
    ensures var d := Decision(after, seat, Pass);
            var events := DiffToEvents(r, s, seat, Pass, after);
            && ApplyWindow(r, s0, window + [d]) == Ok((after, xs + [after]))
            && (after.phase == ClaimWindow ==>
                  ReplayEvents(r, Replayer(s0, window), events) == Ok(Replayed(Replayer(s0, window + [d]), [])))
            && (after.phase != ClaimWindow ==>
                  ReplayEvents(r, Replayer(s0, window), events) == Ok(Replayed(Replayer(after, []), xs + [after])))
  {
    hide ApplyAction;
    hide Legal;
    hide DiffToEvents;
    PassEvents(r, s, seat, after);
    var d := Decision(after, seat, Pass);
    var events := DiffToEvents(r, s, seat, Pass, after);
    DecisionRoundTrip(after, seat, Pass);
    WindowSnoc(r, s0, window, d, s, xs, after);
    BufferedDecision(r, Replayer(s0, window), d);
    hide Decision;
    hide ApplyWindow;
    if after.phase == ClaimWindow {
      assert events == [d];
    } else {
      assert events == [d] + ([events[1]] + events[2..]);
      CloserReplays(r, s0, window, xs, d, after, events[1], events[2..]);
    }
  }

  /** The first PASS of an all-pass window: applied by the manager, replayed from
      the buffer, and what it leaves for the other claimers. */
  lemma FirstPassReplay(r: Rules, s0: State, window: seq<Event>, xs: seq<State>, s: State, claimers: seq<SeatIx>)
    requires Inv(s) && s.phase == ClaimWindow && ValidRules(r) && claimers != [] && Ascending(claimers)
    requires forall i: SeatIx :: i in claimers <==> Claims(s.claims, i)
    requires ApplyWindow(r, s0, window) == Ok((s, xs))
    ensures Apply(r, s, claimers[0], Pass).Ok?
    ensures var (after, events) := Apply(r, s, claimers[0], Pass).value;
            var window' := window + [Decision(after, claimers[0], Pass)];
            && Inv(after) && (after.phase == ClaimWindow <==> |claimers| > 1)
            && (|claimers| > 1 ==> forall i: SeatIx :: i in claimers[1..] <==> Claims(after.claims, i))
            && ApplyWindow(r, s0, window') == Ok((after, xs + [after]))
            && ReplayEvents(r, Replayer(s0, window), events)
               == Ok(if |claimers| > 1 then Replayed(Replayer(s0, window'), [])
                     else Replayed(Replayer(after, []), xs + [after]))
  {
    hide Inv;
    hide Advance;
    hide ApplyPass;
    hide DropClaims;
    hide ReplayEvents;
    hide ApplyWindow;
    hide Decision;
    var seat := claimers[0];
    assert Claims(s.claims, seat);
    PassIsLegal(r, s, seat);
    LegalApplies(r, s, seat, Pass);
    OnlyHuWins(r, s, seat, Pass);
    OnePass(s, claimers);
    hide ApplyAction;
    hide Legal;
    hide Claims;
    AdvanceLeaves(s.(claims := []));
    var after := ApplyPass(s, seat);
    PassReplay(r, s0, window, xs, s, seat, after);
    hide DiffToEvents;
  }

  /** An all-pass window replays to the states its passes went through. */
  lemma {:induction false} AllPassReplay(r: Rules, s0: State, window: seq<Event>, xs: seq<State>, s: State,
                                         claimers: seq<SeatIx>, choices: FourChoices, auto: FourFlags)
    requires Inv(s) && s.phase == ClaimWindow && ValidRules(r) && claimers != [] && Ascending(claimers)
    requires forall i: SeatIx :: i in claimers <==> Claims(s.claims, i)
    requires forall i: SeatIx :: i in claimers ==> choices[i].action == Pass
    requires ApplyWindow(r, s0, window) == Ok((s, xs))
    ensures var c := ApplyAllPass(r, s, claimers, choices, auto);
            && (c.Ok? <==> AllRecordable(claimers, choices))
            && (c.Ok? ==>
                  ReplayEvents(r, Replayer(s0, window), Events(c.value.log))
                  == Ok(Replayed(Replayer(c.value.state, []), xs + c.value.states)))
    decreases |claimers|
  {
    hide Inv;
    hide Claims;
    hide Mark;
    hide Events;
    hide ReplayEvents;
    hide ApplyWindow;
    hide ApplyAllPass;
    hide AllRecordable;
    hide Apply;
    hide ApplyPass;
    hide Decision;
    var seat := claimers[0];
    assert seat in claimers;
    PassOneApplied(r, s, claimers, choices, auto);
    RecordableTail(claimers, choices);
    FirstPassReplay(r, s0, window, xs, s, claimers);
    var (after, events) := Apply(r, s, seat, Pass).value;
    var marked := Mark(events, choices[seat].failure, auto[seat]);
    EventsOfMark(events, choices[seat].failure, auto[seat]);
    var rest := claimers[1..];
    var c := ApplyAllPass(r, after, rest, choices, auto);
    if |claimers| > 1 {
      forall i: SeatIx | i in rest ensures choices[i].action == Pass {
        assert i in claimers;
      }
      var window' := window + [Decision(after, seat, Pass)];
      AllPassReplay(r, s0, window', xs + [after], after, rest, choices, auto);
      if c.Ok? {
        EventsConcat(marked, c.value.log);
        ReplayTwo(r, Replayer(s0, window), events, Events(c.value.log), Replayer(s0, window'), [],
                  Replayer(c.value.state, []), (xs + [after]) + c.value.states);
        assert [] + ((xs + [after]) + c.value.states) == xs + ([after] + c.value.states);
      }
    } else {
      assert rest == [];
      NobodyPasses(r, after, choices, auto);
      assert marked + [] == marked && [after] + [] == [after];
    }
  }

  // --- contested windows ---

  lemma ClaimIsNoOwnKong(r: Rules, s: State, seat: SeatIx, a: Action)
    requires s.phase == ClaimWindow && Legal(r, s, seat, a)
    ensures !a.Play? && !OwnTurnKong(Decision(s, seat, a))
  {
  }

  /** The decisions of a contested window are buffered, winners and losers alike. */
  lemma {:induction false} DecisionsBuffered(r: Rules, s: State, window: seq<Event>, claimers: seq<SeatIx>,
                                             choices: FourChoices, auto: FourFlags)
    requires s.phase == ClaimWindow && AllLegal(r, s, claimers, choices)
    ensures var events := Events(DecisionLog(s, claimers, choices, auto));
            ReplayEvents(r, Replayer(s, window), events) == Ok(Replayed(Replayer(s, window + events), []))
    decreases |claimers|
  {
    hide ReplayEvents;
    hide Legal;
    hide Decision;
    if claimers == [] {
      assert Events([]) == [] && window + [] == window;
      EmptyReplay(r, Replayer(s, window));
    } else {
      var seat := claimers[0];
      var d := Decision(s, seat, choices[seat].action);
      var head := [Logged(d, choices[seat].failure, auto[seat])];
      var rest := DecisionLog(s, claimers[1..], choices, auto);
      ClaimIsNoOwnKong(r, s, seat, choices[seat].action);
      assert d.DecisionEvent? by { DecisionIsDecision(s, seat, choices[seat].action); }
      BufferedDecision(r, Replayer(s, window), d);
      DecisionsBuffered(r, s, window + [d], claimers[1..], choices, auto);
      EventsConcat(head, rest);
      assert Events(head) == [d];
      var none: seq<State> := [];
      ReplayTwo(r, Replayer(s, window), [d], Events(rest), Replayer(s, window + [d]), none,
                Replayer(s, window + [d] + Events(rest)), none);
      assert window + [d] + Events(rest) == window + ([d] + Events(rest)) && none + none == none;
    }
  }

  lemma DecisionIsDecision(s: State, seat: SeatIx, a: Action)
    ensures Decision(s, seat, a).DecisionEvent? && Decision(s, seat, a).seat == seat
  {
  }

  lemma EmptyReplay(r: Rules, rp: Replayer)
    ensures ReplayEvents(r, rp, []) == Ok(Replayed(rp, []))
  {
  }

  lemma {:induction false} WinnerFound(s: State, claimers: seq<SeatIx>, choices: FourChoices, auto: FourFlags, w: SeatIx)
    requires w in claimers
    ensures FindDecision(Events(DecisionLog(s, claimers, choices, auto)), Some(w)) == Ok(Decision(s, w, choices[w].action))
    decreases |claimers|
  {
    hide Decision;
    var seat := claimers[0];
    var d := Decision(s, seat, choices[seat].action);
    var head := [Logged(d, choices[seat].failure, auto[seat])];
    var rest := DecisionLog(s, claimers[1..], choices, auto);
    EventsConcat(head, rest);
    var events := Events(DecisionLog(s, claimers, choices, auto));
    assert Events(head) == [d] && events == [d] + Events(rest);
    assert events[0] == d && events[1..] == Events(rest);
    DecisionIsDecision(s, seat, choices[seat].action);
    if seat != w {
      WinnerFound(s, claimers[1..], choices, auto, w);
    }
  }

  /** A won triplet, run or kong: the resolution applies it, the rest is silent. */
  lemma MeldWinnerEvents(r: Rules, s: State, window: seq<Event>, w: SeatIx, a: Action, after: State)
    requires a.Peng? || a.Chi? || (a.Gang? && a.kind == Exposed)
    requires ApplyAction(r, s, w, a) == Ok(after) && NoWinner(after)
    requires FindDecision(window, Some(w)) == Ok(Decision(s, w, a))
    ensures var events := WithoutDecision(DiffToEvents(r, s, w, a, after));
            && events != []
            && ReplayEvent(r, Replayer(s, window), events[0]) == Ok(Replayed(Replayer(after, []), [after]))
            && TailSilent(events)
  {
    hide FindDecision;
    hide ApplyAction;
    DecisionRoundTrip(s, w, a);
    assert ApplyEvent(r, s, Decision(s, w, a)) == Ok(after);
    hide EventToAction;
    hide ApplyEvent;
    var events := DiffToEvents(r, s, w, a, after);
    assert events[0].DecisionEvent? && events[1] == Claimed(after, w, a);
    assert WithoutDecision(events) == events[1..];
    assert forall k :: 1 < k < |events| ==> Silent(events[k]);
  }

  /** A won ron: HAND_END is all there is. */
  lemma RonEvents(r: Rules, s: State, window: seq<Event>, w: SeatIx, after: State)
    requires ApplyAction(r, s, w, Hu) == Ok(after) && EndRecorded(after)
    requires after.terminal.Some? && after.terminal.value.winner == Some(w)
    ensures var events := WithoutDecision(DiffToEvents(r, s, w, Hu, after));
            && events != []
            && ReplayEvent(r, Replayer(s, window), events[0]) == Ok(Replayed(Replayer(after, []), [after]))
            && TailSilent(events)
  {
    hide ApplyAction;
  }

  /** What the manager writes for the winner closes the window with its action. */
  lemma WinnerEvents(r: Rules, s: State, window: seq<Event>, w: SeatIx, a: Action, after: State)
    requires s.phase == ClaimWindow && Legal(r, s, w, a) && !a.Pass? && ApplyAction(r, s, w, a) == Ok(after)
    requires EndRecorded(after) && (a.Hu? ==> after.terminal.Some?)
    requires FindDecision(window, Some(w)) == Ok(Decision(s, w, a))
    ensures var events := WithoutDecision(DiffToEvents(r, s, w, a, after));
            && events != []
            && ReplayEvent(r, Replayer(s, window), events[0]) == Ok(Replayed(Replayer(after, []), [after]))
            && TailSilent(events)
  {
    ClaimActionKinds(r, s, w, a);
    hide Legal;
    hide FindDecision;
    hide DiffToEvents;
    hide ReplayEvent;
    hide Decision;
    if a.Hu? {
      HuHasWinner(r, s, w);
      RonEvents(r, s, window, w, after);
    } else {
      OnlyHuWins(r, s, w, a);
      hide ApplyAction;
      MeldWinnerEvents(r, s, window, w, a, after);
    }
  }

  lemma ClaimActionKinds(r: Rules, s: State, seat: SeatIx, a: Action)
    requires s.phase == ClaimWindow && Legal(r, s, seat, a)
    ensures a.Pass? || a.Peng? || a.Chi? || a.Hu? || (a.Gang? && a.kind == Exposed)
  {
  }

  /** A contested window replays to the one state its winner's action led to. */
  lemma ContestReplay(r: Rules, s: State, claimers: seq<SeatIx>, choices: FourChoices, auto: FourFlags)
    requires Inv(s) && s.phase == ClaimWindow && ValidRules(r) && Ascending(claimers)
    requires AllLegal(r, s, claimers, choices) && ResolveClaimPriority(claimers, choices).Some?
    ensures var c := ResolveWindow(r, s, claimers, choices, auto);
            && (c.Ok? <==> AllRecordable(claimers, choices))
            && (c.Ok? ==>
                  ReplayEvents(r, Replayer(s, []), Events(c.value.log))
                  == Ok(Replayed(Replayer(c.value.state, []), c.value.states)))
  {
    hide Inv;
    hide AllRecordable;
    hide Mark;
    hide Events;
    hide RightWinner;
    hide ReplayEvents;
    hide ReplayEvent;
    hide Decision;
    hide ApplyAction;
    PriorityPicksRightWinner(r, s, claimers, choices);
    var w := ResolveClaimPriority(claimers, choices).value;
    hide ResolveClaimPriority;
    hide Legal;
    var a := choices[w].action;
    assert Legal(r, s, w, a);
    LegalApplies(r, s, w, a);
    var after := ApplyAction(r, s, w, a).value;
    var decisions := DecisionLog(s, claimers, choices, auto);
    ContestUnfolds(r, s, claimers, choices, auto, w);
    hide ResolveWindow;
    DecisionsBuffered(r, s, [], claimers, choices, auto);
    assert [] + Events(decisions) == Events(decisions);
    WinnerFound(s, claimers, choices, auto, w);
    WinnerEvents(r, s, Events(decisions), w, a, after);
    hide DecisionLog;
    hide FindDecision;
    var events := WithoutDecision(DiffToEvents(r, s, w, a, after));
    hide DiffToEvents;
    hide WithoutDecision;
    var marked := Mark(events, choices[w].failure, false);
    EventsOfMark(events, choices[w].failure, false);
    EventsConcat(decisions, marked);
    ClosedByHead(r, Replayer(s, Events(decisions)), events, after);
    ReplayTwo(r, Replayer(s, []), Events(decisions), events, Replayer(s, Events(decisions)), [],
              Replayer(after, []), [after]);
    assert [] + [after] == [after];
  }

  lemma ClosedByHead(r: Rules, rp: Replayer, events: seq<Event>, after: State)
    requires events != [] && TailSilent(events)
    requires ReplayEvent(r, rp, events[0]) == Ok(Replayed(Replayer(after, []), [after]))
    ensures ReplayEvents(r, rp, events) == Ok(Replayed(Replayer(after, []), [after]))
  {
    hide ReplayEvent;
    ReplayOne(r, rp, events[0]);
    SilentReplay(r, after, events[1..]);
    hide ReplayEvents;
    ReplayTwo(r, rp, [events[0]], events[1..], Replayer(after, []), [after], Replayer(after, []), []);
    assert [events[0]] + events[1..] == events && [after] + [] == [after];
  }

  // --- steps and hands ---

  ghost predicate Replays(r: Rules, s: State, step: Step) {
    ReplayEvents(r, Replayer(s, []), Events(step.log)) == Ok(Replayed(Replayer(step.table.state, []), step.states))
  }

  lemma DiscardStepReplays(r: Rules, limit: nat, t: Table, replies: FourReplies)
    requires Inv(t.state) && t.state.phase == DiscardPhase && ValidRules(r)
    requires StepDiscard(r, limit, t, replies).Ok?
    ensures Replays(r, t.state, StepDiscard(r, limit, t, replies).value)
  {
    hide Inv;
    hide Legal;
    hide Decide;
    hide Mark;
    hide Apply;
    hide ReplayEvents;
    hide Events;
    var actor := t.state.actor;
    DecisionIsLegal(r, t.state, actor, t.auto[actor], replies[actor]);
    var choice := Decide(r, t.state, actor, false, t.auto[actor], replies[actor]).value;
    hide Written;
    OwnTurnReplay(r, t.state, actor, choice.action);
    EventsOfMark(Apply(r, t.state, actor, choice.action).value.1, choice.failure, t.auto[actor]);
  }

  lemma ClaimStepReplays(r: Rules, limit: nat, t: Table, replies: FourReplies)
    requires Inv(t.state) && t.state.phase == ClaimWindow && ValidRules(r)
    requires StepClaimWindow(r, limit, t, replies).Ok?
    ensures Replays(r, t.state, StepClaimWindow(r, limit, t, replies).value)
  {
    var s := t.state;
    var claimers := Claimers(s.claims);
    ClaimersExist(s);
    hide Inv;
    hide Claimers;
    hide Claims;
    hide Legal;
    hide DecideAll;
    hide ApplyAllPass;
    hide ReplayEvents;
    hide Events;
    hide RightWinner;
    hide ResolveClaimPriority;
    DecisionsAreLegal(r, t, claimers, replies);
    var choices := DecideAll(r, t, claimers, replies).value;
    PriorityPicksRightWinner(r, s, claimers, choices);
    if ResolveClaimPriority(claimers, choices).None? {
      assert ApplyWindow(r, s, []) == Ok((s, []));
      AllPassReplay(r, s, [], [], s, claimers, choices, t.auto);
      hide AllRecordable;
      var c := ApplyAllPass(r, s, claimers, choices, t.auto).value;
      assert [] + c.states == c.states;
    } else {
      ContestReplay(r, s, claimers, choices, t.auto);
      hide ResolveWindow;
    }
  }

  lemma {:induction false} RunReplays(r: Rules, limit: nat, t: Table, script: seq<FourReplies>)
    requires Inv(t.state) && ValidRules(r) && RunTable(r, limit, t, script).Ok?
    ensures Replays(r, t.state, RunTable(r, limit, t, script).value)
    decreases |script|
  {
    hide Inv;
    hide StepDiscard;
    hide StepClaimWindow;
    hide ReplayEvents;
    if script == [] || t.state.phase == TerminalPhase {
      EmptyReplay(r, Replayer(t.state, []));
      assert Events([]) == [];
    } else {
      StepSucceeds(r, limit, t, script[0]);
      var step := StepTable(r, limit, t, script[0]).value;
      if t.state.phase == DiscardPhase {
        DiscardStepReplays(r, limit, t, script[0]);
      } else {
        ClaimStepReplays(r, limit, t, script[0]);
      }
      RunReplays(r, limit, step.table, script[1..]);
      var rest := RunTable(r, limit, step.table, script[1..]).value;
      hide StepTable;
      EventsConcat(step.log, rest.log);
      hide Events;
      ReplayTwo(r, Replayer(t.state, []), Events(step.log), Events(rest.log), Replayer(step.table.state, []), step.states,
                Replayer(rest.table.state, []), rest.states);
    }
  }

  /** The HEADER run_hand writes. */
  function Header(seed: nat, dealer: SeatIx): Event {
    HeaderEvent(seed, seq(4, i requires 0 <= i < 4 => HeaderSeat(i, Some(SeatWind(dealer, i)))))
  }

  /** The HEADER shows every seat's wind as it was dealt. */
  lemma HeaderShowsWinds(r: Rules, seed: nat, dealer: SeatIx, start: State)
    requires Start(r, seed, dealer) == Ok(start)
    ensures |Header(seed, dealer).seats| == 4
    ensures forall i: SeatIx :: Header(seed, dealer).seats[i] == HeaderSeat(i, Some(start.seats[i].wind))
  {
    hide InitialState;
    hide Rng.Wall;
    hide SeatWind;
    SeatsAsDealt(Rng.Wall(r.sha, seed).value.0, dealer, start);
  }

  lemma {:induction false} EastAt(seats: seq<HeaderSeat>, k: nat)
    requires k < |seats| && seats[k].wind == Some(EAST)
    requires forall j :: 0 <= j < k ==> seats[j].wind != Some(EAST)
    ensures DealerFromHeader(seats) == seats[k].seat
  {
    if k > 0 {
      EastAt(seats[1..], k - 1);
    }
  }

  /** Any HEADER's dealer is its first East seat; without one, seat 0. */
  lemma {:induction false} FirstEastDeals(seats: seq<HeaderSeat>)
    ensures var dealer := DealerFromHeader(seats);
            || (dealer == 0 && forall k :: 0 <= k < |seats| ==> seats[k].wind != Some(EAST))
            || exists k :: 0 <= k < |seats| && seats[k].wind == Some(EAST) && seats[k].seat == dealer
                           && forall j :: 0 <= j < k ==> seats[j].wind != Some(EAST)
  {
    if seats != [] && seats[0].wind != Some(EAST) {
      var rest := seats[1..];
      FirstEastDeals(rest);
      assert forall k :: 1 <= k < |seats| ==> seats[k] == rest[k - 1];
      if k :| 0 <= k < |rest| && rest[k].wind == Some(EAST) && rest[k].seat == DealerFromHeader(seats)
              && forall j :: 0 <= j < k ==> rest[j].wind != Some(EAST)
      {
        assert seats[k + 1].wind == Some(EAST);
      }
    }
  }

  /** The dealer is recovered from the seat winds of the header. */
  lemma DealerRecovered(seed: nat, dealer: SeatIx)
    ensures DealerFromHeader(Header(seed, dealer).seats) == dealer
  {
    EastAt(Header(seed, dealer).seats, dealer);
  }

  /** A hand as run_hand plays and records it. */
  datatype HandRecord = HandRecord(final: State, events: seq<Event>, states: seq<State>)

  /** The FOOTER that closes the record of a hand that is over. */
  function Footer(end: State): seq<Event> {
    if end.phase == TerminalPhase then [FooterEvent(end.turn, end.phase)] else []
  }

  /** run_hand: deal, write the HEADER, loop, and close with a FOOTER if the hand
      is over. `auto` says which seats failed to be seated. */
  function RunHand(r: Rules, limit: nat, seed: nat, dealer: SeatIx, auto: FourFlags,
                   script: seq<FourReplies>): Result<HandRecord> {
    hide Start;
    hide RunTable;
    var start :- Start(r, seed, dealer);
    var run :- RunTable(r, limit, Opening(start, auto), script);
    Ok(Framed(seed, dealer, start, run))
  }

  function Framed(seed: nat, dealer: SeatIx, start: State, run: Step): HandRecord {
    HandRecord(run.table.state,
               [Header(seed, dealer)] + Events(run.log) + Footer(run.table.state),
               [start] + run.states)
  }

  /** The hand was dealt as start and played as run. */
  ghost predicate PlayedAs(r: Rules, limit: nat, seed: nat, dealer: SeatIx, auto: FourFlags,
                           script: seq<FourReplies>, start: State, run: Step)
  {
    && Start(r, seed, dealer) == Ok(start)
    && RunTable(r, limit, Opening(start, auto), script) == Ok(run)
    && RunHand(r, limit, seed, dealer, auto, script) == Ok(Framed(seed, dealer, start, run))
  }

  lemma HandParts(r: Rules, limit: nat, seed: nat, dealer: SeatIx, auto: FourFlags, script: seq<FourReplies>)
    returns (start: State, run: Step)
    requires RunHand(r, limit, seed, dealer, auto, script).Ok?
    ensures PlayedAs(r, limit, seed, dealer, auto, script, start, run) && Inv(start) && start.phase == DiscardPhase
  {
    hide Start;
    hide RunTable;
    hide Inv;
    hide Framed;
    hide Rng.Wall;
    hide InitialState;
    hide Opening;
    SeedDeals(r, seed, dealer);
    start := Start(r, seed, dealer).value;
    run := RunTable(r, limit, Opening(start, auto), script).value;
  }

  /** A seed deals an opening state, unless it is no 128-bit number or the stream
      runs out before the wall is shuffled. */
  lemma SeedDeals(r: Rules, seed: nat, dealer: SeatIx)
    ensures Start(r, seed, dealer).Ok? <==> Rng.Wall(r.sha, seed).Ok?
    ensures Start(r, seed, dealer).Ok? ==>
              Inv(Start(r, seed, dealer).value) && Start(r, seed, dealer).value.phase == DiscardPhase
    ensures Start(r, seed, dealer).Ok? ==>
              Start(r, seed, dealer) == InitialState(Rng.Wall(r.sha, seed).value.0, dealer)
  {
    hide Inv;
    hide InitialState;
    if Rng.Wall(r.sha, seed).Ok? {
      Rng.WallIsDeck(r.sha, seed);
      DealIsTotal(Rng.Wall(r.sha, seed).value.0, dealer);
    }
  }

  lemma HeadThenRest(r: Rules, seed: nat, dealer: SeatIx, start: State, rest: seq<Event>)
    requires Start(r, seed, dealer) == Ok(start)
    ensures ReplayRecord(r, [Header(seed, dealer)] + rest) ==
            match ReplayEvents(r, Replayer(start, []), rest)
            case Ok(played) => Ok([start] + played.states)
            case Err(e) => Err(e)
  {
    hide Start;
    hide ReplayEvents;
    hide Header;
    hide DealerFromHeader;
    DealerRecovered(seed, dealer);
    HeaderShape(seed, dealer);
    assert ([Header(seed, dealer)] + rest)[1..] == rest;
  }

  lemma FramedReplay(r: Rules, seed: nat, dealer: SeatIx, start: State, body: seq<Event>, foot: seq<Event>,
                     end: State, states: seq<State>)
    requires Start(r, seed, dealer) == Ok(start)
    requires ReplayEvents(r, Replayer(start, []), body) == Ok(Replayed(Replayer(end, []), states))
    requires forall k :: 0 <= k < |foot| ==> Silent(foot[k])
    ensures ReplayRecord(r, [Header(seed, dealer)] + body + foot) == Ok([start] + states)
  {
    hide *;
    SilentReplay(r, end, foot);
    ReplayTwo(r, Replayer(start, []), body, foot, Replayer(end, []), states, Replayer(end, []), []);
    HeadThenRest(r, seed, dealer, start, body + foot);
    assert [Header(seed, dealer)] + body + foot == [Header(seed, dealer)] + (body + foot);
    assert states + [] == states;
  }

  /** The round trip: whatever the adapters did, replaying the record of a hand
      yields the deal followed by exactly the states its actions led to. */
  lemma RecordReplays(r: Rules, limit: nat, seed: nat, dealer: SeatIx, auto: FourFlags, script: seq<FourReplies>)
    requires ValidRules(r) && RunHand(r, limit, seed, dealer, auto, script).Ok?
    ensures var hand := RunHand(r, limit, seed, dealer, auto, script).value;
            ReplayRecord(r, hand.events) == Ok(hand.states)
  {
    hide Start;
    hide RunTable;
    hide RunHand;
    hide Framed;
    hide Opening;
    hide Inv;
    hide Replays;
    hide ReplayRecord;
    var start, run := HandParts(r, limit, seed, dealer, auto, script);
    OpeningState(start, auto);
    RunReplays(r, limit, Opening(start, auto), script);
    RunFrames(r, seed, dealer, start, run);
  }

  lemma OpeningState(start: State, auto: FourFlags)
    ensures Opening(start, auto).state == start
  {
  }

  /** Whatever the seed, the dealer and the adapters, as long as replies are
      mappings: the hand is dealt unless the seed is bad or its stream runs out, and
      it is over, with a FOOTER in its record, after 236 iterations. */
  lemma HandEnds(r: Rules, limit: nat, seed: nat, dealer: SeatIx, auto: FourFlags, script: seq<FourReplies>)
    requires ValidRules(r) && Polite(script) && |script| >= 236
    ensures var hand := RunHand(r, limit, seed, dealer, auto, script);
            && (hand.Ok? <==> Rng.Wall(r.sha, seed).Ok?)
            && (hand.Ok? ==>
                  var events := hand.value.events;
                  && hand.value.final.phase == TerminalPhase && Inv(hand.value.final)
                  && |events| >= 2 && events[0] == Header(seed, dealer)
                  && events[|events| - 1] == FooterEvent(hand.value.final.turn, TerminalPhase))
  {
    hide Header;
    hide Start;
    hide RunTable;
    hide Inv;
    hide Opening;
    hide Rng.Wall;
    hide InitialState;
    SeedDeals(r, seed, dealer);
    if Rng.Wall(r.sha, seed).Ok? {
      var start := Start(r, seed, dealer).value;
      Rng.WallIsDeck(r.sha, seed);
      HandEndsWithin236Steps(r, limit, Rng.Wall(r.sha, seed).value.0, dealer, start, auto, script);
    }
  }

  /** Hands do exist: with a hash function that lets every wall be shuffled, each
      seed, dealer and fan calculator gives one that is played to its end. */
  lemma HandsExist(fan: FanQuery -> seq<FanEntry>, limit: nat, seed: nat, dealer: SeatIx, auto: FourFlags,
                   script: seq<FourReplies>)
    requires Rng.GoodSeed(seed) && Polite(script) && |script| >= 236
    ensures var r := Rules(fan, Official(8, 8, 8), Rng.ZeroHash);
            && ValidRules(r)
            && RunHand(r, limit, seed, dealer, auto, script).Ok?
            && RunHand(r, limit, seed, dealer, auto, script).value.final.phase == TerminalPhase
  {
    hide RunHand;
    hide Rng.Wall;
    hide Polite;
    Rng.ZeroHashShuffles(seed);
    HandEnds(Rules(fan, Official(8, 8, 8), Rng.ZeroHash), limit, seed, dealer, auto, script);
  }

  lemma FooterIsSilent(end: State)
    ensures forall k :: 0 <= k < |Footer(end)| ==> Silent(Footer(end)[k])
  {
  }

  lemma RunFrames(r: Rules, seed: nat, dealer: SeatIx, start: State, run: Step)
    requires Start(r, seed, dealer) == Ok(start) && Replays(r, start, run)
    ensures var hand := Framed(seed, dealer, start, run);
            ReplayRecord(r, hand.events) == Ok(hand.states)
  {
    hide Start;
    hide Events;
    hide ReplayRecord;
    hide ReplayEvents;
    FooterIsSilent(run.table.state);
    hide Footer;
    FramedReplay(r, seed, dealer, start, Events(run.log), Footer(run.table.state), run.table.state, run.states);
  }

  lemma HeaderShape(seed: nat, dealer: SeatIx)
    ensures Header(seed, dealer).HeaderEvent? && Header(seed, dealer).seed == seed
  {
  }
}
