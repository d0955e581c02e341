/** What a replay viewer shows (records/replay_stream.py): the projected deal of the
    replayed record, and the projected events folded through the same reducer. */
module ReplayStream {
  import opened Lists
  import opened GameTypes
  import opened Invariant
  import opened Records
  import opened Manager
  import opened Safety
  import opened Replay
  import opened Views
  import opened Simulation
  import opened Reducer
  import HandRunner
  import Client

  /** HEADER and FOOTER are record-keeping, not events a seat is sent. */
  predicate Visible(e: Event) { !e.HeaderEvent? && !e.FooterEvent? }

  /** projected_events_for_seat. */
  function ProjectedEvents(events: seq<Event>, viewer: Viewer): seq<Event> {
    if events == [] then []
    else (if Visible(events[0]) then [ProjectEvent(events[0], viewer)] else []) + ProjectedEvents(events[1..], viewer)
  }

  /** initial_snapshot_for_seat: the first replayed state is the deal. */
  function InitialSnapshot(r: Rules, events: seq<Event>, viewer: Viewer): Result<View> {
    var states :- ReplayRecord(r, events);
    if states == [] then Err(PopFromEmpty) else Ok(Project(states[0], viewer))
  }

  function Fold(v: View, sent: seq<Event>): View
    decreases |sent|
  {
    if sent == [] then v else Fold(Client.ApplyEvent(v, sent[0]), sent[1..])
  }

  /** Dropping the wrappers makes no difference to the reducer. */
  lemma {:induction false} FoldIsFollow(v: View, events: seq<Event>, viewer: Viewer)
    ensures Fold(v, ProjectedEvents(events, viewer)) == Client.Follow(v, events, viewer)
    decreases |events|
  {
    hide Client.ApplyEvent;
    if events != [] {
      var rest := ProjectedEvents(events[1..], viewer);
      if Visible(events[0]) {
        assert ([ProjectEvent(events[0], viewer)] + rest)[1..] == rest;
        FoldIsFollow(Client.ApplyEvent(v, ProjectEvent(events[0], viewer)), events[1..], viewer);
      } else {
        WrapperIgnored(v, events[0], viewer);
        assert [] + rest == rest;
        FoldIsFollow(v, events[1..], viewer);
      }
    }
  }

  lemma WrapperIgnored(v: View, e: Event, viewer: Viewer)
    requires !Visible(e)
    ensures Client.ApplyEvent(v, ProjectEvent(e, viewer)) == v
  {
  }

  /** The last state a run passes through is the one it ends in. */
  lemma {:induction false} RunEndsInLastState(r: Rules, limit: nat, t: Table, script: seq<FourReplies>, run: Step)
    requires Inv(t.state) && ValidRules(r) && RunTable(r, limit, t, script) == Ok(run)
    ensures run.table.state == if run.states == [] then t.state else run.states[|run.states| - 1]
    decreases |script|
  {
    hide Inv;
    hide StepTable;
    if script != [] && t.state.phase != TerminalPhase {
      StepSucceeds(r, limit, t, script[0]);
      var step := StepTable(r, limit, t, script[0]).value;
      RunEndsInLastState(r, limit, step.table, script[1..], RunTable(r, limit, step.table, script[1..]).value);
    }
  }

  /** A replay viewer of any seat, or of the public, given only the record of a
      hand, ends up showing the board of the last replayed state, which is the
      state the hand ended in. */
  lemma ViewerShowsReplay(r: Rules, limit: nat, seed: nat, dealer: SeatIx, auto: FourFlags,
                          script: seq<FourReplies>, viewer: Viewer)
    requires ValidRules(r) && RunHand(r, limit, seed, dealer, auto, script).Ok?
    ensures var hand := RunHand(r, limit, seed, dealer, auto, script).value;
            var replayed := ReplayRecord(r, hand.events);
            var snapshot := InitialSnapshot(r, hand.events, viewer);
            && replayed.Ok? && replayed.value != [] && snapshot.Ok?
            && replayed.value[|replayed.value| - 1] == hand.final
            && hand.states != []
            && Synced(Fold(snapshot.value, ProjectedEvents(hand.events, viewer)), hand.states[0], hand.final, viewer)
  {
    hide Start;
    hide RunTable;
    hide RunHand;
    hide Opening;
    hide Inv;
    hide Synced;
    hide Project;
    hide Fold;
    hide ReplayRecord;
    hide Client.Follow;
    RecordReplays(r, limit, seed, dealer, auto, script);
    ClientTracksHand(r, limit, seed, dealer, auto, script, viewer);
    var start, run := HandParts(r, limit, seed, dealer, auto, script);
    OpeningState(start, auto);
    RunEndsInLastState(r, limit, Opening(start, auto), script, run);
    var hand := RunHand(r, limit, seed, dealer, auto, script).value;
    FoldIsFollow(Project(hand.states[0], viewer), hand.events, viewer);
  }

  // --- the viewer as it runs ---

  /** The viewer's loop: each projected event goes through the reducer. */
  method ShowEvents(view: SeatViewer, sent: seq<Event>) returns (shown: SeatViewer)
    ensures shown.Value() == Fold(view.Value(), sent) && unchanged(view)
  {
    hide Client.ApplyEvent;
    shown := view;
    assert sent[0..] == sent;
    var k := 0;
    while k < |sent|
      invariant 0 <= k <= |sent| && unchanged(view)
      invariant Fold(shown.Value(), sent[k..]) == Fold(view.Value(), sent)
    {
      assert sent[k..][0] == sent[k] && sent[k..][1..] == sent[k + 1..];
      shown := Reduce(shown, sent[k]);
      k := k + 1;
    }
  }

  /** A replay viewer: the record is replayed for its deal, the board seeded with the
      deal's projection, and the projected events folded. */
  method ShowReplay(r: Rules, events: seq<Event>, viewer: Viewer) returns (shown: Result<SeatViewer>)
    ensures match InitialSnapshot(r, events, viewer)
            case Ok(v) => shown.Ok? && shown.value.Value() == Fold(v, ProjectedEvents(events, viewer))
            case Err(e) => shown == Err(e)
  {
    hide ReplayRecord;
    hide Project;
    hide Fold;
    var states := RunReplay(r, events);
    if states.Err? {
      return Err(states.error);
    }
    if states.value == [] {
      return Err(PopFromEmpty);
    }
    var view := new SeatViewer(Project(states.value[0], viewer));
    var board := ShowEvents(view, ProjectedEvents(events, viewer));
    shown := Ok(board);
  }

  /** All of it at once: a hand is played and recorded, and its record shown to a
      viewer. The view object ends up synced with the state the hand ended in. */
  method PlayAndShow(r: Rules, limit: nat, seed: nat, dealer: SeatIx, auto: FourFlags,
                     script: seq<FourReplies>, viewer: Viewer)
    returns (final: Result<State>, shown: Result<SeatViewer>)
    requires ValidRules(r)
    ensures final.Ok? <==> RunHand(r, limit, seed, dealer, auto, script).Ok?
    ensures final.Ok? ==>
              && shown.Ok? && Start(r, seed, dealer).Ok?
              && Synced(shown.value.Value(), Start(r, seed, dealer).value, final.value, viewer)
  {
    hide Start;
    hide RunHand;
    hide InitialSnapshot;
    hide Synced;
    hide Fold;
    hide ReplayRecord;
    var events;
    final, events := HandRunner.PlayHand(r, limit, seed, dealer, auto, script);
    if final.Err? {
      return final, Err(final.error);
    }
    ViewerShowsReplay(r, limit, seed, dealer, auto, script, viewer);
    DealComesFirst(r, limit, seed, dealer, auto, script);
    shown := ShowReplay(r, events, viewer);
  }

  lemma DealComesFirst(r: Rules, limit: nat, seed: nat, dealer: SeatIx, auto: FourFlags, script: seq<FourReplies>)
    requires RunHand(r, limit, seed, dealer, auto, script).Ok?
    ensures Start(r, seed, dealer).Ok?
    ensures var hand := RunHand(r, limit, seed, dealer, auto, script).value;
            hand.states != [] && hand.states[0] == Start(r, seed, dealer).value
  {
    hide Start;
    hide RunHand;
    hide RunTable;
    hide Inv;
    var start, run := HandParts(r, limit, seed, dealer, auto, script);
  }
}
