/** The table manager's main loop as it runs (table/manager.py): local variables
    rebound step by step, strikes and seats updated in place, events appended to the
    record. Every method is verified against the functions of module Manager. */
module HandRunner {
  import opened Lists
  import opened Tiles
  import opened GameTypes
  import opened Legality
  import opened Transition
  import opened Engine
  import opened Records
  import opened Manager
  import Replay
  import Safety

  /** _resolve_claim_priority: kinds in order, then seats in order. */
  method PickWinner(claimers: seq<SeatIx>, choices: FourChoices) returns (winner: Option<SeatIx>)
    ensures winner == ResolveClaimPriority(claimers, choices)
  {
    for n := 0 to 4
      invariant ResolveFrom(claimers, choices, n) == ResolveClaimPriority(claimers, choices)
    {
      for i := 0 to |claimers|
        invariant FirstChoosing(claimers[i..], choices, PRIORITY[n]) == FirstChoosing(claimers, choices, PRIORITY[n])
      {
        assert claimers[i..][0] == claimers[i] && claimers[i..][1..] == claimers[i + 1..];
        if KindOf(choices[claimers[i]].action) == PRIORITY[n] {
          return Some(claimers[i]);
        }
      }
    }
    winner := None;
  }

  /** The gathering loop of _fanout_observe. */
  method FanOut(auto: FourFlags, replies: FourReplies) returns (fault: Option<Error>)
    ensures fault == ObserveFault(auto, replies, 0)
  {
    for i := 0 to 4
      invariant ObserveFault(auto, replies, i) == ObserveFault(auto, replies, 0)
    {
      if !auto[i] && replies[i].observing != Returns {
        return Some(if replies[i].observing == Escapes then AdapterEscaped else StepStalled);
      }
    }
    fault := None;
  }

  class HandRunner {
    const rules: Rules
    const limit: nat
    var state: GameState
    var strikes: FourCounts
    var auto: FourFlags
    var log: seq<Logged>
    /** The states the apply_action calls have returned. */
    ghost var states: seq<State>

    function Now(): Table
      reads this, state
    {
      Table(state.Value(), strikes, auto)
    }

    constructor (rules: Rules, limit: nat, start: State, auto: FourFlags)
      ensures this.rules == rules && this.limit == limit
      ensures Now() == Opening(start, auto) && log == [] && states == []
    {
      this.rules, this.limit, this.auto := rules, limit, auto;
      state := new GameState(start);
      strikes, log, states := [0, 0, 0, 0], [], [];
    }

    /** What a step must have done, given what the function says it does. */
    ghost predicate Stepped(spec: Result<Step>, log0: seq<Logged>, states0: seq<State>, error: Option<Error>)
      reads this, state
    {
      match spec
      case Ok(step) =>
        error == None && Now() == step.table && log == log0 + step.log && states == states0 + step.states
      case Err(e) => error == Some(e)
    }

    /** apply_action and diff_to_events, one after the other. */
    method ApplyAndDiff(seat: SeatIx, a: Action) returns (res: Result<seq<Event>>)
      modifies this`state, this`states
      ensures match Apply(rules, old(state.Value()), seat, a)
              case Ok(p) => res == Ok(p.1) && state.Value() == p.0 && states == old(states) + [p.0]
              case Err(e) => res == Err(e)
    {
      hide ApplyAction;
      hide DiffToEvents;
      var before := state.Value();
      var next := Act(rules, state, seat, a);
      if next.Err? {
        return Err(next.error);
      }
      state := next.value;
      states := states + [state.Value()];
      var after := state.Value();
      if !EndRecorded(after) || (a.Hu? && after.terminal.None?) {
        return Err(AssertionFailed);
      }
      var events := BuildEvents(rules, before, seat, a, after);
      res := Ok(events);
    }

    /** writer.write_event, for the events of a decision. */
    method WriteAll(events: seq<Logged>) returns (error: Option<Error>)
      modifies this`log
      ensures error == (if Written(events).Ok? then None else Some(NotRecordable))
      ensures error.None? ==> log == old(log) + events
    {
      for k := 0 to |events|
        invariant log == old(log) + events[..k]
        invariant forall j :: 0 <= j < k ==> Recordable(events[j].failure)
      {
        if !Recordable(events[k].failure) {
          return Some(NotRecordable);
        }
        assert events[..k + 1] == events[..k] + [events[k]];
        log := log + [events[k]];
      }
      assert events[..|events|] == events;
      error := None;
    }

    /** _maybe_swap_to_autopass. */
    method MaybeSwap(seat: SeatIx)
      modifies this`auto
      ensures auto == Swap(old(auto), strikes, limit, seat)
    {
      if strikes[seat] >= limit && !auto[seat] {
        auto := auto[seat := true];
      }
    }

    /** _step_discard. */
    method PlayTurn(replies: FourReplies) returns (error: Option<Error>)
      modifies this
      ensures Stepped(StepDiscard(rules, limit, old(Now()), replies), old(log), old(states), error)
    {
      hide Apply;
      hide Decide;
      hide Written;
      var actor := state.actor;
      var choice := Decide(rules, state.Value(), actor, false, auto[actor], replies[actor]);
      if choice.Err? {
        return Some(choice.error);
      }
      if choice.value.failure != NoFailure {
        strikes := strikes[actor := strikes[actor] + 1];
      }
      var events := ApplyAndDiff(actor, choice.value.action);
      if events.Err? {
        return Some(events.error);
      }
      error := WriteAll(Mark(events.value, choice.value.failure, auto[actor]));
      if error.None? {
        MaybeSwap(actor);
      }
    }

    /** The same for a claim window, which leaves strikes and seats to its caller. */
    ghost predicate Closed(spec: Result<Closing>, log0: seq<Logged>, states0: seq<State>, error: Option<Error>)
      reads this, state
    {
      match spec
      case Ok(c) => error == None && state.Value() == c.state && log == log0 + c.log && states == states0 + c.states
      case Err(e) => error == Some(e)
    }

    /** _apply_all_pass. */
    method PassAll(claimers: seq<SeatIx>, choices: FourChoices) returns (error: Option<Error>)
      modifies this`state, this`states, this`log
      ensures Closed(ApplyAllPass(rules, old(state.Value()), claimers, choices, auto), old(log), old(states), error)
    {
      hide Apply;
      hide Written;
      ghost var goal := ApplyAllPass(rules, state.Value(), claimers, choices, auto);
      ghost var logged: seq<Logged>, passed: seq<State> := [], [];
      assert claimers[0..] == claimers;
      PrependNothing(goal);
      var i := 0;
      while i < |claimers| && state.phase == ClaimWindow
        invariant 0 <= i <= |claimers|
        invariant log == old(log) + logged && states == old(states) + passed
        invariant goal == Prepend(logged, passed,
                                  ApplyAllPass(rules, state.Value(), claimers[i..], choices, auto))
      {
        var seat := claimers[i];
        PassOne(rules, state.Value(), claimers[i..], choices, auto, logged, passed);
        assert claimers[i..][1..] == claimers[i + 1..];
        hide ApplyAllPass;
        var events := ApplyAndDiff(seat, choices[seat].action);
        if events.Err? {
          return Some(events.error);
        }
        var marked := Mark(events.value, choices[seat].failure, auto[seat]);
        error := WriteAll(marked);
        if error.Some? {
          return;
        }
        logged, passed := logged + marked, passed + [state.Value()];
        i := i + 1;
      }
      assert logged + [] == logged && passed + [] == passed;
      error := None;
    }

    /** Every claimer's decision is written, winner's and losers' alike. */
    method WriteDecisions(claimers: seq<SeatIx>, choices: FourChoices) returns (error: Option<Error>)
      modifies this`log
      ensures var decisions := DecisionLog(state.Value(), claimers, choices, auto);
              if Written(decisions).Ok? then error == None && log == old(log) + decisions
              else error == Some(NotRecordable)
    {
      hide Decision;
      hide Written;
      ghost var decisions := DecisionLog(state.Value(), claimers, choices, auto);
      for i := 0 to |claimers|
        invariant log + DecisionLog(state.Value(), claimers[i..], choices, auto) == old(log) + decisions
        invariant Written(decisions).Ok? <==> Written(DecisionLog(state.Value(), claimers[i..], choices, auto)).Ok?
      {
        var seat := claimers[i];
        var event := Logged(Decision(state.Value(), seat, choices[seat].action), choices[seat].failure, auto[seat]);
        ghost var rest := DecisionLog(state.Value(), claimers[i + 1..], choices, auto);
        assert claimers[i..][0] == seat && claimers[i..][1..] == claimers[i + 1..];
        assert DecisionLog(state.Value(), claimers[i..], choices, auto) == [event] + rest;
        WrittenHead(event, rest);
        if !Recordable(event.failure) {
          return Some(NotRecordable);
        }
        log := log + [event];
      }
      assert Written([]) == Ok([]);
      error := None;
    }

    /** The winning claim: the decisions are written, then the winner's is applied. */
    method AwardClaim(winner: SeatIx, claimers: seq<SeatIx>, choices: FourChoices) returns (error: Option<Error>)
      requires ResolveClaimPriority(claimers, choices) == Some(winner)
      modifies this`state, this`states, this`log
      ensures Closed(ResolveWindow(rules, old(state.Value()), claimers, choices, auto), old(log), old(states), error)
    {
      hide Apply;
      hide ResolveClaimPriority;
      hide DecisionLog;
      hide Mark;
      hide Written;
      ghost var decisions := DecisionLog(state.Value(), claimers, choices, auto);
      error := WriteDecisions(claimers, choices);
      if error.Some? {
        return;
      }
      var events := ApplyAndDiff(winner, choices[winner].action);
      if events.Err? {
        return Some(events.error);
      }
      var applied := Mark(WithoutDecision(events.value), choices[winner].failure, false);
      assert (old(log) + decisions) + applied == old(log) + (decisions + applied);
      error := WriteAll(applied);
    }

    method StrikeFailures(claimers: seq<SeatIx>, choices: FourChoices)
      modifies this`strikes
      ensures strikes == StrikeAll(old(strikes), claimers, choices)
    {
      for i := 0 to |claimers|
        invariant StrikeAll(strikes, claimers[i..], choices) == StrikeAll(old(strikes), claimers, choices)
      {
        var seat := claimers[i];
        assert claimers[i..][0] == seat && claimers[i..][1..] == claimers[i + 1..];
        if choices[seat].failure != NoFailure {
          strikes := strikes[seat := strikes[seat] + 1];
        }
      }
    }

    method SwapFailed(claimers: seq<SeatIx>)
      modifies this`auto
      ensures auto == SwapAll(old(auto), strikes, limit, claimers)
    {
      for i := 0 to |claimers|
        invariant SwapAll(auto, strikes, limit, claimers[i..]) == SwapAll(old(auto), strikes, limit, claimers)
      {
        assert claimers[i..][0] == claimers[i] && claimers[i..][1..] == claimers[i + 1..];
        MaybeSwap(claimers[i]);
      }
    }

    /** _step_claim_window. */
    method CloseWindow(replies: FourReplies) returns (error: Option<Error>)
      modifies this
      ensures Stepped(StepClaimWindow(rules, limit, old(Now()), replies), old(log), old(states), error)
    {
      hide DecideAll;
      hide Claimers;
      hide StrikeAll;
      hide SwapAll;
      hide ApplyAllPass;
      var claimers := Claimers(state.claims);
      var choices := DecideAll(rules, Now(), claimers, replies);
      if choices.Err? {
        return Some(choices.error);
      }
      StrikeFailures(claimers, choices.value);
      var winner := PickWinner(claimers, choices.value);
      if winner.None? {
        error := PassAll(claimers, choices.value);
      } else {
        error := AwardClaim(winner.value, claimers, choices.value);
        hide ResolveWindow;
      }
      if error.None? {
        SwapFailed(claimers);
      }
    }

    /** One iteration of the main loop, before its events have been observed. */
    method OnePhaseStep(replies: FourReplies) returns (error: Option<Error>)
      requires state.phase != TerminalPhase
      modifies this
      ensures Stepped(PhaseStep(rules, limit, old(Now()), replies), old(log), old(states), error)
    {
      hide StepDiscard;
      hide StepClaimWindow;
      if state.phase == DiscardPhase {
        error := PlayTurn(replies);
      } else {
        error := CloseWindow(replies);
      }
    }

    /** One iteration of the main loop: the events of the step go to the adapters
        that were seated when it began. */
    method OneStep(replies: FourReplies) returns (error: Option<Error>)
      requires state.phase != TerminalPhase
      modifies this
      ensures Stepped(StepTable(rules, limit, old(Now()), replies), old(log), old(states), error)
    {
      hide PhaseStep;
      hide ObserveFault;
      var seated, written := auto, |log|;
      error := OnePhaseStep(replies);
      if error.None? && |log| > written {
        error := FanOut(seated, replies);
      }
    }

    /** The main loop, for as long as replies come in. */
    method Loop(script: seq<FourReplies>) returns (error: Option<Error>)
      modifies this
      ensures Stepped(RunTable(rules, limit, old(Now()), script), old(log), old(states), error)
    {
      hide StepTable;
      hide RunTable;
      ghost var goal := RunTable(rules, limit, Now(), script);
      ghost var logged: seq<Logged>, passed: seq<State> := [], [];
      RunPrependNothing(goal);
      assert script[0..] == script;
      var k := 0;
      while k < |script| && state.phase != TerminalPhase
        invariant 0 <= k <= |script|
        invariant log == old(log) + logged && states == old(states) + passed
        invariant goal == After(logged, passed, RunTable(rules, limit, Now(), script[k..]))
      {
        RunOne(rules, limit, Now(), script[k..], logged, passed);
        assert script[k..][1..] == script[k + 1..];
        ghost var step := StepTable(rules, limit, Now(), script[k]);
        error := OneStep(script[k]);
        if error.Some? {
          return;
        }
        logged, passed := logged + step.value.log, passed + step.value.states;
        k := k + 1;
      }
      RunStops(rules, limit, Now(), script[k..]);
      assert logged + [] == logged && passed + [] == passed;
      error := None;
    }
  }

  // --- prefixes of what the recursions still have to add ---

  function Prepend(log: seq<Logged>, states: seq<State>, r: Result<Closing>): Result<Closing> {
    match r
    case Ok(c) => Ok(Closing(c.state, log + c.log, states + c.states))
    case Err(e) => Err(e)
  }

  lemma PrependNothing(r: Result<Closing>)
    ensures Prepend([], [], r) == r
  {
    if r.Ok? {
      assert [] + r.value.log == r.value.log && [] + r.value.states == r.value.states;
    }
  }

  lemma WrittenHead(event: Logged, rest: seq<Logged>)
    ensures Written([event] + rest).Ok? <==> Recordable(event.failure) && Written(rest).Ok?
  {
    assert ([event] + rest)[1..] == rest;
  }

  lemma PassOne(r: Rules, s: State, claimers: seq<SeatIx>, choices: FourChoices, auto: FourFlags,
                log: seq<Logged>, states: seq<State>)
    requires claimers != [] && s.phase == ClaimWindow
    ensures var seat := claimers[0];
            var one := Apply(r, s, seat, choices[seat].action);
            && (one.Err? ==> ApplyAllPass(r, s, claimers, choices, auto) == Err(one.error))
            && (one.Ok? ==>
                  var marked := Mark(one.value.1, choices[seat].failure, auto[seat]);
                  && (Written(marked).Err? ==> ApplyAllPass(r, s, claimers, choices, auto) == Err(NotRecordable))
                  && (Written(marked).Ok? ==>
                        Prepend(log, states, ApplyAllPass(r, s, claimers, choices, auto)) ==
                        Prepend(log + marked, states + [one.value.0],
                                ApplyAllPass(r, one.value.0, claimers[1..], choices, auto))))
  {
    hide Apply;
    hide Mark;
    hide Written;
    var seat := claimers[0];
    var one := Apply(r, s, seat, choices[seat].action);
    if one.Ok? {
      var rest := ApplyAllPass(r, one.value.0, claimers[1..], choices, auto);
      var marked := Mark(one.value.1, choices[seat].failure, auto[seat]);
      if rest.Ok? {
        assert log + (marked + rest.value.log) == (log + marked) + rest.value.log;
        assert states + ([one.value.0] + rest.value.states) == (states + [one.value.0]) + rest.value.states;
      }
    }
  }

  function After(log: seq<Logged>, states: seq<State>, r: Result<Step>): Result<Step> {
    match r
    case Ok(step) => Ok(Step(step.table, log + step.log, states + step.states))
    case Err(e) => Err(e)
  }

  lemma RunPrependNothing(r: Result<Step>)
    ensures After([], [], r) == r
  {
    if r.Ok? {
      assert [] + r.value.log == r.value.log && [] + r.value.states == r.value.states;
    }
  }

  lemma RunStops(r: Rules, limit: nat, t: Table, script: seq<FourReplies>)
    requires script == [] || t.state.phase == TerminalPhase
    ensures RunTable(r, limit, t, script) == Ok(Step(t, [], []))
  {
  }

  lemma RunOne(r: Rules, limit: nat, t: Table, script: seq<FourReplies>, log: seq<Logged>, states: seq<State>)
    requires script != [] && t.state.phase != TerminalPhase
    ensures var step := StepTable(r, limit, t, script[0]);
            && (step.Err? ==> RunTable(r, limit, t, script) == Err(step.error))
            && (step.Ok? ==>
                  After(log, states, RunTable(r, limit, t, script)) ==
                  After(log + step.value.log, states + step.value.states,
                        RunTable(r, limit, step.value.table, script[1..])))
  {
    hide StepTable;
    var step := StepTable(r, limit, t, script[0]);
    if step.Ok? {
      var rest := RunTable(r, limit, step.value.table, script[1..]);
      if rest.Ok? {
        assert log + (step.value.log + rest.value.log) == (log + step.value.log) + rest.value.log;
        assert states + (step.value.states + rest.value.states) == (states + step.value.states) + rest.value.states;
      }
    }
  }

  /** run_hand, from the deal to the FOOTER: the final state, the record and (for
      the proof) the states in between are the ones of Replay.RunHand. */
  method PlayHand(r: Rules, limit: nat, seed: nat, dealer: SeatIx, auto: FourFlags, script: seq<FourReplies>)
    returns (final: Result<State>, events: seq<Event>)
    ensures match Replay.RunHand(r, limit, seed, dealer, auto, script)
            case Ok(hand) => final == Ok(hand.final) && events == hand.events
            case Err(e) => final == Err(e)
  {
    hide RunTable;
    hide Replay.Start;
    hide Replay.Events;
    hide Replay.Header;
    var start := Replay.Start(r, seed, dealer);
    if start.Err? {
      return Err(start.error), [];
    }
    events := [Replay.Header(seed, dealer)];
    var runner := new HandRunner(r, limit, start.value, auto);
    var error := runner.Loop(script);
    if error.Some? {
      return Err(error.value), events;
    }
    var end := runner.state.Value();
    events := events + Replay.Events(runner.log);
    if end.phase == TerminalPhase {
      events := events + [FooterEvent(end.turn, end.phase)];
    }
    final := Ok(end);
  }
}
