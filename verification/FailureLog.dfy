/** Every strike is in the record: the failure marks of a hand's events are, seat by
    seat, the strikes the manager gave. */
module FailureLog {
  import opened Lists
  import opened GameTypes
  import opened Legality
  import opened Transition
  import opened Invariant
  import opened Records
  import opened Manager
  import opened Safety
  import opened Strikes
  import opened Replay

  /** A mark that says the seat failed to decide. */
  predicate MarksFailure(l: Logged, i: SeatIx) {
    && l.failure != NoFailure
    && match l.event
       case DiscardEvent(_, _, seat, _, _) => seat == i
       case DecisionEvent(_, _, seat, _, _, _, _) => seat == i
       case _ => false
  }

  function Marks(log: seq<Logged>, i: SeatIx): nat {
    if log == [] then 0 else Marks(log[..|log| - 1], i) + if MarksFailure(log[|log| - 1], i) then 1 else 0
  }

  lemma {:induction false} MarksConcat(a: seq<Logged>, b: seq<Logged>, i: SeatIx)
    ensures Marks(a + b, i) == Marks(a, i) + Marks(b, i)
    decreases |b|
  {
    if b == [] {
      assert a + b == a;
    } else {
      MarksConcat(a, b[..|b| - 1], i);
      assert (a + b)[..|a + b| - 1] == a + b[..|b| - 1];
    }
  }

  lemma MarksOfOne(l: Logged, i: SeatIx)
    ensures Marks([l], i) == if MarksFailure(l, i) then 1 else 0
  {
  }

  lemma {:induction false} MarksOfUnmarked(log: seq<Logged>, i: SeatIx)
    requires forall k :: 0 <= k < |log| ==> log[k].failure == NoFailure
    ensures Marks(log, i) == 0
  {
    if log != [] {
      MarksOfUnmarked(log[..|log| - 1], i);
    }
  }

  /** The marks of one decision's events: on the first one, if the decision failed. */
  lemma MarksOfDecision(events: seq<Event>, failure: Failure, auto: bool, i: SeatIx)
    requires events != []
    ensures Marks(Mark(events, failure, auto), i) == if MarksFailure(Logged(events[0], failure, auto), i) then 1 else 0
  {
    var log := Mark(events, failure, auto);
    assert log == [log[0]] + log[1..];
    MarksConcat([log[0]], log[1..], i);
    MarksOfOne(log[0], i);
    MarksOfUnmarked(log[1..], i);
  }

  // --- windows ---

  function Failed(claimers: seq<SeatIx>, choices: FourChoices, i: SeatIx): nat {
    if i in claimers && choices[i].failure != NoFailure then 1 else 0
  }

  lemma FailedTail(claimers: seq<SeatIx>, choices: FourChoices, i: SeatIx)
    requires claimers != [] && Ascending(claimers)
    ensures Ascending(claimers[1..])
    ensures Failed(claimers, choices, i) ==
            Failed(claimers[1..], choices, i) + if i == claimers[0] && choices[i].failure != NoFailure then 1 else 0
  {
    assert forall k :: 0 <= k < |claimers[1..]| ==> claimers[0] < claimers[1..][k];
  }

  lemma {:induction false} DecisionLogMarks(s: State, claimers: seq<SeatIx>, choices: FourChoices, auto: FourFlags, i: SeatIx)
    requires Ascending(claimers)
    ensures Marks(DecisionLog(s, claimers, choices, auto), i) == Failed(claimers, choices, i)
    decreases |claimers|
  {
    if claimers != [] {
      var seat := claimers[0];
      FailedTail(claimers, choices, i);
      DecisionLogMarks(s, claimers[1..], choices, auto, i);
      var first := Logged(Decision(s, seat, choices[seat].action), choices[seat].failure, auto[seat]);
      MarksOfOne(first, i);
      MarksConcat([first], DecisionLog(s, claimers[1..], choices, auto), i);
    }
  }

  lemma PassIsLoggedFirst(r: Rules, s: State, seat: SeatIx)
    requires s.phase == ClaimWindow && Apply(r, s, seat, Pass).Ok?
    ensures var (after, events) := Apply(r, s, seat, Pass).value;
            events != [] && events[0] == Decision(after, seat, Pass)
  {
    hide ApplyAction;
  }

  lemma {:induction false} AllPassMarks(r: Rules, s: State, claimers: seq<SeatIx>, choices: FourChoices,
                                        auto: FourFlags, i: SeatIx)
    requires Inv(s) && s.phase == ClaimWindow && ValidRules(r) && claimers != [] && Ascending(claimers)
    requires forall j: SeatIx :: j in claimers <==> Claims(s.claims, j)
    requires forall j: SeatIx :: j in claimers ==> choices[j].action == Pass
    requires ApplyAllPass(r, s, claimers, choices, auto).Ok?
    ensures Marks(ApplyAllPass(r, s, claimers, choices, auto).value.log, i) == Failed(claimers, choices, i)
    decreases |claimers|
  {
    hide Inv;
    hide Advance;
    hide Mark;
    hide Apply;
    hide ApplyPass;
    hide ApplyAllPass;
    hide Marks;
    hide Failed;
    var seat := claimers[0];
    assert seat in claimers;
    PassOneApplied(r, s, claimers, choices, auto);
    OnePass(s, claimers);
    FailedTail(claimers, choices, i);
    var (after, events) := Apply(r, s, seat, Pass).value;
    var rest := claimers[1..];
    PassIsLoggedFirst(r, s, seat);
    MarksOfDecision(events, choices[seat].failure, auto[seat], i);
    MarksConcat(Mark(events, choices[seat].failure, auto[seat]), ApplyAllPass(r, after, rest, choices, auto).value.log, i);
    if |claimers| > 1 {
      forall j: SeatIx | j in rest ensures choices[j].action == Pass {
        assert j in claimers;
      }
      AllPassMarks(r, after, rest, choices, auto, i);
    } else {
      NobodyFailed(rest, choices, i);
      NobodyPasses(r, after, choices, auto);
      MarksOfUnmarked([], i);
    }
  }

  lemma NobodyFailed(claimers: seq<SeatIx>, choices: FourChoices, i: SeatIx)
    requires claimers == []
    ensures Failed(claimers, choices, i) == 0
  {
  }

  /** A failed decision is the default, so whoever wins a window did not fail. */
  lemma WindowMarks(r: Rules, t: Table, claimers: seq<SeatIx>, replies: FourReplies, i: SeatIx)
    requires Inv(t.state) && t.state.phase == ClaimWindow && ValidRules(r) && claimers == Claimers(t.state.claims)
    requires DecideAll(r, t, claimers, replies).Ok?
    ensures var choices := DecideAll(r, t, claimers, replies).value;
            var closing := ResolveWindow(r, t.state, claimers, choices, t.auto);
            closing.Ok? ==> Marks(closing.value.log, i) == Failed(claimers, choices, i)
  {
    hide Inv;
    hide Legal;
    hide Claimers;
    hide DecideAll;
    hide ResolveClaimPriority;
    hide RightWinner;
    hide ApplyAllPass;
    hide Apply;
    hide Decide;
    hide Marks;
    hide Failed;
    hide DecisionLog;
    hide ResolveWindow;
    hide AllRecordable;
    ClaimersExist(t.state);
    DecisionsAreLegal(r, t, claimers, replies);
    var choices := DecideAll(r, t, claimers, replies).value;
    PriorityPicksRightWinner(r, t.state, claimers, choices);
    var winner := ResolveClaimPriority(claimers, choices);
    var closing := ResolveWindow(r, t.state, claimers, choices, t.auto);
    if closing.Ok? {
      if winner.None? {
        WindowPassed(r, t.state, claimers, choices, t.auto);
        AllPassMarks(r, t.state, claimers, choices, t.auto, i);
      } else {
        var w := winner.value;
        DecisionIsLegal(r, t.state, w, t.auto[w], replies[w]);
        WinnerDidNotFail(r, t.state, w, choices[w]);
        assert Legal(r, t.state, w, choices[w].action);
        LegalApplies(r, t.state, w, choices[w].action);
        ContestUnfolds(r, t.state, claimers, choices, t.auto, w);
        var applied := Apply(r, t.state, w, choices[w].action).value;
        var tail := Mark(WithoutDecision(applied.1), choices[w].failure, false);
        MarksOfUnmarked(tail, i);
        DecisionLogMarks(t.state, claimers, choices, t.auto, i);
        MarksConcat(DecisionLog(t.state, claimers, choices, t.auto), tail, i);
      }
    }
  }

  lemma WindowPassed(r: Rules, s: State, claimers: seq<SeatIx>, choices: FourChoices, auto: FourFlags)
    requires ResolveClaimPriority(claimers, choices).None?
    ensures ResolveWindow(r, s, claimers, choices, auto) == ApplyAllPass(r, s, claimers, choices, auto)
  {
  }

  lemma WinnerDidNotFail(r: Rules, s: State, w: SeatIx, choice: Choice)
    requires choice.failure != NoFailure ==> Ok(choice.action) == DefaultAction(r, s, w, true)
    requires !choice.action.Pass?
    ensures choice.failure == NoFailure
  {
  }

  // --- steps and runs ---

  /** A turn that failed is played by a discard. */
  lemma FailedTurnDiscards(r: Rules, s: State, seat: SeatIx, auto: bool, reply: Reply)
    requires Inv(s) && s.phase == DiscardPhase && seat == s.actor && Decide(r, s, seat, false, auto, reply).Ok?
    ensures var choice := Decide(r, s, seat, false, auto, reply).value;
            && Legal(r, s, seat, choice.action)
            && (choice.failure != NoFailure ==> choice.action.Play?)
  {
    hide Inv;
    hide Decide;
    hide Legal;
    DecisionIsLegal(r, s, seat, auto, reply);
    if Decide(r, s, seat, false, auto, reply).value.failure != NoFailure {
      DefaultIsPlay(r, s, seat);
    }
  }

  lemma DiscardMarks(r: Rules, limit: nat, t: Table, replies: FourReplies, step: Step, i: SeatIx)
    requires Inv(t.state) && t.state.phase == DiscardPhase && ValidRules(r)
    requires StepDiscard(r, limit, t, replies) == Ok(step)
    ensures step.table.strikes[i] == t.strikes[i] + Marks(step.log, i)
  {
    hide Inv;
    hide Legal;
    hide Decide;
    hide Apply;
    hide Mark;
    hide Marks;
    hide Written;
    var actor := t.state.actor;
    FailedTurnDiscards(r, t.state, actor, t.auto[actor], replies[actor]);
    var choice := Decide(r, t.state, actor, false, t.auto[actor], replies[actor]).value;
    LegalApplies(r, t.state, actor, choice.action);
    EventsNotEmpty(r, t.state, actor, choice.action);
    MarksOfDecision(Apply(r, t.state, actor, choice.action).value.1, choice.failure, t.auto[actor], i);
  }

  lemma {:induction false} FirstPlayIsPlay(acts: seq<Action>)
    ensures FirstPlay(acts).Some? ==> FirstPlay(acts).value.Play?
  {
    if acts != [] && !acts[0].Play? {
      FirstPlayIsPlay(acts[1..]);
    }
  }

  lemma DefaultIsPlay(r: Rules, s: State, seat: SeatIx)
    requires DefaultAction(r, s, seat, false).Ok?
    ensures DefaultAction(r, s, seat, false).value.Play?
  {
    FirstPlayIsPlay(LegalActions(r, s, seat));
  }

  lemma EventsNotEmpty(r: Rules, s: State, seat: SeatIx, a: Action)
    requires Apply(r, s, seat, a).Ok?
    ensures var events := Apply(r, s, seat, a).value.1;
            && events != []
            && (a.Play? ==> events[0].DiscardEvent? && events[0].seat == seat)
  {
    hide ApplyAction;
  }

  /** Each step: the strikes it gives a seat are the failure marks it logs for it. */
  lemma StepMarks(r: Rules, limit: nat, t: Table, replies: FourReplies, step: Step, i: SeatIx)
    requires Inv(t.state) && t.state.phase != TerminalPhase && ValidRules(r)
    requires StepTable(r, limit, t, replies) == Ok(step)
    ensures step.table.strikes[i] == t.strikes[i] + Marks(step.log, i)
  {
    hide Inv;
    hide Marks;
    hide StepDiscard;
    hide DecideAll;
    hide ResolveWindow;
    hide Claimers;
    hide StrikeAll;
    hide SwapAll;
    if t.state.phase == DiscardPhase {
      DiscardMarks(r, limit, t, replies, step, i);
    } else {
      var claimers := Claimers(t.state.claims);
      ClaimersExist(t.state);
      WindowMarks(r, t, claimers, replies, i);
      StrikeAllStrikesOnce(t.strikes, claimers, DecideAll(r, t, claimers, replies).value, i);
    }
  }

  /** Over a whole hand the failure marks in the record are, for each seat, exactly
      the strikes it ended up with: no failure goes unrecorded, none is invented. */
  lemma {:induction false} StrikesAreLogged(r: Rules, limit: nat, t: Table, script: seq<FourReplies>, run: Step, i: SeatIx)
    requires Inv(t.state) && ValidRules(r) && RunTable(r, limit, t, script) == Ok(run)
    ensures run.table.strikes[i] == t.strikes[i] + Marks(run.log, i)
    decreases |script|
  {
    hide Inv;
    hide StepTable;
    if script == [] || t.state.phase == TerminalPhase {
      MarksOfUnmarked([], i);
    } else {
      StepSucceeds(r, limit, t, script[0]);
      var step := StepTable(r, limit, t, script[0]).value;
      StepMarks(r, limit, t, script[0], step, i);
      var rest := RunTable(r, limit, step.table, script[1..]).value;
      StrikesAreLogged(r, limit, step.table, script[1..], rest, i);
      MarksConcat(step.log, rest.log, i);
    }
  }

  // --- dealt hands ---

  function Unmarked(e: Event): Logged { Logged(e, NoFailure, false) }

  /** The record of a hand with the marks the manager adds. */
  function MarkedRecord(seed: nat, dealer: SeatIx, run: Step): seq<Logged> {
    [Unmarked(Header(seed, dealer))] + run.log
    + (if run.table.state.phase == TerminalPhase then [Unmarked(FooterEvent(run.table.state.turn, TerminalPhase))] else [])
  }

  lemma MarkedRecordEvents(seed: nat, dealer: SeatIx, start: State, run: Step)
    ensures Events(MarkedRecord(seed, dealer, run)) == Framed(seed, dealer, start, run).events
  {
    hide Header;
  }

  lemma MarkedRecordMarks(seed: nat, dealer: SeatIx, run: Step, i: SeatIx)
    ensures Marks(MarkedRecord(seed, dealer, run), i) == Marks(run.log, i)
  {
    hide Marks;
    hide Header;
    var head := [Unmarked(Header(seed, dealer))];
    var foot := if run.table.state.phase == TerminalPhase then [Unmarked(FooterEvent(run.table.state.turn, TerminalPhase))] else [];
    MarksOfUnmarked(head, i);
    MarksOfUnmarked(foot, i);
    MarksConcat(head, run.log, i);
    MarksConcat(head + run.log, foot, i);
  }

  /** Of a dealt hand: the record shows each seat's strikes, never more than it takes
      to lose the seat, and none for a seat that was never filled; a seat with all of
      them has been replaced. */
  lemma HandFailuresRecorded(r: Rules, limit: nat, seed: nat, dealer: SeatIx, auto: FourFlags,
                             script: seq<FourReplies>, i: SeatIx)
    returns (start: State, run: Step)
    requires ValidRules(r) && RunHand(r, limit, seed, dealer, auto, script).Ok?
    ensures PlayedAs(r, limit, seed, dealer, auto, script, start, run)
    ensures Events(MarkedRecord(seed, dealer, run)) == RunHand(r, limit, seed, dealer, auto, script).value.events
    ensures var marks := Marks(MarkedRecord(seed, dealer, run), i);
            && marks == run.table.strikes[i] <= Cap(limit)
            && (marks == Cap(limit) ==> run.table.auto[i])
            && (auto[i] ==> marks == 0 && run.table.auto[i])
  {
    hide Start;
    hide RunHand;
    hide RunTable;
    hide Inv;
    hide Framed;
    hide Marks;
    hide Events;
    hide MarkedRecord;
    start, run := HandParts(r, limit, seed, dealer, auto, script);
    MarkedRecordEvents(seed, dealer, start, run);
    MarkedRecordMarks(seed, dealer, run, i);
    OpeningCounts(limit, start, auto);
    RunCounts(r, limit, Opening(start, auto), script);
    StrikesAreLogged(r, limit, Opening(start, auto), script, run, i);
    assert SeatCounted(run.table.strikes, run.table.auto, limit, i);
  }
}
