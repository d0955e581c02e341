/** The table manager (table/manager.py): one hand driven by four adapters that
    may answer anything, time out or crash. The coroutines are sequential steps,
    because every decision of a step is gathered before anything is applied. */
module Manager {
  import opened Lists
  import opened Tiles
  import opened GameTypes
  import opened Legality
  import opened Transition
  import opened Invariant
  import opened Deal
  import opened Records

  /** What an adapter does with a prompt. Junk is a reply that equals no legal action
      and is no action at all: `mapping` says whether dict() accepts it, `recordable`
      whether the result can be written as JSON. A crash is `caught` if it raises an
      Exception; CancelledError is none. Stall is a call that never returns, not even
      when it is cancelled. */
  datatype Answer =
    | Chosen(action: Action)
    | Junk(mapping: bool, recordable: bool)
    | Timeout
    | Crash(caught: bool)
    | Stall

  /** How an adapter's observe calls end; exceptions and timeouts are swallowed. */
  datatype Observing = Returns | Escapes | NeverReturns

  /** An adapter's part in one iteration: its answer, if it is prompted, and how it
      takes the events of the step. */
  datatype Reply = Reply(answer: Answer, observing: Observing)

  datatype Failure = NoFailure | TimedOut | Crashed | IllegalReply(recordable: bool)

  datatype Choice = Choice(action: Action, failure: Failure)

  /** A record event with the marks the manager adds to it. */
  datatype Logged = Logged(event: Event, failure: Failure, auto: bool)

  const SILENT := Reply(Timeout, Returns)

  type FourReplies = x: seq<Reply> | |x| == 4 witness [SILENT, SILENT, SILENT, SILENT]
  type FourCounts = x: seq<nat> | |x| == 4 witness [0, 0, 0, 0]
  type FourFlags = x: seq<bool> | |x| == 4 witness [false, false, false, false]
  type FourChoices = x: seq<Choice> | |x| == 4
    witness [Choice(Pass, NoFailure), Choice(Pass, NoFailure), Choice(Pass, NoFailure), Choice(Pass, NoFailure)]

  /** The manager between two steps. auto[i]: an AutoPassAdapter sits at seat i. */
  datatype Table = Table(state: State, strikes: FourCounts, auto: FourFlags)

  /** The manager's table before the first step of a hand. */
  function Opening(start: State, auto: FourFlags): Table {
    Table(start, [0, 0, 0, 0], auto)
  }

  // --- prompts ---

  function FirstPlay(acts: seq<Action>): Option<Action> {
    if acts == [] then None
    else if acts[0].Play? then Some(acts[0])
    else FirstPlay(acts[1..])
  }

  /** _default_action. The fallback is the first legal PLAY; having none is an
      assertion failure. */
  function DefaultAction(r: Rules, s: State, seat: SeatIx, claim: bool): Result<Action> {
    if claim then Ok(Pass)
    else if s.lastDrawn.Some? && s.lastDrawn.value.seat == seat then Ok(Play(s.lastDrawn.value.tile))
    else
      var play := FirstPlay(LegalActions(r, s, seat));
      if play.None? then Err(AssertionFailed) else Ok(play.value)
  }

  /** _build_prompt and _decide_or_default. An AutoPassAdapter answers the default. */
  function Decide(r: Rules, s: State, seat: SeatIx, claim: bool, auto: bool, reply: Reply): Result<Choice> {
    var default :- DefaultAction(r, s, seat, claim);
    match if auto then Chosen(default) else reply.answer
    case Chosen(a) => Ok(if a in LegalActions(r, s, seat) then Choice(a, NoFailure) else Choice(default, IllegalReply(true)))
    case Junk(mapping, recordable) =>
      if mapping then Ok(Choice(default, IllegalReply(recordable))) else Err(ReplyNotAMapping)
    case Timeout => Ok(Choice(default, TimedOut))
    case Crash(caught) => if caught then Ok(Choice(default, Crashed)) else Err(AdapterEscaped)
    case Stall => Err(StepStalled)
  }

  // --- the record ---

  /** The marks of a decision go on the first event it produces. */
  function Mark(events: seq<Event>, failure: Failure, auto: bool): (log: seq<Logged>)
    ensures |log| == |events| && forall k :: 0 <= k < |log| ==> log[k].event == events[k]
  {
    seq(|events|, k requires 0 <= k < |events| =>
      if k == 0 then Logged(events[k], failure, auto) else Logged(events[k], NoFailure, false))
  }

  /** The attempted action of an illegal reply is written with the event. */
  predicate Recordable(failure: Failure) { failure != IllegalReply(false) }

  /** writer.write_event, for each of some events. */
  function Written(log: seq<Logged>): (r: Result<seq<Logged>>)
    ensures r.Ok? <==> forall k :: 0 <= k < |log| ==> Recordable(log[k].failure)
    ensures r == if r.Ok? then Ok(log) else Err(NotRecordable)
  {
    if log == [] then Ok([])
    else if !Recordable(log[0].failure) then Err(NotRecordable)
    else
      assert log == [log[0]] + log[1..];
      var rest :- Written(log[1..]);
      Ok([log[0]] + rest)
  }

  /** _fanout_observe: what escapes from the first seat that does not take an event.
      An AutoPassAdapter takes all of them. */
  function ObserveFault(auto: FourFlags, replies: FourReplies, n: nat): Option<Error>
    requires n <= 4
    decreases 4 - n
  {
    if n == 4 then None
    else if auto[n] || replies[n].observing == Returns then ObserveFault(auto, replies, n + 1)
    else Some(if replies[n].observing == Escapes then AdapterEscaped else StepStalled)
  }

  /** What a step produces: the table after it, the events it writes and the
      states its apply_action calls return, in order. */
  datatype Step = Step(table: Table, log: seq<Logged>, states: seq<State>)

  /** One applied action: the new state and its events. */
  function Apply(r: Rules, s: State, seat: SeatIx, a: Action): Result<(State, seq<Event>)> {
    var after :- ApplyAction(r, s, seat, a);
    if !EndRecorded(after) || (a.Hu? && after.terminal.None?) then Err(AssertionFailed)
    else Ok((after, DiffToEvents(r, s, seat, a, after)))
  }

  // --- strikes ---

  function Strike(strikes: FourCounts, seat: SeatIx, failure: Failure): FourCounts {
    if failure == NoFailure then strikes else strikes[seat := strikes[seat] + 1]
  }

  /** _maybe_swap_to_autopass. */
  function Swap(auto: FourFlags, strikes: FourCounts, limit: nat, seat: SeatIx): FourFlags {
    if strikes[seat] >= limit then auto[seat := true] else auto
  }

  // --- the discard step ---

  /** _step_discard. */
  function StepDiscard(r: Rules, limit: nat, t: Table, replies: FourReplies): Result<Step> {
    var actor := t.state.actor;
    var choice :- Decide(r, t.state, actor, false, t.auto[actor], replies[actor]);
    var strikes := Strike(t.strikes, actor, choice.failure);
    var applied :- Apply(r, t.state, actor, choice.action);
    var log :- Written(Mark(applied.1, choice.failure, t.auto[actor]));
    Ok(Step(Table(applied.0, strikes, Swap(t.auto, strikes, limit, actor)), log, [applied.0]))
  }

  // --- the claim step ---

  predicate Claims(cs: seq<Claim>, seat: SeatIx) { exists k :: 0 <= k < |cs| && cs[k].seat == seat }

  /** The seats with a pending claim, in ascending order. */
  function Claimers(cs: seq<Claim>): (seats: seq<SeatIx>)
    ensures forall i: SeatIx :: i in seats <==> Claims(cs, i)
    ensures forall j, k :: 0 <= j < k < |seats| ==> seats[j] < seats[k]
  {
    (if Claims(cs, 0) then [0] else []) + (if Claims(cs, 1) then [1] else [])
    + (if Claims(cs, 2) then [2] else []) + (if Claims(cs, 3) then [3] else [])
  }

  /** The gathered decisions of the claimers; other seats' entries are not used. */
  function DecideAll(r: Rules, t: Table, claimers: seq<SeatIx>, replies: FourReplies): Result<FourChoices> {
    if claimers == [] then
      Ok([Choice(Pass, NoFailure), Choice(Pass, NoFailure), Choice(Pass, NoFailure), Choice(Pass, NoFailure)])
    else
      var seat := claimers[0];
      var choice :- Decide(r, t.state, seat, true, t.auto[seat], replies[seat]);
      var rest :- DecideAll(r, t, claimers[1..], replies);
      Ok(rest[seat := choice])
  }

  function StrikeAll(strikes: FourCounts, claimers: seq<SeatIx>, choices: FourChoices): FourCounts
    decreases |claimers|
  {
    if claimers == [] then strikes
    else StrikeAll(Strike(strikes, claimers[0], choices[claimers[0]].failure), claimers[1..], choices)
  }

  function SwapAll(auto: FourFlags, strikes: FourCounts, limit: nat, claimers: seq<SeatIx>): FourFlags
    decreases |claimers|
  {
    if claimers == [] then auto
    else SwapAll(Swap(auto, strikes, limit, claimers[0]), strikes, limit, claimers[1..])
  }

  function FirstChoosing(claimers: seq<SeatIx>, choices: FourChoices, kind: DecisionKind): (w: Option<SeatIx>) {
    if claimers == [] then None
    else if KindOf(choices[claimers[0]].action) == kind then Some(claimers[0])
    else FirstChoosing(claimers[1..], choices, kind)
  }

  const PRIORITY: seq<DecisionKind> := [DecideHu, DecidePeng, DecideGang, DecideChi]

  /** _resolve_claim_priority from the n-th kind on. */
  function ResolveFrom(claimers: seq<SeatIx>, choices: FourChoices, n: nat): (w: Option<SeatIx>)
    requires n <= 4
    decreases 4 - n
  {
    if n == 4 then None
    else
      var w := FirstChoosing(claimers, choices, PRIORITY[n]);
      if w.Some? then w else ResolveFrom(claimers, choices, n + 1)
  }

  function ResolveClaimPriority(claimers: seq<SeatIx>, choices: FourChoices): (w: Option<SeatIx>) {
    ResolveFrom(claimers, choices, 0)
  }

  /** The state after a claim window, with the events and states on the way. */
  datatype Closing = Closing(state: State, log: seq<Logged>, states: seq<State>)

  /** _apply_all_pass. */
  function ApplyAllPass(r: Rules, s: State, claimers: seq<SeatIx>, choices: FourChoices, auto: FourFlags): Result<Closing>
    decreases |claimers|
  {
    if claimers == [] || s.phase != ClaimWindow then Ok(Closing(s, [], []))
    else
      var seat := claimers[0];
      var applied :- Apply(r, s, seat, choices[seat].action);
      var log :- Written(Mark(applied.1, choices[seat].failure, auto[seat]));
      var rest :- ApplyAllPass(r, applied.0, claimers[1..], choices, auto);
      Ok(Closing(rest.state, log + rest.log, [applied.0] + rest.states))
  }

  /** A CLAIM_DECISION for every claimer, in seat order. */
  function DecisionLog(s: State, claimers: seq<SeatIx>, choices: FourChoices, auto: FourFlags): (log: seq<Logged>) {
    if claimers == [] then []
    else
      var seat := claimers[0];
      [Logged(Decision(s, seat, choices[seat].action), choices[seat].failure, auto[seat])]
      + DecisionLog(s, claimers[1..], choices, auto)
  }

  /** The winner's own CLAIM_DECISION is already in the log. */
  function WithoutDecision(events: seq<Event>): seq<Event> {
    if events != [] && events[0].DecisionEvent? then events[1..] else events
  }

  /** The window once every decision is in: all pass, or one claim wins. */
  function ResolveWindow(r: Rules, s: State, claimers: seq<SeatIx>, choices: FourChoices, auto: FourFlags): Result<Closing> {
    var winner := ResolveClaimPriority(claimers, choices);
    if winner.None? then ApplyAllPass(r, s, claimers, choices, auto)
    else
      var choice := choices[winner.value];
      var decisions :- Written(DecisionLog(s, claimers, choices, auto));
      var applied :- Apply(r, s, winner.value, choice.action);
      var outcome :- Written(Mark(WithoutDecision(applied.1), choice.failure, false));
      Ok(Closing(applied.0, decisions + outcome, [applied.0]))
  }

  /** _step_claim_window. */
  function StepClaimWindow(r: Rules, limit: nat, t: Table, replies: FourReplies): Result<Step> {
    var claimers := Claimers(t.state.claims);
    var choices :- DecideAll(r, t, claimers, replies);
    var strikes := StrikeAll(t.strikes, claimers, choices);
    var resolved :- ResolveWindow(r, t.state, claimers, choices, t.auto);
    Ok(Step(Table(resolved.state, strikes, SwapAll(t.auto, strikes, limit, claimers)), resolved.log, resolved.states))
  }

  // --- the main loop ---

  /** The step of the phase. */
  function PhaseStep(r: Rules, limit: nat, t: Table, replies: FourReplies): Result<Step> {
    match t.state.phase
    case DiscardPhase => StepDiscard(r, limit, t, replies)
    case ClaimWindow => StepClaimWindow(r, limit, t, replies)
    case TerminalPhase => Ok(Step(t, [], []))
  }

  /** _guarded_step: the step with its events observed. */
  function StepTable(r: Rules, limit: nat, t: Table, replies: FourReplies): Result<Step> {
    var step :- PhaseStep(r, limit, t, replies);
    var fault := ObserveFault(t.auto, replies, 0);
    if step.log != [] && fault.Some? then Err(fault.value) else Ok(step)
  }

  /** The main loop for as many iterations as the script gives replies for. */
  function RunTable(r: Rules, limit: nat, t: Table, script: seq<FourReplies>): Result<Step>
    decreases |script|
  {
    if script == [] || t.state.phase == TerminalPhase then Ok(Step(t, [], []))
    else
      var step :- StepTable(r, limit, t, script[0]);
      var rest :- RunTable(r, limit, step.table, script[1..]);
      Ok(Step(rest.table, step.log + rest.log, step.states + rest.states))
  }
}
