/** What the manager makes of its adapters' answers (table/manager.py): which action is
    played for a seat that answers, fails or is no longer there, who wins a window, and
    who is struck and replaced. */
module Decisions {
  import opened Lists
  import opened Tiles
  import opened GameTypes
  import opened Legality
  import opened Transition
  import opened Invariant
  import opened Scoring
  import opened Outcomes
  import opened Records
  import opened Manager
  import opened Safety
  import opened Strikes
  import opened Replay
  import FailureLog

  // --- defaults ---

  /** Plays are listed first, so the first of them is the first action of all. */
  lemma FirstPlayIsLeast(acts: seq<Action>, p: Action)
    requires ListedInOrder(acts) && p in acts && p.Play?
    ensures FirstPlay(acts) == Some(acts[0]) && acts[0].Play?
    ensures p == acts[0] || TokenBelow(Token(acts[0].tile), Token(p.tile))
  {
    hide Token;
    var k :| 0 <= k < |acts| && acts[k] == p;
    assert k > 0 ==> ListedBefore(acts[0], acts[k]);
    assert acts[0].Play?;
  }

  /** The default of every prompt: PASS in a window; on turn the tile just drawn; and for
      a claimer, who drew none, the tile of its hand that comes first as a token. */
  lemma DefaultsSpelledOut(r: Rules, s: State, seat: SeatIx)
    requires Inv(s) && Prompted(s, seat)
    ensures s.phase == ClaimWindow ==> DefaultAction(r, s, seat, true) == Ok(Pass)
    ensures s.phase == DiscardPhase && s.lastDrawn.Some? ==>
              DefaultAction(r, s, seat, false) == Ok(Play(s.lastDrawn.value.tile))
    ensures s.phase == DiscardPhase && s.lastDrawn.None? ==>
              exists t :: t in s.seats[seat].concealed && DefaultAction(r, s, seat, false) == Ok(Play(t))
                          && forall u :: u in s.seats[seat].concealed ==> u == t || TokenBelow(Token(t), Token(u))
  {
    if s.phase == DiscardPhase && s.lastDrawn.None? {
      ActorHoldsTiles(s);
      DefaultIsLegal(r, s, seat);
      LegalActionsInOrder(r, s, seat);
      var hand := s.seats[seat].concealed;
      hide Inv;
      hide Token;
      hide LegalActions;
      forall u | u in hand
        ensures var d := DefaultAction(r, s, seat, false);
                d.Ok? && d.value.Play? && d.value.tile in hand
                && (u == d.value.tile || TokenBelow(Token(d.value.tile), Token(u)))
      {
        LegalActionsMembers(r, s, seat, Play(u));
        FirstPlayIsLeast(LegalActions(r, s, seat), Play(u));
      }
      assert hand[0] in hand;
    }
  }

  // --- answers ---

  /** A prompted seat fails unless an AutoPassAdapter sits there or the answer is legal. */
  predicate Fails(r: Rules, s: State, seat: SeatIx, auto: bool, reply: Reply) {
    !auto && !(reply.answer.Chosen? && Legal(r, s, seat, reply.answer.action))
  }

  /** What a failing answer is recorded as. */
  function FailureOf(answer: Answer): Failure {
    match answer
    case Chosen(_) => IllegalReply(true)
    case Junk(_, recordable) => IllegalReply(recordable)
    case Timeout => TimedOut
    case _ => Crashed
  }

  lemma FailuresAreMarked(answer: Answer)
    ensures FailureOf(answer) != NoFailure
  {
  }

  /** A legal answer is played as it is, and is no failure; everything else that is decided
      at all is played as the default: for an AutoPassAdapter without a mark, for a failure
      with the mark that says what went wrong. */
  lemma AnswersDecide(r: Rules, s: State, seat: SeatIx, auto: bool, reply: Reply)
    requires Inv(s) && Prompted(s, seat)
    ensures var claim := s.phase == ClaimWindow;
            var default := DefaultAction(r, s, seat, claim);
            var d := Decide(r, s, seat, claim, auto, reply);
            && default.Ok?
            && (d.Ok? <==> auto || Decidable(reply.answer))
            && (d.Ok? ==>
                  d.value == if auto then Choice(default.value, NoFailure)
                             else if Fails(r, s, seat, auto, reply) then Choice(default.value, FailureOf(reply.answer))
                             else Choice(reply.answer.action, NoFailure))
  {
    hide Legal;
    hide LegalActions;
    DefaultIsLegal(r, s, seat);
    var default := DefaultAction(r, s, seat, s.phase == ClaimWindow).value;
    LegalActionsMembers(r, s, seat, default);
    if reply.answer.Chosen? {
      LegalActionsMembers(r, s, seat, reply.answer.action);
    }
  }

  // --- the seat on turn ---

  /** The decision of a prompted seat. */
  function DecisionOf(r: Rules, t: Table, replies: FourReplies, seat: SeatIx): Result<Choice> {
    Decide(r, t.state, seat, t.state.phase == ClaimWindow, t.auto[seat], replies[seat])
  }

  /** A turn: the decision is applied, once, and what the record says first carries the
      decision's marks. */
  lemma TurnApplied(r: Rules, limit: nat, t: Table, replies: FourReplies, step: Step)
    requires Inv(t.state) && t.state.phase == DiscardPhase && ValidRules(r)
    requires StepTable(r, limit, t, replies) == Ok(step)
    ensures var actor := t.state.actor;
            var d := DecisionOf(r, t, replies, actor);
            && d.Ok? && Legal(r, t.state, actor, d.value.action)
            && ApplyAction(r, t.state, actor, d.value.action) == Ok(step.table.state)
            && step.states == [step.table.state]
            && Apply(r, t.state, actor, d.value.action).Ok?
            && step.log == Mark(Apply(r, t.state, actor, d.value.action).value.1, d.value.failure, t.auto[actor])
  {
    hide Inv;
    hide Legal;
    hide Decide;
    hide Mark;
    hide ObserveFault;
    var actor := t.state.actor;
    DecisionIsLegal(r, t.state, actor, t.auto[actor], replies[actor]);
    var a := Decide(r, t.state, actor, false, t.auto[actor], replies[actor]).value.action;
    LegalApplies(r, t.state, actor, a);
    hide ApplyAction;
    hide DiffToEvents;
  }

  /** A seat that is absent or fails on its turn plays the tile it has just drawn: it is
      left with the hand it had before the draw, its melds are as they were, and the
      record says that the tile did not come from the hand. */
  lemma AbsentSeatDiscardsDraw(r: Rules, limit: nat, t: Table, replies: FourReplies, step: Step, drawn: Tile,
                               hand: seq<Tile>)
    requires Inv(t.state) && t.state.phase == DiscardPhase && ValidRules(r)
    requires StepTable(r, limit, t, replies) == Ok(step)
    requires t.auto[t.state.actor] || Fails(r, t.state, t.state.actor, t.auto[t.state.actor], replies[t.state.actor])
    requires t.state.lastDrawn == Some(LastDrawn(t.state.actor, drawn)) && Sorted(hand)
    requires multiset(t.state.seats[t.state.actor].concealed) == multiset(hand) + multiset{drawn}
    ensures var actor := t.state.actor;
            var before, after := t.state.seats[actor], step.table.state.seats[actor];
            after.concealed == hand && after.melds == before.melds && after.discards == before.discards + [drawn]
    ensures step.log != []
            && var e := step.log[0].event;
               e.DiscardEvent? && e.seat == t.state.actor && e.tile == drawn && !e.fromHand
  {
    var actor := t.state.actor;
    TurnApplied(r, limit, t, replies, step);
    AnswersDecide(r, t.state, actor, t.auto[actor], replies[actor]);
    DefaultsSpelledOut(r, t.state, actor);
    hide StepTable;
    hide Decide;
    hide Inv;
    hide Legal;
    PlayLeaves(r, t.state, actor, drawn, step.table.state, hand);
    PlayRecorded(r, t.state, actor, drawn);
    hide ApplyAction;
    hide Apply;
    hide DefaultAction;
  }

  lemma PlayRecorded(r: Rules, s: State, seat: SeatIx, t: Tile)
    requires Apply(r, s, seat, Play(t)).Ok?
    ensures var events := Apply(r, s, seat, Play(t)).value.1;
            && events != [] && events[0].DiscardEvent? && events[0].seat == seat && events[0].tile == t
            && (events[0].fromHand <==> s.lastDrawn != Some(LastDrawn(seat, t)))
  {
    hide ApplyAction;
  }

  lemma PlayLeaves(r: Rules, s: State, seat: SeatIx, t: Tile, u: State, hand: seq<Tile>)
    requires Inv(s) && ValidRules(r) && ApplyAction(r, s, seat, Play(t)) == Ok(u)
    requires Sorted(hand) && multiset(s.seats[seat].concealed) == multiset(hand) + multiset{t}
    ensures u.seats[seat].concealed == hand && u.seats[seat].melds == s.seats[seat].melds
    ensures u.seats[seat].discards == s.seats[seat].discards + [t]
  {
    OkIsLegal(r, s, seat, Play(t));
    OutcomeIsComplete(r, s, seat, Play(t), u);
    hide ApplyAction;
    hide Legal;
    hide Inv;
    hide Moves;
    hide Lays;
    var laid :| Lays(s, seat, t, laid) && Moves(r, laid, seat, u);
    LaidSeat(s, seat, t, laid, hand);
    MovesKeepSeat(r, laid, seat, u);
  }

  lemma LaidSeat(s: State, seat: SeatIx, t: Tile, laid: State, hand: seq<Tile>)
    requires Lays(s, seat, t, laid)
    requires Sorted(hand) && multiset(s.seats[seat].concealed) == multiset(hand) + multiset{t}
    ensures laid.seats[seat] == s.seats[seat].(concealed := hand, discards := s.seats[seat].discards + [t])
  {
    Cancelled(multiset(laid.seats[seat].concealed), multiset(hand), multiset{t});
    SortedUnique(laid.seats[seat].concealed, hand);
    hide Sorted;
  }

  lemma MovesKeepSeat(r: Rules, laid: State, seat: SeatIx, u: State)
    requires Moves(r, laid, seat, u)
    ensures u.seats[seat] == laid.seats[seat]
  {
    hide Wanted;
    hide NamesClaims;
    if !Wanted(r, laid) {
      DrawsKeepOthers(laid.(lastDiscard := None, claims := []), (seat + 1) % 4, u, seat);
    }
    hide Draws;
  }

  lemma DrawsKeepOthers(s: State, seat: SeatIx, u: State, i: SeatIx)
    requires Draws(s, seat, u) && i != seat
    ensures u.seats[i] == s.seats[i]
    ensures u.phase != ClaimWindow && (u.phase == DiscardPhase ==> u.actor == seat)
  {
    hide TakenApart;
    hide Sorted;
  }

  // --- a seat nobody plays ---

  /** Seat i has this hand and these melds, and on its turn one more tile, just drawn. */
  ghost predicate Holds(s: State, i: SeatIx, hand: seq<Tile>, melds: seq<Meld>) {
    && s.seats[i].melds == melds
    && if s.phase == DiscardPhase && s.actor == i then
         && s.lastDrawn.Some? && s.lastDrawn.value.seat == i && Sorted(hand)
         && multiset(s.seats[i].concealed) == multiset(hand) + multiset{s.lastDrawn.value.tile}
       else s.seats[i].concealed == hand
  }

  /** What somebody else's draw, or one's own, leaves seat i with. */
  lemma DrawHolds(s: State, seat: SeatIx, u: State, i: SeatIx)
    requires Draws(s, seat, u) && Sorted(s.seats[i].concealed)
    ensures Holds(u, i, s.seats[i].concealed, s.seats[i].melds) && u.phase != ClaimWindow
  {
    hide TakenApart;
    hide Sorted;
  }

  lemma OwnPlayHolds(r: Rules, s: State, i: SeatIx, t: Tile, u: State, hand: seq<Tile>)
    requires PlayOutcome(r, s, i, t, u) && Holds(s, i, hand, s.seats[i].melds)
    requires s.phase == DiscardPhase && s.actor == i && s.lastDrawn == Some(LastDrawn(i, t))
    ensures Holds(u, i, hand, s.seats[i].melds)
  {
    hide Wanted;
    hide NamesClaims;
    hide Lays;
    var laid :| Lays(s, i, t, laid) && Moves(r, laid, i, u);
    LaidSeat(s, i, t, laid, hand);
    MovesKeepSeat(r, laid, i, u);
    if !Wanted(r, laid) {
      DrawsKeepOthers(laid.(lastDiscard := None, claims := []), (i + 1) % 4, u, i);
    }
    hide Draws;
  }

  lemma PlayHolds(r: Rules, s: State, seat: SeatIx, t: Tile, u: State, i: SeatIx)
    requires PlayOutcome(r, s, seat, t, u) && i != seat && Sorted(s.seats[i].concealed)
    ensures Holds(u, i, s.seats[i].concealed, s.seats[i].melds)
  {
    hide Wanted;
    hide NamesClaims;
    hide Sorted;
    hide Draws;
    var laid :| Lays(s, seat, t, laid) && Moves(r, laid, seat, u);
    if !Wanted(r, laid) {
      DrawHolds(laid.(lastDiscard := None, claims := []), (seat + 1) % 4, u, i);
    }
  }

  lemma PassHolds(s: State, seat: SeatIx, u: State, i: SeatIx)
    requires s.phase == ClaimWindow && s.lastDiscard.Some? && PassOutcome(s, seat, u) && Sorted(s.seats[i].concealed)
    ensures Holds(u, i, s.seats[i].concealed, s.seats[i].melds)
  {
    hide Sorted;
    hide Draws;
    if OthersClaims(s.claims, seat) == [] {
      DrawHolds(s.(lastDiscard := None, claims := []), (s.lastDiscard.value.seat + 1) % 4, u, i);
    }
  }

  /** A claim takes nothing but the discard from anyone else. */
  lemma TakenHolds(s: State, seat: SeatIx, m: Meld, taken: State, i: SeatIx)
    requires s.lastDiscard.Some? && TakesUp(s, seat, m, taken) && i != seat
    ensures taken.seats[i].concealed == s.seats[i].concealed && taken.seats[i].melds == s.seats[i].melds
  {
  }

  lemma MeldHolds(s: State, seat: SeatIx, a: Action, u: State, i: SeatIx)
    requires s.lastDiscard.Some? && i != seat && Sorted(s.seats[i].concealed)
    requires match a
             case Peng(t) => PengOutcome(s, seat, t, u)
             case Chi(tiles) => ChiOutcome(s, seat, tiles, u)
             case Gang(t, Exposed) => ExposedKongOutcome(s, seat, t, u)
             case _ => false
    ensures Holds(u, i, s.seats[i].concealed, s.seats[i].melds)
  {
    hide TakesUp;
    hide Draws;
    hide Sorted;
    var from := s.lastDiscard.value.seat;
    match a
    case Peng(t) =>
      var m := Meld(PengMeld, [t, t, t], Some(t), from);
      var taken :| TakesUp(s, seat, m, taken) && u == taken.(lastDrawn := None, phase := DiscardPhase, actor := seat);
      TakenHolds(s, seat, m, taken, i);
    case Chi(tiles) =>
      var m := Meld(ChiMeld, tiles, Some(s.lastDiscard.value.tile), from);
      var taken :| TakesUp(s, seat, m, taken) && u == taken.(lastDrawn := None, phase := DiscardPhase, actor := seat);
      TakenHolds(s, seat, m, taken, i);
    case Gang(t, Exposed) =>
      var m := Meld(GangExposed, [t, t, t, t], Some(t), from);
      var taken :| TakesUp(s, seat, m, taken) && Draws(taken, seat, u);
      TakenHolds(s, seat, m, taken, i);
      DrawHolds(taken, seat, u, i);
  }

  lemma OwnKongHolds(s: State, seat: SeatIx, a: Action, u: State, i: SeatIx)
    requires i != seat && Sorted(s.seats[i].concealed)
    requires match a
             case Gang(t, Concealed) => ConcealedKongOutcome(s, seat, t, u)
             case Gang(t, Added) => AddedKongOutcome(s, seat, t, u)
             case _ => false
    ensures Holds(u, i, s.seats[i].concealed, s.seats[i].melds)
  {
    hide Draws;
    hide Sorted;
    if a.kind == Concealed {
      var t := a.tile;
      var melds := s.seats[seat].melds + [Meld(GangConcealed, [t, t, t, t], None, seat)];
      var ready :| SetsDown(s, seat, multiset{t, t, t, t}, melds, ready) && Draws(ready, seat, u);
      DrawHolds(ready, seat, u, i);
    } else {
      var t, melds := a.tile, s.seats[seat].melds;
      var k: nat, ready :|
        && PengAt(melds, t, k)
        && SetsDown(s, seat, multiset{t}, melds[k := Meld(GangAdded, [t, t, t, t], melds[k].called, melds[k].from)],
                    ready)
        && Draws(ready, seat, u);
      DrawHolds(ready, seat, u, i);
    }
  }

  lemma HuHolds(r: Rules, s: State, seat: SeatIx, u: State, i: SeatIx)
    requires HuOutcome(r, s, seat, u)
    ensures Holds(u, i, s.seats[i].concealed, s.seats[i].melds)
  {
    hide ScoreDelta;
    hide Sum;
    hide Sorted;
  }

  /** Nobody's action but its own changes the hand or the melds of a seat. */
  lemma OthersLeaveHand(r: Rules, s: State, seat: SeatIx, a: Action, u: State, i: SeatIx)
    requires Inv(s) && ValidRules(r) && ApplyAction(r, s, seat, a) == Ok(u) && (i != seat || a.Pass?)
    ensures Holds(u, i, s.seats[i].concealed, s.seats[i].melds)
  {
    OkIsLegal(r, s, seat, a);
    OutcomeIsComplete(r, s, seat, a, u);
    HandSorted(s, i);
    WindowHasDiscard(s);
    PassNeedsWindow(r, s, seat, a);
    hide ApplyAction;
    hide Legal;
    hide Inv;
    hide Holds;
    hide Sorted;
    hide PlayOutcome;
    hide PassOutcome;
    hide PengOutcome;
    hide ChiOutcome;
    hide ExposedKongOutcome;
    hide ConcealedKongOutcome;
    hide AddedKongOutcome;
    hide HuOutcome;
    match a
    case Play(t) => PlayHolds(r, s, seat, t, u, i);
    case Pass => PassHolds(s, seat, u, i);
    case Gang(t, Exposed) => MeldHolds(s, seat, a, u, i);
    case Gang(t, _) => OwnKongHolds(s, seat, a, u, i);
    case Hu => HuHolds(r, s, seat, u, i);
    case _ => MeldHolds(s, seat, a, u, i);
  }

  lemma PassNeedsWindow(r: Rules, s: State, seat: SeatIx, a: Action)
    requires Legal(r, s, seat, a)
    ensures a.Pass? ==> s.phase == ClaimWindow
  {
  }

  // --- windows ---

  /** Whose decision counts most: a win, then a triplet or a kong, then a run. */
  function Urgency(a: Action): nat {
    match a
    case Hu => 3
    case Peng(_) => 2
    case Gang(_, _) => 2
    case Chi(_) => 1
    case _ => 0
  }

  /** Seat w's decision wins the window: no other is more urgent, and of two equally urgent
      ones, which only wins can be, the lower seat's counts. */
  ghost predicate WinsWindow(r: Rules, t: Table, replies: FourReplies, w: SeatIx) {
    && Claims(t.state.claims, w)
    && DecisionOf(r, t, replies, w).Ok?
    && Urgency(DecisionOf(r, t, replies, w).value.action) > 0
    && forall i: SeatIx :: Claims(t.state.claims, i) && DecisionOf(r, t, replies, i).Ok? ==>
         var mine, theirs := DecisionOf(r, t, replies, w).value.action, DecisionOf(r, t, replies, i).value.action;
         Urgency(theirs) < Urgency(mine) || (Urgency(theirs) == Urgency(mine) && w <= i && (i == w || mine.Hu?))
  }

  lemma WinnerIsUrgent(r: Rules, s: State, claimers: seq<SeatIx>, choices: FourChoices, w: SeatIx)
    requires s.phase == ClaimWindow && s.lastDiscard.Some? && AllLegal(r, s, claimers, choices)
    requires RightWinner(s, claimers, choices, Some(w)) && w in claimers && !choices[w].action.Pass?
    ensures Urgency(choices[w].action) > 0
    ensures forall i: SeatIx :: i in claimers ==>
              var mine, theirs := choices[w].action, choices[i].action;
              Urgency(theirs) < Urgency(mine) || (Urgency(theirs) == Urgency(mine) && w <= i && (i == w || mine.Hu?))
  {
    ClaimKinds(r, s, claimers, choices);
    hide Legal;
    hide AllLegal;
    forall i: SeatIx | i in claimers
      ensures var mine, theirs := choices[w].action, choices[i].action;
              Urgency(theirs) < Urgency(mine) || (Urgency(theirs) == Urgency(mine) && w <= i && (i == w || mine.Hu?))
    {
      assert choices[i].action == Pass || Chose(claimers, choices, i, DecideHu) || ChoseMeld(claimers, choices, i)
             || Chose(claimers, choices, i, DecideChi);
      assert Chose(claimers, choices, w, DecideHu) || ChoseMeld(claimers, choices, w)
             || Chose(claimers, choices, w, DecideChi);
    }
  }

  /** A window: every claimer's decision is gathered first. If all of them pass, the window
      ends as if nobody had claimed, with the next seat's draw; otherwise the most urgent
      decision is applied, to the state in which all were made, and no other. */
  lemma WindowApplied(r: Rules, limit: nat, t: Table, replies: FourReplies, step: Step) returns (w: Option<SeatIx>)
    requires Inv(t.state) && t.state.phase == ClaimWindow && ValidRules(r)
    requires StepTable(r, limit, t, replies) == Ok(step)
    ensures forall i: SeatIx :: Claims(t.state.claims, i) ==>
              DecisionOf(r, t, replies, i).Ok? && Legal(r, t.state, i, DecisionOf(r, t, replies, i).value.action)
    ensures w.None? <==> forall i: SeatIx :: Claims(t.state.claims, i) ==>
              DecisionOf(r, t, replies, i).Ok? && DecisionOf(r, t, replies, i).value.action == Pass
    ensures w.None? ==>
              && t.state.lastDiscard.Some?
              && Draws(t.state.(lastDiscard := None, claims := []), (t.state.lastDiscard.value.seat + 1) % 4,
                       step.table.state)
    ensures w.Some? ==>
              && WinsWindow(r, t, replies, w.value)
              && ApplyAction(r, t.state, w.value, DecisionOf(r, t, replies, w.value).value.action) == Ok(step.table.state)
              && step.states == [step.table.state]
  {
    var claimers, choices;
    claimers, choices, w := WindowGathered(r, limit, t, replies, step);
    hide Inv;
    hide Legal;
    hide Decide;
    hide ApplyAction;
    hide StepTable;
    hide Draws;
    if w.Some? {
      assert WinsWindow(r, t, replies, w.value);
    }
  }

  /** The same, from the claimers and their gathered choices. */
  lemma WindowGathered(r: Rules, limit: nat, t: Table, replies: FourReplies, step: Step)
    returns (claimers: seq<SeatIx>, choices: FourChoices, w: Option<SeatIx>)
    requires Inv(t.state) && t.state.phase == ClaimWindow && ValidRules(r)
    requires StepTable(r, limit, t, replies) == Ok(step)
    ensures forall i: SeatIx :: i in claimers <==> Claims(t.state.claims, i)
    ensures forall i: SeatIx :: i in claimers ==>
              DecisionOf(r, t, replies, i) == Ok(choices[i]) && Legal(r, t.state, i, choices[i].action)
    ensures w.None? <==> forall i: SeatIx :: i in claimers ==> choices[i].action == Pass
    ensures t.state.lastDiscard.Some?
    ensures w.None? ==>
              Draws(t.state.(lastDiscard := None, claims := []), (t.state.lastDiscard.value.seat + 1) % 4,
                    step.table.state)
    ensures w.Some? ==>
              && w.value in claimers && Urgency(choices[w.value].action) > 0
              && (forall i: SeatIx :: i in claimers ==>
                    var mine, theirs := choices[w.value].action, choices[i].action;
                    Urgency(theirs) < Urgency(mine)
                    || (Urgency(theirs) == Urgency(mine) && w.value <= i && (i == w.value || mine.Hu?)))
              && ApplyAction(r, t.state, w.value, choices[w.value].action) == Ok(step.table.state)
              && step.states == [step.table.state]
  {
    var s := t.state;
    claimers := Claimers(s.claims);
    ClaimersExist(s);
    WindowHasDiscard(s);
    hide Inv;
    hide Legal;
    hide Decide;
    hide DecideAll;
    hide Claims;
    hide ObserveFault;
    hide ResolveWindow;
    DecisionsAreLegal(r, t, claimers, replies);
    choices := DecideAll(r, t, claimers, replies).value;
    PriorityPicksRightWinner(r, s, claimers, choices);
    hide Claimers;
    hide RightWinner;
    w := ResolveClaimPriority(claimers, choices);
    hide ResolveClaimPriority;
    hide Draws;
    if w.None? {
      PassedWindowDraws(r, s, claimers, choices, t.auto);
    } else {
      WinnerIsUrgent(r, s, claimers, choices, w.value);
      WonWindowApplies(r, s, claimers, choices, t.auto, w.value);
    }
  }

  lemma PassedWindowDraws(r: Rules, s: State, claimers: seq<SeatIx>, choices: FourChoices, auto: FourFlags)
    requires Inv(s) && s.phase == ClaimWindow && ValidRules(r) && claimers != [] && Ascending(claimers)
    requires forall i: SeatIx :: i in claimers <==> Claims(s.claims, i)
    requires forall i: SeatIx :: i in claimers ==> choices[i].action == Pass
    requires ResolveClaimPriority(claimers, choices).None? && ResolveWindow(r, s, claimers, choices, auto).Ok?
    ensures s.lastDiscard.Some?
    ensures Draws(s.(lastDiscard := None, claims := []), (s.lastDiscard.value.seat + 1) % 4,
                  ResolveWindow(r, s, claimers, choices, auto).value.state)
  {
    WindowHasDiscard(s);
    hide Inv;
    hide Claims;
    hide ResolveClaimPriority;
    hide ApplyAllPass;
    hide Draws;
    hide Advance;
    AllPassCloses(r, s, claimers, choices, auto);
    AdvanceDraws(s.(claims := []));
  }

  lemma WonWindowApplies(r: Rules, s: State, claimers: seq<SeatIx>, choices: FourChoices, auto: FourFlags, w: SeatIx)
    requires Inv(s) && s.phase == ClaimWindow && ValidRules(r) && w in claimers
    requires Legal(r, s, w, choices[w].action)
    requires ResolveClaimPriority(claimers, choices) == Some(w) && ResolveWindow(r, s, claimers, choices, auto).Ok?
    ensures var c := ResolveWindow(r, s, claimers, choices, auto).value;
            ApplyAction(r, s, w, choices[w].action) == Ok(c.state) && c.states == [c.state]
  {
    LegalApplies(r, s, w, choices[w].action);
    hide Inv;
    hide Legal;
    hide Apply;
    hide ApplyAction;
    hide ResolveWindow;
    ContestUnfolds(r, s, claimers, choices, auto, w);
  }

  lemma AdvanceDraws(s: State)
    requires s.lastDiscard.Some?
    ensures Draws(s.(lastDiscard := None, claims := []), (s.lastDiscard.value.seat + 1) % 4, Advance(s))
  {
    hide Draws;
    hide InternalDraw;
    DrawOutcome(s.(lastDiscard := None, claims := []), (s.lastDiscard.value.seat + 1) % 4, Advance(s));
  }

  // --- a seat nobody plays, over a run ---

  lemma AbsentTurnHolds(r: Rules, limit: nat, t: Table, replies: FourReplies, step: Step, i: SeatIx,
                        hand: seq<Tile>, melds: seq<Meld>)
    requires Inv(t.state) && t.state.phase == DiscardPhase && ValidRules(r)
    requires StepTable(r, limit, t, replies) == Ok(step)
    requires t.auto[i] && Holds(t.state, i, hand, melds)
    ensures Holds(step.table.state, i, hand, melds)
  {
    var s, u, actor := t.state, step.table.state, t.state.actor;
    TurnApplied(r, limit, t, replies, step);
    AnswersDecide(r, s, actor, t.auto[actor], replies[actor]);
    DefaultsSpelledOut(r, s, actor);
    hide StepTable;
    hide Inv;
    hide Legal;
    hide Mark;
    hide Apply;
    if actor == i {
      var drawn := s.lastDrawn.value.tile;
      OutcomeIsComplete(r, s, i, Play(drawn), u);
      OwnPlayHolds(r, s, i, drawn, u, hand);
      hide PlayOutcome;
    } else {
      OthersLeaveHand(r, s, actor, DecisionOf(r, t, replies, actor).value.action, u, i);
      hide ApplyAction;
    }
    hide Decide;
  }

  lemma AbsentWindowHolds(r: Rules, limit: nat, t: Table, replies: FourReplies, step: Step, i: SeatIx,
                          hand: seq<Tile>, melds: seq<Meld>)
    requires Inv(t.state) && t.state.phase == ClaimWindow && ValidRules(r)
    requires StepTable(r, limit, t, replies) == Ok(step)
    requires t.auto[i] && Holds(t.state, i, hand, melds)
    ensures Holds(step.table.state, i, hand, melds)
  {
    var s, u := t.state, step.table.state;
    var w := WindowApplied(r, limit, t, replies, step);
    HandSorted(s, i);
    hide StepTable;
    hide ApplyAction;
    hide Sorted;
    if w.None? {
      hide Inv;
      DrawHolds(s.(lastDiscard := None, claims := []), (s.lastDiscard.value.seat + 1) % 4, u, i);
      hide Draws;
    } else {
      AbsentNeverWins(r, t, replies, w.value, i);
      hide Inv;
      OthersLeaveHand(r, s, w.value, DecisionOf(r, t, replies, w.value).value.action, u, i);
      hide Decide;
    }
  }

  lemma AbsentNeverWins(r: Rules, t: Table, replies: FourReplies, w: SeatIx, i: SeatIx)
    requires Inv(t.state) && t.state.phase == ClaimWindow && t.auto[i] && WinsWindow(r, t, replies, w)
    ensures w != i
  {
    if w == i {
      AnswersDecide(r, t.state, i, true, replies[i]);
      DefaultsSpelledOut(r, t.state, i);
      hide Decide;
      hide DefaultAction;
      hide Inv;
    }
  }

  /** A seat that an AutoPassAdapter plays keeps its hand for the rest of the hand, over any
      run and whatever the others do: it never melds and never wins, and on each of its turns
      it discards the tile it has drawn. */
  lemma {:induction false} AbsentSeatKeepsHand(r: Rules, limit: nat, t: Table, script: seq<FourReplies>, run: Step,
                                              i: SeatIx, hand: seq<Tile>, melds: seq<Meld>)
    requires Inv(t.state) && ValidRules(r) && RunTable(r, limit, t, script) == Ok(run)
    requires t.auto[i] && Holds(t.state, i, hand, melds)
    ensures Holds(run.table.state, i, hand, melds) && run.table.auto[i]
    decreases |script|
  {
    hide Inv;
    hide StepTable;
    hide Holds;
    if script != [] && t.state.phase != TerminalPhase {
      StepSucceeds(r, limit, t, script[0]);
      var step := StepTable(r, limit, t, script[0]).value;
      if t.state.phase == DiscardPhase {
        AbsentTurnHolds(r, limit, t, script[0], step, i, hand, melds);
      } else {
        AbsentWindowHolds(r, limit, t, script[0], step, i, hand, melds);
      }
      StaysReplaced(r, limit, t, script[0], step, i);
      AbsentSeatKeepsHand(r, limit, step.table, script[1..], RunTable(r, limit, step.table, script[1..]).value, i,
                          hand, melds);
    }
  }

  lemma StaysReplaced(r: Rules, limit: nat, t: Table, replies: FourReplies, step: Step, i: SeatIx)
    requires StepTable(r, limit, t, replies) == Ok(step) && t.auto[i]
    ensures step.table.auto[i]
  {
    hide Decide;
    hide Apply;
    hide Mark;
    hide Written;
    hide DecideAll;
    hide ResolveWindow;
    hide StrikeAll;
    hide Claimers;
    hide ObserveFault;
    if t.state.phase == ClaimWindow {
      SwapAllSwaps(t.auto, step.table.strikes, limit, Claimers(t.state.claims), i);
    }
  }

  // --- strikes and marks ---

  /** A seat is struck once for each prompt it fails, and for nothing else. It is replaced
      exactly when a prompt leaves it with as many strikes as the limit. */
  lemma StrikesAreForFailures(r: Rules, limit: nat, t: Table, replies: FourReplies, step: Step, i: SeatIx)
    requires Inv(t.state) && t.state.phase != TerminalPhase && ValidRules(r)
    requires StepTable(r, limit, t, replies) == Ok(step)
    ensures step.table.strikes[i] ==
            t.strikes[i] + if Prompted(t.state, i) && Fails(r, t.state, i, t.auto[i], replies[i]) then 1 else 0
    ensures step.table.auto[i] <==> t.auto[i] || (Prompted(t.state, i) && step.table.strikes[i] >= limit)
  {
    hide Inv;
    hide Fails;
    hide StepDiscard;
    hide StepClaimWindow;
    hide ObserveFault;
    if t.state.phase == DiscardPhase {
      TurnStrikes(r, limit, t, replies, step, i);
    } else {
      WindowStrikes(r, limit, t, replies, step, i);
    }
  }

  lemma TurnStrikes(r: Rules, limit: nat, t: Table, replies: FourReplies, step: Step, i: SeatIx)
    requires Inv(t.state) && t.state.phase == DiscardPhase && StepDiscard(r, limit, t, replies) == Ok(step)
    ensures var actor := t.state.actor;
            step.table.strikes[i] ==
            t.strikes[i] + if i == actor && Fails(r, t.state, i, t.auto[i], replies[i]) then 1 else 0
    ensures step.table.auto[i] <==> t.auto[i] || (i == t.state.actor && step.table.strikes[i] >= limit)
  {
    var actor := t.state.actor;
    StrikesOfTurn(r, limit, t, replies, step);
    AnswersDecide(r, t.state, actor, t.auto[actor], replies[actor]);
    FailuresAreMarked(replies[actor].answer);
    hide *;
    Struck(t, limit, actor, Decide(r, t.state, actor, false, t.auto[actor], replies[actor]).value.failure, i);
  }

  lemma StrikesOfTurn(r: Rules, limit: nat, t: Table, replies: FourReplies, step: Step)
    requires StepDiscard(r, limit, t, replies) == Ok(step)
    ensures var actor := t.state.actor;
            var d := Decide(r, t.state, actor, false, t.auto[actor], replies[actor]);
            && d.Ok? && step.table.strikes == Strike(t.strikes, actor, d.value.failure)
            && step.table.auto == Swap(t.auto, step.table.strikes, limit, actor)
  {
    hide Decide;
    hide Apply;
    hide Mark;
    hide Written;
    hide Strike;
    hide Swap;
  }

  lemma Struck(t: Table, limit: nat, seat: SeatIx, failure: Failure, i: SeatIx)
    ensures var strikes := Strike(t.strikes, seat, failure);
            && strikes[i] == t.strikes[i] + (if i == seat && failure != NoFailure then 1 else 0)
            && (Swap(t.auto, strikes, limit, seat)[i] <==> t.auto[i] || (i == seat && strikes[i] >= limit))
  {
  }

  lemma WindowStrikes(r: Rules, limit: nat, t: Table, replies: FourReplies, step: Step, i: SeatIx)
    requires Inv(t.state) && t.state.phase == ClaimWindow && StepClaimWindow(r, limit, t, replies) == Ok(step)
    ensures step.table.strikes[i] ==
            t.strikes[i] + if Claims(t.state.claims, i) && Fails(r, t.state, i, t.auto[i], replies[i]) then 1 else 0
    ensures step.table.auto[i] <==> t.auto[i] || (Claims(t.state.claims, i) && step.table.strikes[i] >= limit)
  {
    var claimers := Claimers(t.state.claims);
    ClaimersExist(t.state);
    hide Fails;
    hide Legal;
    hide Decide;
    hide DecideAll;
    hide ResolveWindow;
    hide Claims;
    DecisionsAreLegal(r, t, claimers, replies);
    var choices := DecideAll(r, t, claimers, replies).value;
    StrikeAllStrikesOnce(t.strikes, claimers, choices, i);
    SwapAllSwaps(t.auto, step.table.strikes, limit, claimers, i);
    if i in claimers {
      AnswersDecide(r, t.state, i, t.auto[i], replies[i]);
    }
    hide Inv;
    hide Claimers;
    hide StrikeAll;
    hide SwapAll;
  }

  /** The marks of a decision: what went wrong, if anything, and whether an AutoPassAdapter made it. */
  ghost predicate Carries(l: Logged, d: Choice, auto: bool) { l.failure == d.failure && l.auto == auto }

  /** On a turn the discard or declaration carries the marks, the events behind it none. */
  lemma TurnMarks(r: Rules, limit: nat, t: Table, replies: FourReplies, step: Step)
    requires Inv(t.state) && t.state.phase == DiscardPhase && ValidRules(r)
    requires StepTable(r, limit, t, replies) == Ok(step)
    ensures var d := DecisionOf(r, t, replies, t.state.actor);
            && d.Ok? && step.log != [] && Carries(step.log[0], d.value, t.auto[t.state.actor])
            && forall k :: 0 < k < |step.log| ==> step.log[k].failure == NoFailure && !step.log[k].auto
  {
    TurnApplied(r, limit, t, replies, step);
    hide Inv;
    hide Decide;
    hide StepTable;
    hide Legal;
    SomethingRecorded(r, t.state, t.state.actor, DecisionOf(r, t, replies, t.state.actor).value.action);
    hide ApplyAction;
    hide DiffToEvents;
  }

  /** What a window's log begins with: each claimer's decision, in seat order, with its own
      marks; nothing behind them has any. */
  ghost predicate DecisionsFirst(log: seq<Logged>, claimers: seq<SeatIx>, choices: FourChoices, auto: FourFlags) {
    && |log| >= |claimers|
    && (forall k :: 0 <= k < |claimers| ==>
          && log[k].event.DecisionEvent? && log[k].event.seat == claimers[k]
          && log[k].event.decision == KindOf(choices[claimers[k]].action)
          && Carries(log[k], choices[claimers[k]], auto[claimers[k]]))
    && forall k :: |claimers| <= k < |log| ==> log[k].failure == NoFailure && !log[k].auto
  }

  lemma {:induction false} DecisionLogFirst(s: State, claimers: seq<SeatIx>, choices: FourChoices, auto: FourFlags)
    ensures |DecisionLog(s, claimers, choices, auto)| == |claimers|
    ensures DecisionsFirst(DecisionLog(s, claimers, choices, auto), claimers, choices, auto)
    decreases |claimers|
  {
    if claimers != [] {
      DecisionLogFirst(s, claimers[1..], choices, auto);
      var rest := DecisionLog(s, claimers[1..], choices, auto);
      forall k | 0 <= k < |claimers|
        ensures var l := DecisionLog(s, claimers, choices, auto)[k];
                && l.event.DecisionEvent? && l.event.seat == claimers[k]
                && l.event.decision == KindOf(choices[claimers[k]].action)
                && Carries(l, choices[claimers[k]], auto[claimers[k]])
      {
        if k > 0 {
          assert claimers[1..][k - 1] == claimers[k] && DecisionLog(s, claimers, choices, auto)[k] == rest[k - 1];
        }
      }
    }
  }

  lemma DecisionsThen(log: seq<Logged>, tail: seq<Logged>, claimers: seq<SeatIx>, choices: FourChoices, auto: FourFlags)
    requires DecisionsFirst(log, claimers, choices, auto) && |log| == |claimers|
    requires forall k :: 0 <= k < |tail| ==> tail[k].failure == NoFailure && !tail[k].auto
    ensures DecisionsFirst(log + tail, claimers, choices, auto)
  {
  }

  lemma {:induction false} PassLogFirst(r: Rules, s: State, claimers: seq<SeatIx>, choices: FourChoices,
                                        auto: FourFlags)
    requires Inv(s) && s.phase == ClaimWindow && ValidRules(r) && claimers != [] && Ascending(claimers)
    requires forall i: SeatIx :: i in claimers <==> Claims(s.claims, i)
    requires forall i: SeatIx :: i in claimers ==> choices[i].action == Pass
    requires ApplyAllPass(r, s, claimers, choices, auto).Ok?
    ensures DecisionsFirst(ApplyAllPass(r, s, claimers, choices, auto).value.log, claimers, choices, auto)
    decreases |claimers|
  {
    hide Inv;
    hide Apply;
    hide ApplyPass;
    hide ApplyAllPass;
    hide Advance;
    hide DecisionsFirst;
    var seat, rest := claimers[0], claimers[1..];
    assert seat in claimers;
    PassOneApplied(r, s, claimers, choices, auto);
    OnePass(s, claimers);
    var after, events := ApplyPass(s, seat), Apply(r, s, seat, Pass).value.1;
    PassLogged(r, s, seat);
    if |claimers| > 1 {
      assert Ascending(rest);
      forall i: SeatIx | i in rest ensures choices[i].action == Pass {
        assert i in claimers;
      }
      PassLogFirst(r, after, rest, choices, auto);
    } else {
      NobodyPasses(r, after, choices, auto);
    }
    var log := ApplyAllPass(r, after, rest, choices, auto).value.log;
    FirstThenRest(seat, events, log, claimers, choices, auto);
  }

  /** The events of a PASS: the decision alone, while the window stays open. */
  lemma PassLogged(r: Rules, s: State, seat: SeatIx)
    requires s.phase == ClaimWindow && Apply(r, s, seat, Pass).Ok?
    ensures var (after, events) := Apply(r, s, seat, Pass).value;
            && after == ApplyPass(s, seat)
            && events != [] && events[0].DecisionEvent? && events[0].seat == seat && events[0].decision == DecidePass
            && (after.phase == ClaimWindow ==> |events| == 1)
  {
    hide ApplyPass;
    hide Legal;
  }

  lemma FirstThenRest(seat: SeatIx, events: seq<Event>, log: seq<Logged>, claimers: seq<SeatIx>, choices: FourChoices,
                      auto: FourFlags)
    requires claimers != [] && claimers[0] == seat && choices[seat].action == Pass
    requires events != [] && events[0].DecisionEvent? && events[0].seat == seat && events[0].decision == DecidePass
    requires if |claimers| > 1 then |events| == 1 && DecisionsFirst(log, claimers[1..], choices, auto) else log == []
    ensures DecisionsFirst(Mark(events, choices[seat].failure, auto[seat]) + log, claimers, choices, auto)
  {
    var whole := Mark(events, choices[seat].failure, auto[seat]) + log;
    forall k | 0 <= k < |claimers|
      ensures var l := whole[k];
              && l.event.DecisionEvent? && l.event.seat == claimers[k]
              && l.event.decision == KindOf(choices[claimers[k]].action)
              && Carries(l, choices[claimers[k]], auto[claimers[k]])
    {
      if k > 0 {
        assert claimers[1..][k - 1] == claimers[k] && whole[k] == log[k - 1];
      }
    }
  }

  /** In a window every claimer's decision is recorded before anything it leads to, and
      carries its own marks; what the window leads to carries none. */
  lemma WindowMarks(r: Rules, limit: nat, t: Table, replies: FourReplies, step: Step)
    returns (claimers: seq<SeatIx>, choices: FourChoices)
    requires Inv(t.state) && t.state.phase == ClaimWindow && ValidRules(r)
    requires StepTable(r, limit, t, replies) == Ok(step)
    ensures Ascending(claimers) && forall i: SeatIx :: i in claimers <==> Claims(t.state.claims, i)
    ensures forall i: SeatIx :: i in claimers ==> DecisionOf(r, t, replies, i) == Ok(choices[i])
    ensures DecisionsFirst(step.log, claimers, choices, t.auto)
  {
    var s := t.state;
    claimers := Claimers(s.claims);
    ClaimersExist(s);
    hide Inv;
    hide Legal;
    hide Decide;
    hide DecideAll;
    hide Claims;
    hide ObserveFault;
    hide ResolveWindow;
    DecisionsAreLegal(r, t, claimers, replies);
    choices := DecideAll(r, t, claimers, replies).value;
    PriorityPicksRightWinner(r, s, claimers, choices);
    hide Claimers;
    hide RightWinner;
    hide DecisionsFirst;
    var w := ResolveClaimPriority(claimers, choices);
    hide ResolveClaimPriority;
    if w.None? {
      FailureLog.WindowPassed(r, s, claimers, choices, t.auto);
      PassLogFirst(r, s, claimers, choices, t.auto);
    } else {
      WinnerNotDefault(r, t, replies, w.value);
      WonLogFirst(r, s, claimers, choices, t.auto, w.value);
    }
  }

  lemma WonLogFirst(r: Rules, s: State, claimers: seq<SeatIx>, choices: FourChoices, auto: FourFlags, w: SeatIx)
    requires Inv(s) && s.phase == ClaimWindow && ValidRules(r) && w in claimers
    requires Legal(r, s, w, choices[w].action) && choices[w].failure == NoFailure
    requires ResolveClaimPriority(claimers, choices) == Some(w) && ResolveWindow(r, s, claimers, choices, auto).Ok?
    ensures DecisionsFirst(ResolveWindow(r, s, claimers, choices, auto).value.log, claimers, choices, auto)
  {
    LegalApplies(r, s, w, choices[w].action);
    ContestUnfolds(r, s, claimers, choices, auto, w);
    DecisionLogFirst(s, claimers, choices, auto);
    hide Inv;
    hide Legal;
    hide Apply;
    hide DecisionLog;
    hide ResolveWindow;
    hide DecisionsFirst;
    DecisionsThen(DecisionLog(s, claimers, choices, auto),
                  Mark(WithoutDecision(Apply(r, s, w, choices[w].action).value.1), NoFailure, false),
                  claimers, choices, auto);
  }

  /** A failed decision in a window is a PASS. */
  lemma WinnerNotDefault(r: Rules, t: Table, replies: FourReplies, w: SeatIx)
    requires Inv(t.state) && t.state.phase == ClaimWindow && Claims(t.state.claims, w)
    ensures var d := DecisionOf(r, t, replies, w);
            d.Ok? && !d.value.action.Pass? ==> d.value.failure == NoFailure
  {
    AnswersDecide(r, t.state, w, t.auto[w], replies[w]);
    DefaultsSpelledOut(r, t.state, w);
    hide Inv;
    hide Decide;
    hide DefaultAction;
  }
}
