/** Strikes and replacement: after `limit` failed prompts a seat is played by an
    AutoPassAdapter for the rest of the hand, and fails no more. */
module Strikes {
  import opened Lists
  import opened Tiles
  import opened GameTypes
  import opened Legality
  import opened Transition
  import opened Invariant
  import opened Records
  import opened Manager
  import opened Safety

  /** The failures it takes to lose the seat; the check comes after a prompt. */
  function Cap(limit: nat): nat { if limit == 0 then 1 else limit }

  predicate SeatCounted(strikes: FourCounts, auto: FourFlags, limit: nat, i: SeatIx) {
    strikes[i] <= Cap(limit) && (strikes[i] == Cap(limit) ==> auto[i])
  }

  ghost predicate Counted(strikes: FourCounts, auto: FourFlags, limit: nat) {
    forall i: SeatIx :: SeatCounted(strikes, auto, limit, i)
  }

  /** No seat is given back. */
  ghost predicate KeepsReplaced(before: FourFlags, after: FourFlags) { forall i: SeatIx :: before[i] ==> after[i] }

  /** A failed decision is never an AutoPassAdapter's. */
  ghost predicate AutoNeverFails(claimers: seq<SeatIx>, choices: FourChoices, auto: FourFlags) {
    forall i: SeatIx :: i in claimers && auto[i] ==> choices[i].failure == NoFailure
  }

  lemma {:induction false} GatheredAutoNeverFails(r: Rules, t: Table, claimers: seq<SeatIx>, replies: FourReplies)
    requires Inv(t.state) && t.state.phase == ClaimWindow && DecideAll(r, t, claimers, replies).Ok?
    requires forall i: SeatIx :: i in claimers ==> Claims(t.state.claims, i)
    ensures AutoNeverFails(claimers, DecideAll(r, t, claimers, replies).value, t.auto)
    decreases |claimers|
  {
    hide Inv;
    hide Decide;
    if claimers != [] {
      var seat := claimers[0];
      assert seat in claimers;
      DecisionIsLegal(r, t.state, seat, t.auto[seat], replies[seat]);
      GatheredAutoNeverFails(r, t, claimers[1..], replies);
    }
  }

  /** How often a seat occurs among the claimers, and whether it failed. */
  predicate StruckOnce(before: FourCounts, after: FourCounts, claimers: seq<SeatIx>, choices: FourChoices, i: SeatIx) {
    after[i] == before[i] + if i in claimers && choices[i].failure != NoFailure then 1 else 0
  }

  lemma {:induction false} StrikeAllStrikesOnce(strikes: FourCounts, claimers: seq<SeatIx>, choices: FourChoices, i: SeatIx)
    requires Ascending(claimers)
    ensures StruckOnce(strikes, StrikeAll(strikes, claimers, choices), claimers, choices, i)
    decreases |claimers|
  {
    if claimers != [] {
      assert Ascending(claimers[1..]);
      assert forall k :: 0 <= k < |claimers[1..]| ==> claimers[0] < claimers[1..][k];
      StrikeAllStrikesOnce(Strike(strikes, claimers[0], choices[claimers[0]].failure), claimers[1..], choices, i);
    }
  }

  lemma {:induction false} SwapAllSwaps(auto: FourFlags, strikes: FourCounts, limit: nat, claimers: seq<SeatIx>, i: SeatIx)
    ensures SwapAll(auto, strikes, limit, claimers)[i] <==> auto[i] || (i in claimers && strikes[i] >= limit)
    decreases |claimers|
  {
    if claimers != [] {
      SwapAllSwaps(Swap(auto, strikes, limit, claimers[0]), strikes, limit, claimers[1..], i);
    }
  }

  /** Every step, whatever its outcome: nobody is struck beyond the limit, whoever
      reaches it is replaced, and replaced seats stay replaced and are struck no more. */
  lemma StepCounts(r: Rules, limit: nat, t: Table, replies: FourReplies)
    requires Inv(t.state) && t.state.phase != TerminalPhase && StepTable(r, limit, t, replies).Ok?
    requires Counted(t.strikes, t.auto, limit)
    ensures var after := StepTable(r, limit, t, replies).value.table;
            && Counted(after.strikes, after.auto, limit) && KeepsReplaced(t.auto, after.auto)
            && forall i: SeatIx :: t.auto[i] ==> after.strikes[i] == t.strikes[i]
  {
    hide Inv;
    hide Decide;
    hide Written;
    hide ObserveFault;
    hide Apply;
    hide ResolveWindow;
    hide DecideAll;
    hide Claimers;
    var after := StepTable(r, limit, t, replies).value.table;
    if t.state.phase == DiscardPhase {
      var actor := t.state.actor;
      DecisionIsLegal(r, t.state, actor, t.auto[actor], replies[actor]);
      forall i: SeatIx
        ensures SeatCounted(after.strikes, after.auto, limit, i) && (t.auto[i] ==> after.strikes[i] == t.strikes[i])
      {
        assert SeatCounted(t.strikes, t.auto, limit, i);
      }
    } else {
      var claimers := Claimers(t.state.claims);
      var choices := DecideAll(r, t, claimers, replies).value;
      GatheredAutoNeverFails(r, t, claimers, replies);
      forall i: SeatIx
        ensures SeatCounted(after.strikes, after.auto, limit, i)
        ensures t.auto[i] ==> after.auto[i] && after.strikes[i] == t.strikes[i]
      {
        assert SeatCounted(t.strikes, t.auto, limit, i);
        StrikeAllStrikesOnce(t.strikes, claimers, choices, i);
        SwapAllSwaps(t.auto, after.strikes, limit, claimers, i);
      }
    }
  }

  /** The same over a whole hand. */
  lemma {:induction false} RunCounts(r: Rules, limit: nat, t: Table, script: seq<FourReplies>)
    requires Inv(t.state) && ValidRules(r) && RunTable(r, limit, t, script).Ok?
    requires Counted(t.strikes, t.auto, limit)
    ensures var after := RunTable(r, limit, t, script).value.table;
            && Counted(after.strikes, after.auto, limit) && KeepsReplaced(t.auto, after.auto)
            && forall i: SeatIx :: t.auto[i] ==> after.strikes[i] == t.strikes[i]
    decreases |script|
  {
    hide Inv;
    hide StepTable;
    hide Counted;
    if script != [] && t.state.phase != TerminalPhase {
      StepSucceeds(r, limit, t, script[0]);
      StepCounts(r, limit, t, script[0]);
      RunCounts(r, limit, StepTable(r, limit, t, script[0]).value.table, script[1..]);
    }
  }

  /** A hand starts with no strikes. */
  lemma OpeningCounts(limit: nat, start: State, auto: FourFlags)
    ensures Counted(Opening(start, auto).strikes, auto, limit)
  {
  }

  lemma ClaimHandsOver(r: Rules, s: State, seat: SeatIx, a: Action, after: State)
    requires (a.Peng? || a.Chi?) && ApplyAction(r, s, seat, a) == Ok(after)
    ensures after.lastDrawn == None && after.phase == DiscardPhase && after.actor == seat
  {
    hide Legal;
    hide RemoveTimes;
    hide RemoveSupport;
  }

  /** The fallback of the default action is reached in every hand with a PENG or a
      CHI: the claimer drew nothing, so its default is the first legal PLAY. */
  lemma ClaimerDefaultIsFirstPlay(r: Rules, s: State, seat: SeatIx, a: Action, after: State)
    requires Inv(s) && ValidRules(r) && (a.Peng? || a.Chi?) && ApplyAction(r, s, seat, a) == Ok(after)
    ensures after.lastDrawn == None && FirstPlay(LegalActions(r, after, seat)).Some?
    ensures DefaultAction(r, after, seat, false) == Ok(FirstPlay(LegalActions(r, after, seat)).value)
  {
    hide Inv;
    hide ApplyAction;
    hide Legal;
    hide LegalActions;
    ApplyActionKeepsInvariant(r, s, seat, a);
    ClaimHandsOver(r, s, seat, a, after);
    DefaultIsLegal(r, after, seat);
  }
}
