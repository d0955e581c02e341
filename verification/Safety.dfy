/** What the manager guarantees whatever its adapters do: every step succeeds
    unless an adapter does one of the few things the manager does not absorb, every
    applied action is legal, the claim priority only ever breaks ties between wins,
    and the hand ends. */
module Safety {
  import opened Lists
  import opened Tiles
  import opened GameTypes
  import opened Legality
  import opened Transition
  import opened Invariant
  import opened Deal
  import opened Records
  import opened Manager

  // --- prompts ---

  /** The seats prompted in a state. */
  predicate Prompted(s: State, seat: SeatIx) {
    match s.phase
    case DiscardPhase => seat == s.actor
    case ClaimWindow => Claims(s.claims, seat)
    case TerminalPhase => false
  }

  /** The failure handler makes a decision of the answer. It does not when
      dict(action), outside its guard, refuses the reply, when the adapter raises
      something that is no Exception, and when the call never returns. */
  predicate Decidable(answer: Answer) {
    match answer
    case Junk(mapping, _) => mapping
    case Crash(caught) => caught
    case Stall => false
    case _ => true
  }

  /** The error that an undecidable or unrecordable answer ends the step with. */
  function FaultOf(answer: Answer): Error {
    match answer
    case Junk(mapping, _) => if mapping then NotRecordable else ReplyNotAMapping
    case Stall => StepStalled
    case _ => AdapterEscaped
  }

  /** The manager goes on from the answer: it is decided and can be recorded. */
  predicate Tolerable(auto: bool, reply: Reply) {
    auto || (Decidable(reply.answer) && reply.answer != Junk(true, false))
  }

  /** The adapter takes the events of the step, or fails in a way that is swallowed. */
  predicate Attentive(auto: bool, reply: Reply) { auto || reply.observing == Returns }

  /** The errors an adapter can end a step with. */
  predicate AdapterFault(e: Error) {
    e == ReplyNotAMapping || e == NotRecordable || e == AdapterEscaped || e == StepStalled
  }

  lemma {:induction false} FirstPlayFound(acts: seq<Action>, a: Action)
    requires a in acts && a.Play?
    ensures FirstPlay(acts).Some? && FirstPlay(acts).value in acts && FirstPlay(acts).value.Play?
  {
    if !acts[0].Play? {
      FirstPlayFound(acts[1..], a);
    }
  }

  lemma ActorHoldsTiles(s: State)
    requires Inv(s) && s.phase == DiscardPhase
    ensures s.seats[s.actor].concealed != []
  {
  }

  /** The default action of every prompt is legal: tsumogiri or, when the actor
      drew nothing because it claimed, the first legal PLAY; PASS for a claimer. */
  lemma DefaultIsLegal(r: Rules, s: State, seat: SeatIx)
    requires Inv(s) && Prompted(s, seat)
    ensures var default := DefaultAction(r, s, seat, s.phase == ClaimWindow);
            default.Ok? && Legal(r, s, seat, default.value)
  {
    if s.phase == DiscardPhase && s.lastDrawn.None? {
      ActorHoldsTiles(s);
      var t := s.seats[seat].concealed[0];
      LegalActionsMembers(r, s, seat, Play(t));
      FirstPlayFound(LegalActions(r, s, seat), Play(t));
      LegalActionsMembers(r, s, seat, DefaultAction(r, s, seat, false).value);
    }
  }

  /** A decision is always a legal action; there is one exactly for the decidable
      answers, and it can be recorded exactly for the tolerable ones. */
  lemma DecisionIsLegal(r: Rules, s: State, seat: SeatIx, auto: bool, reply: Reply)
    requires Inv(s) && Prompted(s, seat)
    ensures var d := Decide(r, s, seat, s.phase == ClaimWindow, auto, reply);
            && (d.Ok? <==> auto || Decidable(reply.answer))
            && (d.Err? ==> d.error == FaultOf(reply.answer))
            && (d.Ok? ==> Legal(r, s, seat, d.value.action))
            && (d.Ok? ==> (Recordable(d.value.failure) <==> Tolerable(auto, reply)))
            && (d.Ok? && d.value.failure != NoFailure ==>
                  !auto && Ok(d.value.action) == DefaultAction(r, s, seat, s.phase == ClaimWindow))
  {
    hide Legal;
    hide LegalActions;
    DefaultIsLegal(r, s, seat);
    var default := DefaultAction(r, s, seat, s.phase == ClaimWindow).value;
    LegalActionsMembers(r, s, seat, default);
    if reply.answer.Chosen? {
      LegalActionsMembers(r, s, seat, reply.answer.action);
    }
  }

  /** An applied legal action: it succeeds, keeps the invariant, and its events exist. */
  lemma LegalApplies(r: Rules, s: State, seat: SeatIx, a: Action)
    requires Inv(s) && ValidRules(r) && Legal(r, s, seat, a)
    ensures ApplyAction(r, s, seat, a).Ok? && Apply(r, s, seat, a).Ok?
    ensures var after := ApplyAction(r, s, seat, a).value;
            && Inv(after) && EndRecorded(after) && (a.Hu? ==> after.terminal.Some?)
            && Apply(r, s, seat, a) == Ok((after, DiffToEvents(r, s, seat, a, after)))
  {
    hide Legal;
    hide ApplyAction;
    hide DiffToEvents;
    ApplyActionKeepsInvariant(r, s, seat, a);
    var after := ApplyAction(r, s, seat, a).value;
    assert EndRecorded(after) by { InvEndRecorded(after); }
    if a.Hu? {
      HuEnds(r, s, seat);
    }
  }

  lemma InvEndRecorded(s: State)
    requires Inv(s)
    ensures EndRecorded(s)
  {
  }

  lemma HuEnds(r: Rules, s: State, seat: SeatIx)
    requires ApplyAction(r, s, seat, Hu).Ok?
    ensures ApplyAction(r, s, seat, Hu).value.terminal.Some?
    ensures ApplyAction(r, s, seat, Hu).value.phase == TerminalPhase
  {
  }

  // --- the termination measure ---

  function HandTiles(s: State): nat {
    |s.seats[0].concealed| + |s.seats[1].concealed| + |s.seats[2].concealed| + |s.seats[3].concealed|
  }

  function Load(s: State): nat { 2 * |s.wall| + HandTiles(s) }

  function Measure(s: State): nat { Load(s) + if s.phase == TerminalPhase then 0 else 1 }

  lemma DrawMeasure(s: State, seat: SeatIx)
    ensures Measure(InternalDraw(s, seat)) <= Load(s)
  {
  }

  lemma AdvanceMeasure(s: State)
    ensures Measure(Advance(s)) <= Load(s)
  {
    hide InternalDraw;
    DrawMeasure(s.(lastDiscard := None, claims := []),
                Next(if s.lastDiscard.Some? then s.lastDiscard.value.seat else s.actor));
  }

  lemma WithSeatLoad(s: State, i: SeatIx, d: SeatData)
    ensures Load(WithSeat(s, i, d)) == Load(s) - |s.seats[i].concealed| + |d.concealed|
  {
  }

  lemma PlayMeasure(r: Rules, s: State, seat: SeatIx, t: Tile)
    requires s.phase != TerminalPhase && ApplyPlay(r, s, seat, t).Ok?
    ensures Measure(ApplyPlay(r, s, seat, t).value) < Measure(s)
  {
    hide RemoveFirst;
    hide Advance;
    hide OpenClaims;
    var d := s.seats[seat];
    WithSeatLoad(s, seat, d.(concealed := RemoveFirst(d.concealed, t), discards := d.discards + [t]));
    var played := Played(s, seat, t);
    assert Load(played) < Load(s);
    AdvanceMeasure(played);
  }

  lemma ClaimMeasure(s: State, seat: SeatIx, hand: seq<Tile>, m: Meld)
    requires LastInPile(s) && seat != s.lastDiscard.value.seat && |hand| < |s.seats[seat].concealed|
    ensures Load(Consumed(s, seat, hand, m)) < Load(s)
  {
  }

  lemma PengMeasure(s: State, seat: SeatIx, t: Tile)
    requires LastInPile(s) && seat != s.lastDiscard.value.seat && ApplyPeng(s, seat, t).Ok?
    ensures Measure(ApplyPeng(s, seat, t).value) < Measure(s)
  {
    hide RemoveTimes;
    var d := s.seats[seat];
    RemoveTimesLength(d.concealed, t, 2);
    ClaimMeasure(s, seat, RemoveTimes(d.concealed, t, 2),
                 Meld(PengMeld, [t, t, t], Some(t), s.lastDiscard.value.seat));
  }

  lemma ExposedKongMeasure(s: State, seat: SeatIx, t: Tile)
    requires LastInPile(s) && seat != s.lastDiscard.value.seat && s.phase == ClaimWindow
    requires ApplyGangExposed(s, seat, t).Ok?
    ensures Measure(ApplyGangExposed(s, seat, t).value) < Measure(s)
  {
    hide RemoveTimes;
    hide InternalDraw;
    var d := s.seats[seat];
    var m := Meld(GangExposed, [t, t, t, t], Some(t), s.lastDiscard.value.seat);
    var hand := RemoveTimes(d.concealed, t, 3);
    RemoveTimesLength(d.concealed, t, 3);
    ClaimMeasure(s, seat, hand, m);
    DrawMeasure(Consumed(s, seat, hand, m).(turn := s.turn + 1), seat);
  }

  lemma MeldMeasure(s: State, seat: SeatIx, t: Tile)
    requires Inv(s) && s.phase == ClaimWindow && seat != s.lastDiscard.value.seat
    ensures ApplyPeng(s, seat, t).Ok? ==> Measure(ApplyPeng(s, seat, t).value) < Measure(s)
    ensures ApplyGangExposed(s, seat, t).Ok? ==> Measure(ApplyGangExposed(s, seat, t).value) < Measure(s)
  {
    WindowPile(s);
    hide *;
    if ApplyPeng(s, seat, t).Ok? {
      PengMeasure(s, seat, t);
    }
    if ApplyGangExposed(s, seat, t).Ok? {
      ExposedKongMeasure(s, seat, t);
    }
  }

  lemma WindowPile(s: State)
    requires Inv(s) && s.phase == ClaimWindow
    ensures LastInPile(s)
  {
  }

  lemma ChiMeasure(s: State, seat: SeatIx, tiles: seq<Tile>)
    requires Inv(s) && s.phase == ClaimWindow && seat == Next(s.lastDiscard.value.seat)
    requires IsChi(s.seats[seat].concealed, s.lastDiscard.value.tile, tiles)
    ensures ApplyChi(s, seat, tiles).Ok? ==> Measure(ApplyChi(s, seat, tiles).value) < Measure(s)
  {
    hide RemoveSupport;
    WindowPile(s);
    hide Inv;
    var last := s.lastDiscard.value;
    var d := s.seats[seat];
    assert Sorted(d.concealed) && NoFlowers(d.concealed) by { InvHand(s, seat); }
    RunCopies(d.concealed, tiles, last.tile);
    ClaimMeasure(s, seat, RemoveSupport(d.concealed, tiles, last.tile).value,
                 Meld(ChiMeld, tiles, Some(last.tile), last.seat));
  }

  lemma InvHand(s: State, seat: SeatIx)
    requires Inv(s)
    ensures Sorted(s.seats[seat].concealed) && NoFlowers(s.seats[seat].concealed)
  {
  }

  lemma OwnKongMeasure(s: State, seat: SeatIx, t: Tile)
    requires s.phase != TerminalPhase
    ensures ApplyGangConcealed(s, seat, t).Ok? ==> Measure(ApplyGangConcealed(s, seat, t).value) < Measure(s)
    ensures ApplyGangAdded(s, seat, t).Ok? ==> Measure(ApplyGangAdded(s, seat, t).value) < Measure(s)
  {
    hide RemoveTimes;
    hide RemoveFirst;
    hide Promote;
    hide InternalDraw;
    var d := s.seats[seat];
    if ApplyGangConcealed(s, seat, t).Ok? {
      RemoveTimesLength(d.concealed, t, 4);
      var melds := d.melds + [Meld(GangConcealed, [t, t, t, t], None, seat)];
      WithSeatLoad(s, seat, d.(concealed := RemoveTimes(d.concealed, t, 4), melds := melds));
      DrawMeasure(KongReady(s, seat, RemoveTimes(d.concealed, t, 4), melds), seat);
    }
    if ApplyGangAdded(s, seat, t).Ok? {
      WithSeatLoad(s, seat, d.(concealed := RemoveFirst(d.concealed, t), melds := Promote(d.melds, t)));
      DrawMeasure(KongReady(s, seat, RemoveFirst(d.concealed, t), Promote(d.melds, t)), seat);
    }
  }

  lemma HuMeasure(r: Rules, s: State, seat: SeatIx)
    requires s.phase != TerminalPhase && ApplyHu(r, s, seat).Ok?
    ensures Measure(ApplyHu(r, s, seat).value) < Measure(s)
  {
    hide RemoveFirst;
  }

  /** Every action but a PASS that leaves its window open makes the hand shorter. */
  lemma ActionMeasure(r: Rules, s: State, seat: SeatIx, a: Action)
    requires Inv(s) && ApplyAction(r, s, seat, a).Ok?
    ensures var after := ApplyAction(r, s, seat, a).value;
            if a.Pass? && after.phase == ClaimWindow then Measure(after) == Measure(s)
            else Measure(after) < Measure(s)
  {
    hide Inv;
    hide Measure;
    match a
    case Play(t) => PlayMeasure(r, s, seat, t);
    case Pass => PassMeasure(s, seat);
    case Peng(t) => MeldMeasure(s, seat, t);
    case Chi(tiles) => ChiMeasure(s, seat, tiles);
    case Gang(t, Exposed) => MeldMeasure(s, seat, t);
    case Gang(t, Concealed) => OwnKongMeasure(s, seat, t);
    case Gang(t, Added) => OwnKongMeasure(s, seat, t);
    case Hu => HuMeasure(r, s, seat);
  }

  lemma PassMeasure(s: State, seat: SeatIx)
    requires s.phase == ClaimWindow
    ensures var after := ApplyPass(s, seat);
            if after.phase == ClaimWindow then Measure(after) == Measure(s)
            else Measure(after) < Measure(s)
  {
    hide Advance;
    DropClaimsKeepsOthers(s.claims, seat);
    var passed := s.(claims := DropClaims(s.claims, seat));
    AdvanceMeasure(passed);
    if passed.claims == [] {
      AdvanceLeaves(passed);
    }
  }

  lemma AdvanceLeaves(s: State)
    ensures Advance(s).phase != ClaimWindow
  {
  }

  // --- claim contention ---

  predicate Melds(a: Action) { a.Peng? || a.Gang? }

  /** Two seats cannot both hold a pair of the tile just discarded. */
  lemma OnePairInHand(s: State, i: SeatIx, j: SeatIx)
    requires Inv(s) && s.phase == ClaimWindow
    requires i != s.lastDiscard.value.seat && j != s.lastDiscard.value.seat
    requires Copies(s.seats[i].concealed, s.lastDiscard.value.tile) >= 2
    requires Copies(s.seats[j].concealed, s.lastDiscard.value.tile) >= 2
    ensures i == j
  {
    if i != j {
      var last := s.lastDiscard.value;
      var pile := s.seats[last.seat].discards;
      assert pile[|pile| - 1] in pile;
      assert TotalCopies(s, last.tile) == DeckCopies(last.tile);
      hide Inv;
      ThreeSeats(s, i, j, last.seat, last.tile);
    }
  }

  lemma ThreeSeats(s: State, i: SeatIx, j: SeatIx, k: SeatIx, t: Tile)
    requires i != j && j != k && k != i
    ensures TotalCopies(s, t) >= Copies(s.seats[i].concealed, t) + Copies(s.seats[j].concealed, t)
                                 + Copies(s.seats[k].discards, t)
  {
    hide SeatCopies;
    SeatHolds(s.seats[i], t);
    SeatHolds(s.seats[j], t);
    SeatHolds(s.seats[k], t);
    var at := [SeatCopies(s.seats[0], t), SeatCopies(s.seats[1], t), SeatCopies(s.seats[2], t), SeatCopies(s.seats[3], t)];
    assert at[i] == SeatCopies(s.seats[i], t) && at[j] == SeatCopies(s.seats[j], t) && at[k] == SeatCopies(s.seats[k], t);
    ThreeOfFour(at, i, j, k);
  }

  lemma ThreeOfFour(at: seq<nat>, i: SeatIx, j: SeatIx, k: SeatIx)
    requires |at| == 4 && i != j && j != k && k != i
    ensures at[0] + at[1] + at[2] + at[3] >= at[i] + at[j] + at[k]
  {
  }

  lemma SeatHolds(d: SeatData, t: Tile)
    ensures SeatCopies(d, t) >= Copies(d.concealed, t) && SeatCopies(d, t) >= Copies(d.discards, t)
  {
  }

  /** In a claim window at most one seat can PENG or GANG, and only the seat after
      the discarder can CHI: nothing but HU claims can ever compete on equal terms. */
  lemma ContentionIsBetweenWins(r: Rules, s: State)
    requires Inv(s) && s.phase == ClaimWindow
    ensures forall i: SeatIx, j: SeatIx, a, b ::
              Legal(r, s, i, a) && Legal(r, s, j, b) && Melds(a) && Melds(b) ==> i == j
    ensures forall i: SeatIx, a :: Legal(r, s, i, a) && a.Chi? ==> i == Next(s.lastDiscard.value.seat)
  {
    forall i: SeatIx, j: SeatIx, a, b | Legal(r, s, i, a) && Legal(r, s, j, b) && Melds(a) && Melds(b)
      ensures i == j
    {
      OnePairInHand(s, i, j);
    }
  }

  predicate Chose(claimers: seq<SeatIx>, choices: FourChoices, i: SeatIx, kind: DecisionKind) {
    i in claimers && KindOf(choices[i].action) == kind
  }

  lemma ChoseStep(claimers: seq<SeatIx>, choices: FourChoices, i: SeatIx, kind: DecisionKind)
    requires claimers != []
    ensures Chose(claimers, choices, i, kind) <==>
            Chose(claimers[1..], choices, i, kind) || (i == claimers[0] && KindOf(choices[i].action) == kind)
  {
  }

  /** The scan stops at the lowest seat that chose the kind, if there is one. */
  lemma {:induction false} FirstChoosingFirst(claimers: seq<SeatIx>, choices: FourChoices, kind: DecisionKind, i: SeatIx)
    requires forall j, k :: 0 <= j < k < |claimers| ==> claimers[j] < claimers[k]
    ensures var w := FirstChoosing(claimers, choices, kind);
            && (w.Some? ==> Chose(claimers, choices, w.value, kind))
            && (Chose(claimers, choices, i, kind) ==> w.Some? && w.value <= i)
  {
    if claimers != [] {
      FirstChoosingFirst(claimers[1..], choices, kind, i);
      ChoseStep(claimers, choices, i, kind);
      var w := FirstChoosing(claimers, choices, kind);
      if w.Some? {
        ChoseStep(claimers, choices, w.value, kind);
      }
      if i in claimers[1..] {
        var k :| 0 <= k < |claimers[1..]| && claimers[1..][k] == i;
        assert claimers[k + 1] == i;
      }
    }
  }

  ghost predicate LowestChoice(claimers: seq<SeatIx>, choices: FourChoices, kind: DecisionKind, w: Option<SeatIx>) {
    && (w.None? ==> forall i: SeatIx :: !Chose(claimers, choices, i, kind))
    && (w.Some? ==> Chose(claimers, choices, w.value, kind)
                    && forall i: SeatIx :: Chose(claimers, choices, i, kind) ==> w.value <= i)
  }

  lemma FirstChoosingLowest(claimers: seq<SeatIx>, choices: FourChoices, kind: DecisionKind)
    requires forall j, k :: 0 <= j < k < |claimers| ==> claimers[j] < claimers[k]
    ensures LowestChoice(claimers, choices, kind, FirstChoosing(claimers, choices, kind))
  {
    forall i: SeatIx
      ensures var w := FirstChoosing(claimers, choices, kind);
              && (w.Some? ==> Chose(claimers, choices, w.value, kind))
              && (Chose(claimers, choices, i, kind) ==> w.Some? && w.value <= i)
    {
      FirstChoosingFirst(claimers, choices, kind, i);
    }
    FirstChoosingFirst(claimers, choices, kind, 0);
  }

  /** What the priority rule must deliver. */
  ghost predicate RightWinner(s: State, claimers: seq<SeatIx>, choices: FourChoices, w: Option<SeatIx>)
    requires s.lastDiscard.Some?
  {
    if exists i: SeatIx :: Chose(claimers, choices, i, DecideHu) then
      // the lowest seat that declared a win
      && w.Some? && Chose(claimers, choices, w.value, DecideHu)
      && forall i: SeatIx :: Chose(claimers, choices, i, DecideHu) ==> w.value <= i
    else if exists i: SeatIx :: ChoseMeld(claimers, choices, i) then
      // the only seat that claimed a triplet or a kong
      w.Some? && forall i: SeatIx :: ChoseMeld(claimers, choices, i) <==> i == w.value
    else if exists i: SeatIx :: Chose(claimers, choices, i, DecideChi) then
      // the only seat that claimed a run, which follows the discarder
      && w == Some(Next(s.lastDiscard.value.seat))
      && forall i: SeatIx :: Chose(claimers, choices, i, DecideChi) <==> i == w.value
    else
      w.None?
  }

  predicate ChoseMeld(claimers: seq<SeatIx>, choices: FourChoices, i: SeatIx) {
    Chose(claimers, choices, i, DecidePeng) || Chose(claimers, choices, i, DecideGang)
  }

  ghost predicate AllLegal(r: Rules, s: State, claimers: seq<SeatIx>, choices: FourChoices) {
    forall i: SeatIx :: i in claimers ==> Legal(r, s, i, choices[i].action)
  }

  /** The priority rule picks the lowest winning seat, else the only triplet or
      kong, else the only run; nobody wins the window iff every claimer passed. */
  lemma PriorityPicksRightWinner(r: Rules, s: State, claimers: seq<SeatIx>, choices: FourChoices)
    requires Inv(s) && s.phase == ClaimWindow && AllLegal(r, s, claimers, choices)
    requires forall j, k :: 0 <= j < k < |claimers| ==> claimers[j] < claimers[k]
    ensures RightWinner(s, claimers, choices, ResolveClaimPriority(claimers, choices))
    ensures ResolveClaimPriority(claimers, choices).None? <==>
            forall i: SeatIx :: i in claimers ==> choices[i].action == Pass
    ensures ResolveClaimPriority(claimers, choices).Some? ==>
              var w := ResolveClaimPriority(claimers, choices).value;
              w in claimers && !choices[w].action.Pass?
  {
    hide Inv;
    hide FirstChoosing;
    FirstChoosingLowest(claimers, choices, DecideHu);
    FirstChoosingLowest(claimers, choices, DecidePeng);
    FirstChoosingLowest(claimers, choices, DecideGang);
    FirstChoosingLowest(claimers, choices, DecideChi);
    ResolveUnfolds(claimers, choices);
    ClaimKinds(r, s, claimers, choices);
    OnlyMelder(r, s, claimers, choices);
    hide Legal;
    var w := ResolveClaimPriority(claimers, choices);
    var hu, peng := FirstChoosing(claimers, choices, DecideHu), FirstChoosing(claimers, choices, DecidePeng);
    var gang, chi := FirstChoosing(claimers, choices, DecideGang), FirstChoosing(claimers, choices, DecideChi);
    hide ResolveClaimPriority;
    if hu.Some? {
      assert Chose(claimers, choices, hu.value, DecideHu);
    } else if peng.Some? || gang.Some? {
      assert ChoseMeld(claimers, choices, w.value);
    } else if chi.Some? {
      assert Chose(claimers, choices, w.value, DecideChi);
    } else {
      assert w.None?;
    }
  }

  lemma ResolveUnfolds(claimers: seq<SeatIx>, choices: FourChoices)
    ensures ResolveClaimPriority(claimers, choices) ==
            var hu := FirstChoosing(claimers, choices, DecideHu);
            var peng := FirstChoosing(claimers, choices, DecidePeng);
            var gang := FirstChoosing(claimers, choices, DecideGang);
            if hu.Some? then hu else if peng.Some? then peng else if gang.Some? then gang
            else FirstChoosing(claimers, choices, DecideChi)
  {
    hide FirstChoosing;
    assert ResolveFrom(claimers, choices, 4) == None;
    assert ResolveFrom(claimers, choices, 3) == FirstChoosing(claimers, choices, DecideChi);
    assert ResolveFrom(claimers, choices, 2) ==
           var gang := FirstChoosing(claimers, choices, DecideGang);
           if gang.Some? then gang else ResolveFrom(claimers, choices, 3);
    assert ResolveFrom(claimers, choices, 1) ==
           var peng := FirstChoosing(claimers, choices, DecidePeng);
           if peng.Some? then peng else ResolveFrom(claimers, choices, 2);
  }

  /** A claimer's legal action is a PASS or one of the four claims. */
  lemma ClaimKinds(r: Rules, s: State, claimers: seq<SeatIx>, choices: FourChoices)
    requires s.phase == ClaimWindow && AllLegal(r, s, claimers, choices)
    ensures forall i: SeatIx :: i in claimers ==>
              choices[i].action == Pass
              || Chose(claimers, choices, i, DecideHu) || Chose(claimers, choices, i, DecidePeng)
              || Chose(claimers, choices, i, DecideGang) || Chose(claimers, choices, i, DecideChi)
    ensures forall i: SeatIx :: i in claimers && choices[i].action == Pass ==>
              !Chose(claimers, choices, i, DecideHu) && !Chose(claimers, choices, i, DecidePeng)
              && !Chose(claimers, choices, i, DecideGang) && !Chose(claimers, choices, i, DecideChi)
  {
  }

  lemma OnlyMelder(r: Rules, s: State, claimers: seq<SeatIx>, choices: FourChoices)
    requires Inv(s) && s.phase == ClaimWindow && AllLegal(r, s, claimers, choices)
    ensures forall i: SeatIx, j: SeatIx :: ChoseMeld(claimers, choices, i) && ChoseMeld(claimers, choices, j) ==> i == j
    ensures forall i: SeatIx :: Chose(claimers, choices, i, DecideChi) ==> i == Next(s.lastDiscard.value.seat)
  {
    ContentionIsBetweenWins(r, s);
    forall i: SeatIx, j: SeatIx | ChoseMeld(claimers, choices, i) && ChoseMeld(claimers, choices, j)
      ensures i == j
    {
      assert Melds(choices[i].action) && Melds(choices[j].action);
      assert Legal(r, s, i, choices[i].action) && Legal(r, s, j, choices[j].action);
    }
  }

  // --- the steps ---

  ghost predicate Ascending(seats: seq<SeatIx>) {
    forall j, k :: 0 <= j < k < |seats| ==> seats[j] < seats[k]
  }

  lemma {:induction false} DecisionsAreLegal(r: Rules, t: Table, claimers: seq<SeatIx>, replies: FourReplies)
    requires Inv(t.state) && t.state.phase == ClaimWindow
    requires forall i: SeatIx :: i in claimers ==> Claims(t.state.claims, i)
    ensures var all := DecideAll(r, t, claimers, replies);
            && (all.Ok? <==> forall i: SeatIx :: i in claimers ==> t.auto[i] || Decidable(replies[i].answer))
            && (all.Err? ==> AdapterFault(all.error))
            && (all.Ok? ==> forall i: SeatIx :: i in claimers ==>
                  && Decide(r, t.state, i, true, t.auto[i], replies[i]) == Ok(all.value[i])
                  && Legal(r, t.state, i, all.value[i].action)
                  && (Recordable(all.value[i].failure) <==> Tolerable(t.auto[i], replies[i])))
    decreases |claimers|
  {
    hide Inv;
    hide Legal;
    hide Decide;
    if claimers != [] {
      var seat := claimers[0];
      assert Claims(t.state.claims, seat);
      DecisionIsLegal(r, t.state, seat, t.auto[seat], replies[seat]);
      DecisionsAreLegal(r, t, claimers[1..], replies);
      assert claimers == [seat] + claimers[1..];
    }
  }

  lemma PassIsLegal(r: Rules, s: State, seat: SeatIx)
    requires Inv(s) && s.phase == ClaimWindow && Claims(s.claims, seat)
    ensures Legal(r, s, seat, Pass) && ApplyAction(r, s, seat, Pass) == Ok(ApplyPass(s, seat))
  {
  }

  /** One PASS: the window stays open, with the other seats' claims, until the
      last claimer passes. */
  lemma OnePass(s: State, claimers: seq<SeatIx>)
    requires s.phase == ClaimWindow && claimers != [] && Ascending(claimers)
    requires forall i: SeatIx :: i in claimers <==> Claims(s.claims, i)
    ensures var after := ApplyPass(s, claimers[0]);
            if |claimers| == 1 then after == Advance(s.(claims := []))
            else
              && after == s.(claims := DropClaims(s.claims, claimers[0]))
              && after.claims != []
              && forall i: SeatIx :: i in claimers[1..] <==> Claims(after.claims, i)
  {
    hide Advance;
    DropClaimsKeepsOthers(s.claims, claimers[0]);
    var rest := DropClaims(s.claims, claimers[0]);
    assert claimers == [claimers[0]] + claimers[1..];
    forall i: SeatIx ensures Claims(rest, i) <==> Claims(s.claims, i) && i != claimers[0] {
      ClaimsDropped(s.claims, claimers[0], i);
    }
    if |claimers| > 1 {
      assert claimers[1] in claimers && claimers[1] != claimers[0];
      assert Claims(rest, claimers[1]);
      forall i: SeatIx ensures i in claimers[1..] <==> i in claimers && i != claimers[0] {
        if i in claimers[1..] {
          var k :| 0 <= k < |claimers[1..]| && claimers[1..][k] == i;
          assert claimers[k + 1] == i;
        }
      }
    } else {
      assert claimers == [claimers[0]];
      SomeoneClaims(rest);
    }
  }

  lemma SomeoneClaims(cs: seq<Claim>)
    ensures cs == [] || exists i: SeatIx :: Claims(cs, i)
  {
    if cs != [] {
      assert Claims(cs, cs[0].seat);
    }
  }

  lemma {:induction false} ClaimsDropped(cs: seq<Claim>, seat: SeatIx, i: SeatIx)
    ensures Claims(DropClaims(cs, seat), i) <==> Claims(cs, i) && i != seat
  {
    DropClaimsKeepsOthers(cs, seat);
    var rest := DropClaims(cs, seat);
    if Claims(cs, i) && i != seat {
      var k :| 0 <= k < |cs| && cs[k].seat == i;
      assert cs[k] in rest;
      var j :| 0 <= j < |rest| && rest[j] == cs[k];
    }
    if Claims(rest, i) {
      var k :| 0 <= k < |rest| && rest[k].seat == i;
      assert rest[k] in cs;
      var j :| 0 <= j < |cs| && cs[j] == rest[k];
    }
  }

  ghost predicate AllRecordable(claimers: seq<SeatIx>, choices: FourChoices) {
    forall i: SeatIx :: i in claimers ==> Recordable(choices[i].failure)
  }

  lemma RecordableTail(claimers: seq<SeatIx>, choices: FourChoices)
    requires claimers != []
    ensures AllRecordable(claimers, choices) <==>
            Recordable(choices[claimers[0]].failure) && AllRecordable(claimers[1..], choices)
  {
    assert claimers == [claimers[0]] + claimers[1..];
  }

  /** The marks of a decision are written exactly if its failure can be recorded. */
  lemma MarkWritten(events: seq<Event>, failure: Failure, auto: bool)
    ensures Recordable(failure) ==> Written(Mark(events, failure, auto)) == Ok(Mark(events, failure, auto))
    ensures events != [] && !Recordable(failure) ==> Written(Mark(events, failure, auto)) == Err(NotRecordable)
  {
    if events != [] {
      assert Mark(events, failure, auto)[0].failure == failure;
    }
  }

  lemma {:induction false} DecisionsWritten(s: State, claimers: seq<SeatIx>, choices: FourChoices, auto: FourFlags)
    ensures var log := DecisionLog(s, claimers, choices, auto);
            Written(log) == if AllRecordable(claimers, choices) then Ok(log) else Err(NotRecordable)
    decreases |claimers|
  {
    hide Decision;
    if claimers != [] {
      RecordableTail(claimers, choices);
      DecisionsWritten(s, claimers[1..], choices, auto);
      var log := DecisionLog(s, claimers, choices, auto);
      assert log[1..] == DecisionLog(s, claimers[1..], choices, auto);
    }
  }

  /** Every transition is recorded by at least one event. */
  lemma SomethingRecorded(r: Rules, s: State, seat: SeatIx, a: Action)
    requires Apply(r, s, seat, a).Ok?
    ensures Apply(r, s, seat, a).value.1 != []
  {
    hide ApplyAction;
  }

  /** One pass of the loop over claimers who all pass. */
  lemma PassOneApplied(r: Rules, s: State, claimers: seq<SeatIx>, choices: FourChoices, auto: FourFlags)
    requires Inv(s) && s.phase == ClaimWindow && ValidRules(r) && claimers != []
    requires Claims(s.claims, claimers[0]) && choices[claimers[0]].action == Pass
    ensures var seat := claimers[0];
            var after := ApplyPass(s, seat);
            && Apply(r, s, seat, Pass).Ok? && Apply(r, s, seat, Pass).value.0 == after && Inv(after)
            && var rest := ApplyAllPass(r, after, claimers[1..], choices, auto);
               ApplyAllPass(r, s, claimers, choices, auto) ==
               if !Recordable(choices[seat].failure) then Err(NotRecordable)
               else if rest.Err? then Err(rest.error)
               else Ok(Closing(rest.value.state,
                               Mark(Apply(r, s, seat, Pass).value.1, choices[seat].failure, auto[seat]) + rest.value.log,
                               [after] + rest.value.states))
  {
    hide Inv;
    hide Mark;
    hide Written;
    hide ApplyPass;
    hide ApplyAction;
    hide Legal;
    hide DiffToEvents;
    var seat := claimers[0];
    PassIsLegal(r, s, seat);
    LegalApplies(r, s, seat, Pass);
    SomethingRecorded(r, s, seat, Pass);
    hide Apply;
    MarkWritten(Apply(r, s, seat, Pass).value.1, choices[seat].failure, auto[seat]);
  }

  /** What a window of passes must achieve. */
  ghost predicate Closes(s: State, claimers: seq<SeatIx>, p: Closing) {
    && p.state == Advance(s.(claims := []))
    && p.state.phase != ClaimWindow
    && |p.states| == |claimers| && claimers != []
    && p.states[|claimers| - 1] == p.state
    && (forall k :: 0 <= k < |claimers| - 1 ==> p.states[k].phase == ClaimWindow)
    && (forall k :: 0 <= k < |claimers| ==> Inv(p.states[k]))
  }

  /** When every claimer passes, each PASS is legal when it is applied, the window
      closes exactly at the last one, and what is left is the next seat's draw. Only
      a failed decision that cannot be recorded gets in the way. */
  lemma {:induction false} AllPassCloses(r: Rules, s: State, claimers: seq<SeatIx>, choices: FourChoices, auto: FourFlags)
    requires Inv(s) && s.phase == ClaimWindow && ValidRules(r) && claimers != [] && Ascending(claimers)
    requires forall i: SeatIx :: i in claimers <==> Claims(s.claims, i)
    requires forall i: SeatIx :: i in claimers ==> choices[i].action == Pass
    ensures var p := ApplyAllPass(r, s, claimers, choices, auto);
            && (p.Ok? <==> AllRecordable(claimers, choices))
            && (p.Err? ==> p.error == NotRecordable)
            && (p.Ok? ==> Closes(s, claimers, p.value))
    decreases |claimers|
  {
    hide Inv;
    hide Advance;
    hide Mark;
    hide ApplyPass;
    hide Apply;
    hide ApplyAllPass;
    hide AllRecordable;
    var seat := claimers[0];
    assert seat in claimers;
    PassOneApplied(r, s, claimers, choices, auto);
    RecordableTail(claimers, choices);
    OnePass(s, claimers);
    var after := ApplyPass(s, seat);
    var rest := claimers[1..];
    if |claimers| > 1 {
      assert Ascending(rest);
      forall i: SeatIx | i in rest ensures choices[i].action == Pass {
        assert i in claimers;
      }
      AllPassCloses(r, after, rest, choices, auto);
      assert after.(claims := []) == s.(claims := []);
    } else {
      AdvanceLeaves(s.(claims := []));
      NobodyPasses(r, after, choices, auto);
    }
  }

  lemma NobodyPasses(r: Rules, s: State, choices: FourChoices, auto: FourFlags)
    ensures ApplyAllPass(r, s, [], choices, auto) == Ok(Closing(s, [], []))
    ensures AllRecordable([], choices)
  {
  }

  /** What a step must achieve. */
  ghost predicate GoodStep(before: State, step: Step) {
    && Inv(step.table.state)
    && Measure(step.table.state) < Measure(before)
    && step.states != [] && step.states[|step.states| - 1] == step.table.state
    && forall k :: 0 <= k < |step.states| ==> Inv(step.states[k])
  }

  lemma DiscardStepGood(r: Rules, limit: nat, t: Table, replies: FourReplies)
    requires Inv(t.state) && t.state.phase == DiscardPhase && ValidRules(r)
    ensures var step := StepDiscard(r, limit, t, replies);
            && (step.Ok? <==> Tolerable(t.auto[t.state.actor], replies[t.state.actor]))
            && (step.Err? ==> step.error == FaultOf(replies[t.state.actor].answer))
            && (step.Ok? ==> GoodStep(t.state, step.value) && step.value.log != [])
  {
    hide Inv;
    hide Legal;
    hide Decide;
    hide Mark;
    hide Measure;
    hide Apply;
    hide Written;
    var actor := t.state.actor;
    DecisionIsLegal(r, t.state, actor, t.auto[actor], replies[actor]);
    var choice := Decide(r, t.state, actor, false, t.auto[actor], replies[actor]);
    if choice.Ok? {
      var a := choice.value.action;
      LegalApplies(r, t.state, actor, a);
      ActionMeasure(r, t.state, actor, a);
      NoPassOnTurn(r, t.state, actor, a);
      SomethingRecorded(r, t.state, actor, a);
      MarkWritten(Apply(r, t.state, actor, a).value.1, choice.value.failure, t.auto[actor]);
    }
  }

  lemma NoPassOnTurn(r: Rules, s: State, seat: SeatIx, a: Action)
    requires s.phase == DiscardPhase && Legal(r, s, seat, a)
    ensures !a.Pass?
  {
  }

  /** A window once every decision is in: it goes through exactly if all of them can
      be recorded, and then closes well. */
  lemma WindowResolves(r: Rules, s: State, claimers: seq<SeatIx>, choices: FourChoices, auto: FourFlags)
    requires Inv(s) && s.phase == ClaimWindow && ValidRules(r) && claimers != [] && Ascending(claimers)
    requires forall i: SeatIx :: i in claimers <==> Claims(s.claims, i)
    requires AllLegal(r, s, claimers, choices)
    ensures var c := ResolveWindow(r, s, claimers, choices, auto);
            && (c.Ok? <==> AllRecordable(claimers, choices))
            && (c.Err? ==> c.error == NotRecordable)
            && (c.Ok? ==> GoodClosing(s, c.value))
  {
    hide Inv;
    hide Legal;
    hide ResolveClaimPriority;
    hide ApplyAllPass;
    hide Apply;
    hide Written;
    hide Measure;
    hide Advance;
    hide RightWinner;
    hide GoodClosing;
    hide AllRecordable;
    hide DecisionLog;
    PriorityPicksRightWinner(r, s, claimers, choices);
    if ResolveClaimPriority(claimers, choices).None? {
      PassedWindow(r, s, claimers, choices, auto);
    } else {
      WonWindow(r, s, claimers, choices, auto, ResolveClaimPriority(claimers, choices).value);
    }
  }

  lemma PassedWindow(r: Rules, s: State, claimers: seq<SeatIx>, choices: FourChoices, auto: FourFlags)
    requires Inv(s) && s.phase == ClaimWindow && ValidRules(r) && claimers != [] && Ascending(claimers)
    requires forall i: SeatIx :: i in claimers <==> Claims(s.claims, i)
    requires forall i: SeatIx :: i in claimers ==> choices[i].action == Pass
    ensures var c := ApplyAllPass(r, s, claimers, choices, auto);
            && (c.Ok? <==> AllRecordable(claimers, choices))
            && (c.Err? ==> c.error == NotRecordable)
            && (c.Ok? ==> GoodClosing(s, c.value))
  {
    hide Inv;
    hide ApplyAllPass;
    hide Measure;
    hide Advance;
    hide AllRecordable;
    assert claimers[0] in claimers;
    AllPassCloses(r, s, claimers, choices, auto);
    ClosedMeasure(s);
    if ApplyAllPass(r, s, claimers, choices, auto).Ok? {
      PassesLogged(r, s, claimers, choices, auto);
    }
  }

  /** A won window: every decision is recorded, then the winner's action applied. */
  lemma ContestUnfolds(r: Rules, s: State, claimers: seq<SeatIx>, choices: FourChoices, auto: FourFlags, w: SeatIx)
    requires ResolveClaimPriority(claimers, choices) == Some(w) && w in claimers
    requires Apply(r, s, w, choices[w].action).Ok?
    ensures var applied := Apply(r, s, w, choices[w].action).value;
            ResolveWindow(r, s, claimers, choices, auto) ==
            if AllRecordable(claimers, choices) then
              Ok(Closing(applied.0,
                         DecisionLog(s, claimers, choices, auto)
                         + Mark(WithoutDecision(applied.1), choices[w].failure, false),
                         [applied.0]))
            else Err(NotRecordable)
  {
    assert AllRecordable(claimers, choices) ==> Recordable(choices[w].failure);
    hide ResolveClaimPriority;
    hide Apply;
    hide Mark;
    hide Written;
    hide AllRecordable;
    hide DecisionLog;
    hide WithoutDecision;
    DecisionsWritten(s, claimers, choices, auto);
    MarkWritten(WithoutDecision(Apply(r, s, w, choices[w].action).value.1), choices[w].failure, false);
  }

  lemma WonWindow(r: Rules, s: State, claimers: seq<SeatIx>, choices: FourChoices, auto: FourFlags, w: SeatIx)
    requires Inv(s) && s.phase == ClaimWindow && ValidRules(r) && w in claimers
    requires Legal(r, s, w, choices[w].action) && !choices[w].action.Pass?
    requires ResolveClaimPriority(claimers, choices) == Some(w)
    ensures var c := ResolveWindow(r, s, claimers, choices, auto);
            && (c.Ok? <==> AllRecordable(claimers, choices))
            && (c.Err? ==> c.error == NotRecordable)
            && (c.Ok? ==> GoodClosing(s, c.value))
  {
    hide Inv;
    hide Legal;
    hide ResolveClaimPriority;
    hide ResolveWindow;
    hide Mark;
    hide Measure;
    hide AllRecordable;
    hide DecisionLog;
    LegalApplies(r, s, w, choices[w].action);
    ActionMeasure(r, s, w, choices[w].action);
    ContestUnfolds(r, s, claimers, choices, auto, w);
    DecisionsLogged(s, claimers, choices, auto);
    hide Apply;
  }

  /** What a resolved window must achieve. */
  ghost predicate GoodClosing(s: State, c: Closing) {
    && Inv(c.state) && Measure(c.state) < Measure(s) && c.log != []
    && c.states != [] && c.states[|c.states| - 1] == c.state
    && forall k :: 0 <= k < |c.states| ==> Inv(c.states[k])
  }

  lemma PassesLogged(r: Rules, s: State, claimers: seq<SeatIx>, choices: FourChoices, auto: FourFlags)
    requires Inv(s) && s.phase == ClaimWindow && ValidRules(r) && claimers != []
    requires Claims(s.claims, claimers[0]) && choices[claimers[0]].action == Pass
    requires ApplyAllPass(r, s, claimers, choices, auto).Ok?
    ensures ApplyAllPass(r, s, claimers, choices, auto).value.log != []
  {
    hide Inv;
    hide ApplyPass;
    hide ApplyAllPass;
    PassOneApplied(r, s, claimers, choices, auto);
    SomethingRecorded(r, s, claimers[0], Pass);
    hide Apply;
  }

  lemma DecisionsLogged(s: State, claimers: seq<SeatIx>, choices: FourChoices, auto: FourFlags)
    requires claimers != []
    ensures DecisionLog(s, claimers, choices, auto) != []
  {
  }

  lemma ClaimStepGood(r: Rules, limit: nat, t: Table, replies: FourReplies)
    requires Inv(t.state) && t.state.phase == ClaimWindow && ValidRules(r)
    ensures var step := StepClaimWindow(r, limit, t, replies);
            && (step.Ok? <==> forall i: SeatIx :: Prompted(t.state, i) ==> Tolerable(t.auto[i], replies[i]))
            && (step.Err? ==> AdapterFault(step.error))
            && (step.Ok? ==> GoodStep(t.state, step.value) && step.value.log != [])
  {
    hide Claimers;
    hide Legal;
    hide DecideAll;
    hide ResolveWindow;
    hide Measure;
    hide StrikeAll;
    hide SwapAll;
    var claimers := Claimers(t.state.claims);
    ClaimersExist(t.state);
    hide Inv;
    DecisionsAreLegal(r, t, claimers, replies);
    var all := DecideAll(r, t, claimers, replies);
    if all.Ok? {
      WindowResolves(r, t.state, claimers, all.value, t.auto);
      TolerableDecisions(t, claimers, replies, all.value);
    }
  }

  lemma TolerableDecisions(t: Table, claimers: seq<SeatIx>, replies: FourReplies, choices: FourChoices)
    requires forall i: SeatIx :: i in claimers ==>
               (Recordable(choices[i].failure) <==> Tolerable(t.auto[i], replies[i]))
    ensures AllRecordable(claimers, choices) <==>
            forall i: SeatIx :: i in claimers ==> Tolerable(t.auto[i], replies[i])
  {
  }

  lemma ClosedMeasure(s: State)
    requires s.phase == ClaimWindow
    ensures Measure(Advance(s.(claims := []))) < Measure(s)
  {
    AdvanceMeasure(s.(claims := []));
  }

  lemma ClaimersExist(s: State)
    requires Inv(s) && s.phase == ClaimWindow
    ensures Claimers(s.claims) != [] && Ascending(Claimers(s.claims))
  {
    assert Claims(s.claims, s.claims[0].seat);
    assert s.claims[0].seat in Claimers(s.claims);
  }

  lemma {:induction false} FaultlessObservers(auto: FourFlags, replies: FourReplies, n: nat)
    requires n <= 4
    ensures ObserveFault(auto, replies, n).None? <==> forall i: SeatIx :: i >= n ==> Attentive(auto[i], replies[i])
    ensures ObserveFault(auto, replies, n).Some? ==> AdapterFault(ObserveFault(auto, replies, n).value)
    decreases 4 - n
  {
    if n < 4 {
      FaultlessObservers(auto, replies, n + 1);
    }
  }

  /** Nothing any adapter does in this iteration is beyond the manager. */
  ghost predicate Harmless(t: Table, replies: FourReplies) {
    && (forall i: SeatIx :: Prompted(t.state, i) ==> Tolerable(t.auto[i], replies[i]))
    && forall i: SeatIx :: Attentive(t.auto[i], replies[i])
  }

  /** Progress: in every state of a hand the manager's step succeeds exactly when
      every prompted adapter's answer is tolerable and every adapter's observe calls
      return. A successful step applies legal actions only, keeps the invariant in
      every state it passes through, and brings the hand closer to its end. */
  lemma StepSucceeds(r: Rules, limit: nat, t: Table, replies: FourReplies)
    requires Inv(t.state) && t.state.phase != TerminalPhase && ValidRules(r)
    ensures var step := StepTable(r, limit, t, replies);
            && (step.Ok? <==> Harmless(t, replies))
            && (step.Err? ==> AdapterFault(step.error))
            && (step.Ok? ==> GoodStep(t.state, step.value))
  {
    hide Inv;
    hide StepDiscard;
    hide StepClaimWindow;
    hide ObserveFault;
    FaultlessObservers(t.auto, replies, 0);
    if t.state.phase == DiscardPhase {
      DiscardStepGood(r, limit, t, replies);
    } else {
      ClaimStepGood(r, limit, t, replies);
    }
  }

  /** Each of the answers that are not tolerable does abort the hand, with its own
      error, when the seat on turn gives it: the failure handler covers none of them. */
  lemma FaultAborts(r: Rules, limit: nat, t: Table, replies: FourReplies)
    requires Inv(t.state) && t.state.phase == DiscardPhase && ValidRules(r)
    requires !Tolerable(t.auto[t.state.actor], replies[t.state.actor])
    ensures StepTable(r, limit, t, replies) == Err(FaultOf(replies[t.state.actor].answer))
  {
    hide Inv;
    hide StepDiscard;
    DiscardStepGood(r, limit, t, replies);
  }

  // --- whole hands ---

  ghost predicate Mannered(reply: Reply) { Tolerable(false, reply) && Attentive(false, reply) }

  ghost predicate Polite(script: seq<FourReplies>) {
    forall k, i :: 0 <= k < |script| && 0 <= i < 4 ==> Mannered(script[k][i])
  }

  lemma PoliteIsHarmless(t: Table, script: seq<FourReplies>)
    requires Polite(script) && script != []
    ensures Harmless(t, script[0]) && Polite(script[1..])
  {
    forall i: SeatIx ensures Tolerable(t.auto[i], script[0][i]) && Attentive(t.auto[i], script[0][i]) {
      assert Mannered(script[0][i]);
    }
    forall k, i | 0 <= k < |script[1..]| && 0 <= i < 4 ensures Mannered(script[1..][k][i]) {
      assert script[1..][k] == script[k + 1];
    }
  }

  /** Adapters that keep to recordable answers, time out or raise exceptions always
      get the hand to its end: a run never fails, and it is over within Measure steps. */
  lemma {:induction false} RunEnds(r: Rules, limit: nat, t: Table, script: seq<FourReplies>)
    requires Inv(t.state) && ValidRules(r) && Polite(script)
    ensures var run := RunTable(r, limit, t, script);
            && run.Ok? && Inv(run.value.table.state)
            && (forall k :: 0 <= k < |run.value.states| ==> Inv(run.value.states[k]))
            && (|script| >= Measure(t.state) ==> run.value.table.state.phase == TerminalPhase)
    decreases |script|
  {
    hide Inv;
    hide StepTable;
    hide Measure;
    hide Polite;
    hide Harmless;
    if script != [] && t.state.phase != TerminalPhase {
      StepSucceeds(r, limit, t, script[0]);
      PoliteIsHarmless(t, script);
      RunEnds(r, limit, StepTable(r, limit, t, script[0]).value.table, script[1..]);
    } else {
      MeasureAtEnd(t.state);
    }
  }

  lemma MeasureAtEnd(s: State)
    ensures s.phase != TerminalPhase ==> Measure(s) > 0
  {
  }

  /** The first iteration whose replies are not harmless, if the run gets there. */
  ghost predicate FailsAt(r: Rules, limit: nat, t: Table, script: seq<FourReplies>, k: nat) {
    && k < |script|
    && var part := RunTable(r, limit, t, script[..k]);
       part.Ok? && part.value.table.state.phase != TerminalPhase && !Harmless(part.value.table, script[k])
  }

  ghost predicate MeetsFault(r: Rules, limit: nat, t: Table, script: seq<FourReplies>) {
    exists k: nat :: FailsAt(r, limit, t, script, k)
  }

  /** Whatever the adapters do, a run fails exactly when some iteration it reaches
      meets replies that are not harmless, and then with an adapter's error. */
  lemma {:induction false} RunFailsOnlyOnFaults(r: Rules, limit: nat, t: Table, script: seq<FourReplies>)
    requires Inv(t.state) && ValidRules(r)
    ensures var run := RunTable(r, limit, t, script);
            && (run.Err? <==> MeetsFault(r, limit, t, script))
            && (run.Err? ==> AdapterFault(run.error))
            && (run.Ok? ==> Inv(run.value.table.state))
    decreases |script|
  {
    hide Inv;
    hide StepTable;
    hide Harmless;
    hide MeetsFault;
    if script == [] || t.state.phase == TerminalPhase {
      NoFaultAhead(r, limit, t, script);
    } else {
      StepSucceeds(r, limit, t, script[0]);
      FaultNowOrLater(r, limit, t, script);
      var step := StepTable(r, limit, t, script[0]);
      if step.Ok? {
        RunFailsOnlyOnFaults(r, limit, step.value.table, script[1..]);
      }
    }
  }

  lemma NoFaultAhead(r: Rules, limit: nat, t: Table, script: seq<FourReplies>)
    requires script == [] || t.state.phase == TerminalPhase
    ensures !MeetsFault(r, limit, t, script)
  {
    hide FailsAt;
    forall k: nat ensures !FailsAt(r, limit, t, script, k) {
      StoppedRunGoesOn(r, limit, t, script, k);
    }
  }

  lemma FaultNowOrLater(r: Rules, limit: nat, t: Table, script: seq<FourReplies>)
    requires script != [] && t.state.phase != TerminalPhase
    ensures var step := StepTable(r, limit, t, script[0]);
            MeetsFault(r, limit, t, script) <==>
            !Harmless(t, script[0]) || (step.Ok? && MeetsFault(r, limit, step.value.table, script[1..]))
  {
    hide FailsAt;
    hide StepTable;
    hide Harmless;
    var step := StepTable(r, limit, t, script[0]);
    FailsFirst(r, limit, t, script);
    forall k: nat
      ensures FailsAt(r, limit, t, script, k + 1) <==> step.Ok? && FailsAt(r, limit, step.value.table, script[1..], k)
    {
      FailsLater(r, limit, t, script, k);
    }
    if MeetsFault(r, limit, t, script) {
      var k: nat :| FailsAt(r, limit, t, script, k);
      if k > 0 {
        FailsLater(r, limit, t, script, k - 1);
        assert FailsAt(r, limit, step.value.table, script[1..], k - 1);
      }
    }
    if !Harmless(t, script[0]) {
      assert FailsAt(r, limit, t, script, 0);
    }
    if step.Ok? && MeetsFault(r, limit, step.value.table, script[1..]) {
      var k: nat :| FailsAt(r, limit, step.value.table, script[1..], k);
      assert FailsAt(r, limit, t, script, k + 1);
    }
  }

  lemma StoppedRunGoesOn(r: Rules, limit: nat, t: Table, script: seq<FourReplies>, k: nat)
    requires script == [] || t.state.phase == TerminalPhase
    ensures !FailsAt(r, limit, t, script, k)
  {
    hide StepTable;
  }

  lemma FailsFirst(r: Rules, limit: nat, t: Table, script: seq<FourReplies>)
    requires script != [] && t.state.phase != TerminalPhase
    ensures FailsAt(r, limit, t, script, 0) <==> !Harmless(t, script[0])
  {
    assert script[..0] == [];
  }

  lemma FailsLater(r: Rules, limit: nat, t: Table, script: seq<FourReplies>, k: nat)
    requires script != [] && t.state.phase != TerminalPhase
    ensures var step := StepTable(r, limit, t, script[0]);
            FailsAt(r, limit, t, script, k + 1) <==>
            step.Ok? && FailsAt(r, limit, step.value.table, script[1..], k)
  {
    hide StepTable;
    hide Harmless;
    if k + 1 < |script| {
      assert script[..k + 1][0] == script[0] && script[..k + 1][1..] == script[1..][..k];
    }
  }

  /** Stopping a run after k iterations gives the first part of its log and of its
      states: what is shown of all runs is shown of every moment of a run. */
  lemma {:induction false} RunPrefix(r: Rules, limit: nat, t: Table, script: seq<FourReplies>, k: nat, run: Step)
    requires k <= |script| && RunTable(r, limit, t, script) == Ok(run)
    ensures var part := RunTable(r, limit, t, script[..k]);
            part.Ok? && part.value.log <= run.log && part.value.states <= run.states
    decreases |script|
  {
    hide StepTable;
    if k > 0 && t.state.phase != TerminalPhase {
      var step := StepTable(r, limit, t, script[0]).value;
      var rest := RunTable(r, limit, step.table, script[1..]).value;
      RunPrefix(r, limit, step.table, script[1..], k - 1, rest);
      assert script[..k][1..] == script[1..][..k - 1];
    }
  }

  lemma OpeningMeasure(wall: seq<Tile>, dealer: SeatIx, start: State)
    requires IsDeck(wall) && InitialState(wall, dealer) == Ok(start)
    ensures Inv(start) && Measure(start) <= 236
  {
    hide Inv;
    hide InitialState;
    hide IsDeck;
    DealIsTotal(wall, dealer);
    DeckFacts(wall);
    assert forall i: SeatIx :: OpeningSeat(start.seats[i], dealer, i);
    assert OpeningSeat(start.seats[0], dealer, 0) && OpeningSeat(start.seats[1], dealer, 1);
    assert OpeningSeat(start.seats[2], dealer, 2) && OpeningSeat(start.seats[3], dealer, 3);
    assert HandTiles(start) == 53;
  }

  /** A hand dealt from any shuffle is over after at most 236 main-loop iterations. */
  lemma HandEndsWithin236Steps(r: Rules, limit: nat, wall: seq<Tile>, dealer: SeatIx, start: State,
                               auto: FourFlags, script: seq<FourReplies>)
    requires IsDeck(wall) && InitialState(wall, dealer) == Ok(start)
    requires ValidRules(r) && Polite(script) && |script| >= 236
    ensures var run := RunTable(r, limit, Opening(start, auto), script);
            run.Ok? && Inv(run.value.table.state) && run.value.table.state.phase == TerminalPhase
  {
    hide Inv;
    hide InitialState;
    hide IsDeck;
    hide RunTable;
    OpeningMeasure(wall, dealer, start);
    RunEnds(r, limit, Opening(start, auto), script);
  }
}
