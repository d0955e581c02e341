/** The pending prompt of a seat session (sessions/mux.py) and its one-shot timers
    (sessions/timers.py). Each stretch of code between two awaits is one atomic
    step, and steps may come in any order. */
module Session {
  import opened Lists
  import opened GameTypes

  datatype SeatState = Unbound | Live | Held

  datatype Prompt = Prompt(id: nat, legal: seq<Action>, default: Action)

  /** How a prompt's future is resolved: with a result, with SeatHoldExpired, or by
      the cancellation of the task that awaits it. */
  datatype Outcome = Chosen(action: Action) | HoldExpired | Cancelled

  /** Where the coroutine that issued a prompt is. */
  datatype Waiter = Sending | Awaiting | Gone

  datatype Pending = Pending(prompt: Prompt, outcome: Option<Outcome>, armed: bool, waiter: Waiter)

  /** All prompts so far, the one in the pending slot, and whether the seat-hold
      timer is armed. */
  datatype Session = Session(state: SeatState, prompts: seq<Pending>, pending: Option<nat>, hold: bool)

  const NEW_SESSION := Session(Unbound, [], None, false)

  datatype Step =
    | Attach                          // attach to an UNBOUND seat
    | Resume                          // attach to a HELD seat
    | SocketDropped
    | Decide(prompt: Prompt)          // decide, up to its first await
    | PromptSent(n: nat)              // the PROMPT frame is out; decide awaits its future
    | DecideReturns(n: nat)           // the future is done; decide runs its finally block
    | DecideCancelled(n: nat)         // the task inside decide is cancelled
    | ActionArrives(id: nat, action: Action)
    | DeadlineFires(n: nat)           // the deadline timer of prompt n
    | HoldFires
    | Detach                          // graceful_detach, after the ack is sent
    | HandEnds                        // _resolve_pending_and_teardown
    | NextHand                        // begin_next_hand, up to its first await
    | Shutdown                        // shutdown, after the socket is closed

  // --- what the steps do ---

  /** A prompt is outstanding: in the slot, and not resolved. */
  predicate Outstanding(s: Session) {
    s.pending.Some? && s.pending.value < |s.prompts| && s.prompts[s.pending.value].outcome.None?
  }

  /** set_result and set_exception: None is InvalidStateError, on a future that is done. */
  function Resolve(s: Session, n: nat, o: Outcome): Option<Session>
    requires n < |s.prompts|
  {
    if s.prompts[n].outcome.Some? then None
    else Some(s.(prompts := s.prompts[n := s.prompts[n].(outcome := Some(o))]))
  }

  function Disarm(s: Session, n: nat): Session
    requires n < |s.prompts|
  {
    s.(prompts := s.prompts[n := s.prompts[n].(armed := false)])
  }

  function Teardown(s: Session): Session { s.(state := Unbound, pending := None, hold := false) }

  /** Disarm the deadline of an outstanding prompt and resolve it. */
  function Settle(s: Session, o: Outcome): Option<Session> {
    if Outstanding(s) then Resolve(Disarm(s, s.pending.value), s.pending.value, o) else Some(s)
  }

  function TornDown(r: Option<Session>): Option<Session> {
    match r
    case Some(s) => Some(Teardown(s))
    case None => None
  }

  function DefaultOf(s: Session): Outcome {
    if Outstanding(s) then Chosen(s.prompts[s.pending.value].prompt.default) else HoldExpired
  }

  /** decide: only one prompt may be outstanding. */
  function StartDecide(s: Session, p: Prompt): Session {
    if Outstanding(s) then s
    else s.(prompts := s.prompts + [Pending(p, None, true, if s.state == Live then Sending else Awaiting)],
            pending := Some(|s.prompts|))
  }

  /** The finally block of decide. */
  function FinishDecide(s: Session, n: nat): Session
    requires n < |s.prompts|
  {
    var t := Disarm(s, n);
    t.(prompts := t.prompts[n := t.prompts[n].(waiter := Gone)],
       pending := if s.pending == Some(n) then None else s.pending)
  }

  /** Cancelling decide while it awaits cancels the future, and the finally block runs
      when decide is resumed, as for any other outcome. While it still sends the PROMPT,
      cancelling leaves everything as it is and nobody waits any more. */
  function CancelDecide(s: Session, n: nat): Session
    requires n < |s.prompts|
  {
    match s.prompts[n].waiter
    case Awaiting => if s.prompts[n].outcome.None? then Resolve(s, n, Cancelled).value else s
    case Sending => s.(prompts := s.prompts[n := s.prompts[n].(waiter := Gone)])
    case Gone => s
  }

  /** handle_action: the slot's prompt, under its own id, with a legal action. */
  predicate Accepts(s: Session, id: nat, a: Action) {
    && Outstanding(s)
    && s.prompts[s.pending.value].prompt.id == id
    && a in s.prompts[s.pending.value].prompt.legal
  }

  /** One atomic step. A step that is not enabled does nothing. */
  function Take(s: Session, e: Step): Option<Session> {
    match e
    case Attach => Some(if s.state == Unbound then s.(state := Live) else s)
    case Resume => Some(if s.state == Held then s.(state := Live, hold := false) else s)
    case SocketDropped => Some(if s.state == Live then s.(state := Held, hold := true) else s)
    case Decide(p) => Some(StartDecide(s, p))
    case PromptSent(n) =>
      Some(if n < |s.prompts| && s.prompts[n].waiter == Sending
           then s.(prompts := s.prompts[n := s.prompts[n].(waiter := Awaiting)]) else s)
    case DecideReturns(n) =>
      Some(if n < |s.prompts| && s.prompts[n].waiter == Awaiting && s.prompts[n].outcome.Some?
           then FinishDecide(s, n) else s)
    case DecideCancelled(n) => Some(if n < |s.prompts| then CancelDecide(s, n) else s)
    case ActionArrives(id, a) => if Accepts(s, id, a) then Resolve(s, s.pending.value, Chosen(a)) else Some(s)
    case DeadlineFires(n) =>
      // The callback looks at the slot, whichever prompt's timer it was.
      if n < |s.prompts| && s.prompts[n].armed then
        var t := Disarm(s, n);
        if Outstanding(t) then Resolve(t, t.pending.value, DefaultOf(t)) else Some(t)
      else Some(s)
    case HoldFires =>
      if !s.hold then Some(s)
      else if s.state != Held then Some(s.(hold := false))
      else TornDown(Settle(s.(hold := false), HoldExpired))
    case Detach => TornDown(Settle(s, HoldExpired))
    case HandEnds => TornDown(Settle(s, HoldExpired))
    case NextHand => (
      match Settle(s, HoldExpired)
      case Some(t) => Some(t.(pending := None, hold := t.hold && t.state != Held))
      case None => None)
    case Shutdown => TornDown(Settle(s, DefaultOf(s)))
  }

  // --- what every interleaving keeps ---

  /** An unresolved prompt is the one in the slot and its deadline is armed; a
      resolved one has a legal action, its default, SeatHoldExpired or a cancellation. */
  predicate PromptOk(s: Session, n: nat)
    requires n < |s.prompts|
  {
    match s.prompts[n].outcome
    case None => s.pending == Some(n) && s.prompts[n].armed
    case Some(Chosen(a)) => a in s.prompts[n].prompt.legal || a == s.prompts[n].prompt.default
    case Some(_) => true
  }

  ghost predicate Coherent(s: Session) {
    && (s.pending.Some? ==> s.pending.value < |s.prompts|)
    && forall n :: 0 <= n < |s.prompts| ==> PromptOk(s, n)
  }

  /** The prompts of s are still there in t, and those that were resolved in s are
      resolved in the same way in t. */
  ghost predicate Extends(s: Session, t: Session) {
    && |s.prompts| <= |t.prompts|
    && (forall n :: 0 <= n < |s.prompts| ==> t.prompts[n].prompt == s.prompts[n].prompt)
    && forall n :: 0 <= n < |s.prompts| && s.prompts[n].outcome.Some? ==> t.prompts[n].outcome == s.prompts[n].outcome
  }

  /** Which outcome a step may give to a prompt that is waiting. */
  predicate Explains(p: Prompt, n: nat, e: Step, o: Outcome) {
    match e
    case ActionArrives(id, a) => id == p.id && a in p.legal && o == Chosen(a)
    case DeadlineFires(_) => o == Chosen(p.default)
    case Shutdown => o == Chosen(p.default)
    case HoldFires => o == HoldExpired
    case Detach => o == HoldExpired
    case HandEnds => o == HoldExpired
    case NextHand => o == HoldExpired
    case DecideCancelled(m) => m == n && o == Cancelled
    case _ => false
  }

  /** t is a fit successor of s under e. */
  ghost predicate SafeStep(s: Session, e: Step, t: Session) {
    && Coherent(t) && Extends(s, t)
    && forall n :: 0 <= n < |s.prompts| && s.prompts[n].outcome.None? && t.prompts[n].outcome.Some? ==>
         Explains(s.prompts[n].prompt, n, e, t.prompts[n].outcome.value)
  }

  /** Whatever is still waiting is in the slot. */
  lemma OnlyTheSlotWaits(s: Session)
    requires Coherent(s)
    ensures forall n :: 0 <= n < |s.prompts| && s.prompts[n].outcome.None? ==> Outstanding(s) && s.pending == Some(n)
  {
    forall n | 0 <= n < |s.prompts| && s.prompts[n].outcome.None?
      ensures Outstanding(s) && s.pending == Some(n)
    {
      assert PromptOk(s, n);
    }
  }

  lemma SettleIsSafe(s: Session, e: Step, o: Outcome)
    requires Coherent(s)
    requires Outstanding(s) ==> Explains(s.prompts[s.pending.value].prompt, s.pending.value, e, o)
    ensures Settle(s, o).Some? && SafeStep(s, e, Settle(s, o).value) && !Outstanding(Settle(s, o).value)
    ensures Settle(s, o).value.state == s.state
  {
    OnlyTheSlotWaits(s);
    forall n | 0 <= n < |s.prompts| ensures PromptOk(Settle(s, o).value, n) {
      assert PromptOk(s, n);
    }
  }

  /** Emptying the slot is safe once its prompt is resolved. */
  lemma EmptySlot(s: Session, e: Step, t: Session, state: SeatState, hold: bool)
    requires SafeStep(s, e, t) && !Outstanding(t)
    ensures SafeStep(s, e, t.(state := state, pending := None, hold := hold))
  {
    OnlyTheSlotWaits(t);
    forall n | 0 <= n < |t.prompts| ensures PromptOk(t.(state := state, pending := None, hold := hold), n) {
      assert PromptOk(t, n);
    }
  }

  lemma StartIsSafe(s: Session, p: Prompt)
    requires Coherent(s)
    ensures SafeStep(s, Decide(p), StartDecide(s, p))
  {
    OnlyTheSlotWaits(s);
    var t := StartDecide(s, p);
    forall n | 0 <= n < |t.prompts| ensures PromptOk(t, n) {
      assert n < |s.prompts| ==> PromptOk(s, n);
    }
  }

  lemma FinishIsSafe(s: Session, e: Step, n: nat)
    requires Coherent(s) && n < |s.prompts| && s.prompts[n].outcome.Some?
    ensures SafeStep(s, e, FinishDecide(s, n))
  {
    var t := FinishDecide(s, n);
    forall m | 0 <= m < |t.prompts| ensures PromptOk(t, m) {
      assert PromptOk(s, m);
    }
  }

  lemma CancelIsSafe(s: Session, n: nat)
    requires Coherent(s) && n < |s.prompts|
    ensures SafeStep(s, DecideCancelled(n), CancelDecide(s, n))
  {
    var t := CancelDecide(s, n);
    forall m | 0 <= m < |t.prompts| ensures PromptOk(t, m) {
      assert PromptOk(s, m);
    }
  }

  lemma DeadlineIsSafe(s: Session, n: nat)
    requires Coherent(s) && n < |s.prompts| && s.prompts[n].armed
    ensures Take(s, DeadlineFires(n)).Some? && SafeStep(s, DeadlineFires(n), Take(s, DeadlineFires(n)).value)
  {
    OnlyTheSlotWaits(s);
    var t := Take(s, DeadlineFires(n)).value;
    forall m | 0 <= m < |t.prompts| ensures PromptOk(t, m) {
      assert PromptOk(s, m);
    }
  }

  lemma ActionIsSafe(s: Session, id: nat, a: Action)
    requires Coherent(s) && Accepts(s, id, a)
    ensures Take(s, ActionArrives(id, a)).Some? && SafeStep(s, ActionArrives(id, a), Take(s, ActionArrives(id, a)).value)
  {
    var t := Take(s, ActionArrives(id, a)).value;
    forall m | 0 <= m < |t.prompts| ensures PromptOk(t, m) {
      assert PromptOk(s, m);
    }
  }

  /** Steps that touch no future and keep the slot. */
  lemma QuietIsSafe(s: Session, e: Step, t: Session)
    requires Coherent(s) && t.pending == s.pending && |t.prompts| == |s.prompts|
    requires forall n :: 0 <= n < |s.prompts| ==> t.prompts[n] == s.prompts[n].(waiter := t.prompts[n].waiter)
    ensures SafeStep(s, e, t)
  {
    forall n | 0 <= n < |t.prompts| ensures PromptOk(t, n) {
      assert PromptOk(s, n) && t.prompts[n] == s.prompts[n].(waiter := t.prompts[n].waiter);
    }
  }

  lemma TeardownIsSafe(s: Session, e: Step, o: Outcome, hold: bool)
    requires Coherent(s)
    requires Outstanding(s) ==> Explains(s.prompts[s.pending.value].prompt, s.pending.value, e, o)
    ensures TornDown(Settle(s.(hold := hold), o)).Some?
    ensures SafeStep(s, e, TornDown(Settle(s.(hold := hold), o)).value)
  {
    var h := s.(hold := hold);
    QuietIsSafe(s, e, h);
    SettleIsSafe(h, e, o);
    EmptySlot(h, e, Settle(h, o).value, Unbound, false);
  }

  /** Every step, in whatever order steps come: no future is resolved twice, no
      waiting prompt is lost, and each resolution is the one its cause calls for. */
  lemma StepIsSafe(s: Session, e: Step)
    requires Coherent(s)
    ensures Take(s, e).Some? && SafeStep(s, e, Take(s, e).value)
  {
    hide SafeStep;
    hide Coherent;
    QuietIsSafe(s, e, s);
    match e
    case Attach => QuietIsSafe(s, e, Take(s, e).value);
    case Resume => QuietIsSafe(s, e, Take(s, e).value);
    case SocketDropped => QuietIsSafe(s, e, Take(s, e).value);
    case Decide(p) => StartIsSafe(s, p);
    case PromptSent(n) => QuietIsSafe(s, e, Take(s, e).value);
    case DecideReturns(n) =>
      if n < |s.prompts| && s.prompts[n].outcome.Some? {
        FinishIsSafe(s, e, n);
      }
    case DecideCancelled(n) =>
      if n < |s.prompts| {
        CancelIsSafe(s, n);
      }
    case ActionArrives(id, a) =>
      if Accepts(s, id, a) {
        ActionIsSafe(s, id, a);
      }
    case DeadlineFires(n) =>
      if n < |s.prompts| && s.prompts[n].armed {
        DeadlineIsSafe(s, n);
      }
    case HoldFires =>
      QuietIsSafe(s, e, s.(hold := false));
      TeardownIsSafe(s, e, HoldExpired, false);
    case Detach => TeardownIsSafe(s, e, HoldExpired, s.hold);
    case HandEnds => TeardownIsSafe(s, e, HoldExpired, s.hold);
    case NextHand =>
      SettleIsSafe(s, e, HoldExpired);
      var t := Settle(s, HoldExpired).value;
      EmptySlot(s, e, t, t.state, t.hold && t.state != Held);
    case Shutdown => TeardownIsSafe(s, e, DefaultOf(s), s.hold);
  }

  function Run(s: Session, steps: seq<Step>): Option<Session>
    decreases |steps|
  {
    if steps == [] then Some(s)
    else
      match Take(s, steps[0])
      case Some(t) => Run(t, steps[1..])
      case None => None
  }

  /** The same over whole runs: each future is resolved at most once, for good. */
  lemma {:induction false} RunIsSafe(s: Session, steps: seq<Step>)
    requires Coherent(s)
    ensures Run(s, steps).Some? && Coherent(Run(s, steps).value) && Extends(s, Run(s, steps).value)
    decreases |steps|
  {
    hide Coherent;
    if steps != [] {
      StepIsSafe(s, steps[0]);
      assert Coherent(Take(s, steps[0]).value) && Extends(s, Take(s, steps[0]).value);
      hide Take;
      RunIsSafe(Take(s, steps[0]).value, steps[1..]);
    }
  }

  lemma SessionsAreSafe(steps: seq<Step>)
    ensures Run(NEW_SESSION, steps).Some? && Coherent(Run(NEW_SESSION, steps).value)
  {
    RunIsSafe(NEW_SESSION, steps);
  }

  /** A waiting prompt can always still be resolved: its deadline is armed, and
      when it fires the prompt gets its default. */
  lemma DeadlineResolves(s: Session, n: nat)
    requires Coherent(s) && n < |s.prompts| && s.prompts[n].outcome.None?
    ensures Take(s, DeadlineFires(n)).Some?
    ensures Take(s, DeadlineFires(n)).value.prompts[n].outcome == Some(Chosen(s.prompts[n].prompt.default))
  {
    assert PromptOk(s, n);
  }

  /** What a waiting prompt gets from each step, and that no other step resolves it: the
      right action under the right id, its default from any deadline that is still armed and
      from a shutdown, SeatHoldExpired from an expired hold of a held seat, a detach, the end
      of a hand and the next one, a cancellation from its own decide once that awaits it. */
  lemma WaitingPromptGets(s: Session, e: Step)
    requires Coherent(s) && Outstanding(s)
    ensures var n := s.pending.value;
            var p := s.prompts[n].prompt;
            Take(s, e).Some? && |Take(s, e).value.prompts| >= |s.prompts|
            && Take(s, e).value.prompts[n].outcome ==
               match e
               case ActionArrives(id, a) => if id == p.id && a in p.legal then Some(Chosen(a)) else None
               case DeadlineFires(m) => if m < |s.prompts| && s.prompts[m].armed then Some(Chosen(p.default)) else None
               case HoldFires => if s.hold && s.state == Held then Some(HoldExpired) else None
               case Detach => Some(HoldExpired)
               case HandEnds => Some(HoldExpired)
               case NextHand => Some(HoldExpired)
               case Shutdown => Some(Chosen(p.default))
               case DecideCancelled(m) => if m == n && s.prompts[n].waiter == Awaiting then Some(Cancelled) else None
               case _ => None
  {
    StepIsSafe(s, e);
    hide Coherent;
  }

  /** The steps that end a hand or a connection. */
  predicate Ends(e: Step) { e.Detach? || e.HandEnds? || e.NextHand? || e.Shutdown? }

  /** Whatever has happened before, the end of a hand or of a connection leaves nobody
      waiting: every prompt there has ever been is resolved and the slot is free. All but
      the next hand also take the seat's connection and hold away. */
  lemma NobodyWaitsAfterEnd(steps: seq<Step>, e: Step)
    requires Ends(e) && Run(NEW_SESSION, steps).Some?
    ensures Take(Run(NEW_SESSION, steps).value, e).Some?
    ensures var s := Run(NEW_SESSION, steps).value;
            var t := Take(s, e).value;
            && t.pending == None
            && (forall n :: 0 <= n < |t.prompts| ==> t.prompts[n].outcome.Some?)
            && (if e.NextHand? then t.state == s.state && t.hold == (s.hold && s.state != Held)
                else t.state == Unbound && !t.hold)
  {
    SessionsAreSafe(steps);
    hide Run;
    var s := Run(NEW_SESSION, steps).value;
    StepIsSafe(s, e);
    var t := Take(s, e).value;
    OnlyTheSlotWaits(t);
    SlotAfterEnd(s, e);
  }

  lemma SlotAfterEnd(s: Session, e: Step)
    requires Coherent(s) && Ends(e)
    ensures Take(s, e).Some? && Take(s, e).value.pending == None
    ensures var t := Take(s, e).value;
            if e.NextHand? then t.state == s.state && t.hold == (s.hold && s.state != Held)
            else t.state == Unbound && !t.hold
  {
    hide Coherent;
    assert s.pending.Some? ==> s.pending.value < |s.prompts| by { SlotIsPrompt(s); }
  }

  lemma SlotIsPrompt(s: Session)
    requires Coherent(s)
    ensures s.pending.Some? ==> s.pending.value < |s.prompts|
  {
  }

  /** Where the seat's connection stands after any other step: attaching makes an unbound seat
      live, resuming a held one; only a live seat's drop holds the seat and arms the timer;
      an expired hold of a held seat unbinds it; nothing else touches either. */
  lemma SeatFollows(s: Session, e: Step)
    requires Coherent(s) && !Ends(e)
    ensures Take(s, e).Some?
    ensures Take(s, e).value.state ==
            match e
            case Attach => if s.state == Unbound then Live else s.state
            case Resume => if s.state == Held then Live else s.state
            case SocketDropped => if s.state == Live then Held else s.state
            case HoldFires => if s.hold && s.state == Held then Unbound else s.state
            case _ => s.state
    ensures Take(s, e).value.hold ==
            match e
            case Resume => s.hold && s.state != Held
            case SocketDropped => s.hold || s.state == Live
            case HoldFires => false
            case _ => s.hold
  {
    StepIsSafe(s, e);
    SlotIsPrompt(s);
    hide Coherent;
  }

  /** A prompt is issued into the slot, unresolved and with its deadline armed, exactly when
      none is outstanding; decide awaits it at once if no connection has to be sent to. Once
      it is resolved and decide returns, the slot is free again. */
  lemma PromptIssued(s: Session, p: Prompt)
    requires Coherent(s)
    ensures Take(s, Decide(p)).Some?
    ensures var t := Take(s, Decide(p)).value;
            if Outstanding(s) then t == s
            else
              && t.prompts == s.prompts + [Pending(p, None, true, if s.state == Live then Sending else Awaiting)]
              && t.pending == Some(|s.prompts|) && Outstanding(t)
  {
    hide Coherent;
  }

  lemma PromptReturned(s: Session, n: nat)
    requires Coherent(s) && n < |s.prompts| && s.prompts[n].waiter == Awaiting && s.prompts[n].outcome.Some?
    ensures Take(s, DecideReturns(n)).Some?
    ensures var t := Take(s, DecideReturns(n)).value;
            && t.pending == (if s.pending == Some(n) then None else s.pending)
            && t.prompts == s.prompts[n := s.prompts[n].(armed := false, waiter := Gone)]
  {
    hide Coherent;
  }

  /** Cancelling decide frees the slot, unless the cancellation comes while the
      PROMPT is still being sent: then the prompt stays outstanding with nobody
      waiting, and the next decide is refused until the deadline. */
  lemma CancelFreesSlot(s: Session, n: nat)
    requires Coherent(s) && Outstanding(s) && s.pending == Some(n) && s.prompts[n].waiter != Gone
    ensures Take(s, DecideCancelled(n)).Some?
    ensures Outstanding(Take(s, DecideCancelled(n)).value) <==> s.prompts[n].waiter == Sending
  {
  }

  lemma AbandonedPromptRefusesNext(p: Prompt, q: Prompt)
    ensures var s := Run(NEW_SESSION, [Attach, Decide(p), DecideCancelled(0)]);
            && s.Some? && Outstanding(s.value) && s.value.prompts[0].waiter == Gone
            && Take(s.value, Decide(q)) == s
  {
    var live := NEW_SESSION.(state := Live);
    var asked := StartDecide(live, p);
    var steps := [Attach, Decide(p), DecideCancelled(0)];
    assert steps[1..] == [Decide(p), DecideCancelled(0)];
    assert steps[1..][1..] == [DecideCancelled(0)];
    assert steps[1..][1..][1..] == [];
    assert Run(CancelDecide(asked, 0), []) == Some(CancelDecide(asked, 0));
    assert Run(asked, [DecideCancelled(0)]) == Some(CancelDecide(asked, 0));
    assert Run(live, [Decide(p), DecideCancelled(0)]) == Some(CancelDecide(asked, 0));
  }

  // --- timers.py ---

  /** At most one scheduled callback. `scheduled` is what the event loop still holds
      for this timer; handles are numbered as they are issued. */
  class IdempotentTimer {
    var handle: Option<nat>
    var issued: nat
    ghost var scheduled: set<nat>

    ghost predicate Valid()
      reads this
    {
      && scheduled == (if handle.Some? then {handle.value} else {})
      && (handle.Some? ==> handle.value < issued)
    }

    predicate Armed()
      reads this
    {
      handle.Some?
    }

    constructor ()
      ensures Valid() && !Armed()
    {
      handle, issued, scheduled := None, 0, {};
    }

    /** arm: any earlier schedule is cancelled, and its callback never fires. */
    method Arm()
      requires Valid()
      modifies this
      ensures Valid() && Armed() && scheduled == {old(issued)} && old(issued) !in old(scheduled)
    {
      Cancel();
      handle := Some(issued);
      scheduled := scheduled + {issued};
      issued := issued + 1;
    }

    method Cancel()
      requires Valid()
      modifies this
      ensures Valid() && !Armed() && scheduled == {} && issued == old(issued)
    {
      if handle.Some? {
        scheduled := scheduled - {handle.value};
        handle := None;
      }
    }

    /** The loop fires a callback it still holds: the timer is unarmed before the
        user's callback runs. */
    method Fire(h: nat)
      requires Valid() && h in scheduled
      modifies this
      ensures Valid() && !Armed() && scheduled == {} && issued == old(issued)
    {
      scheduled := scheduled - {h};
      handle := None;
    }
  }

  // --- the session object ---

  class SeatSession {
    var state: SeatState
    var prompts: seq<Pending>
    var pending: Option<nat>
    const holdTimer: IdempotentTimer

    function Model(): Session
      reads this, holdTimer
    {
      Session(state, prompts, pending, holdTimer.Armed())
    }

    ghost predicate Valid()
      reads this, holdTimer
    {
      Coherent(Model()) && holdTimer.Valid()
    }

    constructor ()
      ensures Valid() && Model() == NEW_SESSION && fresh(holdTimer)
    {
      state, prompts, pending := Unbound, [], None;
      holdTimer := new IdempotentTimer();
    }

    predicate HasPendingPrompt()
      requires Coherent(Model())
      reads this, holdTimer
      ensures HasPendingPrompt() == Outstanding(Model())
    {
      pending.Some? && prompts[pending.value].outcome.None?
    }

    /** future.set_result and future.set_exception; a done future is refused. */
    method SetOutcome(n: nat, o: Outcome)
      requires n < |prompts| && prompts[n].outcome.None?
      modifies this`prompts
      ensures Some(Model()) == Resolve(old(Model()), n, o)
    {
      prompts := prompts[n := prompts[n].(outcome := Some(o))];
    }

    method CancelDeadline(n: nat)
      requires n < |prompts|
      modifies this`prompts
      ensures Model() == Disarm(old(Model()), n)
    {
      prompts := prompts[n := prompts[n].(armed := false)];
    }

    /** The block shared by graceful_detach, the hold timer, begin_next_hand,
        shutdown and the end of a hand. */
    method SettlePending(o: Outcome)
      requires Coherent(Model())
      modifies this`prompts
      ensures Some(Model()) == Settle(old(Model()), o)
    {
      if HasPendingPrompt() {
        CancelDeadline(pending.value);
        SetOutcome(pending.value, o);
      }
    }

    method TeardownToUnbound()
      requires holdTimer.Valid()
      modifies this`state, this`pending, holdTimer
      ensures Model() == Teardown(old(Model())) && holdTimer.Valid()
    {
      state := Unbound;
      pending := None;
      holdTimer.Cancel();
    }

    method OnAttach()
      requires Valid()
      modifies this, holdTimer
      ensures Valid() && Some(Model()) == Take(old(Model()), if old(state) == Held then Resume else Attach)
    {
      StepIsSafe(Model(), if state == Held then Resume else Attach);
      hide Coherent;
      if state == Unbound {
        state := Live;
      } else if state == Held {
        holdTimer.Cancel();
        state := Live;
      }
    }

    method OnSocketDropped()
      requires Valid()
      modifies this, holdTimer
      ensures Valid() && Some(Model()) == Take(old(Model()), SocketDropped)
    {
      StepIsSafe(Model(), SocketDropped);
      hide Coherent;
      if state != Live {
        return;
      }
      state := Held;
      holdTimer.Arm();
    }

    /** decide, up to its first await: the assertion fails on an outstanding prompt. */
    method BeginDecide(p: Prompt) returns (ok: bool)
      requires Valid()
      modifies this
      ensures Valid() && ok == !Outstanding(old(Model()))
      ensures Some(Model()) == Take(old(Model()), Decide(p))
    {
      StepIsSafe(Model(), Decide(p));
      ok := !HasPendingPrompt();
      hide Coherent;
      if ok {
        pending := Some(|prompts|);
        prompts := prompts + [Pending(p, None, true, if state == Live then Sending else Awaiting)];
      }
    }

    /** The finally block of decide. */
    method EndDecide(n: nat)
      requires Valid() && n < |prompts| && prompts[n].waiter == Awaiting && prompts[n].outcome.Some?
      modifies this
      ensures Valid() && Some(Model()) == Take(old(Model()), DecideReturns(n))
    {
      StepIsSafe(Model(), DecideReturns(n));
      hide Coherent;
      CancelDeadline(n);
      if pending == Some(n) {
        pending := None;
      }
      prompts := prompts[n := prompts[n].(waiter := Gone)];
    }

    method OnPromptDeadline(n: nat)
      requires Valid() && n < |prompts| && prompts[n].armed
      modifies this
      ensures Valid() && Some(Model()) == Take(old(Model()), DeadlineFires(n))
    {
      StepIsSafe(Model(), DeadlineFires(n));
      assert pending.Some? ==> pending.value < |prompts|;
      hide Coherent;
      CancelDeadline(n);
      if pending.None? || prompts[pending.value].outcome.Some? {
        return;
      }
      SetOutcome(pending.value, Chosen(prompts[pending.value].prompt.default));
    }

    /** handle_action. The reply is the wire error, if any. */
    method HandleAction(id: nat, a: Action) returns (error: string)
      requires Valid()
      modifies this
      ensures Valid() && Some(Model()) == Take(old(Model()), ActionArrives(id, a))
      ensures error == "" <==> Accepts(old(Model()), id, a)
      ensures error == "no_outstanding_prompt" <==> !Outstanding(old(Model()))
      ensures error == "stale_action" <==>
              Outstanding(old(Model())) && id != old(Model()).prompts[old(Model()).pending.value].prompt.id
    {
      StepIsSafe(Model(), ActionArrives(id, a));
      var outstanding := HasPendingPrompt();
      hide Coherent;
      if !outstanding {
        return "no_outstanding_prompt";
      }
      var prompt := prompts[pending.value].prompt;
      if id != prompt.id {
        return "stale_action";
      }
      if a !in prompt.legal {
        return "illegal_action";
      }
      SetOutcome(pending.value, Chosen(a));
      error := "";
    }

    method OnHoldTimerFired(h: nat)
      requires Valid() && h in holdTimer.scheduled
      modifies this, holdTimer
      ensures Valid() && Some(Model()) == Take(old(Model()), HoldFires)
    {
      StepIsSafe(Model(), HoldFires);
      QuietIsSafe(Model(), HoldFires, Model().(hold := false));
      holdTimer.Fire(h);
      if state != Held {
        return;
      }
      SettlePending(HoldExpired);
      hide Coherent;
      TeardownToUnbound();
    }

    /** graceful_detach, after the acknowledgement. */
    method GracefulDetach()
      requires Valid()
      modifies this, holdTimer
      ensures Valid() && Some(Model()) == Take(old(Model()), Detach)
    {
      StepIsSafe(Model(), Detach);
      SettlePending(HoldExpired);
      hide Coherent;
      TeardownToUnbound();
    }

    method ResolvePendingAndTeardown()
      requires Valid()
      modifies this, holdTimer
      ensures Valid() && Some(Model()) == Take(old(Model()), HandEnds)
    {
      StepIsSafe(Model(), HandEnds);
      SettlePending(HoldExpired);
      hide Coherent;
      TeardownToUnbound();
    }

    method BeginNextHand()
      requires Valid()
      modifies this, holdTimer
      ensures Valid() && Some(Model()) == Take(old(Model()), NextHand)
    {
      StepIsSafe(Model(), NextHand);
      SettlePending(HoldExpired);
      hide Coherent;
      pending := None;
      if state == Held {
        holdTimer.Cancel();
      }
    }

    /** shutdown, after the socket is closed. */
    method FinishShutdown()
      requires Valid()
      modifies this, holdTimer
      ensures Valid() && Some(Model()) == Take(old(Model()), Shutdown)
    {
      StepIsSafe(Model(), Shutdown);
      var o := if HasPendingPrompt() then Chosen(prompts[pending.value].prompt.default) else HoldExpired;
      SettlePending(o);
      hide Coherent;
      TeardownToUnbound();
    }
  }
}
