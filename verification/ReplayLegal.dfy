/** What replaying guarantees of any record, whoever wrote it: it makes legal moves only.
    And the older form of record, in which no resolution is written for an exposed kong,
    is replayed like the present one. */
module ReplayLegal {
  import opened Lists
  import opened Tiles
  import opened GameTypes
  import opened Legality
  import opened Transition
  import opened Invariant
  import opened Outcomes
  import opened Records
  import opened Manager
  import opened Safety
  import opened Replay

  // --- any record ---

  /** u comes from s by an action that is legal in s. */
  ghost predicate Follows(r: Rules, s: State, u: State) {
    exists seat, a :: Legal(r, s, seat, a) && ApplyAction(r, s, seat, a) == Ok(u)
  }

  function LastOf(s: State, xs: seq<State>): State { if xs == [] then s else xs[|xs| - 1] }

  /** Each of the states comes from the one before, the first from s. */
  ghost predicate Chain(r: Rules, s: State, xs: seq<State>) {
    xs == []
    || (var front := xs[..|xs| - 1];
        Chain(r, s, front) && Follows(r, LastOf(s, front), xs[|xs| - 1]))
  }

  lemma {:induction false} ChainConcat(r: Rules, s: State, xs: seq<State>, ys: seq<State>)
    requires Chain(r, s, xs) && Chain(r, LastOf(s, xs), ys)
    ensures Chain(r, s, xs + ys) && LastOf(s, xs + ys) == LastOf(LastOf(s, xs), ys)
    decreases |ys|
  {
    hide Follows;
    if ys == [] {
      assert xs + ys == xs;
    } else {
      var front := ys[..|ys| - 1];
      ChainConcat(r, s, xs, front);
      assert (xs + ys)[..|xs + ys| - 1] == xs + front;
    }
  }

  lemma OneFollows(r: Rules, s: State, seat: SeatIx, a: Action, u: State)
    requires ApplyAction(r, s, seat, a) == Ok(u)
    ensures Chain(r, s, [u]) && LastOf(s, [u]) == u
  {
    OkIsLegal(r, s, seat, a);
    hide Legal;
    hide ApplyAction;
    assert Follows(r, s, u);
    assert [u][..0] == [] && Chain(r, s, []);
  }

  lemma DecisionFollows(r: Rules, s: State, e: Event, u: State)
    requires ApplyEvent(r, s, e) == Ok(u)
    ensures Chain(r, s, [u]) && LastOf(s, [u]) == u
  {
    hide EventToAction;
    hide ApplyAction;
    hide Chain;
    var move := EventToAction(e).value;
    OneFollows(r, s, move.0, move.1, u);
  }

  lemma {:induction false} WindowFollows(r: Rules, s: State, window: seq<Event>, u: State, xs: seq<State>)
    requires ApplyWindow(r, s, window) == Ok((u, xs))
    ensures Chain(r, s, xs) && LastOf(s, xs) == u
  {
    hide ApplyEvent;
    hide Follows;
    if window != [] {
      var (mid, ys) := ApplyWindow(r, s, window[..|window| - 1]).value;
      WindowFollows(r, s, window[..|window| - 1], mid, ys);
      DecisionFollows(r, mid, window[|window| - 1], u);
      ChainConcat(r, s, ys, [u]);
    }
  }

  lemma EventFollows(r: Rules, rp: Replayer, e: Event, done: Replayed)
    requires ReplayEvent(r, rp, e) == Ok(done)
    ensures Chain(r, rp.state, done.states) && LastOf(rp.state, done.states) == done.now.state
  {
    hide ApplyEvent;
    hide ApplyAction;
    hide ApplyWindow;
    hide FindDecision;
    hide Follows;
    assert Chain(r, rp.state, []);
    hide Chain;
    match e
    case DiscardEvent(_, _, _, _, _) =>
      DecisionFollows(r, rp.state, e, done.now.state);
    case DecisionEvent(_, _, _, _, _, _, _) =>
      if OwnTurnKong(e) {
        DecisionFollows(r, rp.state, e, done.now.state);
      }
    case DrawEvent(_, _, _, _, _) =>
      if rp.window != [] {
        DecisionFollows(r, rp.state, FindDecision(rp.window, None).value, done.now.state);
      }
    case PassedEvent(_, _) =>
      WindowFollows(r, rp.state, rp.window, done.now.state, done.states);
    case ClaimedEvent(_, _, winner, _, _, _, _) =>
      DecisionFollows(r, rp.state, FindDecision(rp.window, Some(winner)).value, done.now.state);
    case HandEndEvent(_, _, winners, _, _, _, _, _, _, _, _) =>
      if winners != [] {
        OneFollows(r, rp.state, winners[0], Hu, done.now.state);
      }
    case _ =>
  }

  lemma {:induction false} EventsFollow(r: Rules, rp: Replayer, events: seq<Event>, done: Replayed)
    requires ReplayEvents(r, rp, events) == Ok(done)
    ensures Chain(r, rp.state, done.states) && LastOf(rp.state, done.states) == done.now.state
  {
    hide ReplayEvent;
    hide Follows;
    if events != [] {
      var before := ReplayEvents(r, rp, events[..|events| - 1]).value;
      var last := ReplayEvent(r, before.now, events[|events| - 1]).value;
      EventsFollow(r, rp, events[..|events| - 1], before);
      EventFollows(r, before.now, events[|events| - 1], last);
      ChainConcat(r, rp.state, before.states, last.states);
    }
  }

  lemma FollowsIsGood(r: Rules, s: State, u: State)
    requires Inv(s) && ValidRules(r) && Follows(r, s, u)
    ensures Inv(u)
  {
    hide Inv;
    hide Legal;
    hide ApplyAction;
    var seat, a :| Legal(r, s, seat, a) && ApplyAction(r, s, seat, a) == Ok(u);
    ApplyActionKeepsInvariant(r, s, seat, a);
  }

  lemma {:induction false} ChainIsGood(r: Rules, s: State, xs: seq<State>)
    requires Inv(s) && ValidRules(r) && Chain(r, s, xs)
    ensures forall k :: 0 <= k < |xs| ==> Inv(xs[k])
    ensures Inv(LastOf(s, xs))
    decreases |xs|
  {
    hide Inv;
    hide Follows;
    if xs != [] {
      var front := xs[..|xs| - 1];
      ChainIsGood(r, s, front);
      FollowsIsGood(r, LastOf(s, front), xs[|xs| - 1]);
      assert xs == front + [xs[|xs| - 1]];
    }
  }

  /** A record that can be replayed at all, even a forged one, stands for a hand played by
      the rules: the first state is the deal of its seed and dealer, each further one comes
      from the one before by a legal action, and all satisfy the invariant. */
  lemma ReplayIsLegal(r: Rules, events: seq<Event>, states: seq<State>)
    requires ValidRules(r) && ReplayRecord(r, events) == Ok(states)
    ensures states != [] && events != [] && events[0].HeaderEvent?
    ensures Start(r, events[0].seed, DealerFromHeader(events[0].seats)) == Ok(states[0])
    ensures Chain(r, states[0], states[1..])
    ensures forall k :: 0 <= k < |states| ==> Inv(states[k])
  {
    hide Start;
    hide DealerFromHeader;
    hide ReplayEvents;
    hide Inv;
    hide Follows;
    var seed, dealer := events[0].seed, DealerFromHeader(events[0].seats);
    var start := Start(r, seed, dealer).value;
    SeedDeals(r, seed, dealer);
    var run := ReplayEvents(r, Replayer(start, []), events[1..]).value;
    EventsFollow(r, Replayer(start, []), events[1..], run);
    assert states == [start] + run.states && states[1..] == run.states;
    ChainIsGood(r, start, run.states);
    hide Chain;
  }

  // --- records without a resolution for exposed kongs ---

  lemma {:induction false} KongFound(s: State, claimers: seq<SeatIx>, choices: FourChoices, auto: FourFlags, w: SeatIx)
    requires w in claimers
    requires forall i: SeatIx :: Chose(claimers, choices, i, DecideGang) <==> i == w
    ensures FindDecision(Events(DecisionLog(s, claimers, choices, auto)), None) == Ok(Decision(s, w, choices[w].action))
    decreases |claimers|
  {
    var seat := claimers[0];
    var d := Decision(s, seat, choices[seat].action);
    var head := [Logged(d, choices[seat].failure, auto[seat])];
    var rest := DecisionLog(s, claimers[1..], choices, auto);
    EventsConcat(head, rest);
    var events := Events(DecisionLog(s, claimers, choices, auto));
    assert Events(head) == [d] && events == [d] + Events(rest);
    assert events[0] == d && events[1..] == Events(rest);
    assert seat in claimers;
    if seat != w {
      assert !Chose(claimers, choices, seat, DecideGang);
      forall i: SeatIx ensures Chose(claimers[1..], choices, i, DecideGang) <==> i == w {
        ChoseStep(claimers, choices, i, DecideGang);
      }
      KongFound(s, claimers[1..], choices, auto, w);
    } else {
      assert Chose(claimers, choices, w, DecideGang);
    }
  }

  /** In a window whose only kong is w's, the decisions and the replacement draw alone, as
      older records have it, replay to the state that the kong led to. */
  lemma KongWithoutResolution(r: Rules, s: State, claimers: seq<SeatIx>, choices: FourChoices, auto: FourFlags, w: SeatIx,
                              after: State)
    requires s.phase == ClaimWindow && AllLegal(r, s, claimers, choices) && w in claimers && choices[w].action.Gang?
    requires forall i: SeatIx :: Chose(claimers, choices, i, DecideGang) <==> i == w
    requires ApplyAction(r, s, w, choices[w].action) == Ok(after)
    ensures ReplayEvents(r, Replayer(s, []), Events(DecisionLog(s, claimers, choices, auto)) + [Drawn(after)])
         == Ok(Replayed(Replayer(after, []), [after]))
  {
    hide Legal;
    hide ApplyAction;
    var decisions := Events(DecisionLog(s, claimers, choices, auto));
    DecisionsBuffered(r, s, [], claimers, choices, auto);
    assert [] + decisions == decisions;
    KongFound(s, claimers, choices, auto, w);
    DecisionRoundTrip(s, w, choices[w].action);
    assert decisions != [] by { DecisionsLogged(s, claimers, choices, auto); }
    hide DecisionLog;
    hide Events;
    hide AllLegal;
    hide Decision;
    hide FindDecision;
    DrawCloses(r, s, decisions, Decision(s, w, choices[w].action), after);
    ReplayOne(r, Replayer(s, decisions), Drawn(after));
    var none: seq<State> := [];
    ReplayTwo(r, Replayer(s, []), decisions, [Drawn(after)], Replayer(s, decisions), none, Replayer(after, []), [after]);
    assert none + [after] == [after];
  }

  lemma DrawCloses(r: Rules, s: State, window: seq<Event>, kong: Event, after: State)
    requires window != [] && FindDecision(window, None) == Ok(kong) && ApplyEvent(r, s, kong) == Ok(after)
    ensures ReplayEvent(r, Replayer(s, window), Drawn(after)) == Ok(Replayed(Replayer(after, []), [after]))
  {
    hide FindDecision;
    hide ApplyEvent;
  }
}
