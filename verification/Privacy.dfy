/** A seat's decision needs nothing but its own view: states that look the same to
    a seat offer it the same prompt. */
module Privacy {
  import opened Lists
  import opened Tiles
  import opened GameTypes
  import opened Legality
  import opened Records
  import opened Manager
  import opened Views

  /** An unmasked meld shows everything it is. */
  lemma OwnMeldsDetermined(a: seq<Meld>, b: seq<Meld>)
    requires ShowMelds(a, true) == ShowMelds(b, true)
    ensures a == b
  {
  }

  /** What a seat's view fixes about the state. */
  lemma ViewDetermines(s: State, u: State, seat: SeatIx)
    requires Project(s, Some(seat)) == Project(u, Some(seat))
    ensures s.seats[seat] == u.seats[seat]
    ensures s.roundWind == u.roundWind && s.phase == u.phase && s.actor == u.actor
    ensures s.lastDiscard == u.lastDiscard && (s.wall == [] <==> u.wall == [])
    ensures s.lastDrawn.Some? <==> u.lastDrawn.Some?
    ensures s.lastDrawn.Some? ==> s.lastDrawn.value.seat == u.lastDrawn.value.seat
    ensures s.lastDrawn.Some? && s.lastDrawn.value.seat == seat ==> s.lastDrawn == u.lastDrawn
  {
    var v, w := Project(s, Some(seat)), Project(u, Some(seat));
    assert v.seats[seat] == ShowSeat(s.seats[seat], true) && w.seats[seat] == ShowSeat(u.seats[seat], true);
    assert v.wallRemaining == |s.wall| && w.wallRemaining == |u.wall|;
    OwnMeldsDetermined(s.seats[seat].melds, u.seats[seat].melds);
  }

  /** Two states with the same projection for a seat give that seat the same legal
      actions, in the same order, and the same default, in both phases and through
      every kong, claim and win rule. */
  lemma PromptDependsOnViewOnly(r: Rules, s: State, u: State, seat: SeatIx, claim: bool)
    requires Project(s, Some(seat)) == Project(u, Some(seat))
    ensures LegalActions(r, s, seat) == LegalActions(r, u, seat)
    ensures DefaultAction(r, s, seat, claim) == DefaultAction(r, u, seat, claim)
  {
    ViewDetermines(s, u, seat);
    hide Project;
    hide RemoveFirst;
    assert SelfDrawWins(r, s, seat) <==> SelfDrawWins(r, u, seat);
    assert s.lastDiscard.Some? ==>
        (DiscardWins(r, s, seat, s.lastDiscard.value.tile) <==> DiscardWins(r, u, seat, u.lastDiscard.value.tile));
    hide SelfDrawWins;
    hide DiscardWins;
  }
}
