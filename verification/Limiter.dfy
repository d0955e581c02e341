/** The sliding-window rate limiter (server/ratelimit.py): lazily pruned deques
    against a plain count of the recorded events. Clock readings are arguments. */
module Limiter {

  type Times = seq<real>

  /** Keys are client addresses. */
  datatype Client = Client(ip: string)

  // --- one deque ---

  /** What _prune leaves: events at or before the cutoff go, from the left. */
  function Prune(dq: Times, cutoff: real): Times {
    if dq == [] || dq[0] > cutoff then dq else Prune(dq[1..], cutoff)
  }

  lemma {:induction false} PruneDropsExpired(dq: Times, cutoff: real)
    ensures var r := Prune(dq, cutoff);
            && |r| <= |dq| && r == dq[|dq| - |r|..]
            && forall i :: 0 <= i < |dq| - |r| ==> dq[i] <= cutoff
  {
    if dq != [] && dq[0] <= cutoff {
      PruneDropsExpired(dq[1..], cutoff);
    }
  }

  method PruneDeque(dq: Times, cutoff: real) returns (r: Times)
    ensures r == Prune(dq, cutoff)
  {
    r := dq;
    while r != [] && r[0] <= cutoff
      invariant Prune(r, cutoff) == Prune(dq, cutoff)
      decreases |r|
    {
      r := r[1..];
    }
  }

  /** Pruning early makes no difference to pruning later. */
  lemma {:induction false} PruneTwice(dq: Times, early: real, late: real)
    requires early <= late
    ensures Prune(Prune(dq, early), late) == Prune(dq, late)
  {
    if dq != [] && dq[0] <= early {
      PruneTwice(dq[1..], early, late);
    }
  }

  // --- the count it stands for ---

  predicate Chronological(ts: Times) { forall i, j :: 0 <= i < j < |ts| ==> ts[i] <= ts[j] }

  predicate UpTo(ts: Times, now: real) { forall i :: 0 <= i < |ts| ==> ts[i] <= now }

  /** How many events lie in (now - window, now]. */
  function InWindow(ts: Times, now: real, window: real): (n: nat)
    ensures n <= |ts|
  {
    if ts == [] then 0
    else InWindow(ts[1..], now, window) + if now - window < ts[0] <= now then 1 else 0
  }

  lemma {:induction false} AllInWindow(ts: Times, now: real, window: real)
    requires UpTo(ts, now) && forall i :: 0 <= i < |ts| ==> now - window < ts[i]
    ensures InWindow(ts, now, window) == |ts|
  {
    if ts != [] {
      AllInWindow(ts[1..], now, window);
    }
  }

  /** A pruned deque of past events holds just the events in the window. */
  lemma {:induction false} PruneCounts(ts: Times, now: real, window: real)
    requires Chronological(ts) && UpTo(ts, now)
    ensures |Prune(ts, now - window)| == InWindow(ts, now, window)
  {
    if ts != [] {
      if ts[0] > now - window {
        AllInWindow(ts, now, window);
      } else {
        PruneCounts(ts[1..], now, window);
      }
    }
  }

  /** The deque kept for a key is what is left of all its events after dropping some
      that have expired at the clock reading. */
  predicate Represents(kept: Times, all: Times, clock: real, window: real) {
    && Chronological(all) && UpTo(all, clock)
    && |kept| <= |all| && kept == all[|all| - |kept|..]
    && forall i :: 0 <= i < |all| - |kept| ==> all[i] <= clock - window
  }

  lemma {:induction false} PruneDropped(all: Times, d: nat, cutoff: real)
    requires d <= |all| && forall i :: 0 <= i < d ==> all[i] <= cutoff
    ensures Prune(all[d..], cutoff) == Prune(all, cutoff)
    decreases d
  {
    if d > 0 {
      PruneDropped(all[1..], d - 1, cutoff);
      assert all[1..][d - 1..] == all[d..];
    } else {
      assert all[0..] == all;
    }
  }

  lemma RepresentsLater(kept: Times, all: Times, clock: real, now: real, window: real)
    requires Represents(kept, all, clock, window) && clock <= now
    ensures Represents(kept, all, now, window)
    ensures Represents(Prune(kept, now - window), all, now, window)
    ensures |Prune(kept, now - window)| == InWindow(all, now, window)
  {
    PruneDropped(all, |all| - |kept|, now - window);
    PruneCounts(all, now, window);
    PruneDropsExpired(all, now - window);
  }

  lemma RepresentsAppend(kept: Times, all: Times, now: real, window: real)
    requires Represents(kept, all, now, window)
    ensures Represents(kept + [now], all + [now], now, window)
  {
  }

  // --- the dictionary of deques ---

  type Events = map<Client, Times>

  /** would_allow: a key that is not tracked is under budget, whatever the budget. */
  predicate Answer(events: Events, max: int, window: real, key: Client, now: real) {
    key !in events || |Prune(events[key], now - window)| < max
  }

  function Kept(events: Events, key: Client): Times {
    if key in events then events[key] else []
  }

  function Pruned(events: Events, key: Client, cutoff: real): Events {
    if key in events then events[key := Prune(events[key], cutoff)] else events
  }

  /** sweep: prune every deque, drop the empty ones. */
  function Swept(events: Events, cutoff: real): Events {
    map key | key in events && Prune(events[key], cutoff) != [] :: Prune(events[key], cutoff)
  }

  /** Peeking at one key changes no later answer. */
  lemma PeekChangesNoAnswer(events: Events, max: int, window: real, peeked: Client, now: real, key: Client, later: real)
    requires now <= later
    ensures Answer(Pruned(events, peeked, now - window), max, window, key, later) ==
            Answer(events, max, window, key, later)
    ensures Pruned(events, peeked, now - window).Keys == events.Keys
  {
    hide Prune;
    if peeked == key && key in events {
      PruneTwice(events[key], now - window, later - window);
    }
  }

  /** A sweep changes no later answer, except with a budget below one: then exactly
      the answers for the keys it drops change. */
  lemma SweepChangesNoAnswer(events: Events, max: int, window: real, now: real, key: Client, later: real)
    requires now <= later
    ensures Answer(Swept(events, now - window), max, window, key, later) == Answer(events, max, window, key, later)
            <==> (max >= 1 || key !in events || key in Swept(events, now - window))
  {
    if key in events {
      PruneTwice(events[key], now - window, later - window);
      assert Prune([], later - window) == [];
      hide Prune;
    }
  }

  /** record: prune the key's deque and append the event. */
  function Noted(events: Events, key: Client, now: real, window: real): Events {
    events[key := Prune(Kept(events, key), now - window) + [now]]
  }

  function Appended(recorded: Events, key: Client, now: real): Events {
    recorded[key := Kept(recorded, key) + [now]]
  }

  /** Recording an event counts it for its key, once, in every window that covers it, and
      for no other key. */
  lemma RecordedCounts(recorded: Events, key: Client, at: real, other: Client, now: real, window: real)
    ensures InWindow(Kept(Appended(recorded, key, at), other), now, window) ==
            InWindow(Kept(recorded, other), now, window) + if other == key && now - window < at <= now then 1 else 0
  {
    InWindowSnoc(Kept(recorded, key), at, now, window);
    hide InWindow;
  }

  lemma {:induction false} InWindowSnoc(ts: Times, at: real, now: real, window: real)
    ensures InWindow(ts + [at], now, window) == InWindow(ts, now, window) + if now - window < at <= now then 1 else 0
  {
    if ts == [] {
      assert [] + [at] == [at];
    } else {
      InWindowSnoc(ts[1..], at, now, window);
      assert (ts + [at])[1..] == ts[1..] + [at];
    }
  }

  /** The deques of all keys represent everything recorded so far. */
  ghost predicate AllRepresented(events: Events, recorded: Events, clock: real, window: real) {
    forall key: Client :: Represents(Kept(events, key), Kept(recorded, key), clock, window)
  }

  /** The lazily pruned deque answers the plain question: are there fewer than max
      events in (now - window, now]? With a budget below one the answer should always
      be no, and is so exactly for the keys that are tracked. */
  lemma AnswerIsCount(events: Events, recorded: Events, clock: real, max: int, window: real, key: Client, now: real)
    requires AllRepresented(events, recorded, clock, window) && clock <= now
    ensures |Prune(Kept(events, key), now - window)| == InWindow(Kept(recorded, key), now, window)
    ensures (Answer(events, max, window, key, now) <==> InWindow(Kept(recorded, key), now, window) < max)
            <==> (max >= 1 || key in events)
  {
    RepresentsLater(Kept(events, key), Kept(recorded, key), clock, now, window);
  }

  lemma PrunedRepresents(events: Events, recorded: Events, clock: real, window: real, key: Client, now: real)
    requires AllRepresented(events, recorded, clock, window) && clock <= now
    ensures AllRepresented(Pruned(events, key, now - window), recorded, now, window)
  {
    hide Represents;
    hide Prune;
    forall k: Client
      ensures Represents(Kept(Pruned(events, key, now - window), k), Kept(recorded, k), now, window)
    {
      RepresentsLater(Kept(events, k), Kept(recorded, k), clock, now, window);
    }
  }

  lemma NotedRepresents(events: Events, recorded: Events, clock: real, window: real, key: Client, now: real)
    requires AllRepresented(events, recorded, clock, window) && clock <= now
    ensures AllRepresented(Noted(events, key, now, window), Appended(recorded, key, now), now, window)
  {
    hide Represents;
    hide Prune;
    forall k: Client
      ensures Represents(Kept(Noted(events, key, now, window), k), Kept(Appended(recorded, key, now), k), now, window)
    {
      RepresentsLater(Kept(events, k), Kept(recorded, k), clock, now, window);
      RepresentsAppend(Prune(Kept(events, k), now - window), Kept(recorded, k), now, window);
    }
  }

  lemma SweptRepresents(events: Events, recorded: Events, clock: real, window: real, now: real)
    requires AllRepresented(events, recorded, clock, window) && clock <= now
    ensures AllRepresented(Swept(events, now - window), recorded, now, window)
  {
    assert Prune([], now - window) == [];
    hide Represents;
    hide Prune;
    forall k: Client
      ensures Represents(Kept(Swept(events, now - window), k), Kept(recorded, k), now, window)
    {
      RepresentsLater(Kept(events, k), Kept(recorded, k), clock, now, window);
      assert Kept(Swept(events, now - window), k) == Prune(Kept(events, k), now - window);
    }
  }

  /** A sweep keeps exactly the keys that have an event within the window: no idle key stays
      behind, and no active one is lost. */
  lemma SweepKeepsActive(events: Events, recorded: Events, clock: real, window: real, key: Client, now: real)
    requires AllRepresented(events, recorded, clock, window) && clock <= now
    ensures key in Swept(events, now - window) <==> InWindow(Kept(recorded, key), now, window) > 0
  {
    RepresentsLater(Kept(events, key), Kept(recorded, key), clock, now, window);
    assert Prune([], now - window) == [];
    hide Prune;
    hide InWindow;
  }

  lemma NotedIs(before: Events, pruned: Events, key: Client, now: real, window: real)
    requires pruned == before[key := Prune(Kept(before, key), now - window)]
    ensures pruned[key := pruned[key] + [now]] == Noted(before, key, now, window)
  {
    hide Prune;
  }

  /** A sweep with the keys of `todo` still to visit. */
  ghost predicate SweepPart(before: Events, now: Events, todo: set<Client>, stale: set<Client>, cutoff: real) {
    && now.Keys == before.Keys && todo <= now.Keys
    && (forall k :: k in now ==> now[k] == if k in todo then before[k] else Prune(before[k], cutoff))
    && (forall k :: k in stale <==> k in now && k !in todo && now[k] == [])
  }

  lemma SweepOne(before: Events, now: Events, todo: set<Client>, stale: set<Client>, cutoff: real, key: Client)
    requires SweepPart(before, now, todo, stale, cutoff) && key in todo
    ensures var dq := Prune(now[key], cutoff);
            SweepPart(before, now[key := dq], todo - {key}, if dq == [] then stale + {key} else stale, cutoff)
  {
    hide Prune;
  }

  lemma SweptIs(before: Events, pruned: Events, stale: set<Client>, cutoff: real)
    requires SweepPart(before, pruned, {}, stale, cutoff)
    ensures pruned - stale == Swept(before, cutoff)
  {
    hide Prune;
  }

  method SweepEvents(before: Events, cutoff: real) returns (events: Events)
    ensures events == Swept(before, cutoff)
  {
    events := before;
    var todo, stale := events.Keys, {};
    assert SweepPart(before, events, todo, stale, cutoff);
    hide SweepPart;
    hide Swept;
    while todo != {}
      invariant todo <= events.Keys
      invariant SweepPart(before, events, todo, stale, cutoff)
      decreases |todo|
    {
      var key :| key in todo;
      var dq := PruneDeque(events[key], cutoff);
      SweepOne(before, events, todo, stale, cutoff, key);
      events := events[key := dq];
      if dq == [] {
        stale := stale + {key};
      }
      todo := todo - {key};
    }
    SweptIs(before, events, stale, cutoff);
    events := events - stale;
  }

  // --- only allow ---

  /** Each event comes at least a window after the one `max` places before it. */
  predicate Spaced(all: Times, max: nat, window: real) {
    forall i :: 0 <= i && i + max < |all| ==> all[i] <= all[i + max] - window
  }

  /** An event that is recorded when fewer than max were in the window. */
  lemma AllowKeepsSpaced(all: Times, max: nat, window: real, asked: real, recorded: real)
    requires max >= 1 && Chronological(all) && UpTo(all, asked) && asked <= recorded
    requires Spaced(all, max, window) && InWindow(all, asked, window) < max
    ensures Spaced(all + [recorded], max, window)
  {
    PruneCounts(all, asked, window);
    PruneDropsExpired(all, asked - window);
    var dropped := |all| - |Prune(all, asked - window)|;
    var longer := all + [recorded];
    forall i | 0 <= i && i + max < |longer|
      ensures longer[i] <= longer[i + max] - window
    {
      if i + max < |all| {
        assert all[i] <= all[i + max] - window;
      } else {
        assert i < dropped;
        assert all[i] <= asked - window;
      }
    }
  }

  /** So no window, wherever it ends, holds more than max of a key's events. */
  lemma {:induction false} NeverOverBudget(all: Times, max: nat, window: real, now: real)
    requires max >= 1 && Chronological(all) && Spaced(all, max, window)
    ensures InWindow(all, now, window) <= max
  {
    if |all| > max {
      var rest := all[1..];
      assert Spaced(rest, max, window) by {
        forall i | 0 <= i && i + max < |rest| ensures rest[i] <= rest[i + max] - window {
          assert all[i + 1] <= all[i + 1 + max] - window;
        }
      }
      NeverOverBudget(rest, max, window, now);
      if now - window < all[0] <= now {
        assert all[0] <= all[max] - window;
        assert rest[max - 1..] == all[max..];
        FutureOutside(rest, max - 1, now, window);
      }
    }
  }

  /** Events after the window do not count. */
  lemma {:induction false} FutureOutside(ts: Times, n: nat, now: real, window: real)
    requires n <= |ts| && forall i :: n <= i < |ts| ==> ts[i] > now
    ensures InWindow(ts, now, window) <= n
    decreases |ts|
  {
    if ts != [] {
      FutureOutside(ts[1..], if n == 0 then 0 else n - 1, now, window);
    }
  }

  // --- the limiter ---

  class SlidingWindowLimiter {
    const max: int
    const window: real
    var events: Events
    /** Every event recorded for a key, and the last clock reading. */
    ghost var recorded: Events
    ghost var clock: real

    ghost predicate Valid()
      reads this
    {
      AllRepresented(events, recorded, clock, window)
    }

    /** No key has had more than max events within a window. */
    ghost predicate WithinBudget()
      reads this
    {
      max >= 1 && forall key: Client :: Spaced(Kept(recorded, key), max, window)
    }

    constructor (max: int, window: real, now: real)
      ensures Valid() && events == map[] && recorded == map[]
      ensures this.max == max && this.window == window && clock == now
      ensures max >= 1 ==> WithinBudget()
    {
      this.max, this.window := max, window;
      events, recorded, clock := map[], map[], now;
    }

    /** would_allow. It prunes the key's deque and creates no entry. */
    method WouldAllow(key: Client, now: real) returns (ok: bool)
      requires Valid() && clock <= now
      modifies this
      ensures Valid() && clock == now && recorded == old(recorded)
      ensures ok == Answer(old(events), max, window, key, now)
      ensures ok <==> InWindow(Kept(recorded, key), now, window) < max || (max < 1 && key !in old(events))
      ensures events == Pruned(old(events), key, now - window)
    {
      hide AllRepresented;
      hide Prune;
      hide InWindow;
      AnswerIsCount(events, recorded, clock, max, window, key, now);
      PrunedRepresents(events, recorded, clock, window, key, now);
      if key !in events {
        clock := now;
        return true;
      }
      var dq := PruneDeque(events[key], now - window);
      events, clock := events[key := dq], now;
      ok := |dq| < max;
    }

    /** record: the event is remembered, whether or not the key is under budget. */
    method Record(key: Client, now: real)
      requires Valid() && clock <= now
      modifies this
      ensures Valid() && clock == now
      ensures recorded == Appended(old(recorded), key, now)
      ensures events == Noted(old(events), key, now, window)
    {
      hide AllRepresented;
      hide Prune;
      hide Noted;
      NotedRepresents(events, recorded, clock, window, key, now);
      recorded, clock := Appended(recorded, key, now), now;
      if key !in events {
        events := events[key := []];
      }
      var dq := PruneDeque(events[key], now - window);
      events := events[key := dq];
      NotedIs(old(events), events, key, now, window);
      events := events[key := events[key] + [now]];
    }

    /** allow: the check and the record read the clock one after the other. */
    method Allow(key: Client, asked: real, now: real) returns (ok: bool)
      requires Valid() && clock <= asked <= now
      modifies this
      ensures Valid() && clock == if ok then now else asked
      ensures ok == Answer(old(events), max, window, key, asked)
      ensures recorded == if ok then Appended(old(recorded), key, now) else old(recorded)
      ensures old(WithinBudget()) ==> WithinBudget()
    {
      ghost var all := Kept(recorded, key);
      assert Represents(Kept(events, key), all, clock, window);
      assert Chronological(all) && UpTo(all, asked);
      hide Represents;
      hide AllRepresented;
      hide Answer;
      hide InWindow;
      ok := WouldAllow(key, asked);
      if ok {
        Record(key, now);
        if old(WithinBudget()) {
          AllowKeepsSpaced(all, max, window, asked, now);
          hide Spaced;
          forall k: Client ensures Spaced(Kept(recorded, k), max, window) {
            assert Spaced(Kept(old(recorded), k), max, window);
          }
        }
      }
    }

    /** sweep: every deque is pruned, and idle keys go. */
    method Sweep(now: real)
      requires Valid() && clock <= now
      modifies this
      ensures Valid() && clock == now && recorded == old(recorded)
      ensures events == Swept(old(events), now - window)
    {
      hide AllRepresented;
      hide Swept;
      SweptRepresents(events, recorded, clock, window, now);
      events := SweepEvents(events, now - window);
      clock := now;
    }
  }

  /** With a budget below one, a key's first event is let through: one event where
      none is allowed. */
  lemma NoBudgetLetsFirstThrough(max: int, window: real, key: Client, now: real)
    requires max < 1 && window > 0.0
    ensures Answer(map[], max, window, key, now)
    ensures InWindow(Kept(Appended(map[], key, now), key), now, window) > max
  {
  }
}
