/** The replay log of the owner: exact byte accounting, eviction of the globally
    oldest events, and retained events as a suffix of the published ones
    (src/api.rs push_event, prune_terminal_records). */
module ReplayLog {
  import opened Basics
  import opened Text
  import opened Owner

  // ---------------------------------------------------------------------------
  // Accounting.

  /** Every byte count is the true sum, and both bounds hold. */
  ghost predicate Accounted(enc: Encoding, turns: map<nat, Turn>, replayBytes: nat, n: nat) {
    && replayBytes == SumBytes(turns, n) <= MAX_REPLAY_BYTES
    && forall t :: t in turns ==> t < n && WellCounted(enc, turns[t])
  }

  ghost predicate WellCounted(enc: Encoding, turn: Turn) {
    && turn.bytes == TotalBytes(enc, turn.events)
    && |turn.events| <= MAX_EVENTS_PER_TURN
    && forall e :: e in turn.events ==> enc(e) <= MAX_EVENT_BYTES
  }

  ghost predicate Accounting(enc: Encoding, s: State) {
    Accounted(enc, s.turns, s.replayBytes, s.nextTurn)
  }

  lemma {:induction false} SumBytesUpdate(turns: map<nat, Turn>, t: nat, turn: Turn, n: nat)
    ensures SumBytes(turns[t := turn], n) + (if t < n && t in turns then turns[t].bytes else 0)
         == SumBytes(turns, n) + (if t < n then turn.bytes else 0)
  {
    if n > 0 { SumBytesUpdate(turns, t, turn, n - 1); }
  }

  lemma {:induction false} SumBytesAtLeast(turns: map<nat, Turn>, t: nat, n: nat)
    requires t in turns && t < n
    ensures turns[t].bytes <= SumBytes(turns, n)
  {
    if t < n - 1 { SumBytesAtLeast(turns, t, n - 1); }
  }

  lemma {:induction false} SumBytesOfEmpty(enc: Encoding, turns: map<nat, Turn>, n: nat)
    requires forall t :: t in turns && t < n ==> WellCounted(enc, turns[t]) && turns[t].events == []
    ensures SumBytes(turns, n) == 0
  {
    if n > 0 { SumBytesOfEmpty(enc, turns, n - 1); }
  }

  lemma {:induction false} TotalBytesAppend(enc: Encoding, events: seq<Event>, e: Event)
    ensures TotalBytes(enc, events + [e]) == TotalBytes(enc, events) + enc(e)
  {
    if events == [] {
      assert [e][1..] == [];
    } else {
      assert (events + [e])[1..] == events[1..] + [e];
      TotalBytesAppend(enc, events[1..], e);
    }
  }

  lemma {:induction false} NoOldestMeansEmpty(turns: map<nat, Turn>, n: nat, t: nat)
    requires Oldest(turns, n).None? && t in turns && t < n
    ensures turns[t].events == []
  {
    if t < n - 1 { NoOldestMeansEmpty(turns, n - 1, t); }
  }

  lemma DropFirstAccounted(enc: Encoding, s: State, t: nat)
    requires Accounting(enc, s) && t in s.turns && s.turns[t].events != []
    ensures Accounting(enc, DropFirst(enc, s, t))
    ensures DropFirst(enc, s, t).replayBytes == s.replayBytes - enc(s.turns[t].events[0])
  {
    var turn := s.turns[t];
    assert turn.events[0] in turn.events;
    forall e | e in turn.events[1..] ensures e in turn.events { }
    SumBytesAtLeast(s.turns, t, s.nextTurn);
    SumBytesUpdate(s.turns, t, DropFirst(enc, s, t).turns[t], s.nextTurn);
  }

  /** Eviction keeps every count exact and always makes room: the branch that
      gives up for want of an event to evict is never taken. */
  lemma {:induction false} EvictMakesRoom(enc: Encoding, s: State, size: nat)
    requires Accounting(enc, s) && size <= MAX_REPLAY_BYTES
    ensures Accounting(enc, Evict(enc, s, size))
    ensures Evict(enc, s, size).replayBytes + size <= MAX_REPLAY_BYTES
    decreases CountEvents(s.turns, s.nextTurn)
  {
    if s.replayBytes + size > MAX_REPLAY_BYTES {
      match Oldest(s.turns, s.nextTurn)
      case None =>
        forall t | t in s.turns && t < s.nextTurn ensures s.turns[t].events == [] {
          NoOldestMeansEmpty(s.turns, s.nextTurn, t);
        }
        SumBytesOfEmpty(enc, s.turns, s.nextTurn);
        assert false;
      case Some(t) =>
        DropFirstAccounted(enc, s, t);
        DropFirstCounts(enc, s, t, s.nextTurn);
        EvictMakesRoom(enc, DropFirst(enc, s, t), size);
    }
  }

  lemma AppendAccounted(enc: Encoding, s: State, e: Event)
    requires Accounting(enc, s) && e.turn in s.turns
    requires enc(e) <= MAX_EVENT_BYTES && s.replayBytes + enc(e) <= MAX_REPLAY_BYTES
    ensures Accounting(enc, Append(enc, s, e))
  {
    var turn := s.turns[e.turn];
    var grown := turn.events + [e];
    var next := Append(enc, s, e);
    TotalBytesAppend(enc, turn.events, e);
    SumBytesAtLeast(s.turns, e.turn, s.nextTurn);
    SumBytesUpdate(s.turns, e.turn, next.turns[e.turn], s.nextTurn);
    forall x | x in next.turns[e.turn].events ensures enc(x) <= MAX_EVENT_BYTES {
      assert x in grown;
      assert x in turn.events || x == e;
    }
  }

  /** `push_event` for a retained turn never drops an event that fits. */
  lemma PushPublishes(enc: Encoding, s: State, t: nat, kind: EventKind, terminal: bool)
    requires Accounting(enc, s) && t in s.turns && Fits(enc, s, t, kind, terminal)
    ensures var e := NextEvent(s, t, kind, terminal);
            var room := Evict(enc, Numbered(s), enc(e));
            t in room.turns && Push(enc, s, t, kind, terminal) == Append(enc, room, e)
  {
    var e := NextEvent(s, t, kind, terminal);
    EvictMakesRoom(enc, Numbered(s), enc(e));
    EvictTrims(enc, Numbered(s), enc(e));
  }

  lemma PushAccounted(enc: Encoding, s: State, t: nat, kind: EventKind, terminal: bool)
    requires Accounting(enc, s) && t in s.turns
    ensures Accounting(enc, Push(enc, s, t, kind, terminal))
  {
    if Fits(enc, s, t, kind, terminal) {
      var e := NextEvent(s, t, kind, terminal);
      PushPublishes(enc, s, t, kind, terminal);
      EvictMakesRoom(enc, Numbered(s), enc(e));
      AppendAccounted(enc, Evict(enc, Numbered(s), enc(e)), e);
    }
  }

  // ---------------------------------------------------------------------------
  // Retained events are a suffix of the published ones.

  lemma SuffixAppend<T>(a: seq<T>, b: seq<T>, e: T)
    requires IsSuffix(a, b)
    ensures IsSuffix(a + [e], b + [e])
    ensures IsSuffix((a + [e])[1..], b + [e])
  {
  }

  /** `next` differs from `turns` only by dropping first events. */
  ghost predicate Trimmed(turns: map<nat, Turn>, next: map<nat, Turn>) {
    && next.Keys == turns.Keys
    && forall t :: t in turns ==>
         && next[t] == turns[t].(events := next[t].events, bytes := next[t].bytes)
         && IsSuffix(next[t].events, turns[t].events)
  }

  lemma {:induction false} EvictTrims(enc: Encoding, s: State, size: nat)
    ensures Trimmed(s.turns, Evict(enc, s, size).turns)
    decreases CountEvents(s.turns, s.nextTurn)
  {
    if s.replayBytes + size > MAX_REPLAY_BYTES {
      match Oldest(s.turns, s.nextTurn)
      case None =>
      case Some(t) =>
        DropFirstCounts(enc, s, t, s.nextTurn);
        var d := DropFirst(enc, s, t);
        DropTrims(enc, s, t);
        EvictTrims(enc, d, size);
    }
  }

  lemma DropTrims(enc: Encoding, s: State, t: nat)
    requires t in s.turns && s.turns[t].events != []
    ensures Trimmed(s.turns, DropFirst(enc, s, t).turns)
  {
  }

  /** The published events of one turn, in order. */
  function Of(published: seq<Event>, t: nat): seq<Event> {
    if published == [] then []
    else
      var init, last := published[..|published| - 1], published[|published| - 1];
      if last.turn == t then Of(init, t) + [last] else Of(init, t)
  }

  ghost predicate Ordered(events: seq<Event>) {
    forall i, j :: 0 <= i < j < |events| ==> events[i].id < events[j].id
  }

  /** Published ids only grow, and each retained turn holds the newest of its
      published events. */
  ghost predicate History(s: State) {
    && Ordered(s.published)
    && (forall e :: e in s.published ==> e.id < s.nextEvent && e.turn < s.nextTurn)
    && (forall t :: t in s.turns ==> t < s.nextTurn && IsSuffix(s.turns[t].events, Of(s.published, t)))
  }

  lemma EvictKeepsHistory(enc: Encoding, s: State, size: nat)
    requires History(s)
    ensures History(Evict(enc, s, size))
  {
    EvictTrims(enc, s, size);
    EvictKeepsRest(enc, s, size);
    var next := Evict(enc, s, size);
    forall t | t in next.turns ensures IsSuffix(next.turns[t].events, Of(s.published, t)) {
    }
  }

  lemma AppendKeepsHistory(enc: Encoding, s: State, e: Event)
    requires History(s) && e.turn in s.turns && e.id < s.nextEvent
    requires forall x :: x in s.published ==> x.id < e.id
    ensures History(Append(enc, s, e))
  {
    var next := Append(enc, s, e);
    forall x | x in next.published ensures x.id < s.nextEvent && x.turn < s.nextTurn { assert x in s.published || x == e; }
    forall i, j | 0 <= i < j < |next.published| ensures next.published[i].id < next.published[j].id {
      if j == |s.published| { assert s.published[i] in s.published; }
    }
    forall t | t in next.turns ensures IsSuffix(next.turns[t].events, Of(next.published, t)) {
      if t == e.turn { SuffixAppend(s.turns[t].events, Of(s.published, t), e); }
    }
  }

  lemma PushKeepsHistory(enc: Encoding, s: State, t: nat, kind: EventKind, terminal: bool)
    requires Accounting(enc, s) && History(s) && t in s.turns
    ensures History(Push(enc, s, t, kind, terminal))
  {
    if Fits(enc, s, t, kind, terminal) {
      var e := NextEvent(s, t, kind, terminal);
      PushPublishes(enc, s, t, kind, terminal);
      EvictKeepsHistory(enc, Numbered(s), enc(e));
      EvictKeepsRest(enc, Numbered(s), enc(e));
      AppendKeepsHistory(enc, Evict(enc, Numbered(s), enc(e)), e);
    }
  }

  // ---------------------------------------------------------------------------
  // Eviction is oldest first.

  function From(events: seq<Event>, cutoff: nat): seq<Event> {
    if events == [] then []
    else if events[0].id >= cutoff then [events[0]] + From(events[1..], cutoff)
    else From(events[1..], cutoff)
  }

  ghost predicate KeptFrom(turns: map<nat, Turn>, next: map<nat, Turn>, cutoff: nat) {
    next.Keys == turns.Keys && forall t :: t in turns ==> next[t].events == From(turns[t].events, cutoff)
  }

  lemma {:induction false} FromAll(events: seq<Event>, cutoff: nat)
    requires forall e :: e in events ==> e.id >= cutoff
    ensures From(events, cutoff) == events
  {
    if events != [] {
      assert events[0] in events;
      forall e | e in events[1..] ensures e in events { }
      FromAll(events[1..], cutoff);
    }
  }

  lemma {:induction false} FromFrom(events: seq<Event>, a: nat, b: nat)
    ensures From(From(events, a), b) == From(events, if b < a then a else b)
  {
    if events != [] {
      FromFrom(events[1..], a, b);
    }
  }

  lemma {:induction false} OfMembers(published: seq<Event>, t: nat, e: Event)
    requires e in Of(published, t)
    ensures e in published && e.turn == t
  {
    if published != [] {
      var init := published[..|published| - 1];
      if e in Of(init, t) { OfMembers(init, t, e); }
    }
  }

  lemma {:induction false} OfOrdered(published: seq<Event>, t: nat)
    requires Ordered(published)
    ensures Ordered(Of(published, t))
  {
    if published != [] {
      var init, last := published[..|published| - 1], published[|published| - 1];
      OfOrdered(init, t);
      forall e | e in Of(init, t) ensures e.id < last.id {
        OfMembers(init, t, e);
        var i :| 0 <= i < |init| && init[i] == e;
        assert published[i] == e;
      }
    }
  }

  lemma RetainedEvents(s: State, t: nat)
    requires History(s) && t in s.turns
    ensures Ordered(s.turns[t].events)
    ensures forall e :: e in s.turns[t].events ==> e in s.published && e.turn == t
  {
    OfOrdered(s.published, t);
    var all, kept := Of(s.published, t), s.turns[t].events;
    forall i | 0 <= i < |kept| ensures kept[i] == all[|all| - |kept| + i] { assert all[|all| - |kept|..][i] == kept[i]; }
    forall e | e in kept ensures e in s.published && e.turn == t {
      var i :| 0 <= i < |kept| && kept[i] == e;
      assert e in all;
      OfMembers(s.published, t, e);
    }
  }

  lemma SameId(published: seq<Event>, e: Event, f: Event)
    requires Ordered(published) && e in published && f in published && e.id == f.id
    ensures e == f
  {
    var i :| 0 <= i < |published| && published[i] == e;
    var j :| 0 <= j < |published| && published[j] == f;
  }

  lemma {:induction false} OldestIsOldest(turns: map<nat, Turn>, n: nat, t: nat)
    requires t in turns && t < n && turns[t].events != []
    ensures Oldest(turns, n).Some?
    ensures turns[Oldest(turns, n).value].events[0].id <= turns[t].events[0].id
  {
    if t < n - 1 { OldestIsOldest(turns, n - 1, t); }
  }

  /** Of a turn other than the one with the oldest event, every event is newer. */
  lemma OthersAreNewer(s: State, t: nat, u: nat)
    requires History(s) && Oldest(s.turns, s.nextTurn) == Some(t) && u in s.turns && u != t
    ensures From(s.turns[u].events, s.turns[t].events[0].id + 1) == s.turns[u].events
  {
    var first, events := s.turns[t].events[0], s.turns[u].events;
    if events != [] {
      OldestIsOldest(s.turns, s.nextTurn, u);
      RetainedEvents(s, t);
      RetainedEvents(s, u);
      assert first in s.turns[t].events && events[0] in events;
      if first.id == events[0].id { SameId(s.published, first, events[0]); }
      forall e | e in events ensures e.id >= first.id + 1 { }
      FromAll(events, first.id + 1);
    }
  }

  lemma OwnLaterAreNewer(s: State, t: nat)
    requires History(s) && t in s.turns && s.turns[t].events != []
    ensures From(s.turns[t].events, s.turns[t].events[0].id + 1) == s.turns[t].events[1..]
  {
    var events := s.turns[t].events;
    RetainedEvents(s, t);
    forall e | e in events[1..] ensures e.id >= events[0].id + 1 {
      assert e in events;
    }
    FromAll(events[1..], events[0].id + 1);
  }

  /** Dropping the oldest event keeps exactly the events with a larger id. */
  lemma DropOldestKeepsFrom(enc: Encoding, s: State, t: nat)
    requires History(s) && Oldest(s.turns, s.nextTurn) == Some(t)
    ensures KeptFrom(s.turns, DropFirst(enc, s, t).turns, s.turns[t].events[0].id + 1)
  {
    OwnLaterAreNewer(s, t);
    forall u | u in s.turns && u != t
      ensures From(s.turns[u].events, s.turns[t].events[0].id + 1) == s.turns[u].events
    {
      OthersAreNewer(s, t, u);
    }
  }

  lemma DropFirstKeepsHistory(enc: Encoding, s: State, t: nat)
    requires History(s) && t in s.turns && s.turns[t].events != []
    ensures History(DropFirst(enc, s, t))
  {
  }

  lemma KeptFromTrans(a: map<nat, Turn>, b: map<nat, Turn>, c: map<nat, Turn>, i: nat, j: nat)
    requires KeptFrom(a, b, i) && KeptFrom(b, c, j)
    ensures KeptFrom(a, c, if j < i then i else j)
  {
    forall t | t in a ensures c[t].events == From(a[t].events, if j < i then i else j) { FromFrom(a[t].events, i, j); }
  }

  /** The event just below the cutoff was retained before, and would not have
      fitted next to what is kept and the new event. */
  ghost predicate Needed(enc: Encoding, s: State, kept: State, size: nat, cutoff: nat) {
    exists t, e :: t in s.turns && e in s.turns[t].events && e.id + 1 == cutoff
      && kept.replayBytes + enc(e) + size > MAX_REPLAY_BYTES
  }

  /** Eviction removes the globally oldest events, and no more than needed:
      there is one id such that every turn keeps exactly its events from that
      id on, and keeping one more event would not have fitted. */
  lemma {:induction false} EvictIsOldestFirst(enc: Encoding, s: State, size: nat) returns (cutoff: nat)
    requires History(s) && Accounting(enc, s) && size <= MAX_REPLAY_BYTES
    ensures KeptFrom(s.turns, Evict(enc, s, size).turns, cutoff)
    ensures cutoff == 0 ==> s.replayBytes + size <= MAX_REPLAY_BYTES
    ensures cutoff > 0 ==> Needed(enc, s, Evict(enc, s, size), size, cutoff)
    decreases CountEvents(s.turns, s.nextTurn)
  {
    if s.replayBytes + size <= MAX_REPLAY_BYTES {
      cutoff := 0;
      KeptFromZero(s.turns);
    } else {
      var t := EvictStep(enc, s, size);
      var a := s.turns[t].events[0].id + 1;
      var c := EvictIsOldestFirst(enc, DropFirst(enc, s, t), size);
      KeptFromTrans(s.turns, DropFirst(enc, s, t).turns, Evict(enc, s, size).turns, a, c);
      CutoffIsNeeded(enc, s, t, size, a, c);
      cutoff := if c < a then a else c;
    }
  }

  lemma EvictStep(enc: Encoding, s: State, size: nat) returns (t: nat)
    requires History(s) && Accounting(enc, s) && size <= MAX_REPLAY_BYTES
    requires s.replayBytes + size > MAX_REPLAY_BYTES
    ensures Oldest(s.turns, s.nextTurn) == Some(t)
    ensures var d := DropFirst(enc, s, t);
            && Evict(enc, s, size) == Evict(enc, d, size)
            && History(d) && Accounting(enc, d)
            && d.replayBytes == s.replayBytes - enc(s.turns[t].events[0])
            && CountEvents(d.turns, d.nextTurn) < CountEvents(s.turns, s.nextTurn)
            && KeptFrom(s.turns, d.turns, s.turns[t].events[0].id + 1)
  {
    EvictMakesRoom(enc, s, size);
    t := Oldest(s.turns, s.nextTurn).value;
    DropFirstCounts(enc, s, t, s.nextTurn);
    DropOldestKeepsFrom(enc, s, t);
    DropFirstKeepsHistory(enc, s, t);
    DropFirstAccounted(enc, s, t);
  }

  lemma CutoffIsNeeded(enc: Encoding, s: State, t: nat, size: nat, a: nat, c: nat)
    requires History(s) && Accounting(enc, s) && s.replayBytes + size > MAX_REPLAY_BYTES
    requires Oldest(s.turns, s.nextTurn) == Some(t) && a == s.turns[t].events[0].id + 1
    requires c == 0 || Needed(enc, DropFirst(enc, s, t), Evict(enc, DropFirst(enc, s, t), size), size, c)
    requires c == 0 ==> s.replayBytes - enc(s.turns[t].events[0]) + size <= MAX_REPLAY_BYTES
    ensures Needed(enc, s, Evict(enc, s, size), size, if c < a then a else c)
  {
    var first := s.turns[t].events[0];
    var d := DropFirst(enc, s, t);
    assert first in s.turns[t].events;
    DropFirstAccounted(enc, s, t);
    DropFirstCounts(enc, s, t, s.nextTurn);
    if c > 0 {
      var u, e :| u in d.turns && e in d.turns[u].events && e.id + 1 == c && Evict(enc, d, size).replayBytes + enc(e) + size > MAX_REPLAY_BYTES;
      assert e in s.turns[u].events;
      DropOldestKeepsFrom(enc, s, t);
      AllFrom(s.turns[u].events, a);
    }
  }

  lemma {:induction false} AllFrom(events: seq<Event>, a: nat)
    ensures forall e :: e in From(events, a) ==> e.id >= a
  {
    if events != [] { AllFrom(events[1..], a); }
  }

  lemma KeptFromZero(turns: map<nat, Turn>)
    ensures KeptFrom(turns, turns, 0)
  {
    forall u | u in turns ensures turns[u].events == From(turns[u].events, 0) { FromAll(turns[u].events, 0); }
  }
}
