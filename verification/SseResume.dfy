/** Resuming an event stream (src/api.rs owner_subscribe, turn_events,
    ControllingSseStream): the retained events after `Last-Event-ID`, then the
    events published later, cut off after a terminal event. Section 9.2.4 of the
    HTML Living Standard defines the last event id a client sends. */
module SseResume {
  import opened Basics
  import opened Owner
  import opened ReplayLog
  import opened OwnerInvariant
  import opened OwnerSafety
  import opened OwnerHistory

  /** The events of turn `t` a subscriber at `s` receives live until `later`,
      when its channel does not lag. */
  function Following(s: State, later: State, t: nat): seq<Event>
    requires s.published <= later.published
  {
    Of(later.published[|s.published|..], t)
  }

  /** The stream ends after the first terminal event. */
  function CutOff(events: seq<Event>): seq<Event> {
    if events == [] then []
    else if events[0].terminal then [events[0]]
    else [events[0]] + CutOff(events[1..])
  }

  /** What a subscriber receives in all, having subscribed at `s`. */
  function Stream(s: State, later: State, t: nat, lastSeen: nat): seq<Event>
    requires s.published <= later.published && t in s.turns
  {
    var subscription := Subscribe(s, t, lastSeen, true).1.value;
    CutOff(if subscription.terminal then subscription.replay
           else subscription.replay + After(Following(s, later, t), lastSeen))
  }

  /** Every event of the turn that is no longer retained is not newer than `lastSeen`. */
  ghost predicate NothingMissed(s: State, t: nat, lastSeen: nat)
    requires t in s.turns
  {
    forall e :: e in Of(s.published, t) && e !in s.turns[t].events ==> e.id <= lastSeen
  }

  // ---------------------------------------------------------------------------
  // Sequences of events.

  lemma {:induction false} OfConcat(a: seq<Event>, b: seq<Event>, t: nat)
    ensures Of(a + b, t) == Of(a, t) + Of(b, t)
  {
    if b == [] {
      assert a + b == a;
    } else {
      assert (a + b)[..|a + b| - 1] == a + b[..|b| - 1];
      OfConcat(a, b[..|b| - 1], t);
    }
  }

  lemma {:induction false} AfterConcat(a: seq<Event>, b: seq<Event>, lastSeen: nat)
    ensures After(a + b, lastSeen) == After(a, lastSeen) + After(b, lastSeen)
  {
    if a == [] {
      assert a + b == b;
    } else {
      assert (a + b)[1..] == a[1..] + b;
      AfterConcat(a[1..], b, lastSeen);
    }
  }

  lemma {:induction false} AfterNone(a: seq<Event>, lastSeen: nat)
    requires forall e :: e in a ==> e.id <= lastSeen
    ensures After(a, lastSeen) == []
  {
    if a != [] {
      assert a[0] in a;
      forall e | e in a[1..] ensures e in a { }
      AfterNone(a[1..], lastSeen);
    }
  }

  lemma {:induction false} AfterMember(a: seq<Event>, lastSeen: nat, e: Event)
    ensures e in After(a, lastSeen) <==> e in a && e.id > lastSeen
  {
    if a != [] {
      AfterMember(a[1..], lastSeen, e);
      assert a == [a[0]] + a[1..];
    }
  }

  ghost predicate TerminalLast(events: seq<Event>) {
    forall i :: 0 <= i < |events| - 1 ==> !events[i].terminal
  }

  lemma {:induction false} CutOffKeepsAll(events: seq<Event>)
    requires TerminalLast(events)
    ensures CutOff(events) == events
  {
    if events != [] {
      assert |events| > 1 ==> !events[0].terminal;
      assert forall i :: 0 <= i < |events[1..]| - 1 ==> events[1..][i] == events[i + 1];
      CutOffKeepsAll(events[1..]);
      assert events == [events[0]] + events[1..];
    }
  }

  /** A sub-list of events in which a terminal one is last has it last too. */
  lemma {:induction false} AfterTerminalLast(events: seq<Event>, lastSeen: nat)
    requires TerminalLast(events)
    ensures TerminalLast(After(events, lastSeen))
  {
    if events != [] {
      assert forall i :: 0 <= i < |events[1..]| - 1 ==> events[1..][i] == events[i + 1];
      AfterTerminalLast(events[1..], lastSeen);
      if |events| > 1 {
        assert !events[0].terminal;
      } else {
        assert After(events[1..], lastSeen) == [];
      }
    }
  }

  lemma {:induction false} OfTerminalLast(published: seq<Event>, t: nat)
    requires forall i, j :: 0 <= i < j < |published| && published[i].turn == published[j].turn ==> !published[i].terminal
    ensures TerminalLast(Of(published, t))
  {
    if published != [] {
      var init, last := published[..|published| - 1], published[|published| - 1];
      OfTerminalLast(init, t);
      if last.turn == t {
        forall e | e in Of(init, t) ensures !e.terminal {
          OfMembers(init, t, e);
          var i :| 0 <= i < |init| && init[i] == e;
          assert published[i] == e;
        }
      }
    }
  }

  // ---------------------------------------------------------------------------
  // A turn that is over, pruned or not, gains no events.

  ghost predicate Over(s: State, t: nat) {
    t < s.nextTurn && (t in s.turns ==> IsTerminal(s.turns[t].status))
  }

  lemma OthersGetNothing(s: State, next: State, u: nat, t: nat)
    requires Grows(s, next, u) && u != t
    ensures Of(next.published, t) == Of(s.published, t)
  {
    var newer := next.published[|s.published|..];
    NoneOf(newer, u, t);
    OfConcat(s.published, newer, t);
    assert s.published + newer == next.published;
  }

  lemma OverStays(enc: Encoding, s: State, next: State, c: Command, t: nat)
    requires Inv(enc, s) && Possible(s, c) && Over(s, t) && next == Step(enc, s, c)
    ensures Over(next, t) && Of(next.published, t) == Of(s.published, t)
  {
    StepEvolves(enc, s, c);
    var u := StepGrows(enc, s, c);
    if next.published != s.published { OthersGetNothing(s, next, u, t); }
  }

  lemma {:induction false} NoneOf(events: seq<Event>, u: nat, t: nat)
    requires u != t && forall e :: e in events ==> e.turn == u
    ensures Of(events, t) == []
  {
    if events != [] {
      assert events[|events| - 1] in events;
      forall e | e in events[..|events| - 1] ensures e in events { }
      NoneOf(events[..|events| - 1], u, t);
    }
  }

  /** Publication only grows, and a turn that is over stays over and silent. */
  ghost predicate OnlyAppends(s: State, next: State, t: nat) {
    s.published <= next.published && (Over(s, t) ==> Over(next, t) && Of(next.published, t) == Of(s.published, t))
  }

  lemma StepOnlyAppends(enc: Encoding, trace: seq<State>, commands: seq<Command>, i: nat, t: nat)
    requires IsRun(enc, trace, commands) && Inv(enc, trace[0]) && i < |commands|
    ensures OnlyAppends(trace[i], trace[i + 1], t)
  {
    EveryRunKeepsInv(enc, trace, commands, i);
    var u := StepGrows(enc, trace[i], commands[i]);
    if Over(trace[i], t) { OverStays(enc, trace[i], trace[i + 1], commands[i], t); }
  }

  lemma AppendsTwice(a: State, b: State, c: State, t: nat)
    requires OnlyAppends(a, b, t) && OnlyAppends(b, c, t)
    ensures OnlyAppends(a, c, t)
  {
  }

  lemma {:induction false} AppendsThroughout(trace: seq<State>, i: nat, j: nat, t: nat)
    requires i <= j < |trace| && forall k :: i <= k < j ==> OnlyAppends(trace[k], trace[k + 1], t)
    ensures OnlyAppends(trace[i], trace[j], t)
    decreases j
  {
    if i < j {
      AppendsThroughout(trace, i, j - 1, t);
      assert OnlyAppends(trace[j - 1], trace[j - 1 + 1], t);
      AppendsTwice(trace[i], trace[j - 1], trace[j], t);
    }
  }

  lemma RunOnlyAppends(enc: Encoding, trace: seq<State>, commands: seq<Command>, i: nat, j: nat, t: nat)
    requires IsRun(enc, trace, commands) && Inv(enc, trace[0]) && i <= j < |trace|
    ensures OnlyAppends(trace[i], trace[j], t)
  {
    forall k | i <= k < j ensures OnlyAppends(trace[k], trace[k + 1], t) { StepOnlyAppends(enc, trace, commands, k, t); }
    AppendsThroughout(trace, i, j, t);
  }

  // ---------------------------------------------------------------------------
  // Exactly once.

  lemma ReplayIsAfter(enc: Encoding, s: State, t: nat, lastSeen: nat)
    requires Inv(enc, s) && t in s.turns && NothingMissed(s, t, lastSeen)
    ensures After(s.turns[t].events, lastSeen) == After(Of(s.published, t), lastSeen)
  {
    var all, kept := Of(s.published, t), s.turns[t].events;
    var lost := all[..|all| - |kept|];
    assert all == lost + kept;
    OfOrdered(s.published, t);
    forall e | e in lost ensures e.id <= lastSeen {
      var i :| 0 <= i < |lost| && lost[i] == e;
      assert all[i] == e;
      NotKept(all, kept, i);
    }
    AfterNone(lost, lastSeen);
    AfterConcat(lost, kept, lastSeen);
  }

  lemma NotKept(all: seq<Event>, kept: seq<Event>, i: nat)
    requires Ordered(all) && IsSuffix(kept, all) && i < |all| - |kept|
    ensures all[i] !in kept
  {
    forall k | 0 <= k < |kept| ensures kept[k].id > all[i].id { assert kept[k] == all[|all| - |kept| + k]; }
  }

  lemma LiveIsAfter(s: State, later: State, t: nat, lastSeen: nat)
    requires s.published <= later.published
    ensures After(Of(later.published, t), lastSeen)
         == After(Of(s.published, t), lastSeen) + After(Following(s, later, t), lastSeen)
  {
    assert s.published + later.published[|s.published|..] == later.published;
    OfConcat(s.published, later.published[|s.published|..], t);
    AfterConcat(Of(s.published, t), Following(s, later, t), lastSeen);
  }

  lemma NewerEndsLast(enc: Encoding, s: State, t: nat, lastSeen: nat)
    requires Inv(enc, s)
    ensures TerminalLast(After(Of(s.published, t), lastSeen))
    ensures CutOff(After(Of(s.published, t), lastSeen)) == After(Of(s.published, t), lastSeen)
  {
    OfTerminalLast(s.published, t);
    AfterTerminalLast(Of(s.published, t), lastSeen);
    CutOffKeepsAll(After(Of(s.published, t), lastSeen));
  }

  /** Exactly-once resume. In every run, a subscriber that joins turn `t` at
      state `i` with `lastSeen` has received by state `j` exactly the published
      events of the turn with a larger id, each once, in order, with nothing
      after a terminal event, if and only if `lastSeen` is not older than any
      event of the turn that was evicted by then. */
  lemma ResumeIsExactlyOnce(enc: Encoding, trace: seq<State>, commands: seq<Command>, i: nat, j: nat, t: nat, lastSeen: nat)
    requires IsRun(enc, trace, commands) && Inv(enc, trace[0]) && i <= j < |trace| && t in trace[i].turns
    ensures trace[i].published <= trace[j].published
    ensures Stream(trace[i], trace[j], t, lastSeen) == After(Of(trace[j].published, t), lastSeen)
        <==> NothingMissed(trace[i], t, lastSeen)
    ensures TerminalLast(After(Of(trace[j].published, t), lastSeen))
  {
    EveryRunKeepsInv(enc, trace, commands, i);
    EveryRunKeepsInv(enc, trace, commands, j);
    RunOnlyAppends(enc, trace, commands, i, j, t);
    NewerEndsLast(enc, trace[j], t, lastSeen);
    if NothingMissed(trace[i], t, lastSeen) {
      StreamIsAll(enc, trace[i], trace[j], t, lastSeen);
    } else {
      StreamLacks(enc, trace[i], trace[j], t, lastSeen);
    }
  }

  /** `later` follows `s` in some run, as far as turn `t` can tell. */
  ghost predicate Follows(s: State, later: State, t: nat) {
    s.published <= later.published && (Over(s, t) ==> Of(later.published, t) == Of(s.published, t))
  }

  lemma StreamIsAll(enc: Encoding, s: State, later: State, t: nat, lastSeen: nat)
    requires Inv(enc, s) && Inv(enc, later) && t in s.turns && NothingMissed(s, t, lastSeen) && Follows(s, later, t)
    ensures Stream(s, later, t, lastSeen) == After(Of(later.published, t), lastSeen)
  {
    ReplayIsAfter(enc, s, t, lastSeen);
    NewerEndsLast(enc, later, t, lastSeen);
    if IsTerminal(s.turns[t].status) { assert Over(s, t); } else { LiveIsAfter(s, later, t, lastSeen); }
  }

  lemma StreamLacks(enc: Encoding, s: State, later: State, t: nat, lastSeen: nat)
    requires Inv(enc, s) && Inv(enc, later) && t in s.turns && !NothingMissed(s, t, lastSeen) && s.published <= later.published
    ensures Stream(s, later, t, lastSeen) != After(Of(later.published, t), lastSeen)
  {
    var e :| e in Of(s.published, t) && e !in s.turns[t].events && e.id > lastSeen;
    LiveIsAfter(s, later, t, lastSeen);
    AfterMember(Of(s.published, t), lastSeen, e);
    assert later.published[..|s.published|] == s.published;
    NotPublishedAgain(later.published, |s.published|, t, e);
    AfterMember(s.turns[t].events, lastSeen, e);
    AfterMember(Following(s, later, t), lastSeen, e);
    StreamMembers(s, later, t, lastSeen, e);
  }

  lemma StreamMembers(s: State, later: State, t: nat, lastSeen: nat, e: Event)
    requires t in s.turns && s.published <= later.published
    requires e !in After(s.turns[t].events, lastSeen) && e !in After(Following(s, later, t), lastSeen)
    ensures e !in Stream(s, later, t, lastSeen)
  {
    CutOffMembers(After(s.turns[t].events, lastSeen), e);
    CutOffMembers(After(s.turns[t].events, lastSeen) + After(Following(s, later, t), lastSeen), e);
  }

  lemma NotPublishedAgain(published: seq<Event>, n: nat, t: nat, e: Event)
    requires Ordered(published) && n <= |published| && e in Of(published[..n], t)
    ensures e !in Of(published[n..], t)
  {
    OfMembers(published[..n], t, e);
    var i :| 0 <= i < n && published[i] == e;
    forall k | n <= k < |published| ensures published[k] != e { }
    if e in Of(published[n..], t) { OfMembers(published[n..], t, e); }
  }

  lemma {:induction false} CutOffMembers(events: seq<Event>, e: Event)
    requires e !in events
    ensures e !in CutOff(events)
  {
    if events != [] {
      assert events == [events[0]] + events[1..];
      CutOffMembers(events[1..], e);
    }
  }
}
