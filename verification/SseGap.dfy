/** A run in which a resumed stream lacks an event (src/api.rs owner_subscribe,
    push_event): a turn that publishes more than the replay log holds loses its
    first event. */
module SseGap {
  import opened Basics
  import opened Owner
  import opened ReplayLog
  import opened OwnerInvariant
  import opened OwnerSafety
  import opened SseResume

  lemma FirstIsGone(all: seq<Event>, kept: seq<Event>)
    requires Ordered(all) && all != [] && IsSuffix(kept, all) && kept != all
    ensures all[0] !in kept
  {
    forall i | 0 <= i < |kept| ensures kept[i] != all[0] { assert kept[i] == all[|all| - |kept| + i]; }
  }

  /** A turn that published more bytes than the log may hold no longer has its
      first event: whoever has not seen that one misses it. */
  lemma MoreThanFits(enc: Encoding, s: State, t: nat, lastSeen: nat)
    requires Inv(enc, s) && t in s.turns && TotalBytes(enc, Of(s.published, t)) > MAX_REPLAY_BYTES
    requires lastSeen < Of(s.published, t)[0].id
    ensures !NothingMissed(s, t, lastSeen)
  {
    var all, kept := Of(s.published, t), s.turns[t].events;
    SumBytesAtLeast(s.turns, t, s.nextTurn);
    OfOrdered(s.published, t);
    FirstIsGone(all, kept);
    assert all[0] in all;
  }

  // ---------------------------------------------------------------------------
  // One such run: a turn asks for approval again and again.

  /** Every event is as large as an event may be. */
  function Largest(e: Event): nat {
    MAX_EVENT_BYTES
  }

  lemma {:induction false} LargestBytes(events: seq<Event>)
    ensures TotalBytes(Largest, events) == MAX_EVENT_BYTES * |events|
  {
    if events != [] { LargestBytes(events[1..]); }
  }

  /** A live turn with `shown` published events, the first of them the first of all. */
  ghost predicate Shown(s: State, asked: nat, shown: nat) {
    && 1 in s.turns && !IsTerminal(s.turns[1].status) && |s.approvals| == asked
    && |Of(s.published, 1)| == shown && if shown == 0 then s.nextEvent == 1 else Of(s.published, 1)[0].id == 1
  }

  /** The turn published its beginning and `asked` requests. */
  ghost predicate Asking(s: State, asked: nat) {
    Inv(Largest, s) && Shown(s, asked, asked + 1)
  }

  lemma PushShows(s: State, kind: EventKind, asked: nat, shown: nat)
    requires Accounting(Largest, s) && Shown(s, asked, shown)
    ensures Shown(Push(Largest, s, 1, kind, false), asked, shown + 1)
  {
    PushShape(Largest, s, 1, kind, false);
    var e := NextEvent(s, 1, kind, false);
    assert (s.published + [e])[..|s.published|] == s.published;
  }

  /** The owner before its first turn. */
  ghost predicate Idle(s: State) {
    && Inv(Largest, s) && s.ready && s.active == 0 && s.turns == map[] && s.approvals == map[] && s.published == []
    && 1 in s.threads && s.nextTurn == 1 && s.nextEvent == 1
  }

  lemma FirstThread()
    ensures Idle(CreateThread(Initial(true)).0)
  {
    InitialInv(Largest, true);
    CreateThreadKeepsInv(Largest, Initial(true));
  }

  lemma AdmittedShows(s: State)
    requires Idle(s)
    ensures Accounting(Largest, AdmitTurn(s, 1)) && Shown(AdmitTurn(s, 1), 0, 0)
  {
    AdmitKeepsInv(Largest, s, 1);
  }

  lemma FirstTurn(s: State)
    requires Idle(s)
    ensures Asking(CreateTurn(Largest, s, 1, true).0, 0)
  {
    AdmittedShows(s);
    CreateTurnKeepsInv(Largest, s, 1, true);
    PushShows(AdmitTurn(s, 1), TurnBegan, 0, 0);
  }

  lemma Beginning() returns (trace: seq<State>)
    ensures IsRun(Largest, trace, [NewThread, NewTurn(1, true)]) && trace[0] == Initial(true) && Asking(trace[2], 0)
  {
    var s0 := Initial(true);
    var s1 := CreateThread(s0).0;
    var s2 := CreateTurn(Largest, s1, 1, true).0;
    FirstThread();
    FirstTurn(s1);
    Extend(Largest, [s0], [], NewThread, s1);
    Extend(Largest, [s0] + [s1], [] + [NewThread], NewTurn(1, true), s2);
    trace := [s0] + [s1] + [s2];
    assert [] + [NewThread] + [NewTurn(1, true)] == [NewThread, NewTurn(1, true)];
  }

  lemma AddedShows(s: State, asked: nat, shown: nat)
    requires Inv(Largest, s) && Shown(s, asked, shown)
    ensures Accounting(Largest, AddApproval(s, 1, true)) && Shown(AddApproval(s, 1, true), asked + 1, shown)
  {
    forall a | a in s.approvals ensures a != s.nextApproval { assert SenderHeld(s, a); }
    SumBytesUpdate(s.turns, 1, AddApproval(s, 1, true).turns[1], s.nextTurn);
  }

  lemma AskAgain(s: State, asked: nat)
    requires Asking(s, asked) && asked < MAX_APPROVALS
    ensures Asking(RegisterPending(Largest, s, 1, true, "").0, asked + 1)
  {
    RegisterKeepsInv(Largest, s, 1, true, "");
    AddedShows(s, asked, asked + 1);
    PushShows(AddApproval(s, 1, true), ApprovalAsked(s.nextApproval, ""), asked + 1, asked + 1);
  }

  lemma {:induction false} Asks(asked: nat) returns (trace: seq<State>, commands: seq<Command>)
    requires asked <= MAX_APPROVALS
    ensures IsRun(Largest, trace, commands) && trace[0] == Initial(true) && Asking(trace[|commands|], asked)
  {
    if asked == 0 {
      trace := Beginning();
      commands := [NewThread, NewTurn(1, true)];
    } else {
      trace, commands := Asks(asked - 1);
      var next := RegisterPending(Largest, trace[|commands|], 1, true, "").0;
      AskAgain(trace[|commands|], asked - 1);
      Extend(Largest, trace, commands, Ask(1, true, ""), next);
      trace, commands := trace + [next], commands + [Ask(1, true, "")];
    }
  }

  /** After 64 requests a subscriber that has seen nothing does not receive the
      turn's first event, whatever follows. */
  lemma StreamMissesItsStart() returns (trace: seq<State>, commands: seq<Command>)
    ensures IsRun(Largest, trace, commands) && trace[0] == Initial(true) && 1 in trace[|commands|].turns
    ensures var s := trace[|commands|]; Stream(s, s, 1, 0) != After(Of(s.published, 1), 0)
  {
    trace, commands := Asks(64);
    var s := trace[|commands|];
    LargestBytes(Of(s.published, 1));
    MoreThanFits(Largest, s, 1, 0);
    InitialInv(Largest, true);
    ResumeIsExactlyOnce(Largest, trace, commands, |commands|, |commands|, 1, 0);
  }
}
