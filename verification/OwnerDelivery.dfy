/** Which approvals an interrupt leaves in delivery (src/api.rs owner_interrupt).
    It claims every pending approval at once but stops at the first failed
    delivery, so "no approval in delivery on a turn that is over" is false; this
    module says exactly when. */
module OwnerDelivery {
  import opened Owner
  import opened OwnerInvariant
  import opened OwnerSafety
  import opened OwnerHistory

  /** How many of the claimed decisions are handed over: up to and including the
      first that is not acknowledged. */
  function Handed(order: seq<nat>, acks: seq<bool>): (n: nat)
    ensures n <= |order|
  {
    if order == [] then 0
    else if acks == [] || !acks[0] then 1
    else 1 + Handed(order[1..], acks[1..])
  }

  ghost predicate InDelivery(s: State, a: nat) {
    a in s.approvals && s.approvals[a].status == Delivering
  }

  lemma DenyOneDelivers(enc: Encoding, s: State, t: nat, authority: Authority, a: nat, ack: bool)
    requires a in s.approvals
    ensures forall b :: InDelivery(DenyOne(enc, s, t, authority, a, ack), b) <==> InDelivery(s, b) && b != a
  {
    var told := Deliver(s, a, if TimesOut(authority) then Timeout else Deny, ack, Denied);
    PushKeepsApprovals(enc, told, t, ApprovalSettled(a, Denied, "interrupt"), false);
  }

  lemma {:induction false} DeliverAllLeaves(enc: Encoding, s: State, t: nat, authority: Authority, order: seq<nat>, acks: seq<bool>)
    requires forall a :: a in order ==> a in s.approvals
    ensures forall a :: InDelivery(DeliverAll(enc, s, t, authority, order, acks).0, a) <==> InDelivery(s, a) && a !in order[..Handed(order, acks)]
    decreases |order|
  {
    if order != [] {
      var ack := acks != [] && acks[0];
      DenyOneDelivers(enc, s, t, authority, order[0], ack);
      DeliverOne(enc, s, t, authority, order, acks);
      if ack {
        DeliverAllLeaves(enc, DenyOne(enc, s, t, authority, order[0], ack), t, authority, order[1..], acks[1..]);
        assert order[..Handed(order, acks)] == [order[0]] + order[1..][..Handed(order[1..], acks[1..])];
      } else {
        assert order[..1] == [order[0]];
      }
    }
  }

  lemma {:induction false} PushDenialsKeepApprovals(enc: Encoding, s: State, t: nat, order: seq<nat>)
    ensures PushDenials(enc, s, t, order).approvals == s.approvals
    decreases |order|
  {
    if order != [] {
      var kind := ApprovalSettled(order[0], Denied, "terminal");
      PushKeepsApprovals(enc, s, t, kind, false);
      PushDenialsKeepApprovals(enc, Push(enc, s, t, kind, false), t, order[1..]);
    }
  }

  lemma TerminalizeKeepsDelivery(enc: Encoding, s: State, t: nat, status: TurnStatus, detail: string, order: seq<nat>)
    ensures forall a :: InDelivery(Terminalize(enc, s, t, status, detail, order), a) <==> InDelivery(s, a)
  {
    if t in s.turns && !IsTerminal(s.turns[t].status) {
      var told := PushDenials(enc, Close(s, t, status), t, order);
      PushDenialsKeepApprovals(enc, Close(s, t, status), t, order);
      PushKeepsApprovals(enc, told, t, TurnOver(status, detail), true);
    }
  }

  lemma Halves(order: seq<nat>, n: nat)
    requires Distinct(order) && n <= |order|
    ensures forall a :: a in order[n..] <==> a in order && a !in order[..n]
  {
    assert order == order[..n] + order[n..];
  }

  /** After an interrupt of a live turn, the approvals in delivery are those that
      were before, and those claimed after the first failed delivery. */
  lemma InterruptLeaves(enc: Encoding, s: State, t: nat, authority: Authority, order: seq<nat>, acks: seq<bool>, control: Control)
    requires Visits(s, t, order) && t in s.turns && !IsTerminal(s.turns[t].status)
    ensures forall a :: InDelivery(Interrupt(enc, s, t, authority, order, acks, control).0, a)
                        <==> InDelivery(s, a) || a in order[Handed(order, acks)..]
  {
    var claimed := ClaimAll(s, t);
    forall a ensures InDelivery(claimed, a) <==> InDelivery(s, a) || a in order { assert a in order <==> a in PendingOf(s, t); }
    DeliverAllLeaves(enc, claimed, t, authority, order, acks);
    Halves(order, Handed(order, acks));
    forall a | a in order ensures !InDelivery(s, a) { assert a in PendingOf(s, t); }
    forall a | a in order[..Handed(order, acks)] ensures a in order { }
    var told := DeliverAll(enc, claimed, t, authority, order, acks).0;
    TerminalizeKeepsDelivery(enc, told, t, if TimesOut(authority) then Failed else Interrupted, "interrupt", []);
    TerminalizeKeepsDelivery(enc, told, t, Failed, "delivery_ambiguous", []);
  }

  lemma {:induction false} AllHanded(enc: Encoding, s: State, t: nat, authority: Authority, order: seq<nat>, acks: seq<bool>)
    requires forall a :: a in order ==> a in s.approvals
    ensures DeliverAll(enc, s, t, authority, order, acks).1 <==> (|order| <= |acks| && forall i :: 0 <= i < |order| ==> acks[i])
    decreases |order|
  {
    if order != [] && acks != [] && acks[0] {
      PushKeepsApprovals(enc, Deliver(s, order[0], if TimesOut(authority) then Timeout else Deny, true, Denied), t,
                         ApprovalSettled(order[0], Denied, "interrupt"), false);
      var next := DenyOne(enc, s, t, authority, order[0], true);
      AllHanded(enc, next, t, authority, order[1..], acks[1..]);
      if DeliverAll(enc, next, t, authority, order[1..], acks[1..]).1 {
        forall i | 0 <= i < |order| ensures acks[i] { if i > 0 { assert acks[1..][i - 1]; } }
      } else if |order| <= |acks| {
        var i :| 0 <= i < |order[1..]| && !acks[1..][i];
        assert !acks[i + 1];
      }
    }
  }

  /** Nothing is decided behind the authority's back: an interrupt reports done
      only if every claimed approval acknowledged its denial. */
  lemma DoneMeansAllDenied(enc: Encoding, s: State, t: nat, authority: Authority, order: seq<nat>, acks: seq<bool>, control: Control)
    requires Inv(enc, s) && Visits(s, t, order)
    requires Interrupt(enc, s, t, authority, order, acks, control).1 == Done
    ensures |order| <= |acks| && forall i :: 0 <= i < |order| ==> acks[i]
  {
    AllHanded(enc, ClaimAll(s, t), t, authority, order, acks);
  }

  // ---------------------------------------------------------------------------
  // Over whole runs.

  ghost predicate Live(s: State, t: nat) {
    t in s.turns && !IsTerminal(s.turns[t].status)
  }

  /** The command interrupts a live turn, claims the approval, and fails to deliver
      an earlier one. */
  ghost predicate Abandons(s: State, c: Command, a: nat) {
    match c
    case Stop(t, _, order, acks, _) => Live(s, t) && a in order[Handed(order, acks)..]
    case ControllerDrop(t, order, acks, _) => Live(s, t) && a in order[Handed(order, acks)..]
    case ApprovalDeadline(t, due, order, acks, _) =>
      Live(s, t) && due in s.approvals && s.approvals[due].turn == t && s.approvals[due].status == Pending
      && a in order[Handed(order, acks)..]
    case _ => false
  }

  lemma StopDelivers(enc: Encoding, s: State, t: nat, authority: Authority, order: seq<nat>, acks: seq<bool>, control: Control, a: nat)
    requires Visits(s, t, order)
    ensures InDelivery(Interrupt(enc, s, t, authority, order, acks, control).0, a)
            <==> InDelivery(s, a) || (Live(s, t) && a in order[Handed(order, acks)..])
  {
    if Live(s, t) { InterruptLeaves(enc, s, t, authority, order, acks, control); }
  }

  lemma CreateTurnDelivers(enc: Encoding, s: State, thread: nat, journal: bool, a: nat)
    ensures InDelivery(CreateTurn(enc, s, thread, journal).0, a) ==> InDelivery(s, a)
  {
    PushKeepsApprovals(enc, AdmitTurn(Room(s), thread), s.nextTurn, TurnBegan, false);
  }

  lemma DecideDelivers(enc: Encoding, s: State, a: nat, approve: bool, acknowledged: bool, b: nat)
    requires a in s.approvals && s.approvals[a].status == Pending ==> s.approvals[a].sender
    ensures InDelivery(Decide(enc, s, a, approve, acknowledged).0, b) ==> InDelivery(s, b)
  {
    if a in s.approvals && s.approvals[a].status == Pending {
      var grant := approve && s.approvals[a].allow;
      var outcome := if grant && acknowledged then Approved else Denied;
      var told := Deliver(Claim(s, a), a, if grant then Allow else Deny, acknowledged, outcome);
      PushKeepsApprovals(enc, told, s.approvals[a].turn, ApprovalSettled(a, outcome, "decision"), false);
    }
  }

  lemma RegisterDelivers(enc: Encoding, s: State, t: nat, allow: bool, body: string, a: nat)
    ensures InDelivery(RegisterPending(enc, s, t, allow, body).0, a) ==> InDelivery(s, a)
  {
    if RegisterPending(enc, s, t, allow, body).1 == Done {
      PushKeepsApprovals(enc, AddApproval(s, t, allow), t, ApprovalAsked(s.nextApproval, body), false);
    }
  }

  lemma FinishDelivers(enc: Encoding, s: State, t: nat, result: RunResult, order: seq<nat>, a: nat)
    ensures InDelivery(Finish(enc, s, t, result, order), a) <==> InDelivery(s, a)
  {
    var noted := if result.RunFailed? then s.(ready := false) else s;
    match result
    case RunCompleted(summary) => TerminalizeKeepsDelivery(enc, noted, t, Completed, summary, order);
    case RunInterrupted => TerminalizeKeepsDelivery(enc, noted, t, Interrupted, "interrupted", order);
    case RunRejected => TerminalizeKeepsDelivery(enc, noted, t, Failed, "turn_rejected", order);
    case RunFailed => TerminalizeKeepsDelivery(enc, noted, t, Failed, "runtime_failure", order);
  }

  /** Only an abandoning command puts an approval in delivery and leaves it there. */
  lemma StepDelivers(enc: Encoding, s: State, c: Command, a: nat)
    requires Inv(enc, s) && Possible(s, c)
    ensures InDelivery(Step(enc, s, c), a) ==> InDelivery(s, a) || Abandons(s, c, a)
    ensures Abandons(s, c, a) ==> InDelivery(Step(enc, s, c), a)
  {
    match c
    case NewTurn(thread, journal) => CreateTurnDelivers(enc, s, thread, journal, a);
    case Rule(b, approve, acknowledged) =>
      if b in s.approvals { assert SenderHeld(s, b); }
      DecideDelivers(enc, s, b, approve, acknowledged, a);
    case Stop(t, authority, order, acks, control) => StopDelivers(enc, s, t, authority, order, acks, control, a);
    case ControllerDrop(t, order, acks, control) => StopDelivers(enc, s, t, SseDrop, order, acks, control, a);
    case Ask(t, allow, body) => RegisterDelivers(enc, s, t, allow, body, a);
    case ApprovalDeadline(t, b, order, acks, control) => StopDelivers(enc, s, t, ApprovalTimeout, order, acks, control, a);
    case Finished(t, result, order) => FinishDelivers(enc, s, t, result, order, a);
    case _ =>
  }

  lemma RunDelivers(enc: Encoding, trace: seq<State>, commands: seq<Command>, i: nat, a: nat)
    requires IsRun(enc, trace, commands) && Inv(enc, trace[0]) && i < |commands|
    ensures InDelivery(trace[i + 1], a) ==> InDelivery(trace[i], a) || Abandons(trace[i], commands[i], a)
    ensures Abandons(trace[i], commands[i], a) ==> InDelivery(trace[i + 1], a)
  {
    EveryRunKeepsInv(enc, trace, commands, i);
    StepDelivers(enc, trace[i], commands[i], a);
  }

  lemma {:induction false} InDeliveryWasAbandoned(enc: Encoding, trace: seq<State>, commands: seq<Command>, j: nat, a: nat)
    requires IsRun(enc, trace, commands) && trace[0].approvals == map[] && Inv(enc, trace[0]) && j < |trace|
    ensures InDelivery(trace[j], a) ==> exists i :: 0 <= i < j && Abandons(trace[i], commands[i], a)
    decreases j
  {
    if j > 0 {
      RunDelivers(enc, trace, commands, j - 1, a);
      InDeliveryWasAbandoned(enc, trace, commands, j - 1, a);
    }
  }

  /** In every run from the start, a retained approval is in delivery exactly if
      some earlier interrupt abandoned it; once abandoned it stays so whatever
      follows, also when its turn ends. */
  lemma InDeliveryExactly(enc: Encoding, trace: seq<State>, commands: seq<Command>, ready: bool, j: nat, a: nat)
    requires IsRun(enc, trace, commands) && trace[0] == Initial(ready) && j < |trace|
    ensures InDelivery(trace[j], a)
       <==> a in trace[j].approvals && exists i :: 0 <= i < j && Abandons(trace[i], commands[i], a)
  {
    InitialInv(enc, ready);
    InDeliveryWasAbandoned(enc, trace, commands, j, a);
    if i :| 0 <= i < j && Abandons(trace[i], commands[i], a) {
      RunDelivers(enc, trace, commands, i, a);
      DecidedForGood(enc, trace, commands, i + 1, j, a);
    }
  }

  // ---------------------------------------------------------------------------
  // One such run.

  function OneByte(e: Event): nat {
    1
  }

  lemma SmallPush(s: State, t: nat, kind: EventKind)
    requires t in s.turns && s.replayBytes <= 64
    ensures var p := Push(OneByte, s, t, kind, false);
            && p.turns.Keys == s.turns.Keys
            && (forall u :: u in s.turns ==> p.turns[u].status == s.turns[u].status)
            && p == s.(turns := p.turns, replayBytes := p.replayBytes, published := p.published, nextEvent := s.nextEvent + 1)
            && p.replayBytes <= s.replayBytes + 1
  {
    PushKeepsApprovals(OneByte, s, t, kind, false);
  }

  function FirstIds(n: nat): set<nat> {
    if n == 0 then {} else FirstIds(n - 1) + {n}
  }

  /** The state after a thread, a turn on it, and `asked` requests. */
  ghost predicate Waiting(s: State, asked: nat) {
    && s.turns.Keys == {1} && !IsTerminal(s.turns[1].status) && s.replayBytes <= 1 + asked
    && s.nextApproval == asked + 1 && asked <= 2
    && s.approvals.Keys == FirstIds(asked) && |s.approvals| == asked
    && forall a :: a in s.approvals ==> s.approvals[a] == Approval(1, Pending, true, true)
  }

  lemma FirstTurn(ready: State)
    requires ready == Initial(true)
    ensures Waiting(CreateTurn(OneByte, CreateThread(ready).0, 1, true).0, 0)
  {
    var s := CreateThread(ready).0;
    SmallPush(AdmitTurn(s, 1), 1, TurnBegan);
  }

  lemma AddWaits(s: State, asked: nat)
    requires Waiting(s, asked) && asked < 2
    ensures Waiting(AddApproval(s, 1, true), asked + 1)
  {
    assert asked + 1 !in FirstIds(asked);
  }

  lemma PushWaits(s: State, kind: EventKind, asked: nat)
    requires Waiting(s, asked) && s.replayBytes <= asked
    ensures Waiting(Push(OneByte, s, 1, kind, false), asked)
  {
    SmallPush(s, 1, kind);
  }

  lemma AskOnce(s: State, asked: nat)
    requires Waiting(s, asked) && asked < 2
    ensures Waiting(RegisterPending(OneByte, s, 1, true, "").0, asked + 1)
  {
    AddWaits(s, asked);
    PushWaits(AddApproval(s, 1, true), ApprovalAsked(s.nextApproval, ""), asked + 1);
  }

  lemma OneWaits(s: State)
    requires Waiting(s, 2)
    ensures 1 in s.approvals && s.approvals[1] == Approval(1, Pending, true, true)
  {
    assert 1 in FirstIds(1) && FirstIds(2) == FirstIds(1) + {2};
  }

  lemma VisitsBoth(s: State)
    requires Waiting(s, 2)
    ensures Visits(s, 1, [1, 2])
  {
    assert PendingOf(s, 1) == {1, 2};
  }

  lemma AskMore(trace: seq<State>, commands: seq<Command>, asked: nat) returns (longer: seq<State>)
    requires IsRun(OneByte, trace, commands) && asked < 2 && Waiting(trace[|commands|], asked)
    ensures IsRun(OneByte, longer, commands + [Ask(1, true, "")])
    ensures longer[0] == trace[0] && Waiting(longer[|commands| + 1], asked + 1)
  {
    var next := RegisterPending(OneByte, trace[|commands|], 1, true, "").0;
    AskOnce(trace[|commands|], asked);
    Extend(OneByte, trace, commands, Ask(1, true, ""), next);
    longer := trace + [next];
  }

  lemma OpenTurn() returns (trace: seq<State>)
    ensures IsRun(OneByte, trace, [NewThread, NewTurn(1, true)])
    ensures trace[0] == Initial(true) && Waiting(trace[2], 0)
  {
    var s0 := Initial(true);
    var s1 := CreateThread(s0).0;
    var s2 := CreateTurn(OneByte, s1, 1, true).0;
    FirstTurn(s0);
    Extend(OneByte, [s0], [], NewThread, s1);
    Extend(OneByte, [s0] + [s1], [] + [NewThread], NewTurn(1, true), s2);
    trace := [s0] + [s1] + [s2];
    assert [] + [NewThread] + [NewTurn(1, true)] == [NewThread, NewTurn(1, true)];
  }

  /** Two approvals are asked on a turn. */
  lemma Opening() returns (trace: seq<State>)
    ensures IsRun(OneByte, trace, [NewThread, NewTurn(1, true), Ask(1, true, ""), Ask(1, true, "")])
    ensures trace[0] == Initial(true) && Waiting(trace[4], 2)
  {
    var first := OpenTurn();
    var second := AskMore(first, [NewThread, NewTurn(1, true)], 0);
    trace := AskMore(second, [NewThread, NewTurn(1, true)] + [Ask(1, true, "")], 1);
    assert [NewThread, NewTurn(1, true)] + [Ask(1, true, "")] + [Ask(1, true, "")] == [NewThread, NewTurn(1, true), Ask(1, true, ""), Ask(1, true, "")];
  }

  /** The first denial of an interrupt cannot be delivered, and the turn ends: the
      second approval is in delivery on a turn that is over. */
  lemma AbandonedOnEndedTurn() returns (trace: seq<State>, commands: seq<Command>)
    ensures IsRun(OneByte, trace, commands) && trace[0] == Initial(true) && |commands| == 6
    ensures InDelivery(trace[6], 2) && trace[6].approvals[2].turn == 1
    ensures 1 in trace[6].turns && trace[6].turns[1].status == Interrupted
  {
    trace := Opening();
    commands := [NewThread, NewTurn(1, true), Ask(1, true, ""), Ask(1, true, "")];
    var s4 := trace[4];
    var s5 := Interrupt(OneByte, s4, 1, InterruptCall, [1, 2], [], ChannelClosed).0;
    var s6 := Finish(OneByte, s5, 1, RunInterrupted, []);
    VisitsBoth(s4);
    StopOnce(s4, s5);
    EndOnce(s5, s6);
    Extend(OneByte, trace, commands, Stop(1, InterruptCall, [1, 2], [], ChannelClosed), s5);
    trace, commands := trace + [s5], commands + [Stop(1, InterruptCall, [1, 2], [], ChannelClosed)];
    Extend(OneByte, trace, commands, Finished(1, RunInterrupted, []), s6);
    trace, commands := trace + [s6], commands + [Finished(1, RunInterrupted, [])];
  }

  /** After the failed interrupt: nothing pending, the second one in delivery. */
  ghost predicate Abandoned(s: State) {
    && s.turns.Keys == {1} && !IsTerminal(s.turns[1].status) && s.replayBytes <= 4
    && s.approvals.Keys == {1, 2} && s.approvals[1].status == Denied
    && s.approvals[2] == Approval(1, Delivering, true, false)
  }

  lemma StopOnce(s: State, next: State)
    requires Waiting(s, 2) && next == Interrupt(OneByte, s, 1, InterruptCall, [1, 2], [], ChannelClosed).0
    ensures Abandoned(next) && Visits(next, 1, [])
  {
    var claimed := ClaimAll(s, 1);
    var told := Deliver(claimed, 1, Deny, false, Denied);
    SmallPush(told, 1, ApprovalSettled(1, Denied, "interrupt"));
  }

  lemma EndOnce(s: State, next: State)
    requires Abandoned(s) && Visits(s, 1, []) && next == Finish(OneByte, s, 1, RunInterrupted, [])
    ensures next.turns.Keys == {1} && next.turns[1].status == Interrupted
    ensures InDelivery(next, 2) && next.approvals[2].turn == 1
  {
    var closed := Close(s, 1, Interrupted);
    EndPush(closed, TurnOver(Interrupted, "interrupted"));
    TerminalizeKeepsDelivery(OneByte, s, 1, Interrupted, "interrupted", []);
  }

  lemma EndPush(s: State, kind: EventKind)
    requires 1 in s.turns && s.replayBytes <= 64
    ensures var p := Push(OneByte, s, 1, kind, true);
            p.turns.Keys == s.turns.Keys && p.turns[1].status == s.turns[1].status && p.approvals == s.approvals
  {
    PushKeepsApprovals(OneByte, s, 1, kind, true);
  }
}
