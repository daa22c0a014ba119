/** Which end each command gives a turn (src/api.rs owner_interrupt,
    owner_finished, terminalize): said of the command and what the runtime
    answered, for one step and for whole runs. */
module OwnerEnds {
  import opened Text
  import opened Owner
  import opened ReplayLog
  import opened OwnerInvariant
  import opened OwnerSafety
  import opened OwnerHistory
  import opened OwnerDelivery

  // ---------------------------------------------------------------------------
  // The guards.

  /** Every claimed approval acknowledged its denial. */
  predicate AllAcknowledged(order: seq<nat>, acks: seq<bool>) {
    |order| <= |acks| && forall i :: 0 <= i < |order| ==> acks[i]
  }

  /** The end an interrupt gives a live turn: none unless all denials were
      delivered, the runtime could be told, and it answered in time; Interrupted
      only on its own word, and not for a deadline. */
  function StopEnds(turn: Turn, authority: Authority, order: seq<nat>, acks: seq<bool>, control: Control): Option<TurnStatus> {
    if !AllAcknowledged(order, acks) || !turn.control || control.AckTimedOut? then None
    else if control.ReportsInterrupted? && authority != ApprovalTimeout && authority != TurnDeadline then Some(Interrupted)
    else Some(Failed)
  }

  function FinishEnds(result: RunResult): TurnStatus {
    match result
    case RunCompleted(_) => Completed
    case RunInterrupted => Interrupted
    case _ => Failed
  }

  /** The end command `c` gives turn `t`, if any. */
  ghost function EndsAs(s: State, c: Command, t: nat): Option<TurnStatus> {
    if !Live(s, t) then None
    else
      match c
      case Stop(u, authority, order, acks, control) => if u == t then StopEnds(s.turns[t], authority, order, acks, control) else None
      case ControllerDrop(u, order, acks, control) => if u == t then StopEnds(s.turns[t], SseDrop, order, acks, control) else None
      case ApprovalDeadline(u, due, order, acks, control) =>
        if u == t && due in s.approvals && s.approvals[due].turn == t && s.approvals[due].status == Pending
        then StopEnds(s.turns[t], ApprovalTimeout, order, acks, control) else None
      case Finished(u, result, _) => if u == t then Some(FinishEnds(result)) else None
      case _ => None
  }

  // ---------------------------------------------------------------------------
  // One command.

  /** The same turns, but for the events they retain. */
  ghost predicate SameStatuses(s: State, next: State) {
    && next.turns.Keys == s.turns.Keys
    && forall t :: t in s.turns ==> next.turns[t] == s.turns[t].(events := next.turns[t].events, bytes := next.turns[t].bytes)
  }

  lemma EvictKeepsStatuses(enc: Encoding, s: State, size: nat)
    ensures SameStatuses(s, Evict(enc, s, size))
  {
    EvictTrims(enc, s, size);
  }

  lemma PushKeepsStatuses(enc: Encoding, s: State, t: nat, kind: EventKind, terminal: bool)
    ensures SameStatuses(s, Push(enc, s, t, kind, terminal))
  {
    EvictKeepsStatuses(enc, Numbered(s), enc(NextEvent(s, t, kind, terminal)));
  }

  lemma {:induction false} DeliverAllKeepsStatuses(enc: Encoding, s: State, t: nat, authority: Authority, order: seq<nat>, acks: seq<bool>)
    requires forall a :: a in order ==> a in s.approvals
    ensures SameStatuses(s, DeliverAll(enc, s, t, authority, order, acks).0)
    decreases |order|
  {
    if order != [] {
      var ack := acks != [] && acks[0];
      PushKeepsStatuses(enc, Deliver(s, order[0], if TimesOut(authority) then Timeout else Deny, ack, Denied), t,
                        ApprovalSettled(order[0], Denied, "interrupt"), false);
      DeliverOne(enc, s, t, authority, order, acks);
      if ack { DeliverAllKeepsStatuses(enc, DenyOne(enc, s, t, authority, order[0], ack), t, authority, order[1..], acks[1..]); }
    }
  }

  lemma {:induction false} PushDenialsKeepsStatuses(enc: Encoding, s: State, t: nat, order: seq<nat>)
    ensures SameStatuses(s, PushDenials(enc, s, t, order))
    decreases |order|
  {
    if order != [] {
      var kind := ApprovalSettled(order[0], Denied, "terminal");
      PushKeepsStatuses(enc, s, t, kind, false);
      PushDenialsKeepsStatuses(enc, Push(enc, s, t, kind, false), t, order[1..]);
    }
  }

  /** The same turns, but for the events they retain and `status` for turn `t`. */
  ghost predicate Ends(s: State, next: State, t: nat, status: TurnStatus)
    requires t in s.turns
  {
    && next.turns.Keys == s.turns.Keys
    && forall u :: u in s.turns ==>
         next.turns[u] == s.turns[u].(events := next.turns[u].events, bytes := next.turns[u].bytes,
                                      status := if u == t then status else s.turns[u].status)
  }

  lemma TerminalizeEnds(enc: Encoding, s: State, t: nat, status: TurnStatus, detail: string, order: seq<nat>)
    requires Live(s, t)
    ensures Ends(s, Terminalize(enc, s, t, status, detail, order), t, status)
  {
    PushDenialsKeepsStatuses(enc, Close(s, t, status), t, order);
    PushKeepsStatuses(enc, PushDenials(enc, Close(s, t, status), t, order), t, TurnOver(status, detail), true);
  }

  /** Nothing but turns, approvals and the replay log changes. */
  ghost predicate SameRest(s: State, next: State) {
    && next.ready == s.ready && next.threads == s.threads && next.nextThread == s.nextThread
    && next.nextTurn == s.nextTurn && next.nextApproval == s.nextApproval && next.deliveries == s.deliveries
  }

  lemma {:induction false} PushDenialsKeepsRest(enc: Encoding, s: State, t: nat, order: seq<nat>)
    ensures SameRest(s, PushDenials(enc, s, t, order)) && PushDenials(enc, s, t, order).approvals == s.approvals
    decreases |order|
  {
    if order != [] {
      var kind := ApprovalSettled(order[0], Denied, "terminal");
      PushKeepsApprovals(enc, s, t, kind, false);
      PushDenialsKeepsRest(enc, Push(enc, s, t, kind, false), t, order[1..]);
    }
  }

  lemma TerminalizeKeepsRest(enc: Encoding, s: State, t: nat, status: TurnStatus, detail: string, order: seq<nat>)
    ensures SameRest(s, Terminalize(enc, s, t, status, detail, order))
  {
    if Live(s, t) {
      PushDenialsKeepsRest(enc, Close(s, t, status), t, order);
      PushKeepsApprovals(enc, PushDenials(enc, Close(s, t, status), t, order), t, TurnOver(status, detail), true);
    }
  }

  lemma DeliveredStaysLive(enc: Encoding, s: State, t: nat, authority: Authority, order: seq<nat>, acks: seq<bool>)
    requires Visits(s, t, order) && Live(s, t)
    ensures var told := DeliverAll(enc, ClaimAll(s, t), t, authority, order, acks);
            Ends(s, told.0, t, s.turns[t].status) && (told.1 <==> AllAcknowledged(order, acks))
  {
    DeliverAllKeepsStatuses(enc, ClaimAll(s, t), t, authority, order, acks);
    AllHanded(enc, ClaimAll(s, t), t, authority, order, acks);
  }

  lemma InterruptReply(enc: Encoding, s: State, t: nat, authority: Authority, order: seq<nat>, acks: seq<bool>, control: Control)
    requires Visits(s, t, order) && Live(s, t)
    ensures Interrupt(enc, s, t, authority, order, acks, control).1
            == if !AllAcknowledged(order, acks) then DeliveryFailed
               else if !s.turns[t].control then TurnClosed
               else if control.AckTimedOut? then InterruptTimeout else Done
  {
    AllHanded(enc, ClaimAll(s, t), t, authority, order, acks);
  }

  lemma InterruptIs(enc: Encoding, s: State, t: nat, authority: Authority, order: seq<nat>, acks: seq<bool>, control: Control, told: State)
    requires Visits(s, t, order) && Live(s, t) && told == DeliverAll(enc, ClaimAll(s, t), t, authority, order, acks).0
    ensures Interrupt(enc, s, t, authority, order, acks, control).0
            == if AllAcknowledged(order, acks) && s.turns[t].control then Answer(enc, told, t, authority, control).0 else told
  {
    AllHanded(enc, ClaimAll(s, t), t, authority, order, acks);
  }

  lemma AnsweredEnds(enc: Encoding, s: State, told: State, t: nat, authority: Authority, control: Control)
    requires Live(s, t) && Ends(s, told, t, s.turns[t].status) && !control.AckTimedOut?
    ensures Ends(s, Answer(enc, told, t, authority, control).0, t,
                 if control.ReportsInterrupted? && authority != ApprovalTimeout && authority != TurnDeadline then Interrupted else Failed)
  {
    var status := if control.ReportsInterrupted? && authority != ApprovalTimeout && authority != TurnDeadline then Interrupted else Failed;
    AnswerEnds(enc, told, t, authority, control);
    EndsTwice(s, told, Answer(enc, told, t, authority, control).0, t, s.turns[t].status, status);
  }

  lemma InterruptStatus(enc: Encoding, s: State, t: nat, authority: Authority, order: seq<nat>, acks: seq<bool>, control: Control)
    requires Visits(s, t, order) && Live(s, t)
    ensures Ends(s, Interrupt(enc, s, t, authority, order, acks, control).0, t,
                 StopEnds(s.turns[t], authority, order, acks, control).GetOr(s.turns[t].status))
  {
    var told := DeliverAll(enc, ClaimAll(s, t), t, authority, order, acks).0;
    DeliveredStaysLive(enc, s, t, authority, order, acks);
    InterruptIs(enc, s, t, authority, order, acks, control, told);
    if !control.AckTimedOut? { AnsweredEnds(enc, s, told, t, authority, control); }
  }

  /** What an interrupt of a live turn does to it, and what it answers. */
  lemma InterruptExactly(enc: Encoding, s: State, t: nat, authority: Authority, order: seq<nat>, acks: seq<bool>, control: Control)
    requires Visits(s, t, order) && Live(s, t)
    ensures var (next, reply) := Interrupt(enc, s, t, authority, order, acks, control);
            && Ends(s, next, t, StopEnds(s.turns[t], authority, order, acks, control).GetOr(s.turns[t].status))
            && reply == (if !AllAcknowledged(order, acks) then DeliveryFailed
                         else if !s.turns[t].control then TurnClosed
                         else if control.AckTimedOut? then InterruptTimeout else Done)
  {
    InterruptReply(enc, s, t, authority, order, acks, control);
    InterruptStatus(enc, s, t, authority, order, acks, control);
  }

  lemma EndsTwice(a: State, b: State, c: State, t: nat, first: TurnStatus, second: TurnStatus)
    requires t in a.turns && Ends(a, b, t, first) && Ends(b, c, t, second)
    ensures Ends(a, c, t, second)
  {
  }

  lemma AnswerEnds(enc: Encoding, s: State, t: nat, authority: Authority, control: Control)
    requires Live(s, t) && !control.AckTimedOut?
    ensures var status := if control.ReportsInterrupted? && authority != ApprovalTimeout && authority != TurnDeadline then Interrupted else Failed;
            Ends(s, Answer(enc, s, t, authority, control).0, t, status)
  {
    TerminalizeEnds(enc, s, t, if TimesOut(authority) then Failed else Interrupted, "interrupt", []);
    TerminalizeEnds(enc, s, t, Failed, "delivery_ambiguous", []);
  }

  lemma FinishExactly(enc: Encoding, s: State, t: nat, result: RunResult, order: seq<nat>)
    requires Live(s, t)
    ensures Ends(s, Finish(enc, s, t, result, order), t, FinishEnds(result))
    ensures Finish(enc, s, t, result, order).ready == (s.ready && !result.RunFailed?)
  {
    var noted := if result.RunFailed? then s.(ready := false) else s;
    match result
    case RunCompleted(summary) => TerminalizeEnds(enc, noted, t, Completed, summary, order); TerminalizeKeepsRest(enc, noted, t, Completed, summary, order);
    case RunInterrupted =>
      TerminalizeEnds(enc, noted, t, Interrupted, "interrupted", order);
      TerminalizeKeepsRest(enc, noted, t, Interrupted, "interrupted", order);
    case RunRejected => TerminalizeEnds(enc, noted, t, Failed, "turn_rejected", order); TerminalizeKeepsRest(enc, noted, t, Failed, "turn_rejected", order);
    case RunFailed => TerminalizeEnds(enc, noted, t, Failed, "runtime_failure", order); TerminalizeKeepsRest(enc, noted, t, Failed, "runtime_failure", order);
  }

  // ---------------------------------------------------------------------------
  // Any command, and runs of them.

  /** The status a retained turn has after one command: the end it gives, or that
      it waits for an approval, or what it was. */
  ghost function StatusAfter(enc: Encoding, s: State, c: Command, t: nat): TurnStatus
    requires t in s.turns
  {
    if EndsAs(s, c, t).Some? then EndsAs(s, c, t).value
    else if c.Ask? && c.turn == t && AskAccepted(enc, s, t, c.allow, c.body) then WaitingApproval
    else s.turns[t].status
  }

  /** A request is recorded if it may be allowed, there is room, its turn is live
      and its event fits. */
  ghost predicate AskAccepted(enc: Encoding, s: State, t: nat, allow: bool, body: string) {
    allow && |s.approvals| < MAX_APPROVALS && Live(s, t) && enc(Event(s.nextEvent, t, ApprovalAsked(s.nextApproval, body), false)) <= MAX_EVENT_BYTES
  }

  /** Turns kept have these statuses, and any other is new and running. */
  ghost predicate StatusesAre(enc: Encoding, s: State, c: Command, next: State) {
    forall t :: t in next.turns ==> next.turns[t].status == if t in s.turns then StatusAfter(enc, s, c, t) else Running
  }

  ghost function StoppedAs(s: State, u: nat, authority: Authority, order: seq<nat>, acks: seq<bool>, control: Control, t: nat): TurnStatus
    requires t in s.turns
  {
    if t == u && Live(s, u) then StopEnds(s.turns[u], authority, order, acks, control).GetOr(s.turns[u].status) else s.turns[t].status
  }

  lemma StopStatuses(enc: Encoding, s: State, c: Command, u: nat, authority: Authority, order: seq<nat>, acks: seq<bool>, control: Control)
    requires Visits(s, u, order)
    requires forall t :: t in s.turns ==> StatusAfter(enc, s, c, t) == StoppedAs(s, u, authority, order, acks, control, t)
    ensures StatusesAre(enc, s, c, Interrupt(enc, s, u, authority, order, acks, control).0)
  {
    if Live(s, u) { InterruptExactly(enc, s, u, authority, order, acks, control); }
  }

  lemma RoomStatuses(s: State)
    ensures forall t :: t in Room(s).turns ==> t in s.turns && Room(s).turns[t].status == s.turns[t].status
    ensures Room(s).nextTurn == s.nextTurn
  {
  }

  lemma NewTurnStatuses(enc: Encoding, s: State, thread: nat, journal: bool)
    requires s.nextTurn !in s.turns
    ensures var next := CreateTurn(enc, s, thread, journal).0;
            forall t :: t in next.turns ==> next.turns[t].status == if t in s.turns then s.turns[t].status else Running
  {
    RoomStatuses(s);
    if CreateTurn(enc, s, thread, journal).1 == Done { PushKeepsStatuses(enc, AdmitTurn(Room(s), thread), s.nextTurn, TurnBegan, false); }
  }

  lemma NewThreadStatuses(s: State)
    ensures forall t :: t in CreateThread(s).0.turns ==> t in s.turns && CreateThread(s).0.turns[t].status == s.turns[t].status
  {
  }

  lemma AskStatuses(enc: Encoding, s: State, t: nat, allow: bool, body: string)
    ensures StatusesAre(enc, s, Ask(t, allow, body), RegisterPending(enc, s, t, allow, body).0)
  {
    if AskAccepted(enc, s, t, allow, body) { PushKeepsStatuses(enc, AddApproval(s, t, allow), t, ApprovalAsked(s.nextApproval, body), false); }
  }

  lemma RuleStatuses(enc: Encoding, s: State, a: nat, approve: bool, acknowledged: bool)
    ensures SameStatuses(s, Decide(enc, s, a, approve, acknowledged).0)
  {
    if a in s.approvals && s.approvals[a].status == Pending && s.approvals[a].sender {
      var grant := approve && s.approvals[a].allow;
      var outcome := if grant && acknowledged then Approved else Denied;
      var told := Deliver(Claim(s, a), a, if grant then Allow else Deny, acknowledged, outcome);
      PushKeepsStatuses(enc, told, s.approvals[a].turn, ApprovalSettled(a, outcome, "decision"), false);
    }
  }

  lemma FinishStatuses(enc: Encoding, s: State, t: nat, result: RunResult, order: seq<nat>)
    ensures StatusesAre(enc, s, Finished(t, result, order), Finish(enc, s, t, result, order))
  {
    if Live(s, t) { FinishExactly(enc, s, t, result, order); }
  }

  lemma EndingStatuses(enc: Encoding, s: State, c: Command)
    requires Possible(s, c) && (c.Stop? || c.ControllerDrop? || c.ApprovalDeadline? || c.Finished?)
    ensures StatusesAre(enc, s, c, Step(enc, s, c))
  {
    match c
    case Stop(u, authority, order, acks, control) => StopStatuses(enc, s, c, u, authority, order, acks, control);
    case ControllerDrop(u, order, acks, control) => StopStatuses(enc, s, c, u, SseDrop, order, acks, control);
    case ApprovalDeadline(u, due, order, acks, control) =>
      if due in s.approvals && s.approvals[due].turn == u && s.approvals[due].status == Pending {
        StopStatuses(enc, s, c, u, ApprovalTimeout, order, acks, control);
      }
    case Finished(t, result, order) => FinishStatuses(enc, s, t, result, order);
  }

  /** After any command every turn has exactly this status. */
  lemma StepStatuses(enc: Encoding, s: State, c: Command)
    requires Inv(enc, s) && Possible(s, c)
    ensures StatusesAre(enc, s, c, Step(enc, s, c))
  {
    if c.Stop? || c.ControllerDrop? || c.ApprovalDeadline? || c.Finished? {
      EndingStatuses(enc, s, c);
    } else {
      OtherStatuses(enc, s, c);
    }
  }

  lemma OtherStatuses(enc: Encoding, s: State, c: Command)
    requires s.nextTurn !in s.turns && Possible(s, c) && !(c.Stop? || c.ControllerDrop? || c.ApprovalDeadline? || c.Finished?)
    ensures StatusesAre(enc, s, c, Step(enc, s, c))
  {
    match c
    case NewTurn(thread, journal) => NewTurnStatuses(enc, s, thread, journal);
    case NewThread => NewThreadStatuses(s);
    case Rule(a, approve, acknowledged) => RuleStatuses(enc, s, a, approve, acknowledged);
    case Ask(t, allow, body) => AskStatuses(enc, s, t, allow, body);
    case _ =>
  }

  lemma RunStatuses(enc: Encoding, trace: seq<State>, commands: seq<Command>, i: nat)
    requires IsRun(enc, trace, commands) && Inv(enc, trace[0]) && i < |commands|
    ensures StatusesAre(enc, trace[i], commands[i], trace[i + 1]) && TurnsEvolve(trace[i], trace[i + 1])
    ensures forall t :: t in trace[i].turns ==> t < trace[i].nextTurn
  {
    EveryRunKeepsInv(enc, trace, commands, i);
    StepStatuses(enc, trace[i], commands[i]);
    StepEvolves(enc, trace[i], commands[i]);
  }

  lemma {:induction false} EndWasGiven(enc: Encoding, trace: seq<State>, commands: seq<Command>, j: nat, t: nat, status: TurnStatus)
    requires IsRun(enc, trace, commands) && Inv(enc, trace[0]) && trace[0].turns == map[] && j < |trace| && IsTerminal(status)
    ensures t in trace[j].turns && trace[j].turns[t].status == status ==> exists i :: 0 <= i < j && EndsAs(trace[i], commands[i], t) == Some(status)
    decreases j
  {
    if j > 0 {
      RunStatuses(enc, trace, commands, j - 1);
      EndWasGiven(enc, trace, commands, j - 1, t, status);
    }
  }

  lemma {:induction false} EvolveThroughout(trace: seq<State>, i: nat, j: nat)
    requires i <= j < |trace| && forall k :: i <= k < j ==> TurnsEvolve(trace[k], trace[k + 1])
    ensures TurnsEvolve(trace[i], trace[j])
    decreases j
  {
    if i < j {
      EvolveThroughout(trace, i, j - 1);
      assert TurnsEvolve(trace[j - 1], trace[j - 1 + 1]);
      EvolveTwice(trace[i], trace[j - 1], trace[j]);
    }
  }

  lemma RunEvolves(enc: Encoding, trace: seq<State>, commands: seq<Command>, i: nat, j: nat)
    requires IsRun(enc, trace, commands) && Inv(enc, trace[0]) && i <= j < |trace|
    ensures TurnsEvolve(trace[i], trace[j])
  {
    forall k | i <= k < j ensures TurnsEvolve(trace[k], trace[k + 1]) { RunStatuses(enc, trace, commands, k); }
    EvolveThroughout(trace, i, j);
  }

  /** In every run from the start, a retained turn has ended this way exactly if
      some earlier command gave it this end. */
  lemma EndsExactly(enc: Encoding, trace: seq<State>, commands: seq<Command>, ready: bool, j: nat, t: nat, status: TurnStatus)
    requires IsRun(enc, trace, commands) && trace[0] == Initial(ready) && j < |trace| && t in trace[j].turns && IsTerminal(status)
    ensures trace[j].turns[t].status == status <==> exists i :: 0 <= i < j && EndsAs(trace[i], commands[i], t) == Some(status)
  {
    InitialInv(enc, ready);
    EndWasGiven(enc, trace, commands, j, t, status);
    if i :| 0 <= i < j && EndsAs(trace[i], commands[i], t) == Some(status) {
      RunStatuses(enc, trace, commands, i);
      EndStays(enc, trace, commands, i, j, t);
    }
  }

  lemma EndStays(enc: Encoding, trace: seq<State>, commands: seq<Command>, i: nat, j: nat, t: nat)
    requires IsRun(enc, trace, commands) && Inv(enc, trace[0]) && i < j < |trace| && t in trace[j].turns
    requires EndsAs(trace[i], commands[i], t).Some?
    ensures trace[j].turns[t].status == EndsAs(trace[i], commands[i], t).value
  {
    RunStatuses(enc, trace, commands, i);
    RunEvolves(enc, trace, commands, i + 1, j);
    EveryRunKeepsInv(enc, trace, commands, i + 1);
  }
}
