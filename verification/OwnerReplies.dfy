/** What each command answers, and what it leaves behind (src/api.rs): for every
    state the owner can be in. */
module OwnerReplies {
  import opened Owner
  import opened ReplayLog
  import opened OwnerInvariant
  import opened OwnerSafety
  import opened OwnerDelivery
  import opened OwnerEnds

  // ---------------------------------------------------------------------------
  // The event that ends a turn.

  /** The text the last event of a turn carries. */
  function DetailOf(c: Command): string {
    match c
    case Finished(_, RunCompleted(summary), _) => summary
    case Finished(_, RunInterrupted, _) => "interrupted"
    case Finished(_, RunRejected, _) => "turn_rejected"
    case Finished(_, RunFailed, _) => "runtime_failure"
    case Stop(_, _, _, _, control) => if control.ReportsInterrupted? then "interrupt" else "delivery_ambiguous"
    case ControllerDrop(_, _, _, control) => if control.ReportsInterrupted? then "interrupt" else "delivery_ambiguous"
    case ApprovalDeadline(_, _, _, _, control) => if control.ReportsInterrupted? then "interrupt" else "delivery_ambiguous"
    case _ => ""
  }

  /** The event was published last, unless it is oversized. */
  ghost predicate Reported(enc: Encoding, next: State, t: nat, status: TurnStatus, detail: string) {
    next.nextEvent > 0 &&
    var e := Event(next.nextEvent - 1, t, TurnOver(status, detail), true);
    enc(e) <= MAX_EVENT_BYTES ==> next.published != [] && next.published[|next.published| - 1] == e
  }

  /** Ready for the last event of a turn. */
  ghost predicate Closed(enc: Encoding, d: State, t: nat) {
    Accounting(enc, d) && t in d.turns
  }

  lemma ClosedThenDenied(enc: Encoding, s: State, t: nat, status: TurnStatus, order: seq<nat>)
    requires Inv(enc, s) && Live(s, t) && IsTerminal(status) && Visits(s, t, order)
    ensures Closed(enc, PushDenials(enc, Close(s, t, status), t, order), t)
  {
    var closed := Close(s, t, status);
    CloseKeepsInv(enc, s, t, status);
    PushDenialsKeepInv(enc, closed, t, order);
    PushDenialsKeepsStatuses(enc, closed, t, order);
  }

  lemma LastReports(enc: Encoding, d: State, t: nat, status: TurnStatus, detail: string)
    requires Closed(enc, d, t)
    ensures Reported(enc, Push(enc, d, t, TurnOver(status, detail), true), t, status, detail)
  {
    PushShape(enc, d, t, TurnOver(status, detail), true);
  }

  lemma TerminalizeReports(enc: Encoding, s: State, t: nat, status: TurnStatus, detail: string, order: seq<nat>, next: State)
    requires Inv(enc, s) && Live(s, t) && IsTerminal(status) && Visits(s, t, order)
    requires next == Terminalize(enc, s, t, status, detail, order)
    ensures Reported(enc, next, t, status, detail)
  {
    ClosedThenDenied(enc, s, t, status, order);
    LastReports(enc, PushDenials(enc, Close(s, t, status), t, order), t, status, detail);
  }

  lemma InterruptReports(enc: Encoding, s: State, t: nat, authority: Authority, order: seq<nat>, acks: seq<bool>, control: Control)
    requires Inv(enc, s) && Visits(s, t, order) && Live(s, t) && StopEnds(s.turns[t], authority, order, acks, control).Some?
    ensures Reported(enc, Interrupt(enc, s, t, authority, order, acks, control).0, t,
                     StopEnds(s.turns[t], authority, order, acks, control).value,
                     if control.ReportsInterrupted? then "interrupt" else "delivery_ambiguous")
  {
    var told := DeliverAll(enc, ClaimAll(s, t), t, authority, order, acks).0;
    var next := Interrupt(enc, s, t, authority, order, acks, control).0;
    DeliveredStaysLive(enc, s, t, authority, order, acks);
    DeliveriesOfInterrupt(enc, s, t, authority, order, acks);
    if control.ReportsInterrupted? {
      TerminalizeReports(enc, told, t, if TimesOut(authority) then Failed else Interrupted, "interrupt", [], next);
    } else {
      TerminalizeReports(enc, told, t, Failed, "delivery_ambiguous", [], next);
    }
  }

  lemma UnreadyKeepsInv(enc: Encoding, s: State)
    requires Inv(enc, s)
    ensures Inv(enc, s.(ready := false))
  {
  }

  /** The state in which the end of a run ends the turn. */
  function Noted(s: State, result: RunResult): State {
    if result.RunFailed? then s.(ready := false) else s
  }

  lemma NotedIsSame(enc: Encoding, s: State, t: nat, result: RunResult, order: seq<nat>)
    requires Inv(enc, s) && Visits(s, t, order) && Live(s, t)
    ensures Inv(enc, Noted(s, result)) && Visits(Noted(s, result), t, order) && Live(Noted(s, result), t)
  {
    UnreadyKeepsInv(enc, s);
    assert PendingOf(s.(ready := false), t) == PendingOf(s, t);
  }

  lemma FinishIs(enc: Encoding, s: State, t: nat, result: RunResult, order: seq<nat>)
    ensures Finish(enc, s, t, result, order)
         == Terminalize(enc, Noted(s, result), t, FinishEnds(result), DetailOf(Finished(t, result, order)), order)
  {
  }

  lemma FinishReports(enc: Encoding, s: State, t: nat, result: RunResult, order: seq<nat>, next: State)
    requires Inv(enc, s) && Visits(s, t, order) && Live(s, t) && next == Finish(enc, s, t, result, order)
    ensures Reported(enc, next, t, FinishEnds(result), DetailOf(Finished(t, result, order)))
  {
    NotedIsSame(enc, s, t, result, order);
    FinishIs(enc, s, t, result, order);
    TerminalizeReports(enc, Noted(s, result), t, FinishEnds(result), DetailOf(Finished(t, result, order)), order, next);
  }

  lemma StopIsReported(enc: Encoding, s: State, c: Command, t: nat)
    requires Inv(enc, s) && Possible(s, c) && !c.Finished? && EndsAs(s, c, t).Some?
    ensures Reported(enc, Step(enc, s, c), t, EndsAs(s, c, t).value, DetailOf(c))
  {
    match c
    case Stop(u, authority, order, acks, control) => InterruptReports(enc, s, u, authority, order, acks, control);
    case ControllerDrop(u, order, acks, control) => InterruptReports(enc, s, u, SseDrop, order, acks, control);
    case ApprovalDeadline(u, due, order, acks, control) => InterruptReports(enc, s, u, ApprovalTimeout, order, acks, control);
  }

  /** The last event published by a command that ends a turn names the end it
      gives, unless that event is oversized. */
  lemma EndIsReported(enc: Encoding, s: State, c: Command, t: nat)
    requires Inv(enc, s) && Possible(s, c) && EndsAs(s, c, t).Some?
    ensures Reported(enc, Step(enc, s, c), t, EndsAs(s, c, t).value, DetailOf(c))
  {
    if c.Finished? {
      FinishReports(enc, s, c.turn, c.result, c.order, Step(enc, s, c));
    } else {
      StopIsReported(enc, s, c, t);
    }
  }

  // ---------------------------------------------------------------------------
  // The denials of an interrupt.

  /** The decisions an interrupt hands over: Timeout for a deadline, else Deny, to
      the claimed approvals up to the first that is not acknowledged. */
  function Denials(authority: Authority, order: seq<nat>, acks: seq<bool>): seq<Delivery> {
    seq(Handed(order, acks), i requires 0 <= i < Handed(order, acks) =>
      Delivery(order[i], if authority == ApprovalTimeout || authority == TurnDeadline then Timeout else Deny, i < |acks| && acks[i]))
  }

  lemma DenialsTail(authority: Authority, order: seq<nat>, acks: seq<bool>)
    requires order != []
    ensures var ack := acks != [] && acks[0];
            var first := Delivery(order[0], if authority == ApprovalTimeout || authority == TurnDeadline then Timeout else Deny, ack);
            Denials(authority, order, acks) == [first] + if ack then Denials(authority, order[1..], acks[1..]) else []
  {
  }

  lemma DenyOneHands(enc: Encoding, s: State, t: nat, authority: Authority, a: nat, ack: bool)
    requires a in s.approvals
    ensures var next := DenyOne(enc, s, t, authority, a, ack);
            && next.approvals.Keys == s.approvals.Keys
            && next.deliveries == s.deliveries + [Delivery(a, if TimesOut(authority) then Timeout else Deny, ack)]
  {
    PushKeepsApprovals(enc, Deliver(s, a, if TimesOut(authority) then Timeout else Deny, ack, Denied), t,
                       ApprovalSettled(a, Denied, "interrupt"), false);
  }

  lemma Joined(a: seq<Delivery>, x: Delivery, b: seq<Delivery>)
    ensures a + [x] + b == a + ([x] + b)
  {
  }

  lemma {:induction false} DeliverAllDelivers(enc: Encoding, s: State, t: nat, authority: Authority, order: seq<nat>, acks: seq<bool>)
    requires forall a :: a in order ==> a in s.approvals
    ensures DeliverAll(enc, s, t, authority, order, acks).0.deliveries == s.deliveries + Denials(authority, order, acks)
    decreases |order|
  {
    if order != [] {
      var ack := acks != [] && acks[0];
      DenyOneHands(enc, s, t, authority, order[0], ack);
      DeliverOne(enc, s, t, authority, order, acks);
      DenialsTail(authority, order, acks);
      var first := Delivery(order[0], if TimesOut(authority) then Timeout else Deny, ack);
      Joined(s.deliveries, first, if ack then Denials(authority, order[1..], acks[1..]) else []);
      if ack { DeliverAllDelivers(enc, DenyOne(enc, s, t, authority, order[0], ack), t, authority, order[1..], acks[1..]); }
    }
  }

  /** What an interrupt of a live turn delivers. */
  lemma InterruptDelivers(enc: Encoding, s: State, t: nat, authority: Authority, order: seq<nat>, acks: seq<bool>, control: Control)
    requires Visits(s, t, order) && Live(s, t)
    ensures Interrupt(enc, s, t, authority, order, acks, control).0.deliveries == s.deliveries + Denials(authority, order, acks)
  {
    var told := DeliverAll(enc, ClaimAll(s, t), t, authority, order, acks).0;
    DeliverAllDelivers(enc, ClaimAll(s, t), t, authority, order, acks);
    InterruptIs(enc, s, t, authority, order, acks, control, told);
    TerminalizeKeepsRest(enc, told, t, if TimesOut(authority) then Failed else Interrupted, "interrupt", []);
    TerminalizeKeepsRest(enc, told, t, Failed, "delivery_ambiguous", []);
  }

  // ---------------------------------------------------------------------------
  // Deciding an approval.

  /** The published events, with one more if it is not oversized. */
  function WithEvent(enc: Encoding, s: State, t: nat, kind: EventKind): seq<Event> {
    s.published + if enc(Event(s.nextEvent, t, kind, false)) <= MAX_EVENT_BYTES then [Event(s.nextEvent, t, kind, false)] else []
  }

  lemma DecidePending(enc: Encoding, s: State, a: nat, approve: bool, acknowledged: bool)
    requires Accounting(enc, s) && a in s.approvals && s.approvals[a].status == Pending && SenderHeld(s, a)
    ensures var (next, reply) := Decide(enc, s, a, approve, acknowledged);
            var p := s.approvals[a];
            var outcome := if approve && acknowledged then Approved else Denied;
            && reply == (if acknowledged then Done else DeliveryFailed)
            && next.approvals == s.approvals[a := Approval(p.turn, outcome, p.allow, false)]
            && next.deliveries == s.deliveries + [Delivery(a, if approve then Allow else Deny, acknowledged)]
            && next.published == (if acknowledged then WithEvent(enc, s, p.turn, ApprovalSettled(a, outcome, "decision")) else s.published)
  {
    var outcome := if approve && acknowledged then Approved else Denied;
    var told := Deliver(Claim(s, a), a, if approve then Allow else Deny, acknowledged, outcome);
    PushShape(enc, told, s.approvals[a].turn, ApprovalSettled(a, outcome, "decision"), false);
  }

  /** A decision on a pending approval uses its sender, and reads as approved
      exactly if it approves and is acknowledged; it is reported if acknowledged.
      On any other approval it changes nothing. */
  lemma DecideExactly(enc: Encoding, s: State, a: nat, approve: bool, acknowledged: bool)
    requires Inv(enc, s)
    ensures var (next, reply) := Decide(enc, s, a, approve, acknowledged);
            if a !in s.approvals then next == s && reply == NotFound
            else if s.approvals[a].status != Pending then next == s && reply == AlreadyDecided
            else
              var p := s.approvals[a];
              var outcome := if approve && acknowledged then Approved else Denied;
              && reply == (if acknowledged then Done else DeliveryFailed)
              && next.approvals == s.approvals[a := Approval(p.turn, outcome, p.allow, false)]
              && next.deliveries == s.deliveries + [Delivery(a, if approve then Allow else Deny, acknowledged)]
              && next.published == (if acknowledged then WithEvent(enc, s, p.turn, ApprovalSettled(a, outcome, "decision")) else s.published)
  {
    if a in s.approvals && s.approvals[a].status == Pending {
      assert SenderHeld(s, a);
      DecidePending(enc, s, a, approve, acknowledged);
    }
  }

  // ---------------------------------------------------------------------------
  // Asking for one.

  /** A request is recorded exactly if it may be allowed, there is room, its turn
      is live and its event fits; then it is pending with its sender, reported, and
      its turn waits. Refused, it changes nothing, and the reply says why. */
  lemma AskExactly(enc: Encoding, s: State, t: nat, allow: bool, body: string)
    requires Inv(enc, s)
    ensures var (next, reply) := RegisterPending(enc, s, t, allow, body);
            var kind := ApprovalAsked(s.nextApproval, body);
            if AskAccepted(enc, s, t, allow, body) then
              && reply == Done && t in next.turns && next.turns[t].status == WaitingApproval
              && next.approvals == s.approvals[s.nextApproval := Approval(t, Pending, true, true)] && next.nextApproval == s.nextApproval + 1
              && next.published == s.published + [Event(s.nextEvent, t, kind, false)]
            else
              next == s && reply == (if !allow then DeniedUnreviewable
                                     else if |s.approvals| >= MAX_APPROVALS || !Live(s, t) then ApprovalCapacity else DeniedOversize)
  {
    if AskAccepted(enc, s, t, allow, body) {
      AddApprovalKeepsCore(enc, s, t);
      PushShape(enc, AddApproval(s, t, allow), t, ApprovalAsked(s.nextApproval, body), false);
    }
  }

  // ---------------------------------------------------------------------------
  // Threads and turns.

  /** A thread is created exactly if there is room for it, with a fresh number. */
  lemma CreateThreadExactly(s: State)
    ensures var (next, reply) := CreateThread(s);
            && reply == (if |s.threads| < MAX_THREADS then Done else ThreadCapacity)
            && next.threads == (if |s.threads| < MAX_THREADS then s.threads + {s.nextThread} else s.threads)
            && next.nextThread == (if |s.threads| < MAX_THREADS then s.nextThread + 1 else s.nextThread)
            && (|s.threads| < MAX_THREADS ==> next.turns == s.turns && next.approvals == s.approvals)
  {
  }

  /** A turn is admitted exactly if there is a journal, the owner is ready, no turn
      is active and the thread exists; then it runs, is the one active turn, and its
      beginning is reported. Refused, the reply says why, and nothing is admitted. */
  lemma CreateTurnExactly(enc: Encoding, s: State, thread: nat, journal: bool)
    requires Inv(enc, s)
    ensures var (next, reply) := CreateTurn(enc, s, thread, journal);
            && reply == (if !journal then JournalUnavailable else if !s.ready then NotReady
                         else if s.active > 0 then Saturated else if thread !in s.threads then NotFound else Done)
            && next.ready == (s.ready && journal)
            && (reply == Done ==>
                  && s.nextTurn !in s.turns && s.nextTurn in next.turns && next.nextTurn == s.nextTurn + 1 && next.active == 1
                  && next.turns[s.nextTurn] == Turn(thread, Running, next.turns[s.nextTurn].events, next.turns[s.nextTurn].bytes, true, false)
                  && next.published == WithEvent(enc, s, s.nextTurn, TurnBegan))
            && (reply != Done ==> next.active == s.active && next.nextTurn == s.nextTurn && next.published == s.published)
  {
    if journal && s.ready && s.active == 0 {
      TurnCapacityNeverRejects(enc, s, thread, journal);
      PruneKeepsInv(enc, s);
      if thread in s.threads { AdmissionIsReported(enc, Room(s), thread); }
    }
  }

  lemma AdmissionIsReported(enc: Encoding, s: State, thread: nat)
    requires Inv(enc, s) && s.active == 0
    ensures var next := Push(enc, AdmitTurn(s, thread), s.nextTurn, TurnBegan, false);
            && s.nextTurn in next.turns && next.published == WithEvent(enc, s, s.nextTurn, TurnBegan)
            && next.turns[s.nextTurn] == Turn(thread, Running, next.turns[s.nextTurn].events, next.turns[s.nextTurn].bytes, true, false)
            && next.active == 1 && next.nextTurn == s.nextTurn + 1 && next.ready == s.ready
  {
    AdmitKeepsInv(enc, s, thread);
    PushShape(enc, AdmitTurn(s, thread), s.nextTurn, TurnBegan, false);
  }

  // ---------------------------------------------------------------------------
  // Watching a turn.

  /** A subscription takes control exactly of a live turn that nobody controls, and
      unless it only observes; nothing else changes. */
  lemma WatchExactly(s: State, t: nat, lastSeen: nat, observer: bool)
    ensures var (next, subscription) := Subscribe(s, t, lastSeen, observer);
            && (subscription.Some? <==> t in s.turns)
            && (t in s.turns ==>
                  && (subscription.value.controller <==> !observer && Live(s, t) && !s.turns[t].controller)
                  && (subscription.value.terminal <==> !Live(s, t))
                  && (forall e :: e in subscription.value.replay <==> e in s.turns[t].events && e.id > lastSeen)
                  && next == s.(turns := s.turns[t := s.turns[t].(controller := s.turns[t].controller || subscription.value.controller)]))
            && (t !in s.turns ==> next == s)
  {
    if t in s.turns {
      forall e ensures e in After(s.turns[t].events, lastSeen) <==> e in s.turns[t].events && e.id > lastSeen { NewerMember(s.turns[t].events, lastSeen, e); }
    }
  }

  lemma {:induction false} NewerMember(events: seq<Event>, lastSeen: nat, e: Event)
    ensures e in After(events, lastSeen) <==> e in events && e.id > lastSeen
  {
    if events != [] {
      NewerMember(events[1..], lastSeen, e);
      assert e in events <==> e == events[0] || e in events[1..];
    }
  }

  /** The turn has a controller. */
  ghost predicate Controlled(s: State, t: nat) {
    t in s.turns && s.turns[t].controller
  }

  ghost predicate TakesControl(s: State, c: Command, t: nat) {
    c.Watch? && c.turn == t && !c.observer && Live(s, t) && !s.turns[t].controller
  }

  /** Whoever controls the turn still does, if it is retained. */
  ghost predicate StillControlled(s: State, t: nat) {
    t < s.nextTurn && (t in s.turns ==> s.turns[t].controller)
  }

  lemma InterruptKeepsControl(enc: Encoding, s: State, u: nat, authority: Authority, order: seq<nat>, acks: seq<bool>, control: Control, t: nat)
    requires Visits(s, u, order)
    ensures var next := Interrupt(enc, s, u, authority, order, acks, control).0;
            t in next.turns ==> t in s.turns && next.turns[t].controller == s.turns[t].controller
  {
    if Live(s, u) { InterruptStatus(enc, s, u, authority, order, acks, control); }
  }

  lemma FinishKeepsControl(enc: Encoding, s: State, u: nat, result: RunResult, order: seq<nat>, t: nat)
    ensures var next := Finish(enc, s, u, result, order);
            t in next.turns ==> t in s.turns && next.turns[t].controller == s.turns[t].controller
  {
    if Live(s, u) { FinishExactly(enc, s, u, result, order); }
  }

  lemma AdmissionKeepsControl(enc: Encoding, s: State, thread: nat, t: nat)
    requires t < s.nextTurn
    ensures var next := Push(enc, AdmitTurn(Room(s), thread), s.nextTurn, TurnBegan, false);
            t in next.turns ==> t in s.turns && next.turns[t].controller == s.turns[t].controller
  {
    PushKeepsStatuses(enc, AdmitTurn(Room(s), thread), s.nextTurn, TurnBegan, false);
  }

  lemma CreateTurnKeepsControl(enc: Encoding, s: State, thread: nat, journal: bool, t: nat)
    requires t < s.nextTurn
    ensures var next := CreateTurn(enc, s, thread, journal).0;
            t in next.turns ==> t in s.turns && next.turns[t].controller == s.turns[t].controller
  {
    AdmissionKeepsControl(enc, s, thread, t);
  }

  lemma AskKeepsControl(enc: Encoding, s: State, u: nat, allow: bool, body: string, t: nat)
    ensures var next := RegisterPending(enc, s, u, allow, body).0;
            t in next.turns ==> t in s.turns && next.turns[t].controller == s.turns[t].controller
  {
    if AskAccepted(enc, s, u, allow, body) { PushKeepsStatuses(enc, AddApproval(s, u, allow), u, ApprovalAsked(s.nextApproval, body), false); }
  }

  lemma StepKeepsControl(enc: Encoding, s: State, c: Command, t: nat)
    requires Possible(s, c) && StillControlled(s, t) && !(c.ControllerDrop? && c.turn == t)
    ensures t in Step(enc, s, c).turns ==> Step(enc, s, c).turns[t].controller
  {
    match c
    case NewTurn(thread, journal) => CreateTurnKeepsControl(enc, s, thread, journal, t);
    case Rule(a, approve, acknowledged) => RuleStatuses(enc, s, a, approve, acknowledged);
    case Stop(u, authority, order, acks, control) => InterruptKeepsControl(enc, s, u, authority, order, acks, control, t);
    case ControllerDrop(u, order, acks, control) => InterruptKeepsControl(enc, s, u, SseDrop, order, acks, control, t);
    case Ask(u, allow, body) => AskKeepsControl(enc, s, u, allow, body, t);
    case ApprovalDeadline(u, due, order, acks, control) => InterruptKeepsControl(enc, s, u, ApprovalTimeout, order, acks, control, t);
    case Finished(u, result, order) => FinishKeepsControl(enc, s, u, result, order, t);
    case _ =>
  }

  lemma {:induction false} ControlStays(enc: Encoding, trace: seq<State>, commands: seq<Command>, i: nat, j: nat, t: nat)
    requires IsRun(enc, trace, commands) && Inv(enc, trace[0]) && i <= j < |trace| && StillControlled(trace[i], t)
    requires forall k :: i <= k < j ==> !(commands[k].ControllerDrop? && commands[k].turn == t)
    ensures StillControlled(trace[j], t)
    decreases j
  {
    if i < j {
      ControlStays(enc, trace, commands, i, j - 1, t);
      RunStatuses(enc, trace, commands, j - 1);
      StepKeepsControl(enc, trace[j - 1], commands[j - 1], t);
    }
  }

  /** In every run, between two subscriptions that take control of one turn its
      controller dropped. */
  lemma ControlIsExclusive(enc: Encoding, trace: seq<State>, commands: seq<Command>, i: nat, j: nat, t: nat)
    requires IsRun(enc, trace, commands) && Inv(enc, trace[0]) && i < j < |commands|
    requires TakesControl(trace[i], commands[i], t) && TakesControl(trace[j], commands[j], t)
    ensures exists k :: i < k < j && commands[k].ControllerDrop? && commands[k].turn == t
  {
    if forall k :: i < k < j ==> !(commands[k].ControllerDrop? && commands[k].turn == t) {
      RunStatuses(enc, trace, commands, i);
      ControlStays(enc, trace, commands, i + 1, j, t);
    }
  }
}
