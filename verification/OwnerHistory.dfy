/** How one command may change turns, approvals and the published events: only a
    live turn gains events, ended turns and decided approvals never change again
    (src/api.rs). */
module OwnerHistory {
  import opened Owner
  import opened ReplayLog
  import opened OwnerInvariant
  import opened OwnerSafety

  // ---------------------------------------------------------------------------
  // One command publishes on one turn only.

  /** Everything `next` published beyond `s` is on turn `t`. */
  ghost predicate Grows(s: State, next: State, t: nat) {
    s.published <= next.published && forall e :: e in next.published[|s.published|..] ==> e.turn == t
  }

  lemma PushGrows(enc: Encoding, s: State, t: nat, kind: EventKind, terminal: bool)
    ensures Grows(s, Push(enc, s, t, kind, terminal), t)
  {
    EvictKeepsRest(enc, Numbered(s), enc(NextEvent(s, t, kind, terminal)));
  }

  lemma {:induction false} DeliverAllGrows(enc: Encoding, s: State, t: nat, authority: Authority, order: seq<nat>, acks: seq<bool>)
    requires forall a :: a in order ==> a in s.approvals
    ensures Grows(s, DeliverAll(enc, s, t, authority, order, acks).0, t)
    decreases |order|
  {
    if order != [] {
      var ack := acks != [] && acks[0];
      var decision := if TimesOut(authority) then Timeout else Deny;
      PushGrows(enc, Deliver(s, order[0], decision, ack, Denied), t, ApprovalSettled(order[0], Denied, "interrupt"), false);
      var next := DenyOne(enc, s, t, authority, order[0], ack);
      DeliverOne(enc, s, t, authority, order, acks);
      if ack {
        DeliverAllGrows(enc, next, t, authority, order[1..], acks[1..]);
      }
    }
  }

  lemma {:induction false} PushDenialsGrow(enc: Encoding, s: State, t: nat, order: seq<nat>)
    ensures Grows(s, PushDenials(enc, s, t, order), t)
    decreases |order|
  {
    if order != [] {
      var next := Push(enc, s, t, ApprovalSettled(order[0], Denied, "terminal"), false);
      PushGrows(enc, s, t, ApprovalSettled(order[0], Denied, "terminal"), false);
      PushDenialsGrow(enc, next, t, order[1..]);
    }
  }

  lemma TerminalizeGrows(enc: Encoding, s: State, t: nat, status: TurnStatus, detail: string, order: seq<nat>)
    ensures Grows(s, Terminalize(enc, s, t, status, detail, order), t)
  {
    if t in s.turns && !IsTerminal(s.turns[t].status) {
      var closed := Close(s, t, status);
      var told := PushDenials(enc, closed, t, order);
      PushDenialsGrow(enc, closed, t, order);
      PushGrows(enc, told, t, TurnOver(status, detail), true);
    }
  }

  lemma InterruptGrows(enc: Encoding, s: State, t: nat, authority: Authority, order: seq<nat>, acks: seq<bool>, control: Control)
    requires forall a :: a in order ==> a in s.approvals
    ensures var next := Interrupt(enc, s, t, authority, order, acks, control).0;
            Grows(s, next, t) && (next.published == s.published || (t in s.turns && !IsTerminal(s.turns[t].status)))
  {
    if t in s.turns && !IsTerminal(s.turns[t].status) {
      var claimed := ClaimAll(s, t);
      var told := DeliverAll(enc, claimed, t, authority, order, acks).0;
      DeliverAllGrows(enc, claimed, t, authority, order, acks);
      AnswerGrows(enc, told, t, authority, control);
    }
  }

  lemma AnswerGrows(enc: Encoding, s: State, t: nat, authority: Authority, control: Control)
    ensures Grows(s, Answer(enc, s, t, authority, control).0, t)
  {
    match control
    case AckTimedOut =>
    case ReportsInterrupted => TerminalizeGrows(enc, s, t, if TimesOut(authority) then Failed else Interrupted, "interrupt", []);
    case _ => TerminalizeGrows(enc, s, t, Failed, "delivery_ambiguous", []);
  }

  /** The turn a command may publish on: a live one, or the one it admits. */
  ghost predicate MayGrow(s: State, t: nat) {
    t == s.nextTurn || (t in s.turns && !IsTerminal(s.turns[t].status))
  }

  /** One command publishes on at most one turn, which was live before it or is
      the turn it admits: nothing is ever published on a turn that is over. */
  lemma StepGrows(enc: Encoding, s: State, c: Command) returns (t: nat)
    requires Inv(enc, s) && Possible(s, c)
    ensures Grows(s, Step(enc, s, c), t)
    ensures Step(enc, s, c).published == s.published || MayGrow(s, t)
  {
    t := s.nextTurn;
    match c
    case NewTurn(thread, journal) => CreateTurnGrows(enc, s, thread, journal);
    case Rule(a, approve, acknowledged) =>
      if a in s.approvals && s.approvals[a].status == Pending {
        assert SenderHeld(s, a);
        t := s.approvals[a].turn;
        RuleGrows(enc, s, a, approve, acknowledged);
      }
    case Stop(u, authority, order, acks, control) => t := u; InterruptGrows(enc, s, u, authority, order, acks, control);
    case ControllerDrop(u, order, acks, control) => t := u; InterruptGrows(enc, s, u, SseDrop, order, acks, control);
    case Ask(u, allow, body) => t := u; RegisterGrows(enc, s, u, allow, body);
    case ApprovalDeadline(u, a, order, acks, control) => t := u; InterruptGrows(enc, s, u, ApprovalTimeout, order, acks, control);
    case Finished(u, result, order) => t := u; FinishGrows(enc, s, u, result, order);
    case _ =>
  }

  lemma CreateTurnGrows(enc: Encoding, s: State, thread: nat, journal: bool)
    ensures Grows(s, CreateTurn(enc, s, thread, journal).0, s.nextTurn)
  {
    PushGrows(enc, AdmitTurn(Room(s), thread), s.nextTurn, TurnBegan, false);
  }

  lemma RegisterGrows(enc: Encoding, s: State, t: nat, allow: bool, body: string)
    ensures var next := RegisterPending(enc, s, t, allow, body).0;
            Grows(s, next, t) && (next.published == s.published || (t in s.turns && !IsTerminal(s.turns[t].status)))
  {
    if RegisterPending(enc, s, t, allow, body).1 == Done {
      PushGrows(enc, AddApproval(s, t, allow), t, ApprovalAsked(s.nextApproval, body), false);
    }
  }

  lemma RuleGrows(enc: Encoding, s: State, a: nat, approve: bool, acknowledged: bool)
    requires a in s.approvals && s.approvals[a].status == Pending
    ensures Grows(s, Decide(enc, s, a, approve, acknowledged).0, s.approvals[a].turn)
  {
    var grant := approve && s.approvals[a].allow;
    var outcome := if grant && acknowledged then Approved else Denied;
    var told := Deliver(Claim(s, a), a, if grant then Allow else Deny, acknowledged, outcome);
    PushGrows(enc, told, s.approvals[a].turn, ApprovalSettled(a, outcome, "decision"), false);
  }

  lemma FinishGrows(enc: Encoding, s: State, t: nat, result: RunResult, order: seq<nat>)
    ensures Grows(s, Finish(enc, s, t, result, order), t)
    ensures Finish(enc, s, t, result, order).published == s.published || (t in s.turns && !IsTerminal(s.turns[t].status))
  {
    var noted := if result.RunFailed? then s.(ready := false) else s;
    match result
    case RunCompleted(summary) => TerminalizeGrows(enc, noted, t, Completed, summary, order);
    case RunInterrupted => TerminalizeGrows(enc, noted, t, Interrupted, "interrupted", order);
    case RunRejected => TerminalizeGrows(enc, noted, t, Failed, "turn_rejected", order);
    case RunFailed => TerminalizeGrows(enc, noted, t, Failed, "runtime_failure", order);
  }

  // ---------------------------------------------------------------------------
  // Turns that are over stay over; turn ids are never used again.

  ghost predicate TurnsEvolve(s: State, next: State) {
    && s.nextTurn <= next.nextTurn
    && forall t :: t in next.turns && t < s.nextTurn ==>
         t in s.turns && (IsTerminal(s.turns[t].status) ==> next.turns[t].status == s.turns[t].status)
  }

  lemma EvolveTwice(a: State, b: State, c: State)
    requires TurnsEvolve(a, b) && TurnsEvolve(b, c)
    ensures TurnsEvolve(a, c)
  {
  }

  lemma EvictEvolves(enc: Encoding, s: State, size: nat)
    ensures TurnsEvolve(s, Evict(enc, s, size))
  {
    EvictKeepsRest(enc, s, size);
    EvictTrims(enc, s, size);
  }

  lemma AppendEvolves(enc: Encoding, s: State, e: Event)
    requires e.turn in s.turns
    ensures TurnsEvolve(s, Append(enc, s, e))
  {
  }

  lemma PushEvolves(enc: Encoding, s: State, t: nat, kind: EventKind, terminal: bool)
    ensures TurnsEvolve(s, Push(enc, s, t, kind, terminal))
  {
    var e := NextEvent(s, t, kind, terminal);
    if enc(e) <= MAX_EVENT_BYTES {
      var room := Evict(enc, Numbered(s), enc(e));
      EvictEvolves(enc, Numbered(s), enc(e));
      EvolveTwice(s, Numbered(s), room);
      if t in room.turns {
        AppendEvolves(enc, room, e);
        EvolveTwice(s, room, Append(enc, room, e));
      }
    }
  }

  lemma {:induction false} DeliverAllEvolves(enc: Encoding, s: State, t: nat, authority: Authority, order: seq<nat>, acks: seq<bool>)
    requires forall a :: a in order ==> a in s.approvals
    ensures TurnsEvolve(s, DeliverAll(enc, s, t, authority, order, acks).0)
    decreases |order|
  {
    if order != [] {
      var ack := acks != [] && acks[0];
      var decision := if TimesOut(authority) then Timeout else Deny;
      PushEvolves(enc, Deliver(s, order[0], decision, ack, Denied), t, ApprovalSettled(order[0], Denied, "interrupt"), false);
      var next := DenyOne(enc, s, t, authority, order[0], ack);
      DeliverOne(enc, s, t, authority, order, acks);
      if ack {
        DeliverAllEvolves(enc, next, t, authority, order[1..], acks[1..]);
        EvolveTwice(s, next, DeliverAll(enc, next, t, authority, order[1..], acks[1..]).0);
      }
    }
  }

  lemma {:induction false} PushDenialsEvolve(enc: Encoding, s: State, t: nat, order: seq<nat>)
    ensures TurnsEvolve(s, PushDenials(enc, s, t, order))
    decreases |order|
  {
    if order != [] {
      var next := Push(enc, s, t, ApprovalSettled(order[0], Denied, "terminal"), false);
      PushEvolves(enc, s, t, ApprovalSettled(order[0], Denied, "terminal"), false);
      PushDenialsEvolve(enc, next, t, order[1..]);
      EvolveTwice(s, next, PushDenials(enc, s, t, order));
    }
  }

  lemma TerminalizeEvolves(enc: Encoding, s: State, t: nat, status: TurnStatus, detail: string, order: seq<nat>)
    ensures TurnsEvolve(s, Terminalize(enc, s, t, status, detail, order))
  {
    if t in s.turns && !IsTerminal(s.turns[t].status) {
      var closed := Close(s, t, status);
      var told := PushDenials(enc, closed, t, order);
      assert TurnsEvolve(s, closed);
      PushDenialsEvolve(enc, closed, t, order);
      EvolveTwice(s, closed, told);
      PushEvolves(enc, told, t, TurnOver(status, detail), true);
      EvolveTwice(s, told, Push(enc, told, t, TurnOver(status, detail), true));
    }
  }

  lemma InterruptEvolves(enc: Encoding, s: State, t: nat, authority: Authority, order: seq<nat>, acks: seq<bool>, control: Control)
    requires forall a :: a in order ==> a in s.approvals
    ensures TurnsEvolve(s, Interrupt(enc, s, t, authority, order, acks, control).0)
  {
    if t in s.turns && !IsTerminal(s.turns[t].status) {
      var told := DeliverAll(enc, ClaimAll(s, t), t, authority, order, acks).0;
      DeliverAllEvolves(enc, ClaimAll(s, t), t, authority, order, acks);
      assert TurnsEvolve(s, told);
      var status := if TimesOut(authority) then Failed else Interrupted;
      TerminalizeEvolves(enc, told, t, status, "interrupt", []);
      TerminalizeEvolves(enc, told, t, Failed, "delivery_ambiguous", []);
      EvolveTwice(s, told, Terminalize(enc, told, t, status, "interrupt", []));
      EvolveTwice(s, told, Terminalize(enc, told, t, Failed, "delivery_ambiguous", []));
    }
  }

  lemma CreateTurnEvolves(enc: Encoding, s: State, thread: nat, journal: bool)
    ensures TurnsEvolve(s, CreateTurn(enc, s, thread, journal).0)
  {
    var admitted := AdmitTurn(Room(s), thread);
    assert TurnsEvolve(s, Room(s)) && TurnsEvolve(s, admitted);
    PushEvolves(enc, admitted, s.nextTurn, TurnBegan, false);
    EvolveTwice(s, admitted, Push(enc, admitted, s.nextTurn, TurnBegan, false));
  }

  lemma DecideEvolves(enc: Encoding, s: State, a: nat, approve: bool, acknowledged: bool)
    ensures TurnsEvolve(s, Decide(enc, s, a, approve, acknowledged).0)
  {
    if a in s.approvals && s.approvals[a].status == Pending {
      var grant := approve && s.approvals[a].allow;
      var outcome := if grant && acknowledged then Approved else Denied;
      var told := Deliver(Claim(s, a), a, if grant then Allow else Deny, acknowledged, outcome);
      PushEvolves(enc, told, s.approvals[a].turn, ApprovalSettled(a, outcome, "decision"), false);
    }
  }

  lemma RegisterEvolves(enc: Encoding, s: State, t: nat, allow: bool, body: string)
    ensures TurnsEvolve(s, RegisterPending(enc, s, t, allow, body).0)
  {
    if RegisterPending(enc, s, t, allow, body).1 == Done {
      var added := AddApproval(s, t, allow);
      assert TurnsEvolve(s, added);
      PushEvolves(enc, added, t, ApprovalAsked(s.nextApproval, body), false);
      EvolveTwice(s, added, Push(enc, added, t, ApprovalAsked(s.nextApproval, body), false));
    }
  }

  lemma FinishEvolves(enc: Encoding, s: State, t: nat, result: RunResult, order: seq<nat>)
    ensures TurnsEvolve(s, Finish(enc, s, t, result, order))
  {
    var noted := if result.RunFailed? then s.(ready := false) else s;
    match result
    case RunCompleted(summary) => TerminalizeEvolves(enc, noted, t, Completed, summary, order);
    case RunInterrupted => TerminalizeEvolves(enc, noted, t, Interrupted, "interrupted", order);
    case RunRejected => TerminalizeEvolves(enc, noted, t, Failed, "turn_rejected", order);
    case RunFailed => TerminalizeEvolves(enc, noted, t, Failed, "runtime_failure", order);
  }

  /** No command revives a turn that is over, changes how it ended, or brings
      back a pruned turn. */
  lemma StepEvolves(enc: Encoding, s: State, c: Command)
    requires Possible(s, c)
    ensures TurnsEvolve(s, Step(enc, s, c))
  {
    match c
    case NewTurn(thread, journal) => CreateTurnEvolves(enc, s, thread, journal);
    case Rule(a, approve, acknowledged) => DecideEvolves(enc, s, a, approve, acknowledged);
    case Stop(t, authority, order, acks, control) => InterruptEvolves(enc, s, t, authority, order, acks, control);
    case ControllerDrop(t, order, acks, control) => InterruptEvolves(enc, s, t, SseDrop, order, acks, control);
    case Ask(t, allow, body) => RegisterEvolves(enc, s, t, allow, body);
    case ApprovalDeadline(t, a, order, acks, control) => InterruptEvolves(enc, s, t, ApprovalTimeout, order, acks, control);
    case Finished(t, result, order) => FinishEvolves(enc, s, t, result, order);
    case _ =>
  }

  // ---------------------------------------------------------------------------
  // A decided approval never changes again.

  /** `next` agrees with `s` on every approval that was not pending in `s`, and
      has no approval with an old id that `s` does not have. */
  ghost predicate Agrees(s: State, next: State) {
    && s.nextApproval <= next.nextApproval
    && forall a :: a in next.approvals && a < s.nextApproval ==>
         a in s.approvals && (s.approvals[a].status != Pending ==> next.approvals[a] == s.approvals[a])
  }

  lemma PushAgrees(enc: Encoding, s: State, x: State, t: nat, kind: EventKind, terminal: bool)
    requires Agrees(s, x)
    ensures Agrees(s, Push(enc, x, t, kind, terminal))
  {
    PushKeepsApprovals(enc, x, t, kind, terminal);
  }

  lemma {:induction false} DeliverAllAgrees(enc: Encoding, s: State, x: State, t: nat, authority: Authority, order: seq<nat>, acks: seq<bool>)
    requires Agrees(s, x) && (forall a :: a in order ==> a in x.approvals)
    requires forall a :: a in order && a in s.approvals ==> s.approvals[a].status == Pending
    ensures Agrees(s, DeliverAll(enc, x, t, authority, order, acks).0)
    decreases |order|
  {
    if order != [] {
      var ack := acks != [] && acks[0];
      var told := Deliver(x, order[0], if TimesOut(authority) then Timeout else Deny, ack, Denied);
      assert order[0] in order;
      PushAgrees(enc, s, told, t, ApprovalSettled(order[0], Denied, "interrupt"), false);
      DeliverOne(enc, x, t, authority, order, acks);
      if ack {
        forall a | a in order[1..] && a in s.approvals ensures s.approvals[a].status == Pending { assert a in order; }
        DeliverAllAgrees(enc, s, DenyOne(enc, x, t, authority, order[0], ack), t, authority, order[1..], acks[1..]);
      }
    }
  }

  lemma {:induction false} PushDenialsAgree(enc: Encoding, s: State, x: State, t: nat, order: seq<nat>)
    requires Agrees(s, x)
    ensures Agrees(s, PushDenials(enc, x, t, order))
    decreases |order|
  {
    if order != [] {
      PushAgrees(enc, s, x, t, ApprovalSettled(order[0], Denied, "terminal"), false);
      PushDenialsAgree(enc, s, Push(enc, x, t, ApprovalSettled(order[0], Denied, "terminal"), false), t, order[1..]);
    }
  }

  lemma TerminalizeAgrees(enc: Encoding, s: State, x: State, t: nat, status: TurnStatus, detail: string, order: seq<nat>)
    requires Agrees(s, x)
    ensures Agrees(s, Terminalize(enc, x, t, status, detail, order))
  {
    if t in x.turns && !IsTerminal(x.turns[t].status) {
      PushDenialsAgree(enc, s, Close(x, t, status), t, order);
      PushAgrees(enc, s, PushDenials(enc, Close(x, t, status), t, order), t, TurnOver(status, detail), true);
    }
  }

  lemma InterruptAgrees(enc: Encoding, s: State, t: nat, authority: Authority, order: seq<nat>, acks: seq<bool>, control: Control)
    requires Visits(s, t, order)
    ensures Agrees(s, Interrupt(enc, s, t, authority, order, acks, control).0)
  {
    if t in s.turns && !IsTerminal(s.turns[t].status) {
      var claimed := ClaimAll(s, t);
      DeliverAllAgrees(enc, s, claimed, t, authority, order, acks);
      var told := DeliverAll(enc, claimed, t, authority, order, acks).0;
      TerminalizeAgrees(enc, s, told, t, if TimesOut(authority) then Failed else Interrupted, "interrupt", []);
      TerminalizeAgrees(enc, s, told, t, Failed, "delivery_ambiguous", []);
    }
  }

  lemma FinishAgrees(enc: Encoding, s: State, t: nat, result: RunResult, order: seq<nat>)
    ensures Agrees(s, Finish(enc, s, t, result, order))
  {
    var noted := if result.RunFailed? then s.(ready := false) else s;
    match result
    case RunCompleted(summary) => TerminalizeAgrees(enc, s, noted, t, Completed, summary, order);
    case RunInterrupted => TerminalizeAgrees(enc, s, noted, t, Interrupted, "interrupted", order);
    case RunRejected => TerminalizeAgrees(enc, s, noted, t, Failed, "turn_rejected", order);
    case RunFailed => TerminalizeAgrees(enc, s, noted, t, Failed, "runtime_failure", order);
  }

  lemma CreateTurnAgrees(enc: Encoding, s: State, thread: nat, journal: bool)
    ensures Agrees(s, CreateTurn(enc, s, thread, journal).0)
  {
    var room := Room(s);
    assert Agrees(s, room);
    PushAgrees(enc, s, AdmitTurn(room, thread), room.nextTurn, TurnBegan, false);
  }

  lemma DecideAgrees(enc: Encoding, s: State, a: nat, approve: bool, acknowledged: bool)
    ensures Agrees(s, Decide(enc, s, a, approve, acknowledged).0)
  {
    if a in s.approvals && s.approvals[a].status == Pending {
      var grant := approve && s.approvals[a].allow;
      var outcome := if grant && acknowledged then Approved else Denied;
      var told := Deliver(Claim(s, a), a, if grant then Allow else Deny, acknowledged, outcome);
      PushAgrees(enc, s, told, s.approvals[a].turn, ApprovalSettled(a, outcome, "decision"), false);
    }
  }

  lemma RegisterAgrees(enc: Encoding, s: State, t: nat, allow: bool, body: string)
    requires Senders(s)
    ensures Agrees(s, RegisterPending(enc, s, t, allow, body).0)
  {
    if RegisterPending(enc, s, t, allow, body).1 == Done {
      AddAgrees(s, t, allow);
      PushAgrees(enc, s, AddApproval(s, t, allow), t, ApprovalAsked(s.nextApproval, body), false);
    }
  }

  lemma AddAgrees(s: State, t: nat, allow: bool)
    requires Senders(s) && t in s.turns
    ensures Agrees(s, AddApproval(s, t, allow))
  {
    forall b | b in s.approvals ensures b != s.nextApproval { assert SenderHeld(s, b); }
  }

  /** Whatever the command, an approval that was Delivering, Approved or Denied
      before it is unchanged after it: only a pending approval can be decided. */
  lemma StepAgrees(enc: Encoding, s: State, c: Command)
    requires Inv(enc, s) && Possible(s, c)
    ensures Agrees(s, Step(enc, s, c))
  {
    match c
    case NewTurn(thread, journal) => CreateTurnAgrees(enc, s, thread, journal);
    case Rule(a, approve, acknowledged) => DecideAgrees(enc, s, a, approve, acknowledged);
    case Stop(t, authority, order, acks, control) => InterruptAgrees(enc, s, t, authority, order, acks, control);
    case ControllerDrop(t, order, acks, control) => InterruptAgrees(enc, s, t, SseDrop, order, acks, control);
    case Ask(t, allow, body) => RegisterAgrees(enc, s, t, allow, body);
    case ApprovalDeadline(t, a, order, acks, control) => InterruptAgrees(enc, s, t, ApprovalTimeout, order, acks, control);
    case Finished(t, result, order) => FinishAgrees(enc, s, t, result, order);
    case _ =>
  }

  lemma RunAgrees(enc: Encoding, trace: seq<State>, commands: seq<Command>, i: nat)
    requires IsRun(enc, trace, commands) && Inv(enc, trace[0]) && i < |commands|
    ensures Agrees(trace[i], trace[i + 1])
  {
    EveryRunKeepsInv(enc, trace, commands, i);
    StepAgrees(enc, trace[i], commands[i]);
  }

  /** Once not pending, an approval never changes again in any run, and its id
      never names another. */
  lemma {:induction false} DecidedForGood(enc: Encoding, trace: seq<State>, commands: seq<Command>, i: nat, j: nat, a: nat)
    requires IsRun(enc, trace, commands) && Inv(enc, trace[0]) && i <= j < |trace|
    requires a in trace[i].approvals && trace[i].approvals[a].status != Pending
    ensures a < trace[j].nextApproval
    ensures a in trace[j].approvals ==> trace[j].approvals[a] == trace[i].approvals[a]
    decreases j
  {
    if i < j {
      DecidedForGood(enc, trace, commands, i, j - 1, a);
      RunAgrees(enc, trace, commands, j - 1);
    } else {
      EveryRunKeepsInv(enc, trace, commands, i);
      assert SenderHeld(trace[i], a);
    }
  }
}
