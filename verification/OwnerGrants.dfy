/** Only a decision grants: whatever else the owner does, nothing new reads or is
    reported as Approved (src/api.rs). */
module OwnerGrants {
  import opened Owner
  import opened OwnerInvariant
  import opened OwnerSafety
  import opened OwnerHistory

  predicate Approves(k: EventKind) {
    k.ApprovalSettled? && k.outcome == Approved
  }

  /** Beyond `s`, nothing was delivered as Allow and nothing reported as Approved. */
  ghost predicate Modest(s: State, next: State) {
    && (forall d :: d in next.deliveries ==> d in s.deliveries || d.decision != Allow)
    && (forall e :: e in next.published ==> e in s.published || !Approves(e.kind))
  }

  lemma PushIsModest(enc: Encoding, s: State, t: nat, kind: EventKind, terminal: bool)
    requires !Approves(kind)
    ensures Modest(s, Push(enc, s, t, kind, terminal))
  {
    EvictKeepsRest(enc, Numbered(s), enc(NextEvent(s, t, kind, terminal)));
  }

  lemma DenyOneIsModest(enc: Encoding, s: State, t: nat, authority: Authority, a: nat, ack: bool)
    requires a in s.approvals
    ensures Modest(s, DenyOne(enc, s, t, authority, a, ack))
  {
    var told := Deliver(s, a, if TimesOut(authority) then Timeout else Deny, ack, Denied);
    PushKeepsApprovals(enc, told, t, ApprovalSettled(a, Denied, "interrupt"), false);
    PushIsModest(enc, told, t, ApprovalSettled(a, Denied, "interrupt"), false);
  }

  lemma {:induction false} DeliverAllIsModest(enc: Encoding, s: State, t: nat, authority: Authority, order: seq<nat>, acks: seq<bool>)
    requires forall a :: a in order ==> a in s.approvals
    ensures Modest(s, DeliverAll(enc, s, t, authority, order, acks).0)
    decreases |order|
  {
    if order != [] {
      var ack := acks != [] && acks[0];
      DenyOneIsModest(enc, s, t, authority, order[0], ack);
      DeliverOne(enc, s, t, authority, order, acks);
      if ack { DeliverAllIsModest(enc, DenyOne(enc, s, t, authority, order[0], ack), t, authority, order[1..], acks[1..]); }
    }
  }

  lemma {:induction false} PushDenialsIsModest(enc: Encoding, s: State, t: nat, order: seq<nat>)
    ensures Modest(s, PushDenials(enc, s, t, order))
    ensures PushDenials(enc, s, t, order).deliveries == s.deliveries
    decreases |order|
  {
    if order != [] {
      var kind := ApprovalSettled(order[0], Denied, "terminal");
      PushKeepsApprovals(enc, s, t, kind, false);
      PushIsModest(enc, s, t, kind, false);
      PushDenialsIsModest(enc, Push(enc, s, t, kind, false), t, order[1..]);
    }
  }

  lemma TerminalizeIsModest(enc: Encoding, s: State, t: nat, status: TurnStatus, detail: string, order: seq<nat>)
    ensures Modest(s, Terminalize(enc, s, t, status, detail, order))
  {
    if t in s.turns && !IsTerminal(s.turns[t].status) {
      var told := PushDenials(enc, Close(s, t, status), t, order);
      PushDenialsIsModest(enc, Close(s, t, status), t, order);
      PushIsModest(enc, told, t, TurnOver(status, detail), true);
    }
  }

  lemma AnswerIsModest(enc: Encoding, s: State, t: nat, authority: Authority, control: Control)
    ensures Modest(s, Answer(enc, s, t, authority, control).0)
  {
    match control
    case AckTimedOut =>
    case ReportsInterrupted => TerminalizeIsModest(enc, s, t, if TimesOut(authority) then Failed else Interrupted, "interrupt", []);
    case _ => TerminalizeIsModest(enc, s, t, Failed, "delivery_ambiguous", []);
  }

  lemma InterruptIsModest(enc: Encoding, s: State, t: nat, authority: Authority, order: seq<nat>, acks: seq<bool>, control: Control)
    requires forall a :: a in order ==> a in s.approvals
    ensures Modest(s, Interrupt(enc, s, t, authority, order, acks, control).0)
  {
    if t in s.turns && !IsTerminal(s.turns[t].status) {
      DeliverAllIsModest(enc, ClaimAll(s, t), t, authority, order, acks);
      AnswerIsModest(enc, DeliverAll(enc, ClaimAll(s, t), t, authority, order, acks).0, t, authority, control);
    }
  }

  lemma FinishIsModest(enc: Encoding, s: State, t: nat, result: RunResult, order: seq<nat>)
    ensures Modest(s, Finish(enc, s, t, result, order))
  {
    var noted := if result.RunFailed? then s.(ready := false) else s;
    match result
    case RunCompleted(summary) => TerminalizeIsModest(enc, noted, t, Completed, summary, order);
    case RunInterrupted => TerminalizeIsModest(enc, noted, t, Interrupted, "interrupted", order);
    case RunRejected => TerminalizeIsModest(enc, noted, t, Failed, "turn_rejected", order);
    case RunFailed => TerminalizeIsModest(enc, noted, t, Failed, "runtime_failure", order);
  }

  lemma OthersAreModest(enc: Encoding, s: State, c: Command)
    requires Possible(s, c) && !c.Rule?
    ensures Modest(s, Step(enc, s, c))
  {
    match c
    case NewTurn(thread, journal) => PushIsModest(enc, AdmitTurn(Room(s), thread), Room(s).nextTurn, TurnBegan, false);
    case Stop(t, authority, order, acks, control) => InterruptIsModest(enc, s, t, authority, order, acks, control);
    case ControllerDrop(t, order, acks, control) => InterruptIsModest(enc, s, t, SseDrop, order, acks, control);
    case Ask(t, allow, body) => if RegisterPending(enc, s, t, allow, body).1 == Done { PushIsModest(enc, AddApproval(s, t, allow), t, ApprovalAsked(s.nextApproval, body), false); }
    case ApprovalDeadline(t, a, order, acks, control) => InterruptIsModest(enc, s, t, ApprovalTimeout, order, acks, control);
    case Finished(t, result, order) => FinishIsModest(enc, s, t, result, order);
    case _ =>
  }

  /** The approval reads, or was reported as, Approved. */
  ghost predicate Granted(s: State, a: nat) {
    || (a in s.approvals && s.approvals[a].status == Approved)
    || exists e :: e in s.published && e.kind.ApprovalSettled? && e.kind.settled == a && e.kind.outcome == Approved
  }

  /** No command but a decision grants anything. */
  lemma OthersGrantNothing(enc: Encoding, s: State, c: Command, a: nat)
    requires Inv(enc, s) && Possible(s, c) && !c.Rule?
    ensures Granted(Step(enc, s, c), a) ==> Granted(s, a)
  {
    var next := Step(enc, s, c);
    OthersAreModest(enc, s, c);
    StepKeepsInv(enc, s, c);
    StepAgrees(enc, s, c);
    NothingNewlyApproved(s, next, a);
  }

  lemma NothingNewlyApproved(s: State, next: State, a: nat)
    requires Deliveries(s) && Deliveries(next) && Modest(s, next) && Agrees(s, next)
    ensures Granted(next, a) ==> Granted(s, a)
  {
  }

  lemma PushGrants(enc: Encoding, s: State, t: nat, kind: EventKind, b: nat)
    ensures Granted(Push(enc, s, t, kind, false), b) ==> Granted(s, b) || (Approves(kind) && kind.settled == b)
  {
    PushKeepsApprovals(enc, s, t, kind, false);
    EvictKeepsRest(enc, Numbered(s), enc(NextEvent(s, t, kind, false)));
  }

  lemma DeliverGrants(s: State, a: nat, decision: Decision, acknowledged: bool, status: ApprovalStatus, b: nat)
    requires a in s.approvals
    ensures Granted(Deliver(Claim(s, a), a, decision, acknowledged, status), b) ==> Granted(s, b) || (b == a && status == Approved)
  {
  }

  /** A decision grants the approval it is about, and only an acknowledged Allow. */
  lemma DecisionGrants(enc: Encoding, s: State, a: nat, approve: bool, acknowledged: bool, b: nat)
    requires Inv(enc, s)
    ensures Granted(Decide(enc, s, a, approve, acknowledged).0, b) ==>
              Granted(s, b) || (b == a && a in s.approvals && s.approvals[a].status == Pending && approve && acknowledged)
  {
    if a in s.approvals && s.approvals[a].status == Pending {
      assert SenderHeld(s, a);
      var grant := approve && s.approvals[a].allow;
      var outcome := if grant && acknowledged then Approved else Denied;
      var decision := if grant then Allow else Deny;
      DeliverGrants(s, a, decision, acknowledged, outcome, b);
      PushGrants(enc, Deliver(Claim(s, a), a, decision, acknowledged, outcome), s.approvals[a].turn, ApprovalSettled(a, outcome, "decision"), b);
    }
  }
}
