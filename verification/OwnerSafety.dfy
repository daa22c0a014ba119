/** Every command keeps the owner's invariant, so every reachable state has it,
    and what one command may do to turns, approvals and the published events
    (src/api.rs). */
module OwnerSafety {
  import opened Owner
  import opened ReplayLog
  import opened OwnerInvariant

  lemma InitialInv(enc: Encoding, ready: bool)
    ensures Inv(enc, Initial(ready))
  {
  }

  // ---------------------------------------------------------------------------
  // Command by command.

  lemma CreateThreadKeepsInv(enc: Encoding, s: State)
    requires Inv(enc, s)
    ensures Inv(enc, CreateThread(s).0)
  {
    if |s.threads| >= MAX_THREADS { PruneKeepsInv(enc, s); }
  }

  lemma AdmitAndPushKeepInv(enc: Encoding, s: State, thread: nat)
    requires Inv(enc, s) && s.active == 0
    ensures Inv(enc, Push(enc, AdmitTurn(s, thread), s.nextTurn, TurnBegan, false))
  {
    AdmitKeepsInv(enc, s, thread);
    PushKeepsInv(enc, AdmitTurn(s, thread), s.nextTurn, TurnBegan, false);
  }

  lemma CreateTurnKeepsInv(enc: Encoding, s: State, thread: nat, journal: bool)
    requires Inv(enc, s)
    ensures Inv(enc, CreateTurn(enc, s, thread, journal).0)
  {
    OutcomesKeepInv(enc, s, thread, CreateTurn(enc, s, thread, journal).0);
  }

  lemma OutcomesKeepInv(enc: Encoding, s: State, thread: nat, next: State)
    requires Inv(enc, s)
    requires || next == s.(ready := false) || next == s || next == Room(s)
             || (s.active == 0 && next == Push(enc, AdmitTurn(Room(s), thread), Room(s).nextTurn, TurnBegan, false))
    ensures Inv(enc, next)
  {
    if next == s.(ready := false) {
    } else {
      RoomKeepsInv(enc, s);
      if s.active == 0 { AdmitAndPushKeepInv(enc, Room(s), thread); }
    }
  }

  lemma RoomKeepsInv(enc: Encoding, s: State)
    requires Inv(enc, s)
    ensures Inv(enc, Room(s)) && Room(s).active == s.active
  {
    if |s.turns| >= MAX_TURNS { PruneKeepsInv(enc, s); }
  }

  /** Admission is the only cap that ever rejects a turn: whenever a turn may be
      admitted, pruning empties the retained turns. */
  lemma TurnCapacityNeverRejects(enc: Encoding, s: State, thread: nat, journal: bool)
    requires Inv(enc, s)
    ensures CreateTurn(enc, s, thread, journal).1 != TurnCapacity
    ensures s.active == 0 ==> Prune(s).turns == map[]
  {
    if s.active == 0 { PruneEmpties(enc, s); }
  }

  lemma SubscribeKeepsInv(enc: Encoding, s: State, t: nat, lastSeen: nat, observer: bool)
    requires Inv(enc, s)
    ensures Inv(enc, Subscribe(s, t, lastSeen, observer).0)
  {
    if t in s.turns { TouchKeepsInv(enc, s, t, Subscribe(s, t, lastSeen, observer).0.turns[t]); }
  }

  lemma RegisterKeepsInv(enc: Encoding, s: State, t: nat, allow: bool, body: string)
    requires Inv(enc, s)
    ensures Inv(enc, RegisterPending(enc, s, t, allow, body).0)
  {
    if RegisterPending(enc, s, t, allow, body).1 == Done {
      var added, kind := AddApproval(s, t, allow), ApprovalAsked(s.nextApproval, body);
      var next, e := Push(enc, added, t, kind, false), NextEvent(added, t, kind, false);
      AddApprovalKeepsCore(enc, s, t);
      PushKeepsCore(enc, added, t, kind, false);
      PushShape(enc, added, t, kind, false);
      forall a | a in next.approvals ensures Asked(next.published, a, next.approvals[a].turn) {
        if a == s.nextApproval {
          assert e in next.published;
        } else {
          PublishedKeepsAsked(added, next, e, a, next.approvals[a].turn);
        }
      }
    }
  }

  lemma DecideKeepsInv(enc: Encoding, s: State, a: nat, approve: bool, acknowledged: bool)
    requires Inv(enc, s)
    ensures Inv(enc, Decide(enc, s, a, approve, acknowledged).0)
  {
    if a in s.approvals && s.approvals[a].status == Pending {
      assert SenderHeld(s, a);
      ClaimKeepsInv(enc, s, a);
      var outcome := if approve && acknowledged then Approved else Denied;
      DeliverKeepsInv(enc, Claim(s, a), a, if approve then Allow else Deny, acknowledged, outcome);
      if acknowledged {
        var told := Deliver(Claim(s, a), a, if approve then Allow else Deny, acknowledged, outcome);
        assert Silent(s, s.approvals[a].turn);
        PushKeepsInv(enc, told, s.approvals[a].turn, ApprovalSettled(a, outcome, "decision"), false);
      }
    }
  }

  ghost predicate Distinct(order: seq<nat>) {
    forall i, j :: 0 <= i < j < |order| ==> order[i] != order[j]
  }

  /** What one delivered decision of an interrupt leaves behind. */
  ghost predicate Told(s: State, next: State, t: nat) {
    && SameTurns(s.turns, next.turns) && t in next.turns
    && next.approvals.Keys == s.approvals.Keys
    && forall a :: a in s.approvals ==>
         next.approvals[a] == s.approvals[a] || next.approvals[a] == s.approvals[a].(status := Denied)
  }

  lemma ToldTwice(a: State, b: State, c: State, t: nat)
    requires Told(a, b, t) && Told(b, c, t)
    ensures Told(a, c, t)
  {
  }

  lemma ToldKeepsLive(s: State, next: State, t: nat)
    requires Told(s, next, t) && t in s.turns && !IsTerminal(s.turns[t].status)
    ensures t in next.turns && !IsTerminal(next.turns[t].status)
  {
  }

  function DenyOne(enc: Encoding, s: State, t: nat, authority: Authority, a: nat, ack: bool): State
    requires a in s.approvals
  {
    Push(enc, Deliver(s, a, if TimesOut(authority) then Timeout else Deny, ack, Denied), t, ApprovalSettled(a, Denied, "interrupt"), false)
  }

  lemma DenyOneKeepsInv(enc: Encoding, s: State, t: nat, authority: Authority, a: nat, ack: bool)
    requires Inv(enc, s) && t in s.turns && !IsTerminal(s.turns[t].status) && Claimed(s, a)
    ensures Inv(enc, DenyOne(enc, s, t, authority, a, ack))
    ensures forall b :: b != a && Claimed(s, b) ==> Claimed(DenyOne(enc, s, t, authority, a, ack), b)
  {
    var decision := if TimesOut(authority) then Timeout else Deny;
    var told := Deliver(s, a, decision, ack, Denied);
    DeliverKeepsInv(enc, s, a, decision, ack, Denied);
    ReportDenial(enc, told, t, a);
  }

  lemma DenyOneTells(enc: Encoding, s: State, t: nat, authority: Authority, a: nat, ack: bool)
    requires Accounting(enc, s) && t in s.turns && a in s.approvals
    ensures Told(s, DenyOne(enc, s, t, authority, a, ack), t)
  {
    var told := Deliver(s, a, if TimesOut(authority) then Timeout else Deny, ack, Denied);
    PushShape(enc, told, t, ApprovalSettled(a, Denied, "interrupt"), false);
  }

  lemma ReportDenial(enc: Encoding, told: State, t: nat, a: nat)
    requires Inv(enc, told) && t in told.turns && !IsTerminal(told.turns[t].status)
    requires a in told.approvals && told.approvals[a].status == Denied && Unsettled(told, a)
    ensures var next := Push(enc, told, t, ApprovalSettled(a, Denied, "interrupt"), false);
            && Inv(enc, next) && SameTurns(told.turns, next.turns)
            && next.approvals == told.approvals && next.deliveries == told.deliveries
            && (forall b :: Unsettled(told, b) && b != a ==> Unsettled(next, b))
  {
    var kind := ApprovalSettled(a, Denied, "interrupt");
    assert Silent(told, t) && SenderHeld(told, a);
    PushKeepsInv(enc, told, t, kind, false);
    PushShape(enc, told, t, kind, false);
  }

  lemma {:induction false} DeliverAllKeepsInv(enc: Encoding, s: State, t: nat, authority: Authority, order: seq<nat>, acks: seq<bool>)
    requires Inv(enc, s) && t in s.turns && !IsTerminal(s.turns[t].status)
    requires forall a :: a in order ==> a in s.approvals
    requires Distinct(order) && forall a :: a in order ==> Claimed(s, a)
    ensures Inv(enc, DeliverAll(enc, s, t, authority, order, acks).0)
    ensures Told(s, DeliverAll(enc, s, t, authority, order, acks).0, t)
    decreases |order|
  {
    if order != [] {
      var a, ack := order[0], acks != [] && acks[0];
      assert a in order;
      var next := DenyOne(enc, s, t, authority, a, ack);
      DenyOneKeepsInv(enc, s, t, authority, a, ack);
      DenyOneTells(enc, s, t, authority, a, ack);
      DeliverOne(enc, s, t, authority, order, acks);
      if ack {
        RestStillClaimed(s, next, order);
        ToldKeepsLive(s, next, t);
        DeliverAllKeepsInv(enc, next, t, authority, order[1..], acks[1..]);
        ToldTwice(s, next, DeliverAll(enc, s, t, authority, order, acks).0, t);
      }
    }
  }

  lemma DeliverOne(enc: Encoding, s: State, t: nat, authority: Authority, order: seq<nat>, acks: seq<bool>)
    requires order != [] && forall a :: a in order ==> a in s.approvals
    ensures var ack := acks != [] && acks[0];
            var next := DenyOne(enc, s, t, authority, order[0], ack);
            && (forall a :: a in order[1..] ==> a in next.approvals)
            && (ack ==> DeliverAll(enc, s, t, authority, order, acks).0 == DeliverAll(enc, next, t, authority, order[1..], acks[1..]).0)
            && (!ack ==> DeliverAll(enc, s, t, authority, order, acks).0 == next)
  {
    var ack := acks != [] && acks[0];
    PushKeepsApprovals(enc, Deliver(s, order[0], if TimesOut(authority) then Timeout else Deny, ack, Denied), t,
                       ApprovalSettled(order[0], Denied, "interrupt"), false);
  }

  lemma RestStillClaimed(s: State, next: State, order: seq<nat>)
    requires order != [] && Distinct(order) && (forall a :: a in order ==> Claimed(s, a))
    requires forall b :: b != order[0] && Claimed(s, b) ==> Claimed(next, b)
    ensures Distinct(order[1..]) && forall b :: b in order[1..] ==> Claimed(next, b)
  {
    forall b | b in order[1..] ensures Claimed(next, b) { }
  }

  lemma {:induction false} PushDenialsKeepInv(enc: Encoding, s: State, t: nat, order: seq<nat>)
    requires Inv(enc, s) && t in s.turns && IsTerminal(s.turns[t].status) && Silent(s, t)
    requires Distinct(order)
    requires forall a :: a in order ==> Unsettled(s, a) && SettledRight(s, ApprovalSettled(a, Denied, "terminal"))
    ensures var next := PushDenials(enc, s, t, order);
            Inv(enc, next) && Silent(next, t) && t in next.turns && IsTerminal(next.turns[t].status)
    decreases |order|
  {
    if order != [] {
      var kind := ApprovalSettled(order[0], Denied, "terminal");
      PushKeepsInv(enc, s, t, kind, false);
      PushShape(enc, s, t, kind, false);
      var next := Push(enc, s, t, kind, false);
      forall b | b in order[1..] ensures Unsettled(next, b) && SettledRight(next, ApprovalSettled(b, Denied, "terminal")) {
        var i :| 0 <= i < |order[1..]| && order[1..][i] == b;
        assert order[i + 1] == b && b in order;
        assert SettledRight(s, ApprovalSettled(b, Denied, "terminal"));
      }
      PushDenialsKeepInv(enc, next, t, order[1..]);
    }
  }

  lemma TerminalizeKeepsInv(enc: Encoding, s: State, t: nat, status: TurnStatus, detail: string, order: seq<nat>)
    requires Inv(enc, s) && IsTerminal(status) && Visits(s, t, order)
    ensures Inv(enc, Terminalize(enc, s, t, status, detail, order))
  {
    if t in s.turns && !IsTerminal(s.turns[t].status) {
      var closed := Close(s, t, status);
      CloseKeepsInv(enc, s, t, status);
      PushDenialsKeepInv(enc, closed, t, order);
      PushKeepsInv(enc, PushDenials(enc, closed, t, order), t, TurnOver(status, detail), true);
    }
  }

  lemma InterruptKeepsInv(enc: Encoding, s: State, t: nat, authority: Authority, order: seq<nat>, acks: seq<bool>, control: Control)
    requires Inv(enc, s) && Visits(s, t, order)
    ensures Inv(enc, Interrupt(enc, s, t, authority, order, acks, control).0)
  {
    if t in s.turns && !IsTerminal(s.turns[t].status) {
      DeliveriesOfInterrupt(enc, s, t, authority, order, acks);
      var told := DeliverAll(enc, ClaimAll(s, t), t, authority, order, acks).0;
      AnswerKeepsInv(enc, told, t, authority, control);
    }
  }

  lemma AnswerKeepsInv(enc: Encoding, s: State, t: nat, authority: Authority, control: Control)
    requires Inv(enc, s) && Visits(s, t, [])
    ensures Inv(enc, Answer(enc, s, t, authority, control).0)
  {
    match control
    case AckTimedOut =>
    case ReportsInterrupted => TerminalizeKeepsInv(enc, s, t, if TimesOut(authority) then Failed else Interrupted, "interrupt", []);
    case _ => TerminalizeKeepsInv(enc, s, t, Failed, "delivery_ambiguous", []);
  }

  /** The deliveries of an interrupt leave nothing pending on the turn. */
  lemma DeliveriesOfInterrupt(enc: Encoding, s: State, t: nat, authority: Authority, order: seq<nat>, acks: seq<bool>)
    requires Inv(enc, s) && Visits(s, t, order) && t in s.turns && !IsTerminal(s.turns[t].status)
    ensures var told := DeliverAll(enc, ClaimAll(s, t), t, authority, order, acks).0;
            Inv(enc, told) && Visits(told, t, [])
  {
    var claimed := ClaimAll(s, t);
    ClaimAllKeepsInv(enc, s, t);
    DeliverAllKeepsInv(enc, claimed, t, authority, order, acks);
    NothingPending(s, t, DeliverAll(enc, claimed, t, authority, order, acks).0);
  }

  lemma NothingPending(s: State, t: nat, told: State)
    requires Told(ClaimAll(s, t), told, t)
    ensures Visits(told, t, [])
  {
    forall a | a in told.approvals && told.approvals[a].turn == t ensures told.approvals[a].status != Pending {
      assert ClaimAll(s, t).approvals[a].status != Pending;
    }
  }

  lemma FinishKeepsInv(enc: Encoding, s: State, t: nat, result: RunResult, order: seq<nat>)
    requires Inv(enc, s) && Visits(s, t, order)
    ensures Inv(enc, Finish(enc, s, t, result, order))
  {
    var noted := if result.RunFailed? then s.(ready := false) else s;
    assert PendingOf(noted, t) == PendingOf(s, t);
    match result
    case RunCompleted(summary) => TerminalizeKeepsInv(enc, noted, t, Completed, summary, order);
    case RunInterrupted => TerminalizeKeepsInv(enc, noted, t, Interrupted, "interrupted", order);
    case RunRejected => TerminalizeKeepsInv(enc, noted, t, Failed, "turn_rejected", order);
    case RunFailed => TerminalizeKeepsInv(enc, noted, t, Failed, "runtime_failure", order);
  }

  lemma ReleaseKeepsInv(enc: Encoding, s: State, t: nat)
    requires Inv(enc, s)
    ensures Inv(enc, ReleaseController(s, t))
  {
    if t in s.turns { TouchKeepsInv(enc, s, t, s.turns[t].(controller := false)); }
  }

  predicate Ends(c: Command) {
    c.Stop? || c.ControllerDrop? || c.ApprovalDeadline? || c.Finished?
  }

  lemma EndingKeepsInv(enc: Encoding, s: State, c: Command)
    requires Inv(enc, s) && Possible(s, c) && Ends(c)
    ensures Inv(enc, Step(enc, s, c))
  {
    match c
    case Stop(t, authority, order, acks, control) => InterruptKeepsInv(enc, s, t, authority, order, acks, control);
    case ControllerDrop(t, order, acks, control) =>
      InterruptKeepsInv(enc, s, t, SseDrop, order, acks, control);
      ReleaseKeepsInv(enc, Interrupt(enc, s, t, SseDrop, order, acks, control).0, t);
    case ApprovalDeadline(t, a, order, acks, control) => InterruptKeepsInv(enc, s, t, ApprovalTimeout, order, acks, control);
    case Finished(t, result, order) => FinishKeepsInv(enc, s, t, result, order);
  }

  lemma StepKeepsInv(enc: Encoding, s: State, c: Command)
    requires Inv(enc, s) && Possible(s, c)
    ensures Inv(enc, Step(enc, s, c))
  {
    match c
    case Bootstrap(admitted) =>
    case NewThread => CreateThreadKeepsInv(enc, s);
    case NewTurn(thread, journal) => CreateTurnKeepsInv(enc, s, thread, journal);
    case Watch(t, lastSeen, observer) => SubscribeKeepsInv(enc, s, t, lastSeen, observer);
    case Rule(a, approve, acknowledged) => DecideKeepsInv(enc, s, a, approve, acknowledged);
    case Ask(t, allow, body) => RegisterKeepsInv(enc, s, t, allow, body);
    case _ => EndingKeepsInv(enc, s, c);
  }

  /** Every state of every run of the owner satisfies the invariant. */
  lemma {:induction false} EveryRunKeepsInv(enc: Encoding, trace: seq<State>, commands: seq<Command>, i: nat)
    requires IsRun(enc, trace, commands) && i < |trace| && Inv(enc, trace[0])
    ensures Inv(enc, trace[i])
  {
    if i > 0 {
      EveryRunKeepsInv(enc, trace, commands, i - 1);
      assert trace[i - 1 + 1] == Step(enc, trace[i - 1], commands[i - 1]);
      StepKeepsInv(enc, trace[i - 1], commands[i - 1]);
    }
  }

  /** One more command makes a run longer. */
  lemma Extend(enc: Encoding, trace: seq<State>, commands: seq<Command>, c: Command, next: State)
    requires IsRun(enc, trace, commands) && Possible(trace[|commands|], c) && next == Step(enc, trace[|commands|], c)
    ensures IsRun(enc, trace + [next], commands + [c])
  {
    var longer, all := trace + [next], commands + [c];
    forall i | 0 <= i < |all| ensures Possible(longer[i], all[i]) && longer[i + 1] == Step(enc, longer[i], all[i]) {
      if i < |commands| { assert longer[i] == trace[i] && longer[i + 1] == trace[i + 1] && all[i] == commands[i]; }
    }
  }
}
