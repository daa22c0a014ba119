/** The controlled execution (src/orchestrator.rs run_controlled_flow,
    run_turn_with_launcher_controlled_with_journal): at every stage a control
    command may win over the protocol. What is acknowledged to the controller and
    what recovery will read must not claim more than was observed. */
module Control {
  import opened Text
  import opened Json
  import opened Journal
  import opened Flow

  /** What the control channel says first: nothing, an interrupt, or that its
      owner is gone. */
  datatype Signal = Quiet | InterruptAsked | OwnerGone

  /** A call raced against the control channel; with a signal the call is dropped
      wherever it was. */
  datatype Stage = Stage(signal: Signal, rpc: Rpc)

  /** The flow: its effects, whether an interrupt awaits its acknowledgement, and
      the completion it returned with, if it did. */
  datatype Run = Run(progress: Progress, asked: bool, done: Option<ExecutionEnd>)

  function Begin(p: Progress): Run {
    Run(p, false, None)
  }

  predicate Going(r: Run) {
    r.progress.error.None? && r.done.None?
  }

  function FailedWith(p: Progress, e: Error): Progress {
    p.(error := Some(e))
  }

  /** The effects of a call dropped half-way. */
  function Dropped(p: Progress, call: Call, rpc: Rpc): Progress {
    p.(trace := p.trace + AttemptOf(call, rpc.Offered()) + SeenEffects(rpc.Seen()), seen := p.seen || rpc.Seen().Seen?)
  }

  /** One stage. With `strict`, an interrupt after the write attempt is ambiguous;
      otherwise it completes the flow as interrupted. */
  function Raced(r: Run, call: Call, s: Stage, strict: bool): Run {
    if !Going(r) then r
    else
      match s.signal
      case Quiet => r.(progress := Called(r.progress, call, s.rpc, strict))
      case OwnerGone => r.(progress := FailedWith(Dropped(r.progress, call, s.rpc), DeadlineExceeded))
      case InterruptAsked =>
        var dropped := Dropped(r.progress, call, s.rpc);
        if strict && s.rpc.Marked() then Run(FailedWith(dropped, Ambiguous), true, None)
        else Run(dropped, true, Some(ExecutionEnd.Interrupted))
  }

  function NotedIn(r: Run, journal: bool, append: Append, row: Record): Run {
    if r.done.Some? then r else r.(progress := Noted(r.progress, journal, append, row))
  }

  datatype InterruptEnd = Returned(rpc: Rpc) | TimedOut(rpc: Rpc)
  datatype Limited = InTime(wait: Wait) | Late(approvals: Approvals)

  /** The last stage: the turn ends, the owner goes, the deadline passes, or an
      interrupt is asked and sent. `before` is what was seen until then. */
  datatype Ending =
    | TurnEnds(wait: Wait, row: Append)
    | OwnerGoes(before: Approvals)
    | DeadlinePasses(before: Approvals)
    | Interrupting(before: Approvals, interrupt: InterruptEnd, terminal: Limited, row: Append)

  function Saw(p: Progress, a: Approvals): Progress {
    p.(trace := p.trace + SeenEffects(a), seen := p.seen || a.Seen?)
  }

  function SendInterrupt(p: Progress, e: InterruptEnd): Progress {
    match e
    case Returned(rpc) => Called(p, TurnInterrupt, rpc, true)
    case TimedOut(rpc) => FailedWith(Dropped(p, TurnInterrupt, rpc), if rpc.Marked() then Ambiguous else DeadlineExceeded)
  }

  function AwaitTerminal(p: Progress, l: Limited): Progress {
    if p.error.Some? then p
    else
      match l
      case InTime(wait) => Awaited(p, wait)
      case Late(approvals) => FailedWith(Saw(p, approvals), DeadlineExceeded)
  }

  function EndOf(status: string): ExecutionEnd {
    if status == "completed" then ExecutionEnd.Completed else ExecutionEnd.Failed
  }

  function Complete(p: Progress, asked: bool, end: ExecutionEnd): Run {
    Run(p, asked, if p.error.None? then Some(end) else None)
  }

  function Finally(r: Run, execution: string, journal: bool, turn: string, e: Ending): Run {
    if !Going(r) then r
    else
      match e
      case TurnEnds(wait, row) =>
        Complete(Noted(Awaited(r.progress, wait), journal, row, TurnEnded(execution, turn, TurnEndOf(StatusOf(wait)))), r.asked, EndOf(StatusOf(wait)))
      case OwnerGoes(before) => r.(progress := FailedWith(Saw(r.progress, before), DeadlineExceeded))
      case DeadlinePasses(before) => r.(progress := FailedWith(Saw(r.progress, before), DeadlineExceeded))
      case Interrupting(before, interrupt, terminal, row) =>
        Complete(Noted(AwaitTerminal(SendInterrupt(Saw(r.progress, before), interrupt), terminal), journal, row,
                       TurnEnded(execution, turn, TurnInterrupted)), true, ExecutionEnd.Interrupted)
  }

  datatype Circumstances = Circumstances(
    started: Append, spawned: bool,
    initialize: Stage, account: Stage, models: Stage, limits: Stage, snapshot: Json, snapshotRow: Append,
    thread: Stage, turn: Stage, turnId: string, turnRow: Append, ending: Ending,
    internal: seq<ApprovalRow>, internalOk: bool, incidentRow: Append, endRow: Append,
    shutdownOk: bool, cleanupOk: bool, journalOk: bool)

  function Prelude(r: Run, execution: string, journal: bool, c: Circumstances): Run {
    NotedIn(Raced(Raced(Raced(Raced(r, Initialize, c.initialize, false), AccountRead, c.account, false),
                        ModelList, c.models, false), RateLimits, c.limits, false),
            journal, c.snapshotRow, RateLimitSnapshot(execution, c.snapshot))
  }

  function Begun(r: Run, execution: string, journal: bool, c: Circumstances): Run {
    NotedIn(Raced(Raced(r, ThreadStart, c.thread, true), TurnStart, c.turn, true),
            journal, c.turnRow, TurnStarted(execution, c.turnId))
  }

  function Controlled(p: Progress, execution: string, journal: bool, c: Circumstances): Run {
    Finally(Begun(Prelude(Begin(p), execution, journal, c), execution, journal, c), execution, journal, c.turnId, c.ending)
  }

  /** The incident a deadline leaves before the completion row. */
  function NotedDeadline(p: Progress, execution: string, journal: bool, c: Circumstances): Progress {
    if p.error == Some(DeadlineExceeded)
    then Also(p, journal, c.incidentRow, Incident(Some(execution), "cancellation_timeout", "process group reaped")) else p
  }

  /** The completion row, unless the delivery of something is ambiguous. */
  function Recorded(p: Progress, execution: string, journal: bool, end: ExecutionEnd, c: Circumstances): Progress {
    if p.error == Some(Ambiguous) then
      Also(p, journal, c.incidentRow, Incident(Some(execution), "delivery_ambiguous", "recovery required"))
    else
      var noted := NotedDeadline(p, execution, journal, c);
      Also(noted, journal, c.endRow, ExecutionCompleted(execution, if noted.error.None? then end else ExecutionEnd.Failed))
  }

  function Internal(p: Progress, journal: bool, c: Circumstances): Progress {
    if journal && p.seen then Progress(p.trace + RowEffects(c.internal), true, Retain(p.error, c.internalOk, JournalLost)) else p
  }

  /** Rows, cleanup, and only then the acknowledgement. */
  function Epilogue(r: Run, execution: string, journal: bool, c: Circumstances): Progress {
    var told := Internal(r.progress, journal, c);
    var recorded := Recorded(told, execution, journal, r.done.GetOr(ExecutionEnd.Failed), c);
    var error := Retain(Retain(Retain(recorded.error, c.shutdownOk, CleanupFailed), c.cleanupOk, CleanupFailed), c.journalOk, JournalLost);
    Progress(recorded.trace + (if r.asked then [Told(if error.None? then ToldInterrupted else ToldUnknown)] else []), recorded.seen, error)
  }

  function Execute(execution: string, journal: bool, c: Circumstances): Progress {
    var begun := Also(START, journal, c.started, ExecutionStarted(execution));
    if begun.error.Some? then begun
    else if !c.spawned then
      var failed := Also(begun, journal, c.endRow, ExecutionCompleted(execution, ExecutionEnd.Failed));
      failed.(error := Some(if failed.error.Some? then JournalLost else SpawnFailed))
    else Epilogue(Controlled(begun, execution, journal, c), execution, journal, c)
  }

  // ---------------------------------------------------------------------------
  // What the stages can add.

  /** Neither an acknowledgement nor a row about the execution itself. */
  predicate Plain(e: Effect) {
    !e.Told? && (e.Row? ==> ExecutionEntry(e.r).None?)
  }

  /** `b` extends `a` by plain effects, and by a turn/start attempt only if `turn`. */
  ghost predicate Grows(a: seq<Effect>, b: seq<Effect>, turn: bool) {
    a <= b && forall e :: e in b[|a|..] ==> Plain(e) && (e == Attempt(TurnStart) ==> turn)
  }

  lemma GrowsTwice(a: seq<Effect>, b: seq<Effect>, c: seq<Effect>, x: bool, y: bool)
    requires Grows(a, b, x) && Grows(b, c, y)
    ensures Grows(a, c, x || y)
  {
    forall e | e in c[|a|..] ensures Plain(e) && (e == Attempt(TurnStart) ==> x || y) {
      var i :| |a| <= i < |c| && c[i] == e;
      if i < |b| { assert b[|a|..][i - |a|] == e; } else { assert c[|b|..][i - |b|] == e; }
    }
  }

  lemma GrowsKeeps(a: seq<Effect>, b: seq<Effect>, turn: bool, e: Effect)
    requires Grows(a, b, turn)
    ensures e in a ==> e in b
    ensures e in b && (!Plain(e) || (e == Attempt(TurnStart) && !turn)) ==> e in a
  {
    Members(a, b[|a|..]);
    assert a + b[|a|..] == b;
  }

  lemma SeenIsPlain(a: Approvals)
    ensures forall e :: e in SeenEffects(a) ==> Plain(e) && !e.Attempt?
  {
    if a.Seen? { RowEffectsAreRows(a.rows); }
  }

  lemma CalledGrows(p: Progress, call: Call, rpc: Rpc, strict: bool)
    ensures Grows(p.trace, Called(p, call, rpc, strict).trace, call == TurnStart)
  {
    CallMembersPlain(call, rpc);
    assert p.trace + [] == p.trace;
  }

  lemma CallMembersPlain(call: Call, rpc: Rpc)
    ensures forall e :: e in CallEffects(call, rpc) ==> Plain(e) && (e == Attempt(TurnStart) ==> call == TurnStart)
  {
    var reply := ReplyEffects(call, rpc.End());
    SeenIsPlain(rpc.Seen());
    Members(AttemptOf(call, rpc.Offered()) + SeenEffects(rpc.Seen()), reply);
    Members(AttemptOf(call, rpc.Offered()), SeenEffects(rpc.Seen()));
  }

  lemma DroppedGrows(p: Progress, call: Call, rpc: Rpc)
    ensures Grows(p.trace, Dropped(p, call, rpc).trace, call == TurnStart && rpc.Offered())
  {
    SeenIsPlain(rpc.Seen());
    Members(AttemptOf(call, rpc.Offered()), SeenEffects(rpc.Seen()));
    assert p.trace + (AttemptOf(call, rpc.Offered()) + SeenEffects(rpc.Seen())) == p.trace + AttemptOf(call, rpc.Offered()) + SeenEffects(rpc.Seen());
  }

  lemma AlsoGrows(p: Progress, journal: bool, append: Append, r: Record)
    requires ExecutionEntry(r).None?
    ensures Grows(p.trace, Also(p, journal, append, r).trace, false)
    ensures Grows(p.trace, Noted(p, journal, append, r).trace, false)
  {
    assert p.trace + [] == p.trace;
  }

  lemma AwaitedGrows(p: Progress, w: Wait)
    ensures Grows(p.trace, Awaited(p, w).trace, false)
  {
    var terminal := if w.end.Completes? then [Terminal(w.end.status)] else [];
    SeenIsPlain(w.approvals);
    Members(SeenEffects(w.approvals), terminal);
    assert p.trace + (SeenEffects(w.approvals) + terminal) == p.trace + SeenEffects(w.approvals) + terminal;
    assert p.trace + [] == p.trace;
  }

  lemma SawGrows(p: Progress, a: Approvals)
    ensures Grows(p.trace, Saw(p, a).trace, false)
  {
    SeenIsPlain(a);
  }

  /** A run that an interrupt has reached is over; if it completed that way, no
      turn/start was ever attempted. */
  ghost predicate Honest(r: Run) {
    && (r.asked ==> !Going(r))
    && (r.done.Some? ==> r.asked && r.done == Some(ExecutionEnd.Interrupted) && r.progress.error.None? && Attempt(TurnStart) !in r.progress.trace)
  }

  lemma RacedIsHonest(r: Run, call: Call, s: Stage, strict: bool)
    requires Honest(r) && Attempt(TurnStart) !in r.progress.trace && (call == TurnStart ==> strict)
    ensures Honest(Raced(r, call, s, strict))
    ensures Grows(r.progress.trace, Raced(r, call, s, strict).progress.trace, call == TurnStart)
    ensures call != TurnStart ==> Attempt(TurnStart) !in Raced(r, call, s, strict).progress.trace
  {
    var next := Raced(r, call, s, strict);
    assert r.progress.trace + [] == r.progress.trace;
    CalledGrows(r.progress, call, s.rpc, strict);
    DroppedGrows(r.progress, call, s.rpc);
    if call != TurnStart { GrowsKeeps(r.progress.trace, next.progress.trace, false, Attempt(TurnStart)); }
    OfferedIsMarked(s.rpc);
    if s.signal.InterruptAsked? && !s.rpc.Marked() {
      GrowsKeeps(r.progress.trace, Dropped(r.progress, call, s.rpc).trace, false, Attempt(TurnStart));
    }
  }

  lemma NotedInIsHonest(r: Run, journal: bool, append: Append, row: Record)
    requires Honest(r) && ExecutionEntry(row).None?
    ensures Honest(NotedIn(r, journal, append, row))
    ensures Grows(r.progress.trace, NotedIn(r, journal, append, row).progress.trace, false)
    ensures Attempt(TurnStart) !in r.progress.trace ==> Attempt(TurnStart) !in NotedIn(r, journal, append, row).progress.trace
  {
    var next := NotedIn(r, journal, append, row);
    AlsoGrows(r.progress, journal, append, row);
    assert r.progress.trace + [] == r.progress.trace;
    GrowsKeeps(r.progress.trace, next.progress.trace, false, Attempt(TurnStart));
  }

  lemma PreludeIsHonest(r: Run, execution: string, journal: bool, c: Circumstances)
    requires Honest(r) && Attempt(TurnStart) !in r.progress.trace
    ensures var next := Prelude(r, execution, journal, c);
            Honest(next) && Attempt(TurnStart) !in next.progress.trace && Grows(r.progress.trace, next.progress.trace, false)
  {
    var a := Raced(r, Initialize, c.initialize, false);
    var b := Raced(a, AccountRead, c.account, false);
    var d := Raced(b, ModelList, c.models, false);
    var e := Raced(d, RateLimits, c.limits, false);
    RacedIsHonest(r, Initialize, c.initialize, false);
    RacedIsHonest(a, AccountRead, c.account, false);
    RacedIsHonest(b, ModelList, c.models, false);
    RacedIsHonest(d, RateLimits, c.limits, false);
    NotedInIsHonest(e, journal, c.snapshotRow, RateLimitSnapshot(execution, c.snapshot));
    var next := Prelude(r, execution, journal, c);
    GrowsTwice(r.progress.trace, a.progress.trace, b.progress.trace, false, false);
    GrowsTwice(r.progress.trace, b.progress.trace, d.progress.trace, false, false);
    GrowsTwice(r.progress.trace, d.progress.trace, e.progress.trace, false, false);
    GrowsTwice(r.progress.trace, e.progress.trace, next.progress.trace, false, false);
  }

  lemma BegunIsHonest(r: Run, execution: string, journal: bool, c: Circumstances)
    requires Honest(r) && Attempt(TurnStart) !in r.progress.trace
    ensures var next := Begun(r, execution, journal, c); Honest(next) && Grows(r.progress.trace, next.progress.trace, true)
  {
    var a := Raced(r, ThreadStart, c.thread, true);
    var b := Raced(a, TurnStart, c.turn, true);
    RacedIsHonest(r, ThreadStart, c.thread, true);
    RacedIsHonest(a, TurnStart, c.turn, true);
    NotedInIsHonest(b, journal, c.turnRow, TurnStarted(execution, c.turnId));
    GrowsTwice(r.progress.trace, a.progress.trace, b.progress.trace, false, true);
    GrowsTwice(r.progress.trace, b.progress.trace, Begun(r, execution, journal, c).progress.trace, true, false);
  }

  ghost predicate TerminalRead(trace: seq<Effect>) {
    exists status :: Terminal(status) in trace
  }

  /** What may be called interrupted: no turn was ever attempted, or the interrupt
      was acknowledged and the turn's end was read. */
  ghost predicate TrulyInterrupted(trace: seq<Effect>) {
    Attempt(TurnStart) !in trace || (Acked(TurnInterrupt) in trace && TerminalRead(trace))
  }

  /** What a finished flow may claim. */
  ghost predicate Truthful(r: Run) {
    && (r.asked && r.progress.error.None? ==> r.done == Some(ExecutionEnd.Interrupted))
    && (r.done == Some(ExecutionEnd.Interrupted) && r.progress.error.None? ==> TrulyInterrupted(r.progress.trace))
    && (r.done == Some(ExecutionEnd.Completed) && r.progress.error.None? ==> Terminal("completed") in r.progress.trace)
  }

  lemma SendInterruptGrows(p: Progress, e: InterruptEnd)
    requires p.error.None?
    ensures Grows(p.trace, SendInterrupt(p, e).trace, false)
    ensures SendInterrupt(p, e).error.None? ==> Acked(TurnInterrupt) in SendInterrupt(p, e).trace
  {
    match e
    case Returned(rpc) =>
      CalledGrows(p, TurnInterrupt, rpc, true);
      if rpc.End().Answered? {
        var q := Called(p, TurnInterrupt, rpc, true);
        assert q.trace[|q.trace| - 1] == Acked(TurnInterrupt);
      }
    case TimedOut(rpc) => DroppedGrows(p, TurnInterrupt, rpc);
  }

  lemma AwaitTerminalGrows(p: Progress, l: Limited)
    ensures Grows(p.trace, AwaitTerminal(p, l).trace, false)
    ensures p.error.None? && AwaitTerminal(p, l).error.None? ==> TerminalRead(AwaitTerminal(p, l).trace)
  {
    assert p.trace + [] == p.trace;
    if p.error.None? {
      match l
      case InTime(wait) =>
        AwaitedGrows(p, wait);
      case Late(approvals) => SawGrows(p, approvals);
    }
  }

  lemma InterruptingIsTruthful(r: Run, execution: string, journal: bool, turn: string, e: Ending)
    requires Honest(r) && Going(r) && e.Interrupting?
    ensures var next := Finally(r, execution, journal, turn, e); Truthful(next) && Grows(r.progress.trace, next.progress.trace, false)
  {
    var a := Saw(r.progress, e.before);
    var b := SendInterrupt(a, e.interrupt);
    var c := AwaitTerminal(b, e.terminal);
    var d := Noted(c, journal, e.row, TurnEnded(execution, turn, TurnInterrupted));
    SawGrows(r.progress, e.before);
    SendInterruptGrows(a, e.interrupt);
    AwaitTerminalGrows(b, e.terminal);
    AlsoGrows(c, journal, e.row, TurnEnded(execution, turn, TurnInterrupted));
    GrowsTwice(r.progress.trace, a.trace, b.trace, false, false);
    GrowsTwice(r.progress.trace, b.trace, c.trace, false, false);
    GrowsTwice(r.progress.trace, c.trace, d.trace, false, false);
    if d.error.None? {
      GrowsKeeps(b.trace, c.trace, false, Acked(TurnInterrupt));
      GrowsKeeps(c.trace, d.trace, false, Acked(TurnInterrupt));
      var status :| Terminal(status) in c.trace;
      GrowsKeeps(c.trace, d.trace, false, Terminal(status));
    }
  }

  lemma TurnEndsIsTruthful(r: Run, execution: string, journal: bool, turn: string, e: Ending)
    requires Honest(r) && Going(r) && e.TurnEnds?
    ensures var next := Finally(r, execution, journal, turn, e); Truthful(next) && Grows(r.progress.trace, next.progress.trace, false)
  {
    var a := Awaited(r.progress, e.wait);
    var row := TurnEnded(execution, turn, TurnEndOf(StatusOf(e.wait)));
    var b := Noted(a, journal, e.row, row);
    AwaitedGrows(r.progress, e.wait);
    AlsoGrows(a, journal, e.row, row);
    GrowsTwice(r.progress.trace, a.trace, b.trace, false, false);
    if b.error.None? {
      GrowsKeeps(a.trace, b.trace, false, Terminal(StatusOf(e.wait)));
    }
  }

  lemma FinallyIsTruthful(r: Run, execution: string, journal: bool, turn: string, e: Ending)
    requires Honest(r)
    ensures var next := Finally(r, execution, journal, turn, e); Truthful(next) && Grows(r.progress.trace, next.progress.trace, false)
  {
    assert r.progress.trace + [] == r.progress.trace;
    if Going(r) {
      match e
      case TurnEnds(_, _) => TurnEndsIsTruthful(r, execution, journal, turn, e);
      case OwnerGoes(before) => SawGrows(r.progress, before);
      case DeadlinePasses(before) => SawGrows(r.progress, before);
      case Interrupting(_, _, _, _) => InterruptingIsTruthful(r, execution, journal, turn, e);
    }
  }

  lemma ControlledIsTruthful(p: Progress, execution: string, journal: bool, c: Circumstances)
    requires p.error.None? && Attempt(TurnStart) !in p.trace
    ensures var r := Controlled(p, execution, journal, c); Truthful(r) && Grows(p.trace, r.progress.trace, true)
  {
    var a := Prelude(Begin(p), execution, journal, c);
    var b := Begun(a, execution, journal, c);
    PreludeIsHonest(Begin(p), execution, journal, c);
    BegunIsHonest(a, execution, journal, c);
    FinallyIsTruthful(b, execution, journal, c.turnId, c.ending);
    GrowsTwice(p.trace, a.progress.trace, b.progress.trace, false, true);
    GrowsTwice(p.trace, b.progress.trace, Controlled(p, execution, journal, c).progress.trace, true, false);
  }

  // ---------------------------------------------------------------------------
  // The epilogue.

  ghost predicate RowsOnly(a: seq<Effect>, b: seq<Effect>) {
    a <= b && forall e :: e in b[|a|..] ==> e.Row?
  }

  lemma RowsOnlyKeeps(a: seq<Effect>, b: seq<Effect>, e: Effect)
    requires RowsOnly(a, b)
    ensures e in a ==> e in b
    ensures e in b && !e.Row? ==> e in a
  {
    Members(a, b[|a|..]);
    assert a + b[|a|..] == b;
  }

  lemma InternalAddsRows(p: Progress, journal: bool, c: Circumstances)
    ensures RowsOnly(p.trace, Internal(p, journal, c).trace)
    ensures Grows(p.trace, Internal(p, journal, c).trace, false)
    ensures p.error.Some? ==> Internal(p, journal, c).error == p.error
    ensures Internal(p, journal, c).error.None? ==> p.error.None?
    ensures Internal(p, journal, c).error == p.error || Internal(p, journal, c).error == Some(JournalLost)
  {
    RowEffectsAreRows(c.internal);
    assert p.trace + [] == p.trace;
  }

  lemma AlsoAddsRow(p: Progress, journal: bool, append: Append, r: Record)
    ensures var q := Also(p, journal, append, r);
            && RowsOnly(p.trace, q.trace)
            && (q.error.None? ==> p.error.None?)
            && (p.error.Some? ==> q.error == p.error)
            && (forall e :: e in q.trace ==> e in p.trace || e == Row(r))
  {
    assert p.trace + [] == p.trace;
  }

  lemma RowsOnlyTwice(a: seq<Effect>, b: seq<Effect>, c: seq<Effect>)
    requires RowsOnly(a, b) && RowsOnly(b, c)
    ensures RowsOnly(a, c)
  {
    forall e | e in c[|a|..] ensures e.Row? {
      var i :| |a| <= i < |c| && c[i] == e;
      if i < |b| { assert b[|a|..][i - |a|] == e; } else { assert c[|b|..][i - |b|] == e; }
    }
  }

  lemma DeadlineRows(p: Progress, execution: string, journal: bool, c: Circumstances)
    ensures var q := NotedDeadline(p, execution, journal, c);
            && RowsOnly(p.trace, q.trace) && q.error == p.error
            && (forall e :: e in q.trace && e.Row? && ExecutionEntry(e.r).Some? ==> e in p.trace)
  {
    AlsoAddsRow(p, journal, c.incidentRow, Incident(Some(execution), "cancellation_timeout", "process group reaped"));
    assert p.trace + [] == p.trace;
  }

  /** The completion row says how the flow ended; an ambiguous one has none. */
  lemma RecordedRows(p: Progress, execution: string, journal: bool, end: ExecutionEnd, c: Circumstances)
    ensures var q := Recorded(p, execution, journal, end, c);
            && RowsOnly(p.trace, q.trace)
            && (q.error.None? ==> p.error.None?)
            && (p.error.Some? ==> q.error == p.error)
            && (forall e :: e in q.trace && e.Row? && ExecutionEntry(e.r).Some? ==>
                  e in p.trace || (p.error != Some(Ambiguous) && e == Row(ExecutionCompleted(execution, if p.error.None? then end else ExecutionEnd.Failed))))
  {
    if p.error == Some(Ambiguous) {
      AlsoAddsRow(p, journal, c.incidentRow, Incident(Some(execution), "delivery_ambiguous", "recovery required"));
    } else {
      var noted := NotedDeadline(p, execution, journal, c);
      var row := ExecutionCompleted(execution, if noted.error.None? then end else ExecutionEnd.Failed);
      DeadlineRows(p, execution, journal, c);
      AlsoAddsRow(noted, journal, c.endRow, row);
      RowsOnlyTwice(p.trace, noted.trace, Also(noted, journal, c.endRow, row).trace);
    }
  }

  /** Everything up to the acknowledgement. */
  function BeforeTold(r: Run, execution: string, journal: bool, c: Circumstances): Progress {
    Recorded(Internal(r.progress, journal, c), execution, journal, r.done.GetOr(ExecutionEnd.Failed), c)
  }

  lemma EpilogueShape(r: Run, execution: string, journal: bool, c: Circumstances)
    ensures var (before, after) := (BeforeTold(r, execution, journal, c), Epilogue(r, execution, journal, c));
            && RowsOnly(r.progress.trace, before.trace)
            && (before.error.None? ==> r.progress.error.None?)
            && (r.progress.error.Some? ==> before.error == r.progress.error)
            && (after.error.None? ==> before.error.None?)
            && after.trace == before.trace + (if r.asked then [Told(if after.error.None? then ToldInterrupted else ToldUnknown)] else [])
  {
    var internal := Internal(r.progress, journal, c);
    InternalAddsRows(r.progress, journal, c);
    RecordedRows(internal, execution, journal, r.done.GetOr(ExecutionEnd.Failed), c);
  }

  ghost predicate Reached(execution: string, journal: bool, c: Circumstances) {
    Also(START, journal, c.started, ExecutionStarted(execution)).error.None? && c.spawned
  }

  function AtStart(execution: string, journal: bool, c: Circumstances): Progress {
    Also(START, journal, c.started, ExecutionStarted(execution))
  }

  /** Cancellation truth. If the controller is told Interrupted, then no turn/start
      was ever attempted, or the interrupt was acknowledged and the end of the
      turn was read. */
  lemma InterruptedIsTrue(execution: string, journal: bool, c: Circumstances)
    requires Told(ToldInterrupted) in Execute(execution, journal, c).trace
    ensures TrulyInterrupted(Execute(execution, journal, c).trace)
  {
    var start := AtStart(execution, journal, c);
    if Reached(execution, journal, c) {
      var r := Controlled(start, execution, journal, c);
      var before := BeforeTold(r, execution, journal, c);
      ControlledIsTruthful(start, execution, journal, c);
      EpilogueShape(r, execution, journal, c);
      GrowsKeeps(start.trace, r.progress.trace, true, Told(ToldInterrupted));
      RowsOnlyKeeps(r.progress.trace, before.trace, Told(ToldInterrupted));
      TruthSurvives(r.progress.trace, before.trace, Execute(execution, journal, c).trace);
    }
  }

  lemma TruthSurvives(a: seq<Effect>, b: seq<Effect>, c: seq<Effect>)
    requires TrulyInterrupted(a) && RowsOnly(a, b) && (c == b || c == b + [Told(ToldInterrupted)])
    ensures TrulyInterrupted(c)
  {
    Members(b, [Told(ToldInterrupted)]);
    RowsOnlyKeeps(a, b, Attempt(TurnStart));
    RowsOnlyKeeps(a, b, Acked(TurnInterrupt));
    if Attempt(TurnStart) in a {
      var status :| Terminal(status) in a;
      RowsOnlyKeeps(a, b, Terminal(status));
      assert Terminal(status) in c;
    }
  }

  /** A durable completion row is true: Completed means that end was read, and
      Interrupted means what an interrupted acknowledgement means. */
  lemma CompletionIsTrue(execution: string, journal: bool, c: Circumstances, end: ExecutionEnd)
    requires Row(ExecutionCompleted(execution, end)) in Execute(execution, journal, c).trace
    ensures end == ExecutionEnd.Completed ==> Terminal("completed") in Execute(execution, journal, c).trace
    ensures end == ExecutionEnd.Interrupted ==> TrulyInterrupted(Execute(execution, journal, c).trace)
  {
    var start := AtStart(execution, journal, c);
    if Reached(execution, journal, c) {
      var r := Controlled(start, execution, journal, c);
      var before := BeforeTold(r, execution, journal, c);
      ControlledIsTruthful(start, execution, journal, c);
      EpilogueShape(r, execution, journal, c);
      RowIsTheEnd(start, execution, journal, c, end);
      if end != ExecutionEnd.Failed {
        var whole := Execute(execution, journal, c).trace;
        Members(before.trace, [Told(ToldInterrupted)]);
        Members(before.trace, [Told(ToldUnknown)]);
        RowsOnlyKeeps(r.progress.trace, before.trace, Terminal("completed"));
        if end == ExecutionEnd.Interrupted { TruthAnyway(r.progress.trace, before.trace, whole); }
      }
    }
  }

  lemma TruthAnyway(a: seq<Effect>, b: seq<Effect>, c: seq<Effect>)
    requires TrulyInterrupted(a) && RowsOnly(a, b) && (c == b || exists o :: c == b + [Told(o)])
    ensures TrulyInterrupted(c)
  {
    RowsOnlyKeeps(a, b, Attempt(TurnStart));
    RowsOnlyKeeps(a, b, Acked(TurnInterrupt));
    if Attempt(TurnStart) in a {
      var status :| Terminal(status) in a;
      RowsOnlyKeeps(a, b, Terminal(status));
      assert Terminal(status) in c;
    }
  }

  lemma RowIsTheEnd(start: Progress, execution: string, journal: bool, c: Circumstances, end: ExecutionEnd)
    requires start == AtStart(execution, journal, c) && Reached(execution, journal, c)
    requires Row(ExecutionCompleted(execution, end)) in Execute(execution, journal, c).trace
    ensures var r := Controlled(start, execution, journal, c);
            r.progress.error != Some(Ambiguous)
            && (end != ExecutionEnd.Failed ==> r.progress.error.None? && end == r.done.GetOr(ExecutionEnd.Failed))
  {
    var r := Controlled(start, execution, journal, c);
    var internal := Internal(r.progress, journal, c);
    var row := Row(ExecutionCompleted(execution, end));
    ControlledIsTruthful(start, execution, journal, c);
    EpilogueShape(r, execution, journal, c);
    InternalAddsRows(r.progress, journal, c);
    RecordedRows(internal, execution, journal, r.done.GetOr(ExecutionEnd.Failed), c);
    GrowsKeeps(start.trace, r.progress.trace, true, row);
    GrowsKeeps(r.progress.trace, internal.trace, false, row);
    assert row !in start.trace;
    assert row in BeforeTold(r, execution, journal, c).trace;
  }

  /** What the controller and the journal know after an ambiguous delivery. */
  ghost predicate LeftUnknown(execution: string, p: Progress, asked: bool) {
    && (forall end :: Row(ExecutionCompleted(execution, end)) !in p.trace)
    && Told(ToldInterrupted) !in p.trace
    && (asked ==> Told(ToldUnknown) in p.trace)
  }

  lemma AmbiguousIsUnknown(execution: string, journal: bool, c: Circumstances)
    requires Reached(execution, journal, c) && Controlled(AtStart(execution, journal, c), execution, journal, c).progress.error == Some(Ambiguous)
    ensures LeftUnknown(execution, Execute(execution, journal, c), Controlled(AtStart(execution, journal, c), execution, journal, c).asked)
  {
    var start := AtStart(execution, journal, c);
    var r := Controlled(start, execution, journal, c);
    var before, after := BeforeTold(r, execution, journal, c), Execute(execution, journal, c);
    ControlledIsTruthful(start, execution, journal, c);
    EpilogueShape(r, execution, journal, c);
    forall end ensures Row(ExecutionCompleted(execution, end)) !in after.trace {
      if Row(ExecutionCompleted(execution, end)) in after.trace { RowIsTheEnd(start, execution, journal, c, end); }
    }
    GrowsKeeps(start.trace, r.progress.trace, true, Told(ToldInterrupted));
    RowsOnlyKeeps(r.progress.trace, before.trace, Told(ToldInterrupted));
  }

  // ---------------------------------------------------------------------------
  // The same step by step.

  class Controller {
    const execution: string
    const journal: bool
    var seen: bool
    var asked: bool
    ghost var trace: seq<Effect>

    constructor (execution: string, journal: bool)
      ensures this.execution == execution && this.journal == journal && !seen && !asked && trace == []
    {
      this.execution, this.journal, seen, asked, trace := execution, journal, false, false, [];
    }

    ghost function With(error: Option<Error>): Progress
      reads this
    {
      Progress(trace, seen, error)
    }

    ghost function View(error: Option<Error>, done: Option<ExecutionEnd>): Run
      reads this
    {
      Run(With(error), asked, done)
    }

    method Note(a: Approvals)
      modifies this`seen, this`trace
      ensures With(None) == Saw(old(With(None)), a)
    {
      trace := trace + SeenEffects(a);
      if a.Seen? { seen := true; }
    }

    method CallServer(call: Call, rpc: Rpc, strict: bool) returns (error: Option<Error>)
      modifies this`seen, this`trace
      ensures With(error) == Called(old(With(None)), call, rpc, strict)
    {
      trace := trace + CallEffects(call, rpc);
      if rpc.Seen().Seen? { seen := true; }
      error := CallError(rpc.End(), seen);
      if strict { error := NonIdempotent(error); }
    }

    method Drop(call: Call, rpc: Rpc)
      modifies this`seen, this`trace
      ensures With(None) == Dropped(old(With(None)), call, rpc)
    {
      trace := trace + AttemptOf(call, rpc.Offered()) + SeenEffects(rpc.Seen());
      if rpc.Seen().Seen? { seen := true; }
    }

    method AppendJournal(append: Append, r: Record, first: Option<Error>) returns (error: Option<Error>)
      modifies this`trace
      ensures With(error) == Also(old(With(first)), journal, append, r)
    {
      error := first;
      if journal {
        trace := trace + Rows(append, r);
        if !append.Acknowledged? && first.None? { error := Some(JournalLost); }
      }
    }

    /** One select: the control channel is looked at first. */
    method Race(call: Call, s: Stage, strict: bool) returns (error: Option<Error>, done: Option<ExecutionEnd>)
      modifies this`seen, this`trace, this`asked
      ensures View(error, done) == Raced(old(View(None, None)), call, s, strict)
    {
      error, done := None, None;
      match s.signal {
        case Quiet =>
          error := CallServer(call, s.rpc, strict);
        case OwnerGone =>
          Drop(call, s.rpc);
          error := Some(DeadlineExceeded);
        case InterruptAsked =>
          Drop(call, s.rpc);
          asked := true;
          if strict && s.rpc.Marked() { error := Some(Ambiguous); } else { done := Some(ExecutionEnd.Interrupted); }
      }
    }

    method RunPrelude(c: Circumstances) returns (error: Option<Error>, done: Option<ExecutionEnd>)
      modifies this`seen, this`trace, this`asked
      ensures View(error, done) == Prelude(old(View(None, None)), execution, journal, c)
    {
      error, done := Race(Initialize, c.initialize, false);
      if error.Some? || done.Some? { return; }
      error, done := Race(AccountRead, c.account, false);
      if error.Some? || done.Some? { return; }
      error, done := Race(ModelList, c.models, false);
      if error.Some? || done.Some? { return; }
      error, done := Race(RateLimits, c.limits, false);
      if error.Some? || done.Some? { return; }
      error := AppendJournal(c.snapshotRow, RateLimitSnapshot(execution, c.snapshot), None);
    }

    method RunStart(c: Circumstances) returns (error: Option<Error>, done: Option<ExecutionEnd>)
      modifies this`seen, this`trace, this`asked
      ensures View(error, done) == Begun(old(View(None, None)), execution, journal, c)
    {
      error, done := Race(ThreadStart, c.thread, true);
      if error.Some? || done.Some? { return; }
      error, done := Race(TurnStart, c.turn, true);
      if error.Some? || done.Some? { return; }
      error := AppendJournal(c.turnRow, TurnStarted(execution, c.turnId), None);
    }

    method AwaitTurn(w: Wait) returns (error: Option<Error>)
      modifies this`seen, this`trace
      ensures With(error) == Awaited(old(With(None)), w)
    {
      trace := trace + SeenEffects(w.approvals) + if w.end.Completes? then [Terminal(w.end.status)] else [];
      if w.approvals.Seen? { seen := true; }
      error := NonIdempotent(WaitError(w.end, seen));
    }

    method InterruptTurn(e: InterruptEnd) returns (error: Option<Error>)
      modifies this`seen, this`trace
      ensures With(error) == SendInterrupt(old(With(None)), e)
    {
      match e {
        case Returned(rpc) =>
          error := CallServer(TurnInterrupt, rpc, true);
        case TimedOut(rpc) =>
          Drop(TurnInterrupt, rpc);
          error := Some(if rpc.Marked() then Ambiguous else DeadlineExceeded);
      }
    }

    method AwaitEnd(l: Limited) returns (error: Option<Error>)
      modifies this`seen, this`trace
      ensures With(error) == AwaitTerminal(old(With(None)), l)
    {
      match l {
        case InTime(wait) =>
          error := AwaitTurn(wait);
        case Late(approvals) =>
          Note(approvals);
          error := Some(DeadlineExceeded);
      }
    }

    /** The interrupt is sent, and only the turn's own end ends the wait. */
    method CancelTurn(turn: string, e: Ending) returns (error: Option<Error>, done: Option<ExecutionEnd>)
      requires e.Interrupting?
      modifies this`seen, this`trace, this`asked
      ensures View(error, done) == Finally(old(View(None, None)), execution, journal, turn, e)
    {
      asked, done := true, None;
      Note(e.before);
      error := InterruptTurn(e.interrupt);
      if error.Some? { return; }
      error := AwaitEnd(e.terminal);
      if error.Some? { return; }
      error := AppendJournal(e.row, TurnEnded(execution, turn, TurnInterrupted), None);
      if error.None? { done := Some(ExecutionEnd.Interrupted); }
    }

    method RunEnding(turn: string, e: Ending) returns (error: Option<Error>, done: Option<ExecutionEnd>)
      modifies this`seen, this`trace, this`asked
      ensures View(error, done) == Finally(old(View(None, None)), execution, journal, turn, e)
    {
      done := None;
      match e {
        case TurnEnds(wait, row) =>
          error := AwaitTurn(wait);
          if error.None? {
            error := AppendJournal(row, TurnEnded(execution, turn, TurnEndOf(StatusOf(wait))), None);
          }
          if error.None? { done := Some(EndOf(StatusOf(wait))); }
        case OwnerGoes(before) =>
          Note(before);
          error := Some(DeadlineExceeded);
        case DeadlinePasses(before) =>
          Note(before);
          error := Some(DeadlineExceeded);
        case Interrupting(_, _, _, _) =>
          error, done := CancelTurn(turn, e);
      }
    }

    method RunControlledFlow(c: Circumstances) returns (error: Option<Error>, done: Option<ExecutionEnd>)
      requires !asked
      modifies this`seen, this`trace, this`asked
      ensures View(error, done) == Controlled(old(With(None)), execution, journal, c)
    {
      error, done := RunPrelude(c);
      if error.Some? || done.Some? { return; }
      error, done := RunStart(c);
      if error.Some? || done.Some? { return; }
      error, done := RunEnding(c.turnId, c.ending);
    }

    method Record(c: Circumstances, first: Option<Error>, end: ExecutionEnd) returns (error: Option<Error>)
      modifies this`trace
      ensures With(error) == Recorded(old(With(first)), execution, journal, end, c)
    {
      error := first;
      if error == Some(Ambiguous) {
        error := AppendJournal(c.incidentRow, Incident(Some(execution), "delivery_ambiguous", "recovery required"), error);
        return;
      }
      if error == Some(DeadlineExceeded) {
        error := AppendJournal(c.incidentRow, Incident(Some(execution), "cancellation_timeout", "process group reaped"), error);
      }
      error := AppendJournal(c.endRow, ExecutionCompleted(execution, if error.None? then end else ExecutionEnd.Failed), error);
    }

    method Conclude(c: Circumstances, first: Option<Error>, done: Option<ExecutionEnd>) returns (error: Option<Error>)
      modifies this`trace
      ensures With(error) == Epilogue(old(View(first, done)), execution, journal, c)
    {
      error := first;
      if journal && seen {
        trace := trace + RowEffects(c.internal);
        error := Retain(error, c.internalOk, JournalLost);
      }
      error := Record(c, error, done.GetOr(ExecutionEnd.Failed));
      error := Retain(error, c.shutdownOk, CleanupFailed);
      error := Retain(error, c.cleanupOk, CleanupFailed);
      error := Retain(error, c.journalOk, JournalLost);
      if asked { trace := trace + [Told(if error.None? then ToldInterrupted else ToldUnknown)]; }
    }

    method RunTurn(c: Circumstances) returns (error: Option<Error>)
      requires !asked && !seen && trace == []
      modifies this
      ensures With(error) == Execute(execution, journal, c)
    {
      error := AppendJournal(c.started, ExecutionStarted(execution), None);
      if error.Some? { return; }
      if !c.spawned {
        error := AppendJournal(c.endRow, ExecutionCompleted(execution, ExecutionEnd.Failed), None);
        return Some(if error.Some? then JournalLost else SpawnFailed);
      }
      var done;
      error, done := RunControlledFlow(c);
      error := Conclude(c, error, done);
    }
  }
}
