/** How a controlled execution ends, said of its circumstances alone
    (src/orchestrator.rs run_controlled_flow,
    run_turn_with_launcher_controlled_with_journal): which end the flow returns
    with, what the controller is told, and which rows are written. */
module ControlEnds {
  import opened Text
  import opened Journal
  import opened Flow
  import opened Control
  import opened Ambiguity
  import Restart

  // ---------------------------------------------------------------------------
  // The guards.

  predicate AsksAt(s: Stage) {
    s.signal.InterruptAsked?
  }

  predicate Pass1(c: Circumstances) { Passes(c.initialize) }
  predicate Pass2(c: Circumstances) { Pass1(c) && Passes(c.account) }
  predicate Pass3(c: Circumstances) { Pass2(c) && Passes(c.models) }
  predicate Pass4(c: Circumstances) { Pass3(c) && Passes(c.limits) }

  /** An interrupt comes before anything irreversible is marked. */
  predicate InterruptedEarly(c: Circumstances, journal: bool) {
    || AsksAt(c.initialize) || (Pass1(c) && AsksAt(c.account)) || (Pass2(c) && AsksAt(c.models)) || (Pass3(c) && AsksAt(c.limits))
    || (ReachesThread(c, journal) && AsksAt(c.thread) && !c.thread.rpc.Marked())
    || (ReachesTurn(c, journal) && AsksAt(c.turn) && !c.turn.rpc.Marked())
  }

  /** An interrupt comes at all. */
  predicate Asked(c: Circumstances, journal: bool) {
    || InterruptedEarly(c, journal)
    || (ReachesThread(c, journal) && AsksAt(c.thread)) || (ReachesTurn(c, journal) && AsksAt(c.turn))
    || (ReachesEnd(c, journal) && c.ending.Interrupting?)
  }

  predicate SeenAtEnd(e: Ending) {
    match e
    case TurnEnds(wait, _) => wait.approvals.Seen?
    case OwnerGoes(before) => before.Seen?
    case DeadlinePasses(before) => before.Seen?
    case Interrupting(before, interrupt, terminal, _) =>
      before.Seen? || interrupt.rpc.Seen().Seen?
      || (interrupt.Returned? && interrupt.rpc.End().Answered?
          && if terminal.InTime? then terminal.wait.approvals.Seen? else terminal.approvals.Seen?)
  }

  /** An approval is seen in any stage the flow gets to. */
  predicate SeenEver(c: Circumstances, journal: bool) {
    || SeenIn(c.initialize) || (Pass1(c) && SeenIn(c.account)) || (Pass2(c) && SeenIn(c.models)) || (Pass3(c) && SeenIn(c.limits))
    || (ReachesThread(c, journal) && SeenIn(c.thread)) || (ReachesTurn(c, journal) && SeenIn(c.turn))
    || (ReachesEnd(c, journal) && SeenAtEnd(c.ending))
  }

  /** The last stage ends the flow this way. */
  predicate EndingIs(e: Ending, journal: bool, end: ExecutionEnd) {
    match e
    case TurnEnds(wait, row) =>
      wait.end.Completes? && Appended(journal, row)
      && end == if wait.end.status == "completed" then ExecutionEnd.Completed else ExecutionEnd.Failed
    case Interrupting(_, Returned(rpc), InTime(wait), row) =>
      rpc.End().Answered? && wait.end.Completes? && Appended(journal, row) && end == ExecutionEnd.Interrupted
    case _ => false
  }

  predicate FlowEnds(c: Circumstances, journal: bool, end: ExecutionEnd) {
    (end.Interrupted? && InterruptedEarly(c, journal)) || (ReachesEnd(c, journal) && EndingIs(c.ending, journal, end))
  }

  /** The approval rows kept till the end are appended, if there are any. */
  predicate InternalFine(c: Circumstances, journal: bool) {
    journal && SeenEver(c, journal) ==> c.internalOk
  }

  predicate ClosesFine(c: Circumstances, journal: bool) {
    InternalFine(c, journal) && Appended(journal, c.endRow) && c.shutdownOk && c.cleanupOk && c.journalOk
  }

  // ---------------------------------------------------------------------------
  // Step by step.

  /** Where a run is: going on; having seen an approval; ended as interrupted;
      asked to stop. */
  ghost predicate Is(r: Run, going: bool, seen: bool, interrupted: bool, asked: bool) {
    && (Going(r) <==> going) && r.progress.seen == seen && r.asked == asked
    && (interrupted <==> r.done == Some(ExecutionEnd.Interrupted))
    && (r.done.Some? ==> r.progress.error.None? && interrupted)
  }

  lemma RacedIs(r: Run, call: Call, s: Stage, strict: bool, going: bool, seen: bool, interrupted: bool, asked: bool)
    requires Is(r, going, seen, interrupted, asked)
    ensures Is(Raced(r, call, s, strict), going && Passes(s), seen || (going && SeenIn(s)),
               interrupted || (going && AsksAt(s) && !(strict && s.rpc.Marked())), asked || (going && AsksAt(s)))
  {
  }

  lemma NotedIs(r: Run, journal: bool, append: Append, row: Record, going: bool, seen: bool, interrupted: bool, asked: bool)
    requires Is(r, going, seen, interrupted, asked)
    ensures Is(NotedIn(r, journal, append, row), going && Appended(journal, append), seen, interrupted, asked)
  {
  }

  predicate EarlyCall(c: Circumstances) {
    AsksAt(c.initialize) || (Pass1(c) && AsksAt(c.account)) || (Pass2(c) && AsksAt(c.models)) || (Pass3(c) && AsksAt(c.limits))
  }

  predicate SeenInCall(c: Circumstances) {
    SeenIn(c.initialize) || (Pass1(c) && SeenIn(c.account)) || (Pass2(c) && SeenIn(c.models)) || (Pass3(c) && SeenIn(c.limits))
  }

  lemma PreludeIs(execution: string, journal: bool, c: Circumstances, p: Progress)
    requires p.error.None? && !p.seen
    ensures Is(Prelude(Begin(p), execution, journal, c), ReachesThread(c, journal), SeenInCall(c), EarlyCall(c), EarlyCall(c))
  {
    var a := Raced(Begin(p), Initialize, c.initialize, false);
    var b := Raced(a, AccountRead, c.account, false);
    var d := Raced(b, ModelList, c.models, false);
    var e := Raced(d, RateLimits, c.limits, false);
    var e1, e2 := AsksAt(c.initialize), AsksAt(c.initialize) || (Pass1(c) && AsksAt(c.account));
    var e3 := e2 || (Pass2(c) && AsksAt(c.models));
    var s1, s2 := SeenIn(c.initialize), SeenIn(c.initialize) || (Pass1(c) && SeenIn(c.account));
    var s3 := s2 || (Pass2(c) && SeenIn(c.models));
    RacedIs(Begin(p), Initialize, c.initialize, false, true, false, false, false);
    RacedIs(a, AccountRead, c.account, false, Pass1(c), s1, e1, e1);
    RacedIs(b, ModelList, c.models, false, Pass2(c), s2, e2, e2);
    RacedIs(d, RateLimits, c.limits, false, Pass3(c), s3, e3, e3);
    NotedIs(e, journal, c.snapshotRow, RateLimitSnapshot(execution, c.snapshot), Pass4(c), SeenInCall(c), EarlyCall(c), EarlyCall(c));
  }

  lemma BegunIs(execution: string, journal: bool, c: Circumstances, r: Run)
    requires Is(r, ReachesThread(c, journal), SeenInCall(c), EarlyCall(c), EarlyCall(c))
    ensures Is(Begun(r, execution, journal, c), ReachesEnd(c, journal),
               SeenInCall(c) || (ReachesThread(c, journal) && SeenIn(c.thread)) || (ReachesTurn(c, journal) && SeenIn(c.turn)),
               InterruptedEarly(c, journal),
               EarlyCall(c) || (ReachesThread(c, journal) && AsksAt(c.thread)) || (ReachesTurn(c, journal) && AsksAt(c.turn)))
  {
    var a := Raced(r, ThreadStart, c.thread, true);
    var b := Raced(a, TurnStart, c.turn, true);
    var thread, turn := ReachesThread(c, journal), ReachesTurn(c, journal);
    var i1 := EarlyCall(c) || (thread && AsksAt(c.thread) && !c.thread.rpc.Marked());
    RacedIs(r, ThreadStart, c.thread, true, thread, SeenInCall(c), EarlyCall(c), EarlyCall(c));
    RacedIs(a, TurnStart, c.turn, true, turn, SeenInCall(c) || (thread && SeenIn(c.thread)), i1, EarlyCall(c) || (thread && AsksAt(c.thread)));
    NotedIs(b, journal, c.turnRow, TurnStarted(execution, c.turnId), turn && Passes(c.turn),
            SeenInCall(c) || (thread && SeenIn(c.thread)) || (turn && SeenIn(c.turn)),
            i1 || (turn && AsksAt(c.turn) && !c.turn.rpc.Marked()),
            EarlyCall(c) || (thread && AsksAt(c.thread)) || (turn && AsksAt(c.turn)));
  }

  lemma AwaitedIs(p: Progress, w: Wait)
    requires p.error.None?
    ensures Awaited(p, w).error.None? <==> w.end.Completes?
    ensures Awaited(p, w).seen == (p.seen || w.approvals.Seen?)
  {
  }

  lemma InterruptIs(p: Progress, interrupt: InterruptEnd, terminal: Limited)
    requires p.error.None?
    ensures var q := AwaitTerminal(SendInterrupt(p, interrupt), terminal);
            && (q.error.None? <==> interrupt.Returned? && interrupt.rpc.End().Answered? && terminal.InTime? && terminal.wait.end.Completes?)
            && q.seen == (p.seen || SeenAtEnd(Interrupting(NoneSeen, interrupt, terminal, Acknowledged)))
  {
    var s := SendInterrupt(p, interrupt);
    assert s.error.None? <==> interrupt.Returned? && interrupt.rpc.End().Answered?;
    assert s.seen == (p.seen || interrupt.rpc.Seen().Seen?);
    if s.error.None? && terminal.InTime? { AwaitedIs(s, terminal.wait); }
  }

  lemma NotedEnd(p: Progress, journal: bool, append: Append, row: Record)
    ensures Noted(p, journal, append, row).error.None? <==> p.error.None? && Appended(journal, append)
    ensures Noted(p, journal, append, row).seen == p.seen
  {
  }

  lemma FinallyIs(r: Run, execution: string, journal: bool, turn: string, e: Ending, seen: bool, asked: bool, end: ExecutionEnd)
    requires Is(r, true, seen, false, asked)
    ensures var next := Finally(r, execution, journal, turn, e);
            && (next.done == Some(end) <==> EndingIs(e, journal, end))
            && (next.progress.error.None? <==> next.done.Some?)
            && next.progress.seen == (seen || SeenAtEnd(e))
            && next.asked == (asked || e.Interrupting?)
  {
    match e
    case TurnEnds(wait, row) =>
      AwaitedIs(r.progress, wait);
      NotedEnd(Awaited(r.progress, wait), journal, row, TurnEnded(execution, turn, TurnEndOf(StatusOf(wait))));
    case Interrupting(before, interrupt, terminal, row) =>
      InterruptIs(Saw(r.progress, before), interrupt, terminal);
      NotedEnd(AwaitTerminal(SendInterrupt(Saw(r.progress, before), interrupt), terminal), journal, row, TurnEnded(execution, turn, TurnInterrupted));
    case _ =>
  }

  /** The flow returns with an end exactly in these circumstances, and otherwise
      with an error. */
  lemma FlowExactly(execution: string, journal: bool, c: Circumstances, end: ExecutionEnd)
    requires Reached(execution, journal, c)
    ensures var r := Controlled(AtStart(execution, journal, c), execution, journal, c);
            && (r.done == Some(end) <==> FlowEnds(c, journal, end))
            && (r.progress.error.None? <==> r.done.Some?)
            && r.progress.seen == SeenEver(c, journal) && r.asked == Asked(c, journal)
  {
    var a := Prelude(Begin(AtStart(execution, journal, c)), execution, journal, c);
    var b := Begun(a, execution, journal, c);
    PreludeIs(execution, journal, c, AtStart(execution, journal, c));
    BegunIs(execution, journal, c, a);
    if ReachesEnd(c, journal) {
      FinallyIs(b, execution, journal, c.turnId, c.ending, b.progress.seen, b.asked, end);
      NoAskOnTheWay(c, journal);
    }
  }

  lemma NoAskOnTheWay(c: Circumstances, journal: bool)
    requires ReachesEnd(c, journal)
    ensures !InterruptedEarly(c, journal) && !AsksAt(c.thread) && !AsksAt(c.turn)
  {
  }

  // ---------------------------------------------------------------------------
  // What the controller is told.

  lemma EpilogueError(r: Run, execution: string, journal: bool, c: Circumstances)
    ensures Epilogue(r, execution, journal, c).error.None?
            <==> r.progress.error.None? && (journal && r.progress.seen ==> c.internalOk) && Appended(journal, c.endRow)
                 && c.shutdownOk && c.cleanupOk && c.journalOk
  {
  }

  /** A controlled execution succeeds exactly if its flow returned and its
      epilogue did everything. */
  lemma SucceedsExactly(execution: string, journal: bool, c: Circumstances)
    requires Reached(execution, journal, c)
    ensures Execute(execution, journal, c).error.None? <==> ClosesFine(c, journal) && exists end :: FlowEnds(c, journal, end)
  {
    var r := Controlled(AtStart(execution, journal, c), execution, journal, c);
    forall end ensures r.done == Some(end) <==> FlowEnds(c, journal, end) { FlowExactly(execution, journal, c, end); }
    FlowExactly(execution, journal, c, ExecutionEnd.Failed);
    EpilogueError(r, execution, journal, c);
  }

  lemma EndedByInterrupt(c: Circumstances, journal: bool)
    ensures FlowEnds(c, journal, ExecutionEnd.Interrupted) ==> Asked(c, journal)
    ensures Asked(c, journal) && (exists end :: FlowEnds(c, journal, end)) ==> FlowEnds(c, journal, ExecutionEnd.Interrupted)
  {
    if ReachesEnd(c, journal) { NoAskOnTheWay(c, journal); }
  }

  /** The controller is told Interrupted exactly if it asked, the flow returned as
      interrupted, and the epilogue did everything; told Unknown if it asked and
      not so; and told nothing if it did not ask. */
  lemma ToldExactly(execution: string, journal: bool, c: Circumstances)
    requires Reached(execution, journal, c)
    ensures Told(ToldInterrupted) in Execute(execution, journal, c).trace
            <==> FlowEnds(c, journal, ExecutionEnd.Interrupted) && ClosesFine(c, journal)
    ensures Told(ToldUnknown) in Execute(execution, journal, c).trace
            <==> Asked(c, journal) && !(FlowEnds(c, journal, ExecutionEnd.Interrupted) && ClosesFine(c, journal))
  {
    var start := AtStart(execution, journal, c);
    var r := Controlled(start, execution, journal, c);
    var before := BeforeTold(r, execution, journal, c);
    ControlledIsTruthful(start, execution, journal, c);
    EpilogueShape(r, execution, journal, c);
    SucceedsExactly(execution, journal, c);
    FlowExactly(execution, journal, c, ExecutionEnd.Interrupted);
    EndedByInterrupt(c, journal);
    NotToldBefore(start.trace, r.progress.trace, before.trace, ToldInterrupted);
    NotToldBefore(start.trace, r.progress.trace, before.trace, ToldUnknown);
  }

  lemma NotToldBefore(start: seq<Effect>, flow: seq<Effect>, before: seq<Effect>, o: ControlOutcome)
    requires Told(o) !in start && Grows(start, flow, true) && RowsOnly(flow, before)
    ensures Told(o) !in before
  {
    GrowsKeeps(start, flow, true, Told(o));
    RowsOnlyKeeps(flow, before, Told(o));
  }

  // ---------------------------------------------------------------------------
  // When a deadline is recorded.

  predicate OwnerLost(s: Stage) {
    s.signal.OwnerGone?
  }

  predicate EndsLate(e: Ending) {
    match e
    case TurnEnds(_, _) => false
    case OwnerGoes(_) => true
    case DeadlinePasses(_) => true
    case Interrupting(_, TimedOut(rpc), _, _) => !rpc.Marked()
    case Interrupting(_, Returned(rpc), terminal, _) => rpc.End().Answered? && terminal.Late?
  }

  /** The owner is gone, or the end of the turn or its interrupt takes too long. */
  predicate DeadlineHit(c: Circumstances, journal: bool) {
    || OwnerLost(c.initialize) || (Pass1(c) && OwnerLost(c.account)) || (Pass2(c) && OwnerLost(c.models)) || (Pass3(c) && OwnerLost(c.limits))
    || (ReachesThread(c, journal) && OwnerLost(c.thread)) || (ReachesTurn(c, journal) && OwnerLost(c.turn))
    || (ReachesEnd(c, journal) && EndsLate(c.ending))
  }

  ghost predicate Late(r: Run, going: bool, late: bool) {
    (Going(r) <==> going) && (r.progress.error == Some(DeadlineExceeded) <==> late)
  }

  lemma CalledIsNotLate(p: Progress, call: Call, rpc: Rpc, strict: bool)
    requires p.error.None?
    ensures var q := Called(p, call, rpc, strict); q.error != Some(DeadlineExceeded) && (q.error.None? <==> rpc.End().Answered?)
  {
  }

  lemma RacedLate(r: Run, call: Call, s: Stage, strict: bool, going: bool, late: bool)
    requires Late(r, going, late)
    ensures Late(Raced(r, call, s, strict), going && Passes(s), late || (going && OwnerLost(s)))
  {
    if Going(r) { CalledIsNotLate(r.progress, call, s.rpc, strict); }
  }

  lemma NotedLate(r: Run, journal: bool, append: Append, row: Record, going: bool, late: bool)
    requires Late(r, going, late)
    ensures Late(NotedIn(r, journal, append, row), going && Appended(journal, append), late)
  {
  }

  lemma PreludeLate(execution: string, journal: bool, c: Circumstances, p: Progress)
    requires p.error.None?
    ensures Late(Prelude(Begin(p), execution, journal, c), ReachesThread(c, journal),
                 OwnerLost(c.initialize) || (Pass1(c) && OwnerLost(c.account)) || (Pass2(c) && OwnerLost(c.models)) || (Pass3(c) && OwnerLost(c.limits)))
  {
    var a := Raced(Begin(p), Initialize, c.initialize, false);
    var b := Raced(a, AccountRead, c.account, false);
    var d := Raced(b, ModelList, c.models, false);
    var e := Raced(d, RateLimits, c.limits, false);
    var l1, l2 := OwnerLost(c.initialize), OwnerLost(c.initialize) || (Pass1(c) && OwnerLost(c.account));
    var l3 := l2 || (Pass2(c) && OwnerLost(c.models));
    RacedLate(Begin(p), Initialize, c.initialize, false, true, false);
    RacedLate(a, AccountRead, c.account, false, Pass1(c), l1);
    RacedLate(b, ModelList, c.models, false, Pass2(c), l2);
    RacedLate(d, RateLimits, c.limits, false, Pass3(c), l3);
    NotedLate(e, journal, c.snapshotRow, RateLimitSnapshot(execution, c.snapshot), Pass4(c), l3 || (Pass3(c) && OwnerLost(c.limits)));
  }

  lemma AwaitedIsNotLate(p: Progress, w: Wait)
    requires p.error.None?
    ensures Awaited(p, w).error != Some(DeadlineExceeded)
  {
  }

  lemma NotedKeepsLate(p: Progress, journal: bool, append: Append, row: Record)
    ensures Noted(p, journal, append, row).error == Some(DeadlineExceeded) <==> p.error == Some(DeadlineExceeded)
  {
  }

  lemma InterruptLate(p: Progress, interrupt: InterruptEnd, terminal: Limited)
    requires p.error.None?
    ensures AwaitTerminal(SendInterrupt(p, interrupt), terminal).error == Some(DeadlineExceeded)
            <==> EndsLate(Interrupting(NoneSeen, interrupt, terminal, Acknowledged))
  {
    var s := SendInterrupt(p, interrupt);
    if interrupt.Returned? { CalledIsNotLate(p, TurnInterrupt, interrupt.rpc, true); }
    if s.error.None? && terminal.InTime? { AwaitedIsNotLate(s, terminal.wait); }
  }

  lemma FinallyLate(r: Run, execution: string, journal: bool, turn: string, e: Ending, going: bool, late: bool)
    requires Late(r, going, late)
    ensures Finally(r, execution, journal, turn, e).progress.error == Some(DeadlineExceeded) <==> late || (going && EndsLate(e))
  {
    if Going(r) {
      match e
      case TurnEnds(wait, row) =>
        AwaitedIsNotLate(r.progress, wait);
        NotedKeepsLate(Awaited(r.progress, wait), journal, row, TurnEnded(execution, turn, TurnEndOf(StatusOf(wait))));
      case Interrupting(before, interrupt, terminal, row) =>
        InterruptLate(Saw(r.progress, before), interrupt, terminal);
        NotedKeepsLate(AwaitTerminal(SendInterrupt(Saw(r.progress, before), interrupt), terminal), journal, row, TurnEnded(execution, turn, TurnInterrupted));
      case _ =>
    }
  }

  lemma DeadlineExactly(execution: string, journal: bool, c: Circumstances)
    requires Reached(execution, journal, c)
    ensures Controlled(AtStart(execution, journal, c), execution, journal, c).progress.error == Some(DeadlineExceeded) <==> DeadlineHit(c, journal)
  {
    var p := AtStart(execution, journal, c);
    var r := Prelude(Begin(p), execution, journal, c);
    var a := Raced(r, ThreadStart, c.thread, true);
    var b := Raced(a, TurnStart, c.turn, true);
    var l0 := OwnerLost(c.initialize) || (Pass1(c) && OwnerLost(c.account)) || (Pass2(c) && OwnerLost(c.models)) || (Pass3(c) && OwnerLost(c.limits));
    var l1 := l0 || (ReachesThread(c, journal) && OwnerLost(c.thread));
    var l2 := l1 || (ReachesTurn(c, journal) && OwnerLost(c.turn));
    PreludeLate(execution, journal, c, p);
    RacedLate(r, ThreadStart, c.thread, true, ReachesThread(c, journal), l0);
    RacedLate(a, TurnStart, c.turn, true, ReachesTurn(c, journal), l1);
    NotedLate(b, journal, c.turnRow, TurnStarted(execution, c.turnId), ReachesTurn(c, journal) && Passes(c.turn), l2);
    FinallyLate(Begun(r, execution, journal, c), execution, journal, c.turnId, c.ending, ReachesEnd(c, journal), l2);
  }

  // ---------------------------------------------------------------------------
  // Which rows are written.

  /** The row a turn leaves when its end is read. */
  predicate EndsTurn(execution: string, c: Circumstances, r: Record) {
    match c.ending
    case TurnEnds(wait, row) =>
      wait.end.Completes? && !row.Lost? && r == TurnEnded(execution, c.turnId, if wait.end.status == "completed" then TurnCompleted else TurnFailed)
    case Interrupting(_, Returned(rpc), InTime(wait), row) =>
      rpc.End().Answered? && wait.end.Completes? && !row.Lost? && r == TurnEnded(execution, c.turnId, TurnInterrupted)
    case _ => false
  }

  /** The rows of the flow, other than those of approvals. */
  predicate FlowWrites(execution: string, c: Circumstances, r: Record) {
    || (r == RateLimitSnapshot(execution, c.snapshot) && Pass4(c) && !c.snapshotRow.Lost?)
    || (r == TurnStarted(execution, c.turnId) && ReachesTurn(c, true) && Passes(c.turn) && !c.turnRow.Lost?)
    || (ReachesEnd(c, true) && EndsTurn(execution, c, r))
  }

  lemma DroppedRows(p: Progress, call: Call, rpc: Rpc, r: Record)
    requires Restart.OtherRow(r)
    ensures Row(r) in Dropped(p, call, rpc).trace <==> Row(r) in p.trace
  {
    SeenEffectsAreApprovals(rpc.Seen());
    Members(p.trace, AttemptOf(call, rpc.Offered()));
    Members(p.trace + AttemptOf(call, rpc.Offered()), SeenEffects(rpc.Seen()));
  }

  lemma SawRows(p: Progress, a: Approvals, r: Record)
    requires Restart.OtherRow(r)
    ensures Row(r) in Saw(p, a).trace <==> Row(r) in p.trace
  {
    SeenEffectsAreApprovals(a);
    Members(p.trace, SeenEffects(a));
  }

  lemma RacedRows(r: Run, call: Call, s: Stage, strict: bool, row: Record)
    requires Restart.OtherRow(row)
    ensures Row(row) in Raced(r, call, s, strict).progress.trace <==> Row(row) in r.progress.trace
  {
    Restart.CalledRows(r.progress, call, s.rpc, strict, row);
    DroppedRows(r.progress, call, s.rpc, row);
  }

  lemma NotedInRows(r: Run, append: Append, row: Record, other: Record)
    ensures Row(other) in NotedIn(r, true, append, row).progress.trace
            <==> Row(other) in r.progress.trace || (Going(r) && !append.Lost? && other == row)
  {
    Restart.AlsoRows(r.progress, true, append, row, other);
  }

  lemma PreludeRows(execution: string, c: Circumstances, p: Progress, row: Record)
    requires p.error.None? && !p.seen && Restart.OtherRow(row)
    ensures Row(row) in Prelude(Begin(p), execution, true, c).progress.trace
            <==> Row(row) in p.trace || (row == RateLimitSnapshot(execution, c.snapshot) && Pass4(c) && !c.snapshotRow.Lost?)
  {
    var a := Raced(Begin(p), Initialize, c.initialize, false);
    var b := Raced(a, AccountRead, c.account, false);
    var d := Raced(b, ModelList, c.models, false);
    var e := Raced(d, RateLimits, c.limits, false);
    RacedRows(Begin(p), Initialize, c.initialize, false, row);
    RacedRows(a, AccountRead, c.account, false, row);
    RacedRows(b, ModelList, c.models, false, row);
    RacedRows(d, RateLimits, c.limits, false, row);
    RacedLate(Begin(p), Initialize, c.initialize, false, true, false);
    RacedLate(a, AccountRead, c.account, false, Pass1(c), a.progress.error == Some(DeadlineExceeded));
    RacedLate(b, ModelList, c.models, false, Pass2(c), b.progress.error == Some(DeadlineExceeded));
    RacedLate(d, RateLimits, c.limits, false, Pass3(c), d.progress.error == Some(DeadlineExceeded));
    NotedInRows(e, c.snapshotRow, RateLimitSnapshot(execution, c.snapshot), row);
  }

  lemma BegunRows(execution: string, c: Circumstances, r: Run, row: Record)
    requires (Going(r) <==> ReachesThread(c, true)) && Restart.OtherRow(row)
    ensures Row(row) in Begun(r, execution, true, c).progress.trace
            <==> Row(row) in r.progress.trace
                 || (row == TurnStarted(execution, c.turnId) && ReachesTurn(c, true) && Passes(c.turn) && !c.turnRow.Lost?)
  {
    var a := Raced(r, ThreadStart, c.thread, true);
    var b := Raced(a, TurnStart, c.turn, true);
    RacedRows(r, ThreadStart, c.thread, true, row);
    RacedRows(a, TurnStart, c.turn, true, row);
    RacedLate(r, ThreadStart, c.thread, true, ReachesThread(c, true), r.progress.error == Some(DeadlineExceeded));
    RacedLate(a, TurnStart, c.turn, true, ReachesTurn(c, true), a.progress.error == Some(DeadlineExceeded));
    NotedInRows(b, c.turnRow, TurnStarted(execution, c.turnId), row);
  }

  lemma InterruptRows(p: Progress, interrupt: InterruptEnd, terminal: Limited, row: Record)
    requires p.error.None? && Restart.OtherRow(row)
    ensures Row(row) in AwaitTerminal(SendInterrupt(p, interrupt), terminal).trace <==> Row(row) in p.trace
  {
    var s := SendInterrupt(p, interrupt);
    if interrupt.Returned? {
      Restart.CalledRows(p, TurnInterrupt, interrupt.rpc, true, row);
    } else {
      DroppedRows(p, TurnInterrupt, interrupt.rpc, row);
    }
    match terminal
    case InTime(wait) => Restart.AwaitedRows(s, wait, row);
    case Late(approvals) => SawRows(s, approvals, row);
  }

  lemma NotedRows(p: Progress, append: Append, row: Record, other: Record)
    ensures Row(other) in Noted(p, true, append, row).trace <==> Row(other) in p.trace || (p.error.None? && !append.Lost? && other == row)
  {
    Restart.AlsoRows(p, true, append, row, other);
  }

  lemma FinallyRows(execution: string, c: Circumstances, r: Run, row: Record)
    requires Going(r) && Restart.OtherRow(row)
    ensures Row(row) in Finally(r, execution, true, c.turnId, c.ending).progress.trace
            <==> Row(row) in r.progress.trace || EndsTurn(execution, c, row)
  {
    match c.ending
    case TurnEnds(wait, append) =>
      AwaitedIs(r.progress, wait);
      Restart.AwaitedRows(r.progress, wait, row);
      NotedRows(Awaited(r.progress, wait), append, TurnEnded(execution, c.turnId, TurnEndOf(StatusOf(wait))), row);
    case OwnerGoes(before) => SawRows(r.progress, before, row);
    case DeadlinePasses(before) => SawRows(r.progress, before, row);
    case Interrupting(before, interrupt, terminal, append) =>
      var p := Saw(r.progress, before);
      SawRows(r.progress, before, row);
      InterruptIs(p, interrupt, terminal);
      InterruptRows(p, interrupt, terminal, row);
      NotedRows(AwaitTerminal(SendInterrupt(p, interrupt), terminal), append, TurnEnded(execution, c.turnId, TurnInterrupted), row);
  }

  lemma FlowRows(execution: string, c: Circumstances, row: Record)
    requires Reached(execution, true, c) && Restart.OtherRow(row)
    ensures Row(row) in Controlled(AtStart(execution, true, c), execution, true, c).progress.trace
            <==> row == ExecutionStarted(execution) || FlowWrites(execution, c, row)
  {
    var p := AtStart(execution, true, c);
    var a := Prelude(Begin(p), execution, true, c);
    var b := Begun(a, execution, true, c);
    PreludeIs(execution, true, c, p);
    BegunIs(execution, true, c, a);
    PreludeRows(execution, c, p, row);
    BegunRows(execution, c, a, row);
    if ReachesEnd(c, true) { FinallyRows(execution, c, b, row); }
  }

  /** The end the completion row names. */
  predicate EndsAs(c: Circumstances, end: ExecutionEnd) {
    if InternalFine(c, true) && (exists e :: FlowEnds(c, true, e)) then FlowEnds(c, true, end) else end.Failed?
  }

  /** The rows of a controlled execution with a journal, other than those of
      approvals. */
  predicate Writes(execution: string, c: Circumstances, r: Record) {
    || r == ExecutionStarted(execution) || FlowWrites(execution, c, r)
    || (r == Incident(Some(execution), "delivery_ambiguous", "recovery required") && DeliveryUnclear(c, true) && !c.incidentRow.Lost?)
    || (r == Incident(Some(execution), "cancellation_timeout", "process group reaped") && DeadlineHit(c, true) && !c.incidentRow.Lost?)
    || (r.ExecutionCompleted? && r.execution == execution && EndsAs(c, r.status) && !DeliveryUnclear(c, true) && !c.endRow.Lost?)
  }

  lemma RecordedRowsAre(p: Progress, execution: string, end: ExecutionEnd, c: Circumstances, r: Record)
    ensures Row(r) in Recorded(p, execution, true, end, c).trace <==>
                 || Row(r) in p.trace
                 || (r == Incident(Some(execution), "delivery_ambiguous", "recovery required") && p.error == Some(Ambiguous) && !c.incidentRow.Lost?)
                 || (r == Incident(Some(execution), "cancellation_timeout", "process group reaped") && p.error == Some(DeadlineExceeded) && !c.incidentRow.Lost?)
                 || (r == ExecutionCompleted(execution, if p.error.None? then end else ExecutionEnd.Failed) && p.error != Some(Ambiguous) && !c.endRow.Lost?)
  {
    if p.error == Some(Ambiguous) {
      Restart.AlsoRows(p, true, c.incidentRow, Incident(Some(execution), "delivery_ambiguous", "recovery required"), r);
    } else {
      var noted := NotedDeadline(p, execution, true, c);
      DeadlineRows(p, execution, true, c);
      Restart.AlsoRows(p, true, c.incidentRow, Incident(Some(execution), "cancellation_timeout", "process group reaped"), r);
      Restart.AlsoRows(noted, true, c.endRow, ExecutionCompleted(execution, if noted.error.None? then end else ExecutionEnd.Failed), r);
    }
  }

  lemma InternalRows(p: Progress, c: Circumstances, r: Record)
    requires Restart.OtherRow(r)
    ensures Row(r) in Internal(p, true, c).trace <==> Row(r) in p.trace
    ensures Internal(p, true, c).error == if p.error.None? && p.seen && !c.internalOk then Some(JournalLost) else p.error
  {
    RowEffectsAreRows(c.internal);
    Members(p.trace, RowEffects(c.internal));
  }

  /** A controlled execution writes exactly these rows. */
  lemma RowsExactly(execution: string, c: Circumstances, r: Record)
    requires Reached(execution, true, c) && Restart.OtherRow(r)
    ensures Row(r) in Execute(execution, true, c).trace <==> Writes(execution, c, r)
  {
    var run := Controlled(AtStart(execution, true, c), execution, true, c);
    var internal := Internal(run.progress, true, c);
    var end := run.done.GetOr(ExecutionEnd.Failed);
    FlowRows(execution, c, r);
    forall e ensures run.done == Some(e) <==> FlowEnds(c, true, e) { FlowExactly(execution, true, c, e); }
    FlowExactly(execution, true, c, ExecutionEnd.Failed);
    DeadlineExactly(execution, true, c);
    AmbiguousExactly(execution, true, c);
    InternalRows(run.progress, c, r);
    RecordedRowsAre(internal, execution, end, c, r);
    EpilogueShape(run, execution, true, c);
    Members(BeforeTold(run, execution, true, c).trace, [Told(ToldInterrupted)]);
    Members(BeforeTold(run, execution, true, c).trace, [Told(ToldUnknown)]);
  }
}
