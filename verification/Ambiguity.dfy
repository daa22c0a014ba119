/** What recovery finds of a controlled execution, said of its circumstances alone
    (src/orchestrator.rs run_controlled_flow,
    run_turn_with_launcher_controlled_with_journal; src/journal.rs
    project_recovery): exactly when a delivery counts as ambiguous, exactly when
    an outcome was never read, and exactly when such an execution is nevertheless
    recorded as Failed. */
module Ambiguity {
  import opened Text
  import opened Json
  import opened Journal
  import opened Writing
  import opened Flow
  import opened Control
  import Recovery

  // ---------------------------------------------------------------------------
  // How far the flow gets.

  predicate Passes(s: Stage) {
    s.signal.Quiet? && s.rpc.End().Answered?
  }

  predicate Appended(journal: bool, append: Append) {
    journal ==> append.Acknowledged?
  }

  predicate ReachesThread(c: Circumstances, journal: bool) {
    Passes(c.initialize) && Passes(c.account) && Passes(c.models) && Passes(c.limits) && Appended(journal, c.snapshotRow)
  }

  predicate ReachesTurn(c: Circumstances, journal: bool) {
    ReachesThread(c, journal) && Passes(c.thread)
  }

  predicate ReachesEnd(c: Circumstances, journal: bool) {
    ReachesTurn(c, journal) && Passes(c.turn) && Appended(journal, c.turnRow)
  }

  predicate SeenIn(s: Stage) {
    s.rpc.Seen().Seen?
  }

  /** An approval was seen before thread/start, before turn/start, before the end. */
  predicate SeenBeforeThread(c: Circumstances) {
    SeenIn(c.initialize) || SeenIn(c.account) || SeenIn(c.models) || SeenIn(c.limits)
  }

  predicate SeenBeforeTurn(c: Circumstances) {
    SeenBeforeThread(c) || SeenIn(c.thread)
  }

  predicate SeenBeforeEnd(c: Circumstances) {
    SeenBeforeTurn(c) || SeenIn(c.turn)
  }

  // ---------------------------------------------------------------------------
  // Which deliveries count as ambiguous.

  /** An error reply, or a broken transport; but not a desync after an approval. */
  predicate CallUnclear(end: CallEnd, seen: bool) {
    end.Rejected? || (end.Broken? && !(end.desync && seen))
  }

  predicate WaitUnclear(w: Wait, seen: bool) {
    w.end.WaitUnexpected? || (w.end.WaitBroken? && !(w.end.desync && (seen || w.approvals.Seen?)))
  }

  predicate StageUnclear(s: Stage, seen: bool) {
    match s.signal
    case Quiet => CallUnclear(s.rpc.End(), seen || SeenIn(s))
    case InterruptAsked => s.rpc.Marked()
    case OwnerGone => false
  }

  predicate EndingUnclear(e: Ending, seen: bool) {
    match e
    case TurnEnds(wait, _) => WaitUnclear(wait, seen)
    case Interrupting(before, TimedOut(rpc), _, _) => rpc.Marked()
    case Interrupting(before, Returned(rpc), terminal, _) =>
      var approved := seen || before.Seen? || rpc.Seen().Seen?;
      CallUnclear(rpc.End(), approved) || (rpc.End().Answered? && terminal.InTime? && WaitUnclear(terminal.wait, approved))
    case _ => false
  }

  predicate DeliveryUnclear(c: Circumstances, journal: bool) {
    || (ReachesThread(c, journal) && StageUnclear(c.thread, SeenBeforeThread(c)))
    || (ReachesTurn(c, journal) && StageUnclear(c.turn, SeenBeforeTurn(c)))
    || (ReachesEnd(c, journal) && EndingUnclear(c.ending, SeenBeforeEnd(c)))
  }

  /** Where a run is: still going with approvals seen or not, or over, ambiguous or not. */
  ghost predicate At(r: Run, reached: bool, seen: bool, unclear: bool) {
    && (Going(r) <==> reached)
    && (reached ==> r.progress.seen == seen)
    && (r.progress.error == Some(Ambiguous) <==> unclear)
  }

  lemma CalledAt(p: Progress, call: Call, rpc: Rpc, strict: bool)
    requires p.error.None?
    ensures var q := Called(p, call, rpc, strict);
            && (q.error.None? <==> rpc.End().Answered?)
            && q.seen == (p.seen || rpc.Seen().Seen?)
            && (q.error == Some(Ambiguous) <==> strict && CallUnclear(rpc.End(), q.seen))
  {
  }

  lemma AwaitedAt(p: Progress, w: Wait)
    requires p.error.None?
    ensures Awaited(p, w).error.None? <==> w.end.Completes?
    ensures Awaited(p, w).error == Some(Ambiguous) <==> WaitUnclear(w, p.seen)
  {
  }

  lemma RacedAt(r: Run, call: Call, s: Stage, strict: bool, reached: bool, seen: bool, unclear: bool)
    requires At(r, reached, seen, unclear)
    ensures At(Raced(r, call, s, strict), reached && Passes(s), seen || SeenIn(s), unclear || (reached && strict && StageUnclear(s, seen)))
  {
    if Going(r) { CalledAt(r.progress, call, s.rpc, strict); }
  }

  lemma NotedAt(r: Run, journal: bool, append: Append, row: Record, reached: bool, seen: bool, unclear: bool)
    requires At(r, reached, seen, unclear)
    ensures At(NotedIn(r, journal, append, row), reached && Appended(journal, append), seen, unclear)
  {
  }

  lemma PreludeAt(execution: string, journal: bool, c: Circumstances, p: Progress)
    requires p.error.None? && !p.seen
    ensures At(Prelude(Begin(p), execution, journal, c), ReachesThread(c, journal), SeenBeforeThread(c), false)
  {
    var a := Raced(Begin(p), Initialize, c.initialize, false);
    var b := Raced(a, AccountRead, c.account, false);
    var d := Raced(b, ModelList, c.models, false);
    var e := Raced(d, RateLimits, c.limits, false);
    var s1, s2, s3 := SeenIn(c.initialize), SeenIn(c.initialize) || SeenIn(c.account), SeenIn(c.initialize) || SeenIn(c.account) || SeenIn(c.models);
    RacedAt(Begin(p), Initialize, c.initialize, false, true, false, false);
    RacedAt(a, AccountRead, c.account, false, Passes(c.initialize), s1, false);
    RacedAt(b, ModelList, c.models, false, Passes(c.initialize) && Passes(c.account), s2, false);
    RacedAt(d, RateLimits, c.limits, false, Passes(c.initialize) && Passes(c.account) && Passes(c.models), s3, false);
    NotedAt(e, journal, c.snapshotRow, RateLimitSnapshot(execution, c.snapshot),
            Passes(c.initialize) && Passes(c.account) && Passes(c.models) && Passes(c.limits), SeenBeforeThread(c), false);
  }

  lemma BegunAt(execution: string, journal: bool, c: Circumstances, r: Run)
    requires At(r, ReachesThread(c, journal), SeenBeforeThread(c), false)
    ensures At(Begun(r, execution, journal, c), ReachesEnd(c, journal), SeenBeforeEnd(c),
               (ReachesThread(c, journal) && StageUnclear(c.thread, SeenBeforeThread(c)))
               || (ReachesTurn(c, journal) && StageUnclear(c.turn, SeenBeforeTurn(c))))
  {
    var a := Raced(r, ThreadStart, c.thread, true);
    var b := Raced(a, TurnStart, c.turn, true);
    var first := ReachesThread(c, journal) && StageUnclear(c.thread, SeenBeforeThread(c));
    var second := ReachesTurn(c, journal) && StageUnclear(c.turn, SeenBeforeTurn(c));
    RacedAt(r, ThreadStart, c.thread, true, ReachesThread(c, journal), SeenBeforeThread(c), false);
    RacedAt(a, TurnStart, c.turn, true, ReachesTurn(c, journal), SeenBeforeTurn(c), first);
    NotedAt(b, journal, c.turnRow, TurnStarted(execution, c.turnId), ReachesTurn(c, journal) && Passes(c.turn), SeenBeforeEnd(c), first || second);
  }

  lemma NotedKeeps(p: Progress, journal: bool, append: Append, row: Record)
    ensures Noted(p, journal, append, row).error == Some(Ambiguous) <==> p.error == Some(Ambiguous)
  {
  }

  lemma InterruptingAt(p: Progress, interrupt: InterruptEnd, terminal: Limited)
    requires p.error.None?
    ensures AwaitTerminal(SendInterrupt(p, interrupt), terminal).error == Some(Ambiguous)
       <==> EndingUnclear(Interrupting(NoneSeen, interrupt, terminal, Acknowledged), p.seen)
  {
    var q := SendInterrupt(p, interrupt);
    if interrupt.Returned? { CalledAt(p, TurnInterrupt, interrupt.rpc, true); }
    if q.error.None? && terminal.InTime? { AwaitedAt(q, terminal.wait); }
  }

  lemma FinallyAt(execution: string, journal: bool, turn: string, r: Run, e: Ending, reached: bool, seen: bool, unclear: bool)
    requires At(r, reached, seen, unclear)
    ensures Finally(r, execution, journal, turn, e).progress.error == Some(Ambiguous) <==> unclear || (reached && EndingUnclear(e, seen))
  {
    if Going(r) {
      match e
      case TurnEnds(wait, row) =>
        AwaitedAt(r.progress, wait);
        NotedKeeps(Awaited(r.progress, wait), journal, row, TurnEnded(execution, turn, TurnEndOf(StatusOf(wait))));
      case Interrupting(before, interrupt, terminal, row) =>
        InterruptingAt(Saw(r.progress, before), interrupt, terminal);
        NotedKeeps(AwaitTerminal(SendInterrupt(Saw(r.progress, before), interrupt), terminal), journal, row, TurnEnded(execution, turn, TurnInterrupted));
      case _ =>
    }
  }

  /** The flow ends as ambiguous exactly if thread/start or turn/start was marked
      when an interrupt came, or broke or was answered with an error; or the wait
      or the interrupt did so afterwards; except for a desync after an approval. */
  lemma AmbiguousExactly(execution: string, journal: bool, c: Circumstances)
    requires Reached(execution, journal, c)
    ensures Controlled(AtStart(execution, journal, c), execution, journal, c).progress.error == Some(Ambiguous) <==> DeliveryUnclear(c, journal)
  {
    var a := Prelude(Begin(AtStart(execution, journal, c)), execution, journal, c);
    PreludeAt(execution, journal, c, AtStart(execution, journal, c));
    BegunAt(execution, journal, c, a);
    FinallyAt(execution, journal, c.turnId, Begun(a, execution, journal, c), c.ending, ReachesEnd(c, journal), SeenBeforeEnd(c),
              (ReachesThread(c, journal) && StageUnclear(c.thread, SeenBeforeThread(c)))
              || (ReachesTurn(c, journal) && StageUnclear(c.turn, SeenBeforeTurn(c))));
  }

  // ---------------------------------------------------------------------------
  // What the journal says of the execution.

  /** The rows a trace left in the journal. */
  function LogOf(trace: seq<Effect>): seq<Record> {
    if trace == [] then []
    else
      match trace[|trace| - 1]
      case Row(r) => LogOf(trace[..|trace| - 1]) + [r]
      case _ => LogOf(trace[..|trace| - 1])
  }

  function EntryOf(e: Effect): Option<Entry<ExecutionState>> {
    if e.Row? then ExecutionEntry(e.r) else None
  }

  /** The last thing a trace says about an execution. */
  function LastEntry(trace: seq<Effect>): Option<Entry<ExecutionState>> {
    if trace == [] then None
    else if EntryOf(trace[|trace| - 1]).Some? then EntryOf(trace[|trace| - 1])
    else LastEntry(trace[..|trace| - 1])
  }

  lemma {:induction false} LastEntryOfBoth(a: seq<Effect>, b: seq<Effect>)
    ensures LastEntry(a + b) == if LastEntry(b).Some? then LastEntry(b) else LastEntry(a)
  {
    if b == [] {
      assert a + b == a;
    } else {
      assert (a + b)[..|a + b| - 1] == a + b[..|b| - 1];
      LastEntryOfBoth(a, b[..|b| - 1]);
    }
  }

  lemma {:induction false} NothingSaid(a: seq<Effect>, b: seq<Effect>)
    requires a <= b && forall e :: e in b[|a|..] ==> EntryOf(e).None?
    ensures LastEntry(b) == LastEntry(a)
  {
    if a != b {
      var init := b[..|b| - 1];
      assert b[|b| - 1] in b[|a|..];
      assert b[|a|..] == init[|a|..] + [b[|b| - 1]];
      NothingSaid(a, init);
    }
  }

  /** An execution is unresolved exactly if the last thing said about it is its
      start; otherwise it reads as the last thing said settles it. */
  lemma {:induction false} LastEntryDecides(before: seq<Record>, trace: seq<Effect>)
    requires LastEntry(trace).Some?
    ensures var e := LastEntry(trace).value; e.id in OpenIds(Executions(before + LogOf(trace))) <==> e.mark.Opens?
    ensures var e := LastEntry(trace).value; e.mark.Settles? ==> Settled(Executions(before + LogOf(trace)), e.id) == Some(e.mark.state)
    ensures LastEntry(trace).value.id in Mentioned(Executions(before + LogOf(trace)))
  {
    var init, last := trace[..|trace| - 1], trace[|trace| - 1];
    if EntryOf(last).None? { LastEntryDecides(before, init); }
    if last.Row? {
      var log := before + LogOf(init);
      assert before + LogOf(trace) == log + [last.r];
      if ExecutionEntry(last.r).Some? { AppendEntry(Executions(log), ExecutionEntry(last.r).value); }
    }
  }

  lemma FlowSaysNothing(execution: string, journal: bool, c: Circumstances)
    requires Reached(execution, journal, c)
    ensures var r := Controlled(AtStart(execution, journal, c), execution, journal, c);
            LastEntry(Internal(r.progress, journal, c).trace) == LastEntry(AtStart(execution, journal, c).trace)
  {
    var start := AtStart(execution, journal, c);
    var r := Controlled(start, execution, journal, c);
    ControlledIsTruthful(start, execution, journal, c);
    InternalAddsRows(r.progress, journal, c);
    NothingSaid(start.trace, r.progress.trace);
    NothingSaid(r.progress.trace, Internal(r.progress, journal, c).trace);
  }

  lemma AlsoSays(p: Progress, append: Append, r: Record)
    ensures LastEntry(Also(p, true, append, r).trace) == if append.Lost? || ExecutionEntry(r).None? then LastEntry(p.trace) else ExecutionEntry(r)
  {
    LastEntryOfBoth(p.trace, Rows(append, r));
    if !append.Lost? { assert LastEntry([Row(r)]) == if ExecutionEntry(r).Some? then ExecutionEntry(r) else LastEntry([Row(r)][..0]); }
  }

  lemma DeadlineSays(p: Progress, execution: string, c: Circumstances)
    ensures LastEntry(NotedDeadline(p, execution, true, c).trace) == LastEntry(p.trace)
  {
    AlsoSays(p, c.incidentRow, Incident(Some(execution), "cancellation_timeout", "process group reaped"));
  }

  lemma CompletionSays(p: Progress, execution: string, end: ExecutionEnd, append: Append)
    ensures var says := LastEntry(Also(p, true, append, ExecutionCompleted(execution, end)).trace);
            if append.Lost? then says == LastEntry(p.trace) else says == Some(Entry(execution, Settles(Ended(end))))
  {
    AlsoSays(p, append, ExecutionCompleted(execution, end));
  }

  lemma RecordedSays(p: Progress, execution: string, end: ExecutionEnd, c: Circumstances)
    ensures var says := LastEntry(Recorded(p, execution, true, end, c).trace);
            if p.error == Some(Ambiguous) || c.endRow.Lost? then says == LastEntry(p.trace)
            else says.Some? && says.value.id == execution && says.value.mark.Settles?
  {
    if p.error == Some(Ambiguous) {
      AlsoSays(p, c.incidentRow, Incident(Some(execution), "delivery_ambiguous", "recovery required"));
    } else {
      var noted := NotedDeadline(p, execution, true, c);
      DeadlineSays(p, execution, c);
      CompletionSays(noted, execution, if noted.error.None? then end else ExecutionEnd.Failed, c.endRow);
    }
  }

  lemma ExecutionSays(execution: string, c: Circumstances)
    requires Reached(execution, true, c)
    ensures var says := LastEntry(Execute(execution, true, c).trace);
            says.Some? && says.value.id == execution && (says.value.mark.Opens? <==> DeliveryUnclear(c, true) || c.endRow.Lost?)
  {
    var start := AtStart(execution, true, c);
    var r := Controlled(start, execution, true, c);
    var recorded := BeforeTold(r, execution, true, c);
    AmbiguousExactly(execution, true, c);
    FlowSaysNothing(execution, true, c);
    AlsoSays(START, c.started, ExecutionStarted(execution));
    InternalAddsRows(r.progress, true, c);
    RecordedSays(Internal(r.progress, true, c), execution, r.done.GetOr(ExecutionEnd.Failed), c);
    EpilogueShape(r, execution, true, c);
    NothingSaid(recorded.trace, Execute(execution, true, c).trace);
  }

  ghost predicate ReadsUnknown(log: seq<Record>, execution: string) {
    execution in Projected(log).executions && Projected(log).executions[execution] == UnknownAfterRestart
  }

  /** Whatever the journal held before, recovery lists the execution as unresolved
      exactly if a delivery was ambiguous or the completion row was lost; and once
      recovery has run an unresolved one reads UnknownAfterRestart. */
  lemma UnresolvedExactly(execution: string, c: Circumstances, before: seq<Record>)
    requires Reached(execution, true, c)
    ensures var log := before + LogOf(Execute(execution, true, c).trace);
            var unresolved := execution in Projected(log).unresolvedExecutions;
            && (unresolved <==> DeliveryUnclear(c, true) || c.endRow.Lost?)
            && (unresolved ==> ReadsUnknown(log + Recovery.Owed(log), execution))
  {
    var trace := Execute(execution, true, c).trace;
    var log := before + LogOf(trace);
    ExecutionSays(execution, c);
    LastEntryDecides(before, trace);
    Ordering.SortedLists(OpenIds(Executions(log)));
    Recovery.RecoveryIsComplete(log);
  }

  // ---------------------------------------------------------------------------
  // Which outcomes were never read.

  /** Offered to the server, and no answer read. */
  ghost predicate Unread(trace: seq<Effect>, call: Call) {
    Attempt(call) in trace && Acked(call) !in trace && Declined(call) !in trace
  }

  /** Something irreversible has an outcome nobody read: whether a thread or a turn
      was started, whether an interrupt was taken, or how a started turn ended. */
  ghost predicate OutcomeUnknown(trace: seq<Effect>) {
    || Unread(trace, ThreadStart) || Unread(trace, TurnStart) || Unread(trace, TurnInterrupt)
    || (Acked(TurnStart) in trace && !TerminalRead(trace))
  }

  predicate StageUnread(s: Stage) {
    s.rpc.Offered() && (!s.signal.Quiet? || s.rpc.End().Broken?)
  }

  /** The end of the turn is read. */
  predicate EndRead(e: Ending) {
    match e
    case TurnEnds(wait, _) => wait.end.Completes?
    case Interrupting(_, Returned(rpc), InTime(wait), _) => rpc.End().Answered? && wait.end.Completes?
    case _ => false
  }

  predicate OutcomeUnread(c: Circumstances, journal: bool) {
    || (ReachesThread(c, journal) && StageUnread(c.thread))
    || (ReachesTurn(c, journal) && StageUnread(c.turn))
    || (ReachesTurn(c, journal) && Passes(c.turn) && !(ReachesEnd(c, journal) && EndRead(c.ending)))
  }

  predicate Refused(s: Stage) {
    s.signal.Quiet? && (s.rpc.End().Rejected? || s.rpc.End().Refusing?)
  }

  predicate Loud(e: Effect) {
    !e.ApprovalSeen? && !e.Row?
  }

  ghost predicate Silent(more: seq<Effect>) {
    forall e :: e in more ==> !Loud(e)
  }

  /** What one stage adds about its call. */
  predicate StageTells(s: Stage, call: Call, e: Effect) {
    (s.rpc.Offered() && e == Attempt(call)) || (Passes(s) && e == Acked(call)) || (Refused(s) && e == Declined(call))
  }

  lemma SeenIsSilent(a: Approvals)
    ensures Silent(SeenEffects(a))
  {
    SeenEffectsAreApprovals(a);
  }

  lemma SilentKeeps(a: seq<Effect>, more: seq<Effect>)
    requires Silent(more)
    ensures forall e :: Loud(e) ==> (e in a + more <==> e in a)
  {
    Members(a, more);
  }

  lemma CallMarks(a: seq<Effect>, call: Call, rpc: Rpc, reply: seq<Effect>, e: Effect)
    requires Loud(e)
    ensures e in a + (AttemptOf(call, rpc.Offered()) + SeenEffects(rpc.Seen()) + reply)
            <==> e in a || (rpc.Offered() && e == Attempt(call)) || e in reply
  {
    var tried := AttemptOf(call, rpc.Offered());
    SeenIsSilent(rpc.Seen());
    SilentKeeps(tried, SeenEffects(rpc.Seen()));
    Members(tried + SeenEffects(rpc.Seen()), reply);
    Members(a, tried + SeenEffects(rpc.Seen()) + reply);
  }

  /** What a call that ran to its end adds about itself. */
  predicate CallTells(rpc: Rpc, call: Call, e: Effect) {
    (rpc.Offered() && e == Attempt(call)) || e in ReplyEffects(call, rpc.End())
  }

  lemma CalledMarks(p: Progress, call: Call, rpc: Rpc, strict: bool, e: Effect)
    requires p.error.None? && Loud(e)
    ensures e in Called(p, call, rpc, strict).trace <==> e in p.trace || CallTells(rpc, call, e)
  {
    CallMarks(p.trace, call, rpc, ReplyEffects(call, rpc.End()), e);
  }

  lemma DroppedMarks(p: Progress, call: Call, rpc: Rpc, e: Effect)
    requires Loud(e)
    ensures e in Dropped(p, call, rpc).trace <==> e in p.trace || (rpc.Offered() && e == Attempt(call))
  {
    Members(p.trace, AttemptOf(call, rpc.Offered()));
    SeenIsSilent(rpc.Seen());
    SilentKeeps(p.trace + AttemptOf(call, rpc.Offered()), SeenEffects(rpc.Seen()));
  }

  lemma StageTellsAsCall(s: Stage, call: Call, e: Effect)
    requires s.signal.Quiet?
    ensures StageTells(s, call, e) <==> CallTells(s.rpc, call, e)
  {
  }

  lemma RacedMarks(r: Run, call: Call, s: Stage, strict: bool, e: Effect)
    requires Loud(e)
    ensures e in Raced(r, call, s, strict).progress.trace <==> e in r.progress.trace || (Going(r) && StageTells(s, call, e))
  {
    if Going(r) {
      if s.signal.Quiet? {
        StageTellsAsCall(s, call, e);
        CalledMarks(r.progress, call, s.rpc, strict, e);
      } else {
        DroppedMarks(r.progress, call, s.rpc, e);
      }
    }
  }

  lemma NotedMarks(r: Run, journal: bool, append: Append, row: Record, e: Effect)
    requires Loud(e)
    ensures e in NotedIn(r, journal, append, row).progress.trace <==> e in r.progress.trace
  {
    SilentKeeps(r.progress.trace, Rows(append, row));
  }

  predicate Irreversible(call: Call) {
    call == ThreadStart || call == TurnStart || call == TurnInterrupt
  }

  predicate Tells(e: Effect) {
    match e
    case Attempt(call) => Irreversible(call)
    case Acked(call) => Irreversible(call)
    case Declined(call) => Irreversible(call)
    case Terminal(_) => true
    case _ => false
  }

  lemma PreludeMarks(execution: string, journal: bool, c: Circumstances, p: Progress, e: Effect)
    requires Tells(e)
    ensures e in Prelude(Begin(p), execution, journal, c).progress.trace <==> e in p.trace
  {
    var a := Raced(Begin(p), Initialize, c.initialize, false);
    var b := Raced(a, AccountRead, c.account, false);
    var d := Raced(b, ModelList, c.models, false);
    var f := Raced(d, RateLimits, c.limits, false);
    RacedMarks(Begin(p), Initialize, c.initialize, false, e);
    RacedMarks(a, AccountRead, c.account, false, e);
    RacedMarks(b, ModelList, c.models, false, e);
    RacedMarks(d, RateLimits, c.limits, false, e);
    NotedMarks(f, journal, c.snapshotRow, RateLimitSnapshot(execution, c.snapshot), e);
  }

  lemma BegunMarks(execution: string, journal: bool, c: Circumstances, r: Run, e: Effect)
    requires At(r, ReachesThread(c, journal), SeenBeforeThread(c), false) && Tells(e)
    ensures (e in Begun(r, execution, journal, c).progress.trace)
       <==> (e in r.progress.trace || (ReachesThread(c, journal) && StageTells(c.thread, ThreadStart, e)) || (ReachesTurn(c, journal) && StageTells(c.turn, TurnStart, e)))
  {
    var a := Raced(r, ThreadStart, c.thread, true);
    var b := Raced(a, TurnStart, c.turn, true);
    RacedAt(r, ThreadStart, c.thread, true, ReachesThread(c, journal), SeenBeforeThread(c), false);
    RacedMarks(r, ThreadStart, c.thread, true, e);
    RacedMarks(a, TurnStart, c.turn, true, e);
    NotedMarks(b, journal, c.turnRow, TurnStarted(execution, c.turnId), e);
  }

  lemma AwaitedMarks(p: Progress, w: Wait, e: Effect)
    requires Tells(e)
    ensures e in Awaited(p, w).trace <==> e in p.trace || (p.error.None? && w.end.Completes? && e == Terminal(w.end.status))
  {
    var terminal := if w.end.Completes? then [Terminal(w.end.status)] else [];
    SeenIsSilent(w.approvals);
    SilentKeeps(p.trace, SeenEffects(w.approvals));
    Members(p.trace + SeenEffects(w.approvals), terminal);
  }

  lemma SawMarks(p: Progress, a: Approvals, e: Effect)
    requires Loud(e)
    ensures e in Saw(p, a).trace <==> e in p.trace
  {
    SeenIsSilent(a);
    SilentKeeps(p.trace, SeenEffects(a));
  }

  /** What the last stage adds. */
  predicate EndTells(end: Ending, e: Effect) {
    match end
    case TurnEnds(wait, _) => wait.end.Completes? && e == Terminal(wait.end.status)
    case Interrupting(_, TimedOut(rpc), _, _) => rpc.Offered() && e == Attempt(TurnInterrupt)
    case Interrupting(_, Returned(rpc), terminal, _) =>
      CallTells(rpc, TurnInterrupt, e) || (rpc.End().Answered? && terminal.InTime? && terminal.wait.end.Completes? && e == Terminal(terminal.wait.end.status))
    case _ => false
  }

  lemma InterruptMarks(p: Progress, interrupt: InterruptEnd, terminal: Limited, e: Effect)
    requires p.error.None? && Tells(e)
    ensures e in AwaitTerminal(SendInterrupt(p, interrupt), terminal).trace
            <==> e in p.trace || EndTells(Interrupting(NoneSeen, interrupt, terminal, Acknowledged), e)
  {
    var q := SendInterrupt(p, interrupt);
    match interrupt
    case TimedOut(rpc) => DroppedMarks(p, TurnInterrupt, rpc, e);
    case Returned(rpc) =>
      CalledAt(p, TurnInterrupt, rpc, true);
      CalledMarks(p, TurnInterrupt, rpc, true, e);
      match terminal
      case InTime(wait) => AwaitedMarks(q, wait, e);
      case Late(approvals) => SawMarks(q, approvals, e);
  }

  lemma NotedSilent(p: Progress, journal: bool, append: Append, row: Record, e: Effect)
    requires Loud(e)
    ensures e in Noted(p, journal, append, row).trace <==> e in p.trace
  {
    SilentKeeps(p.trace, Rows(append, row));
  }

  lemma FinallyMarks(r: Run, execution: string, journal: bool, turn: string, end: Ending, e: Effect)
    requires Tells(e)
    ensures e in Finally(r, execution, journal, turn, end).progress.trace <==> e in r.progress.trace || (Going(r) && EndTells(end, e))
  {
    if Going(r) {
      match end
      case TurnEnds(wait, row) =>
        AwaitedMarks(r.progress, wait, e);
        NotedSilent(Awaited(r.progress, wait), journal, row, TurnEnded(execution, turn, TurnEndOf(StatusOf(wait))), e);
      case OwnerGoes(before) => SawMarks(r.progress, before, e);
      case DeadlinePasses(before) => SawMarks(r.progress, before, e);
      case Interrupting(before, interrupt, terminal, row) =>
        SawMarks(r.progress, before, e);
        InterruptMarks(Saw(r.progress, before), interrupt, terminal, e);
        NotedSilent(AwaitTerminal(SendInterrupt(Saw(r.progress, before), interrupt), terminal), journal, row, TurnEnded(execution, turn, TurnInterrupted), e);
    }
  }

  /** Everything a controlled execution can tell about irreversible calls and the
      end of the turn. */
  predicate Happened(c: Circumstances, journal: bool, e: Effect) {
    || (ReachesThread(c, journal) && StageTells(c.thread, ThreadStart, e))
    || (ReachesTurn(c, journal) && StageTells(c.turn, TurnStart, e))
    || (ReachesEnd(c, journal) && EndTells(c.ending, e))
  }

  lemma ControlledMarks(execution: string, journal: bool, c: Circumstances, e: Effect)
    requires Reached(execution, journal, c) && Tells(e)
    ensures e in Controlled(AtStart(execution, journal, c), execution, journal, c).progress.trace <==> Happened(c, journal, e)
  {
    var start := AtStart(execution, journal, c);
    var a := Prelude(Begin(start), execution, journal, c);
    PreludeAt(execution, journal, c, start);
    PreludeMarks(execution, journal, c, start, e);
    BegunAt(execution, journal, c, a);
    BegunMarks(execution, journal, c, a, e);
    FinallyMarks(Begun(a, execution, journal, c), execution, journal, c.turnId, c.ending, e);
  }

  /** The trace of a controlled execution has exactly those effects. */
  lemma ExecuteMarks(execution: string, journal: bool, c: Circumstances, e: Effect)
    requires Reached(execution, journal, c) && Tells(e)
    ensures e in Execute(execution, journal, c).trace <==> Happened(c, journal, e)
  {
    var r := Controlled(AtStart(execution, journal, c), execution, journal, c);
    ControlledMarks(execution, journal, c, e);
    EpilogueShape(r, execution, journal, c);
    RowsOnlyKeeps(r.progress.trace, BeforeTold(r, execution, journal, c).trace, e);
  }

  /** An outcome stays unread exactly if thread/start or turn/start was offered and
      given up or broke, or the turn was started and its end not read. */
  lemma OutcomeExactly(execution: string, journal: bool, c: Circumstances)
    requires Reached(execution, journal, c)
    ensures OutcomeUnknown(Execute(execution, journal, c).trace) <==> OutcomeUnread(c, journal)
  {
    forall e | Tells(e) ensures e in Execute(execution, journal, c).trace <==> Happened(c, journal, e) { ExecuteMarks(execution, journal, c, e); }
    UnknownIsUnread(c, journal, Execute(execution, journal, c).trace);
  }

  lemma EndIsNoStart(end: Ending, e: Effect)
    requires e in [Attempt(ThreadStart), Acked(ThreadStart), Declined(ThreadStart), Attempt(TurnStart), Acked(TurnStart), Declined(TurnStart)]
    ensures !EndTells(end, e)
  {
    match end
    case Interrupting(_, Returned(rpc), _, _) => assert e !in ReplyEffects(TurnInterrupt, rpc.End());
    case _ =>
  }

  lemma ThreadTold(c: Circumstances, journal: bool)
    ensures Happened(c, journal, Attempt(ThreadStart)) <==> ReachesThread(c, journal) && c.thread.rpc.Offered()
    ensures Happened(c, journal, Acked(ThreadStart)) <==> ReachesThread(c, journal) && Passes(c.thread)
    ensures Happened(c, journal, Declined(ThreadStart)) <==> ReachesThread(c, journal) && Refused(c.thread)
  {
    EndIsNoStart(c.ending, Attempt(ThreadStart));
    EndIsNoStart(c.ending, Acked(ThreadStart));
    EndIsNoStart(c.ending, Declined(ThreadStart));
  }

  lemma TurnTold(c: Circumstances, journal: bool)
    ensures Happened(c, journal, Attempt(TurnStart)) <==> ReachesTurn(c, journal) && c.turn.rpc.Offered()
    ensures Happened(c, journal, Acked(TurnStart)) <==> ReachesTurn(c, journal) && Passes(c.turn)
    ensures Happened(c, journal, Declined(TurnStart)) <==> ReachesTurn(c, journal) && Refused(c.turn)
  {
    EndIsNoStart(c.ending, Attempt(TurnStart));
    EndIsNoStart(c.ending, Acked(TurnStart));
    EndIsNoStart(c.ending, Declined(TurnStart));
  }

  lemma EndTold(c: Circumstances, journal: bool)
    ensures ReachesEnd(c, journal) && EndRead(c.ending) <==> exists status :: Happened(c, journal, Terminal(status))
    ensures Happened(c, journal, Attempt(TurnInterrupt)) ==> ReachesEnd(c, journal) && c.ending.Interrupting?
    ensures c.ending.Interrupting? && ReachesEnd(c, journal) && EndRead(c.ending) ==> Happened(c, journal, Acked(TurnInterrupt))
  {
    if ReachesEnd(c, journal) && EndRead(c.ending) {
      var wait := if c.ending.TurnEnds? then c.ending.wait else c.ending.terminal.wait;
      assert Happened(c, journal, Terminal(wait.end.status));
    }
  }

  lemma UnknownIsUnread(c: Circumstances, journal: bool, trace: seq<Effect>)
    requires forall e :: Tells(e) ==> (e in trace <==> Happened(c, journal, e))
    ensures OutcomeUnknown(trace) <==> OutcomeUnread(c, journal)
  {
    ThreadTold(c, journal);
    TurnTold(c, journal);
    EndTold(c, journal);
    assert TerminalRead(trace) <==> ReachesEnd(c, journal) && EndRead(c.ending) by {
      forall status ensures Terminal(status) in trace <==> Happened(c, journal, Terminal(status)) { assert Tells(Terminal(status)); }
    }
    assert Unread(trace, ThreadStart) <==> ReachesThread(c, journal) && StageUnread(c.thread);
    assert Unread(trace, TurnStart) <==> ReachesTurn(c, journal) && StageUnread(c.turn);
    assert Unread(trace, TurnInterrupt) ==> ReachesEnd(c, journal) && !EndRead(c.ending);
  }

  // ---------------------------------------------------------------------------
  // Where an unread outcome is recorded as Failed all the same.

  /** Offered, and then given up because the owner is gone, or broken by a desync
      after an approval. */
  predicate StageMisread(s: Stage, seen: bool) {
    s.rpc.Offered() && (s.signal.OwnerGone? || (s.signal.Quiet? && s.rpc.End() == Broken(true) && (seen || SeenIn(s))))
  }

  predicate WaitMisread(w: Wait, seen: bool) {
    w.end.WaitRefusing? || (w.end == WaitBroken(true) && (seen || w.approvals.Seen?))
  }

  /** With the turn started: the owner is gone, a deadline passes, a notification
      is refused, or a desync follows an approval. */
  predicate EndMisread(e: Ending, seen: bool) {
    match e
    case TurnEnds(wait, _) => WaitMisread(wait, seen)
    case OwnerGoes(_) => true
    case DeadlinePasses(_) => true
    case Interrupting(_, TimedOut(rpc), _, _) => !rpc.Marked()
    case Interrupting(before, Returned(rpc), terminal, _) =>
      var approved := seen || before.Seen? || rpc.Seen().Seen?;
      match rpc.End()
      case Answered => terminal.Late? || WaitMisread(terminal.wait, approved)
      case Rejected => false
      case Refusing => true
      case Broken(desync) => desync && approved
  }

  predicate Misread(c: Circumstances, journal: bool) {
    || (ReachesThread(c, journal) && StageMisread(c.thread, SeenBeforeThread(c)))
    || (ReachesTurn(c, journal) && StageMisread(c.turn, SeenBeforeTurn(c)))
    || (ReachesTurn(c, journal) && Passes(c.turn) && !Appended(journal, c.turnRow))
    || (ReachesEnd(c, journal) && EndMisread(c.ending, SeenBeforeEnd(c)))
  }

  lemma StageReading(s: Stage, seen: bool)
    ensures StageUnread(s) && !StageUnclear(s, seen) <==> StageMisread(s, seen)
    ensures Passes(s) ==> !StageUnread(s) && !StageUnclear(s, seen) && !StageMisread(s, seen)
  {
    OfferedIsMarked(s.rpc);
  }

  lemma WaitReading(w: Wait, seen: bool)
    ensures !w.end.Completes? && !WaitUnclear(w, seen) <==> WaitMisread(w, seen)
  {
  }

  lemma EndReading(e: Ending, seen: bool)
    ensures !EndRead(e) && !EndingUnclear(e, seen) <==> EndMisread(e, seen)
  {
    match e
    case TurnEnds(wait, _) => WaitReading(wait, seen);
    case Interrupting(before, Returned(rpc), InTime(wait), _) => WaitReading(wait, seen || before.Seen? || rpc.Seen().Seen?);
    case _ =>
  }

  lemma MisreadIsUnreadButClear(c: Circumstances, journal: bool)
    ensures Misread(c, journal) <==> OutcomeUnread(c, journal) && !DeliveryUnclear(c, journal)
  {
    StageReading(c.thread, SeenBeforeThread(c));
    StageReading(c.turn, SeenBeforeTurn(c));
    EndReading(c.ending, SeenBeforeEnd(c));
  }

  /** The journal closes an execution some outcome of which was never read exactly
      in these circumstances, given that its completion row is durable; in all
      others an unread outcome is left for recovery. */
  lemma MisreadExactly(execution: string, c: Circumstances, before: seq<Record>)
    requires Reached(execution, true, c)
    ensures var p := Execute(execution, true, c);
            OutcomeUnknown(p.trace) && execution !in Projected(before + LogOf(p.trace)).unresolvedExecutions
            <==> Misread(c, true) && !c.endRow.Lost?
  {
    OutcomeExactly(execution, true, c);
    UnresolvedExactly(execution, c, before);
    MisreadIsUnreadButClear(c, true);
  }

  /** A call whose line was sent in full. */
  function Sent(approvals: Approvals, end: CallEnd): Rpc {
    Rpc("{}", [0, 0, 2, 1, 0], approvals, end)
  }

  lemma SentInFull()
    ensures var s := After("{}", [0, 0, 2, 1, 0]); s.place.AtRead? && s.offered == "{}\n"
  {
    assert [0, 0, 2, 1, 0][..4] == [0, 0, 2, 1] && [0, 0, 2, 1][..3] == [0, 0, 2] && [0, 0, 2][..2] == [0, 0] && [0, 0][..1] == [0] && [0][..0] == [];
    assert After("{}", [0, 0]) == Sending(AtLine, true, "");
    assert After("{}", [0, 0, 2]) == Sending(AtNewline, true, "{}");
    assert After("{}", [0, 0, 2, 1]).place == AtFlush;
  }

  const FINE := Stage(Quiet, Sent(NoneSeen, Answered))

  /** An execution in which everything works until `thread`, `turn` and `end`. */
  function Otherwise(thread: Stage, turn: Stage, end: Ending): Circumstances {
    Circumstances(Acknowledged, true, FINE, FINE, FINE, FINE, Null, Acknowledged, thread, turn, "turn", Acknowledged, end,
                  [], true, Acknowledged, Acknowledged, true, true, true)
  }

  /** The owner is gone while turn/start waits for its answer. */
  const OWNER_LOST := Otherwise(FINE, Stage(OwnerGone, Sent(NoneSeen, Broken(false))), OwnerGoes(NoneSeen))

  /** An approval asked and denied, and what it leaves in the journal. */
  function Exchange(execution: string): Approvals {
    Seen([ApprovalRequested(execution, "item/1", "execCommandApproval"), ApprovalDecided(execution, "item/1", "execCommandApproval", Denied)])
  }

  /** A malformed frame after an approval: for thread/start, for the end of the
      turn, for turn/interrupt. */
  function ThreadDesync(execution: string): Circumstances {
    Otherwise(Stage(Quiet, Sent(Exchange(execution), Broken(true))), FINE, OwnerGoes(NoneSeen))
  }

  function TurnDesync(execution: string): Circumstances {
    Otherwise(FINE, FINE, TurnEnds(Wait(Exchange(execution), WaitBroken(true)), Acknowledged))
  }

  function InterruptDesync(execution: string): Circumstances {
    Otherwise(FINE, FINE, Interrupting(Exchange(execution), Returned(Sent(NoneSeen, Broken(true))), Late(NoneSeen), Acknowledged))
  }

  /** Four executions with an unread outcome that recovery will not list. */
  lemma UnreadButRecordedFailed(execution: string, c: Circumstances, before: seq<Record>)
    requires c == OWNER_LOST || c == ThreadDesync(execution) || c == TurnDesync(execution) || c == InterruptDesync(execution)
    ensures var p := Execute(execution, true, c);
            OutcomeUnknown(p.trace) && execution !in Projected(before + LogOf(p.trace)).unresolvedExecutions
  {
    SentInFull();
    assert c.endRow == Acknowledged && Reached(execution, true, c);
    assert Misread(c, true);
    MisreadExactly(execution, c, before);
  }

  /** An interrupt arrives when thread/start or turn/start is marked, or is not
      answered in time once marked itself. */
  predicate InterruptedAfterMark(c: Circumstances, journal: bool) {
    || (ReachesThread(c, journal) && c.thread.signal.InterruptAsked? && c.thread.rpc.Marked())
    || (ReachesTurn(c, journal) && c.turn.signal.InterruptAsked? && c.turn.rpc.Marked())
    || (ReachesEnd(c, journal) && c.ending.Interrupting? && c.ending.interrupt.TimedOut? && c.ending.interrupt.rpc.Marked())
  }

  lemma AskedAfterMark(execution: string, journal: bool, c: Circumstances)
    requires Reached(execution, journal, c) && InterruptedAfterMark(c, journal)
    ensures Controlled(AtStart(execution, journal, c), execution, journal, c).asked
  {
    var a := Prelude(Begin(AtStart(execution, journal, c)), execution, journal, c);
    PreludeAt(execution, journal, c, AtStart(execution, journal, c));
    BegunAt(execution, journal, c, a);
    RacedAt(a, ThreadStart, c.thread, true, ReachesThread(c, journal), SeenBeforeThread(c), false);
  }

  /** The controller of such an interrupt is told Unknown, never Interrupted, and
      no completion row is written. */
  lemma LateInterruptIsUnknown(execution: string, journal: bool, c: Circumstances)
    requires Reached(execution, journal, c) && InterruptedAfterMark(c, journal)
    ensures LeftUnknown(execution, Execute(execution, journal, c), true)
  {
    AmbiguousExactly(execution, journal, c);
    AmbiguousIsUnknown(execution, journal, c);
    AskedAfterMark(execution, journal, c);
  }
}
