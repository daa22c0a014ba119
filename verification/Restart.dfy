/** When an execution succeeds, and when it is tried a second time, said of what
    happens during it (src/orchestrator.rs run_flow_body, execute_flow_once,
    run_with_restart; src/client.rs rpc_call_with_delivery). */
module Restart {
  import opened Text
  import opened Json
  import opened Journal
  import opened Flow
  import Ambiguity

  // ---------------------------------------------------------------------------
  // The guards.

  predicate Answers(rpc: Rpc) {
    rpc.End().Answered?
  }

  predicate Appended(journal: bool, append: Append) {
    journal ==> append.Acknowledged?
  }

  /** The execution is on record and has a process. */
  predicate Launched(w: World, journal: bool) {
    Appended(journal, w.started) && w.spawned
  }

  /** The calls before thread/start, in order. */
  function Preliminaries(w: World): seq<Rpc> {
    [w.initialize, w.account, w.models, w.limits]
  }

  /** The first call not answered is call `n`; it ended in a desync, and no
      approval was seen until then. */
  predicate DesyncsAt(calls: seq<Rpc>, n: nat) {
    && n < |calls| && calls[n].End() == Broken(true) && calls[n].Seen().NoneSeen?
    && forall i :: 0 <= i < n ==> Answers(calls[i]) && calls[i].Seen().NoneSeen?
  }

  ghost predicate RestartCue(w: World, journal: bool) {
    Launched(w, journal) && exists n :: DesyncsAt(Preliminaries(w), n)
  }

  predicate ReachesThread(w: World, journal: bool) {
    && Launched(w, journal) && Answers(w.initialize) && Answers(w.account) && Answers(w.models) && Answers(w.limits)
    && Appended(journal, w.snapshotRow)
  }

  predicate TurnRuns(w: World, journal: bool) {
    ReachesThread(w, journal) && Answers(w.thread) && Answers(w.turn) && Appended(journal, w.turnRow)
  }

  /** The turn ended with some status, and the session was sound. */
  predicate FlowWorks(w: World, journal: bool) {
    TurnRuns(w, journal) && w.wait.end.Completes? && Appended(journal, w.turnEndRow) && !w.poisoned
  }

  predicate ApprovalSeenDuring(w: World) {
    || w.initialize.Seen().Seen? || w.account.Seen().Seen? || w.models.Seen().Seen? || w.limits.Seen().Seen?
    || w.thread.Seen().Seen? || w.turn.Seen().Seen? || w.wait.approvals.Seen?
  }

  /** As far as the completion row can tell. */
  predicate ReadsCompleted(w: World, journal: bool) {
    FlowWorks(w, journal) && (journal && ApprovalSeenDuring(w) ==> w.internalOk)
  }

  predicate Succeeds(w: World, journal: bool) {
    ReadsCompleted(w, journal) && Appended(journal, w.endRow) && w.shutdownOk && w.cleanupOk
  }

  // ---------------------------------------------------------------------------
  // Step by step.

  /** Where an execution is: going on with approvals seen or not, or over, with a
      restart cue or without. */
  ghost predicate At(p: Progress, going: bool, seen: bool, cue: bool) {
    && (p.error.None? <==> going)
    && (going ==> p.seen == seen)
    && (p.error == Some(Desync) <==> cue)
  }

  lemma CalledAt(p: Progress, call: Call, rpc: Rpc, strict: bool, going: bool, seen: bool, cue: bool)
    requires At(p, going, seen, cue)
    ensures At(Called(p, call, rpc, strict), going && Answers(rpc), seen || rpc.Seen().Seen?,
               cue || (going && !strict && !seen && rpc.Seen().NoneSeen? && rpc.End() == Broken(true)))
  {
  }

  lemma NotedAt(p: Progress, journal: bool, append: Append, r: Record, going: bool, seen: bool, cue: bool)
    requires At(p, going, seen, cue)
    ensures At(Noted(p, journal, append, r), going && Appended(journal, append), seen, cue)
  {
  }

  lemma AwaitedAt(p: Progress, w: Wait, going: bool, seen: bool, cue: bool)
    requires At(p, going, seen, cue)
    ensures At(Awaited(p, w), going && w.end.Completes?, seen || w.approvals.Seen?, cue)
  {
  }

  /** No desync without an approval among the first `n` calls. */
  predicate QuietUpTo(calls: seq<Rpc>, n: nat)
    requires n <= |calls|
  {
    forall i :: 0 <= i < n ==> Answers(calls[i])
  }

  predicate SeenUpTo(calls: seq<Rpc>, n: nat)
    requires n <= |calls|
  {
    exists i :: 0 <= i < n && calls[i].Seen().Seen?
  }

  ghost predicate CueUpTo(calls: seq<Rpc>, n: nat)
    requires n <= |calls|
  {
    exists i :: 0 <= i < n && DesyncsAt(calls, i)
  }

  lemma OneMore(calls: seq<Rpc>, n: nat)
    requires n < |calls|
    ensures QuietUpTo(calls, n + 1) <==> QuietUpTo(calls, n) && Answers(calls[n])
    ensures SeenUpTo(calls, n + 1) <==> SeenUpTo(calls, n) || calls[n].Seen().Seen?
    ensures CueUpTo(calls, n + 1)
            <==> CueUpTo(calls, n) || (QuietUpTo(calls, n) && !SeenUpTo(calls, n) && calls[n].Seen().NoneSeen? && calls[n].End() == Broken(true))
  {
    assert DesyncsAt(calls, n) <==> QuietUpTo(calls, n) && !SeenUpTo(calls, n) && calls[n].Seen().NoneSeen? && calls[n].End() == Broken(true);
  }

  lemma PreliminaryAt(p: Progress, call: Call, calls: seq<Rpc>, n: nat)
    requires n < |calls| && At(p, QuietUpTo(calls, n), SeenUpTo(calls, n), CueUpTo(calls, n))
    ensures At(Called(p, call, calls[n], false), QuietUpTo(calls, n + 1), SeenUpTo(calls, n + 1), CueUpTo(calls, n + 1))
  {
    CalledAt(p, call, calls[n], false, QuietUpTo(calls, n), SeenUpTo(calls, n), CueUpTo(calls, n));
    OneMore(calls, n);
  }

  lemma AdmittedAt(execution: string, journal: bool, p: Progress, w: World)
    requires p.error.None? && !p.seen
    ensures var calls := Preliminaries(w);
            At(Admitted(execution, journal, p, w), QuietUpTo(calls, 4) && Appended(journal, w.snapshotRow), SeenUpTo(calls, 4), CueUpTo(calls, 4))
  {
    var calls := Preliminaries(w);
    var a := Called(p, Initialize, w.initialize, false);
    var b := Called(a, AccountRead, w.account, false);
    var c := Called(b, ModelList, w.models, false);
    PreliminaryAt(p, Initialize, calls, 0);
    PreliminaryAt(a, AccountRead, calls, 1);
    PreliminaryAt(b, ModelList, calls, 2);
    PreliminaryAt(c, RateLimits, calls, 3);
    NotedAt(Called(c, RateLimits, w.limits, false), journal, w.snapshotRow, RateLimitSnapshot(execution, w.snapshot),
            QuietUpTo(calls, 4), SeenUpTo(calls, 4), CueUpTo(calls, 4));
  }

  lemma StartedAt(execution: string, journal: bool, p: Progress, w: World, going: bool, seen: bool, cue: bool)
    requires At(p, going, seen, cue)
    ensures At(Started(execution, journal, p, w), going && Answers(w.thread) && Answers(w.turn) && Appended(journal, w.turnRow),
               seen || w.thread.Seen().Seen? || w.turn.Seen().Seen?, cue)
  {
    var a := Called(p, ThreadStart, w.thread, true);
    CalledAt(p, ThreadStart, w.thread, true, going, seen, cue);
    CalledAt(a, TurnStart, w.turn, true, going && Answers(w.thread), seen || w.thread.Seen().Seen?, cue);
    NotedAt(Called(a, TurnStart, w.turn, true), journal, w.turnRow, TurnStarted(execution, w.turnId),
            going && Answers(w.thread) && Answers(w.turn), seen || w.thread.Seen().Seen? || w.turn.Seen().Seen?, cue);
  }

  lemma FinishedAt(execution: string, journal: bool, p: Progress, w: World, going: bool, seen: bool, cue: bool)
    requires At(p, going, seen, cue)
    ensures At(Finished(execution, journal, p, w), going && w.wait.end.Completes? && Appended(journal, w.turnEndRow) && !w.poisoned,
               seen || w.wait.approvals.Seen?, cue)
  {
    AwaitedAt(p, w.wait, going, seen, cue);
    NotedAt(Awaited(p, w.wait), journal, w.turnEndRow, TurnEnded(execution, w.turnId, TurnEndOf(StatusOf(w.wait))),
            going && w.wait.end.Completes?, seen || w.wait.approvals.Seen?, cue);
  }

  lemma BodyAt(execution: string, journal: bool, p: Progress, w: World)
    requires p.error.None? && !p.seen && Launched(w, journal)
    ensures At(Body(execution, journal, p, w), FlowWorks(w, journal), ApprovalSeenDuring(w), RestartCue(w, journal))
  {
    var calls := Preliminaries(w);
    var a := Admitted(execution, journal, p, w);
    var going, seen, cue := QuietUpTo(calls, 4) && Appended(journal, w.snapshotRow), SeenUpTo(calls, 4), CueUpTo(calls, 4);
    AdmittedAt(execution, journal, p, w);
    StartedAt(execution, journal, a, w, going, seen, cue);
    FinishedAt(execution, journal, Started(execution, journal, a, w), w, going && Answers(w.thread) && Answers(w.turn) && Appended(journal, w.turnRow),
               seen || w.thread.Seen().Seen? || w.turn.Seen().Seen?, cue);
    FourCalls(w);
  }

  lemma FourCalls(w: World)
    ensures QuietUpTo(Preliminaries(w), 4) <==> Answers(w.initialize) && Answers(w.account) && Answers(w.models) && Answers(w.limits)
    ensures SeenUpTo(Preliminaries(w), 4)
            <==> w.initialize.Seen().Seen? || w.account.Seen().Seen? || w.models.Seen().Seen? || w.limits.Seen().Seen?
  {
    var calls := Preliminaries(w);
    assert calls[0] == w.initialize && calls[1] == w.account && calls[2] == w.models && calls[3] == w.limits;
  }

  // ---------------------------------------------------------------------------
  // One execution, and a second one.

  lemma ConcludedAt(execution: string, journal: bool, p: Progress, w: World)
    ensures var q := Concluded(execution, journal, p, w);
            && (p.error.Some? ==> q.error == p.error)
            && (q.error.None? <==> p.error.None? && (journal && p.seen ==> w.internalOk) && Appended(journal, w.endRow) && w.shutdownOk && w.cleanupOk)
            && (q.error == Some(Desync) ==> p.error == Some(Desync))
  {
  }

  /** An execution succeeds exactly if every step does, and gives the restart cue
      exactly in these circumstances. */
  lemma ExecutionExactly(execution: string, journal: bool, w: World)
    ensures ExecuteOnce(execution, journal, w).error.None? <==> Succeeds(w, journal)
    ensures ExecuteOnce(execution, journal, w).error == Some(Desync) <==> RestartCue(w, journal)
  {
    var begun := Also(START, journal, w.started, ExecutionStarted(execution));
    if Launched(w, journal) {
      BodyAt(execution, journal, begun, w);
      ConcludedAt(execution, journal, Body(execution, journal, begun, w), w);
    }
  }

  /** A second execution runs exactly after a restart cue, as an execution of its
      own, and the caller hears of the second one then, of the first otherwise. */
  lemma RestartsExactly(first: string, second: string, journal: bool, w: World, again: World)
    ensures var a := WithRestart(first, second, journal, w, again);
            && a.first == ExecuteOnce(first, journal, w)
            && (a.second.Some? <==> RestartCue(w, journal))
            && (a.second.Some? ==> a.second.value == ExecuteOnce(second, journal, again))
            && (Last(a).error.None? <==> Succeeds(w, journal) || (RestartCue(w, journal) && Succeeds(again, journal)))
  {
    ExecutionExactly(first, journal, w);
    ExecutionExactly(second, journal, again);
  }

  /** The case of a desync at once, and everything fine the second time. */
  lemma DesyncIsTriedAgain(first: string, second: string)
    ensures var a := WithRestart(first, second, true, DESYNC_AT_ONCE, ALL_FINE);
            a.second.Some? && Last(a).error.None? && a.first.error == Some(Desync)
  {
    Ambiguity.SentInFull();
    assert DesyncsAt(Preliminaries(DESYNC_AT_ONCE), 0);
    RestartsExactly(first, second, true, DESYNC_AT_ONCE, ALL_FINE);
    ExecutionExactly(first, true, DESYNC_AT_ONCE);
  }

  const ALL_FINE :=
    var fine := Ambiguity.Sent(NoneSeen, Answered);
    World(Acknowledged, true, fine, fine, fine, fine, Null, Acknowledged, fine, fine, "turn", Acknowledged,
          Wait(NoneSeen, Completes("completed")), Acknowledged, false, [], true, Acknowledged, Acknowledged, true, true)

  const DESYNC_AT_ONCE := ALL_FINE.(initialize := Ambiguity.Sent(NoneSeen, Broken(true)))

  // ---------------------------------------------------------------------------
  // Which rows an execution writes.

  predicate OtherRow(r: Record) {
    !r.ApprovalRequested? && !r.ApprovalDecided?
  }

  lemma SeenAddsNoOther(a: Approvals, r: Record)
    requires OtherRow(r)
    ensures Row(r) !in SeenEffects(a)
  {
    SeenEffectsAreApprovals(a);
  }

  lemma CalledRows(p: Progress, call: Call, rpc: Rpc, strict: bool, r: Record)
    requires OtherRow(r)
    ensures Row(r) in Called(p, call, rpc, strict).trace <==> Row(r) in p.trace
  {
    CallMembers(call, rpc);
    Members(p.trace, CallEffects(call, rpc));
  }

  lemma AlsoRows(p: Progress, journal: bool, append: Append, row: Record, r: Record)
    ensures Row(r) in Also(p, journal, append, row).trace <==> Row(r) in p.trace || (journal && !append.Lost? && r == row)
  {
    Members(p.trace, Rows(append, row));
  }

  lemma AwaitedRows(p: Progress, w: Wait, r: Record)
    requires OtherRow(r)
    ensures Row(r) in Awaited(p, w).trace <==> Row(r) in p.trace
  {
    var terminal := if w.end.Completes? then [Terminal(w.end.status)] else [];
    SeenAddsNoOther(w.approvals, r);
    Members(p.trace + SeenEffects(w.approvals), terminal);
    Members(p.trace, SeenEffects(w.approvals));
  }

  predicate CallsAnswered(w: World) {
    Answers(w.initialize) && Answers(w.account) && Answers(w.models) && Answers(w.limits)
  }

  lemma AdmittedRows(execution: string, p: Progress, w: World, r: Record)
    requires p.error.None? && !p.seen && OtherRow(r)
    ensures Row(r) in Admitted(execution, true, p, w).trace
            <==> Row(r) in p.trace || (CallsAnswered(w) && !w.snapshotRow.Lost? && r == RateLimitSnapshot(execution, w.snapshot))
  {
    var a := Called(p, Initialize, w.initialize, false);
    var b := Called(a, AccountRead, w.account, false);
    var c := Called(b, ModelList, w.models, false);
    var d := Called(c, RateLimits, w.limits, false);
    CalledRows(p, Initialize, w.initialize, false, r);
    CalledRows(a, AccountRead, w.account, false, r);
    CalledRows(b, ModelList, w.models, false, r);
    CalledRows(c, RateLimits, w.limits, false, r);
    CalledAt(p, Initialize, w.initialize, false, true, false, p.error == Some(Desync));
    AlsoRows(d, true, w.snapshotRow, RateLimitSnapshot(execution, w.snapshot), r);
    GoesOn(p, w);
  }

  lemma GoesOn(p: Progress, w: World)
    requires p.error.None?
    ensures var last := Called(Called(Called(Called(p, Initialize, w.initialize, false), AccountRead, w.account, false),
                                      ModelList, w.models, false), RateLimits, w.limits, false);
            last.error.None? <==> CallsAnswered(w)
  {
  }

  lemma StartedRows(execution: string, p: Progress, w: World, r: Record)
    requires OtherRow(r)
    ensures Row(r) in Started(execution, true, p, w).trace
            <==> Row(r) in p.trace
                 || (p.error.None? && Answers(w.thread) && Answers(w.turn) && !w.turnRow.Lost? && r == TurnStarted(execution, w.turnId))
  {
    var a := Called(p, ThreadStart, w.thread, true);
    var b := Called(a, TurnStart, w.turn, true);
    CalledRows(p, ThreadStart, w.thread, true, r);
    CalledRows(a, TurnStart, w.turn, true, r);
    AlsoRows(b, true, w.turnRow, TurnStarted(execution, w.turnId), r);
  }

  /** The end of a turn as its row says it. */
  function EndRow(execution: string, w: World): Record {
    TurnEnded(execution, w.turnId, if w.wait.end == Completes("completed") then TurnCompleted else TurnFailed)
  }

  lemma FinishedRows(execution: string, p: Progress, w: World, r: Record)
    requires OtherRow(r)
    ensures Row(r) in Finished(execution, true, p, w).trace
            <==> Row(r) in p.trace || (p.error.None? && w.wait.end.Completes? && !w.turnEndRow.Lost? && r == EndRow(execution, w))
  {
    AwaitedRows(p, w.wait, r);
    AlsoRows(Awaited(p, w.wait), true, w.turnEndRow, TurnEnded(execution, w.turnId, TurnEndOf(StatusOf(w.wait))), r);
  }

  lemma ConcludedRows(execution: string, p: Progress, w: World, r: Record)
    requires OtherRow(r)
    ensures Row(r) in Concluded(execution, true, p, w).trace <==>
                 || Row(r) in p.trace
                 || (!w.endRow.Lost? && r == ExecutionCompleted(execution,
                       if p.error.None? && (p.seen ==> w.internalOk) then ExecutionEnd.Completed else ExecutionEnd.Failed))
                 || (p.error.Some? && !w.incidentRow.Lost? && r == Incident(Some(execution), "flow_error", "suppressed"))
  {
    var told := if p.seen then Progress(p.trace + RowEffects(w.internal), true, Retain(p.error, w.internalOk, JournalLost)) else p;
    var status := if told.error.None? then ExecutionEnd.Completed else ExecutionEnd.Failed;
    RowEffectsAreRows(w.internal);
    Members(p.trace, RowEffects(w.internal));
    AlsoRows(told, true, w.endRow, ExecutionCompleted(execution, status), r);
    AlsoRows(Also(told, true, w.endRow, ExecutionCompleted(execution, status)), true, w.incidentRow,
             Incident(Some(execution), "flow_error", "suppressed"), r);
  }

  /** The rows of an execution with a journal, other than those of approvals. */
  predicate Writes(execution: string, w: World, r: Record) {
    || (r == ExecutionStarted(execution) && !w.started.Lost?)
    || (r == RateLimitSnapshot(execution, w.snapshot) && Launched(w, true) && CallsAnswered(w) && !w.snapshotRow.Lost?)
    || (r == TurnStarted(execution, w.turnId) && ReachesThread(w, true) && Answers(w.thread) && Answers(w.turn) && !w.turnRow.Lost?)
    || (r == EndRow(execution, w) && TurnRuns(w, true) && w.wait.end.Completes? && !w.turnEndRow.Lost?)
    || (r == ExecutionCompleted(execution, if ReadsCompleted(w, true) then ExecutionEnd.Completed else ExecutionEnd.Failed)
        && Launched(w, true) && !w.endRow.Lost?)
    || (r == Incident(Some(execution), "flow_error", "suppressed") && Launched(w, true) && !FlowWorks(w, true) && !w.incidentRow.Lost?)
  }

  lemma BodyRows(execution: string, w: World, r: Record)
    requires Launched(w, true) && OtherRow(r)
    ensures var begun := Also(START, true, w.started, ExecutionStarted(execution));
            Row(r) in Body(execution, true, begun, w).trace
            <==> r == ExecutionStarted(execution)
                 || (r == RateLimitSnapshot(execution, w.snapshot) && CallsAnswered(w) && !w.snapshotRow.Lost?)
                 || (r == TurnStarted(execution, w.turnId) && ReachesThread(w, true) && Answers(w.thread) && Answers(w.turn) && !w.turnRow.Lost?)
                 || (r == EndRow(execution, w) && TurnRuns(w, true) && w.wait.end.Completes? && !w.turnEndRow.Lost?)
  {
    var begun := Also(START, true, w.started, ExecutionStarted(execution));
    var calls := Preliminaries(w);
    var a := Admitted(execution, true, begun, w);
    AdmittedRows(execution, begun, w, r);
    AdmittedAt(execution, true, begun, w);
    FourCalls(w);
    StartedRows(execution, a, w, r);
    StartedAt(execution, true, a, w, QuietUpTo(calls, 4) && Appended(true, w.snapshotRow), SeenUpTo(calls, 4), CueUpTo(calls, 4));
    FinishedRows(execution, Started(execution, true, a, w), w, r);
  }

  /** An execution writes exactly these rows. */
  lemma RowsExactly(execution: string, w: World, r: Record)
    requires OtherRow(r)
    ensures Row(r) in ExecuteOnce(execution, true, w).trace <==> Writes(execution, w, r)
  {
    var begun := Also(START, true, w.started, ExecutionStarted(execution));
    if Launched(w, true) {
      BodyRows(execution, w, r);
      BodyAt(execution, true, begun, w);
      ConcludedRows(execution, Body(execution, true, begun, w), w, r);
    }
  }
}
