/** What recovery finds of an execution without a control channel, said of its
    world alone (src/orchestrator.rs run_flow_body, execute_flow_once). Until its
    end it runs as a controlled execution whose channel stays quiet; but it always
    writes a completion row, also after an ambiguous delivery. */
module Uncontrolled {
  import opened Text
  import opened Json
  import opened Journal
  import opened Flow
  import opened Control
  import opened Ambiguity

  // ---------------------------------------------------------------------------
  // The two paths run alike.

  function Still(rpc: Rpc): Stage {
    Stage(Quiet, rpc)
  }

  /** The same world under a controller that never asks for anything. */
  function Quietly(w: World): Circumstances {
    Circumstances(w.started, w.spawned, Still(w.initialize), Still(w.account), Still(w.models), Still(w.limits), w.snapshot, w.snapshotRow,
                  Still(w.thread), Still(w.turn), w.turnId, w.turnRow, TurnEnds(w.wait, w.turnEndRow),
                  w.internal, w.internalOk, w.incidentRow, w.endRow, w.shutdownOk, w.cleanupOk, true)
  }

  /** Neither asked nor done, and the same progress. */
  predicate Alike(r: Run, p: Progress) {
    r == Begin(p)
  }

  lemma RacedAlike(p: Progress, call: Call, rpc: Rpc, strict: bool)
    ensures Alike(Raced(Begin(p), call, Still(rpc), strict), Called(p, call, rpc, strict))
  {
  }

  lemma PreludeAlike(execution: string, journal: bool, p: Progress, w: World)
    ensures Alike(Prelude(Begin(p), execution, journal, Quietly(w)), Admitted(execution, journal, p, w))
  {
    var a := Called(p, Initialize, w.initialize, false);
    var b := Called(a, AccountRead, w.account, false);
    var d := Called(b, ModelList, w.models, false);
    RacedAlike(p, Initialize, w.initialize, false);
    RacedAlike(a, AccountRead, w.account, false);
    RacedAlike(b, ModelList, w.models, false);
    RacedAlike(d, RateLimits, w.limits, false);
  }

  lemma BegunAlike(execution: string, journal: bool, p: Progress, w: World)
    ensures Alike(Begun(Begin(p), execution, journal, Quietly(w)), Started(execution, journal, p, w))
  {
    RacedAlike(p, ThreadStart, w.thread, true);
    RacedAlike(Called(p, ThreadStart, w.thread, true), TurnStart, w.turn, true);
  }

  /** Until the end of the turn the uncontrolled flow does what the controlled one
      does when nothing is asked; a session poisoned at the end makes it an error. */
  lemma FlowsAlike(execution: string, journal: bool, p: Progress, w: World)
    ensures var (body, r) := (Body(execution, journal, p, w), Controlled(p, execution, journal, Quietly(w)));
            && body.trace == r.progress.trace && body.seen == r.progress.seen
            && body.error == (if r.progress.error.None? && w.poisoned && p.error.None? then Some(Refused) else r.progress.error)
  {
    PreludeAlike(execution, journal, p, w);
    BegunAlike(execution, journal, Admitted(execution, journal, p, w), w);
  }

  ghost function BodyOf(execution: string, w: World): Progress {
    Body(execution, true, AtStart(execution, true, Quietly(w)), w)
  }

  ghost predicate Runs(w: World) {
    w.started.Acknowledged? && w.spawned
  }

  lemma RunsReached(execution: string, w: World)
    ensures Runs(w) <==> Reached(execution, true, Quietly(w))
    ensures Runs(w) ==> AtStart(execution, true, Quietly(w)) == Progress([Row(ExecutionStarted(execution))], false, None)
  {
  }

  // ---------------------------------------------------------------------------
  // The end of an execution.

  /** After the flow: the approval rows the session still holds. */
  ghost function Told(p: Progress, w: World): Progress {
    if p.seen then Progress(p.trace + RowEffects(w.internal), true, Retain(p.error, w.internalOk, JournalLost)) else p
  }

  ghost function Closed(p: Progress, execution: string, w: World): Progress {
    Also(Told(p, w), true, w.endRow, ExecutionCompleted(execution, if Told(p, w).error.None? then ExecutionEnd.Completed else ExecutionEnd.Failed))
  }

  lemma ConcludedShape(p: Progress, execution: string, w: World)
    ensures RowsOnly(p.trace, Concluded(execution, true, p, w).trace)
    ensures LastEntry(Concluded(execution, true, p, w).trace) == LastEntry(Closed(p, execution, w).trace)
  {
    var incident := Incident(Some(execution), "flow_error", "suppressed");
    var closed := Closed(p, execution, w);
    RowEffectsAreRows(w.internal);
    assert p.trace + [] == p.trace;
    AlsoAddsRow(Told(p, w), true, w.endRow, ExecutionCompleted(execution, if Told(p, w).error.None? then ExecutionEnd.Completed else ExecutionEnd.Failed));
    AlsoAddsRow(closed, true, w.incidentRow, incident);
    RowsOnlyTwice(p.trace, Told(p, w).trace, closed.trace);
    RowsOnlyTwice(p.trace, closed.trace, Also(closed, true, w.incidentRow, incident).trace);
    AlsoSays(closed, w.incidentRow, incident);
  }

  lemma ToldSays(p: Progress, w: World)
    ensures LastEntry(Told(p, w).trace) == LastEntry(p.trace)
    ensures p.error.Some? ==> Told(p, w).error.Some?
  {
    RowEffectsAreRows(w.internal);
    if p.seen { NothingSaid(p.trace, p.trace + RowEffects(w.internal)); }
  }

  lemma BodySays(execution: string, w: World)
    requires Runs(w)
    ensures LastEntry(BodyOf(execution, w).trace) == Some(Entry(execution, Opens))
  {
    var start := AtStart(execution, true, Quietly(w));
    RunsReached(execution, w);
    FlowsAlike(execution, true, start, w);
    ControlledIsTruthful(start, execution, true, Quietly(w));
    PlainSaysNothing(start.trace, BodyOf(execution, w).trace);
    AlsoSays(START, w.started, ExecutionStarted(execution));
  }

  lemma PlainSaysNothing(a: seq<Effect>, b: seq<Effect>)
    requires Grows(a, b, true)
    ensures LastEntry(b) == LastEntry(a)
  {
    NothingSaid(a, b);
  }

  /** What is said of an execution that ran. */
  lemma ExecutionSaysLast(execution: string, w: World)
    requires Runs(w)
    ensures var says := LastEntry(ExecuteOnce(execution, true, w).trace);
            && says.Some? && says.value.id == execution && (says.value.mark.Opens? <==> w.endRow.Lost?)
            && (BodyOf(execution, w).error.Some? && !w.endRow.Lost? ==> says.value.mark == Settles(Ended(ExecutionEnd.Failed)))
  {
    var body := BodyOf(execution, w);
    RunsReached(execution, w);
    BodySays(execution, w);
    ConcludedShape(body, execution, w);
    ToldSays(body, w);
    CompletionSays(Told(body, w), execution, if Told(body, w).error.None? then ExecutionEnd.Completed else ExecutionEnd.Failed, w.endRow);
  }

  lemma StartSaysLast(execution: string, w: World)
    requires !Runs(w) && !w.started.Lost?
    ensures ExecuteOnce(execution, true, w).trace == [Row(ExecutionStarted(execution))]
    ensures LastEntry(ExecuteOnce(execution, true, w).trace) == Some(Entry(execution, Opens))
  {
  }

  /** Whatever the journal held before, recovery lists a started execution exactly
      if its start was not acknowledged, nothing was spawned, or its completion row
      was lost: what happened to its requests makes no difference. */
  lemma UncontrolledUnresolvedExactly(execution: string, w: World, before: seq<Record>)
    requires !w.started.Lost?
    ensures var log := before + LogOf(ExecuteOnce(execution, true, w).trace);
            var unresolved := execution in Projected(log).unresolvedExecutions;
            && (unresolved <==> !w.started.Acknowledged? || !w.spawned || w.endRow.Lost?)
            && (unresolved ==> ReadsUnknown(log + Recovery.Owed(log), execution))
  {
    var trace := ExecuteOnce(execution, true, w).trace;
    var log := before + LogOf(trace);
    if Runs(w) { ExecutionSaysLast(execution, w); } else { StartSaysLast(execution, w); }
    LastEntryDecides(before, trace);
    Ordering.SortedLists(OpenIds(Executions(log)));
    Recovery.RecoveryIsComplete(log);
  }

  // ---------------------------------------------------------------------------
  // Ambiguous deliveries.

  ghost predicate ReadsFailed(log: seq<Record>, execution: string) {
    && execution !in Projected(log).unresolvedExecutions
    && execution in Projected(log).executions && Projected(log).executions[execution] == Ended(ExecutionEnd.Failed)
  }

  /** The flow ends as ambiguous exactly in the circumstances a controlled one
      would; and the journal then says Failed, as after any other error. */
  lemma AmbiguousReadsFailed(execution: string, w: World, before: seq<Record>)
    requires w.started.Acknowledged? && w.spawned
    ensures BodyOf(execution, w).error == Some(Ambiguous) <==> DeliveryUnclear(Quietly(w), true)
    ensures BodyOf(execution, w).error.Some? && !w.endRow.Lost? ==> ReadsFailed(before + LogOf(ExecuteOnce(execution, true, w).trace), execution)
  {
    var trace := ExecuteOnce(execution, true, w).trace;
    RunsReached(execution, w);
    FlowsAlike(execution, true, AtStart(execution, true, Quietly(w)), w);
    AmbiguousExactly(execution, true, Quietly(w));
    ExecutionSaysLast(execution, w);
    LastEntryDecides(before, trace);
    Ordering.SortedLists(OpenIds(Executions(before + LogOf(trace))));
  }

  // ---------------------------------------------------------------------------
  // Unread outcomes.

  predicate Answers(rpc: Rpc) {
    rpc.End().Answered?
  }

  /** Offered to the server, and then given up or broken. */
  predicate CallUnread(rpc: Rpc) {
    rpc.Offered() && rpc.End().Broken?
  }

  predicate GetsToThread(w: World) {
    && w.started.Acknowledged? && w.spawned && Answers(w.initialize) && Answers(w.account) && Answers(w.models) && Answers(w.limits)
    && w.snapshotRow.Acknowledged?
  }

  /** The answer to thread/start or turn/start is not read, or the turn is started
      and its end is not read. */
  predicate LeftUnread(w: World) {
    && GetsToThread(w)
    && (CallUnread(w.thread)
        || (Answers(w.thread) && CallUnread(w.turn))
        || (Answers(w.thread) && Answers(w.turn) && !(w.turnRow.Acknowledged? && w.wait.end.Completes?)))
  }

  lemma GuardsAgree(w: World)
    ensures Runs(w) && OutcomeUnread(Quietly(w), true) <==> LeftUnread(w)
  {
  }

  /** Loud effects come from the flow alone. */
  lemma ExecutionTells(execution: string, w: World, e: Effect)
    requires Runs(w) && Tells(e)
    ensures e in ExecuteOnce(execution, true, w).trace <==> Happened(Quietly(w), true, e)
  {
    var start := AtStart(execution, true, Quietly(w));
    RunsReached(execution, w);
    FlowsAlike(execution, true, start, w);
    ControlledMarks(execution, true, Quietly(w), e);
    ConcludedShape(BodyOf(execution, w), execution, w);
    RowsOnlyKeeps(BodyOf(execution, w).trace, ExecuteOnce(execution, true, w).trace, e);
  }

  lemma UncontrolledOutcomeExactly(execution: string, w: World)
    ensures OutcomeUnknown(ExecuteOnce(execution, true, w).trace) <==> LeftUnread(w)
  {
    var trace := ExecuteOnce(execution, true, w).trace;
    if Runs(w) {
      forall e | Tells(e) ensures e in trace <==> Happened(Quietly(w), true, e) { ExecutionTells(execution, w, e); }
      UnknownIsUnread(Quietly(w), true, trace);
      GuardsAgree(w);
    } else if !w.started.Lost? {
      StartSaysLast(execution, w);
    }
  }

  /** The journal closes an execution with an unread outcome whenever there is one
      and the completion row is durable: no unread outcome is left for recovery,
      unless by losing that row. */
  lemma UncontrolledMisreadExactly(execution: string, w: World, before: seq<Record>)
    ensures var trace := ExecuteOnce(execution, true, w).trace;
            OutcomeUnknown(trace) && execution !in Projected(before + LogOf(trace)).unresolvedExecutions <==> LeftUnread(w) && !w.endRow.Lost?
  {
    UncontrolledOutcomeExactly(execution, w);
    if !w.started.Lost? { UncontrolledUnresolvedExactly(execution, w, before); }
  }

  /** Everything works, but turn/start is never answered. */
  const UNANSWERED :=
    var fine := Sent(NoneSeen, Answered);
    World(Acknowledged, true, fine, fine, fine, fine, Null, Acknowledged, fine, Sent(NoneSeen, Broken(false)), "turn", Acknowledged,
          Wait(NoneSeen, Completes("completed")), Acknowledged, false, [], true, Acknowledged, Acknowledged, true, true)

  /** There the delivery is ambiguous, turn/start was offered, its outcome is
      unknown, and the journal says Failed. */
  lemma UnansweredReadsFailed(execution: string, before: seq<Record>)
    ensures var trace := ExecuteOnce(execution, true, UNANSWERED).trace;
            && BodyOf(execution, UNANSWERED).error == Some(Ambiguous)
            && Attempt(TurnStart) in trace && OutcomeUnknown(trace)
            && ReadsFailed(before + LogOf(trace), execution)
  {
    SentInFull();
    assert DeliveryUnclear(Quietly(UNANSWERED), true);
    AmbiguousReadsFailed(execution, UNANSWERED, before);
    assert LeftUnread(UNANSWERED);
    UncontrolledOutcomeExactly(execution, UNANSWERED);
    ExecutionTells(execution, UNANSWERED, Attempt(TurnStart));
  }
}
