/** One execution of a flow against a fresh app-server (src/orchestrator.rs
    run_flow_body, execute_flow_once, run_with_restart; src/client.rs
    rpc_call_with_delivery, wait_turn_completed). Effects are requests of which
    something reached the pipe, their answers, approvals seen, terminal
    notifications read and rows that reach the journal. What the server, the
    journal and the system do is input. */
module Flow {
  import opened Text
  import opened Json
  import opened Journal
  import opened Writing

  datatype Call = Initialize | AccountRead | ModelList | RateLimits | ThreadStart | TurnStart | TurnInterrupt

  datatype ControlOutcome = ToldInterrupted | ToldUnknown

  datatype Effect =
    | Attempt(call: Call)
    | Acked(call: Call)
    | Declined(call: Call)
    | ApprovalSeen
    | Terminal(status: string)
    | Row(r: Record)
    | Told(outcome: ControlOutcome)

  datatype Error =
    | Desync | TransportLost | RemoteError | UnexpectedResponse | UnresolvedApproval
    | Ambiguous | DeadlineExceeded | Refused | JournalLost | SpawnFailed | CleanupFailed

  /** The rows an approval leaves in the journal. */
  type ApprovalRow = r: Record | r.ApprovalRequested? || r.ApprovalDecided? witness ApprovalRequested("", "", "")

  /** Approvals seen during a wait, with the rows they left. */
  datatype Approvals = NoneSeen | Seen(rows: seq<ApprovalRow>)

  /** How a call that was sent ends: answered, answered with an error, the answer
      refused by the client, or the transport broken. */
  datatype CallEnd = Answered | Rejected | Refusing | Broken(desync: bool)

  /** A call: its line is sent as far as the steps go; only if that is all of it
      are approvals met and does the end matter. Given up or failing before, it
      looks like a broken transport. */
  datatype Rpc = Rpc(line: string, steps: seq<nat>, approvals: Approvals, end: CallEnd) {
    predicate Sent() { After(line, steps).place.AtRead? }

    /** What `may_have_been_written` says. */
    predicate Marked() { After(line, steps).marked }

    /** Something of the request reached the pipe. */
    predicate Offered() { After(line, steps).offered != "" }

    function Seen(): Approvals { if Sent() then approvals else NoneSeen }

    function End(): CallEnd { if Sent() then end else Broken(false) }
  }

  /** The mark comes before the first character, and an answer after the last. */
  lemma OfferedIsMarked(rpc: Rpc)
    ensures rpc.Offered() ==> rpc.Marked()
    ensures rpc.Sent() ==> rpc.Offered()
  {
    UnmarkedIsUnsent(rpc.line, rpc.steps);
  }

  datatype WaitEnd = Completes(status: string) | WaitBroken(desync: bool) | WaitUnexpected | WaitRefusing
  datatype Wait = Wait(approvals: Approvals, end: WaitEnd)

  /** An execution so far. */
  datatype Progress = Progress(trace: seq<Effect>, seen: bool, error: Option<Error>)

  const START := Progress([], false, None)

  // ---------------------------------------------------------------------------
  // Steps. A step after an error does nothing.

  function RowEffects(rows: seq<ApprovalRow>): seq<Effect> {
    if rows == [] then [] else [Row(rows[0])] + RowEffects(rows[1..])
  }

  function SeenEffects(a: Approvals): seq<Effect> {
    match a
    case NoneSeen => []
    case Seen(rows) => [ApprovalSeen] + RowEffects(rows)
  }

  function AttemptOf(call: Call, offered: bool): seq<Effect> {
    if offered then [Attempt(call)] else []
  }

  function ReplyEffects(call: Call, end: CallEnd): seq<Effect> {
    match end
    case Answered => [Acked(call)]
    case Broken(_) => []
    case _ => [Declined(call)]
  }

  function CallEffects(call: Call, rpc: Rpc): seq<Effect> {
    AttemptOf(call, rpc.Offered()) + SeenEffects(rpc.Seen()) + ReplyEffects(call, rpc.End())
  }

  /** A desync after any approval was seen is not a restart cue. */
  function BrokenError(desync: bool, seen: bool): Error {
    if !desync then TransportLost else if seen then UnresolvedApproval else Desync
  }

  function CallError(end: CallEnd, seen: bool): Option<Error> {
    match end
    case Answered => None
    case Rejected => Some(RemoteError)
    case Refusing => Some(Refused)
    case Broken(desync) => Some(BrokenError(desync, seen))
  }

  function WaitError(end: WaitEnd, seen: bool): Option<Error> {
    match end
    case Completes(_) => None
    case WaitRefusing => Some(Refused)
    case WaitUnexpected => Some(UnexpectedResponse)
    case WaitBroken(desync) => Some(BrokenError(desync, seen))
  }

  /** `non_idempotent`: from the first irreversible request on, transport errors
      mean the outcome is unknown. */
  function NonIdempotent(e: Option<Error>): Option<Error> {
    if e in [Some(Desync), Some(TransportLost), Some(RemoteError), Some(UnexpectedResponse)] then Some(Ambiguous) else e
  }

  function Called(p: Progress, call: Call, rpc: Rpc, strict: bool): Progress {
    if p.error.Some? then p
    else
      var seen := p.seen || rpc.Seen().Seen?;
      var error := CallError(rpc.End(), seen);
      Progress(p.trace + CallEffects(call, rpc), seen, if strict then NonIdempotent(error) else error)
  }

  function Awaited(p: Progress, w: Wait): Progress {
    if p.error.Some? then p
    else
      var seen := p.seen || w.approvals.Seen?;
      Progress(p.trace + SeenEffects(w.approvals) + (if w.end.Completes? then [Terminal(w.end.status)] else []), seen,
               NonIdempotent(WaitError(w.end, seen)))
  }

  function Rows(append: Append, r: Record): seq<Effect> {
    if append.Lost? then [] else [Row(r)]
  }

  function Retain(first: Option<Error>, ok: bool, late: Error): Option<Error> {
    if first.None? && !ok then Some(late) else first
  }

  /** Appends a row whatever happened, keeping the first error. */
  function Also(p: Progress, journal: bool, append: Append, r: Record): Progress {
    if !journal then p
    else Progress(p.trace + Rows(append, r), p.seen, Retain(p.error, append.Acknowledged?, JournalLost))
  }

  function Noted(p: Progress, journal: bool, append: Append, r: Record): Progress {
    if p.error.Some? then p else Also(p, journal, append, r)
  }

  // ---------------------------------------------------------------------------
  // One execution.

  /** What happens during one execution. `internal` are the approval rows written
      at the end when no receipt wrote them at once; the session has none unless
      the client saw an approval. */
  datatype World = World(
    started: Append, spawned: bool,
    initialize: Rpc, account: Rpc, models: Rpc, limits: Rpc, snapshot: Json, snapshotRow: Append,
    thread: Rpc, turn: Rpc, turnId: string, turnRow: Append, wait: Wait, turnEndRow: Append, poisoned: bool,
    internal: seq<ApprovalRow>, internalOk: bool, endRow: Append, incidentRow: Append, shutdownOk: bool, cleanupOk: bool)

  function Admitted(execution: string, journal: bool, p: Progress, w: World): Progress {
    Noted(Called(Called(Called(Called(p, Initialize, w.initialize, false), AccountRead, w.account, false),
                        ModelList, w.models, false), RateLimits, w.limits, false),
          journal, w.snapshotRow, RateLimitSnapshot(execution, w.snapshot))
  }

  function TurnEndOf(status: string): TurnEnd {
    if status == "completed" then TurnCompleted else TurnFailed
  }

  function StatusOf(w: Wait): string {
    if w.end.Completes? then w.end.status else ""
  }

  function Started(execution: string, journal: bool, p: Progress, w: World): Progress {
    Noted(Called(Called(p, ThreadStart, w.thread, true), TurnStart, w.turn, true),
          journal, w.turnRow, TurnStarted(execution, w.turnId))
  }

  function Finished(execution: string, journal: bool, p: Progress, w: World): Progress {
    var done := Noted(Awaited(p, w.wait), journal, w.turnEndRow, TurnEnded(execution, w.turnId, TurnEndOf(StatusOf(w.wait))));
    if done.error.None? && w.poisoned then done.(error := Some(Refused)) else done
  }

  function Body(execution: string, journal: bool, p: Progress, w: World): Progress {
    Finished(execution, journal, Started(execution, journal, Admitted(execution, journal, p, w), w), w)
  }

  /** The end of an execution always writes its completion, also after an
      ambiguous error. */
  function Concluded(execution: string, journal: bool, p: Progress, w: World): Progress {
    var told := if journal && p.seen then Progress(p.trace + RowEffects(w.internal), true, Retain(p.error, w.internalOk, JournalLost)) else p;
    var status := if told.error.None? then ExecutionEnd.Completed else ExecutionEnd.Failed;
    var completed := Also(told, journal, w.endRow, ExecutionCompleted(execution, status));
    var noted := if p.error.Some? then Also(completed, journal, w.incidentRow, Incident(Some(execution), "flow_error", "suppressed")) else completed;
    noted.(error := Retain(Retain(noted.error, w.shutdownOk, CleanupFailed), w.cleanupOk, CleanupFailed))
  }

  function ExecuteOnce(execution: string, journal: bool, w: World): Progress {
    var begun := Also(START, journal, w.started, ExecutionStarted(execution));
    if begun.error.Some? then begun
    else if !w.spawned then begun.(error := Some(SpawnFailed))
    else Concluded(execution, journal, Body(execution, journal, begun, w), w)
  }

  datatype Attempts = Attempts(first: Progress, second: Option<Progress>)

  /** Everything the two executions did, in order. */
  function Whole(a: Attempts): seq<Effect> {
    a.first.trace + if a.second.Some? then a.second.value.trace else []
  }

  /** The execution the caller hears about. */
  function Last(a: Attempts): Progress {
    if a.second.Some? then a.second.value else a.first
  }

  function WithRestart(first: string, second: string, journal: bool, w: World, again: World): Attempts {
    var once := ExecuteOnce(first, journal, w);
    Attempts(once, if once.error == Some(Desync) then Some(ExecuteOnce(second, journal, again)) else None)
  }

  // ---------------------------------------------------------------------------
  // The same step by step.

  class Runner {
    const journal: bool
    const execution: string
    var seen: bool
    ghost var trace: seq<Effect>

    constructor (execution: string, journal: bool)
      ensures this.execution == execution && this.journal == journal && !seen && trace == []
    {
      this.execution, this.journal, seen, trace := execution, journal, false, [];
    }

    ghost function With(error: Option<Error>): Progress
      reads this
    {
      Progress(trace, seen, error)
    }

    method CallServer(call: Call, rpc: Rpc, strict: bool) returns (error: Option<Error>)
      modifies this`seen, this`trace
      ensures With(error) == Called(old(With(None)), call, rpc, strict)
    {
      trace := trace + CallEffects(call, rpc);
      if rpc.Seen().Seen? { seen := true; }
      error := CallError(rpc.End(), seen);
      if strict { error := NonIdempotent(error); }
    }

    method AwaitTurn(w: Wait) returns (error: Option<Error>)
      modifies this`seen, this`trace
      ensures With(error) == Awaited(old(With(None)), w)
    {
      trace := trace + SeenEffects(w.approvals) + if w.end.Completes? then [Terminal(w.end.status)] else [];
      if w.approvals.Seen? { seen := true; }
      error := NonIdempotent(WaitError(w.end, seen));
    }

    method AppendJournal(append: Append, r: Record, first: Option<Error>) returns (error: Option<Error>)
      modifies this`trace
      ensures With(error) == Also(old(With(first)), journal, append, r)
    {
      error := first;
      if journal {
        trace := trace + Rows(append, r);
        if !append.Acknowledged? && first.None? { error := Some(JournalLost); }
      }
    }

    method Admit(w: World) returns (error: Option<Error>)
      modifies this`seen, this`trace
      ensures With(error) == Admitted(execution, journal, old(With(None)), w)
    {
      error := CallServer(Initialize, w.initialize, false);
      if error.Some? { return; }
      error := CallServer(AccountRead, w.account, false);
      if error.Some? { return; }
      error := CallServer(ModelList, w.models, false);
      if error.Some? { return; }
      error := CallServer(RateLimits, w.limits, false);
      if error.Some? { return; }
      error := AppendJournal(w.snapshotRow, RateLimitSnapshot(execution, w.snapshot), None);
    }

    method Start(w: World) returns (error: Option<Error>)
      modifies this`seen, this`trace
      ensures With(error) == Started(execution, journal, old(With(None)), w)
    {
      error := CallServer(ThreadStart, w.thread, true);
      if error.Some? { return; }
      error := CallServer(TurnStart, w.turn, true);
      if error.Some? { return; }
      error := AppendJournal(w.turnRow, TurnStarted(execution, w.turnId), None);
    }

    method Finish(w: World) returns (error: Option<Error>)
      modifies this`seen, this`trace
      ensures With(error) == Finished(execution, journal, old(With(None)), w)
    {
      error := AwaitTurn(w.wait);
      if error.Some? { return; }
      error := AppendJournal(w.turnEndRow, TurnEnded(execution, w.turnId, TurnEndOf(StatusOf(w.wait))), None);
      if error.None? && w.poisoned { error := Some(Refused); }
    }

    method RunFlowBody(w: World) returns (error: Option<Error>)
      modifies this`seen, this`trace
      ensures With(error) == Body(execution, journal, old(With(None)), w)
    {
      error := Admit(w);
      if error.Some? { return; }
      error := Start(w);
      if error.Some? { return; }
      error := Finish(w);
    }

    method Conclude(w: World, flowError: Option<Error>) returns (error: Option<Error>)
      modifies this`trace
      ensures With(error) == Concluded(execution, journal, old(With(flowError)), w)
    {
      error := flowError;
      if journal && seen {
        trace := trace + RowEffects(w.internal);
        error := Retain(error, w.internalOk, JournalLost);
      }
      var status := if error.None? then ExecutionEnd.Completed else ExecutionEnd.Failed;
      error := AppendJournal(w.endRow, ExecutionCompleted(execution, status), error);
      if flowError.Some? {
        error := AppendJournal(w.incidentRow, Incident(Some(execution), "flow_error", "suppressed"), error);
      }
      error := Retain(error, w.shutdownOk, CleanupFailed);
      error := Retain(error, w.cleanupOk, CleanupFailed);
    }

    method ExecuteFlowOnce(w: World) returns (error: Option<Error>)
      requires !seen && trace == []
      modifies this`seen, this`trace
      ensures With(error) == ExecuteOnce(execution, journal, w)
    {
      error := AppendJournal(w.started, ExecutionStarted(execution), None);
      if error.Some? { return; }
      if !w.spawned { return Some(SpawnFailed); }
      error := RunFlowBody(w);
      error := Conclude(w, error);
    }
  }

  method RunWithRestart(first: string, second: string, journal: bool, w: World, again: World)
    returns (error: Option<Error>, ghost done: Attempts)
    ensures done == WithRestart(first, second, journal, w, again)
    ensures error == Last(WithRestart(first, second, journal, w, again)).error
  {
    var runner := new Runner(first, journal);
    error := runner.ExecuteFlowOnce(w);
    done := Attempts(runner.With(error), None);
    if error == Some(Desync) {
      var other := new Runner(second, journal);
      error := other.ExecuteFlowOnce(again);
      done := Attempts(done.first, Some(other.With(error)));
    }
  }

  // ---------------------------------------------------------------------------
  // No replay.

  predicate IsApproval(e: Effect) {
    e.ApprovalSeen? || (e.Row? && (e.r.ApprovalRequested? || e.r.ApprovalDecided?))
  }

  predicate IsStart(e: Effect) {
    e == Attempt(ThreadStart) || e == Attempt(TurnStart)
  }

  /** Nothing irreversible was attempted, and no approval seen. */
  ghost predicate Untouched(trace: seq<Effect>) {
    forall e :: e in trace ==> !IsApproval(e) && !IsStart(e)
  }

  /** The client knows whether it saw an approval, and reports a restart cue only
      while nothing irreversible happened. */
  ghost predicate Careful(p: Progress) {
    && (p.seen || forall e :: e in p.trace ==> !IsApproval(e))
    && (p.error == Some(Desync) ==> !p.seen && forall e :: e in p.trace ==> !IsStart(e))
  }

  ghost predicate NoStarts(p: Progress) {
    forall e :: e in p.trace ==> !IsStart(e)
  }

  function Starts(p: Progress, call: Call): nat {
    multiset(p.trace)[Attempt(call)]
  }

  lemma {:induction false} RowEffectsAreRows(rows: seq<ApprovalRow>)
    ensures forall e :: e in RowEffects(rows) ==> e.Row? && (e.r.ApprovalRequested? || e.r.ApprovalDecided?)
  {
    if rows != [] { RowEffectsAreRows(rows[1..]); }
  }

  lemma SeenEffectsAreApprovals(a: Approvals)
    ensures forall e :: e in SeenEffects(a) ==> IsApproval(e) && !e.Attempt? && a.Seen?
  {
    if a.Seen? { RowEffectsAreRows(a.rows); }
  }

  lemma NoneIn(trace: seq<Effect>, e: Effect)
    requires e !in trace
    ensures multiset(trace)[e] == 0
  {
  }

  lemma Members(a: seq<Effect>, b: seq<Effect>)
    ensures forall e :: e in a + b <==> e in a || e in b
  {
  }

  lemma CallMembers(call: Call, rpc: Rpc)
    ensures forall e :: e in CallEffects(call, rpc) ==> e == Attempt(call) || e == Acked(call) || e == Declined(call) || (IsApproval(e) && rpc.Seen().Seen?)
  {
    var reply := ReplyEffects(call, rpc.End());
    SeenEffectsAreApprovals(rpc.Seen());
    Members(AttemptOf(call, rpc.Offered()) + SeenEffects(rpc.Seen()), reply);
    Members(AttemptOf(call, rpc.Offered()), SeenEffects(rpc.Seen()));
  }

  lemma SeenAttempts(a: Approvals, c: Call)
    ensures multiset(SeenEffects(a))[Attempt(c)] == 0
  {
    SeenEffectsAreApprovals(a);
    NoneIn(SeenEffects(a), Attempt(c));
  }

  lemma CallAttempts(call: Call, rpc: Rpc, c: Call)
    ensures multiset(CallEffects(call, rpc))[Attempt(c)] <= if c == call then 1 else 0
  {
    var reply := ReplyEffects(call, rpc.End());
    SeenAttempts(rpc.Seen(), c);
    assert multiset(CallEffects(call, rpc)) == multiset(AttemptOf(call, rpc.Offered())) + multiset(SeenEffects(rpc.Seen())) + multiset(reply);
  }

  lemma CarefulExtends(p: Progress, q: Progress, more: seq<Effect>)
    requires Careful(p) && q.trace == p.trace + more && (p.seen ==> q.seen)
    requires q.seen || forall e :: e in more ==> !IsApproval(e)
    requires q.error == Some(Desync) ==> !q.seen && NoStarts(p) && forall e :: e in more ==> !IsStart(e)
    ensures Careful(q)
  {
    Members(p.trace, more);
  }

  lemma NoStartsExtends(p: Progress, q: Progress, more: seq<Effect>)
    requires NoStarts(p) && q.trace == p.trace + more && forall e :: e in more ==> !IsStart(e)
    ensures NoStarts(q)
  {
    Members(p.trace, more);
  }

  lemma CalledIsCareful(p: Progress, call: Call, rpc: Rpc, strict: bool)
    requires Careful(p) && (strict || (NoStarts(p) && call != ThreadStart && call != TurnStart))
    ensures Careful(Called(p, call, rpc, strict))
    ensures !strict ==> NoStarts(Called(p, call, rpc, strict))
  {
    if p.error.None? {
      var q, more := Called(p, call, rpc, strict), CallEffects(call, rpc);
      CallMembers(call, rpc);
      CarefulExtends(p, q, more);
      if !strict { NoStartsExtends(p, q, more); }
    }
  }

  lemma CalledStarts(p: Progress, call: Call, rpc: Rpc, strict: bool, c: Call)
    ensures Starts(Called(p, call, rpc, strict), c) <= Starts(p, c) + if c == call then 1 else 0
  {
    CallAttempts(call, rpc, c);
  }

  /** Steps that add rows other than approvals, or notifications. */
  lemma AlsoIsCareful(p: Progress, journal: bool, append: Append, r: Record)
    requires Careful(p) && !r.ApprovalRequested? && !r.ApprovalDecided?
    ensures Careful(Also(p, journal, append, r))
    ensures NoStarts(p) ==> NoStarts(Also(p, journal, append, r))
    ensures forall c :: Starts(Also(p, journal, append, r), c) == Starts(p, c)
  {
    forall c ensures multiset(Rows(append, r))[Attempt(c)] == 0 { NoneIn(Rows(append, r), Attempt(c)); }
  }

  lemma AwaitedIsCareful(p: Progress, w: Wait)
    requires Careful(p)
    ensures Careful(Awaited(p, w))
    ensures forall c :: Starts(Awaited(p, w), c) == Starts(p, c)
  {
    SeenEffectsAreApprovals(w.approvals);
    forall c ensures multiset(SeenEffects(w.approvals))[Attempt(c)] == 0 { NoneIn(SeenEffects(w.approvals), Attempt(c)); }
  }

  lemma AdmittedIsCareful(execution: string, journal: bool, p: Progress, w: World)
    requires Careful(p) && NoStarts(p)
    ensures Careful(Admitted(execution, journal, p, w)) && NoStarts(Admitted(execution, journal, p, w))
  {
    var a := Called(p, Initialize, w.initialize, false);
    var b := Called(a, AccountRead, w.account, false);
    var c := Called(b, ModelList, w.models, false);
    var d := Called(c, RateLimits, w.limits, false);
    CalledIsCareful(p, Initialize, w.initialize, false);
    CalledIsCareful(a, AccountRead, w.account, false);
    CalledIsCareful(b, ModelList, w.models, false);
    CalledIsCareful(c, RateLimits, w.limits, false);
    AlsoIsCareful(d, journal, w.snapshotRow, RateLimitSnapshot(execution, w.snapshot));
  }

  /** At most one attempt at each start, and a restart cue only before them. */
  ghost predicate AtMostOnce(p: Progress) {
    Careful(p) && Starts(p, ThreadStart) <= 1 && Starts(p, TurnStart) <= 1
  }

  lemma StartedAtMostOnce(execution: string, journal: bool, p: Progress, w: World)
    requires Careful(p) && NoStarts(p)
    ensures AtMostOnce(Started(execution, journal, p, w))
  {
    var a := Called(p, ThreadStart, w.thread, true);
    var b := Called(a, TurnStart, w.turn, true);
    NoneIn(p.trace, Attempt(ThreadStart));
    NoneIn(p.trace, Attempt(TurnStart));
    CalledIsCareful(p, ThreadStart, w.thread, true);
    CalledIsCareful(a, TurnStart, w.turn, true);
    CalledStarts(p, ThreadStart, w.thread, true, ThreadStart);
    CalledStarts(a, TurnStart, w.turn, true, ThreadStart);
    CalledStarts(p, ThreadStart, w.thread, true, TurnStart);
    CalledStarts(a, TurnStart, w.turn, true, TurnStart);
    AlsoIsCareful(b, journal, w.turnRow, TurnStarted(execution, w.turnId));
  }

  lemma FinishedAtMostOnce(execution: string, journal: bool, p: Progress, w: World)
    requires AtMostOnce(p)
    ensures AtMostOnce(Finished(execution, journal, p, w))
  {
    AwaitedIsCareful(p, w.wait);
    AlsoIsCareful(Awaited(p, w.wait), journal, w.turnEndRow, TurnEnded(execution, w.turnId, TurnEndOf(StatusOf(w.wait))));
  }

  lemma BodyAtMostOnce(execution: string, journal: bool, p: Progress, w: World)
    requires Careful(p) && NoStarts(p)
    ensures AtMostOnce(Body(execution, journal, p, w))
  {
    var a := Admitted(execution, journal, p, w);
    AdmittedIsCareful(execution, journal, p, w);
    StartedAtMostOnce(execution, journal, a, w);
    FinishedAtMostOnce(execution, journal, Started(execution, journal, a, w), w);
  }

  lemma InternalIsCareful(p: Progress, rows: seq<ApprovalRow>, ok: bool)
    requires AtMostOnce(p) && p.seen
    ensures AtMostOnce(Progress(p.trace + RowEffects(rows), true, Retain(p.error, ok, JournalLost)))
  {
    RowEffectsAreRows(rows);
    NoneIn(RowEffects(rows), Attempt(ThreadStart));
    NoneIn(RowEffects(rows), Attempt(TurnStart));
  }

  lemma AlsoAtMostOnce(p: Progress, journal: bool, append: Append, r: Record)
    requires AtMostOnce(p) && !r.ApprovalRequested? && !r.ApprovalDecided?
    ensures AtMostOnce(Also(p, journal, append, r))
  {
    AlsoIsCareful(p, journal, append, r);
  }

  lemma ConcludedAtMostOnce(execution: string, journal: bool, p: Progress, w: World)
    requires AtMostOnce(p)
    ensures AtMostOnce(Concluded(execution, journal, p, w))
  {
    var told := if journal && p.seen then Progress(p.trace + RowEffects(w.internal), true, Retain(p.error, w.internalOk, JournalLost)) else p;
    if p.seen { InternalIsCareful(p, w.internal, w.internalOk); }
    var status := if told.error.None? then ExecutionEnd.Completed else ExecutionEnd.Failed;
    var completed := Also(told, journal, w.endRow, ExecutionCompleted(execution, status));
    AlsoAtMostOnce(told, journal, w.endRow, ExecutionCompleted(execution, status));
    AlsoAtMostOnce(completed, journal, w.incidentRow, Incident(Some(execution), "flow_error", "suppressed"));
  }

  lemma ExecuteAtMostOnce(execution: string, journal: bool, w: World)
    ensures AtMostOnce(ExecuteOnce(execution, journal, w))
  {
    var begun := Also(START, journal, w.started, ExecutionStarted(execution));
    AlsoIsCareful(START, journal, w.started, ExecutionStarted(execution));
    NoneIn(begun.trace, Attempt(ThreadStart));
    NoneIn(begun.trace, Attempt(TurnStart));
    BodyAtMostOnce(execution, journal, begun, w);
    ConcludedAtMostOnce(execution, journal, Body(execution, journal, begun, w), w);
  }

  lemma Together(a: seq<Effect>, b: seq<Effect>, e: Effect)
    ensures multiset(a + b)[e] == multiset(a)[e] + multiset(b)[e]
  {
  }

  lemma AttemptsAtMostOnce(once: Progress, twice: Progress, call: Call)
    requires AtMostOnce(once) && AtMostOnce(twice) && (call == ThreadStart || call == TurnStart)
    ensures once.error == Some(Desync) ==> multiset(once.trace + twice.trace)[Attempt(call)] <= 1
    ensures multiset(once.trace + [])[Attempt(call)] <= 1
  {
    if once.error == Some(Desync) {
      NoneIn(once.trace, Attempt(call));
      Together(once.trace, twice.trace, Attempt(call));
    }
    Together(once.trace, [], Attempt(call));
  }

  /** No replay. Over both executions there is at most one attempt to start a
      thread and one to start a turn; and there is a second execution only if the
      first attempted neither and saw and recorded no approval. */
  lemma NoReplay(first: string, second: string, journal: bool, w: World, again: World)
    ensures var a := WithRestart(first, second, journal, w, again);
            && multiset(Whole(a))[Attempt(ThreadStart)] <= 1
            && multiset(Whole(a))[Attempt(TurnStart)] <= 1
            && (a.second.Some? ==> Untouched(a.first.trace))
  {
    var once, twice := ExecuteOnce(first, journal, w), ExecuteOnce(second, journal, again);
    ExecuteAtMostOnce(first, journal, w);
    ExecuteAtMostOnce(second, journal, again);
    AttemptsAtMostOnce(once, twice, ThreadStart);
    AttemptsAtMostOnce(once, twice, TurnStart);
  }
}
