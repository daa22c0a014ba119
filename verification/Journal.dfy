/** The append-only journal: its records, the restart projection and the
    recovery records a startup appends (src/journal.rs, persist_recovery in
    src/orchestrator.rs). The log is the sequence of durable rows. */
module Journal {
  import opened Text
  import opened Ordering
  import opened Json

  datatype ExecutionEnd = Completed | Interrupted | Failed
  datatype TurnEnd = TurnCompleted | TurnFailed | TurnInterrupted
  datatype ApprovalEnd = Allowed | Denied | TimedOut

  datatype Record =
    | ExecutionStarted(execution: string)
    | ExecutionCompleted(execution: string, status: ExecutionEnd)
    | TurnStarted(execution: string, turn: string)
    | TurnEnded(execution: string, turn: string, turnStatus: TurnEnd)
    | ApprovalRequested(execution: string, key: string, action: string)
    | ApprovalDecided(execution: string, key: string, action: string, decision: ApprovalEnd)
    | RecoveryExecutionUnknown(execution: string)
    | RecoveryApprovalDenied(execution: string, key: string, action: string)
    | Incident(scope: Option<string>, class_: string, message: string)
    | RateLimitSnapshot(execution: string, snapshot: Json)

  /** An append that is not acknowledged may or may not be durable. */
  datatype Append = Acknowledged | DurableOnly | Lost

  datatype ExecutionState = Ended(status: ExecutionEnd) | UnknownAfterRestart
  datatype ApprovalState = Decided(decision: ApprovalEnd) | DeniedOnRestart

  datatype Projection = Projection(
    executions: map<string, ExecutionState>,
    approvals: map<string, ApprovalState>,
    unresolvedExecutions: seq<string>,
    unresolvedApprovals: seq<string>)

  // ---------------------------------------------------------------------------
  // What a log says about one id: its last mark, and its last settled state.
  // Executions and approvals are two ledgers read off the same log.

  datatype Mark<S> = Opens | Settles(state: S)
  datatype Entry<S> = Entry(id: string, mark: Mark<S>)

  function ExecutionEntry(r: Record): Option<Entry<ExecutionState>> {
    match r
    case ExecutionStarted(id) => Some(Entry(id, Opens))
    case ExecutionCompleted(id, status) => Some(Entry(id, Settles(Ended(status))))
    case RecoveryExecutionUnknown(id) => Some(Entry(id, Settles(UnknownAfterRestart)))
    case _ => None
  }

  function ApprovalEntry(r: Record): Option<Entry<ApprovalState>> {
    match r
    case ApprovalRequested(_, key, _) => Some(Entry(key, Opens))
    case ApprovalDecided(_, key, _, decision) => Some(Entry(key, Settles(Decided(decision))))
    case RecoveryApprovalDenied(_, key, _) => Some(Entry(key, Settles(DeniedOnRestart)))
    case _ => None
  }

  function Add<S>(ledger: seq<Entry<S>>, e: Option<Entry<S>>): seq<Entry<S>> {
    if e.None? then ledger else ledger + [e.value]
  }

  function Executions(log: seq<Record>): seq<Entry<ExecutionState>> {
    if log == [] then [] else Add(Executions(log[..|log| - 1]), ExecutionEntry(log[|log| - 1]))
  }

  function Approvals(log: seq<Record>): seq<Entry<ApprovalState>> {
    if log == [] then [] else Add(Approvals(log[..|log| - 1]), ApprovalEntry(log[|log| - 1]))
  }

  ghost function Mentioned<S>(ledger: seq<Entry<S>>): set<string> {
    set e | e in ledger :: e.id
  }

  /** The last mark for `id` opens it: nothing after that mark mentions `id`. */
  ghost predicate IsOpen<S>(ledger: seq<Entry<S>>, id: string) {
    exists i :: 0 <= i < |ledger| && ledger[i] == Entry(id, Opens)
      && forall j :: i < j < |ledger| ==> ledger[j].id != id
  }

  ghost function OpenIds<S>(ledger: seq<Entry<S>>): set<string> {
    set id | id in Mentioned(ledger) && IsOpen(ledger, id)
  }

  /** The state of the last settling mark for `id`, if it was ever settled. */
  function Settled<S>(ledger: seq<Entry<S>>, id: string): Option<S> {
    if ledger == [] then None
    else
      var last := ledger[|ledger| - 1];
      if last.id == id && last.mark.Settles? then Some(last.mark.state)
      else Settled(ledger[..|ledger| - 1], id)
  }

  /** The projection a log stands for. */
  ghost function Projected(log: seq<Record>): Projection {
    var ex, ap := Executions(log), Approvals(log);
    Projection(States(ex, UnknownAfterRestart), States(ap, DeniedOnRestart), Sorted(OpenIds(ex)), Sorted(OpenIds(ap)))
  }

  /** Appending an entry only moves the id it names. */
  lemma AppendEntry<S>(ledger: seq<Entry<S>>, e: Entry<S>)
    ensures Mentioned(ledger + [e]) == Mentioned(ledger) + {e.id}
    ensures OpenIds(ledger + [e]) == if e.mark.Opens? then OpenIds(ledger) + {e.id} else OpenIds(ledger) - {e.id}
    ensures forall id :: Settled(ledger + [e], id)
                         == if id == e.id && e.mark.Settles? then Some(e.mark.state) else Settled(ledger, id)
  {
    var next := ledger + [e];
    assert next[..|ledger|] == ledger;
    forall x ensures x in next <==> x in ledger || x == e { }
    forall id ensures IsOpen(next, id) == if id == e.id then e.mark.Opens? else IsOpen(ledger, id) {
      if id == e.id {
        assert next[|ledger|] == e;
      } else {
        if IsOpen(ledger, id) {
          var i :| 0 <= i < |ledger| && ledger[i] == Entry(id, Opens) && forall j :: i < j < |ledger| ==> ledger[j].id != id;
          assert next[i] == Entry(id, Opens);
        }
        if IsOpen(next, id) {
          var i :| 0 <= i < |next| && next[i] == Entry(id, Opens) && forall j :: i < j < |next| ==> next[j].id != id;
          assert ledger[i] == Entry(id, Opens);
          forall j | i < j < |ledger| ensures ledger[j].id != id { assert next[j].id != id; }
        }
      }
    }
  }

  // ---------------------------------------------------------------------------
  // The projection loop.

  /** Reads every row in order, keeping per-id state in maps (`None` until
      first settled) and the open ids in sets. */
  method ProjectRecovery(log: seq<Record>) returns (p: Projection)
    ensures p == Projected(log)
  {
    var executions: map<string, Option<ExecutionState>> := map[];
    var approvals: map<string, Option<ApprovalState>> := map[];
    var openExecutions: set<string> := {};
    var openApprovals: set<string> := {};
    var n := 0;
    assert log[..0] == [];
    while n < |log|
      invariant 0 <= n <= |log|
      invariant Tracks(Executions(log[..n]), executions, openExecutions)
      invariant Tracks(Approvals(log[..n]), approvals, openApprovals)
    {
      var r := log[n];
      TrackRecord(log, n, executions, openExecutions, approvals, openApprovals);
      executions, openExecutions, approvals, openApprovals :=
        NoteRecord(r, executions, openExecutions, approvals, openApprovals);
      n := n + 1;
    }
    assert log[..n] == log;
    var unresolvedExecutions := Iterate(openExecutions);
    var unresolvedApprovals := Iterate(openApprovals);
    p := Projection(
      Filled(executions, UnknownAfterRestart),
      Filled(approvals, DeniedOnRestart),
      unresolvedExecutions,
      unresolvedApprovals);
  }

  /** One row of the projection loop: a start or request opens its id and keeps
      an earlier settled state; a terminal record settles its id. */
  method NoteRecord(r: Record,
                    executions0: map<string, Option<ExecutionState>>, openExecutions0: set<string>,
                    approvals0: map<string, Option<ApprovalState>>, openApprovals0: set<string>)
    returns (executions: map<string, Option<ExecutionState>>, openExecutions: set<string>,
             approvals: map<string, Option<ApprovalState>>, openApprovals: set<string>)
    ensures executions == StatesAfter(executions0, ExecutionEntry(r))
    ensures openExecutions == OpenAfter(openExecutions0, ExecutionEntry(r))
    ensures approvals == StatesAfter(approvals0, ApprovalEntry(r))
    ensures openApprovals == OpenAfter(openApprovals0, ApprovalEntry(r))
  {
    executions, openExecutions := executions0, openExecutions0;
    approvals, openApprovals := approvals0, openApprovals0;
    match r {
      case ExecutionStarted(id) =>
        openExecutions := openExecutions + {id};
        executions := if id in executions then executions else executions[id := None];
      case ExecutionCompleted(id, status) =>
        openExecutions := openExecutions - {id};
        executions := executions[id := Some(Ended(status))];
      case RecoveryExecutionUnknown(id) =>
        openExecutions := openExecutions - {id};
        executions := executions[id := Some(UnknownAfterRestart)];
      case ApprovalRequested(_, key, _) =>
        openApprovals := openApprovals + {key};
        approvals := if key in approvals then approvals else approvals[key := None];
      case ApprovalDecided(_, key, _, decision) =>
        openApprovals := openApprovals - {key};
        approvals := approvals[key := Some(Decided(decision))];
      case RecoveryApprovalDenied(_, key, _) =>
        openApprovals := openApprovals - {key};
        approvals := approvals[key := Some(DeniedOnRestart)];
      case _ =>
    }
  }

  /** `state.unwrap_or(default)` on every entry. */
  function Filled<S>(states: map<string, Option<S>>, default: S): map<string, S> {
    map id | id in states :: states[id].GetOr(default)
  }

  ghost function States<S>(ledger: seq<Entry<S>>, default: S): map<string, S> {
    map id | id in Mentioned(ledger) :: Settled(ledger, id).GetOr(default)
  }

  /** The loop variables agree with the ledger read so far. */
  ghost predicate Tracks<S>(ledger: seq<Entry<S>>, states: map<string, Option<S>>, open: set<string>) {
    && open == OpenIds(ledger)
    && states.Keys == Mentioned(ledger)
    && forall id :: id in states ==> states[id] == Settled(ledger, id)
  }

  function StatesAfter<S>(states: map<string, Option<S>>, e: Option<Entry<S>>): map<string, Option<S>> {
    match e
    case None => states
    case Some(Entry(id, Opens)) => if id in states then states else states[id := None]
    case Some(Entry(id, Settles(state))) => states[id := Some(state)]
  }

  function OpenAfter<S>(open: set<string>, e: Option<Entry<S>>): set<string> {
    match e
    case None => open
    case Some(Entry(id, Opens)) => open + {id}
    case Some(Entry(id, Settles(_))) => open - {id}
  }

  lemma TrackEntry<S>(ledger: seq<Entry<S>>, states: map<string, Option<S>>, open: set<string>, e: Option<Entry<S>>)
    requires Tracks(ledger, states, open)
    ensures Tracks(Add(ledger, e), StatesAfter(states, e), OpenAfter(open, e))
  {
    if e.Some? {
      AppendEntry(ledger, e.value);
      if e.value.id !in states { NeverSettled(ledger, e.value.id); }
    }
  }

  lemma TrackRecord(log: seq<Record>, n: nat,
                    executions: map<string, Option<ExecutionState>>, openExecutions: set<string>,
                    approvals: map<string, Option<ApprovalState>>, openApprovals: set<string>)
    requires n < |log|
    requires Tracks(Executions(log[..n]), executions, openExecutions)
    requires Tracks(Approvals(log[..n]), approvals, openApprovals)
    ensures Tracks(Executions(log[..n + 1]), StatesAfter(executions, ExecutionEntry(log[n])), OpenAfter(openExecutions, ExecutionEntry(log[n])))
    ensures Tracks(Approvals(log[..n + 1]), StatesAfter(approvals, ApprovalEntry(log[n])), OpenAfter(openApprovals, ApprovalEntry(log[n])))
  {
    assert log[..n + 1] == log[..n] + [log[n]];
    TrackEntry(Executions(log[..n]), executions, openExecutions, ExecutionEntry(log[n]));
    TrackEntry(Approvals(log[..n]), approvals, openApprovals, ApprovalEntry(log[n]));
  }

  lemma {:induction false} NeverSettled<S>(ledger: seq<Entry<S>>, id: string)
    requires id !in Mentioned(ledger)
    ensures Settled(ledger, id) == None
  {
    if ledger != [] {
      var last := ledger[|ledger| - 1];
      assert last in ledger;
      forall e | e in ledger[..|ledger| - 1] ensures e in ledger { }
      NeverSettled(ledger[..|ledger| - 1], id);
    }
  }
}
