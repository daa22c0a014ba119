/** What the restart projection reads off a log (src/journal.rs
    project_recovery), said of the rows alone: which ids it knows, which it lists
    as unresolved, and what it says of each. */
module ProjectionExactly {
  import opened Text
  import opened Ordering
  import opened Journal

  // ---------------------------------------------------------------------------
  // Kinds of rows.

  type Kind = Record -> bool

  function StartsExecution(id: string): Kind {
    (r: Record) => r == ExecutionStarted(id)
  }

  function EndsExecution(id: string): Kind {
    (r: Record) => (r.ExecutionCompleted? && r.execution == id) || r == RecoveryExecutionUnknown(id)
  }

  function NamesExecution(id: string): Kind {
    (r: Record) => StartsExecution(id)(r) || EndsExecution(id)(r)
  }

  function EndsExecutionAs(id: string): ExecutionState -> Kind {
    (state: ExecutionState) => (r: Record) =>
      match state
      case Ended(status) => r == ExecutionCompleted(id, status)
      case UnknownAfterRestart => r == RecoveryExecutionUnknown(id)
  }

  function AsksApproval(key: string): Kind {
    (r: Record) => r.ApprovalRequested? && r.key == key
  }

  function EndsApproval(key: string): Kind {
    (r: Record) => (r.ApprovalDecided? || r.RecoveryApprovalDenied?) && r.key == key
  }

  function NamesApproval(key: string): Kind {
    (r: Record) => AsksApproval(key)(r) || EndsApproval(key)(r)
  }

  function EndsApprovalAs(key: string): ApprovalState -> Kind {
    (state: ApprovalState) => (r: Record) =>
      match state
      case Decided(decision) => r.ApprovalDecided? && r.key == key && r.decision == decision
      case DeniedOnRestart => r.RecoveryApprovalDenied? && r.key == key
  }

  /** The last row of some kind is at `i`. */
  ghost predicate LastAt(log: seq<Record>, i: int, kind: Kind) {
    0 <= i < |log| && kind(log[i]) && forall j :: i < j < |log| ==> !kind(log[j])
  }

  /** The last row of some kind is this one. */
  ghost predicate LastIs(log: seq<Record>, kind: Kind, which: Kind) {
    exists i :: LastAt(log, i, kind) && which(log[i])
  }

  ghost predicate Has(log: seq<Record>, kind: Kind) {
    exists i :: 0 <= i < |log| && kind(log[i])
  }

  lemma LastIsAppended(log: seq<Record>, r: Record, kind: Kind, which: Kind)
    ensures LastIs(log + [r], kind, which) <==> if kind(r) then which(r) else LastIs(log, kind, which)
  {
    var next := log + [r];
    assert next[|log|] == r;
    if kind(r) {
      if which(r) { assert LastAt(next, |log|, kind); }
    } else {
      forall i ensures LastAt(next, i, kind) <==> LastAt(log, i, kind) {
        if LastAt(next, i, kind) {
          forall j | i < j < |log| ensures !kind(log[j]) { assert next[j] == log[j]; }
        }
      }
    }
  }

  lemma HasAppended(log: seq<Record>, r: Record, kind: Kind)
    ensures Has(log + [r], kind) <==> Has(log, kind) || kind(r)
  {
    var next := log + [r];
    if Has(log, kind) {
      var i :| 0 <= i < |log| && kind(log[i]);
      assert kind(next[i]);
    }
    if kind(r) { assert kind(next[|log|]); }
  }

  /** A ledger read off a log, as far as it concerns one id. */
  ghost predicate Reads<S(!new)>(log: seq<Record>, ledger: seq<Entry<S>>, id: string, names: Kind, starts: Kind, ends: Kind, endsAs: S -> Kind) {
    && (id in Mentioned(ledger) <==> Has(log, names))
    && (id in OpenIds(ledger) <==> LastIs(log, names, starts))
    && (forall state :: Settled(ledger, id) == Some(state) <==> LastIs(log, ends, endsAs(state)))
  }

  /** The entry of a row says of the id what the row says. */
  ghost predicate Agrees<S(!new)>(r: Record, e: Option<Entry<S>>, id: string, names: Kind, starts: Kind, ends: Kind, endsAs: S -> Kind) {
    && (names(r) <==> e.Some? && e.value.id == id)
    && (names(r) ==> (starts(r) <==> e.value.mark.Opens?) && (ends(r) <==> e.value.mark.Settles?))
    && (ends(r) ==> names(r) && forall state :: endsAs(state)(r) <==> e.value.mark.state == state)
  }

  lemma ReadsOneMore<S(!new)>(log: seq<Record>, ledger: seq<Entry<S>>, r: Record, e: Option<Entry<S>>, id: string,
                        names: Kind, starts: Kind, ends: Kind, endsAs: S -> Kind)
    requires Reads(log, ledger, id, names, starts, ends, endsAs) && Agrees(r, e, id, names, starts, ends, endsAs)
    ensures Reads(log + [r], Add(ledger, e), id, names, starts, ends, endsAs)
  {
    HasAppended(log, r, names);
    LastIsAppended(log, r, names, starts);
    forall state ensures LastIs(log + [r], ends, endsAs(state)) <==> if ends(r) then endsAs(state)(r) else LastIs(log, ends, endsAs(state)) {
      LastIsAppended(log, r, ends, endsAs(state));
    }
    if e.Some? { AppendEntry(ledger, e.value); }
  }

  lemma ExecutionAgrees(r: Record, id: string)
    ensures Agrees(r, ExecutionEntry(r), id, NamesExecution(id), StartsExecution(id), EndsExecution(id), EndsExecutionAs(id))
  {
  }

  lemma ApprovalAgrees(r: Record, key: string)
    ensures Agrees(r, ApprovalEntry(r), key, NamesApproval(key), AsksApproval(key), EndsApproval(key), EndsApprovalAs(key))
  {
  }

  lemma {:induction false} ExecutionRead(log: seq<Record>, id: string)
    ensures Reads(log, Executions(log), id, NamesExecution(id), StartsExecution(id), EndsExecution(id), EndsExecutionAs(id))
  {
    if log != [] {
      var init, last := log[..|log| - 1], log[|log| - 1];
      ExecutionRead(init, id);
      assert log == init + [last];
      ExecutionAgrees(last, id);
      ReadsOneMore(init, Executions(init), last, ExecutionEntry(last), id,
                   NamesExecution(id), StartsExecution(id), EndsExecution(id), EndsExecutionAs(id));
    }
  }

  lemma {:induction false} ApprovalRead(log: seq<Record>, key: string)
    ensures Reads(log, Approvals(log), key, NamesApproval(key), AsksApproval(key), EndsApproval(key), EndsApprovalAs(key))
  {
    if log != [] {
      var init, last := log[..|log| - 1], log[|log| - 1];
      ApprovalRead(init, key);
      assert log == init + [last];
      ApprovalAgrees(last, key);
      ReadsOneMore(init, Approvals(init), last, ApprovalEntry(last), key,
                   NamesApproval(key), AsksApproval(key), EndsApproval(key), EndsApprovalAs(key));
    }
  }

  /** What a map says of an id that some rows name: what the last ending row says,
      or the default if there is none. */
  ghost predicate Says<S(!new)>(log: seq<Record>, states: map<string, S>, id: string, default: S, ends: Kind, endsAs: S -> Kind) {
    id in states ==>
      forall state :: states[id] == state <==> LastIs(log, ends, endsAs(state)) || (state == default && !Has(log, ends))
  }

  lemma StateSays<S(!new)>(log: seq<Record>, ledger: seq<Entry<S>>, id: string, default: S, names: Kind, starts: Kind, ends: Kind, endsAs: S -> Kind)
    requires Reads(log, ledger, id, names, starts, ends, endsAs)
    requires forall r :: ends(r) ==> exists state :: endsAs(state)(r)
    ensures Says(log, States(ledger, default), id, default, ends, endsAs)
  {
    SomeLast(log, ends);
    if Has(log, ends) {
      var i :| LastAt(log, i, ends);
      var state :| endsAs(state)(log[i]);
      assert LastIs(log, ends, endsAs(state));
    }
  }

  lemma EndedSomehow(id: string)
    ensures forall r :: EndsExecution(id)(r) ==> exists state :: EndsExecutionAs(id)(state)(r)
  {
    forall r | EndsExecution(id)(r) ensures exists state :: EndsExecutionAs(id)(state)(r) {
      assert EndsExecutionAs(id)(if r.ExecutionCompleted? then Ended(r.status) else UnknownAfterRestart)(r);
    }
  }

  lemma DecidedSomehow(key: string)
    ensures forall r :: EndsApproval(key)(r) ==> exists state :: EndsApprovalAs(key)(state)(r)
  {
    forall r | EndsApproval(key)(r) ensures exists state :: EndsApprovalAs(key)(state)(r) {
      assert EndsApprovalAs(key)(if r.ApprovalDecided? then Decided(r.decision) else DeniedOnRestart)(r);
    }
  }

  /** An execution is known exactly if a row names it, listed exactly if the last
      such row starts it, and has the state its last ending row gives, or is
      unknown if none does. */
  lemma ExecutionsExactly(log: seq<Record>, id: string)
    ensures id in Projected(log).executions <==> Has(log, NamesExecution(id))
    ensures id in Projected(log).unresolvedExecutions <==> LastIs(log, NamesExecution(id), StartsExecution(id))
    ensures Says(log, Projected(log).executions, id, UnknownAfterRestart, EndsExecution(id), EndsExecutionAs(id))
  {
    ExecutionRead(log, id);
    SortedLists(OpenIds(Executions(log)));
    EndedSomehow(id);
    StateSays(log, Executions(log), id, UnknownAfterRestart, NamesExecution(id), StartsExecution(id), EndsExecution(id), EndsExecutionAs(id));
  }

  /** The same of an approval: asked for, decided, or denied on restart. */
  lemma ApprovalsExactly(log: seq<Record>, key: string)
    ensures key in Projected(log).approvals <==> Has(log, NamesApproval(key))
    ensures key in Projected(log).unresolvedApprovals <==> LastIs(log, NamesApproval(key), AsksApproval(key))
    ensures Says(log, Projected(log).approvals, key, DeniedOnRestart, EndsApproval(key), EndsApprovalAs(key))
  {
    ApprovalRead(log, key);
    SortedLists(OpenIds(Approvals(log)));
    DecidedSomehow(key);
    StateSays(log, Approvals(log), key, DeniedOnRestart, NamesApproval(key), AsksApproval(key), EndsApproval(key), EndsApprovalAs(key));
  }

  lemma {:induction false} SomeLast(log: seq<Record>, kind: Kind)
    ensures Has(log, kind) <==> exists i :: LastAt(log, i, kind)
  {
    if log != [] {
      var init, last := log[..|log| - 1], log[|log| - 1];
      assert log == init + [last];
      SomeLast(init, kind);
      HasAppended(init, last, kind);
      LastIsAppended(init, last, kind, r => true);
    }
  }
}
