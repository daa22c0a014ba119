/** Startup recovery: the records a restart appends, and why a crash in the
    middle of appending them does no harm (src/orchestrator.rs persist_recovery,
    src/journal.rs project_recovery). */
module Recovery {
  import opened Text
  import opened Ordering
  import opened Journal

  function ExecutionRecords(ids: seq<string>): seq<Record> {
    if ids == [] then [] else [RecoveryExecutionUnknown(ids[0])] + ExecutionRecords(ids[1..])
  }

  function ApprovalRecords(keys: seq<string>): seq<Record> {
    if keys == [] then [] else [RecoveryApprovalDenied("recovery", keys[0], "unknown")] + ApprovalRecords(keys[1..])
  }

  function RecordsFor(p: Projection): seq<Record> {
    ExecutionRecords(p.unresolvedExecutions) + ApprovalRecords(p.unresolvedApprovals)
  }

  ghost function RecordsForSets(executions: set<string>, approvals: set<string>): seq<Record> {
    ExecutionRecords(Sorted(executions)) + ApprovalRecords(Sorted(approvals))
  }

  /** What a startup owes to this log. */
  ghost function Owed(log: seq<Record>): seq<Record> {
    RecordsForSets(OpenExecutions(log), OpenApprovals(log))
  }

  ghost function OpenExecutions(log: seq<Record>): set<string> { OpenIds(Executions(log)) }

  ghost function OpenApprovals(log: seq<Record>): set<string> { OpenIds(Approvals(log)) }

  // ---------------------------------------------------------------------------
  // The writer and the append loop.

  /** One serialized writer. An append the caller saw fail may still be durable. */
  class Writer {
    var rows: seq<Record>

    constructor (rows: seq<Record>)
      ensures this.rows == rows
    {
      this.rows := rows;
    }

    method Append(r: Record) returns (acknowledged: bool)
      modifies this
      ensures acknowledged ==> rows == old(rows) + [r]
      ensures !acknowledged ==> rows == old(rows) || rows == old(rows) + [r]
    {
      var durable: bool := *;
      acknowledged := *;
      if acknowledged || durable {
        rows := rows + [r];
      }
    }
  }

  /** Appends the owed records in order and stops at the first failure, so the
      log always gains a prefix of them. */
  method PersistRecovery(journal: Writer, p: Projection) returns (ok: bool, ghost appended: nat)
    modifies journal
    ensures appended <= |RecordsFor(p)|
    ensures journal.rows == old(journal.rows) + RecordsFor(p)[..appended]
    ensures ok ==> appended == |RecordsFor(p)|
  {
    ghost var all := RecordsFor(p);
    var executions, approvals := p.unresolvedExecutions, p.unresolvedApprovals;
    RecordsLength(p);
    appended := 0;
    var n := 0;
    while n < |executions|
      invariant 0 <= n <= |executions| && appended == n
      invariant journal.rows == old(journal.rows) + all[..n]
    {
      RecordAt(p, n);
      assert all[..n + 1] == all[..n] + [all[n]];
      ok := journal.Append(RecoveryExecutionUnknown(executions[n]));
      if journal.rows == old(journal.rows) + all[..n + 1] { appended := n + 1; }
      if !ok { return; }
      n := n + 1;
    }
    n := 0;
    while n < |approvals|
      invariant 0 <= n <= |approvals| && appended == |executions| + n
      invariant journal.rows == old(journal.rows) + all[..appended]
    {
      RecordAt(p, |executions| + n);
      assert all[..appended + 1] == all[..appended] + [all[appended]];
      ok := journal.Append(RecoveryApprovalDenied("recovery", approvals[n], "unknown"));
      if journal.rows == old(journal.rows) + all[..appended + 1] { appended := appended + 1; }
      if !ok { return; }
      n := n + 1;
    }
    assert all[..appended] == all;
    ok := true;
  }

  lemma {:induction false} ExecutionRecordAt(ids: seq<string>, i: nat)
    requires i < |ids|
    ensures |ExecutionRecords(ids)| == |ids| && ExecutionRecords(ids)[i] == RecoveryExecutionUnknown(ids[i])
  {
    if |ids| > 1 { ExecutionRecordAt(ids[1..], if i == 0 then 0 else i - 1); }
  }

  lemma {:induction false} ApprovalRecordAt(keys: seq<string>, i: nat)
    requires i < |keys|
    ensures |ApprovalRecords(keys)| == |keys|
    ensures ApprovalRecords(keys)[i] == RecoveryApprovalDenied("recovery", keys[i], "unknown")
  {
    if |keys| > 1 { ApprovalRecordAt(keys[1..], if i == 0 then 0 else i - 1); }
  }

  lemma RecordsLength(p: Projection)
    ensures |ExecutionRecords(p.unresolvedExecutions)| == |p.unresolvedExecutions|
    ensures |RecordsFor(p)| == |p.unresolvedExecutions| + |p.unresolvedApprovals|
  {
    if p.unresolvedExecutions != [] { ExecutionRecordAt(p.unresolvedExecutions, 0); }
    if p.unresolvedApprovals != [] { ApprovalRecordAt(p.unresolvedApprovals, 0); }
  }

  lemma RecordAt(p: Projection, i: nat)
    requires i < |p.unresolvedExecutions| + |p.unresolvedApprovals|
    ensures |RecordsFor(p)| == |p.unresolvedExecutions| + |p.unresolvedApprovals|
    ensures RecordsFor(p)[i] ==
            if i < |p.unresolvedExecutions| then RecoveryExecutionUnknown(p.unresolvedExecutions[i])
            else RecoveryApprovalDenied("recovery", p.unresolvedApprovals[i - |p.unresolvedExecutions|], "unknown")
  {
    RecordsLength(p);
    if i < |p.unresolvedExecutions| {
      ExecutionRecordAt(p.unresolvedExecutions, i);
    } else {
      ApprovalRecordAt(p.unresolvedApprovals, i - |p.unresolvedExecutions|);
    }
  }

  // ---------------------------------------------------------------------------
  // Crash convergence.

  lemma SettleExecution(log: seq<Record>, id: string)
    ensures var next := log + [RecoveryExecutionUnknown(id)];
            && OpenExecutions(next) == OpenExecutions(log) - {id}
            && Approvals(next) == Approvals(log)
  {
    AppendEntry(Executions(log), Entry(id, Settles(UnknownAfterRestart)));
  }

  lemma SettleApproval(log: seq<Record>, key: string)
    ensures var next := log + [RecoveryApprovalDenied("recovery", key, "unknown")];
            && OpenApprovals(next) == OpenApprovals(log) - {key}
            && Executions(next) == Executions(log)
  {
    AppendEntry(Approvals(log), Entry(key, Settles(DeniedOnRestart)));
  }

  lemma OwedIsProjected(log: seq<Record>)
    ensures Owed(log) == RecordsFor(Projected(log))
  {
  }

  lemma OwedAfterOne(log: seq<Record>)
    requires Owed(log) != []
    ensures Owed(log + [Owed(log)[0]]) == Owed(log)[1..]
  {
    var executions, approvals := OpenExecutions(log), OpenApprovals(log);
    if executions != {} {
      SettleExecution(log, Sorted(executions)[0]);
    } else {
      SettleApproval(log, Sorted(approvals)[0]);
    }
  }

  lemma Shift<T>(log: seq<T>, owed: seq<T>, done: nat)
    requires 0 < done <= |owed|
    ensures log + owed[..done] == log + [owed[0]] + owed[1..][..done - 1]
    ensures owed[1..][done - 1..] == owed[done..]
  {
  }

  lemma Regroup<T>(log: seq<T>, x: T, rest: seq<T>)
    ensures log + [x] + rest == log + ([x] + rest)
  {
  }

  lemma {:induction false} OwedAfterSome(log: seq<Record>, done: nat)
    requires done <= |Owed(log)|
    ensures Owed(log + Owed(log)[..done]) == Owed(log)[done..]
    decreases done
  {
    var owed := Owed(log);
    if done == 0 {
      assert log + owed[..0] == log;
    } else {
      OwedAfterOne(log);
      OwedAfterSome(log + [owed[0]], done - 1);
      Shift(log, owed, done);
    }
  }

  /** A startup that stops after any `done` of its owed records leaves exactly
      the rest owed: the next startup completes the very same list. */
  lemma CrashConvergence(log: seq<Record>, done: nat)
    requires done <= |Owed(log)|
    ensures Owed(log + Owed(log)[..done]) == Owed(log)[done..]
    ensures var cut := log + Owed(log)[..done]; cut + Owed(cut) == log + Owed(log)
  {
    OwedAfterSome(log, done);
    var owed := Owed(log);
    assert owed[..done] + owed[done..] == owed;
    assert log + owed[..done] + owed[done..] == log + (owed[..done] + owed[done..]);
  }

  /** The log after a sequence of startups, the i-th of which crashed after
      `cuts[i]` appends (or finished, if fewer were owed). */
  ghost function AfterCrashes(log: seq<Record>, cuts: seq<nat>): seq<Record>
    decreases |cuts|
  {
    if cuts == [] then log
    else
      var n := if cuts[0] <= |Owed(log)| then cuts[0] else |Owed(log)|;
      AfterCrashes(log + Owed(log)[..n], cuts[1..])
  }

  /** However many startups crash, and wherever, the first one that finishes
      leaves the log a single uninterrupted recovery would have left. */
  lemma {:induction false} ManyCrashesConverge(log: seq<Record>, cuts: seq<nat>)
    ensures var end := AfterCrashes(log, cuts); end + Owed(end) == log + Owed(log)
    decreases |cuts|
  {
    if cuts != [] {
      var n := if cuts[0] <= |Owed(log)| then cuts[0] else |Owed(log)|;
      CrashConvergence(log, n);
      ManyCrashesConverge(log + Owed(log)[..n], cuts[1..]);
    }
  }

  // ---------------------------------------------------------------------------
  // Completeness.

  /** `after` is `before` with exactly `ids` settled in `state`. */
  ghost predicate SettlesExactly<S>(before: seq<Entry<S>>, after: seq<Entry<S>>, ids: seq<string>, state: S) {
    && (forall id :: id in Mentioned(after) <==> id in Mentioned(before) || id in ids)
    && (forall id :: Settled(after, id) == if id in ids then Some(state) else Settled(before, id))
  }

  lemma SettlesOne<S>(ledger: seq<Entry<S>>, id: string, state: S)
    ensures SettlesExactly(ledger, ledger + [Entry(id, Settles(state))], [id], state)
  {
    AppendEntry(ledger, Entry(id, Settles(state)));
  }

  lemma SettlesBoth<S>(before: seq<Entry<S>>, mid: seq<Entry<S>>, after: seq<Entry<S>>, ids: seq<string>, state: S)
    requires ids != []
    requires SettlesExactly(before, mid, [ids[0]], state) && SettlesExactly(mid, after, ids[1..], state)
    ensures SettlesExactly(before, after, ids, state)
  {
    assert ids == [ids[0]] + ids[1..];
  }

  lemma SettlesOneExecution(log: seq<Record>, id: string)
    ensures var next := log + [RecoveryExecutionUnknown(id)];
            && Approvals(next) == Approvals(log)
            && SettlesExactly(Executions(log), Executions(next), [id], UnknownAfterRestart)
  {
    assert (log + [RecoveryExecutionUnknown(id)])[..|log|] == log;
    SettlesOne(Executions(log), id, UnknownAfterRestart);
  }

  lemma SettlesOneApproval(log: seq<Record>, key: string)
    ensures var next := log + [RecoveryApprovalDenied("recovery", key, "unknown")];
            && Executions(next) == Executions(log)
            && SettlesExactly(Approvals(log), Approvals(next), [key], DeniedOnRestart)
  {
    assert (log + [RecoveryApprovalDenied("recovery", key, "unknown")])[..|log|] == log;
    SettlesOne(Approvals(log), key, DeniedOnRestart);
  }

  lemma {:induction false} SettleAllExecutions(log: seq<Record>, ids: seq<string>)
    ensures Approvals(log + ExecutionRecords(ids)) == Approvals(log)
    ensures SettlesExactly(Executions(log), Executions(log + ExecutionRecords(ids)), ids, UnknownAfterRestart)
    decreases |ids|
  {
    if ids == [] {
      assert log + ExecutionRecords(ids) == log;
    } else {
      var r := RecoveryExecutionUnknown(ids[0]);
      SettlesOneExecution(log, ids[0]);
      SettleAllExecutions(log + [r], ids[1..]);
      Regroup(log, r, ExecutionRecords(ids[1..]));
      SettlesBoth(Executions(log), Executions(log + [r]), Executions(log + ExecutionRecords(ids)), ids, UnknownAfterRestart);
    }
  }

  lemma {:induction false} SettleAllApprovals(log: seq<Record>, keys: seq<string>)
    ensures Executions(log + ApprovalRecords(keys)) == Executions(log)
    ensures SettlesExactly(Approvals(log), Approvals(log + ApprovalRecords(keys)), keys, DeniedOnRestart)
    decreases |keys|
  {
    if keys == [] {
      assert log + ApprovalRecords(keys) == log;
    } else {
      var r := RecoveryApprovalDenied("recovery", keys[0], "unknown");
      SettlesOneApproval(log, keys[0]);
      SettleAllApprovals(log + [r], keys[1..]);
      Regroup(log, r, ApprovalRecords(keys[1..]));
      SettlesBoth(Approvals(log), Approvals(log + [r]), Approvals(log + ApprovalRecords(keys)), keys, DeniedOnRestart);
    }
  }

  lemma Together<T>(a: seq<T>, b: seq<T>, c: seq<T>)
    ensures a + b + c == a + (b + c)
  {
  }

  lemma SettlesAllOpen(log: seq<Record>)
    ensures SettlesExactly(Executions(log), Executions(log + Owed(log)), Sorted(OpenExecutions(log)), UnknownAfterRestart)
    ensures SettlesExactly(Approvals(log), Approvals(log + Owed(log)), Sorted(OpenApprovals(log)), DeniedOnRestart)
  {
    var ids, keys := Sorted(OpenExecutions(log)), Sorted(OpenApprovals(log));
    var mid := log + ExecutionRecords(ids);
    SettleAllExecutions(log, ids);
    SettleAllApprovals(mid, keys);
    Together(log, ExecutionRecords(ids), ApprovalRecords(keys));
  }

  /** After recovery nothing is unresolved, every id that was unresolved reads
      as its restart state, and every other id reads as before. */
  lemma RecoveryIsComplete(log: seq<Record>)
    ensures var before, after := Projected(log), Projected(log + Owed(log));
            && after.unresolvedExecutions == [] && after.unresolvedApprovals == []
            && after.executions.Keys == before.executions.Keys
            && after.approvals.Keys == before.approvals.Keys
            && (forall id :: id in after.executions ==>
                  after.executions[id] == if id in OpenExecutions(log) then UnknownAfterRestart else before.executions[id])
            && (forall k :: k in after.approvals ==>
                  after.approvals[k] == if k in OpenApprovals(log) then DeniedOnRestart else before.approvals[k])
  {
    SettlesAllOpen(log);
    StatesAfterSettling(Executions(log), Executions(log + Owed(log)), UnknownAfterRestart, UnknownAfterRestart);
    StatesAfterSettling(Approvals(log), Approvals(log + Owed(log)), DeniedOnRestart, DeniedOnRestart);
    CrashConvergence(log, |Owed(log)|);
    assert Owed(log)[..|Owed(log)|] == Owed(log);
    NothingOwed(log + Owed(log));
  }

  lemma StatesAfterSettling<S>(before: seq<Entry<S>>, after: seq<Entry<S>>, state: S, default: S)
    requires SettlesExactly(before, after, Sorted(OpenIds(before)), state)
    ensures States(after, default).Keys == States(before, default).Keys
    ensures forall id :: id in States(after, default) ==>
              States(after, default)[id] == if id in OpenIds(before) then state else States(before, default)[id]
  {
    SortedLists(OpenIds(before));
  }

  lemma NothingOwed(log: seq<Record>)
    requires Owed(log) == []
    ensures Projected(log).unresolvedExecutions == [] && Projected(log).unresolvedApprovals == []
  {
    OwedIsProjected(log);
    RecordsLength(Projected(log));
  }

  // ---------------------------------------------------------------------------
  // Where the projected map and the unresolved list disagree.

  /** Requesting an already allowed key again lists the key as unresolved while
      the projected map still says Allowed. */
  lemma ReopenedKeyStillReadsAllowed()
    ensures var log := [ApprovalRequested("e", "k", "m"), ApprovalDecided("e", "k", "m", Allowed), ApprovalRequested("e", "k", "m")];
            var p := Projected(log);
            "k" in p.unresolvedApprovals && "k" in p.approvals && p.approvals["k"] == Decided(Allowed)
  {
    var r, d := ApprovalRequested("e", "k", "m"), ApprovalDecided("e", "k", "m", Allowed);
    var log := [r, d, r];
    assert log[..2] == [r, d] && [r, d][..1] == [r] && [r][..0] == [];
    assert Approvals([r]) == [Entry("k", Opens)];
    assert Approvals([r, d]) == [Entry("k", Opens), Entry("k", Settles(Decided(Allowed)))];
    assert Approvals(log) == [Entry("k", Opens), Entry("k", Settles(Decided(Allowed))), Entry("k", Opens)];
    ReopenedLedger();
    OpenReadsUnresolved(log, "k");
  }

  lemma ReopenedLedger()
    ensures var ledger := [Entry("k", Opens), Entry("k", Settles(Decided(Allowed))), Entry("k", Opens)];
            IsOpen(ledger, "k") && Settled(ledger, "k") == Some(Decided(Allowed))
  {
    var o, c := Entry("k", Opens), Entry("k", Settles(Decided(Allowed)));
    AppendEntry([o], c);
    AppendEntry([o, c], o);
    assert [o] + [c] == [o, c] && [o, c] + [o] == [o, c, o];
    assert [o, c, o][2] == o;
  }

  lemma OpenReadsUnresolved(log: seq<Record>, key: string)
    requires IsOpen(Approvals(log), key)
    ensures key in Projected(log).unresolvedApprovals
    ensures key in Projected(log).approvals
    ensures Projected(log).approvals[key] == Settled(Approvals(log), key).GetOr(DeniedOnRestart)
  {
    SortedLists(OpenApprovals(log));
  }

  predicate Decides(r: Record, key: string) {
    r.ApprovalDecided? && r.key == key
  }

  predicate Overrules(r: Record, key: string) {
    r.RecoveryApprovalDenied? && r.key == key
  }

  /** Every decision on the key was later overruled by a recovery. */
  ghost predicate Overruled(log: seq<Record>, key: string) {
    forall i :: 0 <= i < |log| && Decides(log[i], key) ==> exists j :: i < j < |log| && Overrules(log[j], key)
  }

  lemma OverruledAfterOne(log: seq<Record>, r: Record, key: string)
    ensures Overruled(log + [r], key) <==> Overrules(r, key) || (Overruled(log, key) && !Decides(r, key))
  {
    var next := log + [r];
    assert next[|log|] == r;
    if Overruled(next, key) && !Overrules(r, key) {
      forall i | 0 <= i < |log| && Decides(log[i], key) ensures exists j :: i < j < |log| && Overrules(log[j], key) {
        assert next[i] == log[i];
        var j :| i < j < |next| && Overrules(next[j], key);
        assert next[j] == log[j];
      }
    }
    if Overruled(log, key) && !Decides(r, key) {
      forall i | 0 <= i < |next| && Decides(next[i], key) ensures exists j :: i < j < |next| && Overrules(next[j], key) {
        assert next[i] == log[i];
        var j :| i < j < |log| && Overrules(log[j], key);
        assert next[j] == log[j];
      }
    }
  }

  lemma {:induction false} OverruledReadsDenied(log: seq<Record>, key: string)
    ensures Settled(Approvals(log), key).GetOr(DeniedOnRestart) == DeniedOnRestart <==> Overruled(log, key)
  {
    if log != [] {
      var init, last := log[..|log| - 1], log[|log| - 1];
      assert log == init + [last];
      OverruledReadsDenied(init, key);
      OverruledAfterOne(init, last, key);
      if ApprovalEntry(last).Some? { AppendEntry(Approvals(init), ApprovalEntry(last).value); }
    }
  }

  /** A key the log mentions, unresolved or not, reads DeniedOnRestart exactly if
      every decision on it has a recovery denial somewhere after it; a key never
      decided is one. */
  lemma ReadsDeniedExactlyWhenOverruled(log: seq<Record>, key: string)
    ensures key in Projected(log).approvals ==>
              (Projected(log).approvals[key] == DeniedOnRestart <==> Overruled(log, key))
  {
    OverruledReadsDenied(log, key);
  }
}
