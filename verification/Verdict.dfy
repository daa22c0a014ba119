/** How the owner reads the end of a run off its summary line (src/api.rs
    owner_finished; src/orchestrator.rs
    run_turn_with_launcher_controlled_with_journal). The status in the line is the
    server's own text, so the owner and the journal need not agree. */
module Verdict {
  import opened Text
  import Journal
  import Control
  import Owner

  const KEY := "turn_status="
  const COMPLETED := KEY + "completed"
  const INTERRUPTED := KEY + "interrupted"

  function Heading(live: bool): string {
    "run: mode=" + (if live then "live" else "offline") + " model=gpt-5.3-codex-spark "
  }

  function Summary(live: bool, status: string): string {
    Heading(live) + KEY + status
  }

  /** What the owner makes of a run that returned a summary. */
  function ReadSummary(summary: string): Owner.RunResult {
    if Contains(summary, COMPLETED) then Owner.RunCompleted(summary)
    else if Contains(summary, INTERRUPTED) then Owner.RunInterrupted
    else Owner.RunRejected
  }

  /** Every 't' is followed by '-', so the key cannot start here. */
  ghost predicate NoStart(head: string) {
    head != "" && head[|head| - 1] != 't' && forall i :: 0 <= i < |head| - 1 && head[i] == 't' ==> head[i + 1] == '-'
  }

  lemma HeadingHasNoStart(live: bool)
    ensures NoStart(Heading(live))
  {
  }

  lemma KeyStartsOnce()
    ensures forall d :: 0 < d < |KEY| && KEY[d] == 't' ==> d + 2 < |KEY| && (KEY[d + 1] != 'u' || KEY[d + 2] != 'r')
  {
  }

  /** Where the key and a word can occur in a line: right after the heading, or
      within the status. */
  lemma OccurrenceInLine(head: string, status: string, word: string, i: nat)
    requires NoStart(head) && OccursAt(head + KEY + status, KEY + word, i)
    ensures i == |head| || i >= |head| + |KEY|
  {
    var line, m := head + KEY + status, KEY + word;
    assert m[0] == 't' && m[1] == 'u' && m[2] == 'r';
    assert line[i] == line[i..i + |m|][0] && line[i + 1] == line[i..i + |m|][1] && line[i + 2] == line[i..i + |m|][2];
    KeyStartsOnce();
  }

  lemma NamedInLine(head: string, status: string, word: string, i: nat)
    requires NoStart(head) && OccursAt(head + KEY + status, KEY + word, i)
    ensures word <= status || Contains(status, KEY + word)
  {
    var line, m := head + KEY + status, KEY + word;
    var from := |head| + |KEY|;
    OccurrenceInLine(head, status, word, i);
    if i == |head| {
      assert line[from..i + |m|] == line[i..i + |m|][|KEY|..] == word;
      assert status[..|word|] == line[from..from + |word|];
    } else {
      assert status[i - from..i - from + |m|] == line[i..i + |m|];
      assert OccursAt(status, m, i - from);
    }
  }

  lemma InSuffix(a: string, b: string, m: string, j: int)
    requires OccursAt(b, m, j)
    ensures OccursAt(a + b, m, |a| + j)
  {
    assert (a + b)[|a| + j..|a| + j + |m|] == b[j..j + |m|];
  }

  /** A summary names a word exactly if the status starts with it, or itself
      contains the key and the word. */
  lemma NamesWord(head: string, status: string, word: string)
    requires NoStart(head)
    ensures Contains(head + KEY + status, KEY + word) <==> word <= status || Contains(status, KEY + word)
  {
    var line, m := head + KEY + status, KEY + word;
    if i :| 0 <= i <= |line| && OccursAt(line, m, i) { NamedInLine(head, status, word, i); }
    if word <= status {
      assert KEY + word <= KEY + status && head + (KEY + status) == line;
      InSuffix(head, KEY + status, m, 0);
      assert OccursAt(line, m, |head|);
    }
    if j :| 0 <= j <= |status| && OccursAt(status, m, j) {
      InSuffix(head + KEY, status, m, j);
      assert OccursAt(line, m, |head + KEY| + j);
    }
  }

  /** The status reads as the word, rather than being it. */
  predicate ReadsAs(status: string, word: string) {
    word <= status || Contains(status, KEY + word)
  }

  lemma SummaryReads(live: bool, status: string)
    ensures ReadSummary(Summary(live, status)).RunCompleted? <==> ReadsAs(status, "completed")
    ensures ReadSummary(Summary(live, status)).RunInterrupted? <==> !ReadsAs(status, "completed") && ReadsAs(status, "interrupted")
  {
    HeadingHasNoStart(live);
    NamesWord(Heading(live), status, "completed");
    NamesWord(Heading(live), status, "interrupted");
  }

  /** Which end the owner's verdict stands for. */
  function EndRead(result: Owner.RunResult): Journal.ExecutionEnd {
    match result
    case RunCompleted(_) => Journal.ExecutionEnd.Completed
    case RunInterrupted => Journal.ExecutionEnd.Interrupted
    case _ => Journal.ExecutionEnd.Failed
  }

  /** The statuses the owner and the journal read alike. A turn that ended by
      itself must say "completed" or nothing that reads as completed or
      interrupted; an interrupted one must read as interrupted and not completed. */
  predicate ReadsAlike(status: string, end: Journal.ExecutionEnd) {
    match end
    case Completed => true
    case Interrupted => ReadsAs(status, "interrupted") && !ReadsAs(status, "completed")
    case Failed => !ReadsAs(status, "interrupted") && !ReadsAs(status, "completed")
  }

  /** For a run that returned a summary, the owner's verdict is the journal's end
      exactly for those statuses. */
  lemma VerdictsAgreeExactly(live: bool, status: string, end: Journal.ExecutionEnd)
    requires end == Control.EndOf(status) || end == Journal.ExecutionEnd.Interrupted
    ensures EndRead(ReadSummary(Summary(live, status))) == end <==> ReadsAlike(status, end)
  {
    SummaryReads(live, status);
  }

  /** They differ on "completed_with_errors": the owner reads Completed. */
  lemma VerdictsDiffer(live: bool)
    ensures var status := "completed_with_errors";
            EndRead(ReadSummary(Summary(live, status))) == Journal.ExecutionEnd.Completed && Control.EndOf(status) == Journal.ExecutionEnd.Failed
  {
    assert "completed" <= "completed_with_errors";
    SummaryReads(live, "completed_with_errors");
  }
}
