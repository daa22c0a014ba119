/** Journal rows as they are stored: each record is written as redacted JSON and
    read back by the projection (src/journal.rs append_record, project_recovery). */
module StoredLog {
  import opened Text
  import opened Json
  import opened Journal
  import opened Redaction

  datatype Kind =
    | KExecutionStarted | KExecutionCompleted | KTurnStarted | KTurnCompleted | KApprovalRequested
    | KApprovalDecided | KRecoveryExecutionUnknown | KRecoveryApprovalDenied | KIncident | KRateLimitSnapshot

  function KindTag(k: Kind): string {
    match k
    case KExecutionStarted => "execution_started"
    case KExecutionCompleted => "execution_completed"
    case KTurnStarted => "turn_started"
    case KTurnCompleted => "turn_completed"
    case KApprovalRequested => "approval_requested"
    case KApprovalDecided => "approval_decided"
    case KRecoveryExecutionUnknown => "recovery_execution_unknown"
    case KRecoveryApprovalDenied => "recovery_approval_denied"
    case KIncident => "incident"
    case KRateLimitSnapshot => "rate_limit_snapshot"
  }

  function KindOf(tag: string): Option<Kind> {
    if tag == "execution_started" then Some(KExecutionStarted)
    else if tag == "execution_completed" then Some(KExecutionCompleted)
    else if tag == "turn_started" then Some(KTurnStarted)
    else if tag == "turn_completed" then Some(KTurnCompleted)
    else if tag == "approval_requested" then Some(KApprovalRequested)
    else if tag == "approval_decided" then Some(KApprovalDecided)
    else if tag == "recovery_execution_unknown" then Some(KRecoveryExecutionUnknown)
    else if tag == "recovery_approval_denied" then Some(KRecoveryApprovalDenied)
    else if tag == "incident" then Some(KIncident)
    else if tag == "rate_limit_snapshot" then Some(KRateLimitSnapshot)
    else None
  }

  function ExecutionTag(s: ExecutionEnd): string {
    match s
    case Completed => "completed"
    case Interrupted => "interrupted"
    case Failed => "failed"
  }

  function ExecutionOf(tag: string): Option<ExecutionEnd> {
    if tag == "completed" then Some(Completed)
    else if tag == "interrupted" then Some(Interrupted)
    else if tag == "failed" then Some(Failed)
    else None
  }

  function TurnTag(s: TurnEnd): string {
    match s
    case TurnCompleted => "completed"
    case TurnFailed => "failed"
    case TurnInterrupted => "interrupted"
  }

  function TurnOf(tag: string): Option<TurnEnd> {
    if tag == "completed" then Some(TurnCompleted)
    else if tag == "failed" then Some(TurnFailed)
    else if tag == "interrupted" then Some(TurnInterrupted)
    else None
  }

  function DecisionTag(d: ApprovalEnd): string {
    match d
    case Allowed => "allowed"
    case Denied => "denied"
    case TimedOut => "timed_out"
  }

  function DecisionOf(tag: string): Option<ApprovalEnd> {
    if tag == "allowed" then Some(Allowed)
    else if tag == "denied" then Some(Denied)
    else if tag == "timed_out" then Some(TimedOut)
    else None
  }

  function Encode(r: Record): Json {
    match r
    case ExecutionStarted(e) => Obj(map["kind" := Str(KindTag(KExecutionStarted)), "execution_id" := Str(e)])
    case ExecutionCompleted(e, s) =>
      Obj(map["kind" := Str(KindTag(KExecutionCompleted)), "execution_id" := Str(e), "status" := Str(ExecutionTag(s))])
    case TurnStarted(e, t) => Obj(map["kind" := Str(KindTag(KTurnStarted)), "execution_id" := Str(e), "turn_id" := Str(t)])
    case TurnEnded(e, t, s) =>
      Obj(map["kind" := Str(KindTag(KTurnCompleted)), "execution_id" := Str(e), "turn_id" := Str(t), "status" := Str(TurnTag(s))])
    case ApprovalRequested(e, k, m) =>
      Obj(map["kind" := Str(KindTag(KApprovalRequested)), "execution_id" := Str(e), "request_key" := Str(k), "method" := Str(m)])
    case ApprovalDecided(e, k, m, d) =>
      Obj(map["kind" := Str(KindTag(KApprovalDecided)), "execution_id" := Str(e), "request_key" := Str(k), "method" := Str(m), "decision" := Str(DecisionTag(d))])
    case RecoveryExecutionUnknown(e) => Obj(map["kind" := Str(KindTag(KRecoveryExecutionUnknown)), "execution_id" := Str(e)])
    case RecoveryApprovalDenied(e, k, m) =>
      Obj(map["kind" := Str(KindTag(KRecoveryApprovalDenied)), "execution_id" := Str(e), "request_key" := Str(k), "method" := Str(m)])
    case Incident(e, c, m) =>
      Obj(map["kind" := Str(KindTag(KIncident)), "execution_id" := if e.None? then Null else Str(e.value), "class" := Str(c), "message" := Str(m)])
    case RateLimitSnapshot(e, s) => Obj(map["kind" := Str(KindTag(KRateLimitSnapshot)), "execution_id" := Str(e), "snapshot" := s])
  }

  /** The fields of a row, as the deserializer finds them. */
  datatype Row = Row(kind: Option<string>, execution: Option<string>, turn: Option<string>, key: Option<string>,
                     action: Option<string>, status: Option<string>, decision: Option<string>, class_: Option<string>,
                     message: Option<string>, snapshot: Option<Json>, scopeAbsent: bool)

  function Fields(v: Json): Row {
    Row(v.GetStr("kind"), v.GetStr("execution_id"), v.GetStr("turn_id"), v.GetStr("request_key"),
        v.GetStr("method"), v.GetStr("status"), v.GetStr("decision"), v.GetStr("class"),
        v.GetStr("message"), v.Get("snapshot"), v.AbsentOrNull("execution_id"))
  }

  /** What `serde_json` reads back; `None` where it would report an error. */
  function Decode(v: Json): Option<Record> {
    FromRow(Fields(v))
  }

  function FromRow(r: Row): Option<Record> {
    if r.kind.None? || KindOf(r.kind.value).None? then None
    else if r.execution.None? && !(KindOf(r.kind.value) == Some(KIncident) && r.scopeAbsent) then None
    else FromKind(KindOf(r.kind.value).value, r)
  }

  function FromKind(k: Kind, r: Row): Option<Record>
    requires r.execution.Some? || k == KIncident
  {
    match k
    case KExecutionStarted => Some(ExecutionStarted(r.execution.value))
    case KExecutionCompleted =>
      if r.status.None? || ExecutionOf(r.status.value).None? then None
      else Some(ExecutionCompleted(r.execution.value, ExecutionOf(r.status.value).value))
    case KTurnStarted => if r.turn.None? then None else Some(TurnStarted(r.execution.value, r.turn.value))
    case KTurnCompleted =>
      if r.turn.None? || r.status.None? || TurnOf(r.status.value).None? then None
      else Some(TurnEnded(r.execution.value, r.turn.value, TurnOf(r.status.value).value))
    case KApprovalRequested =>
      if r.key.None? || r.action.None? then None
      else Some(ApprovalRequested(r.execution.value, r.key.value, r.action.value))
    case KApprovalDecided =>
      if r.key.None? || r.action.None? || r.decision.None? || DecisionOf(r.decision.value).None? then None
      else Some(ApprovalDecided(r.execution.value, r.key.value, r.action.value, DecisionOf(r.decision.value).value))
    case KRecoveryExecutionUnknown => Some(RecoveryExecutionUnknown(r.execution.value))
    case KRecoveryApprovalDenied =>
      if r.key.None? || r.action.None? then None
      else Some(RecoveryApprovalDenied(r.execution.value, r.key.value, r.action.value))
    case KIncident =>
      if r.class_.None? || r.message.None? then None else Some(Incident(r.execution, r.class_.value, r.message.value))
    case KRateLimitSnapshot =>
      if r.snapshot.None? then None else Some(RateLimitSnapshot(r.execution.value, r.snapshot.value))
  }

  /** The record a redacted row still says. */
  function Clean(s: string): string { Scan(s, MARKERS) }

  function RedactedBy(r: Record, clean: string -> string, value: Json -> Json): Record {
    match r
    case ExecutionStarted(e) => ExecutionStarted(clean(e))
    case ExecutionCompleted(e, s) => ExecutionCompleted(clean(e), s)
    case TurnStarted(e, t) => TurnStarted(clean(e), clean(t))
    case TurnEnded(e, t, s) => TurnEnded(clean(e), clean(t), s)
    case ApprovalRequested(e, k, m) => ApprovalRequested(clean(e), clean(k), clean(m))
    case ApprovalDecided(e, k, m, d) => ApprovalDecided(clean(e), clean(k), clean(m), d)
    case RecoveryExecutionUnknown(e) => RecoveryExecutionUnknown(clean(e))
    case RecoveryApprovalDenied(e, k, m) => RecoveryApprovalDenied(clean(e), clean(k), clean(m))
    case Incident(e, c, m) => Incident(if e.None? then None else Some(clean(e.value)), clean(c), clean(m))
    case RateLimitSnapshot(e, s) => RateLimitSnapshot(clean(e), value(s))
  }

  function Redacted(r: Record): Record { RedactedBy(r, Clean, RedactValue) }

  lemma KindReadsBack(k: Kind)
    ensures KindOf(KindTag(k)) == Some(k)
  {
  }

  /** A row with a tag it was given and a scope reads as that kind. */
  lemma TagDecides(k: Kind, row: Row)
    requires row.kind == Some(KindTag(k)) && (row.execution.Some? || (k == KIncident && row.scopeAbsent))
    ensures FromRow(row) == FromKind(k, row)
  {
    KindReadsBack(k);
  }

  lemma EndsReadBack()
    ensures forall s :: ExecutionOf(ExecutionTag(s)) == Some(s)
    ensures forall s :: TurnOf(TurnTag(s)) == Some(s)
    ensures forall d :: DecisionOf(DecisionTag(d)) == Some(d)
  {
  }

  lemma ExecutionStartedReadsBack(r: Record)
    requires r.ExecutionStarted?
    ensures Decode(Encode(r)) == Some(r)
  {
    var v := Encode(r);
    assert v.GetStr("execution_id") == Some(r.execution);
    TagDecides(KExecutionStarted, Fields(v));
  }

  lemma RecoveryExecutionUnknownReadsBack(r: Record)
    requires r.RecoveryExecutionUnknown?
    ensures Decode(Encode(r)) == Some(r)
  {
    var v := Encode(r);
    assert v.GetStr("execution_id") == Some(r.execution);
    TagDecides(KRecoveryExecutionUnknown, Fields(v));
  }

  lemma ExecutionCompletedReadsBack(r: Record)
    requires r.ExecutionCompleted?
    ensures Decode(Encode(r)) == Some(r)
  {
    var v := Encode(r);
    assert v.GetStr("execution_id") == Some(r.execution);
    assert v.GetStr("status") == Some(ExecutionTag(r.status));
    TagDecides(KExecutionCompleted, Fields(v));
    EndsReadBack();
  }

  lemma TurnStartedReadsBack(r: Record)
    requires r.TurnStarted?
    ensures Decode(Encode(r)) == Some(r)
  {
    var v := Encode(r);
    assert v.GetStr("execution_id") == Some(r.execution);
    assert v.GetStr("turn_id") == Some(r.turn);
    TagDecides(KTurnStarted, Fields(v));
  }

  lemma RateLimitSnapshotReadsBack(r: Record)
    requires r.RateLimitSnapshot?
    ensures Decode(Encode(r)) == Some(r)
  {
    var v := Encode(r);
    assert v.GetStr("execution_id") == Some(r.execution);
    assert v.Get("snapshot") == Some(r.snapshot);
    TagDecides(KRateLimitSnapshot, Fields(v));
  }

  lemma TurnEndedReadsBack(r: Record)
    requires r.TurnEnded?
    ensures Decode(Encode(r)) == Some(r)
  {
    var v := Encode(r);
    assert v.GetStr("execution_id") == Some(r.execution);
    assert v.GetStr("turn_id") == Some(r.turn);
    assert v.GetStr("status") == Some(TurnTag(r.turnStatus));
    TagDecides(KTurnCompleted, Fields(v));
    EndsReadBack();
  }

  lemma ApprovalRequestedReadsBack(r: Record)
    requires r.ApprovalRequested?
    ensures Decode(Encode(r)) == Some(r)
  {
    var v := Encode(r);
    assert v.GetStr("execution_id") == Some(r.execution);
    assert v.GetStr("request_key") == Some(r.key);
    assert v.GetStr("method") == Some(r.action);
    TagDecides(KApprovalRequested, Fields(v));
  }

  lemma RecoveryApprovalDeniedReadsBack(r: Record)
    requires r.RecoveryApprovalDenied?
    ensures Decode(Encode(r)) == Some(r)
  {
    var v := Encode(r);
    assert v.GetStr("execution_id") == Some(r.execution);
    assert v.GetStr("request_key") == Some(r.key);
    assert v.GetStr("method") == Some(r.action);
    TagDecides(KRecoveryApprovalDenied, Fields(v));
  }

  lemma ApprovalDecidedReadsBack(r: Record)
    requires r.ApprovalDecided?
    ensures Decode(Encode(r)) == Some(r)
  {
    var v := Encode(r);
    assert v.GetStr("execution_id") == Some(r.execution);
    assert v.GetStr("request_key") == Some(r.key);
    assert v.GetStr("method") == Some(r.action);
    assert v.GetStr("decision") == Some(DecisionTag(r.decision));
    TagDecides(KApprovalDecided, Fields(v));
    EndsReadBack();
  }

  lemma IncidentReadsBack(r: Record)
    requires r.Incident?
    ensures Decode(Encode(r)) == Some(r)
  {
    var v := Encode(r);
    assert v.GetStr("execution_id") == r.scope;
    assert v.GetStr("class") == Some(r.class_);
    assert v.GetStr("message") == Some(r.message);
    TagDecides(KIncident, Fields(v));
  }

  /** An unredacted row reads back as the record it was written from. */
  lemma RowReadsBack(r: Record)
    ensures Decode(Encode(r)) == Some(r)
  {
    match r
    case ExecutionStarted(_) => ExecutionStartedReadsBack(r);
    case RecoveryExecutionUnknown(_) => RecoveryExecutionUnknownReadsBack(r);
    case ExecutionCompleted(_, _) => ExecutionCompletedReadsBack(r);
    case TurnStarted(_, _) => TurnStartedReadsBack(r);
    case RateLimitSnapshot(_, _) => RateLimitSnapshotReadsBack(r);
    case TurnEnded(_, _, _) => TurnEndedReadsBack(r);
    case ApprovalRequested(_, _, _) => ApprovalRequestedReadsBack(r);
    case RecoveryApprovalDenied(_, _, _) => RecoveryApprovalDeniedReadsBack(r);
    case ApprovalDecided(_, _, _, _) => ApprovalDecidedReadsBack(r);
    case Incident(_, _, _) => IncidentReadsBack(r);
  }

  // ---------------------------------------------------------------------------
  // Redaction keeps every row readable.

  lemma OccurrenceLetters(s: string, p: string, i: int)
    requires OccursAt(s, p, i)
    ensures forall c :: c in p ==> c in s
  {
    assert forall c :: c in s[i..i + |p|] ==> c in s;
  }

  lemma LacksLetter(s: string, p: string, c: char)
    requires c in p && c !in s
    ensures !Contains(s, p)
  {
    forall i | 0 <= i <= |s| ensures !OccursAt(s, p, i) {
      if OccursAt(s, p, i) { OccurrenceLetters(s, p, i); }
    }
  }

  lemma NotSensitive(k: string, a: char, b: char)
    requires forall c :: c in k ==> !('A' <= c <= 'Z')
    requires a in "token" && a !in k
    requires b in "secret" && b !in k
    requires 'w' !in k && 'z' !in k
    requires k !in ["key", "api_key", "apikey", "access_key"]
    ensures !SensitiveKey(k)
  {
    assert Lower(k) == k by {
      forall i | 0 <= i < |k| ensures Lower(k)[i] == k[i] { assert k[i] in k; }
    }
    LacksLetter(k, "token", a);
    LacksLetter(k, "secret", b);
    assert "password"[4] == 'w' && "authorization"[7] == 'z';
    LacksLetter(k, "password", 'w');
    LacksLetter(k, "authorization", 'z');
  }

  lemma LettersOfSensitiveWords()
    ensures 'o' in "token" && 'k' in "token"
    ensures 's' in "secret" && 'c' in "secret" && 'r' in "secret"
  {
    assert "token"[1] == 'o' && "token"[2] == 'k';
    assert "secret"[0] == 's' && "secret"[2] == 'c' && "secret"[3] == 'r';
  }

  lemma TagFieldsAreKept()
    ensures !SensitiveKey("kind") && !SensitiveKey("status") && !SensitiveKey("decision")
  {
    LettersOfSensitiveWords();
    NotSensitive("kind", 'o', 's');
    NotSensitive("status", 'k', 'r');
    NotSensitive("decision", 'k', 'r');
  }

  lemma IdFieldsAreKept()
    ensures !SensitiveKey("execution_id") && !SensitiveKey("turn_id") && !SensitiveKey("request_key")
  {
    LettersOfSensitiveWords();
    NotSensitive("execution_id", 'k', 's');
    NotSensitive("turn_id", 'k', 's');
    NotSensitive("request_key", 'o', 'c');
  }

  lemma TextFieldsAreKept()
    ensures !SensitiveKey("method") && !SensitiveKey("class") && !SensitiveKey("message") && !SensitiveKey("snapshot")
  {
    LettersOfSensitiveWords();
    NotSensitive("method", 'k', 's');
    NotSensitive("class", 'k', 'r');
    NotSensitive("message", 'k', 'r');
    NotSensitive("snapshot", 'k', 'r');
  }

  lemma TagIsKept(tag: string)
    requires '-' !in tag && 'B' !in tag && 'g' !in tag
    ensures Clean(tag) == tag
  {
    NoMarkerIn(tag);
    ScanOfMarkerFree(tag);
  }

  lemma LifecycleTagsAreKept(tag: string)
    requires tag in ["execution_started", "execution_completed", "turn_started", "turn_completed", "incident"]
    ensures Clean(tag) == tag
  {
    TagIsKept(tag);
  }

  lemma ApprovalTagsAreKept(tag: string)
    requires tag in ["approval_requested", "approval_decided", "rate_limit_snapshot"]
    ensures Clean(tag) == tag
  {
    TagIsKept(tag);
  }

  lemma RecoveryTagsAreKept(tag: string)
    requires tag in ["recovery_execution_unknown", "recovery_approval_denied"]
    ensures Clean(tag) == tag
  {
    TagIsKept(tag);
  }

  lemma StatusTagsAreKept(tag: string)
    requires tag in ["completed", "interrupted", "failed", "allowed", "denied", "timed_out"]
    ensures Clean(tag) == tag
  {
    TagIsKept(tag);
  }

  lemma KindTagsAreKept(tag: string)
    ensures KindOf(tag).Some? ==> Clean(tag) == tag
  {
    match KindOf(tag)
    case None =>
    case Some(k) =>
      if k in [KExecutionStarted, KExecutionCompleted, KTurnStarted, KTurnCompleted, KIncident] {
        LifecycleTagsAreKept(tag);
      } else if k in [KRecoveryExecutionUnknown, KRecoveryApprovalDenied] {
        RecoveryTagsAreKept(tag);
      } else {
        ApprovalTagsAreKept(tag);
      }
  }

  lemma EndTagsAreKept(tag: string)
    ensures ExecutionOf(tag).Some? || TurnOf(tag).Some? || DecisionOf(tag).Some? ==> Clean(tag) == tag
  {
    if ExecutionOf(tag).Some? || TurnOf(tag).Some? || DecisionOf(tag).Some? { StatusTagsAreKept(tag); }
  }

  lemma FieldIsRedacted(v: Json, k: string)
    requires !SensitiveKey(k)
    ensures RedactValue(v).Get(k) == if v.Get(k).None? then None else Some(RedactValue(v.Get(k).value))
    ensures RedactValue(v).GetStr(k) == TextBy(v.GetStr(k), Clean)
  {
  }

  function TextBy(t: Option<string>, clean: string -> string): Option<string> {
    if t.None? then None else Some(clean(t.value))
  }

  function RowBy(r: Row, clean: string -> string, value: Json -> Json): Row {
    Row(TextBy(r.kind, clean), TextBy(r.execution, clean), TextBy(r.turn, clean), TextBy(r.key, clean), TextBy(r.action, clean),
        TextBy(r.status, clean), TextBy(r.decision, clean), TextBy(r.class_, clean), TextBy(r.message, clean),
        if r.snapshot.None? then None else Some(value(r.snapshot.value)), r.scopeAbsent)
  }

  function CleanRow(r: Row): Row { RowBy(r, Clean, RedactValue) }

  lemma FieldsAreRedacted(v: Json)
    ensures Fields(RedactValue(v)) == CleanRow(Fields(v))
  {
    TagFieldsAreKept();
    IdFieldsAreKept();
    TextFieldsAreKept();
    FieldIsRedacted(v, "kind");
    FieldIsRedacted(v, "execution_id");
    FieldIsRedacted(v, "turn_id");
    FieldIsRedacted(v, "request_key");
    FieldIsRedacted(v, "method");
    FieldIsRedacted(v, "status");
    FieldIsRedacted(v, "decision");
    FieldIsRedacted(v, "class");
    FieldIsRedacted(v, "message");
    FieldIsRedacted(v, "snapshot");
  }

  /** The tags a kind of record reads: its end or decision. */
  predicate Kept(t: Option<string>, clean: string -> string) {
    t.Some? && (ExecutionOf(t.value).Some? || TurnOf(t.value).Some? || DecisionOf(t.value).Some?) ==> clean(t.value) == t.value
  }

  /** Whatever cleans texts and values: if it keeps the tags, the cleaned row reads
      as the cleaned record. */
  lemma RowReadsBy(k: Kind, r: Row, clean: string -> string, value: Json -> Json)
    requires (r.execution.Some? || k == KIncident) && FromKind(k, r).Some? && Kept(r.status, clean) && Kept(r.decision, clean)
    ensures FromKind(k, RowBy(r, clean, value)) == Some(RedactedBy(FromKind(k, r).value, clean, value))
  {
  }

  lemma CleanRowReads(r: Row)
    requires FromRow(r).Some?
    ensures FromRow(CleanRow(r)) == Some(Redacted(FromRow(r).value))
  {
    KindTagsAreKept(r.kind.value);
    if r.status.Some? { EndTagsAreKept(r.status.value); }
    if r.decision.Some? { EndTagsAreKept(r.decision.value); }
    RowReadsBy(KindOf(r.kind.value).value, r, Clean, RedactValue);
  }

  /** Whatever row reads as a record, its redacted form reads as that record
      with every text redacted: redaction never makes a row unreadable, and
      never changes what kind of record it is. */
  lemma RedactedRowReads(v: Json)
    requires Decode(v).Some?
    ensures Decode(RedactValue(v)) == Some(Redacted(Decode(v).value))
  {
    FieldsAreRedacted(v);
    CleanRowReads(Fields(v));
  }

  /** Every text of the record satisfies `free`, and its snapshot `safe`. */
  predicate HarmlessBy(r: Record, free: string -> bool, safe: Json -> bool) {
    match r
    case ExecutionStarted(e) => free(e)
    case ExecutionCompleted(e, _) => free(e)
    case TurnStarted(e, t) => free(e) && free(t)
    case TurnEnded(e, t, _) => free(e) && free(t)
    case ApprovalRequested(e, k, m) => free(e) && free(k) && free(m)
    case ApprovalDecided(e, k, m, _) => free(e) && free(k) && free(m)
    case RecoveryExecutionUnknown(e) => free(e)
    case RecoveryApprovalDenied(e, k, m) => free(e) && free(k) && free(m)
    case Incident(e, c, m) => (e.None? || free(e.value)) && free(c) && free(m)
    case RateLimitSnapshot(e, s) => free(e) && safe(s)
  }

  /** A record that redaction leaves alone: every text free of markers, and a
      snapshot that is safe. */
  ghost predicate Harmless(r: Record) {
    HarmlessBy(r, MarkerFree, Safe)
  }

  lemma UnchangedBy(r: Record, clean: string -> string, value: Json -> Json, free: string -> bool, safe: Json -> bool)
    requires (forall s :: clean(s) == s <==> free(s)) && (forall v :: value(v) == v <==> safe(v))
    ensures RedactedBy(r, clean, value) == r <==> HarmlessBy(r, free, safe)
  {
  }

  lemma HarmlessIsUnchanged(r: Record)
    ensures Redacted(r) == r <==> Harmless(r)
  {
    forall s ensures Clean(s) == s <==> MarkerFree(s) { RedactedText(s); }
    forall v ensures RedactValue(v) == v <==> Safe(v) { RedactedValue(v); }
    UnchangedBy(r, Clean, RedactValue, MarkerFree, Safe);
  }

  /** Storing a record and reading it back gives the record with every text
      redacted; it is the same record exactly if it was harmless. */
  lemma StoredRowReadsBack(r: Record)
    ensures Decode(RedactValue(Encode(r))) == Some(Redacted(r))
    ensures Decode(RedactValue(Encode(r))) == Some(r) <==> Harmless(r)
  {
    RowReadsBack(r);
    RedactedRowReads(Encode(r));
    HarmlessIsUnchanged(r);
  }

  // ---------------------------------------------------------------------------
  // Redaction and the projection.

  function RedactedLog(log: seq<Record>): seq<Record> {
    seq(|log|, i requires 0 <= i < |log| => Redacted(log[i]))
  }

  /** The ids the projection is keyed by. */
  ghost function ProjectedIds(log: seq<Record>): set<string> {
    Mentioned(Executions(log)) + Mentioned(Approvals(log))
  }

  lemma {:induction false} SameLedgers(log: seq<Record>)
    requires forall id :: id in ProjectedIds(log) ==> MarkerFree(id)
    ensures Executions(RedactedLog(log)) == Executions(log)
    ensures Approvals(RedactedLog(log)) == Approvals(log)
  {
    if log == [] {
      assert RedactedLog(log) == [];
    } else {
      var init, last := log[..|log| - 1], log[|log| - 1];
      assert log == init + [last];
      MentionedGrows(Executions(init), ExecutionEntry(last));
      MentionedGrows(Approvals(init), ApprovalEntry(last));
      SameLedgers(init);
      assert RedactedLog(log) == RedactedLog(init) + [Redacted(last)];
      SameEntries(last);
    }
  }

  lemma MentionedGrows<S>(ledger: seq<Entry<S>>, e: Option<Entry<S>>)
    ensures forall id :: id in Mentioned(ledger) ==> id in Mentioned(Add(ledger, e))
    ensures e.Some? ==> e.value.id in Mentioned(Add(ledger, e))
  {
    if e.Some? { AppendEntry(ledger, e.value); }
  }

  /** What a record says of an execution or an approval, with its id cleaned. */
  function EntryBy<S>(e: Option<Entry<S>>, clean: string -> string): Option<Entry<S>> {
    if e.None? then None else Some(Entry(clean(e.value.id), e.value.mark))
  }

  lemma EntriesBy(r: Record, clean: string -> string, value: Json -> Json)
    ensures ExecutionEntry(RedactedBy(r, clean, value)) == EntryBy(ExecutionEntry(r), clean)
    ensures ApprovalEntry(RedactedBy(r, clean, value)) == EntryBy(ApprovalEntry(r), clean)
  {
  }

  lemma CleanExactly(s: string)
    ensures MarkerFree(Clean(s)) && (Clean(s) == s <==> MarkerFree(s))
  {
    RedactedText(s);
  }

  lemma SameEntries(r: Record)
    requires ExecutionEntry(r).Some? ==> MarkerFree(ExecutionEntry(r).value.id)
    requires ApprovalEntry(r).Some? ==> MarkerFree(ApprovalEntry(r).value.id)
    ensures ExecutionEntry(Redacted(r)) == ExecutionEntry(r)
    ensures ApprovalEntry(Redacted(r)) == ApprovalEntry(r)
  {
    EntriesBy(r, Clean, RedactValue);
    if ExecutionEntry(r).Some? { CleanExactly(ExecutionEntry(r).value.id); }
    if ApprovalEntry(r).Some? { CleanExactly(ApprovalEntry(r).value.id); }
  }

  lemma CleanEntries(r: Record)
    ensures ExecutionEntry(Redacted(r)).Some? ==> MarkerFree(ExecutionEntry(Redacted(r)).value.id)
    ensures ApprovalEntry(Redacted(r)).Some? ==> MarkerFree(ApprovalEntry(Redacted(r)).value.id)
  {
    EntriesBy(r, Clean, RedactValue);
    if ExecutionEntry(r).Some? { CleanExactly(ExecutionEntry(r).value.id); }
    if ApprovalEntry(r).Some? { CleanExactly(ApprovalEntry(r).value.id); }
  }

  lemma AddedIdsAreFree<S>(ledger: seq<Entry<S>>, e: Option<Entry<S>>)
    requires (forall id :: id in Mentioned(ledger) ==> MarkerFree(id)) && (e.Some? ==> MarkerFree(e.value.id))
    ensures forall id :: id in Mentioned(Add(ledger, e)) ==> MarkerFree(id)
  {
    if e.Some? { AppendEntry(ledger, e.value); }
  }

  lemma OneMoreIsFree(log: seq<Record>, r: Record)
    requires forall id :: id in ProjectedIds(log) ==> MarkerFree(id)
    requires ExecutionEntry(r).Some? ==> MarkerFree(ExecutionEntry(r).value.id)
    requires ApprovalEntry(r).Some? ==> MarkerFree(ApprovalEntry(r).value.id)
    ensures forall id :: id in ProjectedIds(log + [r]) ==> MarkerFree(id)
  {
    assert (log + [r])[..|log|] == log;
    AddedIdsAreFree(Executions(log), ExecutionEntry(r));
    AddedIdsAreFree(Approvals(log), ApprovalEntry(r));
  }

  lemma {:induction false} RedactedIdsAreMarkerFree(log: seq<Record>)
    ensures forall id :: id in ProjectedIds(RedactedLog(log)) ==> MarkerFree(id)
  {
    if log == [] {
      assert RedactedLog(log) == [];
    } else {
      var init, last := log[..|log| - 1], log[|log| - 1];
      RedactedIdsAreMarkerFree(init);
      CleanEntries(last);
      OneMoreIsFree(RedactedLog(init), Redacted(last));
      assert RedactedLog(log) == RedactedLog(init) + [Redacted(last)];
    }
  }

  /** The stored, redacted log projects to what the original log says exactly
      when no execution id or approval key contains a marker. */
  lemma RedactionKeepsProjection(log: seq<Record>)
    ensures Projected(RedactedLog(log)) == Projected(log)
       <==> forall id :: id in ProjectedIds(log) ==> MarkerFree(id)
  {
    if forall id :: id in ProjectedIds(log) ==> MarkerFree(id) {
      SameLedgers(log);
    }
    if Projected(RedactedLog(log)) == Projected(log) {
      RedactedIdsAreMarkerFree(log);
      assert Projected(log).executions.Keys == Mentioned(Executions(log));
      assert Projected(log).approvals.Keys == Mentioned(Approvals(log));
      assert Projected(RedactedLog(log)).executions.Keys == Mentioned(Executions(RedactedLog(log)));
      assert Projected(RedactedLog(log)).approvals.Keys == Mentioned(Approvals(RedactedLog(log)));
      assert ProjectedIds(RedactedLog(log)) == ProjectedIds(log);
    }
  }
}
