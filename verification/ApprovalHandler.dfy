/** Answering a server's approval request (src/client.rs
    handle_server_request_parts, dispatch_server_request_during_call,
    SeenApprovals). The effects are the rows that reach the journal and the
    answers whose write is attempted; what the journal, the authority and the
    pipe do is an input. A crash leaves some prefix of the effects. */
module ApprovalHandler {
  import opened Text
  import opened Json
  import opened Journal
  import Recovery
  import Session
  import Descriptor

  const MAX_SEEN_APPROVALS := 256
  const MAX_SEEN_APPROVAL_BYTES := 16384

  type Ruling = Descriptor.Ruling

  /** `External` with an execution id records receipts in the journal. */
  datatype Policy = DenyAll | AllowForTests | External(receipt: Option<string>)

  /** The authority was not reached, ruled, or stayed silent until closed or late. */
  datatype Authority = Unreachable | Ruled(ruling: Ruling) | Silent

  /** `refreshed` says whether the authority gave new credentials. */
  datatype World = World(request: Append, authority: Authority, decision: Append, written: bool, refreshed: bool)

  datatype Effect =
    | Row(r: Record)
    | Answer(id: Json, key: string, action: string, ruling: Ruling)
    | Refusal(id: Json)
    | Credentials(id: Json)

  datatype Outcome = Handled | MissingId | Unknown | Duplicate | SessionPoisoned | StateError | WriteFailed | RefreshUnavailable

  /** The opaque key function and the encoded size are arbitrary. */
  datatype Config = Config(policy: Policy, keyOf: (string, Json, Json) -> string, size: Json -> nat)

  datatype Boundary = Boundary(keys: set<string>, bytes: nat, session: Session.Session, trace: seq<Effect>)

  const START := Boundary({}, 0, Session.FRESH, [])

  // ---------------------------------------------------------------------------
  // One request.

  function Wrote(b: Boundary, effects: seq<Effect>): Boundary {
    b.(trace := b.trace + effects)
  }

  function Rows(append: Append, r: Record): seq<Effect> {
    if append.Lost? then [] else [Row(r)]
  }

  function Recorded(policy: Policy): bool {
    policy.External? && policy.receipt.Some?
  }

  /** What the client goes on with when the authority gives no ruling depends on
      whether it waits for the turn or for an ordinary response. */
  function RulingOf(policy: Policy, waiting: bool, authority: Authority): Ruling {
    match policy
    case AllowForTests => Descriptor.Allow
    case DenyAll => Descriptor.Deny
    case External(_) =>
      match authority
      case Ruled(ruling) => ruling
      case Silent => Descriptor.Timeout
      case Unreachable => if waiting then Descriptor.Deny else Descriptor.Timeout
  }

  function Permitted(ruling: Ruling, allow: bool): Ruling {
    if ruling.Allow? && !allow then Descriptor.Deny else ruling
  }

  function EndOf(ruling: Ruling): ApprovalEnd {
    match ruling
    case Allow => Allowed
    case Deny => Denied
    case Timeout => TimedOut
  }

  /** The effects of answering a request not seen before. */
  function Answered(policy: Policy, waiting: bool, id: Json, key: string, action: string, allow: bool, world: World): (seq<Effect>, Outcome) {
    var ruling := Permitted(RulingOf(policy, waiting, world.authority), allow);
    var answer := [Answer(id, key, action, ruling)];
    var outcome := if world.written then Handled else WriteFailed;
    if !Recorded(policy) then (answer, outcome)
    else
      var execution := policy.receipt.value;
      var requested := Rows(world.request, ApprovalRequested(execution, key, action));
      var decided := Rows(world.decision, ApprovalDecided(execution, key, action, EndOf(ruling)));
      if !world.request.Acknowledged? then (requested, SessionPoisoned)
      else if !world.decision.Acknowledged? then (requested + decided, SessionPoisoned)
      else (requested + decided + answer, outcome)
  }

  function SessionRuling(ruling: Ruling): Session.Decision {
    match ruling
    case Allow => Session.Allow
    case Deny => Session.Deny
    case Timeout => Session.Timeout
  }

  predicate IsRequestId(id: Json) {
    id.Str? || id.IsI64()
  }

  predicate KnownAction(action: string) {
    || action == Descriptor.EXECUTE || action == Descriptor.EXEC_ARGV || action == Descriptor.PATCH
    || action == Descriptor.FILE_CHANGE || action == Descriptor.PERMISSIONS
  }

  datatype Seen = New | Old | Full

  function SeenOf(b: Boundary, key: string): Seen {
    if key in b.keys then Old
    else if |b.keys| >= MAX_SEEN_APPROVALS || b.bytes + Utf8Len(key) > MAX_SEEN_APPROVAL_BYTES then Full
    else New
  }

  function Noted(b: Boundary, key: string): Boundary {
    b.(keys := b.keys + {key}, bytes := b.bytes + Utf8Len(key))
  }

  function Poisoned(b: Boundary): Boundary {
    b.(session := Session.Poison(b.session))
  }

  /** While waiting for the turn the session follows the request and the ruling;
      while waiting for a response it is out of reach. */
  function AnswerNew(policy: Policy, b: Boundary, waiting: bool, id: Json, key: string, action: string, allow: bool, world: World): (Boundary, Outcome) {
    var (asked, accepted) := if waiting then Session.Apply(b.session, Session.OnApprovalRequested(key, action)) else (b.session, true);
    if !accepted then (b.(session := asked), StateError)
    else
      var (effects, outcome) := Answered(policy, waiting, id, key, action, allow, world);
      var done := Wrote(b, effects).(session := asked);
      if !waiting || !outcome.Handled? then (done, outcome)
      else
        var ruling := Permitted(RulingOf(policy, waiting, world.authority), allow);
        var (ruled, taken) := Session.Apply(asked, Session.OnApprovalDecided(key, action, SessionRuling(ruling), Session.Owner));
        (done.(session := ruled), if taken then Handled else StateError)
  }

  function ActionOf(message: Json): string {
    message.GetStr("method").GetOr("")
  }

  function ParamsOf(message: Json): Json {
    message.Get("params").GetOr(Null)
  }

  const REFRESH := "account/chatgptAuthTokens/refresh"

  /** A request for new credentials is passed on if its reason is the one known;
      otherwise, or without an answer, it is refused. */
  function Refresh(b: Boundary, waiting: bool, id: Json, params: Json, world: World): (Boundary, Outcome) {
    var given := params.GetStr("reason") == Some("unauthorized") && world.refreshed;
    var answered := Wrote(b, [if given then Credentials(id) else Refusal(id)]);
    if !world.written then (answered, WriteFailed)
    else if given then (answered, Handled)
    else (if waiting then Poisoned(answered) else answered, RefreshUnavailable)
  }

  ghost function Handle(c: Config, b: Boundary, waiting: bool, message: Json, world: World): (Boundary, Outcome) {
    var id := message.Get("id").GetOr(Null);
    var action, params := ActionOf(message), ParamsOf(message);
    if !IsRequestId(id) then (b, MissingId)
    else if action == REFRESH then Refresh(b, waiting, id, params, world)
    else if !KnownAction(action) then
      var refused := Wrote(b, [Refusal(id)]);
      if !world.written then (refused, WriteFailed) else (if waiting then Poisoned(refused) else refused, Unknown)
    else
      var key := c.keyOf(action, id, params);
      match SeenOf(b, key)
      case Full => (b, SessionPoisoned)
      case Old =>
        var denied := Wrote(b, [Answer(id, key, action, Descriptor.Deny)]);
        if !world.written then (denied, WriteFailed) else (if waiting then Poisoned(denied) else denied, Duplicate)
      case New =>
        AnswerNew(c.policy, Noted(b, key), waiting, id, key, action, Descriptor.Describe(c.size, action, params).reviewable, world)
  }

  // ---------------------------------------------------------------------------
  // The object.

  ghost function SumOver(keys: set<string>): nat {
    if keys == {} then 0 else var k :| k in keys; Utf8Len(k) + SumOver(keys - {k})
  }

  lemma {:induction false} SumOverRemove(keys: set<string>, k: string)
    requires k in keys
    ensures SumOver(keys) == Utf8Len(k) + SumOver(keys - {k})
    decreases |keys|
  {
    var m :| m in keys && SumOver(keys) == Utf8Len(m) + SumOver(keys - {m});
    if m != k {
      SumOverRemove(keys - {m}, k);
      SumOverRemove(keys - {k}, m);
      assert keys - {m} - {k} == keys - {k} - {m};
    }
  }

  lemma SumOverAdd(keys: set<string>, k: string)
    requires k !in keys
    ensures SumOver(keys + {k}) == SumOver(keys) + Utf8Len(k)
  {
    SumOverRemove(keys + {k}, k);
    assert keys + {k} - {k} == keys;
  }

  ghost predicate Bounded(b: Boundary) {
    b.bytes == SumOver(b.keys) <= MAX_SEEN_APPROVAL_BYTES && |b.keys| <= MAX_SEEN_APPROVALS
  }

  class CodexClient {
    const config: Config
    var keys: set<string>
    var bytes: nat
    var session: Session.Session
    ghost var trace: seq<Effect>

    ghost function View(): Boundary
      reads this
    {
      Boundary(keys, bytes, session, trace)
    }

    constructor (config: Config)
      ensures this.config == config && View() == START && Bounded(View())
    {
      this.config := config;
      keys, bytes, session, trace := {}, 0, Session.FRESH, [];
    }

    /** `SeenApprovals::insert`. */
    method Insert(key: string) returns (seen: Seen)
      requires Bounded(View())
      modifies this`keys, this`bytes
      ensures seen == old(SeenOf(View(), key)) && Bounded(View())
      ensures View() == if seen.New? then old(Noted(View(), key)) else old(View())
    {
      if key in keys { return Old; }
      if |keys| >= MAX_SEEN_APPROVALS || bytes + Utf8Len(key) > MAX_SEEN_APPROVAL_BYTES { return Full; }
      SumOverAdd(keys, key);
      bytes := bytes + Utf8Len(key);
      keys := keys + {key};
      seen := New;
    }

    method AppendRow(append: Append, r: Record) returns (ok: bool)
      modifies this`trace
      ensures ok == append.Acknowledged? && trace == old(trace) + Rows(append, r)
    {
      trace := trace + Rows(append, r);
      ok := append.Acknowledged?;
    }

    /** Journal the request, ask the authority, journal the ruling, and only then
        write the answer. */
    method AnswerRequest(waiting: bool, id: Json, key: string, action: string, allow: bool, world: World)
      returns (outcome: Outcome, ruling: Ruling)
      modifies this`trace
      ensures var (effects, end) := Answered(config.policy, waiting, id, key, action, allow, world);
              trace == old(trace) + effects && outcome == end
      ensures ruling == Permitted(RulingOf(config.policy, waiting, world.authority), allow)
    {
      ruling := Permitted(RulingOf(config.policy, waiting, world.authority), allow);
      if Recorded(config.policy) {
        var execution := config.policy.receipt.value;
        var noted := AppendRow(world.request, ApprovalRequested(execution, key, action));
        if !noted { return SessionPoisoned, ruling; }
        var decided := AppendRow(world.decision, ApprovalDecided(execution, key, action, EndOf(ruling)));
        if !decided { return SessionPoisoned, ruling; }
      }
      trace := trace + [Answer(id, key, action, ruling)];
      outcome := if world.written then Handled else WriteFailed;
    }

    method AnswerNewRequest(waiting: bool, id: Json, key: string, action: string, allow: bool, world: World) returns (outcome: Outcome)
      modifies this`trace, this`session
      ensures (View(), outcome) == AnswerNew(config.policy, old(View()), waiting, id, key, action, allow, world)
    {
      if waiting {
        var (asked, accepted) := Session.Apply(session, Session.OnApprovalRequested(key, action));
        session := asked;
        if !accepted { return StateError; }
      }
      var ruling;
      outcome, ruling := AnswerRequest(waiting, id, key, action, allow, world);
      if waiting && outcome.Handled? {
        var (ruled, taken) := Session.Apply(session, Session.OnApprovalDecided(key, action, SessionRuling(ruling), Session.Owner));
        session := ruled;
        outcome := if taken then Handled else StateError;
      }
    }

    method RefreshTokens(waiting: bool, id: Json, params: Json, world: World) returns (outcome: Outcome)
      modifies this`trace, this`session
      ensures (View(), outcome) == Refresh(old(View()), waiting, id, params, world)
    {
      var given := params.GetStr("reason") == Some("unauthorized") && world.refreshed;
      trace := trace + [if given then Credentials(id) else Refusal(id)];
      if !world.written { return WriteFailed; }
      if given { return Handled; }
      if waiting { session := Session.Poison(session); }
      outcome := RefreshUnavailable;
    }

    method HandleRequest(waiting: bool, message: Json, world: World) returns (outcome: Outcome)
      requires Bounded(View())
      modifies this
      ensures (View(), outcome) == Handle(config, old(View()), waiting, message, world) && Bounded(View())
    {
      var id := message.Get("id").GetOr(Null);
      if !IsRequestId(id) { return MissingId; }
      var action, params := ActionOf(message), ParamsOf(message);
      if action == REFRESH {
        outcome := RefreshTokens(waiting, id, params, world);
        return;
      }
      if !KnownAction(action) {
        trace := trace + [Refusal(id)];
        if !world.written { return WriteFailed; }
        if waiting { session := Session.Poison(session); }
        return Unknown;
      }
      var key := config.keyOf(action, id, params);
      var seen := Insert(key);
      if seen.Full? { return SessionPoisoned; }
      if seen.Old? {
        trace := trace + [Answer(id, key, action, Descriptor.Deny)];
        if !world.written { return WriteFailed; }
        if waiting { session := Session.Poison(session); }
        return Duplicate;
      }
      var descriptor, allow := Descriptor.FromRequest(config.size, action, params);
      outcome := AnswerNewRequest(waiting, id, key, action, allow, world);
    }
  }

  // ---------------------------------------------------------------------------
  // Runs: requests, and rows of other kinds the runner appends meanwhile.

  datatype Step = Request(waiting: bool, message: Json, world: World) | OtherRow(r: Record)

  ghost predicate Usual(s: Step) {
    s.OtherRow? ==> ApprovalEntry(s.r).None?
  }

  ghost function After(c: Config, b: Boundary, s: Step): Boundary {
    match s
    case Request(waiting, message, world) => Handle(c, b, waiting, message, world).0
    case OtherRow(r) => Wrote(b, [Row(r)])
  }

  ghost function Run(c: Config, steps: seq<Step>): Boundary {
    if steps == [] then START else After(c, Run(c, steps[..|steps| - 1]), steps[|steps| - 1])
  }

  function LogOf(trace: seq<Effect>): seq<Record> {
    if trace == [] then []
    else
      match trace[|trace| - 1]
      case Row(r) => LogOf(trace[..|trace| - 1]) + [r]
      case _ => LogOf(trace[..|trace| - 1])
  }

  predicate IsAllow(e: Effect, key: string) {
    e.Answer? && e.key == key && e.ruling.Allow?
  }

  /** The key is on record as requested and then allowed. */
  ghost predicate OnRecord(trace: seq<Effect>, execution: string, key: string, action: string) {
    exists j, k :: 0 <= j < k < |trace|
      && trace[j] == Row(ApprovalRequested(execution, key, action))
      && trace[k] == Row(ApprovalDecided(execution, key, action, Allowed))
  }

  /** Every Allow answer comes after its request and its decision were recorded. */
  ghost predicate JournalFirst(trace: seq<Effect>, execution: string) {
    forall i :: 0 <= i < |trace| && trace[i].Answer? && trace[i].ruling.Allow? ==>
      OnRecord(trace[..i], execution, trace[i].key, trace[i].action)
  }

  predicate Mentions(e: Effect, key: string) {
    match e
    case Row(r) => ApprovalEntry(r).Some? && ApprovalEntry(r).value.id == key
    case Answer(_, k, _, _) => k == key
    case Refusal(_) => false
    case Credentials(_) => false
  }

  /** The last approval row for the key, if any. */
  function LastMark(trace: seq<Effect>, key: string): Option<Mark<ApprovalState>> {
    if trace == [] then None
    else
      var last := trace[|trace| - 1];
      if last.Row? && Mentions(last, key) then Some(ApprovalEntry(last.r).value.mark)
      else LastMark(trace[..|trace| - 1], key)
  }

  /** Whatever the cut, a key with an Allow answer was last recorded as allowed. */
  ghost predicate AllowIsLast(trace: seq<Effect>) {
    forall n, i :: 0 <= i < n <= |trace| && trace[i].Answer? && trace[i].ruling.Allow? ==>
      LastMark(trace[..n], trace[i].key) == Some(Settles(Decided(Allowed)))
  }

  ghost predicate OnlySeen(b: Boundary) {
    forall i, key :: 0 <= i < |b.trace| && Mentions(b.trace[i], key) ==> key in b.keys
  }

  ghost predicate Safe(b: Boundary, execution: string) {
    JournalFirst(b.trace, execution) && AllowIsLast(b.trace) && OnlySeen(b)
  }

  // ---------------------------------------------------------------------------
  // Every run is safe.

  lemma {:induction false} LastMarkSkips(trace: seq<Effect>, more: seq<Effect>, key: string)
    requires forall e :: e in more && e.Row? ==> !Mentions(e, key)
    ensures LastMark(trace + more, key) == LastMark(trace, key)
  {
    if more == [] {
      assert trace + more == trace;
    } else {
      var init, last := more[..|more| - 1], more[|more| - 1];
      assert (trace + more)[..|trace + more| - 1] == trace + init && last in more;
      forall e | e in init ensures e in more { }
      LastMarkSkips(trace, init, key);
    }
  }

  lemma JournalFirstExtends(trace: seq<Effect>, more: seq<Effect>, execution: string)
    requires JournalFirst(trace, execution)
    requires forall i :: 0 <= i < |more| && more[i].Answer? && more[i].ruling.Allow? ==>
               OnRecord(trace + more[..i], execution, more[i].key, more[i].action)
    ensures JournalFirst(trace + more, execution)
  {
    var all := trace + more;
    forall i | 0 <= i < |all| && all[i].Answer? && all[i].ruling.Allow? ensures OnRecord(all[..i], execution, all[i].key, all[i].action) {
      if i < |trace| {
        assert all[..i] == trace[..i];
      } else {
        assert all[..i] == trace + more[..i - |trace|];
      }
    }
  }

  /** Rows about `key` only do not disturb what is known about other keys. */
  lemma AllowIsLastExtends(trace: seq<Effect>, more: seq<Effect>, key: string)
    requires AllowIsLast(trace)
    requires forall e :: e in trace && e.Answer? && e.ruling.Allow? ==> e.key != key
    requires forall e :: e in more ==> e.Answer? || !e.Row? || ApprovalEntry(e.r).None? || ApprovalEntry(e.r).value.id == key
    requires forall n, i :: 0 <= i < n <= |more| && more[i].Answer? && more[i].ruling.Allow? ==>
               LastMark(trace + more[..n], more[i].key) == Some(Settles(Decided(Allowed)))
    ensures AllowIsLast(trace + more)
  {
    var all := trace + more;
    forall n, i | 0 <= i < n <= |all| && all[i].Answer? && all[i].ruling.Allow?
      ensures LastMark(all[..n], all[i].key) == Some(Settles(Decided(Allowed)))
    {
      if n <= |trace| {
        assert all[..n] == trace[..n];
      } else {
        assert all[..n] == trace + more[..n - |trace|];
        if i < |trace| {
          assert trace[i] in trace && trace[..|trace|] == trace;
          forall e | e in more[..n - |trace|] ensures e in more { }
          LastMarkSkips(trace, more[..n - |trace|], trace[i].key);
        } else {
          assert more[i - |trace|] == all[i];
        }
      }
    }
  }

  lemma HarmlessEffect(b: Boundary, next: Boundary, e: Effect, execution: string)
    requires Safe(b, execution) && next.keys == b.keys && next.trace == b.trace + [e]
    requires !(e.Answer? && e.ruling.Allow?) && (e.Row? ==> ApprovalEntry(e.r).None?)
    requires e.Answer? ==> e.key in b.keys
    ensures Safe(next, execution)
  {
    JournalFirstExtends(b.trace, [e], execution);
    forall n, i | 0 <= i < n <= |next.trace| && next.trace[i].Answer? && next.trace[i].ruling.Allow?
      ensures LastMark(next.trace[..n], next.trace[i].key) == Some(Settles(Decided(Allowed)))
    {
      if n <= |b.trace| {
        assert next.trace[..n] == b.trace[..n];
      } else {
        assert next.trace[..n] == next.trace && b.trace[..|b.trace|] == b.trace;
        LastMarkSkips(b.trace, [e], next.trace[i].key);
      }
    }
  }

  /** The effects of one answered request: a prefix of request row, decision row
      and answer, all about its key, the decision row agreeing with the answer. */
  ghost predicate OneAnswer(effects: seq<Effect>, execution: string, id: Json, key: string, action: string, ruling: Ruling) {
    effects <= [Row(ApprovalRequested(execution, key, action)), Row(ApprovalDecided(execution, key, action, EndOf(ruling))),
                Answer(id, key, action, ruling)]
  }

  lemma AnsweredIsOneAnswer(execution: string, waiting: bool, id: Json, key: string, action: string, allow: bool, world: World)
    ensures var policy := External(Some(execution));
            OneAnswer(Answered(policy, waiting, id, key, action, allow, world).0, execution, id, key, action,
                      Permitted(RulingOf(policy, waiting, world.authority), allow))
  {
  }

  lemma OneAnswerIsSafe(b: Boundary, next: Boundary, effects: seq<Effect>, execution: string, id: Json, key: string, action: string, ruling: Ruling)
    requires Safe(b, execution) && key !in b.keys && OneAnswer(effects, execution, id, key, action, ruling)
    requires next.keys == b.keys + {key} && next.trace == b.trace + effects
    ensures Safe(next, execution)
  {
    OneAnswerRecorded(b.trace, effects, execution, id, key, action, ruling);
    JournalFirstExtends(b.trace, effects, execution);
    forall e | e in b.trace && e.Answer? ensures e.key != key {
      var i :| 0 <= i < |b.trace| && b.trace[i] == e;
      assert Mentions(b.trace[i], e.key);
    }
    AllowIsLastExtends(b.trace, effects, key);
  }

  lemma OneAnswerRecorded(trace: seq<Effect>, effects: seq<Effect>, execution: string, id: Json, key: string, action: string, ruling: Ruling)
    requires OneAnswer(effects, execution, id, key, action, ruling)
    ensures forall i :: 0 <= i < |effects| && effects[i].Answer? && effects[i].ruling.Allow? ==>
              OnRecord(trace + effects[..i], execution, effects[i].key, effects[i].action)
  {
    forall i | 0 <= i < |effects| && effects[i].Answer? && effects[i].ruling.Allow?
      ensures OnRecord(trace + effects[..i], execution, effects[i].key, effects[i].action)
    {
      var all := trace + effects[..i];
      assert all[|trace|] == effects[0] && all[|trace| + 1] == effects[1];
    }
  }

  lemma HandleIsSafe(c: Config, execution: string, b: Boundary, waiting: bool, message: Json, world: World)
    requires c.policy == External(Some(execution)) && Safe(b, execution)
    ensures Safe(Handle(c, b, waiting, message, world).0, execution)
  {
    var next := Handle(c, b, waiting, message, world).0;
    var id, action, params := message.Get("id").GetOr(Null), ActionOf(message), ParamsOf(message);
    if IsRequestId(id) {
      var key := c.keyOf(action, id, params);
      if action == REFRESH {
        HarmlessEffect(b, next, next.trace[|b.trace|], execution);
      } else if !KnownAction(action) {
        HarmlessEffect(b, next, Refusal(id), execution);
      } else if SeenOf(b, key).Old? {
        HarmlessEffect(b, next, Answer(id, key, action, Descriptor.Deny), execution);
      } else if SeenOf(b, key).New? {
        AnswerNewIsSafe(c, execution, b, waiting, id, key, action, Descriptor.Describe(c.size, action, params).reviewable, world);
      }
    }
  }

  lemma AnswerNewIsSafe(c: Config, execution: string, b: Boundary, waiting: bool, id: Json, key: string, action: string, allow: bool, world: World)
    requires c.policy == External(Some(execution)) && Safe(b, execution) && key !in b.keys
    ensures Safe(AnswerNew(c.policy, Noted(b, key), waiting, id, key, action, allow, world).0, execution)
  {
    var next := AnswerNew(c.policy, Noted(b, key), waiting, id, key, action, allow, world).0;
    var ruling := Permitted(RulingOf(c.policy, waiting, world.authority), allow);
    var effects := Answered(c.policy, waiting, id, key, action, allow, world).0;
    AnsweredIsOneAnswer(execution, waiting, id, key, action, allow, world);
    if next.trace == b.trace + effects {
      OneAnswerIsSafe(b, next, effects, execution, id, key, action, ruling);
    } else {
      assert next.trace == b.trace + [];
      OneAnswerIsSafe(b, next, [], execution, id, key, action, ruling);
    }
  }

  lemma {:induction false} EveryRunIsSafe(c: Config, execution: string, steps: seq<Step>)
    requires c.policy == External(Some(execution)) && forall s :: s in steps ==> Usual(s)
    ensures Safe(Run(c, steps), execution)
  {
    if steps != [] {
      var init, last := steps[..|steps| - 1], steps[|steps| - 1];
      assert last in steps;
      forall s | s in init ensures s in steps { }
      EveryRunIsSafe(c, execution, init);
      match last
      case Request(waiting, message, world) => HandleIsSafe(c, execution, Run(c, init), waiting, message, world);
      case OtherRow(r) => HarmlessEffect(Run(c, init), Run(c, steps), Row(r), execution);
    }
  }

  // ---------------------------------------------------------------------------
  // What a crash leaves.

  lemma {:induction false} MarkDecides(before: seq<Record>, trace: seq<Effect>, key: string, state: ApprovalState)
    requires LastMark(trace, key) == Some(Settles(state))
    ensures Settled(Approvals(before + LogOf(trace)), key) == Some(state)
    ensures key !in OpenIds(Approvals(before + LogOf(trace))) && key in Mentioned(Approvals(before + LogOf(trace)))
  {
    var init, last := trace[..|trace| - 1], trace[|trace| - 1];
    if !(last.Row? && Mentions(last, key)) { MarkDecides(before, init, key, state); }
    if last.Row? {
      var log := before + LogOf(init);
      assert before + LogOf(trace) == log + [last.r];
      if ApprovalEntry(last.r).Some? { AppendEntry(Approvals(log), ApprovalEntry(last.r).value); }
    }
  }

  /** Write-ahead. In every run under the External policy with a receipt, cut
      anywhere: a key whose Allow answer was attempted has its request and its
      Allowed decision on record before that. */
  lemma AllowIsOnRecord(c: Config, execution: string, steps: seq<Step>, n: nat, i: nat)
    requires c.policy == External(Some(execution)) && (forall s :: s in steps ==> Usual(s)) && i < n <= |Run(c, steps).trace|
    requires var e := Run(c, steps).trace[i]; e.Answer? && e.ruling.Allow?
    ensures var cut := Run(c, steps).trace[..n]; OnRecord(cut[..i], execution, cut[i].key, cut[i].action)
  {
    EveryRunIsSafe(c, execution, steps);
    var trace := Run(c, steps).trace;
    assert trace[..n][..i] == trace[..i];
  }

  /** Crash safety. Whatever rows were there before, after a crash at any point
      recovery reads Allowed for every key whose Allow answer was attempted, both
      before and after it appends its own rows. So a key that reads otherwise,
      in particular DeniedOnRestart, was never allowed on the wire. */
  lemma CrashSafeApprovals(c: Config, execution: string, steps: seq<Step>, before: seq<Record>, n: nat, key: string)
    requires c.policy == External(Some(execution)) && (forall s :: s in steps ==> Usual(s)) && n <= |Run(c, steps).trace|
    requires exists i :: 0 <= i < n && IsAllow(Run(c, steps).trace[i], key)
    ensures var log := before + LogOf(Run(c, steps).trace[..n]);
            && key in Projected(log).approvals && Projected(log).approvals[key] == Decided(Allowed)
            && key !in Projected(log).unresolvedApprovals
            && key in Projected(log + Recovery.Owed(log)).approvals
            && Projected(log + Recovery.Owed(log)).approvals[key] == Decided(Allowed)
  {
    EveryRunIsSafe(c, execution, steps);
    var trace := Run(c, steps).trace;
    var i :| 0 <= i < n && IsAllow(trace[i], key);
    var log := before + LogOf(trace[..n]);
    MarkDecides(before, trace[..n], key, Decided(Allowed));
    Ordering.SortedLists(OpenIds(Approvals(log)));
    Recovery.RecoveryIsComplete(log);
  }

  /** Under any policy, an Allow answer is written only for a request whose
      review record permits it, and never twice for a key. */
  lemma AllowNeedsReview(c: Config, b: Boundary, waiting: bool, message: Json, world: World, i: nat)
    requires var next := Handle(c, b, waiting, message, world).0;
             |b.trace| <= i < |next.trace| && next.trace[i].Answer? && next.trace[i].ruling.Allow?
    ensures var e := Handle(c, b, waiting, message, world).0.trace[i];
            && Descriptor.Describe(c.size, e.action, ParamsOf(message)).reviewable
            && e.action == ActionOf(message) && e.key !in b.keys && e.key in Handle(c, b, waiting, message, world).0.keys
  {
    var action, params := ActionOf(message), ParamsOf(message);
    var id := message.Get("id").GetOr(Null);
    var key := c.keyOf(action, id, params);
    if IsRequestId(id) && action != REFRESH && KnownAction(action) && SeenOf(b, key).New? {
      AnswerNewPermitted(c.policy, Noted(b, key), waiting, id, key, action, Descriptor.Describe(c.size, action, params).reviewable, world, i);
    }
  }

  lemma AnswerNewPermitted(policy: Policy, b: Boundary, waiting: bool, id: Json, key: string, action: string, allow: bool, world: World, i: nat)
    requires var next := AnswerNew(policy, b, waiting, id, key, action, allow, world).0;
             |b.trace| <= i < |next.trace| && next.trace[i].Answer? && next.trace[i].ruling.Allow?
    ensures var e := AnswerNew(policy, b, waiting, id, key, action, allow, world).0.trace[i];
            allow && e.action == action && e.key == key
  {
  }
}
