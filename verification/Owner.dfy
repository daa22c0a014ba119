/** The runtime owner's commands on its abstract state (src/api.rs). One actor
    owns the state and finishes one command before it takes the next, so every
    command is one step; what the outside answers (delivery acknowledgements,
    control outcomes, which timer fires) is part of the command. The encoded
    size of an event is an arbitrary function. */
module Owner {
  import opened Basics
  import opened Text

  const MAX_EVENTS_PER_TURN := 256
  const MAX_EVENT_BYTES := 16384
  const MAX_REPLAY_BYTES := 1048576
  const MAX_CONCURRENT_TURNS := 1
  const MAX_THREADS := 128
  const MAX_TURNS := 256
  const MAX_APPROVALS := 256

  datatype TurnStatus = Running | WaitingApproval | Interrupted | Completed | Failed
  datatype ApprovalStatus = Pending | Delivering | Approved | Denied
  datatype Decision = Allow | Deny | Timeout
  datatype Authority = InterruptCall | SseDrop | ShutdownCall | ApprovalTimeout | TurnDeadline

  datatype EventKind =
    | TurnBegan
    | ApprovalAsked(asked: nat, body: string)
    | ApprovalSettled(settled: nat, outcome: ApprovalStatus, settler: string)
    | TurnOver(status: TurnStatus, detail: string)

  datatype Event = Event(id: nat, turn: nat, kind: EventKind, terminal: bool)
  type Encoding = Event -> nat

  datatype Turn = Turn(thread: nat, status: TurnStatus, events: seq<Event>, bytes: nat, control: bool, controller: bool)
  datatype Approval = Approval(turn: nat, status: ApprovalStatus, allow: bool, sender: bool)

  /** One use of an approval's one-shot decision sender. */
  datatype Delivery = Delivery(approval: nat, decision: Decision, acknowledged: bool)

  /** `published` is every event handed to subscribers, in order, and
      `deliveries` every decision handed to the runtime. */
  datatype State = State(
    ready: bool, threads: set<nat>, nextThread: nat, nextTurn: nat, nextEvent: nat, nextApproval: nat,
    active: nat, replayBytes: nat, turns: map<nat, Turn>, approvals: map<nat, Approval>,
    published: seq<Event>, deliveries: seq<Delivery>)

  function Initial(ready: bool): State {
    State(ready, {}, 1, 1, 1, 1, 0, 0, map[], map[], [], [])
  }

  predicate IsTerminal(s: TurnStatus) {
    s == Interrupted || s == Completed || s == Failed
  }

  // ---------------------------------------------------------------------------
  // Sums over the turns. Turn ids are below `n`.

  function TotalBytes(enc: Encoding, events: seq<Event>): nat {
    if events == [] then 0 else enc(events[0]) + TotalBytes(enc, events[1..])
  }

  function SumBytes(turns: map<nat, Turn>, n: nat): nat {
    if n == 0 then 0 else SumBytes(turns, n - 1) + if n - 1 in turns then turns[n - 1].bytes else 0
  }

  function CountEvents(turns: map<nat, Turn>, n: nat): nat {
    if n == 0 then 0 else CountEvents(turns, n - 1) + if n - 1 in turns then |turns[n - 1].events| else 0
  }

  function CountLive(turns: map<nat, Turn>, n: nat): nat {
    if n == 0 then 0
    else CountLive(turns, n - 1) + if n - 1 in turns && !IsTerminal(turns[n - 1].status) then 1 else 0
  }

  // ---------------------------------------------------------------------------
  // The replay log.

  /** The turn whose first retained event is the oldest retained event of all. */
  function Oldest(turns: map<nat, Turn>, n: nat): (r: Option<nat>)
    ensures r.Some? ==> r.value < n && r.value in turns && turns[r.value].events != []
  {
    if n == 0 then None
    else
      var r := Oldest(turns, n - 1);
      if n - 1 in turns && turns[n - 1].events != []
         && (r.None? || turns[n - 1].events[0].id < turns[r.value].events[0].id)
      then Some(n - 1) else r
  }

  function DropFirst(enc: Encoding, s: State, t: nat): State
    requires t in s.turns && s.turns[t].events != []
  {
    var turn := s.turns[t];
    var size := enc(turn.events[0]);
    s.(turns := s.turns[t := turn.(events := turn.events[1..], bytes := Monus(turn.bytes, size))],
       replayBytes := Monus(s.replayBytes, size))
  }

  lemma {:induction false} DropFirstCounts(enc: Encoding, s: State, t: nat, n: nat)
    requires t in s.turns && s.turns[t].events != []
    ensures CountEvents(DropFirst(enc, s, t).turns, n) == CountEvents(s.turns, n) - if t < n then 1 else 0
  {
    if n > 0 { DropFirstCounts(enc, s, t, n - 1); }
  }

  /** Removes the globally oldest events until `size` more bytes fit. */
  function Evict(enc: Encoding, s: State, size: nat): State
    decreases CountEvents(s.turns, s.nextTurn)
  {
    if s.replayBytes + size <= MAX_REPLAY_BYTES then s
    else
      match Oldest(s.turns, s.nextTurn)
      case None => s
      case Some(t) =>
        DropFirstCounts(enc, s, t, s.nextTurn);
        Evict(enc, DropFirst(enc, s, t), size)
  }

  /** Stores and sends an event, keeping the last 256 of its turn. */
  function Append(enc: Encoding, s: State, e: Event): State
    requires e.turn in s.turns
  {
    var turn := s.turns[e.turn];
    var grown := turn.events + [e];
    var full := |grown| > MAX_EVENTS_PER_TURN;
    var kept := if full then grown[1..] else grown;
    var lost := if full then enc(grown[0]) else 0;
    s.(turns := s.turns[e.turn := turn.(events := kept, bytes := Monus(turn.bytes + enc(e), lost))],
       replayBytes := Monus(s.replayBytes + enc(e), lost),
       published := s.published + [e])
  }

  function NextEvent(s: State, t: nat, kind: EventKind, terminal: bool): Event {
    Event(s.nextEvent, t, kind, terminal)
  }

  function Numbered(s: State): State {
    s.(nextEvent := s.nextEvent + 1)
  }

  predicate Fits(enc: Encoding, s: State, t: nat, kind: EventKind, terminal: bool) {
    enc(NextEvent(s, t, kind, terminal)) <= MAX_EVENT_BYTES
  }

  /** `push_event`: an oversized event only burns its id. */
  function Push(enc: Encoding, s: State, t: nat, kind: EventKind, terminal: bool): State {
    var e := NextEvent(s, t, kind, terminal);
    if enc(e) > MAX_EVENT_BYTES then Numbered(s)
    else
      var room := Evict(enc, Numbered(s), enc(e));
      if room.replayBytes + enc(e) > MAX_REPLAY_BYTES || t !in room.turns then room
      else Append(enc, room, e)
  }

  // ---------------------------------------------------------------------------
  // Threads, turns and subscriptions.

  function LiveTurns(turns: map<nat, Turn>): map<nat, Turn> {
    map t | t in turns && !IsTerminal(turns[t].status) :: turns[t]
  }

  function Prune(s: State): State {
    var kept := LiveTurns(s.turns);
    s.(turns := kept,
       replayBytes := SumBytes(kept, s.nextTurn),
       approvals := map a | a in s.approvals && (s.approvals[a].status == Pending || s.approvals[a].turn in kept) :: s.approvals[a])
  }

  datatype Reply =
    | Done
    | NotReady | Saturated | TurnCapacity | ThreadCapacity | NotFound | TurnTerminal
    | JournalUnavailable | ApprovalCapacity | DeniedUnreviewable | DeniedOversize
    | AlreadyDecided | ApprovalClosed | DeliveryFailed | TurnClosed | InterruptTimeout

  function CreateThread(s: State): (State, Reply) {
    var room := if |s.threads| >= MAX_THREADS then Prune(s) else s;
    if |room.threads| >= MAX_THREADS then (room, ThreadCapacity)
    else (room.(threads := room.threads + {room.nextThread}, nextThread := room.nextThread + 1), Done)
  }

  function AdmitTurn(s: State, thread: nat): State {
    s.(nextTurn := s.nextTurn + 1, active := s.active + 1,
       turns := s.turns[s.nextTurn := Turn(thread, Running, [], 0, true, false)])
  }

  function Room(s: State): State {
    if |s.turns| >= MAX_TURNS then Prune(s) else s
  }

  function CreateTurn(enc: Encoding, s: State, thread: nat, journal: bool): (State, Reply) {
    if !journal then (s.(ready := false), JournalUnavailable)
    else if !s.ready then (s, NotReady)
    else if s.active >= MAX_CONCURRENT_TURNS then (s, Saturated)
    else
      var room := Room(s);
      if |room.turns| >= MAX_TURNS then (room, TurnCapacity)
      else if thread !in room.threads then (room, NotFound)
      else (Push(enc, AdmitTurn(room, thread), room.nextTurn, TurnBegan, false), Done)
  }

  /** The retained events after `lastSeen`, and whether the turn was over. */
  datatype Subscription = Subscription(replay: seq<Event>, terminal: bool, controller: bool)

  function After(events: seq<Event>, lastSeen: nat): seq<Event> {
    if events == [] then []
    else if events[0].id > lastSeen then [events[0]] + After(events[1..], lastSeen)
    else After(events[1..], lastSeen)
  }

  function Subscribe(s: State, t: nat, lastSeen: nat, observer: bool): (State, Option<Subscription>) {
    if t !in s.turns then (s, None)
    else
      var turn := s.turns[t];
      var over := IsTerminal(turn.status);
      var controls := !observer && !over && !turn.controller;
      (s.(turns := s.turns[t := turn.(controller := turn.controller || controls)]),
       Some(Subscription(After(turn.events, lastSeen), over, controls)))
  }

  // ---------------------------------------------------------------------------
  // Approvals.

  function WithStatus(s: State, a: nat, status: ApprovalStatus): State
    requires a in s.approvals
  {
    s.(approvals := s.approvals[a := s.approvals[a].(status := status)])
  }

  function AddApproval(s: State, t: nat, allow: bool): State
    requires t in s.turns
  {
    s.(nextApproval := s.nextApproval + 1,
       approvals := s.approvals[s.nextApproval := Approval(t, Pending, allow, true)],
       turns := s.turns[t := s.turns[t].(status := WaitingApproval)])
  }

  function RegisterPending(enc: Encoding, s: State, t: nat, allow: bool, body: string): (State, Reply) {
    if !allow then (s, DeniedUnreviewable)
    else if |s.approvals| >= MAX_APPROVALS || t !in s.turns || IsTerminal(s.turns[t].status) then (s, ApprovalCapacity)
    else if !Fits(enc, s, t, ApprovalAsked(s.nextApproval, body), false) then (s, DeniedOversize)
    else (Push(enc, AddApproval(s, t, allow), t, ApprovalAsked(s.nextApproval, body), false), Done)
  }

  /** Takes the sender of a pending approval. */
  function Claim(s: State, a: nat): State
    requires a in s.approvals
  {
    s.(approvals := s.approvals[a := s.approvals[a].(status := Delivering, sender := false)])
  }

  function Deliver(s: State, a: nat, decision: Decision, acknowledged: bool, status: ApprovalStatus): State
    requires a in s.approvals
  {
    WithStatus(s, a, status).(deliveries := s.deliveries + [Delivery(a, decision, acknowledged)])
  }

  function Decide(enc: Encoding, s: State, a: nat, approve: bool, acknowledged: bool): (State, Reply) {
    if a !in s.approvals then (s, NotFound)
    else if s.approvals[a].status != Pending then (s, AlreadyDecided)
    else if !s.approvals[a].sender then (Claim(s, a), ApprovalClosed)
    else
      var grant := approve && s.approvals[a].allow;
      var outcome := if grant && acknowledged then Approved else Denied;
      var delivered := Deliver(Claim(s, a), a, if grant then Allow else Deny, acknowledged, outcome);
      if !acknowledged then (delivered, DeliveryFailed)
      else (Push(enc, delivered, s.approvals[a].turn, ApprovalSettled(a, outcome, "decision"), false), Done)
  }

  // ---------------------------------------------------------------------------
  // Ending a turn.

  ghost function PendingOf(s: State, t: nat): set<nat> {
    set a | a in s.approvals && s.approvals[a].turn == t && s.approvals[a].status == Pending
  }

  /** The turn becomes terminal, its admission is released, and every approval
      still pending on it is denied without using its sender. */
  function Close(s: State, t: nat, status: TurnStatus): State
    requires t in s.turns
  {
    s.(turns := s.turns[t := s.turns[t].(status := status)],
       active := Monus(s.active, 1),
       approvals := map a | a in s.approvals ::
         if s.approvals[a].turn == t && s.approvals[a].status == Pending
         then s.approvals[a].(status := Denied, sender := false) else s.approvals[a])
  }

  function PushDenials(enc: Encoding, s: State, t: nat, order: seq<nat>): State
    decreases |order|
  {
    if order == [] then s
    else PushDenials(enc, Push(enc, s, t, ApprovalSettled(order[0], Denied, "terminal"), false), t, order[1..])
  }

  /** `order` is the order in which the owner happens to visit the approvals
      still pending on the turn. */
  function Terminalize(enc: Encoding, s: State, t: nat, status: TurnStatus, detail: string, order: seq<nat>): State {
    if t !in s.turns || IsTerminal(s.turns[t].status) then s
    else Push(enc, PushDenials(enc, Close(s, t, status), t, order), t, TurnOver(status, detail), true)
  }

  predicate TimesOut(authority: Authority) {
    authority == ApprovalTimeout || authority == TurnDeadline
  }

  /** Takes the sender of every pending approval of the turn at once. */
  function ClaimAll(s: State, t: nat): State {
    s.(approvals := map a | a in s.approvals ::
         if s.approvals[a].turn == t && s.approvals[a].status == Pending
         then s.approvals[a].(status := Delivering, sender := false) else s.approvals[a])
  }

  /** Delivers the claimed decisions in turn and stops at the first failure. */
  function DeliverAll(enc: Encoding, s: State, t: nat, authority: Authority, order: seq<nat>, acks: seq<bool>): (State, bool)
    requires forall a :: a in order ==> a in s.approvals
    decreases |order|
  {
    if order == [] then (s, true)
    else
      var ack := acks != [] && acks[0];
      var told := Deliver(s, order[0], if TimesOut(authority) then Timeout else Deny, ack, Denied);
      var next := Push(enc, told, t, ApprovalSettled(order[0], Denied, "interrupt"), false);
      PushKeepsApprovals(enc, told, t, ApprovalSettled(order[0], Denied, "interrupt"), false);
      if !ack then (next, false)
      else DeliverAll(enc, next, t, authority, order[1..], acks[1..])
  }

  lemma {:induction false} EvictKeepsRest(enc: Encoding, s: State, size: nat)
    ensures Evict(enc, s, size) == s.(turns := Evict(enc, s, size).turns, replayBytes := Evict(enc, s, size).replayBytes)
    decreases CountEvents(s.turns, s.nextTurn)
  {
    if s.replayBytes + size > MAX_REPLAY_BYTES {
      match Oldest(s.turns, s.nextTurn)
      case None =>
      case Some(t) =>
        DropFirstCounts(enc, s, t, s.nextTurn);
        EvictKeepsRest(enc, DropFirst(enc, s, t), size);
    }
  }

  lemma PushKeepsApprovals(enc: Encoding, s: State, t: nat, kind: EventKind, terminal: bool)
    ensures var p := Push(enc, s, t, kind, terminal);
            p == s.(turns := p.turns, replayBytes := p.replayBytes, published := p.published, nextEvent := s.nextEvent + 1)
  {
    var e := NextEvent(s, t, kind, terminal);
    EvictKeepsRest(enc, Numbered(s), enc(e));
  }

  /** What the runtime answered to the control command, if it could be sent. */
  datatype Control = ChannelClosed | ReportsInterrupted | ReportsUnknown | AckDropped | AckTimedOut

  /** What the runtime's answer makes of the turn. */
  function Answer(enc: Encoding, s: State, t: nat, authority: Authority, control: Control): (State, Reply) {
    match control
    case AckTimedOut => (s, InterruptTimeout)
    case ReportsInterrupted => (Terminalize(enc, s, t, if TimesOut(authority) then Failed else Interrupted, "interrupt", []), Done)
    case _ => (Terminalize(enc, s, t, Failed, "delivery_ambiguous", []), Done)
  }

  function Interrupt(enc: Encoding, s: State, t: nat, authority: Authority, order: seq<nat>, acks: seq<bool>, control: Control): (State, Reply)
    requires forall a :: a in order ==> a in s.approvals
  {
    if t !in s.turns then (s, NotFound)
    else if IsTerminal(s.turns[t].status) then (s, TurnTerminal)
    else
      var (told, all) := DeliverAll(enc, ClaimAll(s, t), t, authority, order, acks);
      if !all then (told, DeliveryFailed)
      else if !s.turns[t].control then (told, TurnClosed)
      else Answer(enc, told, t, authority, control)
  }

  datatype RunResult = RunCompleted(summary: string) | RunInterrupted | RunRejected | RunFailed

  function Finish(enc: Encoding, s: State, t: nat, result: RunResult, order: seq<nat>): State {
    var noted := if result.RunFailed? then s.(ready := false) else s;
    match result
    case RunCompleted(summary) => Terminalize(enc, noted, t, Completed, summary, order)
    case RunInterrupted => Terminalize(enc, noted, t, Interrupted, "interrupted", order)
    case RunRejected => Terminalize(enc, noted, t, Failed, "turn_rejected", order)
    case RunFailed => Terminalize(enc, noted, t, Failed, "runtime_failure", order)
  }

  // ---------------------------------------------------------------------------
  // Runs.

  datatype Command =
    | Bootstrap(admitted: bool)
    | NewThread
    | NewTurn(thread: nat, journal: bool)
    | Watch(turn: nat, lastSeen: nat, observer: bool)
    | Rule(approval: nat, approve: bool, acknowledged: bool)
    | Stop(turn: nat, authority: Authority, order: seq<nat>, acks: seq<bool>, control: Control)
    | ControllerDrop(turn: nat, order: seq<nat>, acks: seq<bool>, control: Control)
    | Ask(turn: nat, allow: bool, body: string)
    | ApprovalDeadline(turn: nat, approval: nat, order: seq<nat>, acks: seq<bool>, control: Control)
    | Finished(turn: nat, result: RunResult, order: seq<nat>)

  /** `order` visits each approval pending on the turn exactly once. */
  ghost predicate Visits(s: State, t: nat, order: seq<nat>) {
    && (forall a :: a in order <==> a in PendingOf(s, t))
    && (forall i, j :: 0 <= i < j < |order| ==> order[i] != order[j])
  }

  ghost predicate Possible(s: State, c: Command) {
    match c
    case Stop(t, _, order, _, _) => Visits(s, t, order)
    case ControllerDrop(t, order, _, _) => Visits(s, t, order)
    case ApprovalDeadline(t, _, order, _, _) => Visits(s, t, order)
    case Finished(t, _, order) => Visits(s, t, order)
    case _ => true
  }

  function ReleaseController(s: State, t: nat): State {
    if t in s.turns then s.(turns := s.turns[t := s.turns[t].(controller := false)]) else s
  }

  ghost function Step(enc: Encoding, s: State, c: Command): State
    requires Possible(s, c)
  {
    match c
    case Bootstrap(admitted) => s.(ready := admitted)
    case NewThread => CreateThread(s).0
    case NewTurn(thread, journal) => CreateTurn(enc, s, thread, journal).0
    case Watch(t, lastSeen, observer) => Subscribe(s, t, lastSeen, observer).0
    case Rule(a, approve, acknowledged) => Decide(enc, s, a, approve, acknowledged).0
    case Stop(t, authority, order, acks, control) => Interrupt(enc, s, t, authority, order, acks, control).0
    case ControllerDrop(t, order, acks, control) => ReleaseController(Interrupt(enc, s, t, SseDrop, order, acks, control).0, t)
    case Ask(t, allow, body) => RegisterPending(enc, s, t, allow, body).0
    case ApprovalDeadline(t, a, order, acks, control) =>
      if a in s.approvals && s.approvals[a].turn == t && s.approvals[a].status == Pending
      then Interrupt(enc, s, t, ApprovalTimeout, order, acks, control).0 else s
    case Finished(t, result, order) => Finish(enc, s, t, result, order)
  }

  /** `trace[i + 1]` is `trace[i]` after command `i`. */
  ghost predicate IsRun(enc: Encoding, trace: seq<State>, commands: seq<Command>) {
    && |trace| == |commands| + 1
    && forall i :: 0 <= i < |commands| ==> Possible(trace[i], commands[i]) && trace[i + 1] == Step(enc, trace[i], commands[i])
  }
}
