/** The worker/turn state machine with its bounded window of internal events
    (src/state.rs). `Session` is the abstract value; the class `SessionState`
    holds the fields and changes them in place. */
module Session {
  import opened Basics
  import opened Text

  const MAX_EVENTS := 256
  const MAX_EVENT_BYTES := 16384

  datatype Worker = WIdle | ThreadActive | TurnActive | ShuttingDown | Stopped
  datatype Turn = TIdle | ThreadStarted | TurnStarted | AwaitingApproval | Interrupted | Completed | Failed
  datatype Decision = Allow | Deny | Timeout
  datatype Source = Owner | Model | System

  datatype EventKind =
    | WorkerTransition(fromWorker: Worker, toWorker: Worker)
    | TurnTransition(fromTurn: Turn, toTurn: Turn)
    | ApprovalRequested(key: string, action: string)
    | ApprovalDecided(key: string, action: string, decision: Decision)
    | InterruptRequested(thread: string, turn: string)
    | Poisoned

  datatype Event = Event(number: nat, kind: EventKind)

  /** `emitted` is every event ever given a number; `events` is what is kept. */
  datatype Session = Session(
    worker: Worker, turn: Turn, poisoned: bool, next: nat,
    events: seq<Event>, bytes: nat, emitted: seq<Event>)

  const FRESH := Session(WIdle, TIdle, false, 1, [], 0, [])

  function EventBytes(k: EventKind): nat {
    match k
    case ApprovalRequested(key, action) => SaturatingAdd(SaturatingAdd(64, Utf8Len(key)), Utf8Len(action))
    case ApprovalDecided(key, action, _) => SaturatingAdd(SaturatingAdd(64, Utf8Len(key)), Utf8Len(action))
    case InterruptRequested(thread, turn) => SaturatingAdd(SaturatingAdd(64, Utf8Len(thread)), Utf8Len(turn))
    case _ => 32
  }

  function TotalBytes(events: seq<Event>): nat {
    if events == [] then 0 else EventBytes(events[0].kind) + TotalBytes(events[1..])
  }

  // ---------------------------------------------------------------------------
  // Operations on the abstract value.

  /** The longest suffix that leaves room for one more event of this size. */
  function Room(events: seq<Event>, bytes: nat): seq<Event> {
    if events == [] || (|events| < MAX_EVENTS && TotalBytes(events) + bytes <= MAX_EVENT_BYTES) then events
    else Room(events[1..], bytes)
  }

  function Emit(s: Session, k: EventKind): Session {
    var kept := Room(s.events, EventBytes(k));
    if EventBytes(k) > MAX_EVENT_BYTES then s.(events := kept, bytes := TotalBytes(kept))
    else
      var e := Event(s.next, k);
      s.(events := kept + [e], bytes := TotalBytes(kept) + EventBytes(k), next := s.next + 1, emitted := s.emitted + [e])
  }

  function Poison(s: Session): Session {
    if s.poisoned then s else Emit(s.(poisoned := true), Poisoned)
  }

  predicate WorkerMay(a: Worker, b: Worker) {
    (a, b) in {(WIdle, ThreadActive), (ThreadActive, TurnActive), (ThreadActive, ShuttingDown),
               (TurnActive, ShuttingDown), (ShuttingDown, Stopped)}
  }

  predicate TurnMay(a: Turn, b: Turn) {
    match a
    case TIdle => b == ThreadStarted
    case ThreadStarted => b == TurnStarted
    case TurnStarted => b in {AwaitingApproval, Interrupted, Completed, Failed}
    case AwaitingApproval => b in {TurnStarted, Interrupted}
    case Interrupted => b == Failed
    case Completed => false
    case Failed => false
  }

  function MoveWorker(s: Session, to: Worker): (Session, bool) {
    if WorkerMay(s.worker, to) then (Emit(s.(worker := to), WorkerTransition(s.worker, to)), true)
    else (Poison(s), false)
  }

  function MoveTurn(s: Session, to: Turn): (Session, bool) {
    if TurnMay(s.turn, to) then (Emit(s.(turn := to), TurnTransition(s.turn, to)), true)
    else (Poison(s), false)
  }

  datatype Op =
    | OnThreadStarted
    | OnTurnStarted
    | OnApprovalRequested(key: string, action: string)
    | OnApprovalDecided(key: string, action: string, decision: Decision, source: Source)
    | OnInterruptRequested(thread: string, turn: string)
    | OnTurnCompleted
    | OnTurnFailed
    | OnShutdown
    | DoPoison

  /** The primitive steps every call is made of. */
  datatype Machine = Machine(
    worker: (Session, Worker) -> (Session, bool), turn: (Session, Turn) -> (Session, bool),
    emit: (Session, EventKind) -> Session, poison: Session -> Session)

  const STEPS := Machine(MoveWorker, MoveTurn, Emit, Poison)

  function Do(m: Machine, s: Session, op: Op): (Session, bool) {
    match op
    case OnThreadStarted =>
      var (a, ok) := m.worker(s, ThreadActive);
      if ok then m.turn(a, ThreadStarted) else (a, false)
    case OnTurnStarted =>
      var (a, ok) := m.worker(s, TurnActive);
      if ok then m.turn(a, TurnStarted) else (a, false)
    case OnApprovalRequested(key, action) =>
      var (a, ok) := m.turn(s, AwaitingApproval);
      if ok then (m.emit(a, ApprovalRequested(key, action)), true) else (a, false)
    case OnApprovalDecided(key, action, decision, source) =>
      if source == Model && decision == Allow then (m.poison(s), false)
      else m.turn(m.emit(s, ApprovalDecided(key, action, decision)), if decision == Allow then TurnStarted else Interrupted)
    case OnInterruptRequested(thread, turn) => m.turn(m.emit(s, InterruptRequested(thread, turn)), Interrupted)
    case OnTurnCompleted => m.turn(s, Completed)
    case OnTurnFailed => m.turn(s, Failed)
    case OnShutdown =>
      var (a, ok) := m.worker(s, ShuttingDown);
      if ok then m.worker(a, Stopped) else (a, false)
    case DoPoison => (m.poison(s), true)
  }

  /** One call: the new session, and whether the call returned Ok. */
  function Apply(s: Session, op: Op): (Session, bool) {
    Do(STEPS, s, op)
  }

  function Run(s: Session, ops: seq<Op>): Session
    decreases |ops|
  {
    if ops == [] then s else Run(Apply(s, ops[0]).0, ops[1..])
  }

  // ---------------------------------------------------------------------------
  // The object.

  class SessionState {
    var worker: Worker
    var turn: Turn
    var poisoned: bool
    var nextEventSeq: nat
    var events: seq<Event>
    var eventBytes: nat
    ghost var emitted: seq<Event>

    ghost function View(): Session
      reads this
    {
      Session(worker, turn, poisoned, nextEventSeq, events, eventBytes, emitted)
    }

    ghost predicate Valid()
      reads this
    {
      eventBytes == TotalBytes(events) && eventBytes <= MAX_EVENT_BYTES
    }

    constructor ()
      ensures Valid() && View() == FRESH
    {
      worker, turn, poisoned := WIdle, TIdle, false;
      nextEventSeq, events, eventBytes := 1, [], 0;
      emitted := [];
    }

    method EmitEvent(kind: EventKind)
      requires Valid()
      modifies this`events, this`eventBytes, this`nextEventSeq, this`emitted
      ensures Valid() && View() == Emit(old(View()), kind)
    {
      var bytes := EventBytes(kind);
      while events != [] && (|events| >= MAX_EVENTS || SaturatingAdd(eventBytes, bytes) > MAX_EVENT_BYTES)
        invariant Valid()
        invariant Room(events, bytes) == Room(old(events), bytes)
        invariant emitted == old(emitted) && nextEventSeq == old(nextEventSeq)
        decreases |events|
      {
        var removed := events[0];
        events := events[1..];
        eventBytes := Monus(eventBytes, EventBytes(removed.kind));
      }
      if bytes > MAX_EVENT_BYTES {
        return;
      }
      TotalBytesAppend(events, Event(nextEventSeq, kind));
      events := events + [Event(nextEventSeq, kind)];
      emitted := emitted + [Event(nextEventSeq, kind)];
      nextEventSeq := nextEventSeq + 1;
      eventBytes := SaturatingAdd(eventBytes, bytes);
    }

    method PoisonSession()
      requires Valid()
      modifies this
      ensures Valid() && View() == Poison(old(View()))
    {
      if !poisoned {
        poisoned := true;
        EmitEvent(Poisoned);
      }
    }

    method TransitionWorker(to: Worker) returns (ok: bool)
      requires Valid()
      modifies this
      ensures Valid() && (View(), ok) == MoveWorker(old(View()), to)
    {
      ok := WorkerMay(worker, to);
      if !ok {
        PoisonSession();
        return;
      }
      var from := worker;
      worker := to;
      EmitEvent(WorkerTransition(from, to));
    }

    method TransitionTurn(to: Turn) returns (ok: bool)
      requires Valid()
      modifies this
      ensures Valid() && (View(), ok) == MoveTurn(old(View()), to)
    {
      ok := TurnMay(turn, to);
      if !ok {
        PoisonSession();
        return;
      }
      var from := turn;
      turn := to;
      EmitEvent(TurnTransition(from, to));
    }

    /** Each public call of the source, in its order of checks and emissions. */
    method Call(op: Op) returns (ok: bool)
      requires Valid()
      modifies this
      ensures Valid() && (View(), ok) == Apply(old(View()), op)
    {
      match op
      case OnThreadStarted =>
        ok := TransitionWorker(ThreadActive);
        if ok { ok := TransitionTurn(ThreadStarted); }
      case OnTurnStarted =>
        ok := TransitionWorker(TurnActive);
        if ok { ok := TransitionTurn(TurnStarted); }
      case OnApprovalRequested(key, action) =>
        ok := TransitionTurn(AwaitingApproval);
        if ok { EmitEvent(ApprovalRequested(key, action)); }
      case OnApprovalDecided(key, action, decision, source) =>
        if source == Model && decision == Allow {
          PoisonSession();
          ok := false;
        } else {
          EmitEvent(ApprovalDecided(key, action, decision));
          ok := TransitionTurn(if decision == Allow then TurnStarted else Interrupted);
        }
      case OnInterruptRequested(thread, t) =>
        EmitEvent(InterruptRequested(thread, t));
        ok := TransitionTurn(Interrupted);
      case OnTurnCompleted => ok := TransitionTurn(Completed);
      case OnTurnFailed => ok := TransitionTurn(Failed);
      case OnShutdown =>
        ok := TransitionWorker(ShuttingDown);
        if ok { ok := TransitionWorker(Stopped); }
      case DoPoison =>
        PoisonSession();
        ok := true;
    }
  }

  lemma {:induction false} TotalBytesAppend(events: seq<Event>, e: Event)
    ensures TotalBytes(events + [e]) == TotalBytes(events) + EventBytes(e.kind)
  {
    if events == [] {
      assert [e][1..] == [];
    } else {
      assert (events + [e])[1..] == events[1..] + [e];
      TotalBytesAppend(events[1..], e);
    }
  }

  // ---------------------------------------------------------------------------
  // The event window.

  /** What every session reachable from a fresh one satisfies: the kept events
      are a suffix of the emitted ones within both bounds, numbers run 1, 2, 3
      without gaps, and the byte count is exact. */
  ghost predicate Windowed(s: Session) {
    && IsSuffix(s.events, s.emitted)
    && |s.events| <= MAX_EVENTS
    && s.bytes == TotalBytes(s.events) <= MAX_EVENT_BYTES
    && s.next == |s.emitted| + 1
    && (forall i :: 0 <= i < |s.emitted| ==> s.emitted[i].number == i + 1)
  }

  lemma {:induction false} RoomIsSuffix(events: seq<Event>, bytes: nat)
    ensures IsSuffix(Room(events, bytes), events)
    ensures bytes > MAX_EVENT_BYTES ==> Room(events, bytes) == []
    ensures bytes <= MAX_EVENT_BYTES ==> |Room(events, bytes)| < MAX_EVENTS && TotalBytes(Room(events, bytes)) + bytes <= MAX_EVENT_BYTES
  {
    if events != [] && !(|events| < MAX_EVENTS && TotalBytes(events) + bytes <= MAX_EVENT_BYTES) {
      RoomIsSuffix(events[1..], bytes);
    }
  }

  lemma SuffixExtends<T>(a: seq<T>, b: seq<T>, c: seq<T>, e: T)
    requires IsSuffix(a, b) && IsSuffix(b, c)
    ensures IsSuffix(a, c) && IsSuffix(a + [e], c + [e])
  {
    assert c[|c| - |a|..] == b[|b| - |a|..];
  }

  lemma EmitKeepsWindow(s: Session, k: EventKind)
    requires Windowed(s)
    ensures Windowed(Emit(s, k))
  {
    var kept := Room(s.events, EventBytes(k));
    RoomIsSuffix(s.events, EventBytes(k));
    SuffixExtends(kept, s.events, s.emitted, Event(s.next, k));
    TotalBytesAppend(kept, Event(s.next, k));
  }

  // ---------------------------------------------------------------------------
  // The emitted events are a complete, legal history of the session.

  datatype Phase = Phase(worker: Worker, turn: Turn, poisoned: bool)

  /** What one event does to a reader's view; `None` if it could not happen. */
  function Replay1(p: Phase, k: EventKind): Option<Phase> {
    match k
    case WorkerTransition(a, b) => if p.worker == a && WorkerMay(a, b) then Some(p.(worker := b)) else None
    case TurnTransition(a, b) => if p.turn == a && TurnMay(a, b) then Some(p.(turn := b)) else None
    case Poisoned => if p.poisoned then None else Some(p.(poisoned := true))
    case _ => Some(p)
  }

  function Replay(events: seq<Event>): Option<Phase> {
    if events == [] then Some(Phase(WIdle, TIdle, false))
    else
      var before := Replay(events[..|events| - 1]);
      if before.None? then None else Replay1(before.value, events[|events| - 1].kind)
  }

  ghost predicate Replays(s: Session) {
    Replay(s.emitted) == Some(Phase(s.worker, s.turn, s.poisoned))
  }

  ghost predicate Sound(s: Session) {
    Windowed(s) && Replays(s)
  }

  /** Emitting the event that describes a change keeps the history complete. */
  lemma EmitSound(s: Session, after: Session, k: EventKind)
    requires Sound(s)
    requires after == s.(worker := after.worker, turn := after.turn, poisoned := after.poisoned)
    requires Replay1(Phase(s.worker, s.turn, s.poisoned), k) == Some(Phase(after.worker, after.turn, after.poisoned))
    requires EventBytes(k) <= MAX_EVENT_BYTES || after == s
    ensures Sound(Emit(after, k))
  {
    EmitKeepsWindow(after, k);
    var e := Event(s.next, k);
    assert (s.emitted + [e])[..|s.emitted|] == s.emitted;
  }

  lemma PoisonSound(s: Session)
    requires Sound(s)
    ensures Sound(Poison(s)) && Poison(s).poisoned
    ensures Poison(s).worker == s.worker && Poison(s).turn == s.turn
  {
    if !s.poisoned { EmitSound(s, s.(poisoned := true), Poisoned); }
  }

  lemma MoveWorkerSound(s: Session, to: Worker)
    requires Sound(s)
    ensures var (next, ok) := MoveWorker(s, to);
            && Sound(next) && next.turn == s.turn
            && (ok ==> next.worker == to && next.poisoned == s.poisoned)
            && (!ok ==> next.poisoned)
            && (s.poisoned ==> next.poisoned)
  {
    PoisonSound(s);
    if WorkerMay(s.worker, to) { EmitSound(s, s.(worker := to), WorkerTransition(s.worker, to)); }
  }

  lemma MoveTurnSound(s: Session, to: Turn)
    requires Sound(s)
    ensures var (next, ok) := MoveTurn(s, to);
            && Sound(next)
            && (ok ==> TurnMay(s.turn, to) && next.turn == to && next.poisoned == s.poisoned)
            && (!ok ==> next.poisoned && next.turn == s.turn)
            && (s.poisoned ==> next.poisoned)
  {
    PoisonSound(s);
    if TurnMay(s.turn, to) { EmitSound(s, s.(turn := to), TurnTransition(s.turn, to)); }
  }

  lemma NoteSound(s: Session, k: EventKind)
    requires Sound(s) && NoteKind(k)
    ensures Sound(Emit(s, k))
    ensures var next := Emit(s, k); next.worker == s.worker && next.turn == s.turn && next.poisoned == s.poisoned
  {
    EmitSound(s, s, k);
  }

  /** What one call may do: the window and the history are kept, an Err leaves
      the session poisoned, poison is never lifted, and the turn moves at most one
      legal step, in a call that returns Ok. */
  ghost predicate StepSound(s: Session, next: Session, ok: bool) {
    && Sound(next)
    && (!ok || s.poisoned ==> next.poisoned)
    && (next.turn == s.turn || (ok && TurnMay(s.turn, next.turn)))
  }

  predicate NoteKind(k: EventKind) {
    k.ApprovalRequested? || k.ApprovalDecided? || k.InterruptRequested?
  }

  predicate WorkerMoved(s: Session, next: Session, ok: bool) {
    next.turn == s.turn && (!ok || s.poisoned ==> next.poisoned)
  }

  predicate TurnMoved(s: Session, to: Turn, next: Session, ok: bool) {
    (!ok || s.poisoned ==> next.poisoned) && if ok then TurnMay(s.turn, to) && next.turn == to else next.turn == s.turn
  }

  /** What the primitive steps keep, whatever `sound` is. */
  ghost predicate Keeps(m: Machine, sound: Session -> bool) {
    && (forall s, to :: sound(s) ==> var (next, ok) := m.worker(s, to); sound(next) && WorkerMoved(s, next, ok))
    && (forall s, to :: sound(s) ==> var (next, ok) := m.turn(s, to); sound(next) && TurnMoved(s, to, next, ok))
    && (forall s, k :: sound(s) && NoteKind(k) ==> var next := m.emit(s, k); sound(next) && next.turn == s.turn && next.poisoned == s.poisoned)
    && (forall s :: sound(s) ==> var next := m.poison(s); sound(next) && next.turn == s.turn && next.poisoned)
  }

  lemma DoKeeps(m: Machine, sound: Session -> bool, s: Session, op: Op)
    requires Keeps(m, sound) && sound(s)
    ensures var (next, ok) := Do(m, s, op);
            && sound(next) && (!ok || s.poisoned ==> next.poisoned) && (next.turn == s.turn || (ok && TurnMay(s.turn, next.turn)))
            && (ok && op.OnTurnCompleted? ==> next.turn == Completed)
            && (ok && op.OnApprovalDecided? ==> next.turn == if op.decision == Allow then TurnStarted else Interrupted)
  {
    match op
    case OnThreadStarted => assert sound(m.worker(s, ThreadActive).0);
    case OnTurnStarted => assert sound(m.worker(s, TurnActive).0);
    case OnApprovalRequested(key, action) =>
      assert sound(m.turn(s, AwaitingApproval).0);
      assert NoteKind(ApprovalRequested(key, action));
    case OnApprovalDecided(key, action, decision, source) =>
      assert NoteKind(ApprovalDecided(key, action, decision));
      assert sound(m.emit(s, ApprovalDecided(key, action, decision)));
      assert sound(m.poison(s));
    case OnInterruptRequested(thread, turn) =>
      assert NoteKind(InterruptRequested(thread, turn));
      assert sound(m.emit(s, InterruptRequested(thread, turn)));
    case OnTurnCompleted => assert sound(m.turn(s, Completed).0);
    case OnTurnFailed => assert sound(m.turn(s, Failed).0);
    case OnShutdown => assert sound(m.worker(s, ShuttingDown).0);
    case DoPoison => assert sound(m.poison(s));
  }

  lemma StepsKeepSound()
    ensures Keeps(STEPS, Sound)
  {
    forall s, to | Sound(s) ensures var (next, ok) := STEPS.worker(s, to); Sound(next) && WorkerMoved(s, next, ok) { MoveWorkerSound(s, to); }
    forall s, to | Sound(s) ensures var (next, ok) := STEPS.turn(s, to); Sound(next) && TurnMoved(s, to, next, ok) { MoveTurnSound(s, to); }
    forall s, k | Sound(s) && NoteKind(k)
      ensures var next := STEPS.emit(s, k); Sound(next) && next.turn == s.turn && next.poisoned == s.poisoned {
      NoteSound(s, k);
    }
    forall s | Sound(s) ensures var next := STEPS.poison(s); Sound(next) && next.turn == s.turn && next.poisoned { PoisonSound(s); }
  }

  /** Every call is sound; a completion or a decision that returns Ok leaves the
      turn where it says. */
  lemma ApplySound(s: Session, op: Op)
    requires Sound(s)
    ensures StepSound(s, Apply(s, op).0, Apply(s, op).1)
    ensures Apply(s, op).1 && op.OnTurnCompleted? ==> Apply(s, op).0.turn == Completed
    ensures Apply(s, op).1 && op.OnApprovalDecided? ==> Apply(s, op).0.turn == if op.decision == Allow then TurnStarted else Interrupted
  {
    StepsKeepSound();
    DoKeeps(STEPS, Sound, s, op);
  }

  /** In every session reachable from a fresh one, the kept events are a suffix
      of the emitted ones, within 256 events and 16 KiB, numbered without gaps,
      and replaying the emitted events gives exactly the current phase. */
  lemma {:induction false} RunSound(s: Session, ops: seq<Op>)
    requires Sound(s)
    ensures Sound(Run(s, ops))
    ensures s.poisoned ==> Run(s, ops).poisoned
    decreases |ops|
  {
    if ops != [] {
      ApplySound(s, ops[0]);
      RunSound(Apply(s, ops[0]).0, ops[1..]);
    }
  }

  lemma FreshIsSound()
    ensures Sound(FRESH)
  {
  }

  lemma {:induction false} RunSplits(s: Session, a: seq<Op>, b: seq<Op>)
    ensures Run(s, a + b) == Run(Run(s, a), b)
    decreases |a|
  {
    if a == [] {
      assert a + b == b;
    } else {
      assert (a + b)[1..] == a[1..] + b;
      RunSplits(Apply(s, a[0]).0, a[1..], b);
    }
  }

  /** A call that returned Err anywhere in a run leaves the session poisoned
      after every continuation of the run. */
  lemma ErrIsForever(before: seq<Op>, op: Op, after: seq<Op>)
    requires !Apply(Run(FRESH, before), op).1
    ensures Run(FRESH, before + [op] + after).poisoned
  {
    FreshIsSound();
    RunSound(FRESH, before);
    ApplySound(Run(FRESH, before), op);
    RunSplits(FRESH, before, [op]);
    RunSplits(FRESH, before + [op], after);
    OneStep(Run(FRESH, before), op);
    RunSound(Apply(Run(FRESH, before), op).0, after);
  }

  lemma OneStep(s: Session, op: Op)
    ensures Run(s, [op]) == Apply(s, op).0
  {
    assert [op][1..] == [];
  }

  predicate Stopping(t: Turn) {
    t == Interrupted || t == Failed
  }

  lemma {:induction false} StoppingIsAbsorbing(s: Session, ops: seq<Op>)
    requires Sound(s) && Stopping(s.turn)
    ensures Stopping(Run(s, ops).turn) && Sound(Run(s, ops))
    decreases |ops|
  {
    if ops != [] {
      ApplySound(s, ops[0]);
      StoppingIsAbsorbing(Apply(s, ops[0]).0, ops[1..]);
    }
  }

  /** Once a denial or timeout was accepted, the turn never completes: after any
      continuation it is interrupted or failed, and reporting completion is an
      error that poisons the session. */
  lemma DeniedTurnNeverCompletes(before: seq<Op>, key: string, action: string, decision: Decision, source: Source, after: seq<Op>)
    requires decision != Allow
    requires Apply(Run(FRESH, before), OnApprovalDecided(key, action, decision, source)).1
    ensures var s := Run(FRESH, before + [OnApprovalDecided(key, action, decision, source)] + after);
            && Stopping(s.turn)
            && !Apply(s, OnTurnCompleted).1 && Apply(s, OnTurnCompleted).0.poisoned
  {
    var op := OnApprovalDecided(key, action, decision, source);
    FreshIsSound();
    RunSound(FRESH, before);
    ApplySound(Run(FRESH, before), op);
    RunSplits(FRESH, before, [op]);
    RunSplits(FRESH, before + [op], after);
    OneStep(Run(FRESH, before), op);
    var s := Apply(Run(FRESH, before), op).0;
    StoppingIsAbsorbing(s, after);
    ApplySound(Run(s, after), OnTurnCompleted);
  }
}
