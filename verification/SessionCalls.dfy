/** What each call on a session does (src/state.rs), said of the state before it
    alone: when it returns Ok, where it leaves worker and turn, when it poisons
    the session, and which request, decision or interrupt it puts on record. */
module SessionCalls {
  import opened Session

  /** The call returns Ok. */
  predicate Legal(s: Session, op: Op) {
    match op
    case OnThreadStarted => s.worker == WIdle && s.turn == TIdle
    case OnTurnStarted => s.worker == ThreadActive && (s.turn == ThreadStarted || s.turn == AwaitingApproval)
    case OnApprovalRequested(_, _) => s.turn == TurnStarted
    case OnApprovalDecided(_, _, Allow, source) => source != Model && (s.turn == ThreadStarted || s.turn == AwaitingApproval)
    case OnApprovalDecided(_, _, _, _) => s.turn == TurnStarted || s.turn == AwaitingApproval
    case OnInterruptRequested(_, _) => s.turn == TurnStarted || s.turn == AwaitingApproval
    case OnTurnCompleted => s.turn == TurnStarted
    case OnTurnFailed => s.turn == TurnStarted || s.turn == Interrupted
    case OnShutdown => s.worker == ThreadActive || s.worker == TurnActive
    case DoPoison => true
  }

  function WorkerAfter(s: Session, op: Op): Worker {
    if op.OnThreadStarted? && s.worker == WIdle then ThreadActive
    else if op.OnTurnStarted? && s.worker == ThreadActive then TurnActive
    else if op.OnShutdown? && (s.worker == ThreadActive || s.worker == TurnActive) then Stopped
    else s.worker
  }

  function TurnTo(s: Session, op: Op): Turn {
    match op
    case OnThreadStarted => ThreadStarted
    case OnTurnStarted => TurnStarted
    case OnApprovalRequested(_, _) => AwaitingApproval
    case OnApprovalDecided(_, _, decision, _) => if decision.Allow? then TurnStarted else Interrupted
    case OnInterruptRequested(_, _) => Interrupted
    case OnTurnCompleted => Completed
    case OnTurnFailed => Failed
    case OnShutdown => s.turn
    case DoPoison => s.turn
  }

  /** What the call puts on record besides transitions: a request once it is
      accepted, a decision unless the model allows itself, an interrupt always. */
  function NoteOf(s: Session, op: Op): seq<EventKind> {
    match op
    case OnApprovalRequested(key, action) => if Legal(s, op) then [ApprovalRequested(key, action)] else []
    case OnApprovalDecided(key, action, decision, source) =>
      if source.Model? && decision.Allow? then [] else [ApprovalDecided(key, action, decision)]
    case OnInterruptRequested(thread, turn) => [InterruptRequested(thread, turn)]
    case _ => []
  }

  function Fitting(notes: seq<EventKind>): seq<EventKind> {
    if notes == [] || EventBytes(notes[0]) > MAX_EVENT_BYTES then [] else [notes[0]]
  }

  /** The requests, decisions and interrupts among the events, in order. */
  function NotesOf(events: seq<Event>): seq<EventKind> {
    if events == [] then []
    else
      var last := events[|events| - 1].kind;
      NotesOf(events[..|events| - 1]) + if NoteKind(last) then [last] else []
  }

  function Notes(s: Session): seq<EventKind> {
    NotesOf(s.emitted)
  }

  lemma EmitNotes(s: Session, k: EventKind)
    ensures var next := Emit(s, k);
            && next.worker == s.worker && next.turn == s.turn && next.poisoned == s.poisoned
            && Notes(next) == Notes(s) + if NoteKind(k) then Fitting([k]) else []
  {
    var e := Event(s.next, k);
    assert (s.emitted + [e])[..|s.emitted|] == s.emitted;
  }

  ghost predicate WorkerStep(s: Session, to: Worker, next: Session, ok: bool) {
    && (ok <==> WorkerMay(s.worker, to))
    && next.worker == (if ok then to else s.worker) && next.turn == s.turn
    && next.poisoned == (s.poisoned || !ok) && Notes(next) == Notes(s)
  }

  ghost predicate TurnStep(s: Session, to: Turn, next: Session, ok: bool) {
    && (ok <==> TurnMay(s.turn, to))
    && next.turn == (if ok then to else s.turn) && next.worker == s.worker
    && next.poisoned == (s.poisoned || !ok) && Notes(next) == Notes(s)
  }

  ghost predicate NoteStep(s: Session, k: EventKind, next: Session) {
    && next.worker == s.worker && next.turn == s.turn && next.poisoned == s.poisoned
    && (NoteKind(k) ==> Notes(next) == Notes(s) + Fitting([k]))
  }

  ghost predicate PoisonStep(s: Session, next: Session) {
    next.worker == s.worker && next.turn == s.turn && next.poisoned && Notes(next) == Notes(s)
  }

  ghost predicate Exact(m: Machine) {
    && (forall s, to :: WorkerStep(s, to, m.worker(s, to).0, m.worker(s, to).1))
    && (forall s, to :: TurnStep(s, to, m.turn(s, to).0, m.turn(s, to).1))
    && (forall s, k :: NoteStep(s, k, m.emit(s, k)))
    && (forall s :: PoisonStep(s, m.poison(s)))
  }

  lemma PoisonIsExact(s: Session)
    ensures PoisonStep(s, Poison(s))
  {
    EmitNotes(s.(poisoned := true), Poisoned);
  }

  lemma WorkerIsExact(s: Session, to: Worker)
    ensures WorkerStep(s, to, MoveWorker(s, to).0, MoveWorker(s, to).1)
  {
    PoisonIsExact(s);
    EmitNotes(s.(worker := to), WorkerTransition(s.worker, to));
  }

  lemma TurnIsExact(s: Session, to: Turn)
    ensures TurnStep(s, to, MoveTurn(s, to).0, MoveTurn(s, to).1)
  {
    PoisonIsExact(s);
    EmitNotes(s.(turn := to), TurnTransition(s.turn, to));
  }

  lemma StepsAreExact()
    ensures Exact(STEPS)
  {
    forall s, to ensures WorkerStep(s, to, STEPS.worker(s, to).0, STEPS.worker(s, to).1) { WorkerIsExact(s, to); }
    forall s, to ensures TurnStep(s, to, STEPS.turn(s, to).0, STEPS.turn(s, to).1) { TurnIsExact(s, to); }
    forall s, k ensures NoteStep(s, k, STEPS.emit(s, k)) { EmitNotes(s, k); }
    forall s ensures PoisonStep(s, STEPS.poison(s)) { PoisonIsExact(s); }
  }

  /** The whole outcome of one call. */
  ghost predicate Outcome(s: Session, op: Op, next: Session, ok: bool) {
    && (ok <==> Legal(s, op))
    && next.worker == WorkerAfter(s, op)
    && next.turn == (if ok then TurnTo(s, op) else s.turn)
    && next.poisoned == (s.poisoned || !ok || op.DoPoison?)
    && Notes(next) == Notes(s) + Fitting(NoteOf(s, op))
  }

  lemma WorkerTable(a: Worker)
    ensures WorkerMay(a, ThreadActive) <==> a == WIdle
    ensures WorkerMay(a, TurnActive) <==> a == ThreadActive
    ensures WorkerMay(a, ShuttingDown) <==> a == ThreadActive || a == TurnActive
    ensures WorkerMay(a, Stopped) <==> a == ShuttingDown
  {
  }

  lemma TurnTable(a: Turn)
    ensures TurnMay(a, ThreadStarted) <==> a == TIdle
    ensures TurnMay(a, TurnStarted) <==> a == ThreadStarted || a == AwaitingApproval
    ensures TurnMay(a, AwaitingApproval) <==> a == TurnStarted
    ensures TurnMay(a, Interrupted) <==> a == TurnStarted || a == AwaitingApproval
    ensures TurnMay(a, Completed) <==> a == TurnStarted
    ensures TurnMay(a, Failed) <==> a == TurnStarted || a == Interrupted
  {
  }

  lemma Lifecycle(m: Machine, s: Session, op: Op)
    requires Exact(m) && (op.OnThreadStarted? || op.OnTurnStarted? || op.OnShutdown? || op.DoPoison?)
    ensures Outcome(s, op, Do(m, s, op).0, Do(m, s, op).1)
  {
    WorkerTable(s.worker);
    WorkerTable(ShuttingDown);
    TurnTable(s.turn);
    var to := if op.OnThreadStarted? then ThreadActive else if op.OnTurnStarted? then TurnActive else ShuttingDown;
    assert WorkerStep(s, to, m.worker(s, to).0, m.worker(s, to).1);
    assert PoisonStep(s, m.poison(s));
    var a := m.worker(s, to).0;
    assert TurnStep(a, TurnTo(s, op), m.turn(a, TurnTo(s, op)).0, m.turn(a, TurnTo(s, op)).1);
    assert WorkerStep(a, Stopped, m.worker(a, Stopped).0, m.worker(a, Stopped).1);
  }

  lemma TurnEnds(m: Machine, s: Session, op: Op)
    requires Exact(m) && (op.OnTurnCompleted? || op.OnTurnFailed?)
    ensures Outcome(s, op, Do(m, s, op).0, Do(m, s, op).1)
  {
    TurnTable(s.turn);
    assert TurnStep(s, TurnTo(s, op), m.turn(s, TurnTo(s, op)).0, m.turn(s, TurnTo(s, op)).1);
  }

  lemma Requested(m: Machine, s: Session, op: Op)
    requires Exact(m) && op.OnApprovalRequested?
    ensures Outcome(s, op, Do(m, s, op).0, Do(m, s, op).1)
  {
    TurnTable(s.turn);
    var k := ApprovalRequested(op.key, op.action);
    var a := m.turn(s, AwaitingApproval).0;
    assert TurnStep(s, AwaitingApproval, a, m.turn(s, AwaitingApproval).1);
    assert NoteStep(a, k, m.emit(a, k));
  }

  lemma Noted(m: Machine, s: Session, op: Op)
    requires Exact(m) && (op.OnApprovalDecided? || op.OnInterruptRequested?)
    ensures Outcome(s, op, Do(m, s, op).0, Do(m, s, op).1)
  {
    TurnTable(s.turn);
    var k := if op.OnApprovalDecided? then ApprovalDecided(op.key, op.action, op.decision) else InterruptRequested(op.thread, op.turn);
    var a := m.emit(s, k);
    assert NoteStep(s, k, a);
    assert TurnStep(a, TurnTo(s, op), m.turn(a, TurnTo(s, op)).0, m.turn(a, TurnTo(s, op)).1);
    assert PoisonStep(s, m.poison(s));
  }

  /** Every call, from every session: what it does is what its name and the state
      before it say. */
  lemma CallExactly(s: Session, op: Op)
    ensures Outcome(s, op, Apply(s, op).0, Apply(s, op).1)
  {
    StepsAreExact();
    if op.OnApprovalRequested? {
      Requested(STEPS, s, op);
    } else if op.OnApprovalDecided? || op.OnInterruptRequested? {
      Noted(STEPS, s, op);
    } else if op.OnTurnCompleted? || op.OnTurnFailed? {
      TurnEnds(STEPS, s, op);
    } else {
      Lifecycle(STEPS, s, op);
    }
  }
}
