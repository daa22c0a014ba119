/** Owner and client together (src/api.rs owner_decide, deliver_approval;
    src/client.rs handle_server_request_parts, dispatch_server_request_during_call;
    the two run in different tasks). Between two commands of the owner, and while
    it waits for an acknowledgement, clients go on one effect at a time, in any
    order. */
module Interleaving {
  import opened Text
  import Journal
  import Descriptor
  import Owner
  import OwnerInvariant
  import OwnerSafety
  import OwnerHistory
  import OwnerGrants
  import ApprovalHandler
  import Handover

  type Effect = ApprovalHandler.Effect
  type Ruling = Descriptor.Ruling
  type Request = Handover.Request

  /** Where the client that asked is: waiting for a ruling, about to record one,
      about to answer, done, or stopped by a failing append or answer. */
  datatype Phase = Waiting | Told(ruling: Ruling) | Noted(ruling: Ruling) | Answered(ruling: Ruling) | Stopped
  datatype Client = Client(q: Request, phase: Phase)

  /** `deciding` is the decision whose acknowledgement the owner waits for;
      `trace` the rows and answers of all clients. */
  datatype System = System(owner: Owner.State, clients: map<nat, Client>, trace: seq<Effect>, deciding: Option<(nat, bool)>)

  datatype Move =
    | Records(q: Request, append: Journal.Append)
    | Asks(turn: nat, q: Request, body: string)
    | Commands(c: Owner.Command)
    | Begins(approval: nat, approve: bool)
    | Takes(approval: nat)
    | Lapses(approval: nat, ruling: Ruling)
    | Notes(approval: nat, append: Journal.Append)
    | Answers(approval: nat, written: bool)
    | Ends(heard: bool)

  function RequestedRow(q: Request): Effect
    requires q.execution.Some?
  {
    ApprovalHandler.Row(Journal.ApprovalRequested(q.execution.value, q.key, q.action))
  }

  function DecidedRow(q: Request, ruling: Ruling): Effect
    requires q.execution.Some?
  {
    ApprovalHandler.Row(Journal.ApprovalDecided(q.execution.value, q.key, q.action, ApprovalHandler.EndOf(ruling)))
  }

  function AnswerOf(q: Request, ruling: Ruling): Effect {
    ApprovalHandler.Answer(q.id, q.key, q.action, ruling)
  }

  /** The ruling a decision sends: Allow only for a request that may be allowed. */
  function Sent(q: Request, approve: bool): Ruling {
    if approve && q.allow then Descriptor.Allow else Descriptor.Deny
  }

  /** A client asks only once its request row is acknowledged, if it keeps a
      journal; the owner takes nothing on while it waits; a client goes on only as
      far as it got; and the owner hears only of an answer that was written. */
  ghost predicate Enabled(s: System, m: Move) {
    match m
    case Records(q, _) => q.execution.Some?
    case Asks(_, q, _) => s.deciding.None? && (q.execution.Some? ==> RequestedRow(q) in s.trace)
    case Commands(c) => s.deciding.None? && !c.Ask? && !c.Rule? && Owner.Possible(s.owner, c)
    case Begins(a, _) => s.deciding.None? && a in s.owner.approvals && s.owner.approvals[a].status == Owner.Pending
    case Takes(a) => s.deciding.Some? && s.deciding.value.0 == a && a in s.clients && s.clients[a].phase.Waiting?
    case Lapses(a, ruling) => a in s.clients && s.clients[a].phase.Waiting? && !ruling.Allow?
    case Notes(a, _) => a in s.clients && s.clients[a].phase.Told?
    case Answers(a, _) => a in s.clients && s.clients[a].phase.Noted?
    case Ends(heard) =>
      s.deciding.Some? &&
      (heard ==> var (a, approve) := s.deciding.value; a in s.clients && s.clients[a].phase == Answered(Sent(s.clients[a].q, approve)))
  }

  function Reach(s: System, a: nat, phase: Phase): System
    requires a in s.clients
  {
    s.(clients := s.clients[a := s.clients[a].(phase := phase)])
  }

  function Wrote(s: System, effects: seq<Effect>): System {
    s.(trace := s.trace + effects)
  }

  ghost function Next(enc: Owner.Encoding, s: System, m: Move): System
    requires Enabled(s, m)
  {
    match m
    case Records(q, append) => Wrote(s, if append.Lost? then [] else [RequestedRow(q)])
    case Asks(t, q, body) =>
      var (owner, reply) := Owner.RegisterPending(enc, s.owner, t, q.allow, body);
      s.(owner := owner, clients := if reply == Owner.Done then s.clients[s.owner.nextApproval := Client(q, Waiting)] else s.clients)
    case Commands(c) => s.(owner := Owner.Step(enc, s.owner, c))
    case Begins(a, approve) => s.(deciding := Some((a, approve)))
    case Takes(a) => Reach(s, a, Told(Sent(s.clients[a].q, s.deciding.value.1)))
    case Lapses(a, ruling) => Reach(s, a, Told(ruling))
    case Notes(a, append) =>
      var client := s.clients[a];
      if client.q.execution.None? then Reach(s, a, Noted(client.phase.ruling))
      else
        Reach(Wrote(s, if append.Lost? then [] else [DecidedRow(client.q, client.phase.ruling)]), a,
              if append.Acknowledged? then Noted(client.phase.ruling) else Stopped)
    case Answers(a, written) =>
      var client := s.clients[a];
      Reach(Wrote(s, [AnswerOf(client.q, client.phase.ruling)]), a, if written then Answered(client.phase.ruling) else Stopped)
    case Ends(heard) =>
      s.(owner := Owner.Decide(enc, s.owner, s.deciding.value.0, s.deciding.value.1, heard).0, deciding := None)
  }

  function Start(ready: bool): System {
    System(Owner.Initial(ready), map[], [], None)
  }

  ghost predicate IsRun(enc: Owner.Encoding, run: seq<System>, moves: seq<Move>) {
    && |run| == |moves| + 1
    && forall i :: 0 <= i < |moves| ==> Enabled(run[i], moves[i]) && run[i + 1] == Next(enc, run[i], moves[i])
  }

  // ---------------------------------------------------------------------------
  // What the rows say.

  /** The effects occur in this order, others between them. */
  ghost predicate InTurn(trace: seq<Effect>, effects: seq<Effect>)
    decreases |effects|
  {
    effects == [] ||
    exists i :: 0 <= i < |trace| && trace[i] == effects[|effects| - 1] && InTurn(trace[..i], effects[..|effects| - 1])
  }

  lemma {:induction false} InTurnStays(trace: seq<Effect>, more: seq<Effect>, effects: seq<Effect>)
    ensures InTurn(trace, effects) ==> InTurn(trace + more, effects)
  {
    if effects != [] && InTurn(trace, effects) {
      var i :| 0 <= i < |trace| && trace[i] == effects[|effects| - 1] && InTurn(trace[..i], effects[..|effects| - 1]);
      assert (trace + more)[..i] == trace[..i] && (trace + more)[i] == trace[i];
    }
  }

  lemma InTurnThen(trace: seq<Effect>, effects: seq<Effect>, e: Effect)
    requires InTurn(trace, effects)
    ensures InTurn(trace + [e], effects + [e])
  {
    var all, longer := effects + [e], trace + [e];
    assert all[..|all| - 1] == effects && longer[..|trace|] == trace && longer[|trace|] == e;
  }

  lemma InTurnOne(trace: seq<Effect>, e: Effect)
    ensures InTurn(trace, [e]) <==> e in trace
  {
    if e in trace {
      var i :| 0 <= i < |trace| && trace[i] == e;
      assert InTurn(trace[..i], []);
      assert [e][..0] == [];
    }
  }

  /** What is in the trace when a client has got this far. */
  function Done(c: Client): seq<Effect> {
    if c.q.execution.None? then (if c.phase.Answered? then [AnswerOf(c.q, c.phase.ruling)] else [])
    else
      match c.phase
      case Noted(ruling) => [RequestedRow(c.q)] + [DecidedRow(c.q, ruling)]
      case Answered(ruling) => [RequestedRow(c.q)] + [DecidedRow(c.q, ruling)] + [AnswerOf(c.q, ruling)]
      case _ => [RequestedRow(c.q)]
  }

  // ---------------------------------------------------------------------------
  // What every interleaving keeps.

  ghost predicate ClientsSound(s: System) {
    forall a :: a in s.clients ==>
      a < s.owner.nextApproval && s.clients[a].q.allow && InTurn(s.trace, Done(s.clients[a]))
  }

  /** Whatever reads or was reported as Approved was answered with Allow. */
  ghost predicate GrantsSound(s: System) {
    forall a :: OwnerGrants.Granted(s.owner, a) ==> a in s.clients && s.clients[a].phase == Answered(Descriptor.Allow)
  }

  ghost predicate Sound(enc: Owner.Encoding, s: System) {
    OwnerInvariant.Inv(enc, s.owner) && ClientsSound(s) && GrantsSound(s)
  }

  lemma StartIsSound(enc: Owner.Encoding, ready: bool)
    ensures Sound(enc, Start(ready))
  {
    OwnerSafety.InitialInv(enc, ready);
  }

  /** One client got further, writing some effects; the owner is as it was. */
  lemma ClientStepIsSound(enc: Owner.Encoding, s: System, next: System, a: nat, phase: Phase, more: seq<Effect>)
    requires Sound(enc, s) && a in s.clients && next == Reach(Wrote(s, more), a, phase)
    requires InTurn(s.trace + more, Done(s.clients[a].(phase := phase)))
    requires s.clients[a].phase == phase || !s.clients[a].phase.Answered?
    ensures Sound(enc, next)
  {
    forall b | b in next.clients ensures InTurn(next.trace, Done(next.clients[b])) {
      if b != a { InTurnStays(s.trace, more, Done(s.clients[b])); }
    }
  }

  lemma StillInTurn(trace: seq<Effect>, more: seq<Effect>, effects: seq<Effect>)
    requires InTurn(trace, effects)
    ensures InTurn(trace + more, effects)
  {
    InTurnStays(trace, more, effects);
  }

  lemma NotesIsSound(enc: Owner.Encoding, s: System, a: nat, append: Journal.Append)
    requires Sound(enc, s) && Enabled(s, Notes(a, append))
    ensures Sound(enc, Next(enc, s, Notes(a, append)))
  {
    var client := s.clients[a];
    var ruling := client.phase.ruling;
    if client.q.execution.None? {
      assert s.trace + [] == s.trace;
      ClientStepIsSound(enc, s, Next(enc, s, Notes(a, append)), a, Noted(ruling), []);
    } else {
      var row := DecidedRow(client.q, ruling);
      var more := if append.Lost? then [] else [row];
      StillInTurn(s.trace, more, Done(client));
      if append.Acknowledged? { InTurnThen(s.trace, Done(client), row); }
      ClientStepIsSound(enc, s, Next(enc, s, Notes(a, append)), a, if append.Acknowledged? then Noted(ruling) else Stopped, more);
    }
  }

  lemma AnswersIsSound(enc: Owner.Encoding, s: System, a: nat, written: bool)
    requires Sound(enc, s) && Enabled(s, Answers(a, written))
    ensures Sound(enc, Next(enc, s, Answers(a, written)))
  {
    var client := s.clients[a];
    var ruling := client.phase.ruling;
    var answer := AnswerOf(client.q, ruling);
    var phase := if written then Answered(ruling) else Stopped;
    InTurnThen(s.trace, Done(client), answer);
    if !written { RequestStays(s.trace, client.q, ruling, answer); }
    ClientStepIsSound(enc, s, Next(enc, s, Answers(a, written)), a, phase, [answer]);
  }

  lemma RequestStays(trace: seq<Effect>, q: Request, ruling: Ruling, e: Effect)
    requires InTurn(trace, Done(Client(q, Noted(ruling))))
    ensures InTurn(trace + [e], Done(Client(q, Stopped)))
  {
    if q.execution.Some? {
      EarlierInTurn(trace, RequestedRow(q), DecidedRow(q, ruling));
      StillInTurn(trace, [e], [RequestedRow(q)]);
    }
  }

  lemma EarlierInTurn(trace: seq<Effect>, first: Effect, second: Effect)
    requires InTurn(trace, [first] + [second])
    ensures InTurn(trace, [first])
  {
    var both := [first] + [second];
    var i :| 0 <= i < |trace| && trace[i] == both[1] && InTurn(trace[..i], both[..1]);
    assert both[..1] == [first] && trace[..i] + trace[i..] == trace;
    StillInTurn(trace[..i], trace[i..], [first]);
  }

  /** The owner took a step that grants nothing. */
  ghost predicate Steady(enc: Owner.Encoding, before: Owner.State, after: Owner.State) {
    && OwnerInvariant.Inv(enc, after) && before.nextApproval <= after.nextApproval
    && forall a :: OwnerGrants.Granted(after, a) ==> OwnerGrants.Granted(before, a)
  }

  lemma StepIsSteady(enc: Owner.Encoding, s: Owner.State, c: Owner.Command)
    requires OwnerInvariant.Inv(enc, s) && Owner.Possible(s, c) && !c.Rule?
    ensures Steady(enc, s, Owner.Step(enc, s, c))
  {
    OwnerSafety.StepKeepsInv(enc, s, c);
    OwnerHistory.StepAgrees(enc, s, c);
    forall a ensures OwnerGrants.Granted(Owner.Step(enc, s, c), a) ==> OwnerGrants.Granted(s, a) {
      OwnerGrants.OthersGrantNothing(enc, s, c, a);
    }
  }

  lemma NewClientIsSound(enc: Owner.Encoding, s: System, owner: Owner.State, q: Request)
    requires Sound(enc, s) && Steady(enc, s.owner, owner) && s.owner.nextApproval < owner.nextApproval
    requires q.allow && InTurn(s.trace, Done(Client(q, Waiting)))
    ensures Sound(enc, s.(owner := owner, clients := s.clients[s.owner.nextApproval := Client(q, Waiting)]))
  {
  }

  lemma AsksIsSound(enc: Owner.Encoding, s: System, t: nat, q: Request, body: string)
    requires Sound(enc, s) && Enabled(s, Asks(t, q, body))
    ensures Sound(enc, Next(enc, s, Asks(t, q, body)))
  {
    var (owner, reply) := Owner.RegisterPending(enc, s.owner, t, q.allow, body);
    StepIsSteady(enc, s.owner, Owner.Ask(t, q.allow, body));
    if reply == Owner.Done {
      if q.execution.Some? { InTurnOne(s.trace, RequestedRow(q)); }
      Registered(enc, s.owner, t, q.allow, body);
      NewClientIsSound(enc, s, owner, q);
    }
  }

  lemma Registered(enc: Owner.Encoding, s: Owner.State, t: nat, allow: bool, body: string)
    ensures var (next, reply) := Owner.RegisterPending(enc, s, t, allow, body);
            reply == Owner.Done ==> allow && next.nextApproval == s.nextApproval + 1
  {
    if Owner.RegisterPending(enc, s, t, allow, body).1 == Owner.Done {
      Owner.PushKeepsApprovals(enc, Owner.AddApproval(s, t, allow), t, Owner.ApprovalAsked(s.nextApproval, body), false);
    }
  }

  lemma CommandsIsSound(enc: Owner.Encoding, s: System, c: Owner.Command)
    requires Sound(enc, s) && Enabled(s, Commands(c))
    ensures Sound(enc, Next(enc, s, Commands(c)))
  {
    StepIsSteady(enc, s.owner, c);
  }

  lemma EndsIsSound(enc: Owner.Encoding, s: System, heard: bool)
    requires Sound(enc, s) && Enabled(s, Ends(heard))
    ensures Sound(enc, Next(enc, s, Ends(heard)))
  {
    var (a, approve) := s.deciding.value;
    var c := Owner.Rule(a, approve, heard);
    OwnerSafety.StepKeepsInv(enc, s.owner, c);
    OwnerHistory.StepAgrees(enc, s.owner, c);
    var next := Owner.Decide(enc, s.owner, a, approve, heard).0;
    forall b | OwnerGrants.Granted(next, b) ensures b in s.clients && s.clients[b].phase == Answered(Descriptor.Allow) {
      OwnerGrants.DecisionGrants(enc, s.owner, a, approve, heard, b);
    }
  }

  lemma MoveIsSound(enc: Owner.Encoding, s: System, m: Move)
    requires Sound(enc, s) && Enabled(s, m)
    ensures Sound(enc, Next(enc, s, m))
  {
    match m
    case Records(q, append) =>
      forall a | a in s.clients ensures InTurn(Next(enc, s, m).trace, Done(s.clients[a])) {
        InTurnStays(s.trace, if append.Lost? then [] else [RequestedRow(q)], Done(s.clients[a]));
      }
    case Asks(t, q, body) => AsksIsSound(enc, s, t, q, body);
    case Commands(c) => CommandsIsSound(enc, s, c);
    case Begins(_, _) =>
    case Takes(a) => PhaseIsSound(enc, s, a, Next(enc, s, m).clients[a].phase);
    case Lapses(a, ruling) => PhaseIsSound(enc, s, a, Told(ruling));
    case Notes(a, append) => NotesIsSound(enc, s, a, append);
    case Answers(a, written) => AnswersIsSound(enc, s, a, written);
    case Ends(heard) => EndsIsSound(enc, s, heard);
  }

  lemma PhaseIsSound(enc: Owner.Encoding, s: System, a: nat, phase: Phase)
    requires Sound(enc, s) && a in s.clients && s.clients[a].phase.Waiting? && phase.Told?
    ensures Sound(enc, Reach(s, a, phase))
  {
    assert s.trace + [] == s.trace;
    ClientStepIsSound(enc, s, Reach(s, a, phase), a, phase, []);
  }

  lemma {:induction false} EveryRunIsSound(enc: Owner.Encoding, run: seq<System>, moves: seq<Move>, ready: bool, i: nat)
    requires IsRun(enc, run, moves) && run[0] == Start(ready) && i < |run|
    ensures Sound(enc, run[i])
  {
    if i == 0 {
      StartIsSound(enc, ready);
    } else {
      EveryRunIsSound(enc, run, moves, ready, i - 1);
      assert run[i - 1 + 1] == Next(enc, run[i - 1], moves[i - 1]);
      MoveIsSound(enc, run[i - 1], moves[i - 1]);
    }
  }

  /** In every interleaving of the owner with its clients: an approval that reads,
      or was ever reported as, Approved had its request recorded, then Allowed
      recorded, and then Allow answered, if its execution keeps a journal; and its
      request was one that may be allowed. */
  lemma ApprovedInEveryInterleaving(enc: Owner.Encoding, run: seq<System>, moves: seq<Move>, ready: bool, i: nat, a: nat)
    requires IsRun(enc, run, moves) && run[0] == Start(ready) && i < |run|
    requires OwnerGrants.Granted(run[i].owner, a)
    ensures a in run[i].clients && run[i].clients[a].q.allow
    ensures var q := run[i].clients[a].q;
            InTurn(run[i].trace, (if q.execution.None? then [] else [RequestedRow(q)] + [DecidedRow(q, Descriptor.Allow)]) + [AnswerOf(q, Descriptor.Allow)])
  {
    EveryRunIsSound(enc, run, moves, ready, i);
    assert [] + [AnswerOf(run[i].clients[a].q, Descriptor.Allow)] == [AnswerOf(run[i].clients[a].q, Descriptor.Allow)];
  }
}
