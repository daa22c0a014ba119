/** A decision on its way from the owner to the server (src/api.rs owner_decide,
    deliver_approval; src/client.rs handle_server_request_parts,
    dispatch_server_request_during_call). The owner hands it to the waiting client
    and waits a bounded time for its acknowledgement; the client records it,
    answers the server, and only then acknowledges. */
module Handover {
  import opened Text
  import opened Json
  import Owner
  import OwnerDelivery
  import opened ApprovalHandler

  /** Whether the client still listens when the owner sends, and takes the command
      before its own deadline; how its rows and its answer fare; whether its
      session accepts the decision; and whether the owner hears of it in time. */
  datatype Passing = Passing(open: bool, taken: bool, world: World, accepted: bool, inTime: bool)

  /** The request a client waits to answer. */
  datatype Request = Request(execution: Option<string>, waiting: bool, id: Json, key: string, action: string, allow: bool)

  predicate Taken(p: Passing) {
    p.open && p.taken
  }

  /** What the client does once the owner decided. */
  function Client(q: Request, approve: bool, p: Passing): (seq<Effect>, Outcome) {
    var sent := if approve && q.allow then Descriptor.Allow else Descriptor.Deny;
    Answered(External(q.execution), q.waiting, q.id, q.key, q.action, q.allow,
             p.world.(authority := if Taken(p) then Ruled(sent) else Silent))
  }

  /** The owner hears that the decision was delivered. */
  predicate Heard(q: Request, approve: bool, p: Passing) {
    Taken(p) && Client(q, approve, p).1 == Handled && (q.waiting ==> p.accepted) && p.inTime
  }

  ghost predicate Open(s: Owner.State, a: nat, q: Request) {
    a in s.approvals && s.approvals[a].status == Owner.Pending && s.approvals[a].sender && s.approvals[a].allow == q.allow
  }

  ghost predicate Reads(s: Owner.State, a: nat, status: Owner.ApprovalStatus) {
    a in s.approvals && s.approvals[a].status == status
  }

  ghost predicate Publishes(s: Owner.State, next: Owner.State, a: nat, outcome: Owner.ApprovalStatus) {
    exists e :: e in next.published && e !in s.published && e.kind == Owner.ApprovalSettled(a, outcome, "decision")
  }

  lemma DecisionSettles(enc: Owner.Encoding, s: Owner.State, a: nat, approve: bool, q: Request, heard: bool)
    requires Open(s, a, q)
    ensures var next := Owner.Decide(enc, s, a, approve, heard).0;
            && Reads(next, a, if approve && q.allow && heard then Owner.Approved else Owner.Denied)
            && (Publishes(s, next, a, Owner.Approved) ==> approve && q.allow && heard)
  {
    var grant := approve && q.allow;
    var outcome := if grant && heard then Owner.Approved else Owner.Denied;
    var told := Owner.Deliver(Owner.Claim(s, a), a, if grant then Owner.Allow else Owner.Deny, heard, outcome);
    var kind := Owner.ApprovalSettled(a, outcome, "decision");
    Owner.PushKeepsApprovals(enc, told, s.approvals[a].turn, kind, false);
    OnlyOneMore(enc, told, s.approvals[a].turn, kind);
  }

  lemma OnlyOneMore(enc: Owner.Encoding, s: Owner.State, t: nat, kind: Owner.EventKind)
    ensures forall e :: e in Owner.Push(enc, s, t, kind, false).published ==> e in s.published || e.kind == kind
  {
    Owner.EvictKeepsRest(enc, Owner.Numbered(s), enc(Owner.NextEvent(s, t, kind, false)));
  }

  /** An approval the owner reads or publishes as Approved was recorded as
      requested, then as allowed, and then answered with Allow. */
  lemma ApprovedIsOnRecord(enc: Owner.Encoding, s: Owner.State, a: nat, approve: bool, q: Request, p: Passing)
    requires Open(s, a, q) && q.execution.Some?
    ensures var next := Owner.Decide(enc, s, a, approve, Heard(q, approve, p)).0;
            Reads(next, a, Owner.Approved) || Publishes(s, next, a, Owner.Approved) ==>
              Client(q, approve, p).0 == [Row(Journal.ApprovalRequested(q.execution.value, q.key, q.action)),
                                          Row(Journal.ApprovalDecided(q.execution.value, q.key, q.action, Journal.Allowed)),
                                          Answer(q.id, q.key, q.action, Descriptor.Allow)]
  {
    DecisionSettles(enc, s, a, approve, q, Heard(q, approve, p));
  }

  /** The rows an answer needs, if the execution has a journal, are acknowledged. */
  predicate OnRecord(q: Request, p: Passing) {
    q.execution.Some? ==> p.world.request.Acknowledged? && p.world.decision.Acknowledged?
  }

  /** The owner reads Denied although an Allow was written, or begun, exactly if
      the client took an Allow and recorded it, and then its answer failed, its
      session refused the decision, or the owner stopped waiting. */
  lemma DeniedButAllowed(enc: Owner.Encoding, s: Owner.State, a: nat, approve: bool, q: Request, p: Passing)
    requires Open(s, a, q)
    ensures var next := Owner.Decide(enc, s, a, approve, Heard(q, approve, p)).0;
            Reads(next, a, Owner.Denied) && Answer(q.id, q.key, q.action, Descriptor.Allow) in Client(q, approve, p).0
            <==> approve && q.allow && Taken(p) && OnRecord(q, p) && !(p.world.written && (q.waiting ==> p.accepted) && p.inTime)
  {
    DecisionSettles(enc, s, a, approve, q, Heard(q, approve, p));
  }

  /** A client that takes an Allow, records it and writes it, too late for the owner. */
  const LATE := Passing(true, true, World(Journal.Acknowledged, Unreachable, Journal.Acknowledged, true, false), true, false)
  const ASKED := Request.Request(Some("exec-1"), true, Str("1"), "key", Descriptor.EXECUTE, true)

  /** That happens: after a thread, a turn and a request, the owner reads Denied
      where Allow was recorded and answered. */
  lemma LateAcknowledgement() returns (trace: seq<Owner.State>, commands: seq<Owner.Command>)
    ensures Owner.IsRun(OwnerDelivery.OneByte, trace, commands) && trace[0] == Owner.Initial(true)
    ensures Open(trace[|commands|], 1, ASKED) && !Heard(ASKED, true, LATE)
    ensures Reads(Owner.Decide(OwnerDelivery.OneByte, trace[|commands|], 1, true, Heard(ASKED, true, LATE)).0, 1, Owner.Denied)
    ensures Answer(ASKED.id, ASKED.key, ASKED.action, Descriptor.Allow) in Client(ASKED, true, LATE).0
  {
    trace := OwnerDelivery.Opening();
    commands := [Owner.NewThread, Owner.NewTurn(1, true), Owner.Ask(1, true, ""), Owner.Ask(1, true, "")];
    OwnerDelivery.OneWaits(trace[4]);
    DeniedButAllowed(OwnerDelivery.OneByte, trace[4], 1, true, ASKED, LATE);
  }
}
