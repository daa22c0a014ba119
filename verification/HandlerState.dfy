/** What handling a server request leaves behind (src/client.rs
    handle_server_request_parts, SeenApprovals): the keys remembered, where the
    turn stands, and whether the session is poisoned. */
module HandlerState {
  import opened Json
  import opened ApprovalHandler
  import opened HandlerAnswers
  import SessionCalls

  /** The session was asked while no turn was running. */
  predicate AskedTooEarly(c: Config, b: Boundary, message: Json) {
    AsksApproval(message) && Fresh(b, KeyOf(c, message)) && b.session.turn != Session.TurnStarted
  }

  /** A refusal, or the denial of a request asked before, was written. */
  predicate TurnedAway(c: Config, b: Boundary, message: Json, world: World) {
    && world.written && IsRequestId(IdOf(message))
    && if AsksApproval(message) then KeyOf(c, message) in b.keys else !GivesCredentials(message, world)
  }

  /** Where the turn stands: awaiting the approval once the session was asked, and
      past it once the answer was written. */
  ghost predicate TurnAfter(c: Config, b: Boundary, message: Json, world: World, turn: Session.Turn) {
    if !TakesOn(c, b, true, message) then turn == b.session.turn
    else if !(OnFile(c.policy, world) && world.written) then turn == Session.AwaitingApproval
    else turn == if Rules(c, true, message, world, Descriptor.Allow) then Session.TurnStarted else Session.Interrupted
  }

  lemma PoisonOnly(s: Session.Session)
    ensures Session.Poison(s).turn == s.turn && Session.Poison(s).poisoned
  {
    SessionCalls.PoisonIsExact(s);
  }

  lemma AskedExactly(s: Session.Session, key: string, action: string)
    ensures var (next, ok) := Session.Apply(s, Session.OnApprovalRequested(key, action));
            && (ok <==> s.turn == Session.TurnStarted)
            && next.turn == (if ok then Session.AwaitingApproval else s.turn)
            && next.poisoned == (s.poisoned || !ok)
  {
    SessionCalls.CallExactly(s, Session.OnApprovalRequested(key, action));
  }

  lemma RuledExactly(s: Session.Session, key: string, action: string, ruling: Ruling)
    requires s.turn == Session.AwaitingApproval
    ensures var (next, ok) := Session.Apply(s, Session.OnApprovalDecided(key, action, SessionRuling(ruling), Session.Owner));
            && ok && next.turn == (if ruling.Allow? then Session.TurnStarted else Session.Interrupted)
            && next.poisoned == s.poisoned
  {
    SessionCalls.CallExactly(s, Session.OnApprovalDecided(key, action, SessionRuling(ruling), Session.Owner));
  }

  lemma AnsweredHandled(policy: Policy, waiting: bool, id: Json, key: string, action: string, allow: bool, world: World)
    ensures Answered(policy, waiting, id, key, action, allow, world).1 == Handled <==> OnFile(policy, world) && world.written
  {
  }

  lemma NewSession(policy: Policy, b: Boundary, id: Json, key: string, action: string, allow: bool, world: World)
    ensures var next, ruling := AnswerNew(policy, b, true, id, key, action, allow, world).0, Permitted(RulingOf(policy, true, world.authority), allow);
            && next.keys == b.keys && next.bytes == b.bytes
            && next.session.poisoned == (b.session.poisoned || b.session.turn != Session.TurnStarted)
            && next.session.turn
               == (if b.session.turn != Session.TurnStarted then b.session.turn
                   else if !(OnFile(policy, world) && world.written) then Session.AwaitingApproval
                   else if ruling.Allow? then Session.TurnStarted else Session.Interrupted)
  {
    AskedExactly(b.session, key, action);
    AnsweredHandled(policy, true, id, key, action, allow, world);
    if b.session.turn == Session.TurnStarted {
      var asked := Session.Apply(b.session, Session.OnApprovalRequested(key, action)).0;
      RuledExactly(asked, key, action, Permitted(RulingOf(policy, true, world.authority), allow));
    }
  }

  /** While the client waits for the turn, the session follows the request: the
      turn ends up where it should, and the session is poisoned exactly if the
      request came too early or was turned away. */
  lemma SessionExactly(c: Config, b: Boundary, message: Json, world: World)
    ensures var next := Handle(c, b, true, message, world).0;
            && TurnAfter(c, b, message, world, next.session.turn)
            && (next.session.poisoned <==> b.session.poisoned || AskedTooEarly(c, b, message) || TurnedAway(c, b, message, world))
  {
    PoisonOnly(b.session);
    RefreshIsNoApproval();
    if AsksApproval(message) && Fresh(b, KeyOf(c, message)) {
      FreshIsAnswered(c, b, true, message, world);
      NewSession(c.policy, Noted(b, KeyOf(c, message)), IdOf(message), KeyOf(c, message), ActionOf(message), Reviewable(c, message), world);
      RulingExactly(c, true, message, world, Descriptor.Allow);
    }
  }

  lemma DuringCall(policy: Policy, b: Boundary, id: Json, key: string, action: string, allow: bool, world: World)
    ensures var next := AnswerNew(policy, b, false, id, key, action, allow, world).0;
            next.session == b.session && next.keys == b.keys && next.bytes == b.bytes
  {
  }

  /** During a call the session is out of reach. */
  lemma CallLeavesSession(c: Config, b: Boundary, message: Json, world: World)
    ensures Handle(c, b, false, message, world).0.session == b.session
  {
    RefreshIsNoApproval();
    if AsksApproval(message) && Fresh(b, KeyOf(c, message)) {
      FreshIsAnswered(c, b, false, message, world);
      DuringCall(c.policy, Noted(b, KeyOf(c, message)), IdOf(message), KeyOf(c, message), ActionOf(message), Reviewable(c, message), world);
    }
  }

  /** A key is remembered exactly if it was before or asks for approval now, with
      room for it: also when the session then refuses the request. */
  lemma RememberedExactly(c: Config, b: Boundary, waiting: bool, message: Json, world: World)
    ensures forall key :: key in Handle(c, b, waiting, message, world).0.keys
                     <==> key in b.keys || (AsksApproval(message) && Fresh(b, key) && key == KeyOf(c, message))
  {
    PoisonOnly(b.session);
    RefreshIsNoApproval();
    if AsksApproval(message) && Fresh(b, KeyOf(c, message)) {
      FreshIsAnswered(c, b, waiting, message, world);
      var noted := Noted(b, KeyOf(c, message));
      NewSession(c.policy, noted, IdOf(message), KeyOf(c, message), ActionOf(message), Reviewable(c, message), world);
      DuringCall(c.policy, noted, IdOf(message), KeyOf(c, message), ActionOf(message), Reviewable(c, message), world);
    }
  }

  lemma AnsweredIsRemembered(c: Config, b: Boundary, waiting: bool, message: Json, world: World)
    ensures forall e :: e in Added(c, b, waiting, message, world) && e.Answer? ==> e.key in Handle(c, b, waiting, message, world).0.keys
  {
    AnswersExactly(c, b, waiting, message, world);
    RememberedExactly(c, b, waiting, message, world);
  }

  ghost predicate AnswersRemembered(b: Boundary) {
    forall i :: 0 <= i < |b.trace| && b.trace[i].Answer? ==> b.trace[i].key in b.keys
  }

  /** An answer to a key answered before is a denial. */
  ghost predicate LaterDeny(trace: seq<Effect>) {
    forall i, j :: 0 <= i < j < |trace| && trace[i].Answer? && trace[j].Answer? && trace[i].key == trace[j].key ==> trace[j].ruling.Deny?
  }

  /** Under every policy and in every run: once a key was answered, every later
      answer to it is a denial. */
  lemma {:induction false} AnsweredOnceThenDenied(c: Config, steps: seq<Step>)
    ensures AnswersRemembered(Run(c, steps))
    ensures LaterDeny(Run(c, steps).trace)
  {
    if steps != [] {
      var b, step := Run(c, steps[..|steps| - 1]), steps[|steps| - 1];
      AnsweredOnceThenDenied(c, steps[..|steps| - 1]);
      match step
      case Request(waiting, message, world) =>
        OneAnswerAdded(c, b, waiting, message, world);
        AnsweredIsRemembered(c, b, waiting, message, world);
        RememberedExactly(c, b, waiting, message, world);
        ExtendAnswers(c, b, Handle(c, b, waiting, message, world).0, Added(c, b, waiting, message, world));
      case OtherRow(r) =>
        ExtendAnswers(c, b, Run(c, steps), [Row(r)]);
    }
  }

  lemma OneAnswerAdded(c: Config, b: Boundary, waiting: bool, message: Json, world: World)
    ensures var added := Added(c, b, waiting, message, world);
            && Handle(c, b, waiting, message, world).0.trace == b.trace + added
            && (forall i, j :: 0 <= i < j < |added| && added[i].Answer? ==> !added[j].Answer?)
            && forall e :: e in added && e.Answer? && e.key in b.keys ==> e.ruling.Deny?
  {
    var next := Handle(c, b, waiting, message, world).0;
    AnswersExactly(c, b, waiting, message, world);
    assert next.trace == b.trace + next.trace[|b.trace|..];
    if AsksApproval(message) && KeyOf(c, message) !in b.keys {
      TakenAdds(c, b, waiting, message, world);
      LastIsAnswer(c.policy, waiting, IdOf(message), KeyOf(c, message), ActionOf(message), Reviewable(c, message), world);
    } else {
      OthersAdd(c, b, waiting, message, world);
    }
  }

  lemma LastIsAnswer(policy: Policy, waiting: bool, id: Json, key: string, action: string, allow: bool, world: World)
    ensures var effects := Answered(policy, waiting, id, key, action, allow, world).0;
            forall i, j :: 0 <= i < j < |effects| && effects[i].Answer? ==> !effects[j].Answer?
  {
  }

  lemma ExtendAnswers(c: Config, b: Boundary, next: Boundary, added: seq<Effect>)
    requires AnswersRemembered(b) && LaterDeny(b.trace) && next.trace == b.trace + added && b.keys <= next.keys
    requires forall i, j :: 0 <= i < j < |added| && added[i].Answer? ==> !added[j].Answer?
    requires forall e :: e in added && e.Answer? ==> e.key in next.keys && (e.key in b.keys ==> e.ruling.Deny?)
    ensures AnswersRemembered(next) && LaterDeny(next.trace)
  {
    forall i, j | 0 <= i < j < |next.trace| && next.trace[i].Answer? && next.trace[j].Answer? && next.trace[i].key == next.trace[j].key
      ensures next.trace[j].ruling.Deny?
    {
      if j >= |b.trace| { assert next.trace[j] in added; }
    }
    forall i | 0 <= i < |next.trace| && next.trace[i].Answer? ensures next.trace[i].key in next.keys {
      if i >= |b.trace| { assert next.trace[i] in added; }
    }
  }
}
