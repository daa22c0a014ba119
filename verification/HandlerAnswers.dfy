/** Which answer a server request gets, said of the request, the policy and what
    the outside does (src/client.rs handle_server_request_parts,
    dispatch_server_request_during_call). */
module HandlerAnswers {
  import opened Text
  import opened Json
  import opened Journal
  import opened ApprovalHandler

  function IdOf(message: Json): Json {
    message.Get("id").GetOr(Null)
  }

  function KeyOf(c: Config, message: Json): string {
    c.keyOf(ActionOf(message), IdOf(message), ParamsOf(message))
  }

  /** An approval request the client knows, with an id it can answer. */
  predicate AsksApproval(message: Json) {
    IsRequestId(IdOf(message)) && KnownAction(ActionOf(message))
  }

  /** Not asked before, with room to remember it. */
  predicate Fresh(b: Boundary, key: string) {
    key !in b.keys && |b.keys| < MAX_SEEN_APPROVALS && b.bytes + Utf8Len(key) <= MAX_SEEN_APPROVAL_BYTES
  }

  /** The client takes the request on: while it waits for the turn, the turn must
      be running. */
  predicate TakesOn(c: Config, b: Boundary, waiting: bool, message: Json) {
    AsksApproval(message) && Fresh(b, KeyOf(c, message)) && (waiting ==> b.session.turn == Session.TurnStarted)
  }

  ghost predicate Reviewable(c: Config, message: Json) {
    Descriptor.Describe(c.size, ActionOf(message), ParamsOf(message)).reviewable
  }

  /** Both rows are acknowledged, if the execution keeps a journal. */
  predicate OnFile(policy: Policy, world: World) {
    policy.External? && policy.receipt.Some? ==> world.request.Acknowledged? && world.decision.Acknowledged?
  }

  predicate RuledAs(policy: Policy, world: World, ruling: Ruling) {
    policy.External? && world.authority == Ruled(ruling)
  }

  /** The ruling on a request taken on. Allow needs a reviewable record; the
      authority may rule, stay silent, or be out of reach, which is a denial while
      the client waits for the turn and a timeout during a call. */
  ghost predicate Rules(c: Config, waiting: bool, message: Json, world: World, ruling: Ruling) {
    match ruling
    case Allow => Reviewable(c, message) && (c.policy.AllowForTests? || RuledAs(c.policy, world, Descriptor.Allow))
    case Deny =>
      || c.policy.DenyAll?
      || RuledAs(c.policy, world, Descriptor.Deny)
      || (!Reviewable(c, message) && (c.policy.AllowForTests? || RuledAs(c.policy, world, Descriptor.Allow)))
      || (c.policy.External? && world.authority.Unreachable? && waiting)
    case Timeout =>
      && c.policy.External?
      && (world.authority == Ruled(Descriptor.Timeout) || world.authority.Silent? || (world.authority.Unreachable? && !waiting))
  }

  /** A request asked before is denied; one taken on is answered as ruled, once its
      rows are on file. */
  ghost predicate Answers(c: Config, b: Boundary, waiting: bool, message: Json, world: World, ruling: Ruling) {
    || (ruling.Deny? && AsksApproval(message) && KeyOf(c, message) in b.keys)
    || (TakesOn(c, b, waiting, message) && OnFile(c.policy, world) && Rules(c, waiting, message, world, ruling))
  }

  /** New credentials are given for the one reason known. */
  predicate GivesCredentials(message: Json, world: World) {
    && IsRequestId(IdOf(message)) && ActionOf(message) == REFRESH
    && ParamsOf(message).GetStr("reason") == Some("unauthorized") && world.refreshed
  }

  /** What handling one message adds. */
  ghost function Added(c: Config, b: Boundary, waiting: bool, message: Json, world: World): seq<Effect> {
    var next := Handle(c, b, waiting, message, world).0;
    if |b.trace| <= |next.trace| then next.trace[|b.trace|..] else []
  }

  function AnswerTo(c: Config, message: Json, ruling: Ruling): Effect {
    Answer(IdOf(message), KeyOf(c, message), ActionOf(message), ruling)
  }

  lemma AnsweredOnce(policy: Policy, waiting: bool, id: Json, key: string, action: string, allow: bool, world: World)
    ensures var effects := Answered(policy, waiting, id, key, action, allow, world).0;
            forall e :: e in effects && e.Answer? ==>
              OnFile(policy, world) && e == Answer(id, key, action, Permitted(RulingOf(policy, waiting, world.authority), allow))
    ensures var effects := Answered(policy, waiting, id, key, action, allow, world).0;
            OnFile(policy, world) ==> Answer(id, key, action, Permitted(RulingOf(policy, waiting, world.authority), allow)) in effects
  {
  }

  lemma RulingExactly(c: Config, waiting: bool, message: Json, world: World, ruling: Ruling)
    ensures Permitted(RulingOf(c.policy, waiting, world.authority), Reviewable(c, message)) == ruling
            <==> Rules(c, waiting, message, world, ruling)
  {
  }

  lemma WaitingAccepts(b: Boundary, key: string, action: string)
    ensures Session.Apply(b.session, Session.OnApprovalRequested(key, action)).1 <==> b.session.turn == Session.TurnStarted
  {
  }

  lemma TakenAdds(c: Config, b: Boundary, waiting: bool, message: Json, world: World)
    requires AsksApproval(message) && KeyOf(c, message) !in b.keys
    ensures b.trace <= Handle(c, b, waiting, message, world).0.trace
    ensures Added(c, b, waiting, message, world)
         == if TakesOn(c, b, waiting, message)
            then Answered(c.policy, waiting, IdOf(message), KeyOf(c, message), ActionOf(message), Reviewable(c, message), world).0 else []
  {
    WaitingAccepts(Noted(b, KeyOf(c, message)), KeyOf(c, message), ActionOf(message));
  }

  lemma OthersAdd(c: Config, b: Boundary, waiting: bool, message: Json, world: World)
    requires !AsksApproval(message) || KeyOf(c, message) in b.keys
    ensures b.trace <= Handle(c, b, waiting, message, world).0.trace
    ensures Added(c, b, waiting, message, world)
         == if AsksApproval(message) then [AnswerTo(c, message, Descriptor.Deny)]
            else if !IsRequestId(IdOf(message)) then []
            else if GivesCredentials(message, world) then [Credentials(IdOf(message))] else [Refusal(IdOf(message))]
  {
  }

  /** For every configuration, boundary and message: the answer is Allow, Deny or
      Timeout exactly in these cases, there is at most one, and it carries the
      request's own id, key and method. */
  lemma AnswersExactly(c: Config, b: Boundary, waiting: bool, message: Json, world: World)
    ensures b.trace <= Handle(c, b, waiting, message, world).0.trace
    ensures forall ruling :: AnswerTo(c, message, ruling) in Added(c, b, waiting, message, world) <==> Answers(c, b, waiting, message, world, ruling)
    ensures forall e :: e in Added(c, b, waiting, message, world) && e.Answer? ==> e == AnswerTo(c, message, e.ruling)
  {
    if AsksApproval(message) && KeyOf(c, message) !in b.keys {
      TakenAdds(c, b, waiting, message, world);
      AnsweredOnce(c.policy, waiting, IdOf(message), KeyOf(c, message), ActionOf(message), Reviewable(c, message), world);
      forall ruling ensures AnswerTo(c, message, ruling) in Added(c, b, waiting, message, world) <==> Answers(c, b, waiting, message, world, ruling) {
        RulingExactly(c, waiting, message, world, ruling);
      }
    } else {
      OthersAdd(c, b, waiting, message, world);
    }
  }

  /** Credentials are given, and anything else that can be answered is refused,
      exactly in these cases. */
  lemma RefusesExactly(c: Config, b: Boundary, waiting: bool, message: Json, world: World, id: Json)
    ensures Credentials(id) in Added(c, b, waiting, message, world) <==> id == IdOf(message) && GivesCredentials(message, world)
    ensures Refusal(id) in Added(c, b, waiting, message, world)
            <==> id == IdOf(message) && IsRequestId(id) && !KnownAction(ActionOf(message)) && !GivesCredentials(message, world)
  {
    if AsksApproval(message) && KeyOf(c, message) !in b.keys {
      TakenAdds(c, b, waiting, message, world);
      OnlyRowsAndAnswers(c.policy, waiting, IdOf(message), KeyOf(c, message), ActionOf(message), Reviewable(c, message), world);
    } else {
      OthersAdd(c, b, waiting, message, world);
      RefreshIsNoApproval();
    }
  }

  lemma RefreshIsNoApproval()
    ensures !KnownAction(REFRESH)
  {
    assert |REFRESH| == 33 && |Descriptor.EXECUTE| == 37 && |Descriptor.EXEC_ARGV| == 19 && |Descriptor.PATCH| == 18
           && |Descriptor.FILE_CHANGE| == 31 && |Descriptor.PERMISSIONS| == 32;
  }

  lemma OnlyRowsAndAnswers(policy: Policy, waiting: bool, id: Json, key: string, action: string, allow: bool, world: World)
    ensures forall e :: e in Answered(policy, waiting, id, key, action, allow, world).0 ==> e.Row? || e.Answer?
  {
  }

  lemma RowsOfAnswer(execution: string, waiting: bool, id: Json, key: string, action: string, allow: bool, world: World, ruling: Ruling)
    ensures var effects := Answered(External(Some(execution)), waiting, id, key, action, allow, world).0;
            && (Row(ApprovalRequested(execution, key, action)) in effects <==> !world.request.Lost?)
            && (Row(ApprovalDecided(execution, key, action, EndOf(ruling))) in effects
                <==> world.request.Acknowledged? && !world.decision.Lost?
                     && ruling == Permitted(RulingOf(External(Some(execution)), waiting, world.authority), allow))
  {
  }

  /** The rows of a request: asked, if the append is not lost; ruled, if asking was
      acknowledged and that append is not lost. */
  lemma RowsExactly(c: Config, b: Boundary, waiting: bool, message: Json, world: World, execution: string, ruling: Ruling)
    requires c.policy == External(Some(execution))
    ensures Row(ApprovalRequested(execution, KeyOf(c, message), ActionOf(message))) in Added(c, b, waiting, message, world)
            <==> TakesOn(c, b, waiting, message) && !world.request.Lost?
    ensures Row(ApprovalDecided(execution, KeyOf(c, message), ActionOf(message), EndOf(ruling))) in Added(c, b, waiting, message, world)
            <==> TakesOn(c, b, waiting, message) && world.request.Acknowledged? && !world.decision.Lost? && Rules(c, waiting, message, world, ruling)
  {
    if AsksApproval(message) && KeyOf(c, message) !in b.keys {
      TakenAdds(c, b, waiting, message, world);
      RowsOfAnswer(execution, waiting, IdOf(message), KeyOf(c, message), ActionOf(message), Reviewable(c, message), world, ruling);
      RulingExactly(c, waiting, message, world, ruling);
    } else {
      OthersAdd(c, b, waiting, message, world);
    }
  }

  lemma NewIsHandled(policy: Policy, b: Boundary, waiting: bool, id: Json, key: string, action: string, allow: bool, world: World)
    ensures AnswerNew(policy, b, waiting, id, key, action, allow, world).1 == Handled
            <==> world.written && OnFile(policy, world) && (waiting ==> b.session.turn == Session.TurnStarted)
  {
    WaitingAccepts(b, key, action);
    if b.session.turn == Session.TurnStarted {
      RulingIsAccepted(b.session, key, action, Permitted(RulingOf(policy, waiting, world.authority), allow));
    }
  }

  lemma FreshIsAnswered(c: Config, b: Boundary, waiting: bool, message: Json, world: World)
    requires AsksApproval(message) && Fresh(b, KeyOf(c, message))
    ensures Handle(c, b, waiting, message, world)
         == AnswerNew(c.policy, Noted(b, KeyOf(c, message)), waiting, IdOf(message), KeyOf(c, message), ActionOf(message), Reviewable(c, message), world)
  {
    RefreshIsNoApproval();
  }

  lemma OthersHandled(c: Config, b: Boundary, waiting: bool, message: Json, world: World)
    requires !(AsksApproval(message) && Fresh(b, KeyOf(c, message)))
    ensures Handle(c, b, waiting, message, world).1 == Handled <==> world.written && GivesCredentials(message, world)
  {
    RefreshIsNoApproval();
  }

  /** A request counts as handled exactly if it was answered, with rows on file, or
      given credentials, and the answer was written. */
  lemma HandledExactly(c: Config, b: Boundary, waiting: bool, message: Json, world: World)
    ensures Handle(c, b, waiting, message, world).1 == Handled
            <==> world.written && ((TakesOn(c, b, waiting, message) && OnFile(c.policy, world)) || GivesCredentials(message, world))
  {
    RefreshIsNoApproval();
    if AsksApproval(message) && Fresh(b, KeyOf(c, message)) {
      FreshIsAnswered(c, b, waiting, message, world);
      NewIsHandled(c.policy, Noted(b, KeyOf(c, message)), waiting, IdOf(message), KeyOf(c, message), ActionOf(message), Reviewable(c, message), world);
    } else {
      OthersHandled(c, b, waiting, message, world);
    }
  }

  /** Having taken a request, the session takes any ruling of the owner. */
  lemma RulingIsAccepted(s: Session.Session, key: string, action: string, ruling: Ruling)
    requires s.turn == Session.TurnStarted
    ensures var asked := Session.Apply(s, Session.OnApprovalRequested(key, action)).0;
            Session.Apply(asked, Session.OnApprovalDecided(key, action, SessionRuling(ruling), Session.Owner)).1
  {
  }

  lemma DenyAllAdds(c: Config, b: Boundary, waiting: bool, message: Json, world: World)
    requires c.policy.DenyAll?
    ensures var next := Handle(c, b, waiting, message, world).0;
            && b.trace <= next.trace
            && forall e :: e in next.trace[|b.trace|..] && e.Answer? ==> e.ruling.Deny?
  {
    AnswersExactly(c, b, waiting, message, world);
  }

  /** Under the policy that denies everything, no run ever attempts an Allow. */
  lemma {:induction false} DenyAllNeverAllows(c: Config, steps: seq<Step>)
    requires c.policy.DenyAll?
    ensures forall e :: e in Run(c, steps).trace && e.Answer? ==> e.ruling.Deny?
  {
    if steps != [] {
      var b, step := Run(c, steps[..|steps| - 1]), steps[|steps| - 1];
      DenyAllNeverAllows(c, steps[..|steps| - 1]);
      if step.Request? {
        DenyAllAdds(c, b, step.waiting, step.message, step.world);
        var next := Handle(c, b, step.waiting, step.message, step.world).0;
        assert next.trace == b.trace + next.trace[|b.trace|..];
      }
    }
  }
}
