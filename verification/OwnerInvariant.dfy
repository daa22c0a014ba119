/** What every command of the owner keeps (src/api.rs): admission counts the live
    turns, an approval's sender is used at most once and only while its turn is
    live, and nothing is published on a turn after its terminal event. */
module OwnerInvariant {
  import opened Owner
  import opened ReplayLog

  ghost predicate Admission(s: State) {
    s.active == CountLive(s.turns, s.nextTurn) <= MAX_CONCURRENT_TURNS
  }

  /** No terminal event of this turn has been published yet. */
  ghost predicate Silent(s: State, t: nat) {
    forall e :: e in s.published && e.turn == t ==> !e.terminal
  }

  /** A terminal event is the last published event of its turn, and belongs to
      a turn that is over. */
  ghost predicate Endings(s: State) {
    && (forall i, j :: 0 <= i < j < |s.published| && s.published[i].turn == s.published[j].turn ==> !s.published[i].terminal)
    && (forall t :: t in s.turns && !IsTerminal(s.turns[t].status) ==> Silent(s, t))
  }

  /** A pending approval, and only a pending one, holds its sender; its turn is
      retained and live. Only requests the authority may allow are recorded. */
  ghost predicate SenderHeld(s: State, a: nat)
    requires a in s.approvals
  {
    var p := s.approvals[a];
    && a < s.nextApproval && p.allow && (p.sender <==> p.status == Pending)
    && (p.status == Pending ==> p.turn in s.turns && !IsTerminal(s.turns[p.turn].status))
  }

  ghost predicate Senders(s: State) {
    forall a :: a in s.approvals ==> SenderHeld(s, a)
  }

  ghost predicate Unused(s: State, a: nat) {
    forall d :: d in s.deliveries ==> d.approval != a
  }

  /** Each sender was used at most once, never while still pending, and an
      approval reads Approved only after an acknowledged Allow. */
  ghost predicate Deliveries(s: State) {
    && (forall i, j :: 0 <= i < j < |s.deliveries| ==> s.deliveries[i].approval != s.deliveries[j].approval)
    && (forall d :: d in s.deliveries ==> d.approval < s.nextApproval)
    && (forall a :: a in s.approvals && s.approvals[a].status == Pending ==> Unused(s, a))
    && (forall a :: a in s.approvals && s.approvals[a].status == Approved ==> Delivery(a, Allow, true) in s.deliveries)
  }

  ghost predicate Unsettled(s: State, a: nat) {
    forall e :: e in s.published ==> !(e.kind.ApprovalSettled? && e.kind.settled == a)
  }

  /** Each approval is reported decided at most once, and never otherwise than
      its record says. */
  ghost predicate Settlements(s: State) {
    && (forall i, j :: 0 <= i < j < |s.published| && s.published[i].kind.ApprovalSettled? && s.published[j].kind.ApprovalSettled?
          ==> s.published[i].kind.settled != s.published[j].kind.settled)
    && (forall e :: e in s.published && e.kind.ApprovalSettled? ==> SettledRight(s, e.kind))
  }

  ghost predicate SettledRight(s: State, k: EventKind)
    requires k.ApprovalSettled?
  {
    && k.settled < s.nextApproval
    && (k.outcome == Approved || k.outcome == Denied)
    && (k.settled in s.approvals ==> s.approvals[k.settled].status == k.outcome)
  }

  ghost predicate Asked(published: seq<Event>, a: nat, t: nat) {
    exists e :: e in published && e.turn == t && e.kind.ApprovalAsked? && e.kind.asked == a
  }

  /** No approval can be decided that was not published in full on its turn. */
  ghost predicate Visible(s: State) {
    forall a :: a in s.approvals ==> Asked(s.published, a, s.approvals[a].turn)
  }

  ghost predicate Core(enc: Encoding, s: State) {
    && Accounting(enc, s) && History(s)
    && Admission(s) && Endings(s)
    && Senders(s) && Deliveries(s) && Settlements(s)
  }

  ghost predicate Inv(enc: Encoding, s: State) {
    Core(enc, s) && Visible(s)
  }

  // ---------------------------------------------------------------------------
  // Publishing.

  /** Turns differ in retained events only. */
  ghost predicate SameTurns(turns: map<nat, Turn>, next: map<nat, Turn>) {
    && next.Keys == turns.Keys
    && forall t :: t in turns ==> next[t] == turns[t].(events := next[t].events, bytes := next[t].bytes)
  }

  lemma PushShape(enc: Encoding, s: State, t: nat, kind: EventKind, terminal: bool)
    requires Accounting(enc, s) && t in s.turns
    ensures var p := Push(enc, s, t, kind, terminal);
            && SameTurns(s.turns, p.turns)
            && p.published == (if Fits(enc, s, t, kind, terminal) then s.published + [NextEvent(s, t, kind, terminal)] else s.published)
            && p == s.(turns := p.turns, replayBytes := p.replayBytes, published := p.published, nextEvent := s.nextEvent + 1)
  {
    PushKeepsApprovals(enc, s, t, kind, terminal);
    if Fits(enc, s, t, kind, terminal) {
      var e := NextEvent(s, t, kind, terminal);
      PushPublishes(enc, s, t, kind, terminal);
      EvictKeepsRest(enc, Numbered(s), enc(e));
      EvictTrims(enc, Numbered(s), enc(e));
    }
  }

  lemma {:induction false} CountLiveSame(turns: map<nat, Turn>, next: map<nat, Turn>, n: nat)
    requires SameTurns(turns, next)
    ensures CountLive(next, n) == CountLive(turns, n)
  {
    if n > 0 { CountLiveSame(turns, next, n - 1); }
  }

  /** `next` is `s` with at most one more published event. */
  ghost predicate Published(s: State, next: State, e: Event) {
    && SameTurns(s.turns, next.turns)
    && (next.published == s.published || next.published == s.published + [e])
    && next == s.(turns := next.turns, replayBytes := next.replayBytes, published := next.published, nextEvent := next.nextEvent)
  }

  lemma PublishedKeepsAdmission(s: State, next: State, e: Event)
    requires Published(s, next, e) && Admission(s)
    ensures Admission(next)
  {
    CountLiveSame(s.turns, next.turns, s.nextTurn);
  }

  lemma PublishedKeepsEndings(s: State, next: State, e: Event)
    requires Published(s, next, e) && Endings(s)
    requires Silent(s, e.turn) && (e.terminal && e.turn in s.turns ==> IsTerminal(s.turns[e.turn].status))
    ensures Endings(next)
    ensures !e.terminal ==> Silent(next, e.turn)
  {
    if next.published == s.published + [e] {
      forall i, j | 0 <= i < j < |next.published| && next.published[i].turn == next.published[j].turn ensures !next.published[i].terminal {
        if j == |s.published| { assert s.published[i] in s.published; }
      }
      forall x ensures x in next.published <==> x in s.published || x == e { }
    }
  }

  lemma PublishedKeepsSenders(s: State, next: State, e: Event)
    requires Published(s, next, e)
    ensures Senders(s) ==> Senders(next)
    ensures Deliveries(s) ==> Deliveries(next)
  {
    if Senders(s) {
      forall a | a in next.approvals ensures SenderHeld(next, a) { assert SenderHeld(s, a); }
    }
    if Deliveries(s) {
      forall a | a in next.approvals && next.approvals[a].status == Pending ensures Unused(next, a) { assert Unused(s, a); }
    }
  }

  lemma PublishedKeepsSettlements(s: State, next: State, e: Event)
    requires Published(s, next, e) && Settlements(s)
    requires e.kind.ApprovalSettled? ==> Unsettled(s, e.kind.settled) && SettledRight(s, e.kind)
    ensures Settlements(next)
    ensures forall a :: Unsettled(s, a) && !(e.kind.ApprovalSettled? && e.kind.settled == a) ==> Unsettled(next, a)
  {
    if next.published == s.published + [e] {
      forall x ensures x in next.published <==> x in s.published || x == e { }
      forall x | x in next.published && x.kind.ApprovalSettled? ensures SettledRight(next, x.kind) { assert SettledRight(s, x.kind); }
      forall i, j | 0 <= i < j < |next.published| && next.published[i].kind.ApprovalSettled? && next.published[j].kind.ApprovalSettled?
        ensures next.published[i].kind.settled != next.published[j].kind.settled
      {
        if j == |s.published| { assert s.published[i] in s.published; }
      }
    } else {
      forall x | x in next.published && x.kind.ApprovalSettled? ensures SettledRight(next, x.kind) { assert SettledRight(s, x.kind); }
    }
  }

  lemma PublishedKeepsAsked(s: State, next: State, e: Event, a: nat, t: nat)
    requires Published(s, next, e) && Asked(s.published, a, t)
    ensures Asked(next.published, a, t)
  {
    var x :| x in s.published && x.turn == t && x.kind.ApprovalAsked? && x.kind.asked == a;
    assert x in next.published;
  }

  lemma PublishedKeepsVisible(s: State, next: State, e: Event)
    requires Published(s, next, e) && Visible(s)
    ensures Visible(next)
  {
    forall a | a in next.approvals ensures Asked(next.published, a, next.approvals[a].turn) {
      PublishedKeepsAsked(s, next, e, a, s.approvals[a].turn);
    }
  }

  /** When an event may be published on a turn. */
  ghost predicate MayPush(s: State, t: nat, kind: EventKind, terminal: bool) {
    && t in s.turns && Silent(s, t)
    && (terminal ==> IsTerminal(s.turns[t].status))
    && (kind.ApprovalSettled? ==> Unsettled(s, kind.settled) && SettledRight(s, kind))
  }

  lemma PushKeepsCore(enc: Encoding, s: State, t: nat, kind: EventKind, terminal: bool)
    requires Core(enc, s) && MayPush(s, t, kind, terminal)
    ensures Core(enc, Push(enc, s, t, kind, terminal))
    ensures !terminal ==> Silent(Push(enc, s, t, kind, terminal), t)
    ensures forall a :: Unsettled(s, a) && !(kind.ApprovalSettled? && kind.settled == a) ==> Unsettled(Push(enc, s, t, kind, terminal), a)
  {
    var next, e := Push(enc, s, t, kind, terminal), NextEvent(s, t, kind, terminal);
    PushShape(enc, s, t, kind, terminal);
    PushAccounted(enc, s, t, kind, terminal);
    PushKeepsHistory(enc, s, t, kind, terminal);
    PublishedKeepsAdmission(s, next, e);
    PublishedKeepsEndings(s, next, e);
    PublishedKeepsSenders(s, next, e);
    PublishedKeepsSettlements(s, next, e);
  }

  lemma PushKeepsInv(enc: Encoding, s: State, t: nat, kind: EventKind, terminal: bool)
    requires Inv(enc, s) && MayPush(s, t, kind, terminal)
    ensures Inv(enc, Push(enc, s, t, kind, terminal))
    ensures !terminal ==> Silent(Push(enc, s, t, kind, terminal), t)
    ensures forall a :: Unsettled(s, a) && !(kind.ApprovalSettled? && kind.settled == a) ==> Unsettled(Push(enc, s, t, kind, terminal), a)
  {
    PushKeepsCore(enc, s, t, kind, terminal);
    PushShape(enc, s, t, kind, terminal);
    PublishedKeepsVisible(s, Push(enc, s, t, kind, terminal), NextEvent(s, t, kind, terminal));
  }

  // ---------------------------------------------------------------------------
  // Changes to turns.

  lemma {:induction false} CountLiveUpdate(turns: map<nat, Turn>, t: nat, turn: Turn, n: nat)
    ensures CountLive(turns[t := turn], n) + (if t < n && t in turns && !IsTerminal(turns[t].status) then 1 else 0)
         == CountLive(turns, n) + (if t < n && !IsTerminal(turn.status) then 1 else 0)
  {
    if n > 0 { CountLiveUpdate(turns, t, turn, n - 1); }
  }

  lemma {:induction false} CountLiveAtLeast(turns: map<nat, Turn>, t: nat, n: nat)
    requires t < n && t in turns && !IsTerminal(turns[t].status)
    ensures CountLive(turns, n) >= 1
  {
    if t < n - 1 { CountLiveAtLeast(turns, t, n - 1); }
  }

  /** With the cap of one, two live turns cannot coexist. */
  lemma {:induction false} CountLiveTwo(turns: map<nat, Turn>, t: nat, u: nat, n: nat)
    requires t < u < n && t in turns && u in turns && !IsTerminal(turns[t].status) && !IsTerminal(turns[u].status)
    ensures CountLive(turns, n) >= 2
  {
    if u < n - 1 { CountLiveTwo(turns, t, u, n - 1); } else { CountLiveAtLeast(turns, t, n - 1); }
  }

  lemma AtMostOneLiveTurn(s: State, t: nat, u: nat)
    requires Admission(s) && History(s)
    requires t in s.turns && u in s.turns && !IsTerminal(s.turns[t].status) && !IsTerminal(s.turns[u].status)
    ensures t == u
  {
    if t < u { CountLiveTwo(s.turns, t, u, s.nextTurn); }
    if u < t { CountLiveTwo(s.turns, u, t, s.nextTurn); }
  }

  lemma {:induction false} SumsOfLive(turns: map<nat, Turn>, n: nat)
    ensures SumBytes(LiveTurns(turns), n) <= SumBytes(turns, n)
    ensures CountLive(LiveTurns(turns), n) == CountLive(turns, n)
  {
    if n > 0 { SumsOfLive(turns, n - 1); }
  }

  lemma PruneKeepsInv(enc: Encoding, s: State)
    requires Inv(enc, s)
    ensures Inv(enc, Prune(s))
  {
    SumsOfLive(s.turns, s.nextTurn);
    var next := Prune(s);
    assert Accounting(enc, next) && History(next) && Admission(next) && Endings(next);
    forall a | a in next.approvals ensures SenderHeld(next, a) { assert SenderHeld(s, a); }
    forall a | a in next.approvals && next.approvals[a].status == Pending ensures Unused(next, a) { assert Unused(s, a); }
    forall e | e in next.published && e.kind.ApprovalSettled? ensures SettledRight(next, e.kind) { assert SettledRight(s, e.kind); }
  }

  lemma {:induction false} NoneLive(turns: map<nat, Turn>, n: nat, t: nat)
    requires CountLive(turns, n) == 0 && t in turns && t < n
    ensures IsTerminal(turns[t].status)
  {
    if t < n - 1 { NoneLive(turns, n - 1, t); }
  }

  /** With no active turn, pruning leaves no turn at all. */
  lemma PruneEmpties(enc: Encoding, s: State)
    requires Inv(enc, s) && s.active == 0
    ensures Prune(s).turns == map[] && Prune(s).replayBytes == 0
  {
    forall t | t in s.turns ensures IsTerminal(s.turns[t].status) { NoneLive(s.turns, s.nextTurn, t); }
    assert Prune(s).turns == map[];
    SumBytesOfEmpty(enc, Prune(s).turns, s.nextTurn);
  }

  lemma AdmitKeepsInv(enc: Encoding, s: State, thread: nat)
    requires Inv(enc, s) && s.active == 0
    ensures Inv(enc, AdmitTurn(s, thread)) && Silent(AdmitTurn(s, thread), s.nextTurn)
  {
    var next, t := AdmitTurn(s, thread), s.nextTurn;
    var turn := next.turns[t];
    SumBytesUpdate(s.turns, t, turn, t);
    CountLiveUpdate(s.turns, t, turn, t);
    assert Accounting(enc, next) && History(next) && Admission(next);
    assert Silent(next, t);
    forall u | u in next.turns && !IsTerminal(next.turns[u].status) ensures Silent(next, u) { if u != t { assert Silent(s, u); } }
    SameApprovals(s, next);
  }

  /** Changes that leave approvals, deliveries and published events alone, and
      the turn of every pending approval live. */
  lemma SameApprovals(s: State, next: State)
    requires Senders(s) && Deliveries(s) && Settlements(s) && Visible(s)
    requires next.approvals == s.approvals && next.nextApproval == s.nextApproval
    requires next.published == s.published && next.deliveries == s.deliveries
    requires forall t :: t in s.turns && !IsTerminal(s.turns[t].status) ==> t in next.turns && !IsTerminal(next.turns[t].status)
    ensures Senders(next) && Deliveries(next) && Settlements(next) && Visible(next)
  {
    forall a | a in next.approvals ensures SenderHeld(next, a) { assert SenderHeld(s, a); }
    forall a | a in next.approvals && next.approvals[a].status == Pending ensures Unused(next, a) { assert Unused(s, a); }
    forall e | e in next.published && e.kind.ApprovalSettled? ensures SettledRight(next, e.kind) { assert SettledRight(s, e.kind); }
  }

  /** A turn record changed in its controller flag, or between live statuses. */
  lemma TouchKeepsInv(enc: Encoding, s: State, t: nat, turn: Turn)
    requires Inv(enc, s) && t in s.turns
    requires turn == s.turns[t].(controller := turn.controller, status := turn.status)
    requires IsTerminal(turn.status) == IsTerminal(s.turns[t].status)
    ensures Inv(enc, s.(turns := s.turns[t := turn]))
  {
    var next := s.(turns := s.turns[t := turn]);
    SumBytesUpdate(s.turns, t, turn, s.nextTurn);
    CountLiveUpdate(s.turns, t, turn, s.nextTurn);
    assert Accounting(enc, next) && History(next) && Admission(next);
    forall u | u in next.turns && !IsTerminal(next.turns[u].status) ensures Silent(next, u) { assert Silent(s, u); }
    SameApprovals(s, next);
  }

  // ---------------------------------------------------------------------------
  // Changes to approvals.

  /** Pending approvals of one turn lose their sender and status together. */
  ghost predicate Withdrawn(s: State, next: State, status: ApprovalStatus) {
    && next == s.(approvals := next.approvals, turns := next.turns, active := next.active)
    && next.approvals.Keys == s.approvals.Keys
    && forall a :: a in s.approvals ==>
         || next.approvals[a] == s.approvals[a]
         || (s.approvals[a].status == Pending && next.approvals[a] == s.approvals[a].(status := status, sender := false))
  }

  lemma WithdrawnKeepsApprovals(s: State, next: State, status: ApprovalStatus)
    requires Withdrawn(s, next, status) && (status == Delivering || status == Denied)
    requires Senders(s) && Deliveries(s) && Settlements(s) && Visible(s)
    requires forall a :: a in next.approvals && next.approvals[a].status == Pending ==>
               next.approvals[a].turn in next.turns && !IsTerminal(next.turns[next.approvals[a].turn].status)
    ensures Senders(next) && Deliveries(next) && Settlements(next) && Visible(next)
    ensures forall a :: Unused(next, a) == Unused(s, a) && Unsettled(next, a) == Unsettled(s, a)
  {
    forall a | a in next.approvals ensures SenderHeld(next, a) { assert SenderHeld(s, a); }
    forall a | a in next.approvals && next.approvals[a].status == Pending ensures Unused(next, a) { assert Unused(s, a); }
    forall e | e in next.published && e.kind.ApprovalSettled? ensures SettledRight(next, e.kind) {
      assert SettledRight(s, e.kind);
    }
  }

  /** Claimed, and neither delivered nor reported yet. */
  ghost predicate Claimed(s: State, a: nat) {
    a in s.approvals && s.approvals[a].status == Delivering && Unused(s, a) && Unsettled(s, a)
  }

  /** Taking senders of pending approvals, turns left alone. */
  ghost predicate Taken(s: State, next: State) {
    Withdrawn(s, next, Delivering) && next.turns == s.turns && next.active == s.active
  }

  lemma TakingKeepsApprovals(s: State, next: State)
    requires Taken(s, next) && Senders(s) && Deliveries(s) && Settlements(s) && Visible(s)
    ensures Senders(next) && Deliveries(next) && Settlements(next) && Visible(next)
    ensures forall a :: Unused(next, a) == Unused(s, a) && Unsettled(next, a) == Unsettled(s, a)
  {
    forall b | b in s.approvals ensures SenderHeld(s, b) { }
    WithdrawnKeepsApprovals(s, next, Delivering);
  }

  lemma TakingKeepsInv(enc: Encoding, s: State, next: State)
    requires Inv(enc, s) && Taken(s, next)
    ensures Inv(enc, next)
  {
    TakingKeepsApprovals(s, next);
    forall u | u in s.turns && !IsTerminal(s.turns[u].status) ensures Silent(next, u) { assert Silent(s, u); }
  }

  lemma TakingClaims(s: State, next: State, a: nat)
    requires Taken(s, next) && Senders(s) && Deliveries(s) && Settlements(s) && Visible(s)
    requires a in s.approvals && s.approvals[a].status == Pending && next.approvals[a].status == Delivering
    ensures Claimed(next, a)
  {
    TakingKeepsApprovals(s, next);
  }

  lemma ClaimKeepsInv(enc: Encoding, s: State, a: nat)
    requires Inv(enc, s) && a in s.approvals && s.approvals[a].status == Pending
    ensures Inv(enc, Claim(s, a)) && Claimed(Claim(s, a), a)
  {
    TakingKeepsInv(enc, s, Claim(s, a));
    TakingClaims(s, Claim(s, a), a);
  }

  lemma ClaimAllKeepsInv(enc: Encoding, s: State, t: nat)
    requires Inv(enc, s)
    ensures Inv(enc, ClaimAll(s, t))
    ensures forall a :: a in PendingOf(s, t) ==> Claimed(ClaimAll(s, t), a)
  {
    TakingKeepsInv(enc, s, ClaimAll(s, t));
    forall a | a in PendingOf(s, t) ensures Claimed(ClaimAll(s, t), a) { TakingClaims(s, ClaimAll(s, t), a); }
  }

  lemma DeliverKeepsInv(enc: Encoding, s: State, a: nat, decision: Decision, acknowledged: bool, status: ApprovalStatus)
    requires Inv(enc, s) && Claimed(s, a)
    requires status == Denied || (status == Approved && decision == Allow && acknowledged)
    ensures var next := Deliver(s, a, decision, acknowledged, status);
            Inv(enc, next) && Unsettled(next, a) && (forall b :: b != a && Claimed(s, b) ==> Claimed(next, b))
  {
    var next, d := Deliver(s, a, decision, acknowledged, status), Delivery(a, decision, acknowledged);
    assert SenderHeld(s, a);
    DeliveriesAppend(s, next, a, d);
    RulingKeepsRest(enc, s, next, a);
    forall b | b != a && Claimed(s, b) ensures Claimed(next, b) { OthersStayClaimed(s, a, b, decision, acknowledged, status); }
  }

  lemma OthersStayClaimed(s: State, a: nat, b: nat, decision: Decision, acknowledged: bool, status: ApprovalStatus)
    requires a in s.approvals && b != a && Claimed(s, b)
    ensures Claimed(Deliver(s, a, decision, acknowledged, status), b)
  {
    var next, d := Deliver(s, a, decision, acknowledged, status), Delivery(a, decision, acknowledged);
    forall x ensures x in next.deliveries <==> x in s.deliveries || x == d { }
  }

  lemma RulingKeepsRest(enc: Encoding, s: State, next: State, a: nat)
    requires Inv(enc, s) && Claimed(s, a)
    requires next == s.(approvals := next.approvals, deliveries := next.deliveries)
    requires a in next.approvals && next.approvals == s.approvals[a := s.approvals[a].(status := next.approvals[a].status)]
    requires next.approvals[a].status == Denied || next.approvals[a].status == Approved
    ensures Accounting(enc, next) && History(next) && Admission(next) && Endings(next)
    ensures Senders(next) && Settlements(next) && Visible(next) && Unsettled(next, a)
  {
    forall b | b in next.approvals ensures SenderHeld(next, b) { assert SenderHeld(s, b); }
    forall e | e in next.published && e.kind.ApprovalSettled? ensures SettledRight(next, e.kind) { assert SettledRight(s, e.kind); }
    forall u | u in s.turns && !IsTerminal(s.turns[u].status) ensures Silent(next, u) { assert Silent(s, u); }
  }

  lemma DeliveriesAppend(s: State, next: State, a: nat, d: Delivery)
    requires Deliveries(s) && a in s.approvals && a < s.nextApproval && Unused(s, a) && d.approval == a
    requires next == s.(approvals := next.approvals, deliveries := s.deliveries + [d])
    requires a in next.approvals && next.approvals == s.approvals[a := s.approvals[a].(status := next.approvals[a].status)]
    requires next.approvals[a].status == Denied || (next.approvals[a].status == Approved && d == Delivery(a, Allow, true))
    ensures Deliveries(next)
  {
    forall i, j | 0 <= i < j < |next.deliveries| ensures next.deliveries[i].approval != next.deliveries[j].approval {
      if j == |s.deliveries| { assert s.deliveries[i] in s.deliveries; }
    }
    forall x ensures x in next.deliveries <==> x in s.deliveries || x == d { }
    forall b | b in next.approvals && next.approvals[b].status == Pending ensures Unused(next, b) { assert Unused(s, b); }
  }

  lemma ClosingKeepsTurns(enc: Encoding, s: State, t: nat, status: TurnStatus)
    requires Inv(enc, s) && t in s.turns && !IsTerminal(s.turns[t].status) && IsTerminal(status)
    ensures var next := Close(s, t, status);
            && Accounting(enc, next) && History(next) && Admission(next) && Endings(next) && Silent(next, t)
  {
    var next := Close(s, t, status);
    SumBytesUpdate(s.turns, t, next.turns[t], s.nextTurn);
    CountLiveUpdate(s.turns, t, next.turns[t], s.nextTurn);
    assert Silent(s, t);
    forall u | u in next.turns && !IsTerminal(next.turns[u].status) ensures Silent(next, u) { assert Silent(s, u); }
  }

  lemma ClosingKeepsApprovals(enc: Encoding, s: State, t: nat, status: TurnStatus)
    requires Inv(enc, s) && t in s.turns && !IsTerminal(s.turns[t].status) && IsTerminal(status)
    ensures var next := Close(s, t, status);
            && Senders(next) && Deliveries(next) && Settlements(next) && Visible(next)
            && forall a :: a in PendingOf(s, t) ==> Unsettled(next, a) && SettledRight(next, ApprovalSettled(a, Denied, "terminal"))
  {
    forall b | b in s.approvals ensures SenderHeld(s, b) { }
    WithdrawnKeepsApprovals(s, Close(s, t, status), Denied);
  }

  lemma CloseKeepsInv(enc: Encoding, s: State, t: nat, status: TurnStatus)
    requires Inv(enc, s) && t in s.turns && !IsTerminal(s.turns[t].status) && IsTerminal(status)
    ensures Inv(enc, Close(s, t, status)) && Silent(Close(s, t, status), t)
    ensures forall a :: a in PendingOf(s, t) ==>
              Unsettled(Close(s, t, status), a) && SettledRight(Close(s, t, status), ApprovalSettled(a, Denied, "terminal"))
  {
    ClosingKeepsTurns(enc, s, t, status);
    ClosingKeepsApprovals(enc, s, t, status);
  }

  lemma AddKeepsApprovals(s: State, t: nat)
    requires Senders(s) && Deliveries(s) && Settlements(s) && t in s.turns && !IsTerminal(s.turns[t].status)
    ensures Senders(AddApproval(s, t, true)) && Deliveries(AddApproval(s, t, true)) && Settlements(AddApproval(s, t, true))
  {
    var next := AddApproval(s, t, true);
    forall a | a in next.approvals ensures SenderHeld(next, a) { if a != s.nextApproval { assert SenderHeld(s, a); } }
    forall a | a in next.approvals && next.approvals[a].status == Pending ensures Unused(next, a) {
      if a != s.nextApproval { assert Unused(s, a); }
    }
    forall e | e in next.published && e.kind.ApprovalSettled? ensures SettledRight(next, e.kind) { assert SettledRight(s, e.kind); }
  }

  lemma AddApprovalKeepsCore(enc: Encoding, s: State, t: nat)
    requires Inv(enc, s) && t in s.turns && !IsTerminal(s.turns[t].status)
    ensures var next := AddApproval(s, t, true);
            Core(enc, next) && Silent(next, t)
            && (forall a :: a in s.approvals ==> a != s.nextApproval && Asked(next.published, a, next.approvals[a].turn))
  {
    var next := AddApproval(s, t, true);
    SumBytesUpdate(s.turns, t, next.turns[t], s.nextTurn);
    CountLiveUpdate(s.turns, t, next.turns[t], s.nextTurn);
    assert Accounting(enc, next) && History(next) && Admission(next);
    forall a | a in s.approvals ensures a != s.nextApproval { assert SenderHeld(s, a); }
    AddKeepsApprovals(s, t);
    assert Silent(s, t);
    forall u | u in next.turns && !IsTerminal(next.turns[u].status) ensures Silent(next, u) { assert Silent(s, u); }
  }
}
