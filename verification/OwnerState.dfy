/** The owner's state as the program keeps it (src/api.rs OwnerState and the
    owner_* functions): fields updated in place, maps visited in an arbitrary
    order, saturating counters. Every method is proved equal to the command of
    module `Owner` on the abstract state. Acknowledgements and control outcomes
    are inputs. */
module OwnerActor {
  import opened Basics
  import opened Text
  import opened Owner
  import opened ReplayLog
  import opened OwnerInvariant
  import opened OwnerSafety

  /** `r` is a turn with the smallest first event id among `seen`. */
  ghost predicate Smallest(turns: map<nat, Turn>, seen: set<nat>, r: Option<nat>) {
    && (r.Some? ==> r.value in turns && r.value in seen && turns[r.value].events != [])
    && forall t :: t in turns && t in seen && turns[t].events != [] ==>
         r.Some? && turns[r.value].events[0].id <= turns[t].events[0].id
  }

  /** Event ids are unique, so the order in which the map is visited does not
      matter. */
  lemma SmallestIsOldest(s: State, r: Option<nat>)
    requires History(s) && Smallest(s.turns, s.turns.Keys, r)
    ensures r == Oldest(s.turns, s.nextTurn)
  {
    var oldest := Oldest(s.turns, s.nextTurn);
    if r.Some? {
      OldestIsOldest(s.turns, s.nextTurn, r.value);
      RetainedEvents(s, r.value);
      RetainedEvents(s, oldest.value);
      var a, b := s.turns[r.value].events[0], s.turns[oldest.value].events[0];
      assert a in s.turns[r.value].events && b in s.turns[oldest.value].events;
      SameId(s.published, a, b);
    }
  }

  /** `kept` is `turns` without the terminal turns, except those in `rest`. */
  ghost predicate Removing(turns: map<nat, Turn>, kept: map<nat, Turn>, rest: set<nat>) {
    && (forall t :: t in rest ==> t in turns && IsTerminal(turns[t].status))
    && (forall t :: t in kept <==> t in turns && (!IsTerminal(turns[t].status) || t in rest))
    && (forall t :: t in kept ==> kept[t] == turns[t])
  }

  /** The replay log is in order: what publishing needs. */
  ghost predicate Sound(enc: Encoding, s: State) {
    Accounting(enc, s) && History(s)
  }

  lemma PushStaysSound(enc: Encoding, s: State, t: nat, kind: EventKind, terminal: bool)
    requires Sound(enc, s) && t in s.turns
    ensures Sound(enc, Push(enc, s, t, kind, terminal)) && t in Push(enc, s, t, kind, terminal).turns
  {
    PushAccounted(enc, s, t, kind, terminal);
    PushKeepsHistory(enc, s, t, kind, terminal);
    PushShape(enc, s, t, kind, terminal);
  }

  lemma PushOfFitting(enc: Encoding, s: State, e: Event)
    requires Sound(enc, s) && e.turn in s.turns && e.id == s.nextEvent && enc(e) <= MAX_EVENT_BYTES
    ensures var room := Evict(enc, Numbered(s), enc(e));
            Sound(enc, Numbered(s)) && e.turn in room.turns && Push(enc, s, e.turn, e.kind, e.terminal) == Append(enc, room, e)
  {
    PushPublishes(enc, s, e.turn, e.kind, e.terminal);
  }

  lemma {:induction false} SumBytesRemove(turns: map<nat, Turn>, t: nat, n: nat)
    requires t in turns && t < n
    ensures SumBytes(turns - {t}, n) == SumBytes(turns, n) - turns[t].bytes
  {
    if t < n - 1 {
      SumBytesRemove(turns, t, n - 1);
    } else {
      SumBytesElsewhere(turns, t, n - 1);
    }
  }

  lemma {:induction false} SumBytesElsewhere(turns: map<nat, Turn>, t: nat, n: nat)
    requires n <= t
    ensures SumBytes(turns - {t}, n) == SumBytes(turns, n)
  {
    if n > 0 { SumBytesElsewhere(turns, t, n - 1); }
  }

  /** The pending approvals of `t` among `seen`, each once. */
  ghost predicate Collected(s: State, t: nat, seen: set<nat>, order: seq<nat>) {
    && (forall a :: a in order <==> a in seen && a in PendingOf(s, t))
    && Distinct(order)
  }

  /** The approvals of `s` with those of `order` withdrawn to `status`. */
  ghost predicate WithdrawnOnly(s: State, approvals: map<nat, Approval>, order: seq<nat>, status: ApprovalStatus) {
    && approvals.Keys == s.approvals.Keys
    && forall a :: a in s.approvals ==>
         approvals[a] == if a in order then s.approvals[a].(status := status, sender := false) else s.approvals[a]
  }

  lemma CloseIsWithdrawal(s: State, t: nat, status: TurnStatus, order: seq<nat>, approvals: map<nat, Approval>)
    requires t in s.turns && Visits(s, t, order) && WithdrawnOnly(s, approvals, order, Denied)
    ensures approvals == Close(s, t, status).approvals
  {
    forall a | a in s.approvals ensures a in order <==> s.approvals[a].turn == t && s.approvals[a].status == Pending {
      assert a in order <==> a in PendingOf(s, t);
    }
  }

  lemma ClaimIsWithdrawal(s: State, t: nat, order: seq<nat>, approvals: map<nat, Approval>)
    requires Visits(s, t, order) && WithdrawnOnly(s, approvals, order, Delivering)
    ensures approvals == ClaimAll(s, t).approvals
  {
    forall a | a in s.approvals ensures a in order <==> s.approvals[a].turn == t && s.approvals[a].status == Pending {
      assert a in order <==> a in PendingOf(s, t);
    }
  }

  lemma NothingVisited(s: State, t: nat, order: seq<nat>)
    requires Visits(s, t, []) && Visits(s, t, order)
    ensures order == []
  {
    HasMember(order);
    forall a ensures a !in order { assert a in PendingOf(s, t) <==> a in []; }
  }

  ghost function ListOf(pending: set<nat>): seq<nat> {
    if pending == {} then [] else var a :| a in pending; [a] + ListOf(pending - {a})
  }

  lemma {:induction false} ListOfLists(pending: set<nat>)
    ensures Distinct(ListOf(pending)) && forall a :: a in ListOf(pending) <==> a in pending
  {
    if pending != {} {
      var a :| a in pending && ListOf(pending) == [a] + ListOf(pending - {a});
      ListOfLists(pending - {a});
    }
  }

  lemma ListPending(s: State, t: nat) returns (order: seq<nat>)
    ensures Visits(s, t, order)
  {
    order := ListOf(PendingOf(s, t));
    ListOfLists(PendingOf(s, t));
  }

  lemma DeliveredIsLive(enc: Encoding, s: State, t: nat, authority: Authority, order: seq<nat>, acks: seq<bool>)
    requires Inv(enc, s) && Visits(s, t, order) && t in s.turns && !IsTerminal(s.turns[t].status)
    ensures var told := DeliverAll(enc, ClaimAll(s, t), t, authority, order, acks).0;
            t in told.turns && told.turns[t].control == s.turns[t].control
  {
    ClaimAllKeepsInv(enc, s, t);
    DeliverAllKeepsInv(enc, ClaimAll(s, t), t, authority, order, acks);
  }

  lemma DeliverNext(enc: Encoding, s: State, t: nat, authority: Authority, order: seq<nat>, acks: seq<bool>)
    requires order != [] && forall a :: a in order ==> a in s.approvals
    ensures var ack := acks != [] && acks[0];
            var next := DenyOne(enc, s, t, authority, order[0], ack);
            && (forall a :: a in order[1..] ==> a in next.approvals)
            && (ack ==> DeliverAll(enc, s, t, authority, order, acks) == DeliverAll(enc, next, t, authority, order[1..], acks[1..]))
            && (!ack ==> DeliverAll(enc, s, t, authority, order, acks) == (next, false))
  {
    PushKeepsApprovals(enc, Deliver(s, order[0], if TimesOut(authority) then Timeout else Deny, acks != [] && acks[0], Denied), t,
                       ApprovalSettled(order[0], Denied, "interrupt"), false);
  }

  class OwnerState {
    const enc: Encoding
    var ready: bool
    var threads: set<nat>
    var nextThread: nat
    var nextTurn: nat
    var nextEvent: nat
    var nextApproval: nat
    var activeTurns: nat
    var replayBytes: nat
    var turns: map<nat, Turn>
    var approvals: map<nat, Approval>
    ghost var published: seq<Event>
    ghost var deliveries: seq<Delivery>

    ghost function View(): State
      reads this
    {
      State(ready, threads, nextThread, nextTurn, nextEvent, nextApproval, activeTurns, replayBytes, turns, approvals, published, deliveries)
    }

    ghost predicate Valid()
      reads this
    {
      Inv(enc, View())
    }

    constructor (enc: Encoding, live: bool)
      ensures Valid() && View() == Initial(!live) && this.enc == enc
    {
      this.enc := enc;
      ready, threads := !live, {};
      nextThread, nextTurn, nextEvent, nextApproval := 1, 1, 1, 1;
      activeTurns, replayBytes, turns, approvals := 0, 0, map[], map[];
      published, deliveries := [], [];
      new;
      InitialInv(enc, !live);
    }

    // -------------------------------------------------------------------------
    // The replay log.

    method OldestTurn() returns (r: Option<nat>)
      requires History(View())
      ensures r == Oldest(turns, nextTurn)
    {
      r := None;
      var rest := turns.Keys;
      while rest != {}
        invariant rest <= turns.Keys && Smallest(turns, turns.Keys - rest, r)
        decreases |rest|
      {
        var t :| t in rest;
        rest := rest - {t};
        if turns[t].events != [] && (r.None? || turns[t].events[0].id < turns[r.value].events[0].id) { r := Some(t); }
      }
      assert turns.Keys - {} == turns.Keys;
      SmallestIsOldest(View(), r);
    }

    method RemoveFirst(t: nat)
      requires t in turns && turns[t].events != []
      modifies this`turns, this`replayBytes
      ensures View() == DropFirst(enc, old(View()), t)
    {
      var bytes := enc(turns[t].events[0]);
      turns := turns[t := turns[t].(events := turns[t].events[1..])];
      replayBytes := Monus(replayBytes, bytes);
      turns := turns[t := turns[t].(bytes := Monus(turns[t].bytes, bytes))];
    }

    method MakeRoom(size: nat) returns (fits: bool)
      requires Sound(enc, View()) && size <= MAX_EVENT_BYTES
      modifies this`turns, this`replayBytes
      ensures View() == Evict(enc, old(View()), size)
      ensures fits && Accounting(enc, View()) && replayBytes + size <= MAX_REPLAY_BYTES
    {
      EvictMakesRoom(enc, View(), size);
      while SaturatingAdd(replayBytes, size) > MAX_REPLAY_BYTES
        invariant Sound(enc, View())
        invariant Evict(enc, View(), size) == Evict(enc, old(View()), size)
        decreases CountEvents(turns, nextTurn)
      {
        var oldest := OldestTurn();
        if oldest.None? { return false; }
        DropFirstAccounted(enc, View(), oldest.value);
        DropFirstKeepsHistory(enc, View(), oldest.value);
        DropFirstCounts(enc, View(), oldest.value, nextTurn);
        RemoveFirst(oldest.value);
      }
      fits := true;
    }

    method Store(event: Event)
      requires event.turn in turns && Accounting(enc, View())
      requires enc(event) <= MAX_EVENT_BYTES && replayBytes + enc(event) <= MAX_REPLAY_BYTES
      modifies this`turns, this`replayBytes, this`published
      ensures View() == Append(enc, old(View()), event)
    {
      var t, size := event.turn, enc(event);
      SumBytesAtLeast(turns, t, nextTurn);
      var turn := turns[t].(events := turns[t].events + [event], bytes := SaturatingAdd(turns[t].bytes, size));
      var removed := 0;
      if |turn.events| > MAX_EVENTS_PER_TURN {
        removed := enc(turn.events[0]);
        turn := turn.(events := turn.events[1..], bytes := Monus(turn.bytes, removed));
      }
      turns := turns[t := turn];
      replayBytes := Monus(SaturatingAdd(replayBytes, size), removed);
      published := published + [event];
    }

    method PushEvent(t: nat, kind: EventKind, terminal: bool)
      requires Sound(enc, View()) && t in turns
      modifies this`turns, this`replayBytes, this`published, this`nextEvent
      ensures View() == Push(enc, old(View()), t, kind, terminal)
    {
      var event := Event(nextEvent, t, kind, terminal);
      nextEvent := nextEvent + 1;
      if enc(event) <= MAX_EVENT_BYTES {
        PushOfFitting(enc, old(View()), event);
        Publish(event);
      }
    }

    /** Neither way out without storing the event is ever taken. */
    method Publish(event: Event)
      requires Sound(enc, View()) && enc(event) <= MAX_EVENT_BYTES
      requires event.turn in Evict(enc, View(), enc(event)).turns
      modifies this`turns, this`replayBytes, this`published
      ensures View() == Append(enc, Evict(enc, old(View()), enc(event)), event)
    {
      var fits := MakeRoom(enc(event));
      if !fits || event.turn !in turns { return; }
      Store(event);
    }

    method PruneTerminalRecords()
      requires Accounting(enc, View())
      modifies this`turns, this`replayBytes, this`approvals
      ensures View() == Prune(old(View()))
    {
      RemoveTerminal();
      approvals := map a | a in approvals && (approvals[a].status == Pending || approvals[a].turn in turns) :: approvals[a];
    }

    method RemoveTerminal()
      requires Accounting(enc, View())
      modifies this`turns, this`replayBytes
      ensures turns == LiveTurns(old(turns)) && replayBytes == SumBytes(turns, nextTurn)
    {
      var terminal := set t | t in turns && IsTerminal(turns[t].status);
      while terminal != {}
        invariant Removing(old(turns), turns, terminal)
        invariant replayBytes == SumBytes(turns, nextTurn)
        decreases |terminal|
      {
        var t :| t in terminal;
        SumBytesRemove(turns, t, nextTurn);
        replayBytes := Monus(replayBytes, turns[t].bytes);
        turns := turns - {t};
        terminal := terminal - {t};
      }
    }

    // -------------------------------------------------------------------------
    // Threads, turns and subscriptions.

    method NewThread() returns (reply: Reply)
      requires Valid()
      modifies this
      ensures (View(), reply) == CreateThread(old(View())) && Valid()
    {
      CreateThreadKeepsInv(enc, View());
      if |threads| >= MAX_THREADS { PruneTerminalRecords(); }
      if |threads| >= MAX_THREADS { return ThreadCapacity; }
      threads := threads + {nextThread};
      nextThread := nextThread + 1;
      reply := Done;
    }

    method Admit(thread: nat) returns (t: nat)
      modifies this`nextTurn, this`activeTurns, this`turns
      ensures t == old(nextTurn) && View() == AdmitTurn(old(View()), thread)
    {
      t := nextTurn;
      nextTurn := nextTurn + 1;
      activeTurns := activeTurns + 1;
      turns := turns[t := Turn(thread, Running, [], 0, true, false)];
    }

    /** The check against the cap after pruning never rejects. */
    method NewTurn(thread: nat, journal: bool) returns (reply: Reply)
      requires Valid()
      modifies this
      ensures (View(), reply) == CreateTurn(enc, old(View()), thread, journal) && Valid()
      ensures reply != TurnCapacity
    {
      CreateTurnKeepsInv(enc, View(), thread, journal);
      TurnCapacityNeverRejects(enc, View(), thread, journal);
      if !journal {
        ready := false;
        return JournalUnavailable;
      }
      if !ready { return NotReady; }
      if activeTurns >= MAX_CONCURRENT_TURNS { return Saturated; }
      RoomKeepsInv(enc, View());
      if |turns| >= MAX_TURNS { PruneTerminalRecords(); }
      if |turns| >= MAX_TURNS { return TurnCapacity; }
      if thread !in threads { return NotFound; }
      AdmitKeepsInv(enc, View(), thread);
      var t := Admit(thread);
      PushEvent(t, TurnBegan, false);
      reply := Done;
    }

    method Watch(t: nat, lastSeen: nat, observer: bool) returns (subscription: Option<Subscription>)
      requires Valid()
      modifies this`turns
      ensures (View(), subscription) == Subscribe(old(View()), t, lastSeen, observer) && Valid()
    {
      SubscribeKeepsInv(enc, View(), t, lastSeen, observer);
      if t !in turns { return None; }
      var turn := turns[t];
      var over := IsTerminal(turn.status);
      var controls := !observer && !over && !turn.controller;
      if controls { turn := turn.(controller := true); }
      turns := turns[t := turn];
      subscription := Some(Subscription(After(turn.events, lastSeen), over, controls));
    }

    // -------------------------------------------------------------------------
    // Approvals.

    method AddPending(t: nat, allow: bool) returns (id: nat)
      requires t in turns
      modifies this`nextApproval, this`approvals, this`turns
      ensures id == old(nextApproval) && View() == AddApproval(old(View()), t, allow)
    {
      id := nextApproval;
      nextApproval := nextApproval + 1;
      approvals := approvals[id := Approval(t, Pending, allow, true)];
      turns := turns[t := turns[t].(status := WaitingApproval)];
    }

    method Ask(t: nat, allow: bool, body: string) returns (reply: Reply)
      requires Valid()
      modifies this
      ensures (View(), reply) == RegisterPending(enc, old(View()), t, allow, body) && Valid()
    {
      RegisterKeepsInv(enc, View(), t, allow, body);
      if !allow { return DeniedUnreviewable; }
      if |approvals| >= MAX_APPROVALS || t !in turns || IsTerminal(turns[t].status) { return ApprovalCapacity; }
      if enc(Event(nextEvent, t, ApprovalAsked(nextApproval, body), false)) > MAX_EVENT_BYTES { return DeniedOversize; }
      AddApprovalKeepsCore(enc, View(), t);
      var id := AddPending(t, allow);
      PushEvent(t, ApprovalAsked(id, body), false);
      reply := Done;
    }

    method ClaimApproval(a: nat) returns (claimed: bool, reply: Reply)
      modifies this`approvals
      ensures claimed <==> a in old(approvals) && old(approvals)[a].status == Pending && old(approvals)[a].sender
      ensures View() == if a in old(approvals) && old(approvals)[a].status == Pending then Claim(old(View()), a) else old(View())
      ensures !claimed ==> reply == if a !in old(approvals) then NotFound
                                    else if old(approvals)[a].status != Pending then AlreadyDecided else ApprovalClosed
    {
      claimed, reply := false, Done;
      if a !in approvals { return false, NotFound; }
      if approvals[a].status != Pending { return false, AlreadyDecided; }
      claimed := approvals[a].sender;
      if !claimed { reply := ApprovalClosed; }
      approvals := approvals[a := approvals[a].(status := Delivering, sender := false)];
    }

    /** Hands the decision over and records the resulting status. */
    method Hand(a: nat, decision: Decision, acknowledged: bool, status: ApprovalStatus)
      requires a in approvals
      modifies this`approvals, this`deliveries
      ensures View() == Deliver(old(View()), a, decision, acknowledged, status)
    {
      deliveries := deliveries + [Delivery(a, decision, acknowledged)];
      approvals := approvals[a := approvals[a].(status := status)];
    }

    method Decide(a: nat, approve: bool, acknowledged: bool) returns (reply: Reply)
      requires Valid()
      modifies this
      ensures (View(), reply) == Owner.Decide(enc, old(View()), a, approve, acknowledged) && Valid()
    {
      DecideKeepsInv(enc, View(), a, approve, acknowledged);
      if a in approvals { assert SenderHeld(View(), a); }
      reply := ClaimAndSettle(a, approve, acknowledged);
    }

    method ClaimAndSettle(a: nat, approve: bool, acknowledged: bool) returns (reply: Reply)
      requires Sound(enc, View())
      requires a in approvals && approvals[a].status == Pending ==> approvals[a].sender && approvals[a].turn in turns
      modifies this
      ensures (View(), reply) == Owner.Decide(enc, old(View()), a, approve, acknowledged)
    {
      var claimed, refusal := ClaimApproval(a);
      if claimed {
        reply := Settle(a, approve && approvals[a].allow, acknowledged);
      } else {
        reply := refusal;
      }
    }

    method Settle(a: nat, grant: bool, acknowledged: bool) returns (reply: Reply)
      requires Sound(enc, View()) && a in approvals && approvals[a].turn in turns
      modifies this
      ensures reply == if acknowledged then Done else DeliveryFailed
      ensures var outcome := if grant && acknowledged then Approved else Denied;
              var told := Deliver(old(View()), a, if grant then Allow else Deny, acknowledged, outcome);
              View() == if acknowledged then Push(enc, told, old(approvals)[a].turn, ApprovalSettled(a, outcome, "decision"), false) else told
    {
      var outcome := if grant && acknowledged then Approved else Denied;
      Hand(a, if grant then Allow else Deny, acknowledged, outcome);
      if !acknowledged { return DeliveryFailed; }
      PushEvent(approvals[a].turn, ApprovalSettled(a, outcome, "decision"), false);
      reply := Done;
    }

    // -------------------------------------------------------------------------
    // Ending a turn.

    /** Withdraws every pending approval of the turn, in whatever order the map
        is visited. */
    method Withdraw(t: nat, status: ApprovalStatus) returns (order: seq<nat>)
      requires status != Pending
      modifies this`approvals
      ensures Visits(old(View()), t, order)
      ensures WithdrawnOnly(old(View()), approvals, order, status)
    {
      order := [];
      var rest := approvals.Keys;
      while rest != {}
        invariant rest <= approvals.Keys
        invariant Collected(old(View()), t, approvals.Keys - rest, order)
        invariant WithdrawnOnly(old(View()), approvals, order, status)
        decreases |rest|
      {
        var a :| a in rest;
        if approvals[a].turn == t && approvals[a].status == Pending {
          approvals := approvals[a := approvals[a].(status := status, sender := false)];
          order := order + [a];
        }
        rest := rest - {a};
      }
    }

    method Terminalize(t: nat, status: TurnStatus, detail: string) returns (order: seq<nat>)
      requires Valid() && IsTerminal(status)
      modifies this
      ensures Visits(old(View()), t, order)
      ensures View() == Owner.Terminalize(enc, old(View()), t, status, detail, order) && Valid()
    {
      if t !in turns || IsTerminal(turns[t].status) {
        return [];
      }
      order := CloseTurn(t, status);
      TerminalizeKeepsInv(enc, old(View()), t, status, detail, order);
      Announce(t, order);
      PushEvent(t, TurnOver(status, detail), true);
    }

    /** Releases the admission of a live turn, exactly once. */
    method CloseTurn(t: nat, status: TurnStatus) returns (order: seq<nat>)
      requires Valid() && IsTerminal(status) && t in turns && !IsTerminal(turns[t].status)
      modifies this`turns, this`activeTurns, this`approvals
      ensures Visits(old(View()), t, order)
      ensures View() == Close(old(View()), t, status) && Valid() && t in turns
      ensures activeTurns == old(activeTurns) - 1
    {
      CountLiveAtLeast(turns, t, nextTurn);
      CloseKeepsInv(enc, View(), t, status);
      order := Withdraw(t, Denied);
      CloseIsWithdrawal(old(View()), t, status, order, approvals);
      turns := turns[t := turns[t].(status := status)];
      activeTurns := Monus(activeTurns, 1);
    }

    method Announce(t: nat, order: seq<nat>)
      requires Sound(enc, View()) && t in turns
      modifies this`turns, this`replayBytes, this`published, this`nextEvent
      ensures View() == PushDenials(enc, old(View()), t, order)
      ensures Sound(enc, View()) && t in turns
    {
      var i := 0;
      while i < |order|
        invariant 0 <= i <= |order|
        invariant Sound(enc, View()) && t in turns
        invariant PushDenials(enc, View(), t, order[i..]) == PushDenials(enc, old(View()), t, order)
      {
        assert order[i..][1..] == order[i + 1..];
        PushStaysSound(enc, View(), t, ApprovalSettled(order[i], Denied, "terminal"), false);
        PushEvent(t, ApprovalSettled(order[i], Denied, "terminal"), false);
        i := i + 1;
      }
    }

    method DenyOne(t: nat, authority: Authority, a: nat, acknowledged: bool)
      requires Sound(enc, View()) && t in turns && a in approvals
      modifies this
      ensures View() == OwnerSafety.DenyOne(enc, old(View()), t, authority, a, acknowledged)
      ensures Sound(enc, View()) && t in turns
    {
      Hand(a, if TimesOut(authority) then Timeout else Deny, acknowledged, Denied);
      PushStaysSound(enc, View(), t, ApprovalSettled(a, Denied, "interrupt"), false);
      PushEvent(t, ApprovalSettled(a, Denied, "interrupt"), false);
    }

    method DeliverClaimed(t: nat, authority: Authority, order: seq<nat>, acks: seq<bool>) returns (all: bool)
      requires Sound(enc, View()) && t in turns && forall a :: a in order ==> a in approvals
      modifies this
      ensures (View(), all) == DeliverAll(enc, old(View()), t, authority, order, acks)
    {
      var i := 0;
      while i < |order|
        invariant 0 <= i <= |order| && (i > 0 ==> i <= |acks|)
        invariant Sound(enc, View()) && t in turns
        invariant forall a :: a in order[i..] ==> a in approvals
        invariant DeliverAll(enc, View(), t, authority, order[i..], acks[i..]) == DeliverAll(enc, old(View()), t, authority, order, acks)
      {
        assert order[i] in order[i..] && order[i..][1..] == order[i + 1..];
        DeliverNext(enc, View(), t, authority, order[i..], acks[i..]);
        var acknowledged := i < |acks| && acks[i];
        assert acknowledged ==> acks[i..][1..] == acks[i + 1..];
        DenyOne(t, authority, order[i], acknowledged);
        if !acknowledged { return false; }
        i := i + 1;
      }
      all := true;
    }

    /** Claims every pending approval of the turn before the first delivery, and
        reports an interruption only on the runtime's own acknowledgement. */
    method Interrupt(t: nat, authority: Authority, acks: seq<bool>, control: Control) returns (reply: Reply, order: seq<nat>)
      requires Valid()
      modifies this
      ensures Visits(old(View()), t, order)
      ensures (View(), reply) == Owner.Interrupt(enc, old(View()), t, authority, order, acks, control) && Valid()
    {
      order := [];
      if t !in turns || IsTerminal(turns[t].status) {
        return if t !in turns then NotFound else TurnTerminal, [];
      }
      ghost var s := View();
      order := ClaimPending(t);
      DeliveriesOfInterrupt(enc, s, t, authority, order, acks);
      DeliveredIsLive(enc, s, t, authority, order, acks);
      var all := DeliverClaimed(t, authority, order, acks);
      if !all { return DeliveryFailed, order; }
      if !turns[t].control { return TurnClosed, order; }
      reply := Conclude(t, authority, control);
    }

    method ClaimPending(t: nat) returns (claimed: seq<nat>)
      requires Valid()
      modifies this`approvals
      ensures Visits(old(View()), t, claimed) && View() == ClaimAll(old(View()), t) && Valid()
    {
      ClaimAllKeepsInv(enc, View(), t);
      claimed := Withdraw(t, Delivering);
      ClaimIsWithdrawal(old(View()), t, claimed, approvals);
    }

    /** What the runtime's answer to the interrupt makes of the turn. */
    method Conclude(t: nat, authority: Authority, control: Control) returns (reply: Reply)
      requires Valid() && Visits(View(), t, [])
      modifies this
      ensures (View(), reply) == Owner.Answer(enc, old(View()), t, authority, control) && Valid()
    {
      if control.AckTimedOut? { return InterruptTimeout; }
      var order: seq<nat>;
      if control.ReportsInterrupted? {
        order := Terminalize(t, if TimesOut(authority) then Failed else Interrupted, "interrupt");
      } else {
        order := Terminalize(t, Failed, "delivery_ambiguous");
      }
      NothingVisited(old(View()), t, order);
      reply := Done;
    }

    method ControllerDropped(t: nat, acks: seq<bool>, control: Control) returns (ghost order: seq<nat>)
      requires Valid()
      modifies this
      ensures Possible(old(View()), ControllerDrop(t, order, acks, control))
      ensures View() == Step(enc, old(View()), ControllerDrop(t, order, acks, control)) && Valid()
    {
      var reply, visited := Interrupt(t, SseDrop, acks, control);
      order := visited;
      ReleaseKeepsInv(enc, View(), t);
      if t in turns { turns := turns[t := turns[t].(controller := false)]; }
    }

    method ApprovalExpired(t: nat, a: nat, acks: seq<bool>, control: Control) returns (ghost order: seq<nat>)
      requires Valid()
      modifies this
      ensures Possible(old(View()), ApprovalDeadline(t, a, order, acks, control))
      ensures View() == Step(enc, old(View()), ApprovalDeadline(t, a, order, acks, control)) && Valid()
    {
      if a in approvals && approvals[a].turn == t && approvals[a].status == Pending {
        var reply, visited := Interrupt(t, ApprovalTimeout, acks, control);
        order := visited;
      } else {
        order := ListPending(View(), t);
      }
    }

    method Finish(t: nat, result: RunResult) returns (order: seq<nat>)
      requires Valid()
      modifies this
      ensures Visits(old(View()), t, order)
      ensures View() == Owner.Finish(enc, old(View()), t, result, order) && Valid()
    {
      if result.RunFailed? { ready := false; }
      assert PendingOf(View(), t) == PendingOf(old(View()), t);
      match result
      case RunCompleted(summary) => order := Terminalize(t, Completed, summary);
      case RunInterrupted => order := Terminalize(t, Interrupted, "interrupted");
      case RunRejected => order := Terminalize(t, Failed, "turn_rejected");
      case RunFailed => order := Terminalize(t, Failed, "runtime_failure");
    }
  }
}
